/** The fluid-design token generator: configuration merge, the type scale,
    the space steps, the space and custom pairs, and the CSS text. */
module Builder {
  import opened Results
  import opened Render
  import opened Interface
  import opened Config

  // ---------------------------------------------------------------------
  // Numbers
  // ---------------------------------------------------------------------

  /** `Math.round(100 * x)`: the nearest integer, ties going up. */
  function RoundHundredths(x: real): int {
    (100.0 * x + 0.5).Floor
  }

  /** `Math.round(100 * x)` is the one integer less than half away from
      `100 * x`, or exactly half below it. */
  lemma RoundHundredthsNearest(x: real)
    ensures RoundHundredths(x) as real - 0.5 <= 100.0 * x < RoundHundredths(x) as real + 0.5
  {
  }

  /** `round(x)`: `x` to two decimals, ties going up. */
  function Round(x: real): real {
    Hundredth(RoundHundredths(x))
  }

  /** The number `k / 100`. */
  function Hundredth(k: int): real {
    k as real / 100.0
  }

  /** `round(x)` is a whole number of hundredths, at most half a hundredth
      away from `x`. */
  lemma RoundBounds(x: real)
    ensures 100.0 * Round(x) == RoundHundredths(x) as real
    ensures x - 0.005 < Round(x) <= x + 0.005
  {
  }

  /** A rounded value is left as it is by a second rounding. */
  lemma RoundIdempotent(x: real)
    ensures Round(Round(x)) == Round(x)
  {
    var k := RoundHundredths(x);
    assert 100.0 * Round(x) == k as real;
    assert RoundHundredths(Round(x)) == k;
  }

  /** `round(x)` is `k / 100` for the `k` less than half away from `100 * x`,
      or exactly half below it. */
  lemma RoundNear(x: real, k: int)
    requires k as real - 0.5 <= 100.0 * x < k as real + 0.5
    ensures Round(x) == k as real / 100.0
  {
    var r := RoundHundredths(x);
    RoundHundredthsNearest(x);
    assert r as real < k as real + 1.0 && k as real < r as real + 1.0;
    assert r == k;
  }

  /** A multiple of 1/100 is left as it is. */
  lemma RoundOfHundredths(k: int)
    ensures Round(k as real / 100.0) == k as real / 100.0
  {
    var x := k as real / 100.0;
    assert 100.0 * x == k as real;
    assert RoundHundredths(x) == k;
  }

  /** A value half-way between two hundredths goes to the upper one, also
      below zero. */
  lemma RoundTiesUp(k: int)
    ensures Round((2 * k + 1) as real / 200.0) == (k + 1) as real / 100.0
  {
    var x := (2 * k + 1) as real / 200.0;
    assert 100.0 * x == k as real + 0.5;
    RoundNear(x, k + 1);
  }

  lemma RoundMonotone(x: real, y: real)
    requires x <= y
    ensures Round(x) <= Round(y)
  {
    var a, b := RoundHundredths(x), RoundHundredths(y);
    assert a as real < b as real + 1.0;
    assert a <= b;
  }

  /** `r` to the power `n`. */
  function NatPow(r: real, n: nat): real {
    if n == 0 then 1.0 else r * NatPow(r, n - 1)
  }

  lemma {:induction false} NatPowPositive(r: real, n: nat)
    requires r > 0.0
    ensures NatPow(r, n) > 0.0
  {
    if n > 0 {
      NatPowPositive(r, n - 1);
      MulPositive(r, NatPow(r, n - 1));
    }
  }

  lemma MulPositive(x: real, y: real)
    requires x > 0.0 && y > 0.0
    ensures x * y > 0.0
  {
  }

  /** `Math.pow(r, i)` for an integer exponent: `r^-n == 1 / r^n`. */
  function Pow(r: real, i: int): real
    requires r > 0.0
  {
    if i >= 0 then NatPow(r, i) else (NatPowPositive(r, -i); 1.0 / NatPow(r, -i))
  }

  /** A positive base has positive powers, also for negative exponents. */
  lemma PowPositive(r: real, i: int)
    requires r > 0.0
    ensures Pow(r, i) > 0.0
  {
    if i >= 0 {
      NatPowPositive(r, i);
    } else {
      NatPowPositive(r, -i);
    }
  }

  /** Each step multiplies by the ratio, on both sides of zero. */
  lemma PowStep(r: real, i: int)
    requires r > 0.0
    ensures Pow(r, i + 1) == Pow(r, i) * r
  {
    if i < 0 {
      var n := -i;
      NatPowPositive(r, n - 1);
      assert NatPow(r, n) == r * NatPow(r, n - 1);
      if n > 1 {
        assert Pow(r, i + 1) == 1.0 / NatPow(r, n - 1);
      }
    }
  }

  /** A ratio above 1 makes the powers grow strictly with the exponent. */
  lemma PowIncreasing(r: real, i: int)
    requires r > 1.0
    ensures Pow(r, i) < Pow(r, i + 1)
  {
    var x := Pow(r, i);
    PowStep(r, i);
    PowPositive(r, i);
    MulGrows(x, r);
    assert x < x * r == Pow(r, i + 1);
  }

  lemma {:induction false} NatPowMonotoneBase(r: real, s: real, n: nat)
    requires 0.0 < r <= s
    ensures NatPow(r, n) <= NatPow(s, n)
  {
    if n > 0 {
      var a, b := NatPow(r, n - 1), NatPow(s, n - 1);
      NatPowMonotoneBase(r, s, n - 1);
      NatPowPositive(r, n - 1);
      MulMonotone(r, s, a);
      MulMonotone(a, b, s);
      assert s * a == a * s && s * b == b * s;
    }
  }

  lemma MulGrows(x: real, r: real)
    requires x > 0.0 && r > 1.0
    ensures x < x * r
  {
    assert x * r - x == x * (r - 1.0);
  }

  lemma MulStrict(x: real, y: real, c: real)
    requires x < y && 0.0 < c
    ensures c * x < c * y
  {
    assert c * y - c * x == c * (y - x);
  }

  lemma MulMonotone(x: real, y: real, c: real)
    requires x <= y && 0.0 <= c
    ensures x * c <= y * c
  {
  }

  // ---------------------------------------------------------------------
  // clampBuilder
  // ---------------------------------------------------------------------


  /** Growth of the size, in rem per rem of viewport width. */
  function Slope(minWidthPx: real, maxWidthPx: real, minSizePx: real, maxSizePx: real): real
    requires minWidthPx != maxWidthPx
  {
    (maxSizePx / 16.0 - minSizePx / 16.0)
      / (maxWidthPx / 16.0 - minWidthPx / 16.0)
  }

  /** Size, in rem, of the interpolation line at viewport width zero. */
  function Intercept(minWidthPx: real, maxWidthPx: real, minSizePx: real, maxSizePx: real): real
    requires minWidthPx != maxWidthPx
  {
    -(minWidthPx / 16.0) * Slope(minWidthPx, maxWidthPx, minSizePx, maxSizePx)
      + minSizePx / 16.0
  }

  /** The line through both anchors: at the minimum width it gives the
      minimum size, at the maximum width the maximum size (all in rem). */
  lemma InterpolationHitsAnchors(minWidthPx: real, maxWidthPx: real, minSizePx: real, maxSizePx: real)
    requires minWidthPx != maxWidthPx
    ensures var slope, b := Slope(minWidthPx, maxWidthPx, minSizePx, maxSizePx),
                           Intercept(minWidthPx, maxWidthPx, minSizePx, maxSizePx);
      && b + slope * (minWidthPx / 16.0) == minSizePx / 16.0
      && b + slope * (maxWidthPx / 16.0) == maxSizePx / 16.0
  {
    var w0, w1 := minWidthPx / 16.0, maxWidthPx / 16.0;
    var s0, s1 := minSizePx / 16.0, maxSizePx / 16.0;
    var slope := Slope(minWidthPx, maxWidthPx, minSizePx, maxSizePx);
    assert w1 - w0 != 0.0;
    assert slope * (w1 - w0) == s1 - s0;
  }

  /** Equal sizes make a flat token: no growth, and the size itself. */
  lemma FlatWhenSizesEqual(minWidthPx: real, maxWidthPx: real, sizePx: real)
    requires minWidthPx != maxWidthPx
    ensures Slope(minWidthPx, maxWidthPx, sizePx, sizePx) == 0.0
    ensures Intercept(minWidthPx, maxWidthPx, sizePx, sizePx) == sizePx / 16.0
  {
  }

  /** The four numbers of a clamp expression, in hundredths: the minimum
      (rem), the intercept (rem), the growth (vw) and the maximum (rem). */
  datatype ClampParts = ClampParts(min: int, intercept: int, slope: int, max: int)

  /** `clamp(<min>rem, calc(<intercept>rem + <slope>vw), <max>rem)` around
      four printed numbers. */
  function ClampTemplate(min: string, intercept: string, slopeVw: string, max: string): string {
    "clamp(" + min + "rem, calc(" + intercept + "rem + " + slopeVw + "vw), " + max + "rem)"
  }

  /** The clamp expression of four numbers. */
  function ClampText(min: real, intercept: real, slopeVw: real, max: real): string {
    ClampTemplate(NumStr(min), NumStr(intercept), NumStr(slopeVw), NumStr(max))
  }

  /** A clamp expression of multiples of 1/100 prints each of them as
      `HundredthsStr` does. */
  lemma ClampTextPrints(min: int, intercept: int, slope: int, max: int)
    ensures ClampText(Hundredth(min), Hundredth(intercept), Hundredth(slope), Hundredth(max))
         == ClampTemplate(HundredthsStr(min), HundredthsStr(intercept), HundredthsStr(slope), HundredthsStr(max))
  {
    NumStrOfHundredths(min);
    NumStrOfHundredths(intercept);
    NumStrOfHundredths(slope);
    NumStrOfHundredths(max);
  }

  /** Reads the four numbers back out of a clamp expression. */
  function ParseClamp(s: string): Option<ClampParts> {
    var s1 :- Expect("clamp(", s);
    var (min, s2) :- ReadNum(s1);
    var s3 :- Expect("rem, calc(", s2);
    var (intercept, s4) :- ReadNum(s3);
    var s5 :- Expect("rem + ", s4);
    var (slope, s6) :- ReadNum(s5);
    var s7 :- Expect("vw), ", s6);
    var (max, s8) :- ReadNum(s7);
    var s9 :- Expect("rem)", s8);
    if s9 == [] then Some(ClampParts(min, intercept, slope, max)) else None
  }

  /** The clamp template, regrouped so that it can be read from the left. */
  lemma ClampTextShape(a: string, b: string, c: string, d: string)
    ensures "clamp(" + a + "rem, calc(" + b + "rem + " + c + "vw), " + d + "rem)"
         == "clamp(" + (a + ("rem, calc(" + (b + ("rem + " + (c + ("vw), " + (d + "rem)")))))))
  {
  }

  /** A clamp expression of multiples of 1/100 carries its four numbers
      unambiguously. */
  lemma ParseClampText(p: ClampParts)
    ensures ParseClamp(ClampText(Hundredth(p.min), Hundredth(p.intercept), Hundredth(p.slope), Hundredth(p.max)))
         == Some(p)
  {
    NumStrOfHundredths(p.min);
    NumStrOfHundredths(p.intercept);
    NumStrOfHundredths(p.slope);
    NumStrOfHundredths(p.max);
    var a, b, c, d := HundredthsStr(p.min), HundredthsStr(p.intercept), HundredthsStr(p.slope), HundredthsStr(p.max);
    ClampTextShape(a, b, c, d);
    var t4 := d + "rem)";
    var t3 := c + ("vw), " + t4);
    var t2 := b + ("rem + " + t3);
    var t1 := a + ("rem, calc(" + t2);
    ExpectLiteral("clamp(", t1);
    ReadNumStr(p.min, "rem, calc(" + t2);
    ExpectLiteral("rem, calc(", t2);
    ReadNumStr(p.intercept, "rem + " + t3);
    ExpectLiteral("rem + ", t3);
    ReadNumStr(p.slope, "vw), " + t4);
    ExpectLiteral("vw), ", t4);
    ReadNumStr(p.max, "rem)");
    ExpectLiteral("rem)", []);
    assert "rem)" + [] == "rem)";
  }

  /** `clampBuilder`: the CSS `clamp()` expression interpolating between
      two (viewport width, size) anchors given in px. */
  function ClampBuilder(minWidthPx: real, maxWidthPx: real, minSizePx: real, maxSizePx: real): string
    requires minWidthPx != maxWidthPx
  {
    var minSize := minSizePx / 16.0;
    var maxSize := maxSizePx / 16.0;
    var slope := Slope(minWidthPx, maxWidthPx, minSizePx, maxSizePx);
    var yAxisIntersection := Intercept(minWidthPx, maxWidthPx, minSizePx, maxSizePx);
    ClampText(Round(minSize), Round(yAxisIntersection), Round(slope * 100.0), Round(maxSize))
  }

  /** The reading of a clamp expression that `clampBuilder` prints: minimum and
      maximum size in rem, the interpolation line's intercept in rem and its
      growth per 100 vw, each rounded to hundredths. */
  function ClampPartsOf(minWidthPx: real, maxWidthPx: real, minSizePx: real, maxSizePx: real): ClampParts
    requires minWidthPx != maxWidthPx
  {
    ClampParts(
      RoundHundredths(minSizePx / 16.0),
      RoundHundredths(Intercept(minWidthPx, maxWidthPx, minSizePx, maxSizePx)),
      RoundHundredths(Slope(minWidthPx, maxWidthPx, minSizePx, maxSizePx) * 100.0),
      RoundHundredths(maxSizePx / 16.0))
  }

  /** What `clampBuilder` prints reads back as its four rounded numbers. */
  lemma ClampBuilderParses(minWidthPx: real, maxWidthPx: real, minSizePx: real, maxSizePx: real)
    requires minWidthPx != maxWidthPx
    ensures ParseClamp(ClampBuilder(minWidthPx, maxWidthPx, minSizePx, maxSizePx))
         == Some(ClampPartsOf(minWidthPx, maxWidthPx, minSizePx, maxSizePx))
  {
    var p := ClampPartsOf(minWidthPx, maxWidthPx, minSizePx, maxSizePx);
    assert ClampBuilder(minWidthPx, maxWidthPx, minSizePx, maxSizePx)
        == ClampText(Hundredth(p.min), Hundredth(p.intercept), Hundredth(p.slope), Hundredth(p.max));
    ParseClampText(p);
  }

  // ---------------------------------------------------------------------
  // Maps built one key at a time
  // ---------------------------------------------------------------------

  /** `f(i)` for every integer `i` from `lo` up to, not including, `hi`. */
  function RangeMap<V>(f: int -> V, lo: int, hi: int): map<int, V> {
    map i | lo <= i < hi :: f(i)
  }

  lemma RangeMapGrow<V>(f: int -> V, lo: int, hi: int)
    requires lo <= hi
    ensures RangeMap(f, lo, hi)[hi := f(hi)] == RangeMap(f, lo, hi + 1)
  {
  }

  lemma RangeMapEmpty<V>(f: int -> V, lo: int, hi: int)
    requires hi <= lo
    ensures RangeMap(f, lo, hi) == map[]
  {
  }

  /** Each integer of the range is a key, mapped to its image. */
  lemma RangeMapAt<V>(f: int -> V, lo: int, hi: int, i: int)
    requires lo <= i < hi
    ensures i in RangeMap(f, lo, hi) && RangeMap(f, lo, hi)[i] == f(i)
  {
  }

  /** A range that has grown from `lo` past `hi` is the range up to `hi`,
      also when it never started because `hi <= lo`. */
  lemma RangeMapEnds<V>(f: int -> V, lo: int, i: int, hi: int)
    requires (i == lo || lo <= i <= hi) && hi <= i
    ensures RangeMap(f, lo, i) == RangeMap(f, lo, hi)
  {
    if i != hi {
      RangeMapEmpty(f, lo, i);
      RangeMapEmpty(f, lo, hi);
    }
  }

  /** `f(m[k])` for every key `k` of `m` in `names` whose value is non-zero. */
  function NonZeroMap<V>(m: map<string, real>, names: set<string>, f: real -> V): map<string, V> {
    map k | k in m && k in names && m[k] != 0.0 :: f(m[k])
  }

  lemma NonZeroMapGrow<V>(m: map<string, real>, names: set<string>, k: string, f: real -> V)
    requires k in m
    ensures m[k] == 0.0 ==> NonZeroMap(m, names + {k}, f) == NonZeroMap(m, names, f)
    ensures m[k] != 0.0 ==> NonZeroMap(m, names + {k}, f) == NonZeroMap(m, names, f)[k := f(m[k])]
  {
  }

  // ---------------------------------------------------------------------
  // createEffectiveConfig
  // ---------------------------------------------------------------------

  function GetOr<T>(o: Option<T>, default: T): T {
    match o
    case Some(v) => v
    case None => default
  }

  /** `{ ...DEFAULT_CONFIG, ...userConfig }`: each top-level field the caller
      supplies replaces the default one as a whole. */
  function CreateEffectiveConfig(userConfig: Configuration): FluidDesignSystemConfig {
    FluidDesignSystemConfig(
      userConfig.minViewport,
      userConfig.maxViewport,
      GetOr(userConfig.typeScaleSteps, DefaultConfig.typeScaleSteps),
      GetOr(userConfig.spaceSteps, DefaultConfig.spaceSteps),
      GetOr(userConfig.spacePairs, DefaultConfig.spacePairs),
      GetOr(userConfig.customPairs, DefaultConfig.customPairs))
  }

  /** The caller's configuration that supplies every field of `c`. */
  function Supplying(c: FluidDesignSystemConfig): Configuration {
    Configuration(c.minViewport, c.maxViewport, Some(c.typeScaleSteps), Some(c.spaceSteps),
                  Some(c.spacePairs), Some(c.customPairs))
  }

  // ---------------------------------------------------------------------
  // buildFluidDesignSystem, as specification functions
  // ---------------------------------------------------------------------

  /** `clampBuilder` needs two different viewport widths. */
  predicate DistinctWidths(opts: FluidDesignSystemConfig) {
    opts.minViewport.width != opts.maxViewport.width
  }

  /** A token between two sizes across the configured viewports. */
  function Clamped(opts: FluidDesignSystemConfig, valueMin: real, valueMax: real): ClampedValue
    requires DistinctWidths(opts)
  {
    ClampedValue(ClampBuilder(opts.minViewport.width, opts.maxViewport.width, valueMin, valueMax),
                 valueMin, valueMax)
  }

  /** Whether the type scale is generated: a non-empty step list whose first
      and last entries are both truthy (non-zero). */
  predicate TypeScaleEnabled(steps: seq<int>) {
    |steps| > 0 && steps[0] != 0 && steps[|steps| - 1] != 0
  }

  /** Whether the `console.error` diagnostic is emitted: a non-empty step list
      with a zero end. */
  predicate Diagnostic(steps: seq<int>) {
    |steps| > 0 && !(steps[0] != 0 && steps[|steps| - 1] != 0)
  }

  /** The unrounded size of type step `i` at one viewport: the base font
      size times the ratio to the power `i`. */
  function StepSize(fontSize: real, ratio: real, i: int): real
    requires ratio > 0.0
  {
    fontSize * Pow(ratio, i)
  }

  /** Step 0 is the base font size itself. */
  lemma StepSizeZero(fontSize: real, ratio: real)
    requires ratio > 0.0
    ensures StepSize(fontSize, ratio, 0) == fontSize
  {
  }

  /** With a positive font size and a ratio above 1, each step is larger than
      the one below it. */
  lemma StepSizeIncreasing(fontSize: real, ratio: real, i: int)
    requires fontSize > 0.0 && ratio > 1.0
    ensures StepSize(fontSize, ratio, i) < StepSize(fontSize, ratio, i + 1)
  {
    var a, b := Pow(ratio, i), Pow(ratio, i + 1);
    PowIncreasing(ratio, i);
    MulStrict(a, b, fontSize);
    assert fontSize * a < fontSize * b;
  }

  /** At or above step 0, a larger font size and a larger ratio give a step
      at least as large. */
  lemma StepSizeMonotone(font0: real, font1: real, ratio0: real, ratio1: real, i: int)
    requires 0.0 < font0 <= font1 && 0.0 < ratio0 <= ratio1 && 0 <= i
    ensures StepSize(font0, ratio0, i) <= StepSize(font1, ratio1, i)
  {
    var a, b := Pow(ratio0, i), Pow(ratio1, i);
    NatPowMonotoneBase(ratio0, ratio1, i);
    NatPowPositive(ratio0, i);
    assert 0.0 < a <= b;
    MulMonotone(font0, font1, a);
    MulMonotone(a, b, font1);
    assert font0 * a <= font1 * a == a * font1 <= b * font1 == font1 * b;
  }

  function TypeStepMin(opts: FluidDesignSystemConfig, i: int): real {
    Round(StepSize(opts.minViewport.fontSize, Ratio(opts.minViewport.typeScale), i))
  }

  function TypeStepMax(opts: FluidDesignSystemConfig, i: int): real {
    Round(StepSize(opts.maxViewport.fontSize, Ratio(opts.maxViewport.typeScale), i))
  }

  function TypeStep(opts: FluidDesignSystemConfig, i: int): ClampedValue
    requires DistinctWidths(opts)
  {
    Clamped(opts, TypeStepMin(opts, i), TypeStepMax(opts, i))
  }

  /** The tokens of the steps from `lo` up to, not including, `hi`. */
  function TypeSteps(opts: FluidDesignSystemConfig, lo: int, hi: int): map<int, ClampedValue>
    requires DistinctWidths(opts)
  {
    RangeMap(i => TypeStep(opts, i), lo, hi)
  }

  /** The type scale: one token per integer step between the two ends. */
  function TypeScale(opts: FluidDesignSystemConfig): map<int, ClampedValue>
    requires DistinctWidths(opts)
  {
    var steps := opts.typeScaleSteps;
    if TypeScaleEnabled(steps) then TypeSteps(opts, steps[0], steps[|steps| - 1] + 1)
    else map[]
  }

  lemma TypeStepsGrow(opts: FluidDesignSystemConfig, lo: int, hi: int)
    requires DistinctWidths(opts) && lo <= hi
    ensures TypeSteps(opts, lo, hi)[hi := TypeStep(opts, hi)] == TypeSteps(opts, lo, hi + 1)
  {
    RangeMapGrow(i => TypeStep(opts, i), lo, hi);
  }

  lemma TypeStepsComplete(opts: FluidDesignSystemConfig, i: int)
    requires DistinctWidths(opts) && TypeScaleEnabled(opts.typeScaleSteps)
    requires var steps := opts.typeScaleSteps;
      (i == steps[0] || steps[0] <= i <= steps[|steps| - 1] + 1) && steps[|steps| - 1] < i
    ensures TypeSteps(opts, opts.typeScaleSteps[0], i) == TypeScale(opts)
  {
    var steps := opts.typeScaleSteps;
    RangeMapEnds(i => TypeStep(opts, i), steps[0], i, steps[|steps| - 1] + 1);
  }

  /** A space step: the base step's sizes times the multiplier. */
  function SpaceStep(opts: FluidDesignSystemConfig, base: ClampedValue, multiplier: real): ClampedValue
    requires DistinctWidths(opts)
  {
    Clamped(opts, Round(Scaled(base.min, multiplier)), Round(Scaled(base.max, multiplier)))
  }

  /** A size times a space-step multiplier. */
  function Scaled(size: real, multiplier: real): real {
    size * multiplier
  }

  /** Scaling by a positive multiplier keeps order. */
  lemma ScaledMonotone(a: real, b: real, m: real)
    requires a <= b && 0.0 < m
    ensures Scaled(a, m) <= Scaled(b, m)
  {
    MulMonotone(a, b, m);
  }

  /** The space steps of the configured names in `names` whose multiplier
      is truthy (non-zero), scaled from `base`. */
  function SpaceStepsOf(opts: FluidDesignSystemConfig, base: ClampedValue, names: set<string>): map<string, ClampedValue>
    requires DistinctWidths(opts)
  {
    NonZeroMap(opts.spaceSteps, names, m => SpaceStep(opts, base, m))
  }

  /** The space steps: none without a type-scale step 0, otherwise one per
      configured name whose multiplier is truthy (non-zero). */
  function SpaceSteps(opts: FluidDesignSystemConfig, typeScale: map<int, ClampedValue>): map<string, ClampedValue>
    requires DistinctWidths(opts)
  {
    if 0 in typeScale then SpaceStepsOf(opts, typeScale[0], opts.spaceSteps.Keys) else map[]
  }

  lemma SpaceStepsGrow(opts: FluidDesignSystemConfig, base: ClampedValue, done: set<string>, step: string)
    requires DistinctWidths(opts) && step in opts.spaceSteps
    ensures opts.spaceSteps[step] == 0.0 ==> SpaceStepsOf(opts, base, done + {step}) == SpaceStepsOf(opts, base, done)
    ensures opts.spaceSteps[step] != 0.0 ==>
      SpaceStepsOf(opts, base, done + {step})
      == SpaceStepsOf(opts, base, done)[step := SpaceStep(opts, base, opts.spaceSteps[step])]
  {
    NonZeroMapGrow(opts.spaceSteps, done, step, m => SpaceStep(opts, base, m));
  }

  /** The table a failing pair came from. */
  datatype PairTable = SpacePairsTable | CustomPairsTable

  /** The `Error` thrown for a pair that names a missing space step. */
  datatype PairError = PairError(table: PairTable, min: string, max: string)

  function ErrorMessage(e: PairError): string {
    "space steps isn't available for "
      + (if e.table == SpacePairsTable then "spacePair" else "customPair")
      + ": " + e.min + ", " + e.max
  }

  /** The key a pair is stored under. */
  function PairKey(p: Pair): string {
    p.0 + p.1
  }

  predicate Resolves(spaceSteps: map<string, ClampedValue>, p: Pair) {
    p.0 in spaceSteps && p.1 in spaceSteps
  }

  /** A pair's token: the first step's minimum and the second step's maximum. */
  function PairValue(opts: FluidDesignSystemConfig, spaceSteps: map<string, ClampedValue>, p: Pair): ClampedValue
    requires DistinctWidths(opts) && Resolves(spaceSteps, p)
  {
    Clamped(opts, spaceSteps[p.0].min, spaceSteps[p.1].max)
  }

  /** The index of the first pair naming a missing space step; `|pairs|`
      when every pair resolves. */
  function FirstMiss(spaceSteps: map<string, ClampedValue>, pairs: seq<Pair>): (j: nat)
    ensures j <= |pairs|
    ensures forall l :: 0 <= l < j ==> Resolves(spaceSteps, pairs[l])
    ensures j < |pairs| ==> !Resolves(spaceSteps, pairs[j])
    decreases |pairs|
  {
    if pairs == [] || !Resolves(spaceSteps, pairs[0]) then 0
    else 1 + FirstMiss(spaceSteps, pairs[1..])
  }

  /** Resolves `pairs` in order into `resolved`, stopping at the first pair
      that names a missing space step. */
  function ResolvePairs(opts: FluidDesignSystemConfig, table: PairTable, pairs: seq<Pair>,
                        spaceSteps: map<string, ClampedValue>, resolved: map<string, ClampedValue>)
    : Result<map<string, ClampedValue>, PairError>
    requires DistinctWidths(opts)
    decreases |pairs|
  {
    if pairs == [] then Ok(resolved)
    else if !Resolves(spaceSteps, pairs[0]) then Err(PairError(table, pairs[0].0, pairs[0].1))
    else
      ResolvePairs(opts, table, pairs[1..], spaceSteps,
                   resolved[PairKey(pairs[0]) := PairValue(opts, spaceSteps, pairs[0])])
  }

  /** The token set `buildFluidDesignSystem` returns, or the error it throws. */
  function Build(opts: FluidDesignSystemConfig): Result<FluidDesignSystemCSSInput, PairError>
    requires DistinctWidths(opts)
  {
    var typeScale := TypeScale(opts);
    var spaceSteps := SpaceSteps(opts, typeScale);
    var spacePairs :- ResolvePairs(opts, SpacePairsTable, opts.spacePairs, spaceSteps, map[]);
    var customPairs :- ResolvePairs(opts, CustomPairsTable, opts.customPairs, spaceSteps, map[]);
    Ok(FluidDesignSystemCSSInput(typeScale, spaceSteps, spacePairs, customPairs))
  }

  // ---------------------------------------------------------------------
  // buildFluidDesignSystem
  // ---------------------------------------------------------------------

  /** `buildFluidDesignSystem`: fills the four token tables stage by stage;
      `diagnostic` tells whether the `console.error` line is written. */
  method BuildFluidDesignSystem(opts: FluidDesignSystemConfig)
    returns (r: Result<FluidDesignSystemCSSInput, PairError>, diagnostic: bool)
    requires DistinctWidths(opts)
    ensures r == Build(opts)
    ensures diagnostic == Diagnostic(opts.typeScaleSteps)
  {
    var typeScale;
    typeScale, diagnostic := BuildTypeScale(opts);
    var spaceSteps := BuildSpaceSteps(opts, typeScale);
    var spacePairs :- ResolvePairTable(opts, SpacePairsTable, opts.spacePairs, spaceSteps);
    var customPairs :- ResolvePairTable(opts, CustomPairsTable, opts.customPairs, spaceSteps);
    r := Ok(FluidDesignSystemCSSInput(typeScale, spaceSteps, spacePairs, customPairs));
  }

  /** The type-scale loop of `buildFluidDesignSystem`: one token per step
      from the first entry of the step list up to its last. */
  method BuildTypeScale(opts: FluidDesignSystemConfig)
    returns (typeScale: map<int, ClampedValue>, diagnostic: bool)
    requires DistinctWidths(opts)
    ensures typeScale == TypeScale(opts)
    ensures diagnostic == Diagnostic(opts.typeScaleSteps)
  {
    var minViewport, maxViewport := opts.minViewport, opts.maxViewport;
    var typeScaleSteps := opts.typeScaleSteps;
    typeScale := map[];
    diagnostic := false;
    if |typeScaleSteps| > 0 {
      var minFluidTypeStep := typeScaleSteps[0];
      var maxFluidTypeStep := typeScaleSteps[|typeScaleSteps| - 1];
      if minFluidTypeStep != 0 && maxFluidTypeStep != 0 {
        var i := minFluidTypeStep;
        while i <= maxFluidTypeStep
          invariant i == minFluidTypeStep || minFluidTypeStep <= i <= maxFluidTypeStep + 1
          invariant typeScale == TypeSteps(opts, minFluidTypeStep, i)
        {
          var valueMin := Round(StepSize(minViewport.fontSize, Ratio(minViewport.typeScale), i));
          var valueMax := Round(StepSize(maxViewport.fontSize, Ratio(maxViewport.typeScale), i));
          var token := ClampedValue(
            ClampBuilder(minViewport.width, maxViewport.width, valueMin, valueMax), valueMin, valueMax);
          assert token == TypeStep(opts, i);
          TypeStepsGrow(opts, minFluidTypeStep, i);
          typeScale := typeScale[i := token];
          i := i + 1;
        }
        TypeStepsComplete(opts, i);
      } else {
        diagnostic := true;
      }
    }
  }

  /** The space-step loop of `buildFluidDesignSystem`: each configured step
      with a non-zero multiplier scales type step 0. */
  method BuildSpaceSteps(opts: FluidDesignSystemConfig, typeScale: map<int, ClampedValue>)
    returns (spaceSteps: map<string, ClampedValue>)
    requires DistinctWidths(opts)
    ensures spaceSteps == SpaceSteps(opts, typeScale)
  {
    var minViewport, maxViewport := opts.minViewport, opts.maxViewport;
    spaceSteps := map[];
    if 0 in typeScale {
      var base := typeScale[0];
      var remaining := opts.spaceSteps.Keys;
      while remaining != {}
        invariant remaining <= opts.spaceSteps.Keys
        invariant spaceSteps == SpaceStepsOf(opts, base, opts.spaceSteps.Keys - remaining)
        decreases remaining
      {
        var step :| step in remaining;
        SpaceStepsGrow(opts, base, opts.spaceSteps.Keys - remaining, step);
        remaining := remaining - {step};
        var stepValue := opts.spaceSteps[step];
        if stepValue == 0.0 {
          continue;
        }
        var valueMin := Round(Scaled(base.min, stepValue));
        var valueMax := Round(Scaled(base.max, stepValue));
        var token := ClampedValue(
          ClampBuilder(minViewport.width, maxViewport.width, valueMin, valueMax), valueMin, valueMax);
        assert token == SpaceStep(opts, base, stepValue);
        spaceSteps := spaceSteps[step := token];
      }
      assert opts.spaceSteps.Keys - remaining == opts.spaceSteps.Keys;
    }
  }

  /** One of the two pair loops of `buildFluidDesignSystem`. */
  method ResolvePairTable(opts: FluidDesignSystemConfig, table: PairTable, pairs: seq<Pair>,
                          spaceSteps: map<string, ClampedValue>)
    returns (r: Result<map<string, ClampedValue>, PairError>)
    requires DistinctWidths(opts)
    ensures r == ResolvePairs(opts, table, pairs, spaceSteps, map[])
  {
    var resolved: map<string, ClampedValue> := map[];
    for idx := 0 to |pairs|
      invariant ResolvePairs(opts, table, pairs, spaceSteps, map[])
             == ResolvePairs(opts, table, pairs[idx..], spaceSteps, resolved)
    {
      var (min, max) := pairs[idx];
      if min !in spaceSteps || max !in spaceSteps {
        return Err(PairError(table, min, max));
      }
      var minSpaceStep, maxSpaceStep := spaceSteps[min], spaceSteps[max];
      var valueMin, valueMax := minSpaceStep.min, maxSpaceStep.max;
      resolved := resolved[min + max := ClampedValue(
        ClampBuilder(opts.minViewport.width, opts.maxViewport.width, valueMin, valueMax), valueMin, valueMax)];
    }
    return Ok(resolved);
  }
}
