/** The ratio table and the record types shared by the generator. */
module Interface {
  import opened Results

  /** The keys of the `scaleSteps` table (`TypeScaleNames`). */
  datatype TypeScaleName =
    | MinorSecond | MajorSecond | MinorThird | MajorThird
    | PerfectFourth | AugmentedFourth | PerfectFifth | GoldenRatio
    | MajorSixth | MinorSeventh | MajorSeventh | Octave

  /** The keys of `scaleSteps` in declaration order. */
  const ScaleOrder: seq<TypeScaleName> := [
    MinorSecond, MajorSecond, MinorThird, MajorThird,
    PerfectFourth, AugmentedFourth, PerfectFifth, GoldenRatio,
    MajorSixth, MinorSeventh, MajorSeventh, Octave
  ]

  /** The property name under which a ratio is declared. */
  function Key(n: TypeScaleName): string {
    match n
    case MinorSecond => "minor-second"
    case MajorSecond => "major-second"
    case MinorThird => "minor-third"
    case MajorThird => "major-third"
    case PerfectFourth => "perfect-fourth"
    case AugmentedFourth => "augmented-fourth"
    case PerfectFifth => "perfect-fifth"
    case GoldenRatio => "golden-ratio"
    case MajorSixth => "major-sixth"
    case MinorSeventh => "minor-seventh"
    case MajorSeventh => "major-seventh"
    case Octave => "octave"
  }

  /** `scaleSteps[s]`: which ratio, if any, is declared under the name `s`. */
  function Lookup(s: string): Option<TypeScaleName> {
    if s == "minor-second" then Some(MinorSecond)
    else if s == "major-second" then Some(MajorSecond)
    else if s == "minor-third" then Some(MinorThird)
    else if s == "major-third" then Some(MajorThird)
    else if s == "perfect-fourth" then Some(PerfectFourth)
    else if s == "augmented-fourth" then Some(AugmentedFourth)
    else if s == "perfect-fifth" then Some(PerfectFifth)
    else if s == "golden-ratio" then Some(GoldenRatio)
    else if s == "major-sixth" then Some(MajorSixth)
    else if s == "minor-seventh" then Some(MinorSeventh)
    else if s == "major-seventh" then Some(MajorSeventh)
    else if s == "octave" then Some(Octave)
    else None
  }

  /** The multiplier `scaleSteps[n]`; every one of them makes a growing scale. */
  function Ratio(n: TypeScaleName): (r: real)
    ensures r > 1.0
  {
    match n
    case MinorSecond => 1.067
    case MajorSecond => 1.125
    case MinorThird => 1.2
    case MajorThird => 1.25
    case PerfectFourth => 1.333
    case AugmentedFourth => 1.414
    case PerfectFifth => 1.5
    case GoldenRatio => 1.618
    case MajorSixth => 1.667
    case MinorSeventh => 1.778
    case MajorSeventh => 1.875
    case Octave => 2.0
  }

  /** A value of `TypeScaleNames` is always found in the table under its own key. */
  lemma LookupKey(n: TypeScaleName)
    ensures Lookup(Key(n)) == Some(n)
  {
  }

  /** The table has no key besides those of `TypeScaleNames`. */
  lemma LookupOnlyKeys(s: string)
    ensures Lookup(s).Some? ==> Key(Lookup(s).value) == s
  {
  }

  /** Declaration order lists every name exactly once. */
  lemma ScaleOrderEnumerates()
    ensures forall n: TypeScaleName :: n in ScaleOrder
    ensures forall i, j :: 0 <= i < j < |ScaleOrder| ==> ScaleOrder[i] != ScaleOrder[j]
  {
    forall n: TypeScaleName ensures n in ScaleOrder {
      match n
      case MinorSecond => assert ScaleOrder[0] == n;
      case MajorSecond => assert ScaleOrder[1] == n;
      case MinorThird => assert ScaleOrder[2] == n;
      case MajorThird => assert ScaleOrder[3] == n;
      case PerfectFourth => assert ScaleOrder[4] == n;
      case AugmentedFourth => assert ScaleOrder[5] == n;
      case PerfectFifth => assert ScaleOrder[6] == n;
      case GoldenRatio => assert ScaleOrder[7] == n;
      case MajorSixth => assert ScaleOrder[8] == n;
      case MinorSeventh => assert ScaleOrder[9] == n;
      case MajorSeventh => assert ScaleOrder[10] == n;
      case Octave => assert ScaleOrder[11] == n;
    }
  }

  /** The ratios grow strictly along declaration order, from 1.067 to 2. */
  lemma RatiosIncrease()
    ensures forall i, j :: 0 <= i < j < |ScaleOrder| ==> Ratio(ScaleOrder[i]) < Ratio(ScaleOrder[j])
    ensures Ratio(ScaleOrder[0]) == 1.067 && Ratio(ScaleOrder[|ScaleOrder| - 1]) == 2.0
  {
  }

  lemma ThirdsRatios()
    ensures Ratio(MinorThird) == 1.2 && Ratio(MajorThird) == 1.25
    ensures Lookup("minor-third") == Some(MinorThird) && Lookup("major-third") == Some(MajorThird)
  {
  }

  /** One end of the responsive range (`ConfigurationSize`); sizes in px. */
  datatype ConfigurationSize = ConfigurationSize(width: real, fontSize: real, typeScale: TypeScaleName)

  /** A key/value entry of a string-keyed record, in `Object.entries` order. */
  type Pair = (string, string)

  /** A fully populated configuration (`FluidDesignSystemConfig`).
      `spacePairs` and `customPairs` keep their entries in `Object.entries`
      order (integer-like keys ascending, then the others as inserted),
      which decides which missing name is reported and which entry wins when
      two pairs produce the same key. */
  datatype FluidDesignSystemConfig = FluidDesignSystemConfig(
    minViewport: ConfigurationSize,
    maxViewport: ConfigurationSize,
    typeScaleSteps: seq<int>,
    spaceSteps: map<string, real>,
    spacePairs: seq<Pair>,
    customPairs: seq<Pair>)

  /** What a caller passes (`Configuration`): both viewports are mandatory,
      every other field may be left out. */
  datatype Configuration = Configuration(
    minViewport: ConfigurationSize,
    maxViewport: ConfigurationSize,
    typeScaleSteps: Option<seq<int>>,
    spaceSteps: Option<map<string, real>>,
    spacePairs: Option<seq<Pair>>,
    customPairs: Option<seq<Pair>>)

  /** A resolved token. */
  datatype ClampedValue = ClampedValue(clamp: string, min: real, max: real)

  /** The generator's output: four token tables (`FluidDesignSystemCSSInput`). */
  datatype FluidDesignSystemCSSInput = FluidDesignSystemCSSInput(
    typeScale: map<int, ClampedValue>,
    spaceSteps: map<string, ClampedValue>,
    spacePairs: map<string, ClampedValue>,
    customPairs: map<string, ClampedValue>)
}
