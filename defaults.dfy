/** What the built-in configuration produces. */
module Defaults {
  import opened Results
  import opened Render
  import opened Interface
  import opened Config
  import opened Builder
  import opened Properties

  /** The configuration a caller gets by supplying only the two viewports. */
  function ViewportsOnly(minViewport: ConfigurationSize, maxViewport: ConfigurationSize): FluidDesignSystemConfig {
    CreateEffectiveConfig(Configuration(minViewport, maxViewport, None, None, None, None))
  }

  /** Whatever the two viewports, as long as their widths differ, the default
      steps and pairs never make the build throw: the default step list
      reaches step 0, every default multiplier is non-zero and every default
      pair names two default steps. */
  lemma DefaultsNeverFail(minViewport: ConfigurationSize, maxViewport: ConfigurationSize)
    requires minViewport.width != maxViewport.width
    ensures Build(ViewportsOnly(minViewport, maxViewport)).Ok?
  {
    var opts := ViewportsOnly(minViewport, maxViewport);
    MergeViewportsOnly(minViewport, maxViewport);
    DefaultStepsStraddleZero();
    DefaultMultipliersPositive();
    DefaultPairsNameSteps();
    StepZero(opts);
    SpaceStepsKeys(opts);
    var spaceSteps := SpaceSteps(opts, TypeScale(opts));
    forall j | 0 <= j < |opts.spacePairs|
      ensures Resolves(spaceSteps, opts.spacePairs[j])
    {
    }
    BuildFails(opts);
  }

  /** Step 0 of the defaults is the base font size at each viewport. */
  lemma DefaultStepZero()
    ensures 0 in TypeScale(DefaultConfig)
    ensures TypeScale(DefaultConfig)[0].min == 18.0 && TypeScale(DefaultConfig)[0].max == 20.0
  {
    DefaultStepsStraddleZero();
    StepZero(DefaultConfig);
    RoundOfHundredths(1800);
    RoundOfHundredths(2000);
  }

  /** A pair may shrink as the viewport grows: under the defaults the pair
      `-L` to `-S` takes 36 px from `-L` at the small viewport and 20 px from
      `-S` at the large one. */
  lemma ReversedPairShrinks()
    ensures var spaceSteps := SpaceSteps(DefaultConfig, TypeScale(DefaultConfig));
      && Resolves(spaceSteps, ("-L", "-S"))
      && PairValue(DefaultConfig, spaceSteps, ("-L", "-S")).min == 36.0
      && PairValue(DefaultConfig, spaceSteps, ("-L", "-S")).max == 20.0
  {
    DefaultSpaceStep("-L", 2.0);
    DefaultSpaceStep("-S", 1.0);
    ScaledWhole(18.0, 2.0, 3600);
    ScaledWhole(20.0, 1.0, 2000);
  }

  /** A size scaled to a whole number of hundredths rounds to itself. */
  lemma ScaledWhole(size: real, m: real, k: int)
    requires size * m == k as real / 100.0
    ensures Round(Scaled(size, m)) == k as real / 100.0
  {
    RoundOfHundredths(k);
  }

  /** A default space step scales 18 px and 20 px by its multiplier. */
  lemma DefaultSpaceStep(k: string, m: real)
    requires k in DefaultConfig.spaceSteps && DefaultConfig.spaceSteps[k] == m
    ensures var spaceSteps := SpaceSteps(DefaultConfig, TypeScale(DefaultConfig));
      && k in spaceSteps
      && spaceSteps[k].min == Round(Scaled(18.0, m))
      && spaceSteps[k].max == Round(Scaled(20.0, m))
  {
    DefaultStepZero();
    DefaultMultipliersPositive();
    SpaceStepsKeys(DefaultConfig);
    SpaceStepsValues(DefaultConfig, k);
  }

  /** Step 1 of the defaults: 18 px times 1.2 and 20 px times 1.25. */
  lemma DefaultStepOne()
    ensures 1 in TypeScale(DefaultConfig)
    ensures TypeScale(DefaultConfig)[1].min == 21.6 && TypeScale(DefaultConfig)[1].max == 25.0
  {
    var small, large := DefaultConfig.minViewport, DefaultConfig.maxViewport;
    assert small.fontSize == 18.0 && Ratio(small.typeScale) == 1.2;
    assert large.fontSize == 20.0 && Ratio(large.typeScale) == 1.25;
    TypeScaleKeys(DefaultConfig);
    TypeScaleValues(DefaultConfig, 1);
    StepOneSizes();
  }

  lemma StepOneSizes()
    ensures Round(StepSize(18.0, 1.2, 1)) == 21.6 && Round(StepSize(20.0, 1.25, 1)) == 25.0
  {
    assert StepSize(18.0, 1.2, 1) == 21.6;
    assert StepSize(20.0, 1.25, 1) == 25.0;
    RoundOfHundredths(2160);
    RoundOfHundredths(2500);
  }

  /** Below step 0 the default ratios cross: step -5 is larger at the small
      viewport (7.23) than at the large one (6.55). */
  lemma DefaultStepMinusFiveShrinks()
    ensures -5 in TypeScale(DefaultConfig)
    ensures TypeScale(DefaultConfig)[-5].min == 7.23 && TypeScale(DefaultConfig)[-5].max == 6.55
    ensures TypeScale(DefaultConfig)[-5].max < TypeScale(DefaultConfig)[-5].min
  {
    var small, large := DefaultConfig.minViewport, DefaultConfig.maxViewport;
    assert small.fontSize == 18.0 && Ratio(small.typeScale) == 1.2;
    assert large.fontSize == 20.0 && Ratio(large.typeScale) == 1.25;
    TypeScaleKeys(DefaultConfig);
    TypeScaleValues(DefaultConfig, -5);
    StepMinusFiveSmall();
    StepMinusFiveLarge();
  }

  lemma StepMinusFiveSmall()
    ensures Round(StepSize(18.0, 1.2, -5)) == 7.23
  {
    assert NatPow(1.2, 5) == 2.48832;
    var x := StepSize(18.0, 1.2, -5);
    assert x == 18.0 / 2.48832;
    RoundNear(x, 723);
  }

  lemma StepMinusFiveLarge()
    ensures Round(StepSize(20.0, 1.25, -5)) == 6.55
  {
    assert NatPow(1.25, 5) == 3.0517578125;
    var x := StepSize(20.0, 1.25, -5);
    assert x == 20.0 / 3.0517578125;
    RoundNear(x, 655);
  }

  /** The clamp of the default step 0 is `clampBuilder(320, 1240, 18, 20)`, which reads as
      `clamp(1.13rem, calc(1.08rem + 0.22vw), 1.25rem)`: 1.125 rem at 320 px
      rounds up to 1.13, the line rises 0.2174 rem per 100 vw and meets width
      zero at 1.0815 rem. */
  lemma DefaultStepZeroClamp()
    ensures 0 in TypeScale(DefaultConfig)
    ensures TypeScale(DefaultConfig)[0].clamp == ClampBuilder(320.0, 1240.0, 18.0, 20.0)
    ensures ParseClamp(ClampBuilder(320.0, 1240.0, 18.0, 20.0)) == Some(ClampParts(113, 108, 22, 125))
  {
    DefaultStepZero();
    TypeScaleValues(DefaultConfig, 0);
    DefaultStepZeroNumbers();
    ParseClampText(ClampParts(113, 108, 22, 125));
  }

  /** The four rounded numbers of the default step 0. */
  lemma DefaultStepZeroNumbers()
    ensures ClampBuilder(320.0, 1240.0, 18.0, 20.0)
         == ClampText(Hundredth(113), Hundredth(108), Hundredth(22), Hundredth(125))
  {
    var slope := Slope(320.0, 1240.0, 18.0, 20.0);
    var b := Intercept(320.0, 1240.0, 18.0, 20.0);
    assert slope == 1.0 / 460.0;
    assert b == 1.125 - 1.0 / 23.0;
    assert RoundHundredths(18.0 / 16.0) == 113;
    assert RoundHundredths(b) == 108;
    assert RoundHundredths(slope * 100.0) == 22;
    assert RoundHundredths(20.0 / 16.0) == 125;
  }

  /** Two equal sizes make a flat token. */
  lemma FlatClamp()
    ensures ClampBuilder(320.0, 1240.0, 16.0, 16.0) == "clamp(1rem, calc(1rem + 0vw), 1rem)"
  {
    FlatWhenSizesEqual(320.0, 1240.0, 16.0);
    assert RoundHundredths(1.0) == 100;
    assert RoundHundredths(0.0) == 0;
    assert ClampBuilder(320.0, 1240.0, 16.0, 16.0)
        == ClampText(Hundredth(100), Hundredth(100), Hundredth(0), Hundredth(100));
    FlatText();
  }

  /** How a flat 1 rem token prints. */
  lemma FlatText()
    ensures ClampText(Hundredth(100), Hundredth(100), Hundredth(0), Hundredth(100))
         == "clamp(1rem, calc(1rem + 0vw), 1rem)"
  {
    ClampTextPrints(100, 100, 0, 100);
    assert HundredthsStr(100) == "1";
    assert HundredthsStr(0) == "0";
    assert ClampTemplate("1", "1", "0", "1") == "clamp(1rem, calc(1rem + 0vw), 1rem)";
  }
}
