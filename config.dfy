/** The built-in configuration that a caller's configuration is merged over. */
module Config {
  import opened Interface

  /** `DEFAULT_CONFIG`. */
  const DefaultConfig: FluidDesignSystemConfig := FluidDesignSystemConfig(
    ConfigurationSize(320.0, 18.0, MinorThird),
    ConfigurationSize(1240.0, 20.0, MajorThird),
    [-5, 5],
    map[
      "-3XS" := 0.25, "-2XS" := 0.5, "-XS" := 0.75, "-S" := 1.0, "-M" := 1.5,
      "-L" := 2.0, "-XL" := 3.0, "-2XL" := 4.0, "-3XL" := 6.0, "-4XL" := 8.0
    ],
    [
      ("-3XS", "-2XS"), ("-2XS", "-XS"), ("-XS", "-S"), ("-S", "-M"),
      ("-M", "-L"), ("-L", "-XL"), ("-XL", "-2XL"), ("-2XL", "-3XL")
    ],
    [])

  /** The default viewports are ordered, so their widths differ. */
  lemma DefaultWidthsOrdered()
    ensures DefaultConfig.minViewport.width < DefaultConfig.maxViewport.width
  {
  }

  /** The default step range has two non-zero ends on either side of 0. */
  lemma DefaultStepsStraddleZero()
    ensures |DefaultConfig.typeScaleSteps| > 0
    ensures DefaultConfig.typeScaleSteps[0] < 0 < DefaultConfig.typeScaleSteps[|DefaultConfig.typeScaleSteps| - 1]
  {
  }

  /** No default space step is switched off. */
  lemma DefaultMultipliersPositive()
    ensures |DefaultConfig.spaceSteps| == 10
    ensures forall k :: k in DefaultConfig.spaceSteps ==> DefaultConfig.spaceSteps[k] > 0.0
  {
  }

  /** Every default space pair names two default space steps. */
  lemma DefaultPairsNameSteps()
    ensures forall i :: 0 <= i < |DefaultConfig.spacePairs| ==>
      DefaultConfig.spacePairs[i].0 in DefaultConfig.spaceSteps
      && DefaultConfig.spacePairs[i].1 in DefaultConfig.spaceSteps
  {
  }

  lemma DefaultCustomPairsEmpty()
    ensures DefaultConfig.customPairs == []
  {
  }

  lemma DefaultFontSizes()
    ensures DefaultConfig.minViewport.fontSize == 18.0 <= DefaultConfig.maxViewport.fontSize == 20.0
  {
  }
}
