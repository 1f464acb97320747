/** What the generator promises about the token tables it builds. */
module Properties {
  import opened Results
  import opened Interface
  import opened Config
  import opened Builder

  // ---------------------------------------------------------------------
  // createEffectiveConfig
  // ---------------------------------------------------------------------

  /** A configuration that supplies every field is taken as it is. */
  lemma MergeSuppliedIsKept(c: FluidDesignSystemConfig)
    ensures CreateEffectiveConfig(Supplying(c)) == c
  {
  }

  /** A configuration with only the two viewports gets every other field
      from the defaults. */
  lemma MergeViewportsOnly(minViewport: ConfigurationSize, maxViewport: ConfigurationSize)
    ensures CreateEffectiveConfig(Configuration(minViewport, maxViewport, None, None, None, None))
         == DefaultConfig.(minViewport := minViewport, maxViewport := maxViewport)
  {
  }

  /** The merge is shallow: a supplied table replaces the default table as a
      whole, so a default space step the caller's table does not name is
      gone, and an absent field is the default one. */
  lemma MergeIsShallow(userConfig: Configuration)
    ensures var opts := CreateEffectiveConfig(userConfig);
      && opts.minViewport == userConfig.minViewport
      && opts.maxViewport == userConfig.maxViewport
      && (userConfig.spaceSteps.Some? ==> opts.spaceSteps == userConfig.spaceSteps.value)
      && (userConfig.spaceSteps.None? ==> opts.spaceSteps == DefaultConfig.spaceSteps)
      && (userConfig.typeScaleSteps.Some? ==> opts.typeScaleSteps == userConfig.typeScaleSteps.value)
      && (userConfig.typeScaleSteps.None? ==> opts.typeScaleSteps == DefaultConfig.typeScaleSteps)
      && (userConfig.spacePairs.Some? ==> opts.spacePairs == userConfig.spacePairs.value)
      && (userConfig.spacePairs.None? ==> opts.spacePairs == DefaultConfig.spacePairs)
      && (userConfig.customPairs.Some? ==> opts.customPairs == userConfig.customPairs.value)
      && (userConfig.customPairs.None? ==> opts.customPairs == DefaultConfig.customPairs)
    ensures forall k ::
              userConfig.spaceSteps.Some? && k !in userConfig.spaceSteps.value
              ==> k !in CreateEffectiveConfig(userConfig).spaceSteps
  {
  }

  // ---------------------------------------------------------------------
  // The type scale
  // ---------------------------------------------------------------------

  /** The type scale has exactly the integer steps from the first entry of the
      step list to its last, and none when the list is empty or has a zero
      end. */
  lemma TypeScaleKeys(opts: FluidDesignSystemConfig)
    requires DistinctWidths(opts)
    ensures var steps := opts.typeScaleSteps;
      forall i :: i in TypeScale(opts)
        <==> TypeScaleEnabled(steps) && steps[0] <= i <= steps[|steps| - 1]
  {
  }

  /** Step `i` is sized by the base font size times the ratio to the power
      `i`, rounded, at each viewport, and interpolated between them. */
  lemma TypeScaleValues(opts: FluidDesignSystemConfig, i: int)
    requires DistinctWidths(opts) && i in TypeScale(opts)
    ensures TypeScale(opts)[i].min
         == Round(StepSize(opts.minViewport.fontSize, Ratio(opts.minViewport.typeScale), i))
    ensures TypeScale(opts)[i].max
         == Round(StepSize(opts.maxViewport.fontSize, Ratio(opts.maxViewport.typeScale), i))
    ensures TypeScale(opts)[i].clamp
         == ClampBuilder(opts.minViewport.width, opts.maxViewport.width,
                         TypeScale(opts)[i].min, TypeScale(opts)[i].max)
  {
    TypeScaleKeys(opts);
    var steps := opts.typeScaleSteps;
    RangeMapAt(j => TypeStep(opts, j), steps[0], steps[|steps| - 1] + 1, i);
  }

  /** Step 0 exists exactly when the step list runs from below zero to above
      zero; it is the base font size of each viewport, rounded. */
  lemma StepZero(opts: FluidDesignSystemConfig)
    requires DistinctWidths(opts)
    ensures var steps := opts.typeScaleSteps;
      0 in TypeScale(opts) <==> |steps| > 0 && steps[0] < 0 < steps[|steps| - 1]
    ensures 0 in TypeScale(opts) ==>
      TypeScale(opts)[0].min == Round(opts.minViewport.fontSize)
      && TypeScale(opts)[0].max == Round(opts.maxViewport.fontSize)
  {
    TypeScaleKeys(opts);
    if 0 in TypeScale(opts) {
      TypeScaleValues(opts, 0);
      StepSizeZero(opts.minViewport.fontSize, Ratio(opts.minViewport.typeScale));
      StepSizeZero(opts.maxViewport.fontSize, Ratio(opts.maxViewport.typeScale));
    }
  }

  /** With a positive base font size, each step is at least as large as the
      one below it at the same viewport. */
  lemma TypeScaleGrows(opts: FluidDesignSystemConfig, i: int)
    requires DistinctWidths(opts) && i in TypeScale(opts) && i + 1 in TypeScale(opts)
    requires opts.minViewport.fontSize > 0.0 && opts.maxViewport.fontSize > 0.0
    ensures TypeScale(opts)[i].min <= TypeScale(opts)[i + 1].min
    ensures TypeScale(opts)[i].max <= TypeScale(opts)[i + 1].max
  {
    TypeScaleValues(opts, i);
    TypeScaleValues(opts, i + 1);
    var minFont, minRatio := opts.minViewport.fontSize, Ratio(opts.minViewport.typeScale);
    var maxFont, maxRatio := opts.maxViewport.fontSize, Ratio(opts.maxViewport.typeScale);
    StepSizeIncreasing(minFont, minRatio, i);
    StepSizeIncreasing(maxFont, maxRatio, i);
    RoundMonotone(StepSize(minFont, minRatio, i), StepSize(minFont, minRatio, i + 1));
    RoundMonotone(StepSize(maxFont, maxRatio, i), StepSize(maxFont, maxRatio, i + 1));
  }

  /** From step 0 upwards a token does not shrink as the viewport grows, when
      the larger viewport has the larger base font size and ratio. */
  lemma TypeScaleFluidUpwards(opts: FluidDesignSystemConfig, i: int)
    requires DistinctWidths(opts) && i in TypeScale(opts) && 0 <= i
    requires 0.0 < opts.minViewport.fontSize <= opts.maxViewport.fontSize
    requires Ratio(opts.minViewport.typeScale) <= Ratio(opts.maxViewport.typeScale)
    ensures TypeScale(opts)[i].min <= TypeScale(opts)[i].max
  {
    TypeScaleValues(opts, i);
    var minFont, minRatio := opts.minViewport.fontSize, Ratio(opts.minViewport.typeScale);
    var maxFont, maxRatio := opts.maxViewport.fontSize, Ratio(opts.maxViewport.typeScale);
    StepSizeMonotone(minFont, maxFont, minRatio, maxRatio, i);
    RoundMonotone(StepSize(minFont, minRatio, i), StepSize(maxFont, maxRatio, i));
  }

  // ---------------------------------------------------------------------
  // The space steps
  // ---------------------------------------------------------------------

  /** The space steps are the configured names with a non-zero multiplier,
      and exist only when the type scale has a step 0. */
  lemma SpaceStepsKeys(opts: FluidDesignSystemConfig)
    requires DistinctWidths(opts)
    ensures forall k ::
              k in SpaceSteps(opts, TypeScale(opts))
              <==> 0 in TypeScale(opts) && k in opts.spaceSteps && opts.spaceSteps[k] != 0.0
  {
  }

  /** A space step scales both sizes of type step 0 by its multiplier. */
  lemma SpaceStepsValues(opts: FluidDesignSystemConfig, k: string)
    requires DistinctWidths(opts) && k in SpaceSteps(opts, TypeScale(opts))
    ensures var base, m, v := TypeScale(opts)[0], opts.spaceSteps[k], SpaceSteps(opts, TypeScale(opts))[k];
      && v.min == Round(Scaled(base.min, m))
      && v.max == Round(Scaled(base.max, m))
      && v.clamp == ClampBuilder(opts.minViewport.width, opts.maxViewport.width, v.min, v.max)
  {
    SpaceStepsKeys(opts);
  }

  /** A space step with a positive multiplier does not shrink as the viewport
      grows, when the larger viewport has the larger base font size. */
  lemma SpaceStepsFluid(opts: FluidDesignSystemConfig, k: string)
    requires DistinctWidths(opts) && k in SpaceSteps(opts, TypeScale(opts))
    requires opts.minViewport.fontSize <= opts.maxViewport.fontSize
    requires opts.spaceSteps[k] > 0.0
    ensures SpaceSteps(opts, TypeScale(opts))[k].min <= SpaceSteps(opts, TypeScale(opts))[k].max
  {
    SpaceStepsKeys(opts);
    StepZero(opts);
    SpaceStepsValues(opts, k);
    var base, m := TypeScale(opts)[0], opts.spaceSteps[k];
    RoundMonotone(opts.minViewport.fontSize, opts.maxViewport.fontSize);
    ScaledMonotone(base.min, base.max, m);
    RoundMonotone(Scaled(base.min, m), Scaled(base.max, m));
  }

  // ---------------------------------------------------------------------
  // The pair tables
  // ---------------------------------------------------------------------

  /** A pair table fails exactly when one of its pairs names a missing space
      step, and then with the first such pair. */
  lemma {:induction false} ResolvePairsFails(opts: FluidDesignSystemConfig, table: PairTable, pairs: seq<Pair>,
                                             spaceSteps: map<string, ClampedValue>, resolved: map<string, ClampedValue>)
    requires DistinctWidths(opts)
    ensures var j := FirstMiss(spaceSteps, pairs);
      j < |pairs| ==> ResolvePairs(opts, table, pairs, spaceSteps, resolved)
                      == Err(PairError(table, pairs[j].0, pairs[j].1))
    ensures ResolvePairs(opts, table, pairs, spaceSteps, resolved).Err?
        <==> exists j :: 0 <= j < |pairs| && !Resolves(spaceSteps, pairs[j])
    decreases |pairs|
  {
    if pairs != [] && Resolves(spaceSteps, pairs[0]) {
      var rest := pairs[1..];
      ResolvePairsFails(opts, table, rest, spaceSteps,
                        resolved[PairKey(pairs[0]) := PairValue(opts, spaceSteps, pairs[0])]);
      if exists j :: 0 <= j < |pairs| && !Resolves(spaceSteps, pairs[j]) {
        var j :| 0 <= j < |pairs| && !Resolves(spaceSteps, pairs[j]);
        assert !Resolves(spaceSteps, rest[j - 1]);
      }
      if exists j :: 0 <= j < |rest| && !Resolves(spaceSteps, rest[j]) {
        var j :| 0 <= j < |rest| && !Resolves(spaceSteps, rest[j]);
        assert !Resolves(spaceSteps, pairs[j + 1]);
      }
    }
  }

  /** A pair table that resolves has a key `min + max` for every pair, and
      keeps what was resolved before. */
  lemma {:induction false} ResolvePairsKeys(opts: FluidDesignSystemConfig, table: PairTable, pairs: seq<Pair>,
                                            spaceSteps: map<string, ClampedValue>, resolved: map<string, ClampedValue>)
    requires DistinctWidths(opts)
    requires ResolvePairs(opts, table, pairs, spaceSteps, resolved).Ok?
    ensures forall k ::
              k in ResolvePairs(opts, table, pairs, spaceSteps, resolved).value
              <==> k in resolved || exists j :: 0 <= j < |pairs| && k == PairKey(pairs[j])
    decreases |pairs|
  {
    if pairs != [] {
      var rest := pairs[1..];
      var next := resolved[PairKey(pairs[0]) := PairValue(opts, spaceSteps, pairs[0])];
      ResolvePairsKeys(opts, table, rest, spaceSteps, next);
      forall k | exists j :: 0 <= j < |pairs| && k == PairKey(pairs[j])
        ensures k in next || exists j :: 0 <= j < |rest| && k == PairKey(rest[j])
      {
        var j :| 0 <= j < |pairs| && k == PairKey(pairs[j]);
        if j > 0 {
          assert k == PairKey(rest[j - 1]);
        }
      }
      forall j | 0 <= j < |rest|
        ensures PairKey(rest[j]) == PairKey(pairs[j + 1])
      {
      }
    }
  }

  /** The token under a pair's key comes from the last pair with that key:
      the pair's first step's minimum and its second step's maximum. */
  lemma {:induction false} ResolvePairsLastWins(opts: FluidDesignSystemConfig, table: PairTable, pairs: seq<Pair>,
                                                spaceSteps: map<string, ClampedValue>,
                                                resolved: map<string, ClampedValue>, j: int)
    requires DistinctWidths(opts)
    requires ResolvePairs(opts, table, pairs, spaceSteps, resolved).Ok?
    requires 0 <= j < |pairs|
    requires forall l :: j < l < |pairs| ==> PairKey(pairs[l]) != PairKey(pairs[j])
    ensures Resolves(spaceSteps, pairs[j])
    ensures var r := ResolvePairs(opts, table, pairs, spaceSteps, resolved).value;
      && PairKey(pairs[j]) in r
      && r[PairKey(pairs[j])] == PairValue(opts, spaceSteps, pairs[j])
      && r[PairKey(pairs[j])].min == spaceSteps[pairs[j].0].min
      && r[PairKey(pairs[j])].max == spaceSteps[pairs[j].1].max
    decreases |pairs|
  {
    var rest := pairs[1..];
    var next := resolved[PairKey(pairs[0]) := PairValue(opts, spaceSteps, pairs[0])];
    if j > 0 {
      forall l | j - 1 < l < |rest|
        ensures PairKey(rest[l]) != PairKey(rest[j - 1])
      {
        assert rest[l] == pairs[l + 1];
      }
      ResolvePairsLastWins(opts, table, rest, spaceSteps, next, j - 1);
    } else {
      ResolvePairsKeep(opts, table, rest, spaceSteps, next, PairKey(pairs[0]));
    }
  }

  /** A key no later pair writes keeps its value. */
  lemma {:induction false} ResolvePairsKeep(opts: FluidDesignSystemConfig, table: PairTable, pairs: seq<Pair>,
                                            spaceSteps: map<string, ClampedValue>,
                                            resolved: map<string, ClampedValue>, k: string)
    requires DistinctWidths(opts)
    requires ResolvePairs(opts, table, pairs, spaceSteps, resolved).Ok?
    requires k in resolved
    requires forall l :: 0 <= l < |pairs| ==> PairKey(pairs[l]) != k
    ensures k in ResolvePairs(opts, table, pairs, spaceSteps, resolved).value
    ensures ResolvePairs(opts, table, pairs, spaceSteps, resolved).value[k] == resolved[k]
    decreases |pairs|
  {
    if pairs != [] {
      var rest := pairs[1..];
      forall l | 0 <= l < |rest|
        ensures PairKey(rest[l]) != k
      {
        assert rest[l] == pairs[l + 1];
      }
      ResolvePairsKeep(opts, table, rest, spaceSteps,
                       resolved[PairKey(pairs[0]) := PairValue(opts, spaceSteps, pairs[0])], k);
    }
  }

  // ---------------------------------------------------------------------
  // buildFluidDesignSystem
  // ---------------------------------------------------------------------

  /** The build throws exactly when a space pair or a custom pair names a
      missing space step; the space pairs are checked first, so a bad space
      pair is the one reported, and otherwise the first bad custom pair. */
  lemma BuildFails(opts: FluidDesignSystemConfig)
    requires DistinctWidths(opts)
    ensures var spaceSteps := SpaceSteps(opts, TypeScale(opts));
      (Build(opts).Err?
       <==> (exists j :: 0 <= j < |opts.spacePairs| && !Resolves(spaceSteps, opts.spacePairs[j]))
            || (exists j :: 0 <= j < |opts.customPairs| && !Resolves(spaceSteps, opts.customPairs[j])))
    ensures var spaceSteps := SpaceSteps(opts, TypeScale(opts));
      var j := FirstMiss(spaceSteps, opts.spacePairs);
      j < |opts.spacePairs| ==>
        Build(opts) == Err(PairError(SpacePairsTable, opts.spacePairs[j].0, opts.spacePairs[j].1))
    ensures var spaceSteps := SpaceSteps(opts, TypeScale(opts));
      var i, j := FirstMiss(spaceSteps, opts.spacePairs), FirstMiss(spaceSteps, opts.customPairs);
      i == |opts.spacePairs| && j < |opts.customPairs| ==>
        Build(opts) == Err(PairError(CustomPairsTable, opts.customPairs[j].0, opts.customPairs[j].1))
  {
    var spaceSteps := SpaceSteps(opts, TypeScale(opts));
    ResolvePairsFails(opts, SpacePairsTable, opts.spacePairs, spaceSteps, map[]);
    ResolvePairsFails(opts, CustomPairsTable, opts.customPairs, spaceSteps, map[]);
  }

  /** The `console.error` case leaves the type scale, and with it the space
      steps, empty. */
  lemma DiagnosticMeansNoScale(opts: FluidDesignSystemConfig)
    requires DistinctWidths(opts) && Diagnostic(opts.typeScaleSteps)
    ensures TypeScale(opts) == map[]
    ensures SpaceSteps(opts, TypeScale(opts)) == map[]
  {
  }

  /** Without a type-scale step 0 there are no space steps, so the first
      space pair, if any, makes the build throw. */
  lemma NoStepZeroFailsOnFirstPair(opts: FluidDesignSystemConfig)
    requires DistinctWidths(opts) && 0 !in TypeScale(opts) && |opts.spacePairs| > 0
    ensures Build(opts) == Err(PairError(SpacePairsTable, opts.spacePairs[0].0, opts.spacePairs[0].1))
  {
    assert SpaceSteps(opts, TypeScale(opts)) == map[];
    BuildFails(opts);
  }

  /** A successful build holds the type scale and the space steps, and one
      token per space pair and per custom pair under the key `min + max`. */
  lemma BuildSucceeds(opts: FluidDesignSystemConfig)
    requires DistinctWidths(opts) && Build(opts).Ok?
    ensures Build(opts).value.typeScale == TypeScale(opts)
    ensures Build(opts).value.spaceSteps == SpaceSteps(opts, TypeScale(opts))
    ensures forall k ::
              k in Build(opts).value.spacePairs
              <==> exists j :: 0 <= j < |opts.spacePairs| && k == PairKey(opts.spacePairs[j])
    ensures forall k ::
              k in Build(opts).value.customPairs
              <==> exists j :: 0 <= j < |opts.customPairs| && k == PairKey(opts.customPairs[j])
  {
    var spaceSteps := SpaceSteps(opts, TypeScale(opts));
    ResolvePairsKeys(opts, SpacePairsTable, opts.spacePairs, spaceSteps, map[]);
    ResolvePairsKeys(opts, CustomPairsTable, opts.customPairs, spaceSteps, map[]);
  }

  /** The token of a space pair or custom pair in a successful build comes
      from the last pair with its key: the first step's minimum and the second
      step's maximum, interpolated by `clampBuilder`. */
  lemma BuildPairTokens(opts: FluidDesignSystemConfig, table: PairTable, j: int)
    requires DistinctWidths(opts) && Build(opts).Ok?
    requires var pairs := if table == SpacePairsTable then opts.spacePairs else opts.customPairs;
      && 0 <= j < |pairs|
      && forall l :: j < l < |pairs| ==> PairKey(pairs[l]) != PairKey(pairs[j])
    ensures var pairs := if table == SpacePairsTable then opts.spacePairs else opts.customPairs;
      var spaceSteps := SpaceSteps(opts, TypeScale(opts));
      var built := if table == SpacePairsTable then Build(opts).value.spacePairs else Build(opts).value.customPairs;
      var p := pairs[j];
      && Resolves(spaceSteps, p)
      && PairKey(p) in built
      && built[PairKey(p)].min == spaceSteps[p.0].min
      && built[PairKey(p)].max == spaceSteps[p.1].max
      && built[PairKey(p)].clamp
         == ClampBuilder(opts.minViewport.width, opts.maxViewport.width, spaceSteps[p.0].min, spaceSteps[p.1].max)
  {
    var spaceSteps := SpaceSteps(opts, TypeScale(opts));
    var pairs := if table == SpacePairsTable then opts.spacePairs else opts.customPairs;
    ResolvePairsLastWins(opts, table, pairs, spaceSteps, map[], j);
  }
}
