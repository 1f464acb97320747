# Fluid design tokens, modelled in Dafny

This project models the token generator of the `astro-fluid-design` library. The generator turns a configuration into a CSS block of custom properties, and each property is a fluid `clamp()` expression. The configuration is two viewports, each with a width, a base font size and a named type-scale ratio, plus a step range, space-step multipliers and space and custom pairs. The modelled pieces are:

- `createEffectiveConfig`, the shallow merge of the caller's configuration over the defaults.
- `buildFluidDesignSystem`, which builds four token tables:
  - the type scale, one token per integer step;
  - the space steps, which are type step 0 times a multiplier;
  - the space pairs and custom pairs, where a pair takes the minimum of one space step and the maximum of another.
- `clampBuilder`, the linear interpolation between two viewports, rounded to hundredths and printed.
- `generateCSS`, which prints the tables inside a `:where(<selector>)` block.

The modules are:

- `Results`: the `Option` and `Result` types.
- `Render`: how JavaScript prints a number that `round` produced (an integer number of hundredths), a reader that gets it back, and ASCII `toLowerCase`.
- `Interface`: the ratio table and the record types.
- `Config`: `DEFAULT_CONFIG`.
- `Builder`:
  - the numbers (`round`, `Math.pow` with integer exponents) and `clampBuilder`;
  - the merge;
  - the specification functions of the four tables (`TypeScale`, `SpaceSteps`, `ResolvePairs`, `Build`);
  - the imperative `BuildFluidDesignSystem`, whose loops are proved to compute those functions.
- `Properties`: what the tables contain, when the build throws, and what a merge keeps.
- `Defaults`: what the built-in configuration produces.
- `Css`: the printing loops of `generateCSS` and the style sheet they produce.

The model follows the code's truthiness tests:

- The type scale is generated only when the first and last entries of the step list are both non-zero. A range that starts or ends at step 0 gets the `console.error` diagnostic and an empty scale.
- A space step with multiplier 0 is skipped.
- Space steps exist only when the type scale has a step 0. Without one, any space pair makes the build throw.

The thrown `Error` is the `Err` case of a `Result`, and its message is `Builder.ErrorMessage`. The `console.error` call is a boolean output. Numbers are exact reals; `Math.round` rounds half up, also for negative values.

## Model

The rows that read "no contract" are the definitions of the model; each is characterised by the lemmas it names.

| member | source | states |
|---|---|---|
| Interface.Ratio | libs/astro-fluid-design/src/lib/interface.provider.ts:1-14 | every named type-scale ratio is greater than 1 |
| Interface.LookupKey | libs/astro-fluid-design/src/lib/interface.provider.ts:1-16 | the key of every scale name looks up that scale name |
| Interface.LookupOnlyKeys | libs/astro-fluid-design/src/lib/interface.provider.ts:1-16 | a string looks up a scale name only when it is that name's key |
| Interface.ScaleOrderEnumerates | libs/astro-fluid-design/src/lib/interface.provider.ts:1-14 | the table lists each of the twelve scale names exactly once |
| Interface.RatiosIncrease | libs/astro-fluid-design/src/lib/interface.provider.ts:1-14 | the ratios strictly increase in table order, from 1.067 to 2 |
| Interface.ThirdsRatios | libs/astro-fluid-design/src/lib/interface.provider.ts:4-5 | `minor-third` is 1.2 and `major-third` is 1.25, and both keys look up their names |
| Config.DefaultWidthsOrdered | libs/astro-fluid-design/src/lib/config.provider.ts:4-13 | the default minimum width, 320, is below the default maximum width, 1240 |
| Config.DefaultStepsStraddleZero | libs/astro-fluid-design/src/lib/config.provider.ts:14 | the default step range runs from below zero to above zero |
| Config.DefaultMultipliersPositive | libs/astro-fluid-design/src/lib/config.provider.ts:15-26 | there are ten default space steps, and every multiplier is positive |
| Config.DefaultPairsNameSteps | libs/astro-fluid-design/src/lib/config.provider.ts:15-36 | both names of every default space pair are default space steps |
| Config.DefaultCustomPairsEmpty | libs/astro-fluid-design/src/lib/config.provider.ts:37 | there are no default custom pairs |
| Config.DefaultFontSizes | libs/astro-fluid-design/src/lib/config.provider.ts:4-13 | the default base font sizes are 18 px and 20 px |
| Render.ParseIntStr | libs/astro-fluid-design/src/lib/fluid-design.builder.ts:166 | a printed step number reads back as itself |
| Render.UnsignedRoundTrip | libs/astro-fluid-design/src/lib/fluid-design.builder.ts:26-28 | the digits and fraction part of a non-negative number of hundredths read back as that number |
| Render.ParseHundredthsStr | libs/astro-fluid-design/src/lib/fluid-design.builder.ts:26-28 | every printed multiple of 1/100, negative ones included, reads back as itself |
| Render.HundredthsStrChars | libs/astro-fluid-design/src/lib/fluid-design.builder.ts:26-28 | a printed number is non-empty and holds only digits, `-` and `.` |
| Render.ReadNumStr | libs/astro-fluid-design/src/lib/fluid-design.builder.ts:26-30 | a printed number followed by a unit reads back as the number and the unit text |
| Render.NumStrOfHundredths | libs/astro-fluid-design/src/lib/fluid-design.builder.ts:26-28 | `${k/100}` prints as the shortest decimal of `k/100` |
| Render.NumStrInjective | libs/astro-fluid-design/src/lib/fluid-design.builder.ts:26-28 | two rounded numbers that print the same are equal |
| Render.ToLowerSpec | libs/astro-fluid-design/src/lib/fluid-design.builder.ts:170 | lower-casing keeps the length, lowers every ASCII capital by 32 code points, changes no other character, and leaves no capital |
| Builder.RoundHundredthsNearest | libs/astro-fluid-design/src/lib/fluid-design.builder.ts:5-7 | `Math.round(100x)` is within half of `100x`, and a tie goes up |
| Builder.RoundBounds | libs/astro-fluid-design/src/lib/fluid-design.builder.ts:5-7 | `round(x)` is a whole number of hundredths, at most half a hundredth from `x` |
| Builder.RoundIdempotent | libs/astro-fluid-design/src/lib/fluid-design.builder.ts:5-7 | rounding a rounded number changes nothing |
| Builder.RoundNear | libs/astro-fluid-design/src/lib/fluid-design.builder.ts:5-7 | `round(x)` is `k/100` for the `k` within half of `100x`, ties going to the upper `k` |
| Builder.RoundOfHundredths | libs/astro-fluid-design/src/lib/fluid-design.builder.ts:5-7 | a multiple of 1/100 is its own rounding |
| Builder.RoundTiesUp | libs/astro-fluid-design/src/lib/fluid-design.builder.ts:5-7 | a value half-way between two hundredths rounds to the upper one, also below zero |
| Builder.RoundMonotone | libs/astro-fluid-design/src/lib/fluid-design.builder.ts:5-7 | rounding keeps order |
| Builder.PowPositive | libs/astro-fluid-design/src/lib/fluid-design.builder.ts:65 | a positive ratio has positive powers, negative exponents included |
| Builder.PowStep | libs/astro-fluid-design/src/lib/fluid-design.builder.ts:65 | raising the exponent by one multiplies by the ratio, on both sides of zero |
| Builder.PowIncreasing | libs/astro-fluid-design/src/lib/fluid-design.builder.ts:65 | a ratio above 1 gives strictly increasing powers |
| Builder.InterpolationHitsAnchors | libs/astro-fluid-design/src/lib/fluid-design.builder.ts:15-24 | the line of slope and intercept gives the minimum size (rem) at the minimum width and the maximum size at the maximum width |
| Builder.FlatWhenSizesEqual | libs/astro-fluid-design/src/lib/fluid-design.builder.ts:15-24 | equal sizes give slope 0 and that size as the intercept |
| Builder.ClampTextPrints | libs/astro-fluid-design/src/lib/fluid-design.builder.ts:26-30 | a clamp expression of multiples of 1/100 prints each number as its shortest decimal |
| Builder.ParseClampText | libs/astro-fluid-design/src/lib/fluid-design.builder.ts:26-30 | the four numbers of a printed clamp expression read back unambiguously |
| Builder.ClampBuilderParses | libs/astro-fluid-design/src/lib/fluid-design.builder.ts:9-31 | `clampBuilder` reads back as the minimum size (rem), the intercept (rem), 100 times the slope (vw) and the maximum size (rem), each rounded to hundredths |
| Builder.StepSizeZero | libs/astro-fluid-design/src/lib/fluid-design.builder.ts:64-69 | step 0 is the base font size |
| Builder.StepSizeIncreasing | libs/astro-fluid-design/src/lib/fluid-design.builder.ts:64-69 | with a positive font size, each step is strictly larger than the step below it |
| Builder.StepSizeMonotone | libs/astro-fluid-design/src/lib/fluid-design.builder.ts:64-69 | at or above step 0, a larger font size and a larger ratio never give a smaller step |
| Builder.TypeStepsGrow | libs/astro-fluid-design/src/lib/fluid-design.builder.ts:63-81 | one more loop round adds exactly step `hi` to the steps before it |
| Builder.TypeStepsComplete | libs/astro-fluid-design/src/lib/fluid-design.builder.ts:58-85 | when the loop exits, the steps built so far are the whole type scale |
| Builder.SpaceStepsGrow | libs/astro-fluid-design/src/lib/fluid-design.builder.ts:88-105 | one more space-step round adds the step when its multiplier is non-zero and changes nothing otherwise |
| Builder.FirstMiss | libs/astro-fluid-design/src/lib/fluid-design.builder.ts:108-115 | every pair before the result resolves, and the pair at the result (if any) names a missing space step |
| Builder.BuildFluidDesignSystem | libs/astro-fluid-design/src/lib/fluid-design.builder.ts:39-153 | the method returns `Build(opts)`: the four tables, or the first pair error; the diagnostic flag is set exactly in the `console.error` case |
| Builder.BuildTypeScale | libs/astro-fluid-design/src/lib/fluid-design.builder.ts:58-85 | the loop builds exactly `TypeScale(opts)` and raises the diagnostic exactly for a step list with a zero end |
| Builder.BuildSpaceSteps | libs/astro-fluid-design/src/lib/fluid-design.builder.ts:87-106 | the loop over the configured steps, taken in any order, builds exactly `SpaceSteps` |
| Builder.ResolvePairTable | libs/astro-fluid-design/src/lib/fluid-design.builder.ts:108-150 | the pair loop returns what `ResolvePairs` specifies, error included |
| Properties.MergeSuppliedIsKept | libs/astro-fluid-design/src/lib/fluid-design.builder.ts:33-37 | a configuration that supplies every field is taken as it is |
| Properties.MergeViewportsOnly | libs/astro-fluid-design/src/lib/fluid-design.builder.ts:33-37 | a configuration with only the viewports is the defaults with those viewports |
| Properties.MergeIsShallow | libs/astro-fluid-design/src/lib/fluid-design.builder.ts:33-37 | each supplied field replaces the default field whole, each absent field is the default one, and a supplied space-step table drops every default step it does not name |
| Properties.TypeScaleKeys | libs/astro-fluid-design/src/lib/fluid-design.builder.ts:58-85 | a step is in the type scale iff both ends of the list are non-zero and the step lies between them |
| Properties.TypeScaleValues | libs/astro-fluid-design/src/lib/fluid-design.builder.ts:63-81 | a type step's minimum and maximum are the rounded font size times the ratio to the power of the step, and its clamp interpolates between them |
| Properties.StepZero | libs/astro-fluid-design/src/lib/fluid-design.builder.ts:58-87 | step 0 exists iff the list runs from below zero to above zero, and then it is the rounded base font size at each viewport |
| Properties.TypeScaleGrows | libs/astro-fluid-design/src/lib/fluid-design.builder.ts:63-81 | with positive font sizes, consecutive steps never shrink at either viewport |
| Properties.TypeScaleFluidUpwards | libs/astro-fluid-design/src/lib/fluid-design.builder.ts:63-81 | from step 0 up, a token's minimum is at most its maximum when the larger viewport has the larger font size and ratio |
| Properties.SpaceStepsKeys | libs/astro-fluid-design/src/lib/fluid-design.builder.ts:87-106 | a space step exists iff the type scale has step 0 and the step's multiplier is configured and non-zero |
| Properties.SpaceStepsValues | libs/astro-fluid-design/src/lib/fluid-design.builder.ts:93-104 | a space step is type step 0's minimum and maximum times the multiplier, rounded, interpolated by `clampBuilder` |
| Properties.SpaceStepsFluid | libs/astro-fluid-design/src/lib/fluid-design.builder.ts:87-105 | a space step with a positive multiplier has its minimum at most its maximum when the larger viewport has the larger base font size |
| Properties.ResolvePairsFails | libs/astro-fluid-design/src/lib/fluid-design.builder.ts:108-115 | a pair table fails iff some pair names a missing space step, and the error names the first such pair |
| Properties.ResolvePairsKeys | libs/astro-fluid-design/src/lib/fluid-design.builder.ts:108-128 | a resolved table has exactly the key `min + max` of each pair, plus what it held before |
| Properties.ResolvePairsLastWins | libs/astro-fluid-design/src/lib/fluid-design.builder.ts:116-127 | the token under a key comes from the last pair with that key: the first step's minimum and the second step's maximum |
| Properties.ResolvePairsKeep | libs/astro-fluid-design/src/lib/fluid-design.builder.ts:108-128 | a key that no pair writes keeps its value |
| Properties.BuildFails | libs/astro-fluid-design/src/lib/fluid-design.builder.ts:108-150 | the build throws iff a space pair or a custom pair names a missing space step; the first bad space pair is reported, and when every space pair resolves, the first bad custom pair |
| Properties.DiagnosticMeansNoScale | libs/astro-fluid-design/src/lib/fluid-design.builder.ts:58-106 | in the `console.error` case there are no type steps and no space steps |
| Properties.NoStepZeroFailsOnFirstPair | libs/astro-fluid-design/src/lib/fluid-design.builder.ts:87-115 | without type step 0, the first space pair, if any, makes the build throw |
| Properties.BuildPairTokens | libs/astro-fluid-design/src/lib/fluid-design.builder.ts:108-150 | in a successful build, the token under a pair's key `min + max` comes from the last pair with that key: the first step's minimum, the second step's maximum, and the `clampBuilder` text between them |
| Properties.BuildSucceeds | libs/astro-fluid-design/src/lib/fluid-design.builder.ts:39-153 | a successful build holds the type scale and the space steps, plus one token per key `min + max` of each space pair and each custom pair |
| Defaults.DefaultsNeverFail | libs/astro-fluid-design/src/lib/config.provider.ts:3-38 | with only the two viewports given, and their widths different, the build never throws |
| Defaults.DefaultStepZero | libs/astro-fluid-design/src/lib/config.provider.ts:4-14 | the default step 0 is 18 px at the small viewport and 20 px at the large one |
| Defaults.DefaultStepOne | libs/astro-fluid-design/src/lib/config.provider.ts:4-14 | the default step 1 is 21.6 px and 25 px |
| Defaults.DefaultStepMinusFiveShrinks | libs/astro-fluid-design/src/lib/config.provider.ts:4-14 | the default step -5 is 7.23 px at the small viewport and 6.55 px at the large one, so it shrinks as the viewport grows |
| Defaults.DefaultStepZeroClamp | libs/astro-fluid-design/src/lib/fluid-design.builder.ts:9-31 | the clamp of the default step-0 token is `clampBuilder(320, 1240, 18, 20)`, which reads back as the rem numbers 1.13, 1.08 and 1.25 and 0.22 vw |
| Defaults.DefaultSpaceStep | libs/astro-fluid-design/src/lib/fluid-design.builder.ts:87-105 | each default space step is 18 px and 20 px times its multiplier, rounded |
| Defaults.ReversedPairShrinks | libs/astro-fluid-design/src/lib/fluid-design.builder.ts:116-127 | under the defaults, a pair from `-L` to `-S` has minimum 36 and maximum 20, so a pair token can shrink as the viewport grows |
| Defaults.FlatClamp | libs/astro-fluid-design/src/lib/fluid-design.builder.ts:9-31 | two equal 16 px sizes print as `clamp(1rem, calc(1rem + 0vw), 1rem)` |
| Css.DeclarationsContain | libs/astro-fluid-design/src/lib/fluid-design.builder.ts:165-179 | the declarations printed in a listing order contain the declaration of every listed key |
| Css.StylesheetDeclaresEveryToken | libs/astro-fluid-design/src/lib/fluid-design.builder.ts:161-185 | the generated style sheet contains a declaration of every token of all four tables |
| Css.EmitTypeScale | libs/astro-fluid-design/src/lib/fluid-design.builder.ts:165-167 | the loop prints one `--step-<n>: <clamp>;` per type step; the ghost order lists each step exactly once |
| Css.EmitSpace | libs/astro-fluid-design/src/lib/fluid-design.builder.ts:169-179 | the loop prints one `--space<name, lower-cased>: <clamp>;` per token; the ghost order lists each key exactly once |
| Css.GenerateCSS | libs/astro-fluid-design/src/lib/fluid-design.builder.ts:155-186 | the result is the build's error, or the four tables printed in that table order inside `:where(<selector>)`, with every key printed once; the diagnostic is the build's |
| Interface.Key | libs/astro-fluid-design/src/lib/interface.provider.ts:1-14 | no contract; the source key of each scale name, characterised by `Interface.LookupKey` |
| Interface.Lookup | libs/astro-fluid-design/src/lib/interface.provider.ts:1-16 | no contract; the scale name of a key, characterised by `Interface.LookupKey` and `Interface.LookupOnlyKeys` |
| Interface.ScaleOrder | libs/astro-fluid-design/src/lib/interface.provider.ts:1-14 | no contract; the table's declaration order, characterised by `Interface.ScaleOrderEnumerates` and `Interface.RatiosIncrease` |
| Config.DefaultConfig | libs/astro-fluid-design/src/lib/config.provider.ts:3-38 | no contract; `DEFAULT_CONFIG`, characterised by the `Config.Default*` lemmas |
| Render.NatStr | libs/astro-fluid-design/src/lib/fluid-design.builder.ts:26-28 | no contract; the digits of a natural number, characterised by `Render.NatStrDigits` and `Render.ParseNatStr` |
| Render.IntStr | libs/astro-fluid-design/src/lib/fluid-design.builder.ts:166 | no contract; `${step}`, characterised by `Render.ParseIntStr` |
| Render.HundredthsStr | libs/astro-fluid-design/src/lib/fluid-design.builder.ts:26-28 | no contract; the shortest decimal of `k/100`, characterised by `Render.ParseHundredthsStr` and `Render.HundredthsStrChars` |
| Render.FloorHundredths | libs/astro-fluid-design/src/lib/fluid-design.builder.ts:26-28 | no contract; the number of hundredths in a rounded value, characterised by `Render.NumStrOfHundredths` |
| Render.NumStr | libs/astro-fluid-design/src/lib/fluid-design.builder.ts:26-28 | no contract; `${v}` for a rounded `v`, characterised by `Render.NumStrOfHundredths` and `Render.NumStrInjective` |
| Render.LowerChar | libs/astro-fluid-design/src/lib/fluid-design.builder.ts:170 | no contract; ASCII lower-casing of one character, characterised by `Render.ToLowerSpec` |
| Render.ToLower | libs/astro-fluid-design/src/lib/fluid-design.builder.ts:170 | no contract; `toLowerCase()`, characterised by `Render.ToLowerSpec` |
| Builder.RoundHundredths | libs/astro-fluid-design/src/lib/fluid-design.builder.ts:5-7 | no contract; `Math.round(100x)`, characterised by `Builder.RoundHundredthsNearest` |
| Builder.Round | libs/astro-fluid-design/src/lib/fluid-design.builder.ts:5-7 | no contract; `round`, characterised by `Builder.RoundBounds`, `Builder.RoundNear`, `Builder.RoundTiesUp` and `Builder.RoundMonotone` |
| Builder.NatPow | libs/astro-fluid-design/src/lib/fluid-design.builder.ts:65 | no contract; `r^n` for a natural `n`, characterised by `Builder.NatPowPositive` and `Builder.NatPowMonotoneBase` |
| Builder.Pow | libs/astro-fluid-design/src/lib/fluid-design.builder.ts:65 | no contract; `Math.pow(r, i)` for an integer `i`, characterised by `Builder.PowPositive`, `Builder.PowStep` and `Builder.PowIncreasing` |
| Builder.Slope | libs/astro-fluid-design/src/lib/fluid-design.builder.ts:15-23 | no contract; the slope in rem per rem, characterised by `Builder.InterpolationHitsAnchors` |
| Builder.Intercept | libs/astro-fluid-design/src/lib/fluid-design.builder.ts:15-24 | no contract; `yAxisIntersection`, characterised by `Builder.InterpolationHitsAnchors` and `Builder.FlatWhenSizesEqual` |
| Builder.ClampTemplate | libs/astro-fluid-design/src/lib/fluid-design.builder.ts:26-30 | no contract; the `clamp(…)` template, characterised by `Builder.ParseClampText` |
| Builder.ClampText | libs/astro-fluid-design/src/lib/fluid-design.builder.ts:26-30 | no contract; the template around four printed numbers, characterised by `Builder.ClampTextPrints` |
| Builder.ClampBuilder | libs/astro-fluid-design/src/lib/fluid-design.builder.ts:9-31 | no contract; `clampBuilder`, characterised by `Builder.ClampBuilderParses` and `Defaults.FlatClamp` |
| Builder.CreateEffectiveConfig | libs/astro-fluid-design/src/lib/fluid-design.builder.ts:33-37 | no contract; `createEffectiveConfig`, characterised by `Properties.MergeIsShallow`, `Properties.MergeSuppliedIsKept` and `Properties.MergeViewportsOnly` |
| Builder.TypeScaleEnabled | libs/astro-fluid-design/src/lib/fluid-design.builder.ts:58-62 | no contract; the two truthiness tests guarding the type-scale loop, characterised by `Properties.TypeScaleKeys` |
| Builder.Diagnostic | libs/astro-fluid-design/src/lib/fluid-design.builder.ts:58-84 | no contract; when `console.error` runs, characterised by `Properties.DiagnosticMeansNoScale` |
| Builder.StepSize | libs/astro-fluid-design/src/lib/fluid-design.builder.ts:64-69 | no contract; font size times `Math.pow(ratio, i)`, characterised by `Builder.StepSizeZero`, `Builder.StepSizeIncreasing` and `Builder.StepSizeMonotone` |
| Builder.TypeStepMin | libs/astro-fluid-design/src/lib/fluid-design.builder.ts:64-66 | no contract; `valueMin` of type step `i`, characterised by `Properties.TypeScaleValues` |
| Builder.TypeStepMax | libs/astro-fluid-design/src/lib/fluid-design.builder.ts:67-69 | no contract; `valueMax` of type step `i`, characterised by `Properties.TypeScaleValues` |
| Builder.TypeStep | libs/astro-fluid-design/src/lib/fluid-design.builder.ts:64-80 | no contract; the token of type step `i`, characterised by `Properties.TypeScaleValues` |
| Builder.TypeSteps | libs/astro-fluid-design/src/lib/fluid-design.builder.ts:63-81 | no contract; the steps built so far, characterised by `Builder.TypeStepsGrow` and `Builder.TypeStepsComplete` |
| Builder.TypeScale | libs/astro-fluid-design/src/lib/fluid-design.builder.ts:58-85 | no contract; the type-scale table, characterised by `Properties.TypeScaleKeys`, `Properties.TypeScaleValues` and `Properties.StepZero` |
| Builder.Scaled | libs/astro-fluid-design/src/lib/fluid-design.builder.ts:93-94 | no contract; a size times a multiplier, characterised by `Properties.SpaceStepsValues` |
| Builder.SpaceStep | libs/astro-fluid-design/src/lib/fluid-design.builder.ts:93-104 | no contract; the token of one space step, characterised by `Properties.SpaceStepsValues` |
| Builder.SpaceStepsOf | libs/astro-fluid-design/src/lib/fluid-design.builder.ts:88-105 | no contract; the space steps built so far, characterised by `Builder.SpaceStepsGrow` |
| Builder.SpaceSteps | libs/astro-fluid-design/src/lib/fluid-design.builder.ts:87-106 | no contract; the space-step table, characterised by `Properties.SpaceStepsKeys` and `Properties.SpaceStepsValues` |
| Builder.PairKey | libs/astro-fluid-design/src/lib/fluid-design.builder.ts:118 | no contract; the key `${min}${max}`, characterised by `Properties.ResolvePairsKeys` |
| Builder.Resolves | libs/astro-fluid-design/src/lib/fluid-design.builder.ts:109-111 | no contract; the guard that both names are space steps, characterised by `Properties.ResolvePairsFails` |
| Builder.PairValue | libs/astro-fluid-design/src/lib/fluid-design.builder.ts:116-127 | no contract; a pair's token, characterised by `Properties.ResolvePairsLastWins` |
| Builder.ErrorMessage | libs/astro-fluid-design/src/lib/fluid-design.builder.ts:112-114 | no contract; the text of the thrown `Error` (the custom-pair text of lines 134-136 is the other branch) |
| Builder.ResolvePairs | libs/astro-fluid-design/src/lib/fluid-design.builder.ts:108-150 | no contract; one pair loop with its throw, characterised by `Properties.ResolvePairsFails`, `Properties.ResolvePairsKeys`, `Properties.ResolvePairsLastWins` and `Properties.ResolvePairsKeep` |
| Builder.Build | libs/astro-fluid-design/src/lib/fluid-design.builder.ts:39-153 | no contract; `buildFluidDesignSystem`, characterised by `Properties.BuildFails`, `Properties.BuildSucceeds` and `Properties.BuildPairTokens` |
| Css.TypeDecl | libs/astro-fluid-design/src/lib/fluid-design.builder.ts:166 | no contract; `--step-<step>: <clamp>;`, characterised by `Css.StylesheetDeclaresEveryToken` |
| Css.SpaceDecl | libs/astro-fluid-design/src/lib/fluid-design.builder.ts:170-178 | no contract; `--space<name, lower-cased>: <clamp>;`, characterised by `Css.StylesheetDeclaresEveryToken` |
| Css.Declarations | libs/astro-fluid-design/src/lib/fluid-design.builder.ts:165-179 | no contract; the declarations of a table in a listing order, characterised by `Css.DeclarationsContain` |
| Css.Wrap | libs/astro-fluid-design/src/lib/fluid-design.builder.ts:181-185 | no contract; the `:where(<selector>) { … }` block, characterised by `Css.WrapContains` |
| Css.Stylesheet | libs/astro-fluid-design/src/lib/fluid-design.builder.ts:161-185 | no contract; the generated text, characterised by `Css.StylesheetDeclaresEveryToken` |

## Left out

- IEEE doubles: sizes, widths and multipliers are exact reals, so there is no floating-point error, NaN or Infinity. Equal viewport widths divide by zero in `clampBuilder` and give `NaN`/`Infinity` tokens; the model requires the two widths to differ.
- Exponent notation: JavaScript prints very large or very small numbers with an exponent (`1e+21`). The model prints every rounded number as a plain decimal.
- Css.GenerateCSS: `Object.entries` lists non-negative integer keys in ascending order, then the other keys in insertion order. The contract says only that each table's keys are each listed once, in an order it returns as a ghost value.
- Builder.BuildSpaceSteps: the loop takes the configured steps in any order, not `Object.keys` order. This does not change the table it builds.
- Keys inherited from `Object.prototype` (such as a pair naming `constructor`) resolve in JavaScript; the model's maps have only their own keys.
- Explicit `undefined` fields in the caller's configuration replace the default in the spread. The model has only supplied fields (`Some`) and absent fields (`None`).
- Step lists with non-integer ends are not modelled; steps are integers.
- Render.ToLower: lowers ASCII capitals only. Non-ASCII capitals such as `É` stay as they are, and the result always has the input's length, where JavaScript can change it (U+0130 lowers to two code units).
- The `console.error` message text: the model keeps only whether it is written.
- `spacePairs` and `customPairs` are `Record`s, modelled as sequences of (key, value) entries in `Object.entries` order: integer-like keys ascending, then the other keys as inserted. The caller of the model supplies that order. The model does not require the keys to be distinct.
- Defaults.DefaultStepZeroClamp: the default step-0 clamp text is stated as the four numbers it reads back as, not as the literal string.
- Min ≤ max for pairs: a token's minimum is at most its maximum for type steps from 0 up (`Properties.TypeScaleFluidUpwards`) and for space steps with a positive multiplier (`Properties.SpaceStepsFluid`). It does not hold for pairs in general, because a pair may name a larger step first; `Defaults.ReversedPairShrinks` shows one.
- `vite.config.ts` and the publishing script are build tooling, not part of this model.
