/** `generateCSS`: the token tables as CSS custom properties. */
module Css {
  import opened Results
  import opened Render
  import opened Interface
  import opened Builder

  /** `--step-<step>: <clamp>;` */
  function TypeDecl(step: int, token: ClampedValue): string {
    "--step-" + IntStr(step) + ": " + token.clamp + ";"
  }

  /** `--space<name, lower-cased>: <clamp>;`, for space steps and both pair
      tables. */
  function SpaceDecl(name: string, token: ClampedValue): string {
    "--space" + ToLower(name) + ": " + token.clamp + ";"
  }

  /** `order` lists every key of a table exactly once. */
  ghost predicate Enumerates<K(!new)>(order: seq<K>, keys: set<K>) {
    && (forall i, j :: 0 <= i < j < |order| ==> order[i] != order[j])
    && (forall k :: k in keys <==> k in order)
  }

  /** The declarations of the tokens of `table` in the order `order`. */
  function Declarations<K>(table: map<K, ClampedValue>, order: seq<K>, decl: (K, ClampedValue) -> string): string
    requires forall i :: 0 <= i < |order| ==> order[i] in table
  {
    if order == [] then ""
    else
      var last := order[|order| - 1];
      Declarations(table, order[..|order| - 1], decl) + decl(last, table[last])
  }

  /** The text the declarations are wrapped in. */
  function Wrap(injectSelector: string, css: string): string {
    "\n      :where(" + injectSelector + ") {\n        " + css + "\n      }\n    "
  }

  /** The style sheet of a token set, each table listed in the given order. */
  function Stylesheet(system: FluidDesignSystemCSSInput, injectSelector: string, typeOrder: seq<int>,
                      spaceOrder: seq<string>, spacePairOrder: seq<string>, customPairOrder: seq<string>): string
    requires Enumerates(typeOrder, system.typeScale.Keys)
    requires Enumerates(spaceOrder, system.spaceSteps.Keys)
    requires Enumerates(spacePairOrder, system.spacePairs.Keys)
    requires Enumerates(customPairOrder, system.customPairs.Keys)
  {
    Wrap(injectSelector,
         Declarations(system.typeScale, typeOrder, TypeDecl)
         + Declarations(system.spaceSteps, spaceOrder, SpaceDecl)
         + Declarations(system.spacePairs, spacePairOrder, SpaceDecl)
         + Declarations(system.customPairs, customPairOrder, SpaceDecl))
  }

  /** `x` occurs in `s`. */
  ghost predicate Infix(x: string, s: string) {
    exists pre, post :: s == pre + x + post
  }

  lemma InfixLeft(x: string, s: string, post: string)
    requires Infix(x, s)
    ensures Infix(x, s + post)
  {
    var a, b :| s == a + x + b;
    assert s + post == a + x + (b + post);
  }

  lemma InfixRight(x: string, pre: string, s: string)
    requires Infix(x, s)
    ensures Infix(x, pre + s)
  {
    var a, b :| s == a + x + b;
    assert pre + s == (pre + a) + x + b;
  }

  /** What occurs in the declarations occurs in the wrapped style sheet. */
  lemma WrapContains(x: string, injectSelector: string, css: string)
    requires Infix(x, css)
    ensures Infix(x, Wrap(injectSelector, css))
  {
    InfixRight(x, "\n      :where(" + injectSelector + ") {\n        ", css);
    InfixLeft(x, "\n      :where(" + injectSelector + ") {\n        " + css, "\n      }\n    ");
  }

  /** The declaration of every listed key occurs in the declarations. */
  lemma {:induction false} DeclarationsContain<K>(table: map<K, ClampedValue>, order: seq<K>,
                                                   decl: (K, ClampedValue) -> string, k: K)
    requires forall i :: 0 <= i < |order| ==> order[i] in table
    requires k in order
    ensures k in table && Infix(decl(k, table[k]), Declarations(table, order, decl))
  {
    var n := |order| - 1;
    var last, init := order[n], order[..n];
    var css := Declarations(table, order, decl);
    if k == last {
      assert css == Declarations(table, init, decl) + decl(k, table[k]) + [];
    } else {
      assert k in init by {
        var i :| 0 <= i < |order| && order[i] == k;
        assert init[i] == k;
      }
      DeclarationsContain(table, init, decl, k);
      InfixLeft(decl(k, table[k]), Declarations(table, init, decl), decl(last, table[last]));
    }
  }

  /** Every token of every table is declared in the style sheet. */
  lemma StylesheetDeclaresEveryToken(system: FluidDesignSystemCSSInput, injectSelector: string, typeOrder: seq<int>,
                                     spaceOrder: seq<string>, spacePairOrder: seq<string>, customPairOrder: seq<string>)
    requires Enumerates(typeOrder, system.typeScale.Keys)
    requires Enumerates(spaceOrder, system.spaceSteps.Keys)
    requires Enumerates(spacePairOrder, system.spacePairs.Keys)
    requires Enumerates(customPairOrder, system.customPairs.Keys)
    ensures var css := Stylesheet(system, injectSelector, typeOrder, spaceOrder, spacePairOrder, customPairOrder);
      && (forall k :: k in system.typeScale ==> Infix(TypeDecl(k, system.typeScale[k]), css))
      && (forall k :: k in system.spaceSteps ==> Infix(SpaceDecl(k, system.spaceSteps[k]), css))
      && (forall k :: k in system.spacePairs ==> Infix(SpaceDecl(k, system.spacePairs[k]), css))
      && (forall k :: k in system.customPairs ==> Infix(SpaceDecl(k, system.customPairs[k]), css))
  {
    var t := Declarations(system.typeScale, typeOrder, TypeDecl);
    var s := Declarations(system.spaceSteps, spaceOrder, SpaceDecl);
    var p := Declarations(system.spacePairs, spacePairOrder, SpaceDecl);
    var c := Declarations(system.customPairs, customPairOrder, SpaceDecl);
    forall k | k in system.typeScale
      ensures Infix(TypeDecl(k, system.typeScale[k]), Wrap(injectSelector, t + s + p + c))
    {
      var x := TypeDecl(k, system.typeScale[k]);
      DeclarationsContain(system.typeScale, typeOrder, TypeDecl, k);
      InfixLeft(x, t, s);
      InfixLeft(x, t + s, p);
      InfixLeft(x, t + s + p, c);
      WrapContains(x, injectSelector, t + s + p + c);
    }
    forall k | k in system.spaceSteps
      ensures Infix(SpaceDecl(k, system.spaceSteps[k]), Wrap(injectSelector, t + s + p + c))
    {
      var x := SpaceDecl(k, system.spaceSteps[k]);
      DeclarationsContain(system.spaceSteps, spaceOrder, SpaceDecl, k);
      InfixRight(x, t, s);
      InfixLeft(x, t + s, p);
      InfixLeft(x, t + s + p, c);
      WrapContains(x, injectSelector, t + s + p + c);
    }
    forall k | k in system.spacePairs
      ensures Infix(SpaceDecl(k, system.spacePairs[k]), Wrap(injectSelector, t + s + p + c))
    {
      var x := SpaceDecl(k, system.spacePairs[k]);
      DeclarationsContain(system.spacePairs, spacePairOrder, SpaceDecl, k);
      InfixRight(x, t + s, p);
      InfixLeft(x, t + s + p, c);
      WrapContains(x, injectSelector, t + s + p + c);
    }
    forall k | k in system.customPairs
      ensures Infix(SpaceDecl(k, system.customPairs[k]), Wrap(injectSelector, t + s + p + c))
    {
      var x := SpaceDecl(k, system.customPairs[k]);
      DeclarationsContain(system.customPairs, customPairOrder, SpaceDecl, k);
      InfixRight(x, t + s + p, c);
      WrapContains(x, injectSelector, t + s + p + c);
    }
  }

  /** A non-empty set of steps has a member to pick. */
  lemma PickFrom(s: set<int>)
    requires s != {}
    ensures exists k :: k in s
  {
    if forall k :: k !in s {
      assert false;
    }
  }

  /** The type-scale loop of `generateCSS`. */
  method EmitTypeScale(typeScale: map<int, ClampedValue>) returns (css: string, ghost order: seq<int>)
    ensures Enumerates(order, typeScale.Keys)
    ensures css == Declarations(typeScale, order, TypeDecl)
  {
    css, order := "", [];
    var remaining := typeScale.Keys;
    while remaining != {}
      invariant remaining <= typeScale.Keys
      invariant Enumerates(order, typeScale.Keys - remaining)
      invariant forall i :: 0 <= i < |order| ==> order[i] in typeScale
      invariant css == Declarations(typeScale, order, TypeDecl)
      decreases remaining
    {
      PickFrom(remaining);
      var step :| step in remaining;
      css := css + TypeDecl(step, typeScale[step]);
      order := order + [step];
      remaining := remaining - {step};
    }
  }

  /** One of the three `--space` loops of `generateCSS`. */
  method EmitSpace(table: map<string, ClampedValue>) returns (css: string, ghost order: seq<string>)
    ensures Enumerates(order, table.Keys)
    ensures css == Declarations(table, order, SpaceDecl)
  {
    css, order := "", [];
    var remaining := table.Keys;
    while remaining != {}
      invariant remaining <= table.Keys
      invariant Enumerates(order, table.Keys - remaining)
      invariant forall i :: 0 <= i < |order| ==> order[i] in table
      invariant css == Declarations(table, order, SpaceDecl)
      decreases remaining
    {
      var step :| step in remaining;
      css := css + SpaceDecl(step, table[step]);
      order := order + [step];
      remaining := remaining - {step};
    }
  }

  /** `generateCSS`: merges the caller's configuration over the defaults,
      builds the tokens and prints them, or fails with the build's error.
      The `orders` say in which order each table was listed. */
  method GenerateCSS(config: Configuration, injectSelector: string := "html")
    returns (r: Result<string, PairError>, diagnostic: bool,
             ghost typeOrder: seq<int>, ghost spaceOrder: seq<string>,
             ghost spacePairOrder: seq<string>, ghost customPairOrder: seq<string>)
    requires DistinctWidths(CreateEffectiveConfig(config))
    ensures var opts := CreateEffectiveConfig(config);
      diagnostic == Diagnostic(opts.typeScaleSteps)
    ensures var opts := CreateEffectiveConfig(config);
      Build(opts).Err? ==> r == Err(Build(opts).error)
    ensures var opts := CreateEffectiveConfig(config);
      Build(opts).Ok? ==>
        var system := Build(opts).value;
        && Enumerates(typeOrder, system.typeScale.Keys)
        && Enumerates(spaceOrder, system.spaceSteps.Keys)
        && Enumerates(spacePairOrder, system.spacePairs.Keys)
        && Enumerates(customPairOrder, system.customPairs.Keys)
        && r == Ok(Stylesheet(system, injectSelector, typeOrder, spaceOrder, spacePairOrder, customPairOrder))
  {
    var built;
    built, diagnostic := BuildFluidDesignSystem(CreateEffectiveConfig(config));
    if built.Err? {
      return Err(built.error), diagnostic, [], [], [], [];
    }
    var system := built.value;
    var typeCss, spaceCss, spacePairCss, customPairCss;
    typeCss, typeOrder := EmitTypeScale(system.typeScale);
    spaceCss, spaceOrder := EmitSpace(system.spaceSteps);
    spacePairCss, spacePairOrder := EmitSpace(system.spacePairs);
    customPairCss, customPairOrder := EmitSpace(system.customPairs);
    var css := typeCss + spaceCss + spacePairCss + customPairCss;
    r := Ok(Wrap(injectSelector, css));
  }
}
