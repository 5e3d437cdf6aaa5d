/**
 * The decision rules of DefaultUnleash (src/DefaultUnleash.php) as functions.
 *
 * Every function returns a `Traced` value: the answer, and the metrics and
 * events the PHP code emits on the way, in order. The class in client.dfy
 * runs the same rules step by step and is proved to agree with them.
 *
 * Collaborators whose code is not part of this model are function-valued
 * fields: strategy handlers (`supports`, `isEnabled`), the variant handler
 * (`selectVariant`, `getDefaultVariant`) and the context provider (a fixed
 * context). The repository is its feature snapshot, looked up by name.
 */
module Evaluation {
  import opened Wrappers
  import opened Dto

  /** A strategy handler: which strategies it supports and its verdict on one. */
  datatype StrategyHandler = StrategyHandler(
    supports: Strategy -> bool,
    isEnabled: (Strategy, Context) -> bool)

  /** The variant handler: weighted selection with a stickiness seed, and the default variant. */
  datatype VariantHandler = VariantHandler(
    selectVariant: (seq<Variant>, string, Context) -> Option<Variant>,
    defaultVariant: Variant)

  /** Every feature is stored under its own name, as the repository's parser stores it. */
  predicate WellKeyed(m: map<string, Feature>) {
    forall n :: n in m ==> m[n].name == n
  }

  type Snapshot = m: map<string, Feature> | WellKeyed(m) witness map[]

  /**
   * What DefaultUnleash is constructed with: its handlers in registration
   * order, the repository's features, the variant handler, the context the
   * context provider supplies, and whether an event dispatcher is configured.
   */
  datatype Engine = Engine(
    handlers: seq<StrategyHandler>,
    features: Snapshot,
    variants: VariantHandler,
    defaultContext: Context,
    dispatching: bool)

  datatype ImpressionKind = IsEnabledImpression | GetVariantImpression

  /** A metric handed to the metrics handler, or an event handed to the event dispatcher. */
  datatype Signal =
    | Metric(feature: Feature, enabled: bool, variant: Option<Variant>)
    | FeatureNotFound(name: string)
    | DependencyNotFound(name: string)
    | FeatureDisabled(name: string)
    | MissingStrategyHandler(name: string)
    | ImpressionData(kind: ImpressionKind, name: string)

  datatype Traced<T> = Traced(value: T, signals: seq<Signal>)

  /** DefaultFeatureEnabledResult: the verdict and the strategy that produced it. */
  datatype EnabledResult = EnabledResult(enabled: bool, strategy: Option<Strategy>)

  /** An event reaches the log only when a dispatcher is configured, and then exactly once. */
  function Events(e: Engine, s: Signal): (r: seq<Signal>)
    ensures e.dispatching ==> r == [s]
    ensures !e.dispatching ==> r == []
  {
    if e.dispatching then [s] else []
  }

  /** The metrics among a sequence of signals, in order. */
  function Metrics(s: seq<Signal>): (r: seq<Signal>)
    ensures |r| <= |s|
    ensures forall k :: 0 <= k < |r| ==> r[k].Metric? && r[k] in s
    ensures forall k :: 0 <= k < |s| && s[k].Metric? ==> s[k] in r
    ensures (forall k :: 0 <= k < |s| ==> s[k].Metric?) ==> r == s
  {
    if s == [] then []
    else (if s[0].Metric? then [s[0]] else []) + Metrics(s[1..])
  }

  /** Metrics keeps the order of the signals: it distributes over concatenation. */
  lemma {:induction false} MetricsAppend(a: seq<Signal>, b: seq<Signal>)
    ensures Metrics(a + b) == Metrics(a) + Metrics(b)
  {
    if a == [] {
      assert a + b == b;
    } else {
      assert (a + b)[1..] == a[1..] + b;
      MetricsAppend(a[1..], b);
    }
  }

  function Lookup(e: Engine, name: string): Option<Feature> {
    if name in e.features then Some(e.features[name]) else None
  }

  /** findFeature: the repository's answer, plus a not-found event when there is none. */
  function FindFeature(e: Engine, name: string): (r: Traced<Option<Feature>>)
    ensures r.value == Lookup(e, name)
    ensures r.value.Some? ==> r.value.value.name == name && r.signals == []
    ensures r.value.None? ==> r.signals == Events(e, FeatureNotFound(name))
  {
    if name in e.features then Traced(Some(e.features[name]), [])
    else Traced(None, Events(e, FeatureNotFound(name)))
  }

  /** Features with dependencies rank above features without; the recursion descends in rank. */
  function Rank(f: Option<Feature>): nat {
    if f.Some? && |f.value.dependencies| > 0 then 1 else 0
  }

  function GroupId(s: Strategy): string {
    if "groupId" in s.parameters then s.parameters["groupId"] else ""
  }

  function StrategyVariants(r: EnabledResult): seq<Variant> {
    if r.strategy.Some? then r.strategy.value.variants else []
  }

  // ---------------------------------------------------------------------
  // Strategy dispatch
  // ---------------------------------------------------------------------

  /** findStrategyHandlers: the handlers that support `s`, in registration order. */
  function SupportingHandlers(hs: seq<StrategyHandler>, s: Strategy): (r: seq<StrategyHandler>)
    ensures |r| <= |hs|
    ensures forall k :: 0 <= k < |r| ==> r[k].supports(s)
    ensures |r| == 0 <==> forall j :: 0 <= j < |hs| ==> !hs[j].supports(s)
  {
    if hs == [] then []
    else (if hs[0].supports(s) then [hs[0]] else []) + SupportingHandlers(hs[1..], s)
  }

  /** The handlers keep their registration order: SupportingHandlers distributes over concatenation. */
  lemma {:induction false} SupportingHandlersAppend(a: seq<StrategyHandler>, b: seq<StrategyHandler>, s: Strategy)
    ensures SupportingHandlers(a + b, s) == SupportingHandlers(a, s) + SupportingHandlers(b, s)
  {
    if a == [] {
      assert a + b == b;
    } else {
      var head := if a[0].supports(s) then [a[0]] else [];
      assert (a + b)[0] == a[0];
      assert (a + b)[1..] == a[1..] + b;
      SupportingHandlersAppend(a[1..], b, s);
      calc {
        SupportingHandlers(a + b, s);
        head + SupportingHandlers(a[1..] + b, s);
        head + (SupportingHandlers(a[1..], s) + SupportingHandlers(b, s));
        (head + SupportingHandlers(a[1..], s)) + SupportingHandlers(b, s);
      }
    }
  }

  /** Every supporting handler is kept, nothing else is, and a list of supporting handlers is kept whole. */
  lemma {:induction false} SupportingHandlersComplete(hs: seq<StrategyHandler>, s: Strategy)
    ensures forall k :: 0 <= k < |SupportingHandlers(hs, s)| ==> SupportingHandlers(hs, s)[k] in hs
    ensures forall j :: 0 <= j < |hs| && hs[j].supports(s) ==> hs[j] in SupportingHandlers(hs, s)
    ensures (forall j :: 0 <= j < |hs| ==> hs[j].supports(s)) ==> SupportingHandlers(hs, s) == hs
  {
    if hs != [] {
      SupportingHandlersComplete(hs[1..], s);
      forall j | 1 <= j < |hs| ensures hs[j] == hs[1..][j - 1] {}
    }
  }

  /** Some handler of `hs` says yes to `s`. */
  predicate SomeEnables(hs: seq<StrategyHandler>, s: Strategy, ctx: Context) {
    exists k :: 0 <= k < |hs| && hs[k].isEnabled(s, ctx)
  }

  /** Some handler that supports `s` says yes. */
  predicate Matches(e: Engine, s: Strategy, ctx: Context) {
    SomeEnables(SupportingHandlers(e.handlers, s), s, ctx)
  }

  /** The first strategy, in declaration order, that some supporting handler enables. */
  function FirstMatch(e: Engine, ss: seq<Strategy>, ctx: Context): Option<Strategy> {
    if ss == [] then None
    else if Matches(e, ss[0], ctx) then Some(ss[0])
    else FirstMatch(e, ss[1..], ctx)
  }

  /** One step of the strategy loop: the first match from position i on. */
  lemma FirstMatchStep(e: Engine, ss: seq<Strategy>, i: nat, ctx: Context)
    requires i < |ss|
    ensures FirstMatch(e, ss[i..], ctx)
         == if Matches(e, ss[i], ctx) then Some(ss[i]) else FirstMatch(e, ss[i + 1..], ctx)
  {
    assert ss[i..][0] == ss[i] && ss[i..][1..] == ss[i + 1..];
  }

  /** The first match is one of the strategies. */
  lemma {:induction false} FirstMatchIsAStrategy(e: Engine, ss: seq<Strategy>, ctx: Context)
    ensures FirstMatch(e, ss, ctx).Some? ==> FirstMatch(e, ss, ctx).value in ss
  {
    if ss != [] && !Matches(e, ss[0], ctx) {
      FirstMatchIsAStrategy(e, ss[1..], ctx);
      assert forall x :: x in ss[1..] ==> x in ss;
    }
  }

  /** At least one strategy has a supporting handler (the `$handlersFound` flag after the loop). */
  predicate AnyHandled(e: Engine, ss: seq<Strategy>) {
    exists i :: 0 <= i < |ss| && |SupportingHandlers(e.handlers, ss[i])| > 0
  }

  lemma AnyHandledStep(e: Engine, ss: seq<Strategy>, i: nat)
    requires i < |ss|
    ensures AnyHandled(e, ss[..i + 1])
        <==> AnyHandled(e, ss[..i]) || |SupportingHandlers(e.handlers, ss[i])| > 0
  {
    assert ss[..i + 1][i] == ss[i];
    forall j | 0 <= j < i ensures ss[..i + 1][j] == ss[..i][j] {}
  }

  /** The strategy part of isFeatureEnabled, reached once the switch is on and dependencies hold. */
  function StrategyOutcome(e: Engine, ft: Feature, ctx: Context): (r: Traced<EnabledResult>)
    ensures r.value.enabled <==> |ft.strategies| == 0 || FirstMatch(e, ft.strategies, ctx).Some?
    ensures r.value.strategy == FirstMatch(e, ft.strategies, ctx)
    ensures r.value.strategy.Some? ==> r.value.strategy.value in ft.strategies
    ensures |r.signals| > 0 && r.signals[|r.signals| - 1] == Metric(ft, r.value.enabled, None)
  {
    FirstMatchIsAStrategy(e, ft.strategies, ctx);
    if |ft.strategies| == 0 then
      Traced(EnabledResult(true, None), [Metric(ft, true, None)])
    else
      match FirstMatch(e, ft.strategies, ctx)
      case Some(s) => Traced(EnabledResult(true, Some(s)), [Metric(ft, true, None)])
      case None =>
        Traced(EnabledResult(false, None),
               (if AnyHandled(e, ft.strategies) then [] else Events(e, MissingStrategyHandler(ft.name)))
               + [Metric(ft, false, None)])
  }

  // ---------------------------------------------------------------------
  // The mutually recursive core: isFeatureEnabled, isDependencySatisfied, getVariant
  // ---------------------------------------------------------------------

  /** isFeatureEnabled */
  function FeatureEnabled(e: Engine, f: Option<Feature>, ctx: Context, default: bool): (r: Traced<EnabledResult>)
    ensures f.None? ==> r == Traced(EnabledResult(default, None), [])
    ensures f.Some? && !f.value.enabled ==> !r.value.enabled && r.value.strategy.None?
    ensures r.value.strategy.Some? ==> r.value.enabled && f.Some? && r.value.strategy.value in f.value.strategies
    decreases Rank(f), 3, 0
  {
    match f
    case None => Traced(EnabledResult(default, None), [])
    case Some(ft) =>
      if !ft.enabled then
        Traced(EnabledResult(false, None), Events(e, FeatureDisabled(ft.name)) + [Metric(ft, false, None)])
      else
        SwitchedOn(e, ft, ctx)
  }

  /** isFeatureEnabled past the master switch: dependencies first, then strategies. */
  function SwitchedOn(e: Engine, ft: Feature, ctx: Context): (r: Traced<EnabledResult>)
    ensures r.value.strategy.Some? ==> r.value.enabled && r.value.strategy.value in ft.strategies
    decreases Rank(Some(ft)), 2, |ft.dependencies| + 2
  {
    if |ft.dependencies| == 0 then StrategyOutcome(e, ft, ctx) else WithDependencies(e, ft, ctx)
  }

  /** A feature with dependencies: disabled with a metric by the first unsatisfied one, else its strategies decide. */
  function WithDependencies(e: Engine, ft: Feature, ctx: Context): (r: Traced<EnabledResult>)
    requires |ft.dependencies| > 0
    ensures r.value.strategy.Some? ==> r.value.enabled && r.value.strategy.value in ft.strategies
    decreases 1, 2, |ft.dependencies| + 1
  {
    var deps := AllDependencies(e, ft.dependencies, ctx);
    if !deps.value then
      Traced(EnabledResult(false, None), deps.signals + [Metric(ft, false, None)])
    else
      var s := StrategyOutcome(e, ft, ctx);
      Traced(s.value, deps.signals + s.signals)
  }

  /** The dependency loop of isFeatureEnabled: stops at the first unsatisfied dependency. */
  function AllDependencies(e: Engine, deps: seq<Dependency>, ctx: Context): (r: Traced<bool>)
    ensures deps == [] ==> r == Traced(true, [])
    decreases 1, 2, |deps|
  {
    if deps == [] then Traced(true, [])
    else
      var d := DependencySatisfied(e, Some(deps[0]), Some(ctx));
      if !d.value then Traced(false, d.signals)
      else
        var rest := AllDependencies(e, deps[1..], ctx);
        Traced(rest.value, d.signals + rest.signals)
  }

  /** isDependencySatisfied */
  function DependencySatisfied(e: Engine, dep: Option<Dependency>, ctx: Option<Context>): (r: Traced<bool>)
    ensures dep.None? ==> r == Traced(true, [])
    ensures dep.Some? && dep.value.feature !in e.features ==> !r.value
    decreases 1, 1, 1
  {
    match dep
    case None => Traced(true, [])
    case Some(d) => DependencyOn(e, d, ctx.GetOr(e.defaultContext))
  }

  /** isDependencySatisfied for a given dependency: look the parent up, then evaluate it. */
  function DependencyOn(e: Engine, d: Dependency, c: Context): (r: Traced<bool>)
    ensures d.feature !in e.features
            ==> r == Traced(false, Events(e, FeatureNotFound(d.feature)) + Events(e, DependencyNotFound(d.feature)))
    ensures d.feature in e.features && |e.features[d.feature].dependencies| > 0 ==> r == Traced(false, [])
    decreases 1, 1, 0
  {
    if d.feature !in e.features then
      Traced(false, Events(e, FeatureNotFound(d.feature)) + Events(e, DependencyNotFound(d.feature)))
    else
      var parent := e.features[d.feature];
      if |parent.dependencies| > 0 then Traced(false, [])
      else ParentSatisfies(e, d, c, parent)
  }

  /** The part of isDependencySatisfied that evaluates a parent without dependencies of its own. */
  function ParentSatisfies(e: Engine, d: Dependency, c: Context, parent: Feature): (r: Traced<bool>)
    requires |parent.dependencies| == 0 && Lookup(e, parent.name) == Some(parent)
    ensures r.value ==> FeatureEnabled(e, Some(parent), c, false).value.enabled == (d.enabled != Some(false))
    decreases 1, 0, 0
  {
    var pe := FeatureEnabled(e, Some(parent), c, false);
    if pe.value.enabled && d.enabled == Some(false) then
      Traced(false, pe.signals)
    else if !pe.value.enabled && d.enabled != Some(false) then
      Traced(false, pe.signals)
    else if |d.variants| > 0 then
      var v := VariantAccepted(e, d, c, parent);
      Traced(v.value, pe.signals + v.signals)
    else
      Traced(true, pe.signals)
  }

  /** Whether the parent's variant (no fallback, the child's context) is one of the dependency's names. */
  function VariantAccepted(e: Engine, d: Dependency, c: Context, parent: Feature): (r: Traced<bool>)
    requires |parent.dependencies| == 0 && Lookup(e, parent.name) == Some(parent)
    ensures r.value ==> |d.variants| > 0
    decreases 0, 5, 0
  {
    var v := GetVariant(e, parent.name, Some(c), None);
    Traced(v.value.name in d.variants, v.signals)
  }

  /** getVariant */
  function GetVariant(e: Engine, name: string, ctx: Option<Context>, fallback: Option<Variant>): (r: Traced<Variant>)
    ensures name !in e.features
            ==> r == Traced(fallback.GetOr(e.variants.defaultVariant), Events(e, FeatureNotFound(name)))
    decreases Rank(Lookup(e, name)), 4, 0
  {
    var fb := fallback.GetOr(e.variants.defaultVariant);
    if name !in e.features then
      Traced(fb, Events(e, FeatureNotFound(name)))
    else
      VariantOf(e, e.features[name], ctx.GetOr(e.defaultContext), fb)
  }

  /** getVariant on a feature the repository has: evaluate it, then select a variant or fall back. */
  function VariantOf(e: Engine, ft: Feature, c: Context, fb: Variant): (r: Traced<Variant>)
    ensures !FeatureEnabled(e, Some(ft), c, false).value.enabled ==> r.value == fb
    decreases Rank(Some(ft)), 3, 1
  {
    var r := FeatureEnabled(e, Some(ft), c, false);
    var v := SelectVariant(e, ft.name, c, ft, r.value);
    Traced(v.GetOr(fb), r.signals + VariantSignals(e, ft.name, ft, v))
  }

  /**
   * The variant getVariant selects for an existing feature, or None for the
   * fallback: off, no variants anywhere, or the selector found none.
   */
  function SelectVariant(e: Engine, name: string, c: Context, ft: Feature, r: EnabledResult): Option<Variant> {
    var sv := StrategyVariants(r);
    if !r.enabled || (|ft.variants| == 0 && |sv| == 0) then None
    else if |sv| == 0 then e.variants.selectVariant(ft.variants, name, c)
    else e.variants.selectVariant(sv, GroupId(r.strategy.value), c)
  }

  /** The metric and the impression event of a selected variant. */
  function VariantSignals(e: Engine, name: string, ft: Feature, v: Option<Variant>): seq<Signal> {
    if v.Some? then
      [Metric(ft, true, v)] + (if ft.impressionData then Events(e, ImpressionData(GetVariantImpression, name)) else [])
    else []
  }

  /** isEnabled */
  function IsEnabled(e: Engine, name: string, ctx: Option<Context>, default: bool): (r: Traced<bool>)
    ensures r.value == FeatureEnabled(e, Lookup(e, name), ctx.GetOr(e.defaultContext), default).value.enabled
    ensures name !in e.features ==> r == Traced(default, Events(e, FeatureNotFound(name)))
  {
    var c := ctx.GetOr(e.defaultContext);
    var found := FindFeature(e, name);
    var impression := if found.value.Some? && found.value.value.impressionData
                      then Events(e, ImpressionData(IsEnabledImpression, name)) else [];
    var r := FeatureEnabled(e, found.value, c, default);
    Traced(r.value.enabled, found.signals + impression + r.signals)
  }

  // ---------------------------------------------------------------------
  // Properties
  // ---------------------------------------------------------------------

  /** Switched off: disabled, no strategy, exactly one metric and it says disabled; nothing else is looked at. */
  lemma DisabledFeatureShortCircuits(e: Engine, ft: Feature, ctx: Context, default: bool)
    requires !ft.enabled
    ensures FeatureEnabled(e, Some(ft), ctx, default).value == EnabledResult(false, None)
    ensures FeatureEnabled(e, Some(ft), ctx, default).signals
         == Events(e, FeatureDisabled(ft.name)) + [Metric(ft, false, None)]
    ensures Metrics(FeatureEnabled(e, Some(ft), ctx, default).signals) == [Metric(ft, false, None)]
  {
    var ev := Events(e, FeatureDisabled(ft.name));
    MetricsAppend(ev, [Metric(ft, false, None)]);
    assert Metrics([Metric(ft, false, None)]) == [Metric(ft, false, None)];
  }

  /** With the switch on, isFeatureEnabled is its strategies alone or its dependencies then its strategies. */
  lemma SwitchedOnUnfolds(e: Engine, ft: Feature, ctx: Context, default: bool)
    requires ft.enabled
    ensures |ft.dependencies| == 0 ==> FeatureEnabled(e, Some(ft), ctx, default) == StrategyOutcome(e, ft, ctx)
    ensures |ft.dependencies| > 0 ==> FeatureEnabled(e, Some(ft), ctx, default) == WithDependencies(e, ft, ctx)
  {
  }

  /** Every evaluation of an existing feature ends with exactly its own metric, carrying the verdict. */
  lemma EvaluationEndsWithItsMetric(e: Engine, ft: Feature, ctx: Context, default: bool)
    ensures var r := FeatureEnabled(e, Some(ft), ctx, default);
            |r.signals| > 0 && r.signals[|r.signals| - 1] == Metric(ft, r.value.enabled, None)
  {
    if ft.enabled {
      SwitchedOnUnfolds(e, ft, ctx, default);
    }
  }

  /** The dependency loop succeeds exactly when every dependency is satisfied. */
  lemma {:induction false} AllDependenciesIffEach(e: Engine, deps: seq<Dependency>, ctx: Context)
    ensures AllDependencies(e, deps, ctx).value
        <==> forall i :: 0 <= i < |deps| ==> DependencySatisfied(e, Some(deps[i]), Some(ctx)).value
  {
    if deps != [] {
      AllDependenciesIffEach(e, deps[1..], ctx);
      if DependencySatisfied(e, Some(deps[0]), Some(ctx)).value {
        forall i | 0 <= i < |deps| && DependencySatisfied(e, Some(deps[i]), Some(ctx)).value == false
          ensures 1 <= i && !DependencySatisfied(e, Some(deps[1..][i - 1]), Some(ctx)).value
        {
        }
      }
    }
  }

  /** One unsatisfied dependency disables the feature before any strategy is looked at. */
  lemma UnsatisfiedDependencyDisables(e: Engine, ft: Feature, ctx: Context, default: bool, i: nat)
    requires ft.enabled && i < |ft.dependencies|
    requires !DependencySatisfied(e, Some(ft.dependencies[i]), Some(ctx)).value
    ensures FeatureEnabled(e, Some(ft), ctx, default).value == EnabledResult(false, None)
    ensures FeatureEnabled(e, Some(ft), ctx, default).signals
         == AllDependencies(e, ft.dependencies, ctx).signals + [Metric(ft, false, None)]
  {
    AllDependenciesIffEach(e, ft.dependencies, ctx);
    SwitchedOnUnfolds(e, ft, ctx, default);
  }

  /** A parent that has dependencies of its own always fails the child (one hop only). */
  lemma NestedParentDisablesChild(e: Engine, ft: Feature, ctx: Context, default: bool, i: nat)
    requires ft.enabled && i < |ft.dependencies|
    requires ft.dependencies[i].feature in e.features
    requires |e.features[ft.dependencies[i].feature].dependencies| > 0
    ensures !FeatureEnabled(e, Some(ft), ctx, default).value.enabled
  {
    UnsatisfiedDependencyDisables(e, ft, ctx, default, i);
  }

  /** With the switch on, every dependency satisfied and no strategies, the feature is on. */
  lemma NoStrategiesMeansEnabled(e: Engine, ft: Feature, ctx: Context, default: bool)
    requires ft.enabled && |ft.strategies| == 0
    requires forall i :: 0 <= i < |ft.dependencies| ==> DependencySatisfied(e, Some(ft.dependencies[i]), Some(ctx)).value
    ensures FeatureEnabled(e, Some(ft), ctx, default).value == EnabledResult(true, None)
  {
    AllDependenciesIffEach(e, ft.dependencies, ctx);
    SwitchedOnUnfolds(e, ft, ctx, default);
  }

  /** Some handler of `hs` both supports `s` and enables it. */
  predicate SomeSupportingEnables(hs: seq<StrategyHandler>, s: Strategy, ctx: Context) {
    exists j :: 0 <= j < |hs| && hs[j].supports(s) && hs[j].isEnabled(s, ctx)
  }

  lemma SomeEnablesAppend(a: seq<StrategyHandler>, b: seq<StrategyHandler>, s: Strategy, ctx: Context)
    ensures SomeEnables(a + b, s, ctx) <==> SomeEnables(a, s, ctx) || SomeEnables(b, s, ctx)
  {
    if SomeEnables(a + b, s, ctx) {
      var k :| 0 <= k < |a + b| && (a + b)[k].isEnabled(s, ctx);
      if k >= |a| { assert b[k - |a|] == (a + b)[k]; }
    }
    if SomeEnables(a, s, ctx) {
      var k :| 0 <= k < |a| && a[k].isEnabled(s, ctx);
      assert (a + b)[k] == a[k];
    }
    if SomeEnables(b, s, ctx) {
      var k :| 0 <= k < |b| && b[k].isEnabled(s, ctx);
      assert (a + b)[|a| + k] == b[k];
    }
  }

  /** A strategy matches exactly when some registered handler both supports it and enables it. */
  lemma {:induction false} SupportingHandlerEnables(hs: seq<StrategyHandler>, s: Strategy, ctx: Context)
    ensures SomeEnables(SupportingHandlers(hs, s), s, ctx) <==> SomeSupportingEnables(hs, s, ctx)
  {
    if hs != [] {
      SupportingHandlerEnables(hs[1..], s, ctx);
      var head := if hs[0].supports(s) then [hs[0]] else [];
      SomeEnablesAppend(head, SupportingHandlers(hs[1..], s), s, ctx);
      if SomeSupportingEnables(hs, s, ctx) {
        var j :| 0 <= j < |hs| && hs[j].supports(s) && hs[j].isEnabled(s, ctx);
        if j == 0 {
          assert head[0].isEnabled(s, ctx);
        } else {
          assert hs[1..][j - 1] == hs[j];
        }
      }
      if SomeSupportingEnables(hs[1..], s, ctx) {
        var j :| 0 <= j < |hs[1..]| && hs[1..][j].supports(s) && hs[1..][j].isEnabled(s, ctx);
        assert hs[j + 1] == hs[1..][j];
      }
    }
  }

  /** First match wins: the result is the first matching strategy in declaration order, or none. */
  lemma FirstMatchIsFirst(e: Engine, ss: seq<Strategy>, ctx: Context)
    ensures FirstMatch(e, ss, ctx).None? <==> forall i :: 0 <= i < |ss| ==> !Matches(e, ss[i], ctx)
    ensures FirstMatch(e, ss, ctx).Some? ==>
              exists i :: 0 <= i < |ss| && ss[i] == FirstMatch(e, ss, ctx).value && Matches(e, ss[i], ctx)
                          && forall j :: 0 <= j < i ==> !Matches(e, ss[j], ctx)
  {
    FirstMatchNone(e, ss, ctx);
    if FirstMatch(e, ss, ctx).Some? {
      var i := FirstMatchIndex(e, ss, ctx);
    }
  }

  lemma {:induction false} FirstMatchNone(e: Engine, ss: seq<Strategy>, ctx: Context)
    ensures FirstMatch(e, ss, ctx).None? <==> forall i :: 0 <= i < |ss| ==> !Matches(e, ss[i], ctx)
  {
    if ss != [] && !Matches(e, ss[0], ctx) {
      FirstMatchNone(e, ss[1..], ctx);
      forall i | 1 <= i < |ss| ensures ss[i] == ss[1..][i - 1] {}
    }
  }

  /** The position of the first match. */
  lemma {:induction false} FirstMatchIndex(e: Engine, ss: seq<Strategy>, ctx: Context) returns (i: nat)
    requires FirstMatch(e, ss, ctx).Some?
    ensures i < |ss| && ss[i] == FirstMatch(e, ss, ctx).value && Matches(e, ss[i], ctx)
    ensures forall j :: 0 <= j < i ==> !Matches(e, ss[j], ctx)
  {
    if Matches(e, ss[0], ctx) {
      i := 0;
    } else {
      var k := FirstMatchIndex(e, ss[1..], ctx);
      i := k + 1;
      forall j | 1 <= j < i ensures ss[j] == ss[1..][j - 1] {}
    }
  }

  /** Strategies after the winner are never evaluated: appending more cannot change the winner. */
  lemma {:induction false} FirstMatchIgnoresLater(e: Engine, a: seq<Strategy>, b: seq<Strategy>, ctx: Context)
    requires FirstMatch(e, a, ctx).Some?
    ensures FirstMatch(e, a + b, ctx) == FirstMatch(e, a, ctx)
  {
    assert (a + b)[0] == a[0];
    if !Matches(e, a[0], ctx) {
      assert (a + b)[1..] == a[1..] + b;
      FirstMatchIgnoresLater(e, a[1..], b, ctx);
    }
  }

  /**
   * With no match, the missing-handler event fires exactly when no strategy
   * had any supporting handler (and a dispatcher is set); with a match it never fires.
   * When it fires it comes just before the disabled metric, which ends every
   * evaluation without a match.
   */
  lemma MissingHandlerEvent(e: Engine, ft: Feature, ctx: Context)
    requires |ft.strategies| > 0
    ensures var out := StrategyOutcome(e, ft, ctx);
            MissingStrategyHandler(ft.name) in out.signals
            <==> e.dispatching && FirstMatch(e, ft.strategies, ctx).None?
                 && forall i :: 0 <= i < |ft.strategies| ==> |SupportingHandlers(e.handlers, ft.strategies[i])| == 0
    ensures var out := StrategyOutcome(e, ft, ctx);
            MissingStrategyHandler(ft.name) in out.signals
            ==> out.signals == [MissingStrategyHandler(ft.name), Metric(ft, false, None)]
    ensures var out := StrategyOutcome(e, ft, ctx);
            FirstMatch(e, ft.strategies, ctx).None?
            ==> !out.value.enabled && out.signals[|out.signals| - 1] == Metric(ft, false, None)
  {
  }

  /** A strategy without a supporting handler never matches (it is skipped). */
  lemma UnhandledStrategyNeverMatches(e: Engine, s: Strategy, ctx: Context)
    requires forall j :: 0 <= j < |e.handlers| ==> !e.handlers[j].supports(s)
    ensures !Matches(e, s, ctx)
  {
    SupportingHandlerEnables(e.handlers, s, ctx);
  }

  /** The rules of isDependencySatisfied. */
  lemma DependencyRules(e: Engine, d: Dependency, ctx: Option<Context>)
    ensures DependencySatisfied(e, None, ctx).value
    ensures d.feature !in e.features ==> !DependencySatisfied(e, Some(d), ctx).value
    ensures d.feature in e.features && |e.features[d.feature].dependencies| > 0
            ==> !DependencySatisfied(e, Some(d), ctx).value
    ensures d.feature in e.features && |e.features[d.feature].dependencies| == 0 ==>
              var parent := e.features[d.feature];
              var c := ctx.GetOr(e.defaultContext);
              DependencySatisfied(e, Some(d), ctx).value
              <==> (FeatureEnabled(e, Some(parent), c, false).value.enabled == (d.enabled != Some(false))
                    && (|d.variants| > 0 ==> GetVariant(e, d.feature, Some(c), None).value.name in d.variants))
  {
    var c := ctx.GetOr(e.defaultContext);
    assert DependencySatisfied(e, Some(d), ctx) == DependencyOn(e, d, c);
    if d.feature in e.features && |e.features[d.feature].dependencies| == 0 {
      var parent := e.features[d.feature];
      assert parent.name == d.feature;
      assert DependencyOn(e, d, c) == ParentSatisfies(e, d, c, parent);
      assert VariantAccepted(e, d, c, parent).value == (GetVariant(e, d.feature, Some(c), None).value.name in d.variants);
    }
  }

  /** getVariant answers with the fallback when the feature is missing, off, or has no variants anywhere. */
  lemma VariantFallback(e: Engine, name: string, ctx: Option<Context>, fallback: Option<Variant>)
    requires var c := ctx.GetOr(e.defaultContext);
             var r := FeatureEnabled(e, Lookup(e, name), c, false).value;
             name !in e.features || !r.enabled
             || (|e.features[name].variants| == 0 && |StrategyVariants(r)| == 0)
    ensures GetVariant(e, name, ctx, fallback).value == fallback.GetOr(e.variants.defaultVariant)
  {
  }

  /** Variants of the winning strategy take precedence and are seeded by its groupId ('' if absent). */
  lemma VariantFromStrategy(e: Engine, name: string, ctx: Option<Context>, fallback: Option<Variant>)
    requires name in e.features
    requires var r := FeatureEnabled(e, Lookup(e, name), ctx.GetOr(e.defaultContext), false).value;
             r.enabled && |StrategyVariants(r)| > 0
    ensures var c := ctx.GetOr(e.defaultContext);
            var r := FeatureEnabled(e, Lookup(e, name), c, false).value;
            GetVariant(e, name, ctx, fallback).value
            == e.variants.selectVariant(StrategyVariants(r), GroupId(r.strategy.value), c)
                 .GetOr(fallback.GetOr(e.variants.defaultVariant))
  {
  }

  /** Otherwise the feature's own variants are used, seeded by the feature name. */
  lemma VariantFromFeature(e: Engine, name: string, ctx: Option<Context>, fallback: Option<Variant>)
    requires name in e.features && |e.features[name].variants| > 0
    requires var r := FeatureEnabled(e, Lookup(e, name), ctx.GetOr(e.defaultContext), false).value;
             r.enabled && |StrategyVariants(r)| == 0
    ensures var c := ctx.GetOr(e.defaultContext);
            GetVariant(e, name, ctx, fallback).value
            == e.variants.selectVariant(e.features[name].variants, name, c)
                 .GetOr(fallback.GetOr(e.variants.defaultVariant))
  {
  }

  /** A strategy-scoped variant can only come from the winning strategy of an enabled feature. */
  lemma StrategyVariantsComeFromWinner(e: Engine, ft: Feature, ctx: Context, default: bool)
    requires |StrategyVariants(FeatureEnabled(e, Some(ft), ctx, default).value)| > 0
    ensures var r := FeatureEnabled(e, Some(ft), ctx, default).value;
            r.enabled && r.strategy == FirstMatch(e, ft.strategies, ctx)
            && r.strategy.value in ft.strategies
  {
    FirstMatchIsFirst(e, ft.strategies, ctx);
    if ft.enabled {
      SwitchedOnUnfolds(e, ft, ctx, default);
    }
  }
}
