/**
 * DefaultUnleash (src/DefaultUnleash.php) as a class whose methods run the
 * PHP loops step by step. The metrics handler and the event dispatcher are
 * a ghost, append-only `log`; every method is proved to answer what the
 * functions of module Evaluation answer and to append exactly their signals.
 */
module Client {
  import opened Wrappers
  import opened Dto
  import opened Evaluation

  class DefaultUnleash {
    const engine: Engine
    ghost var log: seq<Signal>

    constructor (engine: Engine)
      ensures this.engine == engine && log == []
    {
      this.engine := engine;
      log := [];
    }

    /** findStrategyHandlers: collects the supporting handlers in registration order. */
    method FindStrategyHandlers(strategy: Strategy) returns (handlers: seq<StrategyHandler>)
      ensures handlers == SupportingHandlers(engine.handlers, strategy)
    {
      var all := engine.handlers;
      handlers := [];
      var i := 0;
      while i < |all|
        invariant 0 <= i <= |all|
        invariant handlers == SupportingHandlers(all[..i], strategy)
      {
        assert all[..i + 1] == all[..i] + [all[i]];
        SupportingHandlersAppend(all[..i], [all[i]], strategy);
        if all[i].supports(strategy) {
          handlers := handlers + [all[i]];
        }
        i := i + 1;
      }
      assert all[..i] == all;
    }

    /** findFeature: the repository lookup, with a not-found event when it has no answer. */
    method FindFeature(name: string) returns (feature: Option<Feature>)
      modifies this
      ensures feature == Lookup(engine, name)
      ensures log == old(log) + Evaluation.FindFeature(engine, name).signals
    {
      feature := if name in engine.features then Some(engine.features[name]) else None;
      if feature.None? && engine.dispatching {
        log := log + [FeatureNotFound(name)];
      }
    }

    method IsEnabled(name: string, ctx: Option<Context>, default: bool) returns (enabled: bool)
      modifies this
      ensures enabled == Evaluation.IsEnabled(engine, name, ctx, default).value
      ensures log == old(log) + Evaluation.IsEnabled(engine, name, ctx, default).signals
    {
      var c := ctx.GetOr(engine.defaultContext);
      var feature := FindFeature(name);
      if feature.Some? && feature.value.impressionData && engine.dispatching {
        log := log + [ImpressionData(IsEnabledImpression, name)];
      }
      var result := IsFeatureEnabled(feature, c, default);
      enabled := result.enabled;
    }

    method GetVariant(name: string, ctx: Option<Context>, fallback: Option<Variant>) returns (variant: Variant)
      modifies this
      decreases Rank(Lookup(engine, name)), 4, 0
      ensures variant == Evaluation.GetVariant(engine, name, ctx, fallback).value
      ensures log == old(log) + Evaluation.GetVariant(engine, name, ctx, fallback).signals
    {
      var fb := fallback.GetOr(engine.variants.defaultVariant);
      var feature := FindFeature(name);
      if feature.None? {
        return fb;
      }
      variant := VariantOfFeature(feature.value, ctx.GetOr(engine.defaultContext), fb);
    }

    /** The rest of getVariant, once the repository has answered with a feature. */
    method VariantOfFeature(ft: Feature, c: Context, fb: Variant) returns (variant: Variant)
      modifies this
      decreases Rank(Some(ft)), 3, 1
      ensures variant == VariantOf(engine, ft, c, fb).value
      ensures log == old(log) + VariantOf(engine, ft, c, fb).signals
    {
      var result := IsFeatureEnabled(Some(ft), c, false);
      var strategyVariants := if result.strategy.Some? then result.strategy.value.variants else [];
      if !result.enabled || (|ft.variants| == 0 && |strategyVariants| == 0) {
        return fb;
      }
      var selected: Option<Variant>;
      if |strategyVariants| == 0 {
        selected := engine.variants.selectVariant(ft.variants, ft.name, c);
      } else {
        selected := engine.variants.selectVariant(strategyVariants, GroupId(result.strategy.value), c);
      }
      if selected.Some? {
        log := log + [Metric(ft, true, selected)];
        if ft.impressionData && engine.dispatching {
          log := log + [ImpressionData(GetVariantImpression, ft.name)];
        }
      }
      variant := selected.GetOr(fb);
    }

    method IsDependencySatisfied(dependency: Option<Dependency>, ctx: Option<Context>) returns (satisfied: bool)
      modifies this
      decreases 1, 1, 1
      ensures satisfied == DependencySatisfied(engine, dependency, ctx).value
      ensures log == old(log) + DependencySatisfied(engine, dependency, ctx).signals
    {
      if dependency.None? {
        return true;
      }
      satisfied := CheckDependency(dependency.value, ctx.GetOr(engine.defaultContext));
    }

    /** isDependencySatisfied past the null check: the parent must exist and have no dependencies. */
    method CheckDependency(d: Dependency, c: Context) returns (satisfied: bool)
      modifies this
      decreases 1, 1, 0
      ensures satisfied == DependencyOn(engine, d, c).value
      ensures log == old(log) + DependencyOn(engine, d, c).signals
    {
      var parent := FindFeature(d.feature);
      if parent.None? {
        if engine.dispatching {
          log := log + [DependencyNotFound(d.feature)];
        }
        return false;
      }
      var p := parent.value;
      if |p.dependencies| > 0 {
        return false;
      }
      satisfied := CheckParent(d, c, p);
    }

    /** The rest of isDependencySatisfied, for a parent without dependencies of its own. */
    method CheckParent(d: Dependency, c: Context, p: Feature) returns (satisfied: bool)
      requires |p.dependencies| == 0 && Lookup(engine, p.name) == Some(p)
      modifies this
      decreases 1, 0, 0
      ensures satisfied == ParentSatisfies(engine, d, c, p).value
      ensures log == old(log) + ParentSatisfies(engine, d, c, p).signals
    {
      var parentEnabled := IsFeatureEnabled(Some(p), c, false);
      if parentEnabled.enabled && d.enabled == Some(false) {
        return false;
      }
      if !parentEnabled.enabled && d.enabled != Some(false) {
        return false;
      }
      if |d.variants| > 0 {
        satisfied := CheckParentVariant(d, c, p);
        return;
      }
      return true;
    }

    /** The variant part of isDependencySatisfied: is the parent's variant an acceptable one? */
    method CheckParentVariant(d: Dependency, c: Context, p: Feature) returns (accepted: bool)
      requires |p.dependencies| == 0 && Lookup(engine, p.name) == Some(p)
      modifies this
      decreases 0, 5, 0
      ensures accepted == VariantAccepted(engine, d, c, p).value
      ensures log == old(log) + VariantAccepted(engine, d, c, p).signals
    {
      var parentVariant := GetVariant(p.name, Some(c), None);
      accepted := ContainsName(d.variants, parentVariant.name);
    }

    /** isFeatureEnabled: switch, then dependencies in order, then strategies in order. */
    method IsFeatureEnabled(feature: Option<Feature>, ctx: Context, default: bool) returns (result: EnabledResult)
      modifies this
      decreases Rank(feature), 3, 0
      ensures result == FeatureEnabled(engine, feature, ctx, default).value
      ensures log == old(log) + FeatureEnabled(engine, feature, ctx, default).signals
    {
      if feature.None? {
        return EnabledResult(default, None);
      }
      var ft := feature.value;
      if !ft.enabled {
        if engine.dispatching {
          log := log + [FeatureDisabled(ft.name)];
        }
        log := log + [Metric(ft, false, None)];
        return EnabledResult(false, None);
      }
      result := EvaluateSwitchedOn(ft, ctx);
    }

    /** The rest of isFeatureEnabled once the master switch is on. */
    method EvaluateSwitchedOn(ft: Feature, ctx: Context) returns (result: EnabledResult)
      modifies this
      decreases Rank(Some(ft)), 2, |ft.dependencies| + 2
      ensures result == SwitchedOn(engine, ft, ctx).value
      ensures log == old(log) + SwitchedOn(engine, ft, ctx).signals
    {
      if |ft.dependencies| == 0 {
        result := EvaluateStrategies(ft, ctx);
      } else {
        result := EvaluateWithDependencies(ft, ctx);
      }
    }

    /** The dependencies of isFeatureEnabled, then its strategies. */
    method EvaluateWithDependencies(ft: Feature, ctx: Context) returns (result: EnabledResult)
      requires |ft.dependencies| > 0
      modifies this
      decreases 1, 2, |ft.dependencies| + 1
      ensures result == WithDependencies(engine, ft, ctx).value
      ensures log == old(log) + WithDependencies(engine, ft, ctx).signals
    {
      var satisfied := CheckDependencies(ft, ctx);
      if !satisfied {
        log := log + [Metric(ft, false, None)];
        return EnabledResult(false, None);
      }
      result := EvaluateStrategies(ft, ctx);
    }

    /** The dependency loop of isFeatureEnabled: stops at the first unsatisfied dependency. */
    method CheckDependencies(ft: Feature, ctx: Context) returns (satisfied: bool)
      requires |ft.dependencies| > 0
      modifies this
      decreases 1, 2, 0
      ensures satisfied == AllDependencies(engine, ft.dependencies, ctx).value
      ensures log == old(log) + AllDependencies(engine, ft.dependencies, ctx).signals
    {
      var dependencies := ft.dependencies;
      var i := 0;
      while i < |dependencies|
        invariant 0 <= i <= |dependencies|
        invariant AllDependencies(engine, dependencies, ctx).value
               == AllDependencies(engine, dependencies[i..], ctx).value
        invariant log + AllDependencies(engine, dependencies[i..], ctx).signals
               == old(log) + AllDependencies(engine, dependencies, ctx).signals
      {
        assert dependencies[i..][0] == dependencies[i] && dependencies[i..][1..] == dependencies[i + 1..];
        satisfied := IsDependencySatisfied(Some(dependencies[i]), Some(ctx));
        if !satisfied {
          return false;
        }
        i := i + 1;
      }
      return true;
    }

    /** The strategies of isFeatureEnabled: the verdict, its metric and the missing-handler event. */
    method EvaluateStrategies(ft: Feature, ctx: Context) returns (result: EnabledResult)
      modifies this
      ensures result == StrategyOutcome(engine, ft, ctx).value
      ensures log == old(log) + StrategyOutcome(engine, ft, ctx).signals
    {
      if |ft.strategies| == 0 {
        log := log + [Metric(ft, true, None)];
        return EnabledResult(true, None);
      }
      var matched, handlersFound := FindFirstMatch(ft.strategies, ctx);
      if matched.Some? {
        log := log + [Metric(ft, true, None)];
        return EnabledResult(true, matched);
      }
      if !handlersFound && engine.dispatching {
        log := log + [MissingStrategyHandler(ft.name)];
      }
      log := log + [Metric(ft, false, None)];
      return EnabledResult(false, None);
    }

    /** The loop over the strategies, with the `handlersFound` flag; stops at the first match. */
    method FindFirstMatch(strategies: seq<Strategy>, ctx: Context) returns (matched: Option<Strategy>, handlersFound: bool)
      ensures matched == FirstMatch(engine, strategies, ctx)
      ensures matched.None? ==> handlersFound == AnyHandled(engine, strategies)
    {
      handlersFound := false;
      var i := 0;
      while i < |strategies|
        invariant 0 <= i <= |strategies|
        invariant FirstMatch(engine, strategies, ctx) == FirstMatch(engine, strategies[i..], ctx)
        invariant handlersFound == AnyHandled(engine, strategies[..i])
      {
        var handled, enabled := TryStrategy(strategies, i, ctx);
        if !handled {
          i := i + 1;
          continue;
        }
        handlersFound := true;
        if enabled {
          return Some(strategies[i]), handlersFound;
        }
        i := i + 1;
      }
      assert strategies[..i] == strategies && strategies[i..] == [];
      return None, handlersFound;
    }

    /**
     * One turn of the strategy loop on the strategy at position i: does it
     * have handlers, and does one of them enable it?
     */
    method TryStrategy(strategies: seq<Strategy>, i: nat, ctx: Context) returns (handled: bool, enabled: bool)
      requires i < |strategies|
      ensures FirstMatch(engine, strategies[i..], ctx)
           == if enabled then Some(strategies[i]) else FirstMatch(engine, strategies[i + 1..], ctx)
      ensures AnyHandled(engine, strategies[..i + 1]) <==> AnyHandled(engine, strategies[..i]) || handled
      ensures !handled ==> !enabled
    {
      var strategy := strategies[i];
      FirstMatchStep(engine, strategies, i, ctx);
      AnyHandledStep(engine, strategies, i);
      var handlers := FindStrategyHandlers(strategy);
      handled := |handlers| > 0;
      enabled := false;
      if handled {
        enabled := AnyHandlerEnables(handlers, strategy, ctx);
      }
    }

    /** The loop over the supporting handlers of one strategy: does any of them enable it? */
    method AnyHandlerEnables(handlers: seq<StrategyHandler>, strategy: Strategy, ctx: Context) returns (enabled: bool)
      ensures enabled == SomeEnables(handlers, strategy, ctx)
    {
      var k := 0;
      while k < |handlers|
        invariant 0 <= k <= |handlers|
        invariant forall j :: 0 <= j < k ==> !handlers[j].isEnabled(strategy, ctx)
      {
        if handlers[k].isEnabled(strategy, ctx) {
          return true;
        }
        k := k + 1;
      }
      return false;
    }

    /** The loop over the acceptable variant names of a dependency. */
    method ContainsName(names: seq<string>, name: string) returns (found: bool)
      ensures found <==> name in names
    {
      var k := 0;
      while k < |names|
        invariant 0 <= k <= |names|
        invariant name !in names[..k]
      {
        if names[k] == name {
          return true;
        }
        assert names[..k + 1] == names[..k] + [names[k]];
        k := k + 1;
      }
      assert names[..k] == names;
      return false;
    }
  }
}
