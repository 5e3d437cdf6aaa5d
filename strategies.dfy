/**
 * Two built-in strategy handlers.
 *
 * Constraint validation (AbstractStrategyHandler::validateConstraints) and
 * the flexible-rollout handler the legacy random strategy delegates to are
 * not part of this model; both are parameters.
 */
module Strategies {
  import opened Dto

  /** getStrategyName of DefaultStrategyHandler. */
  const DefaultStrategyName: string := "default"

  /** getStrategyName of GradualRolloutRandomStrategyHandler. */
  const GradualRolloutRandomName: string := "gradualRolloutRandom"

  /**
   * DefaultStrategyHandler::isEnabled: on exactly when the strategy's
   * constraints validate against the context.
   */
  function DefaultIsEnabled(validate: (seq<Constraint>, Context) -> bool, s: Strategy, ctx: Context): (r: bool)
    ensures !validate(s.constraints, ctx) ==> !r
    ensures r <==> validate(s.constraints, ctx)
  {
    if !validate(s.constraints, ctx) then false else true
  }

  /** The default strategy ignores its parameters (and its name and variants). */
  lemma DefaultIgnoresParameters(validate: (seq<Constraint>, Context) -> bool, s: Strategy, t: Strategy, ctx: Context)
    requires s.constraints == t.constraints
    ensures DefaultIsEnabled(validate, s, ctx) == DefaultIsEnabled(validate, t, ctx)
  {
  }

  /** The legacy `groupId` parameter, or '' when absent. */
  function GroupIdOrEmpty(s: Strategy): string {
    if "groupId" in s.parameters then s.parameters["groupId"] else ""
  }

  /**
   * The flexible-rollout strategy GradualRolloutRandomStrategyHandler
   * builds: stickiness `random`, the original `groupId` (default ''), and
   * the original `percentage` as `rollout`, under its own name.
   */
  function TranslateRandom(s: Strategy): (t: Strategy)
    ensures t.name == GradualRolloutRandomName
    ensures t.parameters.Keys <= {"stickiness", "groupId", "rollout"}
    ensures "stickiness" in t.parameters && t.parameters["stickiness"] == StickinessRandom
    ensures "groupId" in t.parameters && t.parameters["groupId"] == GroupIdOrEmpty(s)
    ensures "rollout" in t.parameters <==> "percentage" in s.parameters
    ensures "percentage" in s.parameters ==> t.parameters["rollout"] == s.parameters["percentage"]
    ensures t.constraints == [] && t.variants == []
  {
    var base := map["stickiness" := StickinessRandom, "groupId" := GroupIdOrEmpty(s)];
    var parameters := if "percentage" in s.parameters then base["rollout" := s.parameters["percentage"]] else base;
    Strategy(GradualRolloutRandomName, parameters, [], [])
  }

  /** GradualRolloutRandomStrategyHandler::isEnabled: the delegate's verdict on the translation. */
  function RandomIsEnabled(rollout: (Strategy, Context) -> bool, s: Strategy, ctx: Context): (r: bool)
    ensures "percentage" !in s.parameters ==>
              r == rollout(Strategy(GradualRolloutRandomName,
                                    map["stickiness" := StickinessRandom, "groupId" := GroupIdOrEmpty(s)], [], []), ctx)
    ensures "percentage" in s.parameters ==>
              r == rollout(Strategy(GradualRolloutRandomName,
                                    map["stickiness" := StickinessRandom, "groupId" := GroupIdOrEmpty(s),
                                        "rollout" := s.parameters["percentage"]], [], []), ctx)
  {
    rollout(TranslateRandom(s), ctx)
  }

  /**
   * Only `groupId` and `percentage` are passed on: two strategies that agree
   * on those two parameters translate to the same strategy and get the same verdict.
   */
  lemma RandomDependsOnlyOnGroupAndPercentage(rollout: (Strategy, Context) -> bool, s: Strategy, t: Strategy, ctx: Context)
    requires GroupIdOrEmpty(s) == GroupIdOrEmpty(t)
    requires ("percentage" in s.parameters) == ("percentage" in t.parameters)
    requires "percentage" in s.parameters ==> s.parameters["percentage"] == t.parameters["percentage"]
    ensures TranslateRandom(s) == TranslateRandom(t)
    ensures RandomIsEnabled(rollout, s, ctx) == RandomIsEnabled(rollout, t, ctx)
  {
    var a := TranslateRandom(s);
    var b := TranslateRandom(t);
    assert a.parameters.Keys == b.parameters.Keys;
    assert forall k :: k in a.parameters ==> a.parameters[k] == b.parameters[k];
  }
}
