/**
 * The value objects the engine works on: features, strategies, variants,
 * dependencies and the evaluation context. In the SDK they are immutable
 * DTO classes; here they are datatypes.
 */
module Dto {
  import opened Wrappers

  /** Values of the SDK's Stickiness enum used by the modelled code. */
  const StickinessDefault: string := "default"
  const StickinessRandom: string := "random"

  /** The evaluation context, as the named fields it exposes. */
  type Context = map<string, string>

  datatype Payload = Payload(kind: string, value: string)

  datatype VariantOverride = VariantOverride(contextName: string, values: seq<string>)

  datatype Variant = Variant(
    name: string,
    enabled: bool,
    weight: int,
    stickiness: string,
    payload: Option<Payload>,
    overrides: seq<VariantOverride>)

  /** A constraint of a strategy; it is only ever passed to the (external) constraint validator. */
  datatype Constraint = Constraint(
    contextName: string,
    operator: string,
    values: seq<string>,
    inverted: bool,
    caseInsensitive: bool)

  datatype Strategy = Strategy(
    name: string,
    parameters: map<string, string>,
    constraints: seq<Constraint>,
    variants: seq<Variant>)

  /**
   * A parent requirement. `enabled` is None when the dependency leaves the
   * expectation unset; a null variant list is the empty list.
   */
  datatype Dependency = Dependency(feature: string, enabled: Option<bool>, variants: seq<string>)

  datatype Feature = Feature(
    name: string,
    enabled: bool,
    strategies: seq<Strategy>,
    variants: seq<Variant>,
    dependencies: seq<Dependency>,
    impressionData: bool)

  /** A thrown exception: its class name and its message. */
  datatype Throwable = Throwable(className: string, message: string)
}
