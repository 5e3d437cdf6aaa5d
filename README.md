# Unleash PHP SDK: feature evaluation, in Dafny

This project models the core of the Unleash PHP client SDK and proves
properties of the model. The SDK is a feature-toggle client. It holds a
snapshot of feature definitions fetched from an Unleash server and answers
three questions: is a feature on for a context (`isEnabled`), which variant
does the caller get (`getVariant`), and does a parent feature meet a child's
requirement (`isDependencySatisfied`).

The modules follow the SDK's files:

| module | file | models |
|---|---|---|
| `Wrappers` | wrappers.dfy | `Option` and `Result` |
| `Dto` | dto.dfy | features, strategies, variants, dependencies, contexts |
| `Evaluation` | evaluation.dfy | the decision rules of `DefaultUnleash`, as functions, and their properties |
| `Client` | client.dfy | `DefaultUnleash` as a class whose methods run the PHP loops step by step |
| `Repository` | repository.dfy | `DefaultUnleashRepository`: parsing the decoded feature list, and the cache-or-fetch rule |
| `Proxy` | proxy.dfy | `DefaultProxyUnleash`, the client that asks an Unleash proxy |
| `Strategies` | strategies.dfy | `DefaultStrategyHandler` and `GradualRolloutRandomStrategyHandler` |
| `Operators` | operators.dfy | the `NUM_GTE` and version `LT` constraint operators |
| `Url` | url.dfy | the `Url` helper's query-string construction |
| `Configuration` | configuration.dfy | `UnleashConfiguration` as a mutable settings object |
| `Exceptions` | compound_exception.dfy | `CompoundException` and its aggregate message |

How `DefaultUnleash` is modelled:

- **Collaborators.** The strategy handlers, the variant handler and the
  context provider are data. A handler is a pair of functions (`supports`,
  `isEnabled`). The variant handler is a selection function plus its default
  variant. The context provider is the context it supplies. The repository is
  a snapshot: a map from names to features in which every feature is stored
  under its own name, as `parseFeatures` stores them.
- **Metrics and events.** Each call to the metrics handler and each event
  given to the event dispatcher is a `Signal`. Events reach the log only when
  a dispatcher is configured.
- **Specification and implementation.** Each rule is a function in
  `Evaluation` that returns the answer together with the signals emitted, in
  order. Each method of `Client.DefaultUnleash` is proved to return what its
  function returns. It is also proved to append exactly that function's
  signals to the ghost `log`.
- **Termination.** The three operations call each other. Two facts together
  end the recursion. First, a dependency is only evaluated when the parent
  has no dependencies of its own (src/DefaultUnleash.php:160-162). Second,
  every feature in the snapshot (`Evaluation.Snapshot`) is stored under its
  own name. `isDependencySatisfied` finds the parent by the dependency's name
  (src/DefaultUnleash.php:148), but `getVariant` looks it up again by the name
  the parent reports (src/DefaultUnleash.php:175). The second fact makes both
  lookups find the same dependency-free feature. The `decreases` clauses rank
  a feature with dependencies above one without.

Two SDK generations are modelled, each as its files are written. The
`Rikudou\Unleash` generation covers the repository and both strategy
handlers (`DefaultStrategyHandler` and `GradualRolloutRandomStrategyHandler`).
The `Unleash\Client` generation covers the client, the proxy client, the
operators, the `Url` helper, the configuration and `CompoundException`. In the
older repository a missing cache is `null` and means "no caching". In the
newer configuration, `getCache` fails when no cache is set.

## Model

| member | source | states |
|---|---|---|
| Evaluation.Events | src/DefaultUnleash.php:125-128 | with a dispatcher configured the event is logged exactly once and is the event given; without one nothing is logged |
| Evaluation.Metrics | src/DefaultUnleash.php:209 | only metrics are kept, each from the signals; every metric of the signals is kept; a run of metrics alone is kept whole |
| Evaluation.MetricsAppend | src/DefaultUnleash.php:209 | order is kept: the metrics of two signal runs are the metrics of each, concatenated |
| Evaluation.FindFeature | src/DefaultUnleash.php:120-132 | findFeature answers the feature stored under exactly that name; a miss emits the not-found event and nothing else |
| Evaluation.SupportingHandlers | src/DefaultUnleash.php:267-277 | only supporting handlers are kept, never more than registered, and the result is empty exactly when no handler supports the strategy |
| Evaluation.SupportingHandlersAppend | src/DefaultUnleash.php:270-274 | registration order is kept: the supporting handlers of a concatenation are those of each part, concatenated |
| Evaluation.SupportingHandlersComplete | src/DefaultUnleash.php:270-274 | every supporting handler is kept and every kept handler is registered; when all handlers support the strategy, all are returned |
| Evaluation.Matches | src/DefaultUnleash.php:236-248 | a strategy matches when some supporting handler enables it; characterised by SupportingHandlerEnables |
| Evaluation.FirstMatch | src/DefaultUnleash.php:235-249 | the first matching strategy or none; characterised by FirstMatchIsFirst and FirstMatchIgnoresLater |
| Evaluation.AnyHandled | src/DefaultUnleash.php:235-241 | the `$handlersFound` flag after the loop: some strategy has a supporting handler |
| Evaluation.StrategyOutcome | src/DefaultUnleash.php:225-261 | on exactly when there are no strategies or some strategy matches; the strategy reported is the first match, one of the feature's strategies; the last signal is the metric carrying the verdict |
| Evaluation.FeatureEnabled | src/DefaultUnleash.php:196-262 | a missing feature gives the default with no strategy and no signal; a switched-off feature is off with no strategy; a reported strategy comes with an enabled verdict and is one of the feature's strategies |
| Evaluation.SwitchedOn | src/DefaultUnleash.php:214-262 | past the switch, a reported strategy comes with an enabled verdict and is one of the feature's strategies |
| Evaluation.WithDependencies | src/DefaultUnleash.php:214-262 | with dependencies, a reported strategy comes with an enabled verdict and is one of the feature's strategies |
| Evaluation.AllDependencies | src/DefaultUnleash.php:214-223 | no dependencies: satisfied, with no signal; the full rule is AllDependenciesIffEach |
| Evaluation.DependencySatisfied | src/DefaultUnleash.php:140-158 | a null dependency is satisfied with no signal; a dependency on a missing feature is never satisfied |
| Evaluation.DependencyOn | src/DefaultUnleash.php:148-162 | a missing parent fails with the not-found event and the dependency-not-found event; a parent with dependencies of its own fails silently |
| Evaluation.ParentSatisfies | src/DefaultUnleash.php:164-186 | satisfied only when the parent's state is the expected one (only an explicit false expects disabled) |
| Evaluation.VariantAccepted | src/DefaultUnleash.php:173-183 | an empty variant list never matches a variant |
| Evaluation.GetVariant | src/DefaultUnleash.php:67-80 | a missing feature gives the fallback, or the default variant without one, and only the not-found event |
| Evaluation.VariantOf | src/DefaultUnleash.php:73-104 | a disabled feature always gives the fallback |
| Evaluation.IsEnabled | src/DefaultUnleash.php:45-65 | the verdict of isFeatureEnabled on the looked-up feature, in the given or the default context; a missing feature gives the default and only the not-found event |
| Evaluation.DisabledFeatureShortCircuits | src/DefaultUnleash.php:202-212 | a switched-off feature is disabled with no strategy; its signals are the disabled event and one metric, and exactly one metric, saying disabled |
| Evaluation.EvaluationEndsWithItsMetric | src/DefaultUnleash.php:196-262 | every evaluation of an existing feature ends with its own metric, which carries the verdict |
| Evaluation.AllDependenciesIffEach | src/DefaultUnleash.php:214-223 | the dependency loop succeeds if and only if every dependency is satisfied |
| Evaluation.UnsatisfiedDependencyDisables | src/DefaultUnleash.php:214-223 | one unsatisfied dependency disables the feature before any strategy is consulted; its signals end with one disabled metric |
| Evaluation.NestedParentDisablesChild | src/DefaultUnleash.php:160-162 | a dependency on a parent that has dependencies of its own always disables the child |
| Evaluation.NoStrategiesMeansEnabled | src/DefaultUnleash.php:229-233 | switch on, all dependencies satisfied, no strategies: enabled with no strategy, whatever the context |
| Evaluation.SomeEnablesAppend | src/DefaultUnleash.php:242-248 | some handler of a concatenation enables the strategy if and only if one of either part does |
| Evaluation.SupportingHandlerEnables | src/DefaultUnleash.php:236-248 | a strategy matches if and only if some registered handler both supports and enables it |
| Evaluation.FirstMatchIsFirst | src/DefaultUnleash.php:235-249 | first match wins: the chosen strategy matches, and no earlier strategy does; no match means none matches |
| Evaluation.FirstMatchIgnoresLater | src/DefaultUnleash.php:243-246 | strategies after the first match are never consulted: appending strategies does not change the winner |
| Evaluation.MissingHandlerEvent | src/DefaultUnleash.php:251-261 | with no match, the missing-handler event fires if and only if no strategy had any handler; when it fires, the signals are that event followed by the disabled metric; with no match the verdict is off and the signals end with the disabled metric |
| Evaluation.UnhandledStrategyNeverMatches | src/DefaultUnleash.php:237-240 | a strategy no handler supports is skipped: it never matches |
| Evaluation.DependencyRules | src/DefaultUnleash.php:140-187 | null dependency satisfied; missing parent fails; nested parent fails; otherwise the parent's state must match (only an explicit false expects disabled) and, for a non-empty list, the parent's variant name must be in it |
| Evaluation.VariantFallback | src/DefaultUnleash.php:75-80 | getVariant returns the fallback (or the default variant) for a missing or disabled feature, or one with no variants anywhere |
| Evaluation.VariantFromStrategy | src/DefaultUnleash.php:82-86 | the winning strategy's variants take precedence and are seeded by its `groupId`, '' when absent; a null selection falls back |
| Evaluation.VariantFromFeature | src/DefaultUnleash.php:82-83 | otherwise the feature's variants are used, seeded by the feature name; a null selection falls back |
| Evaluation.StrategyVariantsComeFromWinner | src/DefaultUnleash.php:74 | strategy-scoped variants come only from the winning strategy of an enabled feature |
| Client.DefaultUnleash.constructor | src/DefaultUnleash.php:32-39 | a client over the given engine, with an empty log |
| Client.DefaultUnleash.FindStrategyHandlers | src/DefaultUnleash.php:267-277 | the loop collects exactly the supporting handlers, in registration order |
| Client.DefaultUnleash.FindFeature | src/DefaultUnleash.php:120-132 | the repository's answer, and the not-found event when there is none |
| Client.DefaultUnleash.IsEnabled | src/DefaultUnleash.php:45-65 | answers and logs what the isEnabled rule does, including the impression event |
| Client.DefaultUnleash.GetVariant | src/DefaultUnleash.php:67-80 | answers and logs what the getVariant rule does; a missing feature gives the fallback |
| Client.DefaultUnleash.VariantOfFeature | src/DefaultUnleash.php:73-104 | variant selection for a found feature, its metric and its impression event, as the getVariant rule states |
| Client.DefaultUnleash.IsDependencySatisfied | src/DefaultUnleash.php:140-147 | answers and logs what the isDependencySatisfied rule does; a null dependency is satisfied |
| Client.DefaultUnleash.CheckDependency | src/DefaultUnleash.php:147-162 | parent lookup with both not-found events, and the nested-parent rule |
| Client.DefaultUnleash.CheckParent | src/DefaultUnleash.php:164-186 | the parent's enablement against the expectation, then its variant |
| Client.DefaultUnleash.CheckParentVariant | src/DefaultUnleash.php:173-183 | the parent's variant, evaluated with the child's context, must be one of the listed names |
| Client.DefaultUnleash.IsFeatureEnabled | src/DefaultUnleash.php:196-212 | answers and logs what the isFeatureEnabled rule does: default for a missing feature, short-circuit when switched off |
| Client.DefaultUnleash.EvaluateSwitchedOn | src/DefaultUnleash.php:214-233 | with the switch on: dependencies (if any), then strategies |
| Client.DefaultUnleash.EvaluateWithDependencies | src/DefaultUnleash.php:214-223 | the first unsatisfied dependency disables with one metric; otherwise the strategies decide |
| Client.DefaultUnleash.CheckDependencies | src/DefaultUnleash.php:216-222 | the dependency loop stops at the first unsatisfied dependency and logs what the rule does |
| Client.DefaultUnleash.EvaluateStrategies | src/DefaultUnleash.php:225-261 | the strategy verdict, its metric and the missing-handler event, as the rule states |
| Client.DefaultUnleash.FindFirstMatch | src/DefaultUnleash.php:235-249 | the loop returns the first matching strategy; without one, `$handlersFound` says whether any strategy had a handler |
| Client.DefaultUnleash.TryStrategy | src/DefaultUnleash.php:236-248 | one turn of the strategy loop: the first match from this strategy on, and the `$handlersFound` flag, advance as FirstMatch and AnyHandled say; no handler means no match |
| Client.DefaultUnleash.AnyHandlerEnables | src/DefaultUnleash.php:242-248 | true exactly when some handler of the list enables the strategy |
| Client.DefaultUnleash.ContainsName | src/DefaultUnleash.php:177-183 | true exactly when the name is in the list |
| Repository.Put | src/Repository/DefaultUnleashRepository.php:148-153 | storing under a name: a new name goes last, an existing name keeps its place and gets the new feature |
| Repository.PutKeepsValid | src/Repository/DefaultUnleashRepository.php:148 | storing keeps the array's shape: each key once, the keys exactly the stored names |
| Repository.ParseVariant | src/Repository/DefaultUnleashRepository.php:132-147 | every parsed variant is enabled and keeps name and weight; missing stickiness is DEFAULT; a payload only when given; overrides one for one, each with the given context name and values, none when absent |
| Repository.ParseStrategy | src/Repository/DefaultUnleashRepository.php:129-131 | a strategy keeps its name; missing parameters become empty |
| Repository.ParseFeature | src/Repository/DefaultUnleashRepository.php:125-153 | a feature keeps name and switch; its strategies and its variants are parsed one for one, in input order; no variants when none are given; every variant is enabled |
| Repository.PutKeepsWellKeyed | src/Repository/DefaultUnleashRepository.php:148 | storing under the feature's own name keeps every feature under its own name |
| Repository.ParsedIsKeyedByName | src/Repository/DefaultUnleashRepository.php:121-157 | the result has one entry per distinct input name, each feature under its own name (so it is a valid snapshot for DefaultUnleash) |
| Repository.LastDuplicateWins | src/Repository/DefaultUnleashRepository.php:148 | a later feature with the same name replaces an earlier one |
| Repository.ParsedSize | src/Repository/DefaultUnleashRepository.php:148 | the number of parsed features equals the number of distinct names |
| Repository.CachedFeatures | src/Repository/DefaultUnleashRepository.php:87-99 | nothing without a cache or without the key, otherwise the stored list |
| Repository.Stored | src/Repository/DefaultUnleashRepository.php:106-114 | setCache writes the list with the ttl under the fixed key when there is a cache, and touches nothing else |
| Repository.StoredListIsServed | src/Repository/DefaultUnleashRepository.php:59 | a stored non-empty list is what the next getFeatures reads from the cache |
| Repository.Fetched | src/Repository/DefaultUnleashRepository.php:57-80 | a non-empty cached list is returned as is; else non-200 fails with the status, 200 gives the parsed body |
| Repository.AfterFetch | src/Repository/DefaultUnleashRepository.php:59-76 | the cache is unchanged when the cached list is used or the status is not 200; after a fresh 200 it holds the parsed list under the fixed key with the configured ttl |
| Repository.FetchFillsCache | tests/Repository/DefaultUnleashRepositoryTest.php:113-116 | after a successful fetch into an empty cache, the next getFeatures is served from the cache and sends no request |
| Repository.DefaultUnleashRepository.constructor | src/Repository/DefaultUnleashRepository.php:29-35 | a repository over the given cache and ttl, no request sent yet |
| Repository.DefaultUnleashRepository.FindFeature | src/Repository/DefaultUnleashRepository.php:42-48 | the feature stored under exactly that name, or none; fetch errors pass through |
| Repository.DefaultUnleashRepository.GetFeatures | src/Repository/DefaultUnleashRepository.php:57-80 | the getFeatures rule: no request when the cached list is non-empty, one otherwise; the cache is written only after a 200 |
| Repository.DefaultUnleashRepository.GetCachedFeatures | src/Repository/DefaultUnleashRepository.php:87-99 | the cached list, as CachedFeatures states |
| Repository.DefaultUnleashRepository.SetCache | src/Repository/DefaultUnleashRepository.php:106-114 | the cache becomes what Stored states, and no request is sent |
| Repository.ParseFeatures | src/Repository/DefaultUnleashRepository.php:121-157 | the loop builds exactly the keyed list that storing each parsed feature in turn gives |
| Repository.ParseStrategies | src/Repository/DefaultUnleashRepository.php:129-131 | one strategy per input element, in input order |
| Repository.ParseVariants | src/Repository/DefaultUnleashRepository.php:132-147 | one variant per input element, in input order |
| Repository.ParseOverrides | src/Repository/DefaultUnleashRepository.php:133-136 | one override per input element, in input order |
| Proxy.ReportedFeature | src/DefaultProxyUnleash.php:44 | the metric's feature has the requested name, the verdict and no strategies |
| Proxy.ProxyEnabled | src/DefaultProxyUnleash.php:42-43 | the proxy's verdict when it answers, else the caller's default |
| Proxy.ProxyVariant | src/DefaultProxyUnleash.php:50-54 | the proxy's variant when it answers, else the fallback, else a disabled variant named `disabled` with weight 0 and DEFAULT stickiness |
| Proxy.MetricVariant | src/DefaultProxyUnleash.php:55 | the metric's variant has the returned variant's name, flag and payload, with weight 0 |
| Proxy.DefaultProxyUnleash.constructor | src/DefaultProxyUnleash.php:26-30 | a client over the given proxy repository, with no metrics yet |
| Proxy.DefaultProxyUnleash.Register | src/DefaultProxyUnleash.php:34-38 | registration always answers false |
| Proxy.DefaultProxyUnleash.IsEnabled | src/DefaultProxyUnleash.php:40-46 | the ProxyEnabled answer and exactly one metric, whose flag is the answer |
| Proxy.DefaultProxyUnleash.GetVariant | src/DefaultProxyUnleash.php:48-58 | the ProxyVariant answer and exactly one metric carrying its weightless copy |
| Strategies.DefaultIsEnabled | src/Strategy/DefaultStrategyHandler.php:10-22 | the `default` strategy (the handler's getStrategyName, `DefaultStrategyName`) is on exactly when its constraints validate; failed constraints always give false |
| Strategies.DefaultIgnoresParameters | src/Strategy/DefaultStrategyHandler.php:10-17 | strategy parameters never influence the verdict |
| Strategies.TranslateRandom | src/Strategy/GradualRolloutRandomStrategyHandler.php:20-27 | the translation is named `gradualRolloutRandom`, has stickiness `random`, the original `groupId` or '', the original `percentage` as `rollout`, and no other parameter |
| Strategies.RandomIsEnabled | src/Strategy/GradualRolloutRandomStrategyHandler.php:18-35 | the verdict is the delegate's verdict on a strategy named `gradualRolloutRandom` (the handler's getStrategyName) with exactly the parameters stickiness `random`, `groupId` (or '') and, when given, `percentage` as `rollout` |
| Strategies.RandomDependsOnlyOnGroupAndPercentage | src/Strategy/GradualRolloutRandomStrategyHandler.php:18-30 | the verdict is the delegate's verdict on the translation, so strategies that agree on `groupId` and `percentage` get the same verdict |
| Operators.NumberGreaterThanOrEquals | src/ConstraintValidator/Operator/Number/NumberGreaterThanOrEqualsOperatorValidator.php:13-18 | the context value passes when its number is greater than the search value's and fails when it is smaller; a value always satisfies `>=` against itself |
| Operators.GreaterContextValueWins | src/ConstraintValidator/Operator/Number/NumberGreaterThanOrEqualsOperatorValidator.php:17 | the comparison runs context value against search value: a strictly greater context value passes, and the swapped pair fails |
| Operators.SameNumberSatisfiesGreaterThanOrEquals | src/ConstraintValidator/Operator/Number/NumberGreaterThanOrEqualsOperatorValidator.php:13-18 | values that convert to the same number satisfy `>=` both ways |
| Operators.GreaterThanOrEqualsIsTotal | src/ConstraintValidator/Operator/Number/NumberGreaterThanOrEqualsOperatorValidator.php:17 | for any two values at least one direction holds, and both hold exactly when they convert to the same number |
| Operators.VersionLowerThan | src/ConstraintValidator/Operator/Version/VersionLowerThanOperatorValidator.php:10-15 | passes when version_compare(current, search) answers -1 and fails when it answers 0 or 1; for a comparison that behaves as version_compare does, this is the search version comparing higher, and a version is never lower than itself |
| Operators.LowerContextVersionWins | src/ConstraintValidator/Operator/Version/VersionLowerThanOperatorValidator.php:14 | `lt` holds exactly when version_compare(current, search) is -1, and then the swapped pair fails |
| Operators.VersionLowerThanIsAsymmetric | src/ConstraintValidator/Operator/Version/VersionLowerThanOperatorValidator.php:14 | `lt(a, b)` and `lt(b, a)` never both hold; for versions that compare unequal exactly one does |
| Url.Url.ToString | src/Helper/Url.php:21-44 | __toString is the built string minus one trailing `&` or `?` |
| Url.Url.BuildQuery | src/Helper/Url.php:23-37 | the base URL, the `?`, then each parameter followed by `&` |
| Url.Url.QueryStart | src/Helper/Url.php:23-31 | the `?` whenever a prefix or tags are given; the `namePrefix` parameter only for a non-empty prefix |
| Url.AppendTags | src/Helper/Url.php:33-37 | one `tag=<name:value>&` per tag, in order |
| Url.TagParams | src/Helper/Url.php:34 | one tag parameter per tag |
| Url.Trim | src/Helper/Url.php:39-41 | a prefix of the input, one character shorter exactly when the input ends with `&` or `?`, otherwise the input itself |
| Url.TerminatedAppend | src/Helper/Url.php:29-37 | appending parameter runs appends their `&`-terminated forms |
| Url.TerminatedIsJoined | src/Helper/Url.php:33-41 | `&`-terminated parameters are the `&`-joined ones plus one final `&` |
| Url.NoParametersGivesBaseUrl | src/Helper/Url.php:25-27 | with neither a prefix nor tags the result is the base URL minus one trailing `&` or `?` |
| Url.EmptyParametersGiveBaseUrl | src/Helper/Url.php:25-41 | an empty prefix and no tags give back the base URL itself |
| Url.ParametersAreJoined | src/Helper/Url.php:25-41 | with parameters the result is url + `?` + the parameters joined by `&`, the prefix first, then each tag in order |
| Configuration.WithTrailingSlash | src/Configuration/UnleashConfiguration.php:71-76 | always ends with `/`; unchanged if it already does, else exactly one `/` appended |
| Configuration.WithTrailingSlashIsIdempotent | src/Configuration/UnleashConfiguration.php:72-74 | normalising twice is normalising once |
| Configuration.WithDefaultContext | src/Configuration/UnleashConfiguration.php:213-214 | a settable provider gets the given context, or an empty one for null |
| Configuration.UnleashConfiguration.constructor | src/Configuration/UnleashConfiguration.php:24-49 | the documented defaults (ttl 30, metrics interval 30000, stale ttl 1800, registration, metrics and fetching on) and the default context provider when none is given |
| Configuration.UnleashConfiguration.Create | src/Configuration/UnleashConfiguration.php:24-53 | construction with a default context fails exactly when a non-settable provider is given; otherwise the provider holds that context |
| Configuration.UnleashConfiguration.GetCache | src/Configuration/UnleashConfiguration.php:55-62 | fails with "Cache handler is not set" exactly when no cache is set |
| Configuration.UnleashConfiguration.GetStaleCache | src/Configuration/UnleashConfiguration.php:64-67 | the stale cache if set, else the getCache answer; fails only when neither is set |
| Configuration.UnleashConfiguration.GetUrl | src/Configuration/UnleashConfiguration.php:69-77 | the stored URL with a trailing `/` |
| Configuration.UnleashConfiguration.GetDefaultContext | src/Configuration/UnleashConfiguration.php:202-205 | the context the provider supplies |
| Configuration.UnleashConfiguration.GetBootstrapHandler | src/Configuration/UnleashConfiguration.php:237-240 | the default bootstrap handler when none is set |
| Configuration.UnleashConfiguration.GetBootstrapProvider | src/Configuration/UnleashConfiguration.php:250-253 | the empty bootstrap provider when none is set |
| Configuration.UnleashConfiguration.GetEventDispatcher | src/Configuration/UnleashConfiguration.php:275-285 | always the SDK's dispatcher: a new empty one, the configured one, or a wrapper around a foreign one |
| Configuration.UnleashConfiguration.SetDefaultContext | src/Configuration/UnleashConfiguration.php:211-220 | a settable provider gets the context and the object is returned; any other provider fails with the LogicException message and nothing changes |
| Configuration.UnleashConfiguration.SetProxyKey | src/Configuration/UnleashConfiguration.php:99-104 | changes only the proxy key and returns the same object |
| Configuration.UnleashConfiguration.SetCache | src/Configuration/UnleashConfiguration.php:106-111 | changes only the cache and returns the same object |
| Configuration.UnleashConfiguration.SetStaleCache | src/Configuration/UnleashConfiguration.php:113-118 | changes only the stale cache and returns the same object |
| Configuration.UnleashConfiguration.SetTtl | src/Configuration/UnleashConfiguration.php:120-125 | changes only the ttl and returns the same object |
| Configuration.UnleashConfiguration.SetUrl | src/Configuration/UnleashConfiguration.php:137-142 | changes only the URL and returns the same object |
| Configuration.UnleashConfiguration.SetAppName | src/Configuration/UnleashConfiguration.php:144-149 | changes only the app name and returns the same object |
| Configuration.UnleashConfiguration.SetInstanceId | src/Configuration/UnleashConfiguration.php:151-156 | changes only the instance id and returns the same object |
| Configuration.UnleashConfiguration.SetMetricsInterval | src/Configuration/UnleashConfiguration.php:158-163 | changes only the metrics interval and returns the same object |
| Configuration.UnleashConfiguration.SetMetricsEnabled | src/Configuration/UnleashConfiguration.php:165-170 | changes only the metrics flag and returns the same object |
| Configuration.UnleashConfiguration.SetHeaders | src/Configuration/UnleashConfiguration.php:183-188 | changes only the headers and returns the same object |
| Configuration.UnleashConfiguration.SetAutoRegistrationEnabled | src/Configuration/UnleashConfiguration.php:195-200 | changes only the registration flag and returns the same object |
| Configuration.UnleashConfiguration.SetContextProvider | src/Configuration/UnleashConfiguration.php:229-234 | changes only the context provider and returns the same object |
| Configuration.UnleashConfiguration.SetBootstrapHandler | src/Configuration/UnleashConfiguration.php:242-247 | changes only the bootstrap handler and returns the same object |
| Configuration.UnleashConfiguration.SetBootstrapProvider | src/Configuration/UnleashConfiguration.php:255-260 | changes only the bootstrap provider and returns the same object |
| Configuration.UnleashConfiguration.SetFetchingEnabled | src/Configuration/UnleashConfiguration.php:267-272 | changes only the fetching flag and returns the same object |
| Configuration.UnleashConfiguration.SetEventDispatcher | src/Configuration/UnleashConfiguration.php:295-300 | changes only the event dispatcher and returns the same object |
| Configuration.UnleashConfiguration.SetStaleTtl | src/Configuration/UnleashConfiguration.php:307-312 | changes only the stale ttl and returns the same object |
| Exceptions.MessageAppend | src/Exception/CompoundException.php:33-37 | the message of a concatenation is the concatenation of the messages |
| Exceptions.MessageShape | src/Exception/CompoundException.php:29-38 | no exceptions give an empty message; otherwise it starts with the first `Class: message` entry and ends with an end of line |
| Exceptions.CreateMessage | src/Exception/CompoundException.php:29-38 | the loop builds one `Class: message` entry per exception, in order |
| Exceptions.CompoundException.constructor | src/Exception/CompoundException.php:15-19 | keeps the exceptions in order, with the aggregate message |
| Exceptions.CompoundException.GetExceptions | src/Exception/CompoundException.php:24-27 | exactly the constructor's arguments, in order |

## Left out

- Registration: the automatic registration in the `DefaultUnleash` constructor and `register` (src/DefaultUnleash.php:40-42, 107-110) call a registration service whose code is not part of this model.
- Impression and other events are recorded only by kind and feature name. Their contents (a random UUID, clones of the configuration, context, feature and variant) are not modelled. The `method_exists` test for `hasImpressionData` is the feature's `impressionData` flag.
- The context provider of `DefaultUnleash` supplies one fixed context. The repository it is given is a fixed snapshot, and repository failures are not modelled there.
- Strategy lists are sequences, so the `iterator_to_array` conversion (src/DefaultUnleash.php:226-228) has no counterpart.
- Hashing, gradual rollout and weighted variant selection (`GradualRolloutStrategyHandler`, `VariantHandler`, the stickiness calculator) are not part of this model. They are function parameters. So is `AbstractStrategyHandler::supports`, through each handler's `supports` function.
- Handlers and the variant selector are functions, so the same strategy in the same context always gets the same verdict and the same variant. This has a consequence for `isDependencySatisfied`, which evaluates the parent twice: once by `isFeatureEnabled` (src/DefaultUnleash.php:164) and again inside `getVariant` (src/DefaultUnleash.php:175). In the model the two evaluations always agree. In PHP a handler with `random` stickiness, such as the delegate of `GradualRolloutRandomStrategyHandler`, can answer differently the second time. The model does not capture that disagreement.
- Evaluation.Snapshot: the model assumes that every feature of the repository is stored under its own name (`WellKeyed`). The PHP does not check this: `isDependencySatisfied` finds the parent under the dependency's name (src/DefaultUnleash.php:148) and `getVariant` finds it again under the name the parent reports (src/DefaultUnleash.php:175). A repository that breaks the assumption can make the PHP recursion unbounded. Example: "p" answers a dependency-free feature named "q", and "q" answers a feature that depends on "p". `parseFeatures` always stores features under their own names (`Repository.ParsedIsKeyedByName`), so only a custom repository can break it.
- Constraint validation (`AbstractStrategyHandler::validateConstraints`) is a function of the constraints and the context. DefaultIgnoresParameters rests on that choice.
- Operators.NumberGreaterThanOrEquals: `convert` is a function into the reals. PHP's int/float conversion, floating-point rounding and NaN are not modelled.
- Operators.VersionLowerThan: `version_compare` is a parameter. The contract and the lemmas assume it answers -1, 0 or 1 and is antisymmetric, as PHP documents. PHP's version-string parsing is not modelled.
- Operators: the search value must be a single string, as the source asserts. A list search value is outside the operators' precondition.
- Strategies.TranslateRandom: when `percentage` is absent, PHP stores `null` under `rollout` (with a warning). The model omits the key, since strategy parameters here are strings.
- `urlencode` is the parameter `encode`. PHP's array iteration order of tags is the order of the tag sequence.
- `getFeatures` builds and sends an HTTP request (src/Repository/DefaultUnleashRepository.php:60-69). That request is not modelled: the response is a parameter. Transport errors (`ClientExceptionInterface`) and `json_decode` failures (`JsonException`) are also out; the body is the already decoded tree. A tree with a required key missing is not modelled either: PHP would warn and continue with null.
- PSR cache TTL expiry and cache errors (`InvalidArgumentException`) are not modelled. An entry stays until overwritten.
- The DTO constructors `DefaultFeature`, `DefaultStrategy` and `DefaultVariant` are not part of this model. Their omitted arguments are taken as empty (no dependencies, no impression data, no constraints, no strategy variants).
- `PHP_EOL` is `"\n"`, the Unix value.
- `UnleashConfiguration`:
  - The constructor cannot fail in Dafny. The deprecated `defaultContext` argument is therefore handled by `Create`, which builds the object and then calls `SetDefaultContext`.
  - Context providers, caches, bootstrap handlers and event dispatchers are values that carry an identity. `setDefaultContext` changes the configuration's copy of the provider. Other holders of the same PHP provider object would see the change; that aliasing is not modelled.
  - Plain getters (`getAppName`, `getTtl`, `getHeaders` and the like) are field reads. So is `getEventDispatcherOrNull`.
- Proxy repository failures are not modelled; `findFeatureByContext` answers a feature or none.
