/**
 * DefaultProxyUnleash (src/DefaultProxyUnleash.php): the client that asks a
 * proxy for already evaluated features. The proxy repository is a function
 * parameter; the metrics handler is a ghost, append-only log of metrics.
 */
module Proxy {
  import opened Wrappers
  import opened Dto

  /** What the proxy answers for a feature: its verdict and its variant. */
  datatype ProxyFeature = ProxyFeature(enabled: bool, variant: Variant)

  /** ProxyRepository::findFeatureByContext. */
  datatype ProxyRepository = ProxyRepository(findFeatureByContext: (string, Option<Context>) -> Option<ProxyFeature>)

  /** A call of MetricsHandler::handleMetrics: the feature it reports, the verdict and the variant. */
  datatype ProxyMetric = ProxyMetric(feature: Feature, enabled: bool, variant: Option<Variant>)

  /** The variant answered when neither the proxy nor the caller has one. */
  const DisabledVariant: Variant := Variant("disabled", false, 0, StickinessDefault, None, [])

  /** The feature reported with a metric: just a name and a verdict. */
  function ReportedFeature(name: string, enabled: bool): (f: Feature)
    ensures f.name == name && f.enabled == enabled && f.strategies == []
  {
    Feature(name, enabled, [], [], [], false)
  }

  /** isEnabled: the proxy's verdict when it answers, the caller's default otherwise. */
  function ProxyEnabled(repository: ProxyRepository, name: string, ctx: Option<Context>, default: bool): (r: bool)
    ensures repository.findFeatureByContext(name, ctx).Some? ==> r == repository.findFeatureByContext(name, ctx).value.enabled
    ensures repository.findFeatureByContext(name, ctx).None? ==> r == default
  {
    match repository.findFeatureByContext(name, ctx)
    case Some(response) => response.enabled
    case None => default
  }

  /**
   * getVariant: the proxy's variant when it answers, else the caller's
   * fallback, else a disabled variant named `disabled`.
   */
  function ProxyVariant(repository: ProxyRepository, name: string, ctx: Option<Context>, fallback: Option<Variant>): (r: Variant)
    ensures repository.findFeatureByContext(name, ctx).Some? ==> r == repository.findFeatureByContext(name, ctx).value.variant
    ensures repository.findFeatureByContext(name, ctx).None? && fallback.Some? ==> r == fallback.value
    ensures repository.findFeatureByContext(name, ctx).None? && fallback.None?
            ==> r.name == "disabled" && !r.enabled && r.weight == 0 && r.stickiness == StickinessDefault
  {
    match repository.findFeatureByContext(name, ctx)
    case Some(response) => response.variant
    case None => fallback.GetOr(DisabledVariant)
  }

  /** The copy of a variant reported with a metric: same name, flag and payload, weight 0. */
  function MetricVariant(v: Variant): (r: Variant)
    ensures r.name == v.name && r.enabled == v.enabled && r.payload == v.payload
    ensures r.weight == 0 && r.stickiness == StickinessDefault && r.overrides == []
  {
    Variant(v.name, v.enabled, 0, StickinessDefault, v.payload, [])
  }

  class DefaultProxyUnleash {
    const repository: ProxyRepository
    ghost var metrics: seq<ProxyMetric>

    constructor (repository: ProxyRepository)
      ensures this.repository == repository && metrics == []
    {
      this.repository := repository;
      metrics := [];
    }

    /** Registration is left to the proxy: this always answers false. */
    method Register() returns (registered: bool)
      ensures !registered
    {
      return false;
    }

    /** isEnabled: the answer, and exactly one metric that reports it. */
    method IsEnabled(name: string, ctx: Option<Context>, default: bool) returns (enabled: bool)
      modifies this
      ensures enabled == ProxyEnabled(repository, name, ctx, default)
      ensures metrics == old(metrics) + [ProxyMetric(ReportedFeature(name, enabled), enabled, None)]
    {
      var response := repository.findFeatureByContext(name, ctx);
      enabled := if response.Some? then response.value.enabled else default;
      metrics := metrics + [ProxyMetric(ReportedFeature(name, enabled), enabled, None)];
    }

    /** getVariant: the answer, and exactly one metric carrying its weightless copy. */
    method GetVariant(name: string, ctx: Option<Context>, fallback: Option<Variant>) returns (variant: Variant)
      modifies this
      ensures variant == ProxyVariant(repository, name, ctx, fallback)
      ensures metrics == old(metrics)
                         + [ProxyMetric(ReportedFeature(name, variant.enabled), variant.enabled, Some(MetricVariant(variant)))]
    {
      variant := fallback.GetOr(Variant("disabled", false, 0, StickinessDefault, None, []));
      var response := repository.findFeatureByContext(name, ctx);
      if response.Some? {
        variant := response.value.variant;
      }
      var metricVariant := Variant(variant.name, variant.enabled, 0, StickinessDefault, variant.payload, []);
      metrics := metrics + [ProxyMetric(ReportedFeature(name, variant.enabled), variant.enabled, Some(metricVariant))];
    }
  }
}
