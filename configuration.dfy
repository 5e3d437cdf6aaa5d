/**
 * UnleashConfiguration (src/Configuration/UnleashConfiguration.php): a
 * mutable settings object. Setters overwrite one field and return the same
 * object; a few getters fill in defaults or fail.
 *
 * Caches, bootstrap handlers and providers and event dispatchers are
 * external objects; here they are references that only carry an identity.
 */
module Configuration {
  import opened Wrappers
  import opened Dto

  datatype CacheRef = CacheRef(id: nat)

  /** A context provider: whether it implements SettableUnleashContextProvider, and the context it answers. */
  datatype ContextProvider = ContextProvider(className: string, settable: bool, context: Context)

  /** The provider a configuration gets when none is given. */
  const DefaultContextProvider: ContextProvider := ContextProvider("DefaultUnleashContextProvider", true, map[])

  datatype BootstrapHandler = DefaultBootstrapHandler | CustomBootstrapHandler(id: nat)
  datatype BootstrapProvider = EmptyBootstrapProvider | CustomBootstrapProvider(id: nat)

  /** An event dispatcher: the SDK's own wrapper (around an optional inner dispatcher) or a foreign one. */
  datatype EventDispatcherRef = SdkEventDispatcher(inner: Option<nat>) | ForeignEventDispatcher(id: nat)

  datatype LogicError = LogicError(message: string)

  const CacheNotSetMessage: string := "Cache handler is not set"
  const NotSettableMessage: string :=
    "Default context cannot be set via configuration for a context provider that doesn't implement SettableUnleashContextProvider"

  /** Every field of the configuration, as one value. */
  datatype Settings = Settings(
    url: string,
    appName: string,
    instanceId: string,
    cache: Option<CacheRef>,
    ttl: int,
    metricsInterval: int,
    metricsEnabled: bool,
    headers: map<string, string>,
    autoRegistrationEnabled: bool,
    contextProvider: ContextProvider,
    bootstrapHandler: Option<BootstrapHandler>,
    bootstrapProvider: Option<BootstrapProvider>,
    fetchingEnabled: bool,
    eventDispatcher: Option<EventDispatcherRef>,
    staleTtl: int,
    staleCache: Option<CacheRef>,
    proxyKey: Option<string>)

  predicate EndsWithSlash(s: string) {
    |s| > 0 && s[|s| - 1] == '/'
  }

  /** getUrl's normalisation: one `/` appended unless the URL already ends with one. */
  function WithTrailingSlash(u: string): (r: string)
    ensures EndsWithSlash(r)
    ensures EndsWithSlash(u) ==> r == u
    ensures !EndsWithSlash(u) ==> r == u + "/"
  {
    if EndsWithSlash(u) then u else u + "/"
  }

  /** Normalising twice is normalising once. */
  lemma WithTrailingSlashIsIdempotent(u: string)
    ensures WithTrailingSlash(WithTrailingSlash(u)) == WithTrailingSlash(u)
  {
  }

  /** The provider after setDefaultContext on a settable provider; null stands for an empty context. */
  function WithDefaultContext(p: ContextProvider, defaultContext: Option<Context>): (r: ContextProvider)
    requires p.settable
    ensures r.className == p.className && r.settable
    ensures defaultContext.Some? ==> r.context == defaultContext.value
    ensures defaultContext.None? ==> r.context == map[]
  {
    p.(context := defaultContext.GetOr(map[]))
  }

  class UnleashConfiguration {
    var url: string
    var appName: string
    var instanceId: string
    var cache: Option<CacheRef>
    var ttl: int
    var metricsInterval: int
    var metricsEnabled: bool
    var headers: map<string, string>
    var autoRegistrationEnabled: bool
    var contextProvider: ContextProvider
    var bootstrapHandler: Option<BootstrapHandler>
    var bootstrapProvider: Option<BootstrapProvider>
    var fetchingEnabled: bool
    var eventDispatcher: Option<EventDispatcherRef>
    var staleTtl: int
    var staleCache: Option<CacheRef>
    var proxyKey: Option<string>

    function State(): Settings
      reads this
    {
      Settings(url, appName, instanceId, cache, ttl, metricsInterval, metricsEnabled, headers,
               autoRegistrationEnabled, contextProvider, bootstrapHandler, bootstrapProvider,
               fetchingEnabled, eventDispatcher, staleTtl, staleCache, proxyKey)
    }

    /**
     * The constructor without its deprecated default-context argument (see
     * Create): the documented defaults, and the default context provider
     * when none is given.
     */
    constructor (
      url: string,
      appName: string,
      instanceId: string,
      cache: Option<CacheRef> := None,
      ttl: int := 30,
      metricsInterval: int := 30000,
      metricsEnabled: bool := true,
      headers: map<string, string> := map[],
      autoRegistrationEnabled: bool := true,
      contextProvider: Option<ContextProvider> := None,
      bootstrapHandler: Option<BootstrapHandler> := None,
      bootstrapProvider: Option<BootstrapProvider> := None,
      fetchingEnabled: bool := true,
      eventDispatcher: Option<EventDispatcherRef> := None,
      staleTtl: int := 30 * 60,
      staleCache: Option<CacheRef> := None,
      proxyKey: Option<string> := None)
      ensures State() == Settings(url, appName, instanceId, cache, ttl, metricsInterval, metricsEnabled, headers,
                                  autoRegistrationEnabled, contextProvider.GetOr(DefaultContextProvider),
                                  bootstrapHandler, bootstrapProvider, fetchingEnabled, eventDispatcher,
                                  staleTtl, staleCache, proxyKey)
    {
      this.url := url;
      this.appName := appName;
      this.instanceId := instanceId;
      this.cache := cache;
      this.ttl := ttl;
      this.metricsInterval := metricsInterval;
      this.metricsEnabled := metricsEnabled;
      this.headers := headers;
      this.autoRegistrationEnabled := autoRegistrationEnabled;
      this.contextProvider := contextProvider.GetOr(DefaultContextProvider);
      this.bootstrapHandler := bootstrapHandler;
      this.bootstrapProvider := bootstrapProvider;
      this.fetchingEnabled := fetchingEnabled;
      this.eventDispatcher := eventDispatcher;
      this.staleTtl := staleTtl;
      this.staleCache := staleCache;
      this.proxyKey := proxyKey;
    }

    /**
     * The full constructor: with a default context it goes on to
     * setDefaultContext, which fails for a provider that is not settable.
     */
    static method Create(
      url: string,
      appName: string,
      instanceId: string,
      cache: Option<CacheRef> := None,
      ttl: int := 30,
      metricsInterval: int := 30000,
      metricsEnabled: bool := true,
      headers: map<string, string> := map[],
      autoRegistrationEnabled: bool := true,
      defaultContext: Option<Context> := None,
      contextProvider: Option<ContextProvider> := None,
      bootstrapHandler: Option<BootstrapHandler> := None,
      bootstrapProvider: Option<BootstrapProvider> := None,
      fetchingEnabled: bool := true,
      eventDispatcher: Option<EventDispatcherRef> := None,
      staleTtl: int := 30 * 60,
      staleCache: Option<CacheRef> := None,
      proxyKey: Option<string> := None)
      returns (r: Result<UnleashConfiguration, LogicError>)
      ensures r.Err? <==> defaultContext.Some? && contextProvider.Some? && !contextProvider.value.settable
      ensures r.Err? ==> r.error == LogicError(NotSettableMessage)
      ensures r.Ok? ==> fresh(r.value)
      ensures r.Ok? ==>
                var provider := contextProvider.GetOr(DefaultContextProvider);
                r.value.State()
                == Settings(url, appName, instanceId, cache, ttl, metricsInterval, metricsEnabled, headers,
                            autoRegistrationEnabled,
                            if defaultContext.Some? then WithDefaultContext(provider, defaultContext) else provider,
                            bootstrapHandler, bootstrapProvider, fetchingEnabled, eventDispatcher,
                            staleTtl, staleCache, proxyKey)
    {
      var configuration := new UnleashConfiguration(
        url, appName, instanceId, cache, ttl, metricsInterval, metricsEnabled, headers, autoRegistrationEnabled,
        contextProvider, bootstrapHandler, bootstrapProvider, fetchingEnabled, eventDispatcher, staleTtl,
        staleCache, proxyKey);
      if defaultContext.Some? {
        var outcome := configuration.SetDefaultContext(defaultContext);
        if outcome.Err? {
          return Err(outcome.error);
        }
      }
      return Ok(configuration);
    }

    /** getCache: fails when no cache is set. */
    function GetCache(): (r: Result<CacheRef, LogicError>)
      reads this
      ensures r.Err? <==> cache.None?
      ensures r.Err? ==> r.error == LogicError(CacheNotSetMessage)
      ensures r.Ok? ==> r.value == cache.value
    {
      if cache.None? then Err(LogicError(CacheNotSetMessage)) else Ok(cache.value)
    }

    /** getStaleCache: the stale cache if set, else whatever getCache answers. */
    function GetStaleCache(): (r: Result<CacheRef, LogicError>)
      reads this
      ensures staleCache.Some? ==> r == Ok(staleCache.value)
      ensures staleCache.None? ==> r == GetCache()
      ensures r.Err? <==> staleCache.None? && cache.None?
    {
      if staleCache.Some? then Ok(staleCache.value) else GetCache()
    }

    /** getUrl: the stored URL with a trailing `/`. */
    method GetUrl() returns (r: string)
      ensures r == WithTrailingSlash(url)
    {
      r := url;
      if !(|r| > 0 && r[|r| - 1] == '/') {
        r := r + "/";
      }
    }

    /** getDefaultContext: the context the provider answers. */
    function GetDefaultContext(): (r: Context)
      reads this
      ensures r == contextProvider.context
    {
      contextProvider.context
    }

    /** getBootstrapHandler: the default handler when none is set. */
    function GetBootstrapHandler(): (r: BootstrapHandler)
      reads this
      ensures bootstrapHandler.None? ==> r == DefaultBootstrapHandler
      ensures bootstrapHandler.Some? ==> r == bootstrapHandler.value
    {
      bootstrapHandler.GetOr(DefaultBootstrapHandler)
    }

    /** getBootstrapProvider: the empty provider when none is set. */
    function GetBootstrapProvider(): (r: BootstrapProvider)
      reads this
      ensures bootstrapProvider.None? ==> r == EmptyBootstrapProvider
      ensures bootstrapProvider.Some? ==> r == bootstrapProvider.value
    {
      bootstrapProvider.GetOr(EmptyBootstrapProvider)
    }

    /** getEventDispatcher: the SDK's dispatcher as is, anything else wrapped in it. */
    function GetEventDispatcher(): (r: EventDispatcherRef)
      reads this
      ensures r.SdkEventDispatcher?
      ensures eventDispatcher.None? ==> r == SdkEventDispatcher(None)
      ensures eventDispatcher.Some? && eventDispatcher.value.SdkEventDispatcher? ==> r == eventDispatcher.value
      ensures eventDispatcher.Some? && eventDispatcher.value.ForeignEventDispatcher?
              ==> r == SdkEventDispatcher(Some(eventDispatcher.value.id))
    {
      match eventDispatcher
      case None => SdkEventDispatcher(None)
      case Some(SdkEventDispatcher(inner)) => SdkEventDispatcher(inner)
      case Some(ForeignEventDispatcher(id)) => SdkEventDispatcher(Some(id))
    }

    /**
     * setDefaultContext: hands the context (an empty one for null) to a
     * settable provider, and fails, changing nothing, for any other provider.
     */
    method SetDefaultContext(defaultContext: Option<Context>) returns (r: Result<UnleashConfiguration, LogicError>)
      modifies this
      ensures old(contextProvider).settable ==>
                r == Ok(this) && State() == old(State()).(contextProvider := WithDefaultContext(old(contextProvider), defaultContext))
      ensures !old(contextProvider).settable ==>
                r == Err(LogicError(NotSettableMessage)) && State() == old(State())
    {
      if contextProvider.settable {
        contextProvider := contextProvider.(context := defaultContext.GetOr(map[]));
        return Ok(this);
      }
      return Err(LogicError(NotSettableMessage));
    }

    method SetProxyKey(proxyKey: Option<string>) returns (self: UnleashConfiguration)
      modifies this
      ensures self == this && State() == old(State()).(proxyKey := proxyKey)
    {
      this.proxyKey := proxyKey;
      return this;
    }

    method SetCache(cache: CacheRef) returns (self: UnleashConfiguration)
      modifies this
      ensures self == this && State() == old(State()).(cache := Some(cache))
    {
      this.cache := Some(cache);
      return this;
    }

    method SetStaleCache(cache: Option<CacheRef>) returns (self: UnleashConfiguration)
      modifies this
      ensures self == this && State() == old(State()).(staleCache := cache)
    {
      this.staleCache := cache;
      return this;
    }

    method SetTtl(ttl: int) returns (self: UnleashConfiguration)
      modifies this
      ensures self == this && State() == old(State()).(ttl := ttl)
    {
      this.ttl := ttl;
      return this;
    }

    method SetUrl(url: string) returns (self: UnleashConfiguration)
      modifies this
      ensures self == this && State() == old(State()).(url := url)
    {
      this.url := url;
      return this;
    }

    method SetAppName(appName: string) returns (self: UnleashConfiguration)
      modifies this
      ensures self == this && State() == old(State()).(appName := appName)
    {
      this.appName := appName;
      return this;
    }

    method SetInstanceId(instanceId: string) returns (self: UnleashConfiguration)
      modifies this
      ensures self == this && State() == old(State()).(instanceId := instanceId)
    {
      this.instanceId := instanceId;
      return this;
    }

    method SetMetricsInterval(metricsInterval: int) returns (self: UnleashConfiguration)
      modifies this
      ensures self == this && State() == old(State()).(metricsInterval := metricsInterval)
    {
      this.metricsInterval := metricsInterval;
      return this;
    }

    method SetMetricsEnabled(metricsEnabled: bool) returns (self: UnleashConfiguration)
      modifies this
      ensures self == this && State() == old(State()).(metricsEnabled := metricsEnabled)
    {
      this.metricsEnabled := metricsEnabled;
      return this;
    }

    method SetHeaders(headers: map<string, string>) returns (self: UnleashConfiguration)
      modifies this
      ensures self == this && State() == old(State()).(headers := headers)
    {
      this.headers := headers;
      return this;
    }

    method SetAutoRegistrationEnabled(autoRegistrationEnabled: bool) returns (self: UnleashConfiguration)
      modifies this
      ensures self == this && State() == old(State()).(autoRegistrationEnabled := autoRegistrationEnabled)
    {
      this.autoRegistrationEnabled := autoRegistrationEnabled;
      return this;
    }

    method SetContextProvider(contextProvider: ContextProvider) returns (self: UnleashConfiguration)
      modifies this
      ensures self == this && State() == old(State()).(contextProvider := contextProvider)
    {
      this.contextProvider := contextProvider;
      return this;
    }

    method SetBootstrapHandler(bootstrapHandler: BootstrapHandler) returns (self: UnleashConfiguration)
      modifies this
      ensures self == this && State() == old(State()).(bootstrapHandler := Some(bootstrapHandler))
    {
      this.bootstrapHandler := Some(bootstrapHandler);
      return this;
    }

    method SetBootstrapProvider(bootstrapProvider: BootstrapProvider) returns (self: UnleashConfiguration)
      modifies this
      ensures self == this && State() == old(State()).(bootstrapProvider := Some(bootstrapProvider))
    {
      this.bootstrapProvider := Some(bootstrapProvider);
      return this;
    }

    method SetFetchingEnabled(fetchingEnabled: bool) returns (self: UnleashConfiguration)
      modifies this
      ensures self == this && State() == old(State()).(fetchingEnabled := fetchingEnabled)
    {
      this.fetchingEnabled := fetchingEnabled;
      return this;
    }

    method SetEventDispatcher(eventDispatcher: Option<EventDispatcherRef>) returns (self: UnleashConfiguration)
      modifies this
      ensures self == this && State() == old(State()).(eventDispatcher := eventDispatcher)
    {
      this.eventDispatcher := eventDispatcher;
      return this;
    }

    method SetStaleTtl(staleTtl: int) returns (self: UnleashConfiguration)
      modifies this
      ensures self == this && State() == old(State()).(staleTtl := staleTtl)
    {
      this.staleTtl := staleTtl;
      return this;
    }
  }
}
