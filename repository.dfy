/**
 * DefaultUnleashRepository (src/Repository/DefaultUnleashRepository.php):
 * parsing the decoded feature list and the cache-or-fetch rule.
 *
 * The HTTP request and `json_decode` are not part of this model: a fetch is
 * an `HttpResponse` whose body is the already decoded tree. The PSR cache is
 * a map from keys to entries; a repository without a cache holds None.
 */
module Repository {
  import opened Wrappers
  import opened Dto
  import Evaluation

  // ---------------------------------------------------------------------
  // The decoded JSON tree; optional keys are Options
  // ---------------------------------------------------------------------

  datatype RawPayload = RawPayload(kind: string, value: string)
  datatype RawOverride = RawOverride(contextName: string, values: seq<string>)
  datatype RawVariant = RawVariant(
    name: string,
    weight: int,
    stickiness: Option<string>,
    payload: Option<RawPayload>,
    overrides: Option<seq<RawOverride>>)
  datatype RawStrategy = RawStrategy(name: string, parameters: Option<map<string, string>>)
  datatype RawFeature = RawFeature(
    name: string,
    enabled: bool,
    strategies: seq<RawStrategy>,
    variants: Option<seq<RawVariant>>)
  datatype RawBody = RawBody(features: seq<RawFeature>)

  datatype HttpResponse = HttpResponse(status: int, body: RawBody)

  datatype RepositoryError = HttpResponseError(status: int)

  // ---------------------------------------------------------------------
  // The parsed features: a PHP array keyed by name, in insertion order
  // ---------------------------------------------------------------------

  datatype FeatureList = FeatureList(keys: seq<string>, values: map<string, Feature>)

  /** The shape of a PHP array: each key once, the keys are exactly the stored ones. */
  ghost predicate Valid(l: FeatureList) {
    && (forall i, j :: 0 <= i < j < |l.keys| ==> l.keys[i] != l.keys[j])
    && (forall n :: n in l.values <==> n in l.keys)
    && |l.keys| == |l.values|
  }

  /** `$features[$name] = $feature`: a new key goes last, an existing key keeps its place. */
  function Put(l: FeatureList, f: Feature): (r: FeatureList)
    ensures r.values == l.values[f.name := f]
    ensures f.name in l.values ==> r.keys == l.keys
    ensures f.name !in l.values ==> r.keys == l.keys + [f.name]
  {
    FeatureList(if f.name in l.values then l.keys else l.keys + [f.name], l.values[f.name := f])
  }

  lemma PutKeepsValid(l: FeatureList, f: Feature)
    requires Valid(l)
    ensures Valid(Put(l, f))
  {
    var r := Put(l, f);
    if f.name !in l.values {
      assert f.name !in l.keys;
      assert r.values.Keys == l.values.Keys + {f.name};
      assert |r.values| == |l.values| + 1;
    } else {
      assert r.values.Keys == l.values.Keys;
    }
  }

  // ---------------------------------------------------------------------
  // What parseFeatures builds from one element of the tree
  // ---------------------------------------------------------------------

  function ParseOverride(o: RawOverride): VariantOverride {
    VariantOverride(o.contextName, o.values)
  }

  /** A variant as parseFeatures builds it: enabled, DEFAULT stickiness and no overrides unless given. */
  function ParseVariant(v: RawVariant): (r: Variant)
    ensures r.name == v.name && r.weight == v.weight && r.enabled
    ensures v.stickiness.None? ==> r.stickiness == StickinessDefault
    ensures v.stickiness.Some? ==> r.stickiness == v.stickiness.value
    ensures r.payload.Some? <==> v.payload.Some?
    ensures v.payload.Some? ==> r.payload.value == Payload(v.payload.value.kind, v.payload.value.value)
    ensures v.overrides.None? ==> r.overrides == []
    ensures v.overrides.Some? ==> |r.overrides| == |v.overrides.value|
    ensures v.overrides.Some? ==> forall k :: 0 <= k < |v.overrides.value| ==>
              r.overrides[k] == VariantOverride(v.overrides.value[k].contextName, v.overrides.value[k].values)
  {
    var overrides := v.overrides.GetOr([]);
    Variant(
      v.name,
      true,
      v.weight,
      v.stickiness.GetOr(StickinessDefault),
      if v.payload.Some? then Some(Payload(v.payload.value.kind, v.payload.value.value)) else None,
      seq(|overrides|, k requires 0 <= k < |overrides| => ParseOverride(overrides[k])))
  }

  /** A strategy as parseFeatures builds it: parameters default to empty, no constraints or variants. */
  function ParseStrategy(s: RawStrategy): (r: Strategy)
    ensures r.name == s.name
    ensures s.parameters.None? ==> r.parameters == map[]
    ensures s.parameters.Some? ==> r.parameters == s.parameters.value
    ensures r.constraints == [] && r.variants == []
  {
    Strategy(s.name, s.parameters.GetOr(map[]), [], [])
  }

  /** A feature as parseFeatures builds it; this SDK generation parses no dependencies or impression flag. */
  function ParseFeature(f: RawFeature): (r: Feature)
    ensures r.name == f.name && r.enabled == f.enabled
    ensures |r.strategies| == |f.strategies|
    ensures forall k :: 0 <= k < |f.strategies| ==> r.strategies[k] == ParseStrategy(f.strategies[k])
    ensures f.variants.None? ==> r.variants == []
    ensures f.variants.Some? ==> |r.variants| == |f.variants.value|
    ensures f.variants.Some? ==> forall k :: 0 <= k < |f.variants.value| ==> r.variants[k] == ParseVariant(f.variants.value[k])
    ensures forall k :: 0 <= k < |r.variants| ==> r.variants[k].enabled
    ensures r.dependencies == [] && !r.impressionData
  {
    var variants := f.variants.GetOr([]);
    Feature(
      f.name,
      f.enabled,
      seq(|f.strategies|, k requires 0 <= k < |f.strategies| => ParseStrategy(f.strategies[k])),
      seq(|variants|, k requires 0 <= k < |variants| => ParseVariant(variants[k])),
      [],
      false)
  }

  /** The array parseFeatures returns for a list of features: each one put in turn. */
  function Parsed(raws: seq<RawFeature>): FeatureList {
    if raws == [] then FeatureList([], map[])
    else Put(Parsed(raws[..|raws| - 1]), ParseFeature(raws[|raws| - 1]))
  }

  /** Whether some feature of the list has this name. */
  predicate Named(raws: seq<RawFeature>, name: string) {
    exists i :: 0 <= i < |raws| && raws[i].name == name
  }

  lemma NamedSnoc(init: seq<RawFeature>, last: RawFeature, n: string)
    ensures Named(init + [last], n) <==> Named(init, n) || last.name == n
  {
    var raws := init + [last];
    if Named(raws, n) && last.name != n {
      var i :| 0 <= i < |raws| && raws[i].name == n;
      assert init[i].name == n;
    }
    if Named(init, n) {
      var i :| 0 <= i < |init| && init[i].name == n;
      assert raws[i].name == n;
    }
    if last.name == n {
      assert raws[|init|].name == n;
    }
  }

  lemma PutKeepsWellKeyed(l: FeatureList, f: Feature)
    requires Evaluation.WellKeyed(l.values)
    ensures Evaluation.WellKeyed(Put(l, f).values)
  {
  }

  /** The result is a PHP array holding exactly one entry per distinct name, each under its own name. */
  lemma {:induction false} ParsedIsKeyedByName(raws: seq<RawFeature>)
    ensures Valid(Parsed(raws))
    ensures forall n :: n in Parsed(raws).values <==> Named(raws, n)
    ensures Evaluation.WellKeyed(Parsed(raws).values)
  {
    if raws != [] {
      var init := raws[..|raws| - 1];
      var last := raws[|raws| - 1];
      assert raws == init + [last];
      ParsedIsKeyedByName(init);
      PutKeepsValid(Parsed(init), ParseFeature(last));
      PutKeepsWellKeyed(Parsed(init), ParseFeature(last));
      forall n ensures n in Parsed(raws).values <==> Named(raws, n) {
        NamedSnoc(init, last, n);
      }
    }
  }

  /** A later feature with the same name replaces an earlier one. */
  lemma {:induction false} LastDuplicateWins(raws: seq<RawFeature>, i: nat)
    requires i < |raws|
    requires forall j :: i < j < |raws| ==> raws[j].name != raws[i].name
    ensures raws[i].name in Parsed(raws).values
    ensures Parsed(raws).values[raws[i].name] == ParseFeature(raws[i])
  {
    if i < |raws| - 1 {
      LastDuplicateWins(raws[..|raws| - 1], i);
    }
  }

  /** The number of parsed features is the number of distinct names. */
  lemma ParsedSize(raws: seq<RawFeature>)
    ensures |Parsed(raws).keys| == |set i | 0 <= i < |raws| :: raws[i].name|
  {
    ParsedIsKeyedByName(raws);
    var names := set i | 0 <= i < |raws| :: raws[i].name;
    assert Parsed(raws).values.Keys == names by {
      forall n ensures n in Parsed(raws).values <==> n in names {
        if Named(raws, n) {
          var i :| 0 <= i < |raws| && raws[i].name == n;
          assert n in names;
        }
      }
    }
  }

  /** The key of the feature list in the cache. */
  const CacheKey: string := "rikudou.unleash.feature.list"

  /** A cache entry: the stored feature list and its time to live in seconds. */
  datatype CacheEntry = CacheEntry(features: FeatureList, ttl: int)

  type Cache = map<string, CacheEntry>

  /** getCachedFeatures: nothing without a cache or without the key, else the stored list. */
  function CachedFeatures(cache: Option<Cache>): (r: Option<FeatureList>)
    ensures r.Some? <==> cache.Some? && CacheKey in cache.value
    ensures r.Some? ==> r.value == cache.value[CacheKey].features
  {
    match cache
    case None => None
    case Some(c) => if CacheKey in c then Some(c[CacheKey].features) else None
  }

  /** What setCache leaves in the cache. */
  function Stored(cache: Option<Cache>, features: FeatureList, ttl: int): (r: Option<Cache>)
    ensures r.None? <==> cache.None?
    ensures r.Some? ==> r.value.Keys == cache.value.Keys + {CacheKey}
    ensures r.Some? ==> r.value[CacheKey] == CacheEntry(features, ttl)
    ensures r.Some? ==> forall k :: k in cache.value && k != CacheKey ==> r.value[k] == cache.value[k]
  {
    match cache
    case None => None
    case Some(c) => Some(c[CacheKey := CacheEntry(features, ttl)])
  }

  /** A cached list that PHP treats as true: present and not empty. */
  predicate UsableCache(cache: Option<Cache>) {
    var cached := CachedFeatures(cache);
    cached.Some? && |cached.value.keys| > 0
  }

  /** Storing a fetched non-empty list makes the next getFeatures read it from the cache. */
  lemma StoredListIsServed(cache: Cache, features: FeatureList, ttl: int)
    requires |features.keys| > 0
    ensures UsableCache(Stored(Some(cache), features, ttl))
    ensures CachedFeatures(Stored(Some(cache), features, ttl)) == Some(features)
  {
  }

  class DefaultUnleashRepository {
    /** The configuration's cache; None when the configuration has none. */
    var cache: Option<Cache>
    /** The configuration's ttl, stored with the features. */
    const ttl: int
    /** The number of HTTP requests sent so far. */
    ghost var requests: nat

    constructor (cache: Option<Cache>, ttl: int)
      ensures this.cache == cache && this.ttl == ttl && requests == 0
    {
      this.cache := cache;
      this.ttl := ttl;
      requests := 0;
    }

    /** findFeature: the feature stored under exactly that name, or None. */
    method FindFeature(name: string, response: HttpResponse) returns (r: Result<Option<Feature>, RepositoryError>)
      modifies this
      ensures var fetched := Fetched(old(cache), response);
              r == (if fetched.Ok? then
                      Ok(if name in fetched.value.values then Some(fetched.value.values[name]) else None)
                    else Err(fetched.error))
      ensures cache == AfterFetch(old(cache), response, ttl)
      ensures requests == old(requests) + (if UsableCache(old(cache)) then 0 else 1)
    {
      var features := GetFeatures(response);
      if features.Err? {
        return Err(features.error);
      }
      var list := features.value;
      r := Ok(if name in list.values then Some(list.values[name]) else None);
    }

    /**
     * getFeatures: a non-empty cached list is returned as is and no request is
     * sent; otherwise `response` is the answer to the request: anything but 200
     * fails and leaves the cache alone, 200 is parsed and stored.
     */
    method GetFeatures(response: HttpResponse) returns (r: Result<FeatureList, RepositoryError>)
      modifies this
      ensures r == Fetched(old(cache), response)
      ensures cache == AfterFetch(old(cache), response, ttl)
      ensures requests == old(requests) + (if UsableCache(old(cache)) then 0 else 1)
    {
      var cached := GetCachedFeatures();
      if cached.Some? && |cached.value.keys| > 0 {
        return Ok(cached.value);
      }
      requests := requests + 1;
      if response.status != 200 {
        return Err(HttpResponseError(response.status));
      }
      var features := ParseFeatures(response.body);
      SetCache(features);
      r := Ok(features);
    }

    method GetCachedFeatures() returns (cached: Option<FeatureList>)
      ensures cached == CachedFeatures(cache)
    {
      if cache.None? {
        return None;
      }
      if CacheKey !in cache.value {
        return None;
      }
      return Some(cache.value[CacheKey].features);
    }

    method SetCache(features: FeatureList)
      modifies this
      ensures cache == Stored(old(cache), features, ttl)
      ensures requests == old(requests)
    {
      if cache.None? {
        return;
      }
      cache := Some(cache.value[CacheKey := CacheEntry(features, ttl)]);
    }
  }

  /** The outcome of getFeatures for a given cache state and server answer. */
  function Fetched(cache: Option<Cache>, response: HttpResponse): (r: Result<FeatureList, RepositoryError>)
    ensures UsableCache(cache) ==> r == Ok(CachedFeatures(cache).value)
    ensures !UsableCache(cache) && response.status != 200 ==> r == Err(HttpResponseError(response.status))
    ensures !UsableCache(cache) && response.status == 200 ==> r == Ok(Parsed(response.body.features))
  {
    if UsableCache(cache) then Ok(CachedFeatures(cache).value)
    else if response.status != 200 then Err(HttpResponseError(response.status))
    else Ok(Parsed(response.body.features))
  }

  /** The cache after getFeatures: written only by a successful fetch. */
  function AfterFetch(cache: Option<Cache>, response: HttpResponse, ttl: int): (r: Option<Cache>)
    ensures UsableCache(cache) || response.status != 200 ==> r == cache
    ensures !UsableCache(cache) && response.status == 200 ==> r == Stored(cache, Parsed(response.body.features), ttl)
  {
    if UsableCache(cache) || response.status != 200 then cache
    else Stored(cache, Parsed(response.body.features), ttl)
  }

  /**
   * A successful fetch with a cache fills it, so the next getFeatures is
   * served from the cache and sends no request.
   */
  lemma FetchFillsCache(cache: Option<Cache>, response: HttpResponse, ttl: int)
    requires cache.Some? && !UsableCache(cache) && response.status == 200
    requires |Parsed(response.body.features).keys| > 0
    ensures UsableCache(AfterFetch(cache, response, ttl))
    ensures CachedFeatures(AfterFetch(cache, response, ttl)) == Some(Parsed(response.body.features))
  {
    StoredListIsServed(cache.value, Parsed(response.body.features), ttl);
  }

  /** parseFeatures over the decoded body: each feature in turn, keyed by its name. */
  method ParseFeatures(body: RawBody) returns (features: FeatureList)
    ensures features == Parsed(body.features)
  {
    var raws := body.features;
    var keys: seq<string> := [];
    var values: map<string, Feature> := map[];
    var i := 0;
    while i < |raws|
      invariant 0 <= i <= |raws|
      invariant FeatureList(keys, values) == Parsed(raws[..i])
    {
      var raw := raws[i];
      var strategies := ParseStrategies(raw.strategies);
      var variants := ParseVariants(raw.variants.GetOr([]));
      var feature := Feature(raw.name, raw.enabled, strategies, variants, [], false);
      assert feature == ParseFeature(raw);
      if raw.name !in values {
        keys := keys + [raw.name];
      }
      values := values[raw.name := feature];
      assert raws[..i + 1][..i] == raws[..i];
      i := i + 1;
    }
    assert raws[..i] == raws;
    features := FeatureList(keys, values);
  }

  /** The strategies loop: one strategy per element, in input order. */
  method ParseStrategies(raws: seq<RawStrategy>) returns (strategies: seq<Strategy>)
    ensures |strategies| == |raws|
    ensures forall k :: 0 <= k < |raws| ==> strategies[k] == ParseStrategy(raws[k])
  {
    strategies := [];
    var i := 0;
    while i < |raws|
      invariant 0 <= i <= |raws|
      invariant |strategies| == i
      invariant forall k :: 0 <= k < i ==> strategies[k] == ParseStrategy(raws[k])
    {
      strategies := strategies + [Strategy(raws[i].name, raws[i].parameters.GetOr(map[]), [], [])];
      i := i + 1;
    }
  }

  /** The variants loop, with the overrides loop nested in it. */
  method ParseVariants(raws: seq<RawVariant>) returns (variants: seq<Variant>)
    ensures |variants| == |raws|
    ensures forall k :: 0 <= k < |raws| ==> variants[k] == ParseVariant(raws[k])
  {
    variants := [];
    var i := 0;
    while i < |raws|
      invariant 0 <= i <= |raws|
      invariant |variants| == i
      invariant forall k :: 0 <= k < i ==> variants[k] == ParseVariant(raws[k])
    {
      var v := raws[i];
      var overrides := ParseOverrides(v.overrides.GetOr([]));
      var payload := if v.payload.Some? then Some(Payload(v.payload.value.kind, v.payload.value.value)) else None;
      var variant := Variant(v.name, true, v.weight, v.stickiness.GetOr(StickinessDefault), payload, overrides);
      assert variant == ParseVariant(v);
      variants := variants + [variant];
      i := i + 1;
    }
  }

  method ParseOverrides(raws: seq<RawOverride>) returns (overrides: seq<VariantOverride>)
    ensures |overrides| == |raws|
    ensures forall k :: 0 <= k < |raws| ==> overrides[k] == ParseOverride(raws[k])
  {
    overrides := [];
    var i := 0;
    while i < |raws|
      invariant 0 <= i <= |raws|
      invariant |overrides| == i
      invariant forall k :: 0 <= k < i ==> overrides[k] == ParseOverride(raws[k])
    {
      overrides := overrides + [VariantOverride(raws[i].contextName, raws[i].values)];
      i := i + 1;
    }
  }
}
