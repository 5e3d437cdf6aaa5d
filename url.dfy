/**
 * Url (src/Helper/Url.php): the feature-list URL with its `namePrefix` and
 * `tag` query parameters. PHP's `urlencode` is not part of this model; it
 * is the parameter `encode`.
 */
module Url {
  import opened Wrappers

  /** The base URL, the optional name prefix and the optional tags (name, value), in array order. */
  datatype Url = Url(url: string, namePrefix: Option<string>, tags: Option<seq<(string, string)>>) {

    /** __toString: appends `?` and each parameter followed by `&`, then trims one trailing separator. */
    method ToString(encode: string -> string) returns (s: string)
      ensures s == Trim(Built(this, encode))
    {
      var built := BuildQuery(encode);
      s := built;
      if |s| > 0 && (s[|s| - 1] == '&' || s[|s| - 1] == '?') {
        s := s[..|s| - 1];
      }
    }

    /** Everything __toString appends before the final trim. */
    method BuildQuery(encode: string -> string) returns (built: string)
      ensures built == Built(this, encode)
    {
      built := QueryStart(encode);
      if tags.Some? {
        built := AppendTags(built, tags.value, encode);
      }
      TerminatedAppend(PrefixParams(this, encode), TagParams(TagsOf(this), encode));
    }

    /** The base URL, the `?` and the `namePrefix` parameter. */
    method QueryStart(encode: string -> string) returns (start: string)
      ensures start == url + Opening(this) + Terminated(PrefixParams(this, encode))
    {
      start := url;
      if namePrefix.Some? || tags.Some? {
        start := start + "?";
      }
      if namePrefix.Some? && namePrefix.value != "" {
        start := start + "namePrefix=" + encode(namePrefix.value) + "&";
      }
    }
  }

  /** The loop over the tags: `tag=<name:value>&` for each, in order. */
  method AppendTags(start: string, tags: seq<(string, string)>, encode: string -> string) returns (s: string)
    ensures s == start + Terminated(TagParams(tags, encode))
  {
    s := start;
    var i := 0;
    while i < |tags|
      invariant 0 <= i <= |tags|
      invariant s == start + Terminated(TagParams(tags, encode)[..i])
    {
      assert TagParams(tags, encode)[..i + 1][..i] == TagParams(tags, encode)[..i];
      s := s + TagParam(tags[i], encode) + "&";
      i := i + 1;
    }
    assert TagParams(tags, encode)[..i] == TagParams(tags, encode);
  }

  function TagParam(tag: (string, string), encode: string -> string): string {
    "tag=" + encode(tag.0 + ":" + tag.1)
  }

  function TagParams(tags: seq<(string, string)>, encode: string -> string): (r: seq<string>)
    ensures |r| == |tags|
  {
    seq(|tags|, k requires 0 <= k < |tags| => TagParam(tags[k], encode))
  }

  function TagsOf(u: Url): seq<(string, string)> {
    if u.tags.Some? then u.tags.value else []
  }

  /** The `namePrefix` parameter, present only for a non-empty prefix. */
  function PrefixParams(u: Url, encode: string -> string): seq<string> {
    if u.namePrefix.Some? && u.namePrefix.value != "" then ["namePrefix=" + encode(u.namePrefix.value)] else []
  }

  /** Every query parameter, in the order __toString emits them. */
  function Params(u: Url, encode: string -> string): seq<string> {
    PrefixParams(u, encode) + TagParams(TagsOf(u), encode)
  }

  /** The `?` is written whenever a prefix or tags are given, even empty ones. */
  function Opening(u: Url): string {
    if u.namePrefix.Some? || u.tags.Some? then "?" else ""
  }

  /** Each parameter followed by `&`. */
  function Terminated(ps: seq<string>): string {
    if ps == [] then "" else Terminated(ps[..|ps| - 1]) + ps[|ps| - 1] + "&"
  }

  /** The parameters separated by `&`. */
  function Join(ps: seq<string>): string {
    if ps == [] then ""
    else if |ps| == 1 then ps[0]
    else Join(ps[..|ps| - 1]) + "&" + ps[|ps| - 1]
  }

  /** The string __toString has built before trimming. */
  function Built(u: Url, encode: string -> string): string {
    u.url + Opening(u) + Terminated(Params(u, encode))
  }

  /** Drops one trailing `&` or `?`. */
  function Trim(s: string): (r: string)
    ensures |r| == |s| || |r| == |s| - 1
    ensures r == s[..|r|]
    ensures |r| == |s| - 1 <==> |s| > 0 && (s[|s| - 1] == '&' || s[|s| - 1] == '?')
  {
    if |s| > 0 && (s[|s| - 1] == '&' || s[|s| - 1] == '?') then s[..|s| - 1] else s
  }

  lemma {:induction false} TerminatedAppend(a: seq<string>, b: seq<string>)
    ensures Terminated(a + b) == Terminated(a) + Terminated(b)
  {
    if b != [] {
      assert (a + b)[..|a + b| - 1] == a + b[..|b| - 1];
      TerminatedAppend(a, b[..|b| - 1]);
    } else {
      assert a + b == a;
    }
  }

  lemma {:induction false} TerminatedIsJoined(ps: seq<string>)
    requires ps != []
    ensures Terminated(ps) == Join(ps) + "&"
  {
    if |ps| > 1 {
      TerminatedIsJoined(ps[..|ps| - 1]);
    }
  }

  /** With neither a prefix nor tags the result is the base URL minus one trailing `&` or `?`. */
  lemma NoParametersGivesBaseUrl(u: Url, encode: string -> string)
    requires u.namePrefix.None? && u.tags.None?
    ensures Trim(Built(u, encode)) == Trim(u.url)
  {
    assert Built(u, encode) == u.url;
  }

  /** A given but empty prefix and empty tags give back the base URL itself. */
  lemma EmptyParametersGiveBaseUrl(u: Url, encode: string -> string)
    requires u.namePrefix.Some? || u.tags.Some?
    requires Params(u, encode) == []
    ensures Trim(Built(u, encode)) == u.url
  {
    assert Built(u, encode) == u.url + "?";
  }

  /**
   * With at least one parameter the result is the base URL, `?` and the
   * parameters joined by `&`: the prefix first, then one `tag` per tag in order.
   */
  lemma ParametersAreJoined(u: Url, encode: string -> string)
    requires Params(u, encode) != []
    ensures Trim(Built(u, encode)) == u.url + "?" + Join(Params(u, encode))
    ensures u.namePrefix.Some? && u.namePrefix.value != ""
            ==> Params(u, encode)[0] == "namePrefix=" + encode(u.namePrefix.value)
    ensures forall k :: 0 <= k < |TagsOf(u)| ==>
              Params(u, encode)[|PrefixParams(u, encode)| + k] == "tag=" + encode(TagsOf(u)[k].0 + ":" + TagsOf(u)[k].1)
  {
    var ps := Params(u, encode);
    TerminatedIsJoined(ps);
    assert Opening(u) == "?";
    assert Built(u, encode) == (u.url + "?" + Join(ps)) + "&";
    TrimDropsSeparator(u.url + "?" + Join(ps));
  }

  lemma TrimDropsSeparator(s: string)
    ensures Trim(s + "&") == s
  {
    assert (s + "&")[..|s|] == s;
  }
}
