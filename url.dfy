/**
 * `makeUrl`: the GET URL of a query, `endpoint/model/operation`, with the
 * serialized arguments in a `q` parameter and the serializer's type metadata,
 * when there is any, in a `meta` parameter.
 */
module Urls {
  import opened JsValues

  /** The endpoint used when none is configured. */
  const DEFAULT_QUERY_ENDPOINT: string := "/api/model"

  /** What the serializer returns: JSON-safe data and optional type metadata. */
  datatype Serialized = Serialized(data: Value, meta: Value)

  /**
   * The foreign functions `makeUrl` calls: the serializer, `JSON.stringify`
   * and `encodeURIComponent`.
   */
  datatype Codec = Codec(
    serialize: Value -> Serialized,
    stringify: Value -> string,
    encodeURIComponent: string -> string)

  predicate IsUpper(c: char) {
    'A' <= c <= 'Z'
  }

  /** Lower-cases an ASCII capital and leaves every other character alone. */
  function LowerChar(c: char): (r: char)
    ensures !IsUpper(r)
    ensures !IsUpper(c) ==> r == c
    ensures IsUpper(c) ==> r as int - c as int == 32
  {
    if IsUpper(c) then (c as int + 32) as char else c
  }

  /**
   * `lowerCaseFirst`: only the first character may change; a capital becomes
   * its lower-case letter, anything else is kept.
   */
  function LowerCaseFirst(s: string): (r: string)
    ensures |r| == |s|
    ensures |s| > 0 ==> r[1..] == s[1..] && !IsUpper(r[0]) && (!IsUpper(s[0]) ==> r[0] == s[0])
    ensures |s| > 0 && IsUpper(s[0]) ==> r[0] as int == s[0] as int + 32
  {
    if s == [] then s else [LowerChar(s[0])] + s[1..]
  }

  /** The path part of the URL. */
  function BaseUrl(endpoint: string, model: string, operation: string): string {
    endpoint + "/" + LowerCaseFirst(model) + "/" + operation
  }

  /** The encoded value of the `meta` parameter, `{ serialization: meta }`. */
  function EncodedMeta(codec: Codec, meta: Value): string {
    codec.encodeURIComponent(codec.stringify(Obj(map["serialization" := meta])))
  }

  /**
   * `makeUrl`. Falsy arguments (including omitted ones) give the bare path; a
   * query string is present exactly for truthy arguments.
   */
  function MakeUrl(endpoint: string, model: string, operation: string, args: Value, codec: Codec): (url: string)
    ensures !Truthy(args) ==> url == BaseUrl(endpoint, model, operation)
    ensures |BaseUrl(endpoint, model, operation)| <= |url|
    ensures url[..|BaseUrl(endpoint, model, operation)|] == BaseUrl(endpoint, model, operation)
  {
    var baseUrl := BaseUrl(endpoint, model, operation);
    if !Truthy(args) then baseUrl
    else
      var serialized := codec.serialize(args);
      var result := baseUrl + "?q=" + codec.encodeURIComponent(codec.stringify(serialized.data));
      if Truthy(serialized.meta) then result + "&meta=" + EncodedMeta(codec, serialized.meta)
      else result
  }

  /** Position of the first `c` in `s`, or `|s|` when there is none. */
  function IndexOf(s: string, c: char): (i: nat)
    ensures i <= |s|
    ensures i < |s| ==> s[i] == c
    ensures forall j :: 0 <= j < i ==> s[j] != c
  {
    if s == [] then 0
    else if s[0] == c then 0
    else 1 + IndexOf(s[1..], c)
  }

  /** The first occurrence is unique. */
  lemma IndexOfIs(s: string, c: char, k: nat)
    requires k <= |s| && (k < |s| ==> s[k] == c)
    requires forall j :: 0 <= j < k ==> s[j] != c
    ensures IndexOf(s, c) == k
  {
  }

  /** The rest of `s` after `tag`, or nothing when `s` does not start with `tag`. */
  function Tagged(tag: string, s: string): (r: Option<string>)
    ensures r.Some? <==> tag <= s
    ensures r.Some? ==> s == tag + r.value
  {
    if tag <= s then Some(s[|tag|..]) else None
  }

  /** A URL taken apart: its path, its `q` value and its `meta` value. */
  datatype UrlParts = UrlParts(path: string, q: Option<string>, meta: Option<string>)

  /**
   * Splits a query at the first `&`: it must open with `q=`, and what follows
   * the `&`, if there is one, must open with `meta=`.
   */
  function ParseQuery(query: string): Option<(string, Option<string>)> {
    var j := IndexOf(query, '&');
    var q := Tagged("q=", query[..j]);
    if q.None? then None
    else if j == |query| then Some((q.value, None))
    else
      var meta := Tagged("meta=", query[j + 1..]);
      if meta.None? then None else Some((q.value, meta))
  }

  /** Splits a URL at the first `?`; a URL whose query `ParseQuery` rejects is rejected. */
  function ParseUrl(url: string): Option<UrlParts> {
    var i := IndexOf(url, '?');
    if i == |url| then Some(UrlParts(url, None, None))
    else
      var query := ParseQuery(url[i + 1..]);
      if query.None? then None else Some(UrlParts(url[..i], Some(query.value.0), query.value.1))
  }

  /** Puts a query back together, with the `q=` and `&meta=` tags. */
  function UnparseQuery(q: string, meta: Option<string>): string {
    "q=" + q + (if meta.Some? then "&meta=" + meta.value else "")
  }

  /** Puts a URL back together from its parts, with the `?q=` and `&meta=` tags. */
  function UnparseUrl(parts: UrlParts): string {
    parts.path + (if parts.q.Some? then "?" + UnparseQuery(parts.q.value, parts.meta) else "")
  }

  /** A string is its part before position `k`, the separator there, and the rest. */
  lemma SplitAt(s: string, k: nat)
    requires k < |s|
    ensures s == s[..k] + [s[k]] + s[k + 1..]
  {
  }

  /** Every query `ParseQuery` accepts is rebuilt exactly from its parts. */
  lemma ParseQueryInverse(query: string)
    requires ParseQuery(query).Some?
    ensures UnparseQuery(ParseQuery(query).value.0, ParseQuery(query).value.1) == query
  {
  }

  /**
   * The parser loses nothing: every URL it accepts is rebuilt exactly from its
   * parts, so two accepted URLs with the same parts are the same URL.
   */
  lemma ParseUrlInverse(url: string)
    requires ParseUrl(url).Some?
    ensures UnparseUrl(ParseUrl(url).value) == url
  {
    var i := IndexOf(url, '?');
    if i < |url| {
      SplitAt(url, i);
      ParseQueryInverse(url[i + 1..]);
    }
  }

  /** Lower-casing the first character never introduces a `?`. */
  lemma LowerCaseFirstNoQuestionMark(s: string)
    requires '?' !in s
    ensures '?' !in LowerCaseFirst(s)
  {
  }

  /** A URL without `?` is all path. */
  lemma ParseBareUrl(url: string)
    requires '?' !in url
    ensures ParseUrl(url) == Some(UrlParts(url, None, None))
  {
  }

  /** A URL with a `q` parameter and no `meta` parameter. */
  lemma ParseQueryOnly(base: string, q: string)
    requires '?' !in base && '&' !in q
    ensures ParseUrl(base + "?q=" + q) == Some(UrlParts(base, Some(q), None))
  {
    var url := base + "?q=" + q;
    IndexOfIs(url, '?', |base|);
    var query := url[|base| + 1..];
    assert query == "q=" + q;
    IndexOfIs(query, '&', |query|);
    assert query[..|query|] == query && "q=" <= query && query[2..] == q;
    assert url[..|base|] == base;
  }

  /** A URL with a `q` parameter followed by a `meta` parameter. */
  lemma ParseQueryAndMeta(base: string, q: string, m: string)
    requires '?' !in base && '&' !in q
    ensures ParseUrl(base + "?q=" + q + "&meta=" + m) == Some(UrlParts(base, Some(q), Some(m)))
  {
    var url := base + "?q=" + q + "&meta=" + m;
    IndexOfIs(url, '?', |base|);
    var query := url[|base| + 1..];
    assert query == "q=" + q + "&meta=" + m;
    IndexOfIs(query, '&', 2 + |q|);
    assert query[..2 + |q|] == "q=" + q;
    assert query[2 + |q| + 1..] == "meta=" + m;
    assert ("q=" + q)[2..] == q && ("meta=" + m)[5..] == m;
    assert url[..|base|] == base;
  }

  /**
   * `makeUrl` loses nothing: when the path holds no `?` and the encoder never
   * emits `?` or `&` (as `encodeURIComponent` does not), the parser accepts the
   * URL and gives back the path, the encoded arguments under `?q=` exactly when
   * they are truthy, and the encoded metadata under `&meta=` exactly when the
   * serializer returned truthy metadata. With `ParseUrlInverse` the URL is
   * therefore `UnparseUrl` of those parts, tags included.
   */
  lemma MakeUrlRoundTrip(endpoint: string, model: string, operation: string, args: Value, codec: Codec)
    requires '?' !in endpoint && '?' !in model && '?' !in operation
    requires forall s :: '?' !in codec.encodeURIComponent(s) && '&' !in codec.encodeURIComponent(s)
    ensures var serialized := codec.serialize(args);
            ParseUrl(MakeUrl(endpoint, model, operation, args, codec)) == Some(UrlParts(
              BaseUrl(endpoint, model, operation),
              if Truthy(args) then Some(codec.encodeURIComponent(codec.stringify(serialized.data))) else None,
              if Truthy(args) && Truthy(serialized.meta) then Some(EncodedMeta(codec, serialized.meta)) else None))
  {
    var base := BaseUrl(endpoint, model, operation);
    LowerCaseFirstNoQuestionMark(model);
    assert '?' !in base;
    if !Truthy(args) {
      ParseBareUrl(base);
    } else {
      var serialized := codec.serialize(args);
      var q := codec.encodeURIComponent(codec.stringify(serialized.data));
      if Truthy(serialized.meta) {
        ParseQueryAndMeta(base, q, EncodedMeta(codec, serialized.meta));
      } else {
        ParseQueryOnly(base, q);
      }
    }
  }
}
