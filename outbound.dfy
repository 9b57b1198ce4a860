/**
 * The outbound request to the greetings endpoint: a URL built from the
 * inbound `x-forwarded-proto` and `host` headers, and fetch options
 * that carry the resolved bypass secret as a header when there is one.
 */
module Outbound {
  import opened Wrappers
  import opened Bypass

  /** Path of the greetings endpoint on the same origin. */
  const ApiPath: string := "/api/greetings"

  /** A `string | null` value interpolated into a template literal: null renders as "null". */
  function Interpolate(v: Option<string>): (s: string)
    ensures v.Some? ==> s == v.value
    ensures v.None? ==> s == "null"
  {
    if v.Some? then v.value else "null"
  }

  /** The endpoint URL `${protocol}://${host}/api/greetings`. */
  function ApiUrl(protocol: Option<string>, host: Option<string>): (url: string)
    ensures |url| == |Interpolate(protocol)| + 3 + |Interpolate(host)| + |ApiPath|
    ensures url[..|Interpolate(protocol)|] == Interpolate(protocol)
    ensures url[|Interpolate(protocol)|..|Interpolate(protocol)| + 3] == "://"
    ensures url[|Interpolate(protocol)| + 3..|url| - |ApiPath|] == Interpolate(host)
    ensures url[|url| - |ApiPath|..] == ApiPath
  {
    Interpolate(protocol) + "://" + Interpolate(host) + ApiPath
  }

  /** Index of the first occurrence of `c` in `s`, if any. */
  function IndexOf(s: string, c: char): (r: Option<nat>)
    ensures r.Some? ==> r.value < |s| && s[r.value] == c && c !in s[..r.value]
    ensures r.None? ==> c !in s
  {
    if |s| == 0 then None
    else if s[0] == c then Some(0)
    else match IndexOf(s[1..], c)
      case None => None
      case Some(i) =>
        assert s[..i + 1] == [s[0]] + s[1..][..i];
        Some(i + 1)
  }

  /** Splits a URL at its scheme separator: the scheme is everything before the first ':', which must start "://". */
  function SplitScheme(url: string): (r: Option<(string, string)>)
    ensures r.Some? ==> url == r.value.0 + "://" + r.value.1 && ':' !in r.value.0
  {
    match IndexOf(url, ':')
      case None => None
      case Some(i) =>
        if i + 3 <= |url| && url[i..i + 3] == "://" then
          assert url == url[..i] + url[i..i + 3] + url[i + 3..];
          Some((url[..i], url[i + 3..]))
        else None
  }

  /** When `c` does not occur in `a`, its first occurrence in `a + [c] + b` is at `|a|`. */
  lemma IndexOfAfterPrefix(a: string, c: char, b: string)
    requires c !in a
    ensures IndexOf(a + [c] + b, c) == Some(|a|)
  {
    var s := a + [c] + b;
    assert s[|a|] == c;
    assert s[..|a|] == a;
  }

  /** Concatenation of strings is associative. */
  lemma ConcatAssoc(a: string, b: string, c: string)
    ensures a + b + c == a + (b + c)
  {
  }

  /** A scheme without ':' followed by "://" is split off exactly. */
  lemma SplitSchemeOf(scheme: string, rest: string)
    requires ':' !in scheme
    ensures SplitScheme(scheme + "://" + rest) == Some((scheme, rest))
  {
    var url := scheme + "://" + rest;
    assert url == scheme + [':'] + ("//" + rest);
    IndexOfAfterPrefix(scheme, ':', "//" + rest);
    assert url[|scheme|..|scheme| + 3] == "://";
    assert url[..|scheme|] == scheme;
    assert url[|scheme| + 3..] == rest;
  }

  /**
   * Splitting the URL text at its scheme separator gives back the inbound
   * protocol as the scheme and the inbound host text followed by the API
   * path as the rest, provided the protocol holds no ':'. The host text is
   * not parsed: a host holding '/', '?', '#' or '@' changes what a URL
   * parser would take as host and path.
   */
  lemma ApiUrlOrigin(protocol: Option<string>, host: Option<string>)
    requires ':' !in Interpolate(protocol)
    ensures SplitScheme(ApiUrl(protocol, host)) == Some((Interpolate(protocol), Interpolate(host) + ApiPath))
  {
    var p, h := Interpolate(protocol), Interpolate(host);
    ConcatAssoc(p + "://", h, ApiPath);
    SplitSchemeOf(p, h + ApiPath);
  }

  /** The options passed to `fetch`: a headers object only when a bypass was resolved. */
  datatype FetchOptions = FetchOptions(headers: Option<map<string, string>>)

  /** The outbound request: the URL and the fetch options. */
  datatype Request = Request(url: string, options: FetchOptions)

  /** `{...(bypass ? { headers: { [ProtectionHeader]: bypass } } : {})}`. */
  function Options(bypass: Option<string>): (o: FetchOptions)
    ensures o.headers.Some? <==> Truthy(bypass)
    ensures o.headers.Some? ==> o.headers.value == map[ProtectionHeader := bypass.value]
  {
    if Truthy(bypass) then FetchOptions(Some(map[ProtectionHeader := bypass.value]))
    else FetchOptions(None)
  }

  /** The bypass secret a server would read off the request options. */
  function SentBypass(options: FetchOptions): (r: Option<string>) {
    if options.headers.Some? && ProtectionHeader in options.headers.value
    then Some(options.headers.value[ProtectionHeader])
    else None
  }

  /**
   * For any resolved bypass, the options carry a headers object exactly when
   * a bypass was resolved, that object holds the one bypass header, and the
   * value sent is exactly the resolved bypass.
   */
  lemma OptionsCarryBypass(header: Option<string>, query: Option<string>, env: Option<string>)
    ensures var b := Resolve(header, query, env);
            && (Options(b).headers.Some? <==> b.Some?)
            && (b.Some? ==> Options(b).headers.value == map[ProtectionHeader := b.value])
            && SentBypass(Options(b)) == b
  {
  }
}
