/**
 OCI chart references: `oci://host[:port]/path[:version][@digest]`. Digests have the form
 `algorithm:encoded` (section "Digests" of the OCI Image Format Specification).
 */
module References {
  import opened Wrappers
  import opened Text

  const OCI := "oci://"

  datatype RefError = NotOCI | BadPort | DigestMismatch

  /** A parsed URL: authority and path (sections 3.2 and 3.3 of RFC 3986), both verbatim. */
  datatype OciUrl = OciUrl(authority: string, path: string)

  predicate IsOCI(s: string) {
    HasPrefix(s, OCI)
  }

  function UrlString(u: OciUrl): string {
    OCI + u.authority + u.path
  }

  /** The path starts at the first slash after the scheme. */
  function PathStart(rest: string): (i: nat)
    ensures i <= |rest| && '/' !in rest[..i]
    ensures i < |rest| ==> rest[i] == '/'
  {
    var i := IndexOf(rest, '/');
    if i == -1 then |rest| else i
  }

  predicate IsDigit(c: char) {
    '0' <= c <= '9'
  }

  /** What follows the last ':' of the host must be a port number, possibly empty. */
  predicate ValidPort(authority: string) {
    var host := authority[LastIndexOf(authority, '@') + 1..];
    var i := LastIndexOf(host, ':');
    i == -1 || forall c | c in host[i + 1..] :: IsDigit(c)
  }

  function ParseUrl(s: string): Result<OciUrl, RefError> {
    if !IsOCI(s) then Err(NotOCI)
    else
      var rest := s[|OCI|..];
      var i := PathStart(rest);
      if ValidPort(rest[..i]) then Ok(OciUrl(rest[..i], rest[i..])) else Err(BadPort)
  }

  datatype Reference = Reference(base: string, version: string, digest: string)

  /** Base path, version and digest of `base[:version][@digest]`. */
  function Split(path: string): Reference {
    var (tagged, digest) := CutLast(path, '@');
    var (base, version) := CutLast(tagged, ':');
    Reference(base, version, digest)
  }

  /** Writes a reference the way users do, leaving out empty parts. */
  function Print(r: Reference): string {
    Join(Join(r.base, ':', r.version), '@', r.digest)
  }

  /** `resolveOCIChartVersionAndDigest`: the URL without version and digest, and those two. */
  method ResolveOCIChartVersionAndDigest(chartURL: string) returns (r: Result<(OciUrl, string, string), RefError>)
    ensures r == ResolveOCI(chartURL)
  {
    if !IsOCI(chartURL) {
      return Err(NotOCI);
    }
    var parsed := ParseUrl(chartURL);
    if parsed.Err? {
      return Err(parsed.error);
    }
    var ociURL := parsed.value;
    var path, version, digest := ociURL.path, "", "";
    var atIndex := LastIndexOf(path, '@');
    if atIndex != -1 {
      digest := path[atIndex + 1..];
      path := path[..atIndex];
    }
    assert (path, digest) == CutLast(parsed.value.path, '@');
    var colonIndex := LastIndexOf(path, ':');
    if colonIndex != -1 {
      version := path[colonIndex + 1..];
      path := path[..colonIndex];
    }
    assert Reference(path, version, digest) == Split(parsed.value.path);
    ociURL := ociURL.(path := path);
    return Ok((ociURL, version, digest));
  }

  function ResolveOCI(chartURL: string): Result<(OciUrl, string, string), RefError> {
    var u :- ParseUrl(chartURL);
    var r := Split(u.path);
    Ok((u.(path := r.base), r.version, r.digest))
  }

  // ---------- Round trips ----------

  /** No part holds a separator that the parser would take for another one. */
  predicate Unambiguous(r: Reference) {
    '@' !in r.digest &&
    ':' !in r.version &&
    (r.digest == "" ==> '@' !in r.base && '@' !in r.version) &&
    (r.version == "" ==> ':' !in r.base)
  }

  /** Printing then parsing gives the parts back exactly for unambiguous parts. */
  lemma PrintThenSplitIff(r: Reference)
    ensures Split(Print(r)) == r <==> Unambiguous(r)
  {
    var tagged := Join(r.base, ':', r.version);
    CutJoined(r.base, ':', r.version);
    CutJoined(tagged, '@', r.digest);
    JoinCut(Print(r), '@');
    JoinCut(CutLast(Print(r), '@').0, ':');
    assert '@' in tagged <==> '@' in r.base || '@' in r.version;
  }

  /** Any path prints back to itself unless its version or its digest is empty after the separator. */
  lemma SplitThenPrintIff(path: string)
    ensures Print(Split(path)) == path <==> !EndsWith(path, '@') && !EndsWith(CutLast(path, '@').0, ':')
  {
    JoinCut(path, '@');
    JoinCut(CutLast(path, '@').0, ':');
  }

  lemma ParsePrinted(u: OciUrl)
    requires '/' !in u.authority && ValidPort(u.authority)
    requires u.path == "" || u.path[0] == '/'
    ensures ParseUrl(UrlString(u)) == Ok(u)
  {
    var s := UrlString(u);
    assert s[|OCI|..] == u.authority + u.path;
    PathStartIs(u.authority, u.path);
  }

  lemma PathStartIs(authority: string, path: string)
    requires '/' !in authority && (path == "" || path[0] == '/')
    ensures var rest := authority + path;
            PathStart(rest) == |authority| && rest[..|authority|] == authority && rest[|authority|..] == path
  {}

  /** The reference rebuilt from a parsed URL and a digest parses to the same URL without version, and
      that digest, exactly if the base path and the digest hold no further separators. */
  lemma RebuiltReferenceIsFixpoint(chartURL: string, digest: string)
    requires ResolveOCI(chartURL).Ok?
    requires var path := ResolveOCI(chartURL).value.0.path; path == "" || path[0] == '/'
    ensures var u := ResolveOCI(chartURL).value.0;
            var path := Print(Reference(u.path, "", digest));
            u.path != "" ==>
            (ResolveOCI(UrlString(u.(path := path))) == Ok((u, "", digest)) <==>
             '@' !in digest && ':' !in u.path && (digest == "" ==> '@' !in u.path))
  {
    var u := ResolveOCI(chartURL).value.0;
    var r := Reference(u.path, "", digest);
    if u.path != "" {
      assert Print(r)[0] == u.path[0];
      ParsePrinted(u.(path := Print(r)));
      PrintThenSplitIff(r);
    }
  }

  // ---------- Ports ----------

  /** A host without ':' parses, and so does one with a port exactly if the port consists of digits. */
  lemma PortParsesIff(host: string, port: string, path: string)
    requires '/' !in host && ':' !in host && '@' !in host && '/' !in port && ':' !in port && '@' !in port
    requires path == "" || path[0] == '/'
    ensures ParseUrl("oci://" + (host + path)) == Ok(OciUrl(host, path))
    ensures ParseUrl("oci://" + (host + ":" + port + path)) ==
            if forall i | 0 <= i < |port| :: '0' <= port[i] <= '9' then Ok(OciUrl(host + ":" + port, path))
              else Err(BadPort)
  {
    var authority := host + ":" + port;
    PathStartIs(host, path);
    PathStartIs(authority, path);
    PortIsValidIff(host, port);
    assert authority == host + [':'] + port;
    NoUserInfo(host);
    ParsesRest(host + path);
    ParsesRest(authority + path);
  }

  lemma ParsesRest(rest: string)
    ensures ParseUrl("oci://" + rest) ==
            var i := PathStart(rest);
            if ValidPort(rest[..i]) then Ok(OciUrl(rest[..i], rest[i..])) else Err(BadPort)
  {
    assert ("oci://" + rest)[|OCI|..] == rest;
  }

  lemma PortIsValidIff(host: string, port: string)
    requires '@' !in host && ':' !in port && '@' !in port
    ensures ValidPort(host + [':'] + port) <==> forall i | 0 <= i < |port| :: '0' <= port[i] <= '9'
  {
    var authority := host + [':'] + port;
    LastSeparator(host, ':', port);
    NoUserInfo(authority);
    assert authority[|host| + 1..] == port;
    DigitsOnly(port);
  }

  lemma NoUserInfo(authority: string)
    requires '@' !in authority
    ensures var i := LastIndexOf(authority, ':');
            ValidPort(authority) <==> i == -1 || forall c | c in authority[i + 1..] :: IsDigit(c)
  {
    assert LastIndexOf(authority, '@') == -1;
    assert authority[0..] == authority;
  }

  lemma DigitsOnly(port: string)
    ensures (forall c | c in port :: IsDigit(c)) <==> forall i | 0 <= i < |port| :: '0' <= port[i] <= '9'
  {
    assert forall i | 0 <= i < |port| :: port[i] in port;
  }
}
