/** `normalizeRegistryURL`: the repository name that credentials are looked up for. */
module RegistryAuth {
  import opened Wrappers
  import opened Text
  import opened References

  function StripScheme(s: string): string {
    if HasPrefix(s, "oci://") then s[6..]
    else if HasPrefix(s, "https://") then s[8..]
    else if HasPrefix(s, "http://") then s[7..]
    else s
  }

  function StripDigest(s: string): string {
    var i := IndexOf(s, '@');
    if i == -1 then s else s[..i]
  }

  /** Drops what follows the last ':' if a slash, not the first character, comes before it. */
  function StripTag(s: string): string {
    var colon, slash := LastIndexOf(s, ':'), LastIndexOf(s, '/');
    if slash > 0 && colon > slash then s[..colon] else s
  }

  function NormalizeRegistry(registryURL: string): string {
    TrimSlash(StripTag(StripDigest(StripScheme(TrimSpace(registryURL)))))
  }

  method NormalizeRegistryURL(registryURL: string) returns (ref: string)
    ensures ref == NormalizeRegistry(registryURL)
  {
    ref := TrimSpace(registryURL);
    if HasPrefix(ref, "oci://") {
      ref := TrimPrefix(ref, "oci://");
    } else if HasPrefix(ref, "https://") {
      ref := TrimPrefix(ref, "https://");
    } else if HasPrefix(ref, "http://") {
      ref := TrimPrefix(ref, "http://");
    }
    assert ref == StripScheme(TrimSpace(registryURL));
    var idx := IndexOf(ref, '@');
    if idx != -1 {
      ref := ref[..idx];
    }
    ghost var undigested := StripDigest(StripScheme(TrimSpace(registryURL)));
    assert ref == undigested;
    idx := LastIndexOf(ref, ':');
    if idx != -1 {
      var lastSlash := LastIndexOf(ref, '/');
      if lastSlash > 0 && idx > lastSlash {
        ref := ref[..idx];
      }
    }
    assert ref == StripTag(undigested);
    ref := TrimSlash(ref);
  }

  // ---------- Agreement with the chart reference parser ----------

  /** A host with optional port and a reference below it, without stray separators or blanks. */
  predicate WellFormed(host: string, r: Reference) {
    host != "" && '/' !in host && '@' !in host && ValidPort(host) && !HasSpaceAround(host) &&
    NamesElement(r.base) && !HasSpaceAround(r.base) && r.base[0] == '/' && |r.base| > 1 && r.base[1] != '/' &&
    '@' !in r.base && ':' !in r.base &&
    '@' !in r.version && ':' !in r.version && '/' !in r.version && !HasSpaceAround(r.version) &&
    '@' !in r.digest && !HasSpaceAround(r.digest)
  }

  lemma PrintedUrl(host: string, r: Reference)
    requires WellFormed(host, r)
    ensures var url := UrlString(OciUrl(host, Print(r)));
            url == OCI + host + Print(r) && !HasSpaceAround(url) && Print(r) != "" && Print(r)[0] == '/'
  {}

  lemma StripsDigest(host: string, r: Reference)
    requires WellFormed(host, r)
    ensures StripDigest(host + Print(r)) == host + Join(r.base, ':', r.version)
  {
    var tagged := host + Join(r.base, ':', r.version);
    var s := host + Print(r);
    assert '@' !in tagged;
    if r.digest == "" {
      assert s == tagged;
    } else {
      assert s == tagged + ['@'] + r.digest;
      assert s[..|tagged|] == tagged;
      FirstIndexIs(s, '@', |tagged|);
    }
  }

  lemma KeepsUntagged(host: string, base: string)
    requires base != "" && base[0] == '/' && ':' !in base
    ensures StripTag(host + base) == host + base
  {
    var s := host + base;
    assert s[|host|] == '/' && s[|host|..] == base;
  }

  lemma StripsTag(host: string, base: string, version: string)
    requires host != "" && base != "" && base[0] == '/' && ':' !in version && '/' !in version
    ensures StripTag(host + base + [':'] + version) == host + base
  {
    var name := host + base;
    LastIndexAtLeast(name, '/', |host|);
    StripsLastTag(name, version);
  }

  lemma StripsLastTag(name: string, version: string)
    requires LastIndexOf(name, '/') > 0 && ':' !in version && '/' !in version
    ensures StripTag(name + [':'] + version) == name
  {
    var s := name + [':'] + version;
    assert s[..|name|] == name && s[|name| + 1..] == version;
    TagAt(s, |name|);
  }

  lemma TagAt(s: string, n: nat)
    requires n < |s| && s[n] == ':' && ':' !in s[n + 1..] && '/' !in s[n + 1..] && LastIndexOf(s[..n], '/') > 0
    ensures StripTag(s) == s[..n]
  {}

  lemma StripsTagOf(host: string, r: Reference)
    requires WellFormed(host, r)
    ensures StripTag(host + Join(r.base, ':', r.version)) == host + r.base
  {
    if r.version == "" {
      KeepsUntagged(host, r.base);
    } else {
      StripsTag(host, r.base, r.version);
      assert host + Join(r.base, ':', r.version) == host + r.base + [':'] + r.version;
    }
  }

  lemma StripsScheme(host: string, r: Reference)
    requires WellFormed(host, r)
    ensures StripScheme(TrimSpace(UrlString(OciUrl(host, Print(r))))) == host + Print(r)
  {
    var url := UrlString(OciUrl(host, Print(r)));
    PrintedUrl(host, r);
    TrimNothing(url);
    assert url[6..] == host + Print(r);
  }

  lemma KeepsName(host: string, r: Reference)
    requires WellFormed(host, r)
    ensures TrimSlash(host + r.base) == host + r.base
  {}

  /** The credential lookup and the chart parser name the same repository. */
  lemma ParsersAgree(host: string, r: Reference)
    requires WellFormed(host, r)
    ensures var url := UrlString(OciUrl(host, Print(r)));
            ResolveOCI(url) == Ok((OciUrl(host, r.base), r.version, r.digest)) &&
            NormalizeRegistry(url) == host + r.base
  {
    PrintedUrl(host, r);
    ParsePrinted(OciUrl(host, Print(r)));
    PrintThenSplitIff(r);
    StripsScheme(host, r);
    StripsDigest(host, r);
    StripsTagOf(host, r);
    KeepsName(host, r);
  }

  /** What it returns for them it leaves alone. */
  lemma NormalizedStays(host: string, r: Reference)
    requires WellFormed(host, r)
    ensures NormalizeRegistry(host + r.base) == host + r.base
  {
    var plain := Reference(r.base, "", "");
    NameHasNoScheme(host, r.base);
    assert Print(plain) == r.base;
    StripsDigest(host, plain);
    StripsTagOf(host, plain);
    KeepsName(host, r);
  }

  lemma NameHasNoScheme(host: string, base: string)
    requires host != "" && '/' !in host && !HasSpaceAround(host)
    requires |base| > 1 && base[0] == '/' && base[1] != '/' && !HasSpaceAround(base)
    ensures StripScheme(TrimSpace(host + base)) == host + base
  {
    var s := host + base;
    TrimNothing(s);
    FirstSlash(host, base);
    NoScheme(s, |host|, "oci://");
    NoScheme(s, |host|, "https://");
    NoScheme(s, |host|, "http://");
  }

  lemma FirstSlash(host: string, base: string)
    requires '/' !in host && |base| > 1
    ensures var s := host + base;
            s[|host|] == base[0] && s[|host| + 1] == base[1] && forall i | 0 <= i < |host| :: s[i] != '/'
  {}

  /** A string whose first slash is single does not start with a scheme. */
  lemma NoScheme(s: string, slash: nat, scheme: string)
    requires slash + 1 < |s| && s[slash] == '/' && s[slash + 1] != '/'
    requires forall i | 0 <= i < slash :: s[i] != '/'
    requires |scheme| >= 2 && scheme[|scheme| - 2] == '/' && scheme[|scheme| - 1] == '/'
    requires forall i | 0 <= i < |scheme| - 2 :: scheme[i] != '/'
    ensures !HasPrefix(s, scheme)
  {}

  /** Nothing for any of the steps to strip. */
  predicate Bare(x: string) {
    !HasSpaceAround(x) &&
    !HasPrefix(x, "oci://") && !HasPrefix(x, "https://") && !HasPrefix(x, "http://") &&
    '@' !in x &&
    !(0 < LastIndexOf(x, '/') < LastIndexOf(x, ':')) &&
    !EndsWith(x, '/')
  }

  lemma TrimsIff(x: string)
    ensures TrimSpace(x) == x <==> !HasSpaceAround(x)
  {}

  lemma SchemeShortens(x: string)
    ensures |StripScheme(x)| <= |x|
    ensures StripScheme(x) == x <==> !HasPrefix(x, "oci://") && !HasPrefix(x, "https://") && !HasPrefix(x, "http://")
  {}

  lemma DigestShortens(x: string)
    ensures |StripDigest(x)| <= |x|
    ensures StripDigest(x) == x <==> '@' !in x
  {}

  lemma TagShortens(x: string)
    ensures |StripTag(x)| <= |x|
    ensures StripTag(x) == x <==> !(0 < LastIndexOf(x, '/') < LastIndexOf(x, ':'))
  {}

  lemma SlashShortens(x: string)
    ensures |TrimSlash(x)| <= |x|
    ensures TrimSlash(x) == x <==> !EndsWith(x, '/')
  {}

  /** It leaves a text alone exactly if there is nothing to strip. */
  lemma NormalizeFixesIff(x: string)
    ensures NormalizeRegistry(x) == x <==> Bare(x)
  {
    var a := TrimSpace(x);
    var b := StripScheme(a);
    var c := StripDigest(b);
    var d := StripTag(c);
    TrimsIff(x);
    SchemeShortens(a);
    DigestShortens(b);
    TagShortens(c);
    SlashShortens(d);
  }

  // ---------- Idempotence ----------

  /** What is left of a reference between its scheme and its `@`. */
  function Middle(x: string): string {
    StripDigest(StripScheme(TrimSpace(x)))
  }

  predicate HasTag(m: string) {
    0 < LastIndexOf(m, '/') < LastIndexOf(m, ':')
  }

  /** Where the name in `m` ends: before the tag, and before a trailing slash. */
  function NameEnd(m: string): (e: nat)
    ensures e <= |m|
  {
    var t := if HasTag(m) then LastIndexOf(m, ':') else |m|;
    if t > 0 && m[t - 1] == '/' then t - 1 else t
  }

  /** Below `e`, a ':' follows the last slash, which is not the first character. */
  predicate TagBelow(m: string, e: nat)
    requires e <= |m|
  {
    exists i | 0 < i < e :: m[i] == '/' && '/' !in m[i + 1..e] && ':' in m[i + 1..e]
  }

  /** No further scheme and, in the name, no blank at either end, no further trailing slash and no further tag. */
  predicate StripsOnce(m: string) {
    !HasPrefix(m, "oci://") && !HasPrefix(m, "https://") && !HasPrefix(m, "http://") &&
    var e := NameEnd(m);
    e == 0 || (!IsSpace(m[0]) && !IsSpace(m[e - 1]) && m[e - 1] != '/' && !TagBelow(m, e))
  }

  lemma CutsToName(m: string)
    ensures TrimSlash(StripTag(m)) == m[..NameEnd(m)]
  {
    assert StripTag(m) == m[..if HasTag(m) then LastIndexOf(m, ':') else |m|];
  }

  lemma NormalizedIsName(x: string)
    ensures NormalizeRegistry(x) == Middle(x)[..NameEnd(Middle(x))] && '@' !in Middle(x)
  {
    CutsToName(Middle(x));
  }

  lemma TagBelowIff(m: string, e: nat)
    requires e <= |m|
    ensures TagBelow(m, e) <==> HasTag(m[..e])
  {
    var n := m[..e];
    var i, j := LastIndexOf(n, '/'), LastIndexOf(n, ':');
    if HasTag(n) {
      assert m[i + 1..e] == n[i + 1..] && n[j] in n[i + 1..];
    }
    if TagBelow(m, e) {
      var k :| 0 < k < e && m[k] == '/' && '/' !in m[k + 1..e] && ':' in m[k + 1..e];
      assert n[k + 1..] == m[k + 1..e];
      LastIndexIs(n, '/', k);
      var c :| k < c < e && m[c] == ':';
      LastIndexAtLeast(n, ':', c);
    }
  }

  /** The tag starts after the last slash, so no cut reaches into a scheme further than its last slash. */
  lemma SchemeSurvives(m: string, scheme: string)
    requires HasPrefix(m, scheme) && |scheme| >= 2 && scheme[|scheme| - 1] == '/' && scheme[|scheme| - 2] == '/'
    ensures var e := NameEnd(m);
            e >= |scheme| - 1 && (HasPrefix(m[..e], scheme) || EndsWith(m[..e], '/'))
  {
    var e := NameEnd(m);
    LastIndexAtLeast(m, '/', |scheme| - 1);
    if e >= |scheme| {
      assert m[..e][..|scheme|] == scheme;
    } else {
      assert e == |scheme| - 1 && m[..e][e - 1] == scheme[|scheme| - 2];
    }
  }

  lemma PrefixOfName(m: string, e: nat, scheme: string)
    requires e <= |m| && HasPrefix(m[..e], scheme)
    ensures HasPrefix(m, scheme)
  {
    assert m[..e][..|scheme|] == m[..|scheme|];
  }

  lemma NameIsBareIff(m: string)
    requires '@' !in m
    ensures Bare(m[..NameEnd(m)]) <==> StripsOnce(m)
  {
    var e := NameEnd(m);
    var n := m[..e];
    assert '@' !in n;
    TagBelowIff(m, e);
    SchemeOfName(m, "oci://");
    SchemeOfName(m, "https://");
    SchemeOfName(m, "http://");
  }

  lemma SchemeOfName(m: string, scheme: string)
    requires |scheme| >= 2 && scheme[|scheme| - 1] == '/' && scheme[|scheme| - 2] == '/'
    ensures HasPrefix(m[..NameEnd(m)], scheme) ==> HasPrefix(m, scheme)
    ensures HasPrefix(m, scheme) ==> HasPrefix(m[..NameEnd(m)], scheme) || EndsWith(m[..NameEnd(m)], '/')
  {
    if HasPrefix(m, scheme) {
      SchemeSurvives(m, scheme);
    } else if HasPrefix(m[..NameEnd(m)], scheme) {
      PrefixOfName(m, NameEnd(m), scheme);
    }
  }

  /** Normalising twice is normalising once exactly for references whose name needs stripping only once. */
  lemma NormalizeIdempotentIff(x: string)
    ensures NormalizeRegistry(NormalizeRegistry(x)) == NormalizeRegistry(x) <==> StripsOnce(Middle(x))
  {
    NormalizedIsName(x);
    NormalizeFixesIff(NormalizeRegistry(x));
    NameIsBareIff(Middle(x));
  }

  /** A second trailing slash, for example, goes only the second time. */
  lemma NormalizeNotIdempotent()
    ensures NormalizeRegistry("h//") == "h/" && NormalizeRegistry("h/") == "h"
  {
    TrimNothing("h//");
    TrimNothing("h/");
    LastIndexIs("h//", '/', 2);
    LastIndexIs("h/", '/', 1);
    assert ':' !in "h//" && ':' !in "h/" && '@' !in "h//" && '@' !in "h/";
    assert "h//"[..2] == "h/" && "h/"[..1] == "h";
  }

  // ---------- Schemes ----------

  /** The scheme makes no difference, and without one the text is taken as it is. */
  lemma SchemesAgree(x: string)
    requires x != "" && !HasSpaceAround(x)
    ensures NormalizeRegistry("oci://" + x) == NormalizeRegistry("https://" + x) == NormalizeRegistry("http://" + x)
    ensures !HasPrefix(x, "oci://") && !HasPrefix(x, "https://") && !HasPrefix(x, "http://") ==>
            NormalizeRegistry("oci://" + x) == NormalizeRegistry(x)
  {
    SchemeGoes("oci://", x);
    SchemeGoes("https://", x);
    SchemeGoes("http://", x);
    TrimNothing(x);
  }

  lemma SchemeGoes(scheme: string, x: string)
    requires scheme in {"oci://", "https://", "http://"} && x != "" && !HasSpaceAround(x)
    ensures StripScheme(TrimSpace(scheme + x)) == x
  {
    var s := scheme + x;
    assert s[0] == scheme[0] && s[|s| - 1] == x[|x| - 1];
    TrimNothing(s);
    assert s[|scheme|..] == x;
    assert s[..|scheme|] == scheme;
    assert s[0] == scheme[0] && s[4] == scheme[4];
  }
}
