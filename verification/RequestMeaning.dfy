/**
 What the references and settings given to Helm mean, told by what Helm resolves them to, and what the
 lookup makes of every way to give a chart.
 */
module RequestMeaning {
  import opened Wrappers
  import opened Text
  import opened References
  import opened Drift
  import opened ChartKeys
  import opened LookupAgreement
  import opened ChartClient
  import opened CacheRefinement

  /** A chart in an OCI registry, or by name from a repository, or by URL. */
  datatype Asked =
    | OciChart(host: string, path: string, version: string, digest: string)
    | RepositoryChart(repository: string, name: string, version: string)

  /** What Helm resolves a request to. With a repository URL set, every reference is looked up there, with the
      version set; otherwise an OCI reference is taken apart, and a tag in it comes before that version. */
  function Resolves(req: PullRequest): Option<Asked> {
    if req.settings.repoURL == "" && "oci://" <= req.ref then
      match ResolveOCI(req.ref)
      case Err(_) => None
      case Ok((u, tag, digest)) =>
        Some(OciChart(u.authority, u.path, if tag != "" then tag else req.settings.version, digest))
    else Some(RepositoryChart(req.settings.repoURL, req.ref, req.settings.version))
  }

  // ---------- By repository and name ----------

  /** From an HTTP repository: repository, name and version as the spec has them. */
  lemma HttpRepositoryMeans(chart: ChartSpec, before: PullSettings)
    requires chart.url == "" && !("oci://" <= chart.repository)
    requires chart.repository != "" || !("oci://" <= chart.name)
    ensures Request(chart, before).Ok?
    ensures Resolves(Request(chart, before).value) == Some(RepositoryChart(chart.repository, chart.name, chart.version))
  {}

  /** Such requests do not depend on earlier ones, and are the same exactly for the same repository, name and
      version. */
  lemma HttpRequestsEqualIff(chart: ChartSpec, other: ChartSpec, before: PullSettings, before': PullSettings)
    requires chart.url == "" && !("oci://" <= chart.repository)
    requires other.url == "" && !("oci://" <= other.repository)
    ensures Request(chart, before) == Request(other, before') <==>
            chart.repository == other.repository && chart.name == other.name && chart.version == other.version
  {}

  /** From an OCI repository: the chart below it, the version of the spec, and the digest without blanks, unless
      an earlier pull of the client has left it a repository URL. */
  lemma OciRepositoryMeans(chart: ChartSpec, before: PullSettings, host: string, dir: string)
    requires chart.url == "" && Repository(chart.repository, host, dir)
    requires '@' !in chart.name && ':' !in chart.name && '@' !in chart.digest
    ensures Request(chart, before).Ok?
    ensures Resolves(Request(chart, before).value) ==
            if before.repoURL == ""
            then Some(OciChart(host, TrimSlash(dir) + "/" + chart.name, chart.version, TrimSpace(chart.digest)))
            else Some(RepositoryChart(before.repoURL, Request(chart, before).value.ref, chart.version))
  {
    RepositoryPullKeepsDigest(chart, before, host, dir);
    ReferenceIsOCI(chart.repository, chart.name);
    RequestIsOCI(chart, before);
  }

  lemma RequestIsOCI(chart: ChartSpec, before: PullSettings)
    requires chart.url == "" && IsOCI(chart.repository)
    ensures Request(chart, before).Ok?
    ensures "oci://" <= Request(chart, before).value.ref
    ensures Request(chart, before).value.settings == before.(version := chart.version)
  {
    var ref := TrimSlash(chart.repository) + "/" + chart.name;
    ReferenceIsOCI(chart.repository, chart.name);
    assert (ref + "@" + TrimSpace(chart.digest))[..|OCI|] == ref[..|OCI|];
  }

  // ---------- By URL ----------

  /** By OCI URL: the host and path of the URL, its tag, and the digest of URL or spec, unless the client has a
      repository URL. The version of the spec plays no part. */
  lemma OciUrlMeans(chart: ChartSpec, before: PullSettings, u: OciUrl, tag: string, inUrl: string, digest: string)
    requires "oci://" <= chart.url && ResolveOCI(chart.url) == Ok((u, tag, inUrl))
    requires ResolveEffectiveDigest(inUrl, chart.digest) == Ok(digest)
    requires u.path != "" && u.path[0] == '/'
    requires '@' !in digest && '@' !in u.path && ':' !in u.path
    ensures Request(chart, before).Ok?
    ensures Resolves(Request(chart, before).value) ==
            if before.repoURL == "" then Some(OciChart(u.authority, u.path, tag, digest))
            else Some(RepositoryChart(before.repoURL, Request(chart, before).value.ref, tag))
  {
    OciUrlRequest(chart, before, u, tag, inUrl, digest);
    RebuiltResolves(chart.url, u, tag, inUrl, digest);
    UntaggedMeans(Request(chart, before).value, u, digest);
  }

  lemma RebuiltResolves(url: string, u: OciUrl, tag: string, inUrl: string, digest: string)
    requires ResolveOCI(url) == Ok((u, tag, inUrl)) && u.path != "" && u.path[0] == '/'
    requires '@' !in digest && '@' !in u.path && ':' !in u.path
    ensures var ref := UrlString(u.(path := Print(Reference(u.path, "", digest))));
            "oci://" <= ref && ResolveOCI(ref) == Ok((u, "", digest))
  {
    RebuiltReferenceIsFixpoint(url, digest);
    assert UrlString(u.(path := Print(Reference(u.path, "", digest))))[..|OCI|] == OCI;
  }

  lemma UntaggedMeans(req: PullRequest, u: OciUrl, digest: string)
    requires "oci://" <= req.ref && ResolveOCI(req.ref) == Ok((u, "", digest))
    ensures Resolves(req) ==
            if req.settings.repoURL == "" then Some(OciChart(u.authority, u.path, req.settings.version, digest))
            else Some(RepositoryChart(req.settings.repoURL, req.ref, req.settings.version))
  {}

  lemma OciUrlRequest(chart: ChartSpec, before: PullSettings, u: OciUrl, tag: string, inUrl: string, digest: string)
    requires "oci://" <= chart.url && ResolveOCI(chart.url) == Ok((u, tag, inUrl))
    requires ResolveEffectiveDigest(inUrl, chart.digest) == Ok(digest)
    ensures Request(chart, before).Ok?
    ensures Request(chart, before).value.settings == before.(version := tag)
    ensures Request(chart, before).value.ref == UrlString(u.(path := Print(Reference(u.path, "", digest))))
  {
    assert chart.url != "" && RequestUrl(chart, before).Ok?;
    if digest != "" {
      AtDigest(u, digest);
    }
  }

  /** By any other URL: that URL, whatever repository, name, version and digest the spec has. Repository URL and
      version are those that earlier pulls of the client have left. */
  lemma PlainUrlMeans(chart: ChartSpec, before: PullSettings)
    requires chart.url != "" && !("oci://" <= chart.url)
    ensures Request(chart, before).Ok?
    ensures Resolves(Request(chart, before).value) ==
            Some(RepositoryChart(before.repoURL, chart.url, before.version))
  {}

  // ---------- Whole calls ----------

  /** Only a call by name from an HTTP repository leaves the client another repository URL than it had. */
  lemma RepositoryLeft(chart: ChartSpec, cache: Cache, settings: PullSettings, helm: HelmPull, statOk: bool)
    requires ListsFileNames(helm)
    ensures var p := PrepareStep(chart, cache, settings, helm, statOk);
            p.settings.repoURL ==
            if p.pulls != [] && chart.url == "" && !("oci://" <= chart.repository) then chart.repository
            else settings.repoURL
  {
    OnlyRequest(chart, cache, settings, helm, statOk);
    SettingsLeft(chart, cache, settings, helm, statOk);
    RepositorySet(chart, settings);
    var pulls := PrepareStep(chart, cache, settings, helm, statOk).pulls;
    if pulls != [] {
      assert pulls[|pulls| - 1] in pulls;
    }
  }

  lemma RepositorySet(chart: ChartSpec, settings: PullSettings)
    ensures var req := Request(chart, settings);
            req.Ok? ==>
              req.value.settings.repoURL ==
              if chart.url == "" && !("oci://" <= chart.repository) then chart.repository else settings.repoURL
  {}

  lemma OnlyRequest(chart: ChartSpec, cache: Cache, settings: PullSettings, helm: HelmPull, statOk: bool)
    requires ListsFileNames(helm)
    ensures forall req | req in PrepareStep(chart, cache, settings, helm, statOk).pulls ::
              Request(chart, settings) == Ok(req)
  {
    var _ := HitOrFetched(chart, cache, settings, helm, statOk);
  }

  /** The settings are those of the last pull. */
  predicate Carries(settings: PullSettings, p: Progress) {
    p.settings == if p.pulls == [] then settings else p.pulls[|p.pulls| - 1].settings
  }

  lemma PullCarries(chart: ChartSpec, settings: PullSettings, p: Progress, helm: HelmPull)
    requires Carries(settings, p)
    ensures Carries(settings, PullStep(chart, p, helm))
  {}

  lemma EnsureCarries(file: string, chart: ChartSpec, settings: PullSettings, p: Progress, helm: HelmPull, statOk: bool)
    requires Carries(settings, p)
    ensures Carries(settings, EnsureStep(file, chart, p, helm, statOk))
  {
    PullCarries(chart, settings, p, helm);
    PullsOrStays(file, chart, p, helm, statOk);
  }

  lemma PullsOrStays(file: string, chart: ChartSpec, p: Progress, helm: HelmPull, statOk: bool)
    ensures var q := EnsureStep(file, chart, p, helm, statOk);
            q == PullStep(chart, p, helm) || (q.settings == p.settings && q.pulls == p.pulls)
  {}

  lemma SettingsLeft(chart: ChartSpec, cache: Cache, settings: PullSettings, helm: HelmPull, statOk: bool)
    ensures Carries(settings, PrepareStep(chart, cache, settings, helm, statOk))
  {
    var start := Progress(cache, settings, [], Ok(""));
    var plan := Plan(chart);
    if plan.Ok? && plan.value.LookFor? {
      EnsureCarries(plan.value.file, chart, settings, start, helm, statOk);
    } else if plan.Ok? {
      var pulled := PullStep(chart, start, helm);
      PullCarries(chart, settings, start, helm);
      if pulled.result.Ok? {
        EnsureCarries(pulled.result.value, chart, settings, pulled, helm, statOk);
      }
    }
  }

  /** A call of a new client for a chart from an OCI registry asks Helm for that chart or for nothing. */
  lemma CallAsksFor(chart: ChartSpec, cache: Cache, version: string, helm: HelmPull, statOk: bool, u: OciUrl,
                    tag: string, inUrl: string, digest: string)
    requires ListsFileNames(helm)
    requires "oci://" <= chart.url && ResolveOCI(chart.url) == Ok((u, tag, inUrl))
    requires ResolveEffectiveDigest(inUrl, chart.digest) == Ok(digest)
    requires u.path != "" && u.path[0] == '/'
    requires '@' !in digest && '@' !in u.path && ':' !in u.path
    ensures var p := PrepareStep(chart, cache, PullSettings("", version), helm, statOk);
            forall req | req in p.pulls :: Resolves(req) == Some(OciChart(u.authority, u.path, tag, digest))
  {
    OnlyRequest(chart, cache, PullSettings("", version), helm, statOk);
    OciUrlMeans(chart, PullSettings("", version), u, tag, inUrl, digest);
  }

  // ---------- The lookup ----------

  /** The specs refused at once: a digest, and OCI in neither URL nor repository. */
  lemma DigestRefusedIff(chart: ChartSpec)
    ensures Plan(chart) == Err(DigestNeedsOCI) <==>
            chart.digest != "" && !("oci://" <= chart.url) && !("oci://" <= chart.repository)
  {}

  /** By repository and name the latest chart is asked for without version, or with the one that stands for
      any; otherwise name and repository are needed, and a digest comes before a version. */
  lemma RepositoryPlan(chart: ChartSpec)
    requires chart.url == "" && (chart.digest != "" ==> "oci://" <= chart.repository)
    ensures var open := chart.version == "" || chart.version == ">0.0.0-0";
            Plan(chart) ==
            if open && chart.digest == "" then Ok(PullLatest)
            else if chart.name == "" then Err(NoChartName)
            else if chart.repository == "" then Err(NoChartRepository)
            else Ok(LookFor(if chart.digest != "" then DigestFile(chart.name, chart.digest)
                            else ChartFile(chart.name, chart.version)))
  {}

  /** By OCI URL with a tag and no digest, the file is named after the last element of the path and the tag. */
  lemma TaggedUrlPlan(chart: ChartSpec, host: string, dir: string, name: string, tag: string)
    requires chart.url == UrlString(OciUrl(host, Print(Reference(dir + "/" + name, tag, "")))) && chart.digest == ""
    requires '/' !in host && ValidPort(host) && (dir == "" || dir[0] == '/')
    requires '@' !in dir && '@' !in name && '@' !in tag && ':' !in tag && '/' !in tag && '/' !in name
    requires tag != "" && name != ""
    ensures Plan(chart) == Ok(LookFor(name + "-" + tag + ".tgz"))
  {
    ParsedTagged(host, dir, name, tag);
    TaggedPlan(chart, OciUrl(host, dir + "/" + name), tag);
    LastElement(dir, name);
    PlainChartFile(name, tag);
  }

  lemma TaggedPlan(chart: ChartSpec, u: OciUrl, tag: string)
    requires ResolveOCI(chart.url) == Ok((u, tag, "")) && chart.digest == "" && tag != ""
    ensures Plan(chart) == Ok(LookFor(ChartFile(Base(u.path), tag)))
  {
    assert chart.url != "" && PlanUrl(chart) == Ok(LookFor(ChartFile(Base(u.path), tag)));
  }

  lemma LastElement(dir: string, name: string)
    requires name != "" && '/' !in name
    ensures Base(dir + "/" + name) == name
  {
    assert name[|name| - 1] in name;
    BaseAfterSlash(dir, name);
    BaseOfPlain(name);
  }

  lemma ParsedTagged(host: string, dir: string, name: string, tag: string)
    requires '/' !in host && ValidPort(host) && (dir == "" || dir[0] == '/')
    requires '@' !in dir && '@' !in name && '@' !in tag && ':' !in tag && tag != "" && name != ""
    ensures var r := Reference(dir + "/" + name, tag, "");
            ResolveOCI(UrlString(OciUrl(host, Print(r)))) == Ok((OciUrl(host, r.base), tag, ""))
  {
    var r := Reference(dir + "/" + name, tag, "");
    assert Print(r)[0] == '/';
    ParsePrinted(OciUrl(host, Print(r)));
    PrintThenSplitIff(r);
  }

  /** By any other URL, the file is the last element of its path. */
  lemma PlainUrlPlan(chart: ChartSpec, scheme: string, host: string, path: string, dir: string, file: string)
    requires chart.url == scheme + "://" + (host + path) && ':' !in scheme && scheme != "oci" && chart.digest == ""
    requires path == dir + "/" + file && (dir == "" || dir[0] == '/') && '/' !in host && file != "" && '/' !in file
    ensures Plan(chart) == Ok(LookFor(file))
  {
    IsOCIByScheme(scheme, host + path);
    AfterScheme(scheme, host + path);
    PathStartIs(host, path);
    PathOfRest(chart.url, host + path);
    LastElement(dir, file);
    PlainPlan(chart);
  }

  lemma PlainPlan(chart: ChartSpec)
    requires chart.url != "" && !IsOCI(chart.url) && chart.digest == ""
    ensures Plan(chart) == Ok(LookFor(Base(PathOfUrl(chart.url))))
  {}

  lemma AfterScheme(scheme: string, rest: string)
    requires ':' !in scheme
    ensures var url := scheme + "://" + rest;
            IndexOf(url, ':') == |scheme| && url[|scheme|..|scheme| + 3] == "://" && url[|scheme| + 3..] == rest
  {
    var url := scheme + "://" + rest;
    assert url[..|scheme|] == scheme;
    assert url[|scheme|] == "://"[0];
    FirstIndexIs(url, ':', |scheme|);
  }

  lemma PathOfRest(url: string, rest: string)
    requires var i := IndexOf(url, ':');
             i >= 0 && i + 3 <= |url| && url[i..i + 3] == "://" && url[i + 3..] == rest
    ensures PathOfUrl(url) == rest[PathStart(rest)..]
  {}

  lemma IsOCIByScheme(scheme: string, rest: string)
    requires ':' !in scheme
    ensures IsOCI(scheme + "://" + rest) <==> scheme == "oci"
  {
    var url := scheme + "://" + rest;
    AfterScheme(scheme, rest);
    if IsOCI(url) {
      assert url[3] == OCI[3] == ':';
      assert ':' !in url[..3] by {
        assert url[0] == 'o' && url[1] == 'c' && url[2] == 'i';
      }
      FirstIndexIs(url, ':', 3);
      assert scheme == url[..3] == OCI[..3] == "oci";
    }
  }

  /** For a digest without algorithm there is no file to look for: every call pulls. */
  lemma DigestWithoutAlgorithmPulls(chart: ChartSpec, cache: Cache, settings: PullSettings, helm: HelmPull,
                                    statOk: bool)
    requires chart.url == "" && "oci://" <= chart.repository && chart.name != ""
    requires chart.digest != "" && ':' !in chart.digest
    ensures Request(chart, settings).Ok?
    ensures PrepareStep(chart, cache, settings, helm, statOk).pulls == [Request(chart, settings).value]
  {
    NoFileNamePulls(chart, cache, settings, helm, statOk);
  }

  // ---------- Errors ----------

  /** By OCI URL, lookup and pull are refused with the same error: that of the URL if it does not parse, and
      otherwise a mismatch exactly if URL and spec have different digests. */
  lemma OciUrlFailsIff(chart: ChartSpec, before: PullSettings)
    requires "oci://" <= chart.url
    ensures var parsed := ResolveOCI(chart.url);
            var error := if parsed.Err? then Some(parsed.error)
                         else if parsed.value.2 != "" && chart.digest != "" && parsed.value.2 != chart.digest
                         then Some(DigestMismatch) else None;
            if error.Some? then Plan(chart) == Err(BadReference(error.value)) &&
              Request(chart, before) == Err(BadReference(error.value))
            else Plan(chart).Ok? && Request(chart, before).Ok?
  {}
}
