# Verified model of the Helm provider's release controllers

A Dafny model of the three parts of the provider that decide what happens to a Helm release, with proofs about them. `dafny verify dfyconfig.toml` checks everything.

**The release controller.** `Release` holds the resource as a class whose `Observe`, `Create`, `Update`, `Delete` and `deploy` write spec and status field by field, each proved against a function on values. Helm, the registry and the Kubernetes API answer through parameters, so the theorems hold for whatever they answer. `Runs` puts reconciles in sequence: retry accounting, the ownership rule, digest drift, late initialisation. `FailingHelm` adds a Helm that fails every install and upgrade and records each failure with what was asked for, and proves with a lexicographic measure (retries left, phase) that the controller then stops where the state fits; `RetryLimit` has the exact conditions under which it does not stop, for failures that are recorded and for failures that are not. `NamespacedRelease` and `Namespaced` relate the namespaced twin to the cluster-scoped controller. `ConnectionDetails` is the loop over published values that Observe runs.

**Values and drift.** `Values` defines the deep merge and its algebra, `GoMaps` proves that the loops of `mergeMaps` over mutable maps compute it for every iteration order, `Compose` and `Patches` do the same for the loops over sources, and `Normalize` and `Drift` say what the drift comparison sees.

**The chart cache.** `Text`, `References` and `RegistryAuth` are the parsers. References have the form `oci://host[:port]/path[:version][@digest]`, with digests as in the section "Digests" of the OCI Image Format Specification and authority and path as in sections 3.2 and 3.3 of RFC 3986. `ChartKeys` and `LookupAgreement` relate the file a chart is looked up as to the reference that is pulled, `RequestMeaning` says what Helm resolves that reference to, `ChartClient` is `PullAndLoadChart` and its helpers as a class, and `CacheProtocol` splits a pull into its file-system steps and lets any number of them interleave. `CacheHistory` shows that the outcome is that of publishing one file after the other, `PullProgress` that every pull can get through its steps and to what, and `ConcurrentLoads` and `CallProgress` do the same for whole calls with their lookups and loads. `CacheRefinement`, `PinnedLoads` and `VersionedCharts` say when a load through the cache succeeds and when it gives what a fresh pull gives; `UntaggedUrls` is about charts whose version is never asked for.

## Where the code does not do what one might expect

The code is modelled as it is. In these places it differs from its documentation or from a natural reading; each is proved as it is, with an input that shows it or the exact condition, or both.

- `takeOwnership` is documented as a one-time operation (`apis/cluster/release/v1beta1/types.go:109-114`). Observe rebuilds the status that remembers it, so a quiet reconcile is enough to take ownership again: `Runs.OwnershipTakenTwice`, with the exact rule in `Runs.OwnershipRule`.
- The rollback limit counts rollbacks and uninstalls of a release found in sync or stuck in a pending install or upgrade, and nothing else; `Release.ObserveAndUpdateAgree` says for every reconcile which it is. Two kinds of runs get around it.
  - Helm records each failure as a failed release with what was asked for: every reconcile upgrades uncounted exactly if the state does not fit, that is, for another chart name, or with updates allowed another version, a conflicting digest or a recorded patch fingerprint other than that of the current patches (`RetryLimit.EveryReconcileDeploysIff`). The ordinary case is a new resource with patches whose first install fails, for nothing is recorded yet: `RetryLimit.NewResourceWithPatches`, and with a limit of one `RetryLimit.LimitOfOneExceeded`. Where every failure is recorded and the state fits, the limit bounds everything: `FailingHelm.BoundedRetry`. (Values holding NaN do not fit either; neither YAML nor `set` produces them.)
  - The action fails and leaves Helm's record as it was, as for a chart that does not render or resources owned by somebody else: then also a state that fits deploys at every reconcile, exactly if there is no release or one out of sync that is not stuck in a pending install or upgrade under a limit, with the spec as late initialisation leaves it (`RetryLimit.UnrecordedDeploysIff`). Cases are a new resource that cannot be installed (`RetryLimit.NewResourceWithoutRecord`, and with a limit of one `RetryLimit.LimitOfOneWithoutRecord`) and a release in a pending rollback (`RetryLimit.PendingRollbackNotLimited`).
- With a deployed release in sync, an edit of only the URL or the repository is never deployed, for the drift check reads neither: `Runs.SourceEditIsNotDeployed`.
- A late-initialised version of a chart given by an untagged `oci://` URL is compared but never asked for, so once the registry serves a newer chart every reconcile upgrades: `UntaggedUrls.UntaggedNeverAgreesAgain`, with `UntaggedUrls.UntaggedAgreesIff`.
- The reply to the write of late-initialised fields undoes what Observe wrote into the status in memory; a failing upgrade after it leaves an ownership record that Observe had cleared. `Runs.OwnershipRule` has the exact rule.
- A namespaced release without a namespace in its spec cannot be created unless it skips making the namespace, although the resource's own namespace is the documented default (`apis/namespaced/release/v1beta1/types.go:84-86`): `NamespacedRelease.DefaultNamespaceFails`, with `NamespacedRelease.CreateReachesHelmIff`.
- The namespaced controller reads every published object in the release's namespace, whatever namespace the reference names; the cluster-scoped one follows the reference: `Namespaced.SameDetailAgreesIff`.
- Beyond 2^53 the drift comparison misses changes of whole numbers: `Drift.WholeNumberDriftIff`.
- `mergeMaps` is not associative: `Values.MergeNotAssociative`, with `Values.MergeAssociativeIff`.
- A digest next to a plain URL and an OCI repository is accepted and ignored: `LookupAgreement.AcceptedDigestCanBeIgnored`, with `LookupAgreement.DigestHonouredIff`.
- The version-keyed cache drops the repository, and pre-release versions can collide with other names: `VersionedCharts.RepositoryNotInKey`, `VersionedCharts.PreReleasesCollide`, with `VersionedCharts.ChartFilesCollideIff`.
- `normalizeRegistryURL` is not idempotent: `RegistryAuth.NormalizeNotIdempotent`, with `RegistryAuth.NormalizeIdempotentIff`.

## Assumptions

- The reconcile loop belongs to crossplane-runtime. `Runs.Reconcile` assumes that it connects, observes, then deletes, creates or updates, and that the status is stored at the end of every reconcile, except that the status a Create wrote may be discarded: each reconcile carries a flag for it, and the theorems about runs hold for both. Where it is discarded, a new release with patches is upgraded once right after its installation (`Release.NewReleaseInSyncIff`). A successful write of the resource is answered with the status the API holds, which is the one stored by the reconcile before. Users may edit the spec between reconciles.
- Helm writes a chart pulled by digest under the last element of its reference, with the last `:` turned into `-`. With a repository URL set it looks every reference up there; otherwise it takes an OCI reference apart, and a tag in it comes before the version set. A pull that returns without error has left complete files. `os.MkdirTemp` picks an unused name; a rename within the cache is atomic.
- Registries used for `PinnedLoads` are content-addressed: a pull by digest leaves the blob of that digest, and no other pull leaves a file with a name of the digest form.
- YAML and patch parsing, `strvals` and hashing are parameters (`Sources.Codec`). Where hashing matters, `Patches.GoodDigest` asks it to be injective and to give lower-case hexadecimal text. That the YAML parser reads the empty text as no values is a precondition where it is used.

## Model

| member | source | states |
|---|---|---|
| `Values.MergeAtPath` | pkg/controller/cluster/release/values.go:93-110 | For every key path, the merge holds what `b` holds where `b` decides the path (a non-map there or on the way), and otherwise what `a` holds, nested maps merged again. |
| `Values.MergeLeafAtPath` | pkg/controller/cluster/release/values.go:93-110 | At every path, the leaf of the merge is that of `b` if `b` fixes it and else that of `a`, and a map stands there exactly when `b` has one or `a` has one that `b` does not shadow. |
| `Values.MergeRightIdentity` | pkg/controller/cluster/release/values.go:93-110 | Merging nothing changes nothing. |
| `Values.MergeLeftIdentity` | pkg/controller/cluster/release/values.go:93-110 | Merging onto nothing gives the layer. |
| `Values.MergeAbsorbs` | pkg/controller/cluster/release/values.go:93-110 | Merging the same layer a second time changes nothing. |
| `Values.MergeIdempotent` | pkg/controller/cluster/release/values.go:93-110 | A layer merged with itself is itself, at every depth. |
| `Values.HiddenIffCovered` | pkg/controller/cluster/release/values.go:93-110 | Nothing of `a` is left under `c` exactly when `c` has every key of `a`, recursively where both hold maps. |
| `Values.MergeAssociativeIff` | pkg/controller/cluster/release/values.go:93-110 | The merge is associative on exactly the triples in which no non-map of `b` stands between a map of `a` and a map of `c` that fails to cover it. |
| `Values.MergeAssociativeWithoutClash` | pkg/controller/cluster/release/values.go:93-110 | In particular on all triples in which no path holds a map, a present non-map and a map. |
| `Values.MergeNotAssociative` | pkg/controller/cluster/release/values.go:93-110 | In general it is not associative. |
| `GoMaps.MergeMaps` | pkg/controller/cluster/release/values.go:93-110 | On mutable, shared, nested maps the two loops compute the merge for every order in which they visit keys, and write to no map that existed before. |
| `GoMaps.CopyMap` | pkg/controller/cluster/release/values.go:94-97 | The first loop: a new map with the contents of `a`, sharing its nested maps, for every order. |
| `GoMaps.MergeInto` | pkg/controller/cluster/release/values.go:98-108 | The second loop: `out` ends up holding the merge of what it held with `b`, for every order, without writing to the nested maps of either. |
| `GoMaps.MergeKey` | pkg/controller/cluster/release/values.go:98-108 | One round of it: under the key stands the merged value, everything else is unchanged. |
| `GoMaps.GoMap.Put` | pkg/controller/cluster/release/values.go:96-107 | Storing under a key updates the map that the object denotes there and nowhere else. |
| `Compose.ComposeValuesFromSpec` | pkg/controller/cluster/release/values.go:43-89 | The composition loops compute the merge of all layers, sources in order and then the inline values, with the `set` overrides applied in order, or the error of the first step that fails. |
| `Compose.MergeSources` | pkg/controller/cluster/release/values.go:46-57 | The loop over `valuesFrom` gives the merge of the layers of all sources, or the error of the first that has none. |
| `Compose.ApplyOverrides` | pkg/controller/cluster/release/values.go:67-86 | The loop over `set` applies every override in order; a source overrides the literal value, and an empty value is an error. |
| `Compose.OverrideApplies` | pkg/controller/cluster/release/values.go:67-86 | The override at any place sets its name to the text of its source, or else to its literal value, in what the ones before it made; an empty value or text that cannot be parsed fails the composition. |
| `Sources.ReadsIff` | pkg/controller/cluster/release/data.go:66-106 | Reading a source gives exactly what is under its key, or the empty text for an optional source without object or key; an object that cannot be read or has no data is an error also then. |
| `Compose.LayersFail` | pkg/controller/cluster/release/values.go:46-57 | An error in a prefix of the sources is the error of the whole list. |
| `Compose.SourcePrecedence` | pkg/controller/cluster/release/values.go:43-65 | Before `set`, the leaf at any path comes from the last layer that fixes it. |
| `Compose.NoSourceNoLeaf` | pkg/controller/cluster/release/values.go:43-65 | There is no leaf that no layer fixes. |
| `Compose.MissingOptionalSourceIsNeutral` | pkg/controller/cluster/release/data.go:66-106 | Inserting or removing a missing optional source anywhere in the list changes neither the composed values nor the error. |
| `Compose.NormalizeMergeAll` | pkg/controller/cluster/release/observe.go:74-87 | Normalising every layer first and merging gives the normalised composition. |
| `Compose.DefaultKeys` | pkg/controller/cluster/release/values.go:46-80 | A source without a key gives values under `values.yaml` and an override under `value`. |
| `Normalize.NormIdempotent` | pkg/controller/cluster/release/observe.go:74-87 | Turning numbers into floats a second time changes nothing at any depth. |
| `Normalize.NormalizeIdempotent` | pkg/controller/cluster/release/observe.go:74-87 | Normalising twice is normalising once, also for configs JSON cannot express. |
| `Normalize.NormCommutesWithMerge` | pkg/controller/cluster/release/observe.go:74-87 | Turning numbers into floats commutes with the merge. |
| `Normalize.NormalizeHomomorphism` | pkg/controller/cluster/release/observe.go:74-87 | For values JSON can express, normalisation commutes with the merge. |
| `Normalize.NormEqualIff` | pkg/controller/cluster/release/observe.go:146-150 | Two values normalise to the same exactly if they are equal but for the representation of numbers, at any depth. |
| `Normalize.ComparisonSees` | pkg/controller/cluster/release/observe.go:146-150 | The drift comparison sees every difference but the representation of numbers; a config JSON cannot express is compared as it is, and then NaN equals nothing. |
| `Normalize.DeepEqualIff` | pkg/controller/cluster/release/observe.go:148 | The comparison of two values is equality, except that a value holding NaN equals nothing. |
| `Normalize.ComparesEqualToNormalized` | pkg/controller/cluster/release/observe.go:146-150 | A config compares equal to what Helm stores of it exactly if it holds no NaN. |
| `Normalize.ComparisonOfWholeNumbers` | pkg/controller/cluster/release/observe.go:70-87 | Two configs differing in one whole number are the same to the comparison exactly if the numbers round to the same float64: up to 2^53 only equal ones do, 2^53 and 2^53 + 1 do. |
| `Normalize.RoundsToNearestEven` | pkg/controller/cluster/release/observe.go:70-87 | A whole number becomes the nearest multiple of the spacing around it, of two equally near ones the even one, and the same with either sign. |
| `Normalize.SpacingFits` | pkg/controller/cluster/release/observe.go:70-87 | The spacing is the power of two that leaves the number at most 53 bits, and all 53 of them beyond 2^53. |
| `Normalize.RepresentableIff` | pkg/controller/cluster/release/observe.go:74-87 | A config goes through JSON exactly if no NaN and no infinity is in it, at any depth. |
| `Patches.GetFromSpec` | pkg/controller/cluster/release/patch.go:81-104 | The loop appends the patches of all sources in order, skipping empty texts, or returns the first error. |
| `Patches.UpdateIffPatchesDiffer` | pkg/controller/cluster/release/patch.go:50-79 | With fingerprints in lower-case hexadecimal, one for each patch list, an update is reported against the fingerprint recorded for a list exactly when the current patches differ from it. |
| `Patches.NoUpdateIff` | pkg/controller/cluster/release/patch.go:50-62 | Whatever was recorded, there is no update exactly if it is, up to capital letters, the fingerprint of the current patches. |
| `Patches.PatchesInOrder` | pkg/controller/cluster/release/patch.go:81-104 | The patches of two lists of sources, one after the other, are those of the first and then those of the second, or the first error. |
| `Patches.EmptyTextHasNoPatches` | pkg/controller/cluster/release/patch.go:90-92 | A source with an empty text gives no patches, whatever parsing it would give. |
| `Patches.EqualFoldIff` | pkg/controller/cluster/release/patch.go:61 | Two fingerprints count as equal exactly if they have the same length and at each place the same character, up to one being the ASCII capital of the other. |
| `Patches.DefaultPatchKey` | pkg/controller/cluster/release/patch.go:34 | A source without a key gives the patches under `patch.yaml`. |
| `Drift.InSyncIff` | pkg/controller/cluster/release/observe.go:90-162 | In sync means: info there with a status other than pending install, upgrade and rollback, chart metadata there with the wanted name, and, if no policies are given or they include update or all, a wanted version that is empty, `>0.0.0-0` or the deployed one, no two different digests, the same values up to the representation of numbers, and the recorded patches. |
| `Drift.VerdictFailsIff` | pkg/controller/cluster/release/observe.go:90-162 | The check fails exactly if info is missing, or, with nothing pending, chart or metadata, or if the values or the patches cannot be read once everything compared before them agrees. |
| `Drift.ObservationOf` | pkg/controller/cluster/release/observe.go:54-68 | What Observe records of a release that has info, chart and metadata or lacks some of them. |
| `Drift.PendingIsDrift` | pkg/controller/cluster/release/observe.go:94-97 | A pending install, upgrade or rollback is drift whatever the spec and the sources; every other status gets the verdict that a deployed one would. |
| `Drift.WholeNumberDriftIff` | pkg/controller/cluster/release/observe.go:138-150 | With everything else in sync, a whole number changed in the spec is drift exactly if it rounds to another float64 than the deployed one; so a change from 2^53 to 2^53 + 1 is never deployed. |
| `ConnectionDetails.Collect` | pkg/controller/cluster/release/observe.go:168-200 | The loop collects the values of all details, or those before the first that cannot be read with its error. |
| `ConnectionDetails.LastWins` | pkg/controller/cluster/release/observe.go:171-197 | For every key the value is that of the last detail writing it. |
| `ConnectionDetails.PublishesOwnValues` | pkg/controller/cluster/release/observe.go:168-215 | Every published value was read for the last detail of its key, from an object annotated with exactly the name and namespace of this release unless the detail skips the check; no other key is published. |
| `ConnectionDetails.AcceptsAnnotatedOnly` | pkg/controller/cluster/release/observe.go:177-179 | A checked detail is refused exactly if one of the annotations `meta.helm.sh/release-name` and `meta.helm.sh/release-namespace` of its object is missing or has another value. |
| `ConnectionDetails.ForeignObjectStops` | pkg/controller/cluster/release/observe.go:171-179 | An object of another release, at whatever place, means that nothing is published. |
| `ConnectionDetails.SecretDataIsDecoded` | pkg/controller/cluster/release/observe.go:180-196 | The value is the field as printed, but decoded for a path that starts with `data` in a v1 Secret. |
| `Release.ReleaseResource.constructor` | apis/cluster/release/v1beta1/types.go:183-190 | A new resource has an empty status. |
| `Release.ReleaseResource.Observe` | pkg/controller/cluster/release/release.go:210-275 | Field by field, and with the loop over the published values, Observe writes the status and reports what the function `ObserveStep` says, and leaves the spec alone. |
| `Release.ReleaseResource.Deploy` | pkg/controller/cluster/release/release.go:279-352 | `deploy` writes spec and status and calls Helm as `DeployStep` says, on every error path; after a write of late-initialised fields it goes on with the status the API holds. |
| `Release.ReleaseResource.LateInitialize` | pkg/controller/cluster/release/release.go:301-320 | Late initialisation fills an empty name, and an empty version unless a digest is given, and says whether the spec has to be written. |
| `Release.ReleaseResource.RecordDeployment` | pkg/controller/cluster/release/release.go:338-349 | What a successful action leaves in the status. |
| `Release.ReleaseResource.Create` | pkg/controller/cluster/release/release.go:354-371 | Create installs after making the namespace, as `CreateStep` says. |
| `Release.ReleaseResource.Update` | pkg/controller/cluster/release/release.go:373-400 | Update retries, gives up or upgrades, and counts, as `UpdateStep` says. |
| `Release.DeployNeverRetries` | pkg/controller/cluster/release/release.go:279-352 | `deploy` neither rolls back nor uninstalls, keeps the limit, and leaves the count at that in memory or in the API. |
| `Release.ObserveReports` | pkg/controller/cluster/release/release.go:210-275 | What an Observe without error that found a release records of it, that it is ready exactly if deployed and in sync, and that it reports up to date exactly if in sync with no retry due. |
| `Release.ObserveAndUpdateAgree` | pkg/controller/cluster/release/release.go:249-274 | After any Observe that reports an existing release out of date, Update retries exactly when a retry is due and within the limit (uninstalling exactly a first revision), deploys only on drift, and does nothing exactly for a pending install or upgrade with the retries used up. |
| `Release.DeployThenInSyncIff` | pkg/controller/cluster/release/release.go:279-352 | After a successful deploy, with Helm holding what it was asked for and unchanged sources, the next drift check is in sync exactly when the spec names the chart's name and version or leaves them open and the values hold no NaN. |
| `Release.DiscardedCreateInSyncIff` | pkg/controller/cluster/release/release.go:354-371 | If the status written by a successful Create is discarded, the next drift check is in sync exactly when, besides, the digest stored before does not conflict and the fingerprint stored before is that of the patches. |
| `Release.NewReleaseInSyncIff` | pkg/controller/cluster/release/release.go:338-342 | So a new release whose Create status is discarded is in sync right after installation exactly if it has no patches. |
| `Release.DeployThenQuiet` | pkg/controller/cluster/release/release.go:210-275 | Then the next Observe reports the release up to date with all its published values, clears the retry count and keeps fingerprint and digest. |
| `Release.ObserveKeepsDigest` | pkg/controller/cluster/release/release.go:233-264 | No Observe changes a recorded digest; an empty one is filled from the spec exactly by an Observe that finds the release deployed and in sync and reads all published values. |
| `Release.UnfinishedObserve` | pkg/controller/cluster/release/release.go:225-262 | An Observe whose drift check fails, or of a resource marked for deletion, changes nothing but the observation; one that fails on published values has also recorded the verdict and cleared the count. |
| `Release.DeployMisses` | pkg/controller/cluster/release/release.go:279-300 | Before it calls Helm, `deploy` reports the first of values, credentials, patches and chart that it misses, and leaves spec and status alone. |
| `Runs.RetryAccountingStep` | pkg/controller/cluster/release/release.go:255-393 | One reconcile: the count is cleared by a healthy Observe, raised by one exactly by a retry, and a retry happens only below the limit. |
| `Runs.RetryAccounting` | pkg/controller/cluster/release/release.go:255-393 | Over every run with a fixed limit, the count is the number of retries since the last reset, it stays between 0 and the limit, and the retries are bounded by the limit times the resets plus what was left. |
| `Runs.RetriesBoundedByResets` | pkg/controller/cluster/release/release.go:379-425 | From a new resource, all rollbacks and uninstalls of Update together are at most the limit times one more than the number of resets. |
| `Runs.OwnershipRule` | pkg/controller/cluster/release/release.go:150-164 | Over every run, ownership is recorded as taken exactly if the latest event was a deploy with takeOwnership on, among successful deploys whose status was stored and release-finding Observes not followed by a late-init write, whose reply undoes the Observe; the next reconcile passes the flag to Helm exactly if the spec asks and it is not so recorded. |
| `Runs.OwnershipTakenTwice` | apis/cluster/release/v1beta1/types.go:109-114 | A run of three reconciles takes ownership twice, although it is documented as a one-time operation, whether or not the status that Create wrote is kept. |
| `Runs.DigestDriftPersists` | pkg/controller/cluster/release/release.go:233-238 | While the wanted digest differs from a recorded one, over every run in which no deploy succeeds and is stored, no Observe finds the release in sync, the count is not cleared and the recorded digest stays. |
| `Runs.AsksHelmFor` | pkg/controller/cluster/release/release.go:279-400 | A reconcile installs only what is absent and upgrades only what it found, each time with the chart pulled and all values and patches of the spec; it retries only what it found, and deletes only for a resource marked for deletion. |
| `Runs.FilledSpecStays` | pkg/controller/cluster/release/release.go:301-326 | A spec with name and version filled in is never written again by any run. |
| `Runs.LateInitPinsVersion` | pkg/controller/cluster/release/release.go:301-326 | The reconcile that first reaches Helm with an open version, however the chart is given, pins the pulled version; over every later run without edits the spec stays as it is. |
| `Runs.DigestLeavesVersion` | pkg/controller/cluster/release/release.go:301-320 | With a digest in the spec, no run without edits changes anything of the chart but an empty name. |
| `Runs.InSyncStaysQuiet` | pkg/controller/cluster/release/release.go:210-275 | While sources and spec stay and Helm holds a deployed release found in sync, every reconcile of every run leaves Helm alone. |
| `Runs.SourceEditIsNotDeployed` | pkg/controller/cluster/release/observe.go:113-134 | With a deployed release in sync, an edit of nothing but the URL and the repository, a tag or digest in the URL included, is stored and never deployed by any run. |
| `Runs.DeployThenQuietForever` | pkg/controller/cluster/release/release.go:279-352 | So after a deploy of what the spec describes, no later reconcile touches Helm. |
| `Runs.DeletionNeedsNoSources` | pkg/controller/cluster/release/release.go:240-247 | A resource marked for deletion has its release uninstalled, if there is one, and nothing in the outcome depends on values, patches or published objects. |
| `FailingHelm.MeasureDecreases` | pkg/controller/cluster/release/release.go:210-425 | With fixed inputs that fit and a Helm that fails every install and upgrade and records each failure with what was asked for, every reconcile that touches Helm decreases the pair of retries left and phase, and one that does not leaves it. |
| `FailingHelm.BoundedRetry` | pkg/controller/cluster/release/release.go:373-425 | Over every such run, with each failure recorded, the retries are exactly the decrease of the retries left, and the installs and upgrades are at most one more. |
| `FailingHelm.CountsWithinLimit` | pkg/controller/cluster/release/release.go:373-425 | With each failure recorded, at most limit minus count rollbacks and uninstalls, and at most one install or upgrade more than that. |
| `FailingHelm.ThenQuiet` | pkg/controller/cluster/release/release.go:249-274 | With each failure recorded and the retries used up on a release as it was asked for, no later reconcile touches Helm. |
| `RetryLimit.LimitApplies` | pkg/controller/cluster/release/release.go:373-425 | While Helm keeps failing what it is asked for and records each failure, and the state fits (name, and with updates allowed version, digest, fingerprint and values), at most one deploy fills in an open name and the retries stay within those left. |
| `RetryLimit.LimitDoesNotApply` | pkg/controller/cluster/release/release.go:373-425 | With each failure recorded, but a state that does not fit, every reconcile upgrades again and none is counted. |
| `RetryLimit.EveryReconcileDeploysIff` | pkg/controller/cluster/release/release.go:328-345 | So with each failure recorded every reconcile of such a run deploys exactly if the state does not fit, apart from a run of one reconcile that fills in the name. |
| `RetryLimit.FailingDigestIsNotLimited` | pkg/controller/cluster/release/release.go:345 | While a new digest keeps failing, the same holds whatever happens to sources and chart. |
| `RetryLimit.NewResourceWithPatches` | pkg/controller/cluster/release/release.go:338-342 | A new resource with patches whose first install fails upgrades at every later reconcile, uncounted, because no fingerprint is recorded. |
| `RetryLimit.LimitOfOneExceeded` | pkg/controller/cluster/release/release.go:338-342 | With a limit of one retry, an install and two upgrades fail and none is counted. |
| `RetryLimit.UnrecordedDeploysIff` | pkg/controller/cluster/release/release.go:210-425 | While every action fails and Helm's record, absent or any release, stays as it is, every reconcile deploys exactly if there is no release, or one found out of sync that is not a pending install or upgrade under a limit, and the same holds with the spec that the first reconcile filled in; nothing is counted then. |
| `RetryLimit.NewResourceWithoutRecord` | pkg/controller/cluster/release/release.go:215-219 | A new resource without patches fits, and yet if its installs fail without a record every reconcile installs again, uncounted, whatever the limit. |
| `RetryLimit.LimitOfOneWithoutRecord` | pkg/controller/cluster/release/release.go:215-219 | With a limit of one retry, three such installs fail and none is counted. |
| `RetryLimit.PendingRollbackNotLimited` | pkg/controller/cluster/release/release.go:413-418 | A release in a pending rollback is out of sync but not rolled back, so failing upgrades of it are never counted. |
| `Namespaced.ComposeValuesFromSpec` | pkg/controller/namespaced/release/values.go:43-89 | The namespaced composition loops compute the namespaced fold over sources and overrides. |
| `Namespaced.ApplyOverrides` | pkg/controller/namespaced/release/values.go:67-86 | Its loop over `set`. |
| `Namespaced.GetFromSpec` | pkg/controller/namespaced/release/patch.go:81-104 | The namespaced patch loop computes the namespaced list of patches. |
| `Namespaced.Collect` | pkg/controller/namespaced/release/observe.go:172-204 | The namespaced loop over published values, which reads every object in the release's namespace. |
| `Namespaced.FoldAgrees` | pkg/controller/namespaced/release/values.go:43-65 | Folding the namespaced sources one by one is merging the layers of the cluster-scoped sources with the namespace filled in. |
| `Namespaced.SetsAgree` | pkg/controller/namespaced/release/values.go:67-86 | So are the `set` overrides. |
| `Namespaced.ComposeAgrees` | pkg/controller/namespaced/release/values.go:43-89 | The composed values are the cluster-scoped ones of the filled-in spec. |
| `Namespaced.PatchesAgree` | pkg/controller/namespaced/release/patch.go:81-104 | So are the patches. |
| `Namespaced.UpdatesAgree` | pkg/controller/namespaced/release/patch.go:50-64 | So is the report that they changed. |
| `Namespaced.DecisionsAgree` | pkg/controller/namespaced/release/observe.go:94-166 | The twin takes the same decisions in the same order from its own values and patches. |
| `Namespaced.DriftAgrees` | pkg/controller/namespaced/release/observe.go:94-166 | The namespaced drift check is the cluster-scoped one of the filled-in spec. |
| `Namespaced.DetailsAgree` | pkg/controller/namespaced/release/observe.go:172-204 | It publishes what the cluster-scoped loop publishes for references into the release's namespace. |
| `Namespaced.ReferenceNamespaceIgnored` | pkg/controller/namespaced/release/observe.go:177 | The namespace written in a reference makes no difference to it. |
| `Namespaced.SameDetailAgreesIff` | pkg/controller/namespaced/release/observe.go:177 | On one and the same detail the two controllers agree for every cluster exactly if the reference names the release's namespace. |
| `NamespacedRelease.ObserveAgreesFor` | pkg/controller/namespaced/release/release.go:215-280 | Every namespaced Observe, published values included, is the cluster-scoped one with sources in the resource's namespace and published objects in that of the release found. |
| `NamespacedRelease.ObserveAgrees` | pkg/controller/namespaced/release/release.go:215-280 | That is the filled-in spec whenever Helm finds the release in the namespace it installs into. |
| `NamespacedRelease.DeployAgrees` | pkg/controller/namespaced/release/release.go:284-361 | So is every deploy. |
| `NamespacedRelease.UpdateAgrees` | pkg/controller/namespaced/release/release.go:380-407 | So is every Update. |
| `NamespacedRelease.CreateAgrees` | pkg/controller/namespaced/release/release.go:363-378 | So is Create, where making the namespace of the spec and making the target namespace have the same outcome. |
| `NamespacedRelease.CreateReachesHelmIff` | pkg/controller/namespaced/release/release.go:363-378 | Create reaches Helm exactly if the namespace written in the spec, not the one Helm installs into, is there or need not be made, and all inputs are there. |
| `NamespacedRelease.DefaultNamespaceFails` | pkg/controller/namespaced/release/release.go:149-157 | With no namespace in the spec Create fails before installing anything, unless told to make none, although the resource's own namespace is the documented default. |
| `NamespacedRelease.InstallsInto` | pkg/controller/namespaced/release/release.go:149-157 | Helm installs into the namespace of the spec, or the resource's own if it has none. |
| `References.ResolveOCIChartVersionAndDigest` | pkg/clients/helm/client.go:522-549 | The in-place parser computes the split at the last `@` and then the last `:` of the path. |
| `References.PrintThenSplitIff` | pkg/clients/helm/client.go:516-549 | Printing a reference and parsing it gives the parts back exactly if they hold no separator the parser takes for another. |
| `References.SplitThenPrintIff` | pkg/clients/helm/client.go:530-545 | A parsed path prints back to itself exactly if neither version nor digest is empty after its separator. |
| `References.ParsePrinted` | pkg/clients/helm/client.go:522-531 | Authority and path of a printed URL are parsed back. |
| `References.RebuiltReferenceIsFixpoint` | pkg/clients/helm/client.go:264-279 | The reference rebuilt from a parsed URL and a digest parses to the same URL, no version and that digest, exactly if neither holds a further separator. |
| `References.PortParsesIff` | pkg/clients/helm/client.go:522-529 | A URL with a port parses exactly if the port is all digits; one without a port parses. |
| `RegistryAuth.NormalizeRegistryURL` | pkg/clients/registryauth/auth.go:51-77 | The successive rewrites compute the composition of the stripping steps. |
| `RegistryAuth.ParsersAgree` | pkg/clients/registryauth/auth.go:51-77 | On every well-formed reference the credential lookup names the host and base path that the chart parser finds. |
| `RegistryAuth.NormalizedStays` | pkg/clients/registryauth/auth.go:51-77 | What it returns for those it leaves alone. |
| `RegistryAuth.SchemesAgree` | pkg/clients/registryauth/auth.go:54-63 | `oci://`, `https://`, `http://` and no scheme at all give the same repository name. |
| `Text.TrimsBlanks` | pkg/clients/registryauth/auth.go:52 | Blanks, tabs and line ends are trimmed at both ends of a text and nowhere else. |
| `RegistryAuth.NormalizeFixesIff` | pkg/clients/registryauth/auth.go:51-77 | It leaves a text alone exactly if no step has anything to strip. |
| `RegistryAuth.NormalizeIdempotentIff` | pkg/clients/registryauth/auth.go:51-77 | Normalising twice is normalising once exactly if the text between scheme and `@` has no further scheme and its name, up to the tag and one trailing slash, no blank at either end, no further trailing slash and no further tag. |
| `RegistryAuth.NormalizeNotIdempotent` | pkg/clients/registryauth/auth.go:51-77 | A second trailing slash, for example, goes only the second time. |
| `ChartKeys.ResolveEffectiveDigest` | pkg/clients/helm/client.go:344-352 | The effective digest is the one given in the URL, the spec or both; two different ones are an error. |
| `ChartKeys.FileRulesAgreeIff` | pkg/clients/helm/client.go:580-590 | For a digest with a `:`, the cache name and the name Helm writes agree exactly if it is the only `:`. |
| `ChartKeys.DigestFileInjective` | pkg/clients/helm/client.go:580-590 | For SHA-256 digests the cache name fixes both base name and digest. |
| `ChartKeys.Sha256IsWellFormed` | apis/cluster/release/v1beta1/types.go:41-46 | A digest of the admitted form has one `:` and splits into algorithm and hash. |
| `LookupAgreement.UrlLookupMatchesPullIff` | pkg/clients/helm/client.go:383-410 | Digest in the URL, in the spec or both: the file looked for is the one Helm writes for the reference pulled exactly if the digest has one `:`. |
| `LookupAgreement.UrlPullKeepsDigest` | pkg/clients/helm/client.go:264-279 | The reference pulled for a URL names the same repository and digest, exactly if the digest has no `@` and the base path no `:`. |
| `LookupAgreement.RepositoryLookupMatchesPullIff` | pkg/clients/helm/client.go:572-578 | By repository and name, the file looked for is the one Helm writes for the reference pulled exactly if the digest has no blanks around it, because only the reference trims them. |
| `LookupAgreement.RepositoryPullKeepsDigest` | pkg/clients/helm/client.go:572-578 | The reference pulled names the chart below the repository and the trimmed digest. |
| `LookupAgreement.DigestHonouredIff` | pkg/clients/helm/client.go:375-381 | An accepted digest is part of what is pulled exactly if the chart is not given by a plain URL. |
| `LookupAgreement.PlainUrlIgnoresDigest` | pkg/clients/helm/client.go:411-417 | With a plain URL neither lookup nor pull depends on the digest. |
| `LookupAgreement.AcceptedDigestCanBeIgnored` | pkg/clients/helm/client.go:375-381 | A spec with a digest of the admitted form that passes the digest check and has its digest ignored. |
| `RequestMeaning.HttpRepositoryMeans` | pkg/clients/helm/client.go:254-263 | Without a URL and with a repository that is not OCI, Helm is asked for the name in the repository at the version of the spec, whatever was pulled before. |
| `RequestMeaning.HttpRequestsEqualIff` | pkg/clients/helm/client.go:254-263 | Two such requests are equal exactly if repository, name and version are. |
| `RequestMeaning.OciRepositoryMeans` | pkg/clients/helm/client.go:254-263 | With an OCI repository and a client without repository URL, for the chart below it at the version of the spec and, if given, the digest without blanks. |
| `RequestMeaning.OciUrlMeans` | pkg/clients/helm/client.go:264-279 | With an OCI URL and such a client, for its host and path at its tag and the digest of URL or spec; the version of the spec plays no part. |
| `RequestMeaning.PlainUrlMeans` | pkg/clients/helm/client.go:252-299 | With any other URL, for that URL whatever else the spec has. |
| `RequestMeaning.RepositoryLeft` | pkg/clients/helm/client.go:252-299 | A call leaves the client the repository URL it had, unless it pulled by name from an HTTP repository. |
| `RequestMeaning.CallAsksFor` | pkg/clients/helm/client.go:354-450 | A whole call of a client without one, for a chart by OCI URL, asks Helm for exactly that chart or for nothing. |
| `RequestMeaning.OciUrlFailsIff` | pkg/clients/helm/client.go:389-400 | By OCI URL, lookup and pull are refused with the same error: that of the URL, or a mismatch exactly if URL and spec have different digests. |
| `RequestMeaning.DigestRefusedIff` | pkg/clients/helm/client.go:375-381 | A digest is refused at once exactly if neither URL nor repository is OCI. |
| `RequestMeaning.RepositoryPlan` | pkg/clients/helm/client.go:383-434 | Without a URL: the latest chart is asked for exactly with no digest and a version that is empty or `>0.0.0-0`; otherwise a missing name and then a missing repository is an error, and the file is that of the digest or else of the version. |
| `RequestMeaning.TaggedUrlPlan` | pkg/clients/helm/client.go:398-410 | By OCI URL with a tag and no digest, the file is named after the last path element and the tag. |
| `RequestMeaning.PlainUrlPlan` | pkg/clients/helm/client.go:411-417 | By any other URL, it is the last element of the path. |
| `RequestMeaning.DigestWithoutAlgorithmPulls` | pkg/clients/helm/client.go:580-590 | For a digest without `:` no file is looked for, so every call pulls. |
| `VersionedCharts.LateInitThenLookup` | pkg/clients/helm/client.go:383-434 | After the reconcile that first reached Helm with an open version, over every later run without edits, a chart given by repository and name is looked up by the name and version it had instead of pulled as the latest, and one given by URL is planned as before. |
| `UntaggedUrls.UntaggedNeverAgreesAgain` | pkg/clients/helm/client.go:404-411 | A chart given by an untagged OCI URL is always pulled as the latest, but its pinned version is compared: once the registry serves another, every Observe finds drift and every reconcile upgrades, also when every upgrade succeeds. |
| `UntaggedUrls.UntaggedAgreesIff` | pkg/clients/helm/client.go:404-411 | With everything else in sync the version decides: the latest chart is left alone for ever if the spec accepts its version, and deployed at every reconcile if not. |
| `VersionedCharts.ChartFilesCollideIff` | pkg/clients/helm/client.go:567-570 | Two charts share a cache file exactly if name and version joined by `-` are the same text. |
| `VersionedCharts.ReleaseVersionsDoNotCollide` | pkg/clients/helm/client.go:567-570 | Versions without `-` tell all charts apart. |
| `VersionedCharts.PreReleasesCollide` | pkg/clients/helm/client.go:567-570 | A version with `-` can be read as part of the name of another chart. |
| `VersionedCharts.RepositoryNotInKey` | pkg/clients/helm/client.go:323-342 | With the file in the cache, the chart loaded does not depend on the repository in the spec. |
| `VersionedCharts.VersionedLoadIsFreshPull` | pkg/clients/helm/client.go:323-445 | Where one artifact alone is served under the file name, a load from any sound cache gives what a fresh pull leaves. |
| `VersionedCharts.VersionedLoadSucceedsIff` | pkg/clients/helm/client.go:323-445 | It succeeds exactly when the file can be looked for, no directory is in its place, it is there or the pull works, and the loader accepts it. |
| `CacheProtocol.CacheSafety` | pkg/clients/helm/client.go:226-250 | In every interleaving of any number of pulls, crashes included, every regular file at the top of the cache is a complete artifact served under its name, and the temporary directories of pulls at work stay apart. |
| `CacheProtocol.RenamePossibleIff` | pkg/clients/helm/client.go:240-249 | A checked pull can rename its file exactly if no directory is in the way. |
| `CacheProtocol.OnlyRenamePublishes` | pkg/clients/helm/client.go:226-250 | A successful rename publishes exactly the file that was checked; no other step changes a top-level file. |
| `CacheProtocol.FailedPullChangesNothing` | pkg/clients/helm/client.go:226-250 | A pull that ends neither published nor crashed has changed no top-level file in any run. |
| `CacheProtocol.PublishedFilesStay` | pkg/clients/helm/client.go:226-250 | A file at the top of the cache stays over every later run. |
| `CacheProtocol.SuccessLasts` | pkg/clients/helm/client.go:226-250 | A pull that succeeded finds its file, complete and served under its name, at every later point; PullProgress.PullCompletes shows how it gets there. |
| `CacheProtocol.StartIsSafe` | pkg/clients/helm/client.go:226-231 | Pulls not yet started leave every sound cache a state to start from. |
| `PullProgress.CheckSingleIff` | pkg/clients/helm/client.go:210-222 | The check goes on with `n` exactly if `n` is all the directory holds, and fails exactly if it does not hold one entry; it changes nothing else. |
| `PullProgress.PullCompletes` | pkg/clients/helm/client.go:226-250 | From any state of any number of pulls, a pull that leaves one file, with no directory in its place, can go through all its steps, and then exactly that file is published, the pull has succeeded and its directory is gone. |
| `PullProgress.FailedPullCleansUp` | pkg/clients/helm/client.go:231-239 | A pull that Helm fails ends with the cache as it was, whatever Helm had written. |
| `PullProgress.UnexpectedContentCleansUp` | pkg/clients/helm/client.go:210-222 | So does one that left no file or several. |
| `PullProgress.BlockedRenameCleansUp` | pkg/clients/helm/client.go:241-249 | So does one whose file has a directory in its place. |
| `PullProgress.NoDirectoryFails` | pkg/clients/helm/client.go:227-230 | One for which no directory can be made fails and changes nothing. |
| `PullProgress.CrashLeavesDirectory` | pkg/clients/helm/client.go:231-235 | One that stops for ever leaves its directory with what is in it. |
| `PullProgress.StepsPublish` | pkg/clients/helm/client.go:226-250 | For every outcome of Helm the steps can end in exactly the cache and the result that the pull as one action has. |
| `CacheHistory.PullsLinearize` | pkg/clients/helm/client.go:226-250 | Every interleaving leaves the top-level files that its publications, one after the other in the order of the renames, leave. |
| `CacheHistory.PublishesOnce` | pkg/clients/helm/client.go:240-249 | A pull publishes at most once, exactly once under its name if it succeeds, and not at all if it fails. |
| `CacheHistory.PublishesServed` | pkg/clients/helm/client.go:212-249 | Only complete artifacts are published, under names they are served under. |
| `ConcurrentLoads.LoadsAreServed` | pkg/clients/helm/client.go:354-450 | In every interleaving of whole calls, what a call has loaded was served under a file name it may arrive at, and a file it is about to load is there. |
| `ConcurrentLoads.LoadFailsIff` | pkg/clients/helm/client.go:439-447 | A call about to load fails exactly if the loader does not accept the file: no other call removes it or shows it half written. |
| `CallProgress.LookIff` | pkg/clients/helm/client.go:323-342 | A look at the cache finds the file exactly if it is there as a file, misses it exactly if nothing is there, and gives up otherwise. |
| `CallProgress.HitLoads` | pkg/clients/helm/client.go:323-447 | A call whose file is there, next to any others, can go on to load it and changes nothing. |
| `CallProgress.MissLoads` | pkg/clients/helm/client.go:323-447 | A call whose file is missing can go on to pull, publish and load what Helm leaves. |
| `CallProgress.LatestLoads` | pkg/clients/helm/client.go:383-447 | So can a call for the latest chart, which looks again for what it pulled. |
| `ChartClient.Client.constructor` | pkg/clients/helm/client.go:122-202 | A new client has empty pull settings. |
| `ChartClient.Client.PullChart` | pkg/clients/helm/client.go:252-299 | Setting the fields of the pull client step by step ends in the reference and settings of `Request`, in exactly one call of Helm with them or an error before it, and in what Helm leaves; RequestMeaning says which chart those ask for. |
| `ChartClient.Client.PullChartToCache` | pkg/clients/helm/client.go:226-250 | One pull without interference: the single file left, and only it, moves into the cache; any other outcome leaves the cache as it was. |
| `ChartClient.Client.EnsureChartCached` | pkg/clients/helm/client.go:323-342 | A file found is used, a missing one is pulled, a directory or a failing check is an error. |
| `ChartClient.Client.PullAndLoadChart` | pkg/clients/helm/client.go:354-450 | The whole call changes cache and settings, asks Helm for exactly the pulls and returns the chart that `PrepareStep` and `LoadResult` say, on every path. |
| `ChartClient.PlannedIsRequested` | pkg/clients/helm/client.go:383-434 | A chart the lookup accepts, the pull accepts. |
| `CacheRefinement.PullsAtMostOnce` | pkg/clients/helm/client.go:383-445 | One call without interference pulls at most once; without a pull it loads a file that was in the cache and changes nothing, with one it loads the artifact pulled, whose file alone changed. |
| `CacheRefinement.LoadSucceedsIff` | pkg/clients/helm/client.go:323-450 | A load by a file name under which Helm leaves the wanted artifact succeeds exactly when the file can be looked for, no directory is in its place, it is there or the pull works, and the loader accepts it. |
| `CacheRefinement.LatestLoadSucceedsIff` | pkg/clients/helm/client.go:383-450 | A load of the latest chart succeeds exactly when the pull leaves one file, no directory is in its place, the file can be looked for and the loader accepts it; it gives that artifact. |
| `CacheRefinement.NoFileNamePulls` | pkg/clients/helm/client.go:323-330 | Without a file name to look for, the chart is pulled. |
| `CacheRefinement.CallKeepsCacheSound` | pkg/clients/helm/client.go:354-450 | A call keeps a sound cache sound, whatever is asked for. |
| `PinnedLoads.HelmsFileOfDigest` | pkg/clients/helm/client.go:580-590 | Helm's file for any reference pulled by digest carries that digest. |
| `PinnedLoads.RegistryIsHonest` | pkg/clients/helm/client.go:580-590 | If digest pulls leave the blob of the digest and other pulls leave no digest-style names, only that blob ever arrives under a digest's name. |
| `PinnedLoads.PinnedPlan` | pkg/clients/helm/client.go:383-436 | A digest-pinned chart is looked up by its digest name, and its pull asks for the digest. |
| `PinnedLoads.PinnedLoadIsFreshPull` | pkg/clients/helm/client.go:323-450 | From any cache with the right blobs under digest names, a digest-pinned load gives what a fresh pull by the digest leaves. |
| `PinnedLoads.PinnedLoadAfterAnyHistory` | pkg/clients/helm/client.go:323-450 | From an empty cache, after any calls for any charts from any such registries, it gives the blob of the digest. |
| `PinnedLoads.PinnedLoadSucceedsIff` | pkg/clients/helm/client.go:323-450 | A digest-pinned load succeeds exactly when the file can be looked for, no directory is in its place, it is there or the pull works, and the loader accepts the blob. |
| `PinnedLoads.PullsServeBlobs` | pkg/clients/helm/client.go:226-250 | Concurrent pulls of any requests from such registries leave only the right blobs under digest names. |
| `PinnedLoads.PinnedLoadAfterAnySchedule` | pkg/clients/helm/client.go:226-450 | So a pinned load after any interleaving of them, finished or not, gives the blob of its digest. |
| `PinnedLoads.PinnedLoadsInterleaved` | pkg/clients/helm/client.go:354-450 | Whole calls for any charts, their lookups, pulls and loads interleaved in any way: what a call pinned to a digest has loaded is the blob of that digest. |

## Left out

- `Setup`, `SetupGated`, `Connect` beyond the ownership flag, provider-config resolution, `cmd/provider`, metrics, probes and logging: wiring.
- Generated code, CRDs, examples: no behaviour to prove.
- Helm's actions, the chart loader, kustomize rendering, cloud keychains, registry login and credentials: answers from outside.
- Arguments passed through to Helm unchanged (wait, timeout, history, CRDs, TLS and HTTP options): they would only add easy members.
- crossplane-runtime's own gates (paused resources, policies that switch off create, update or delete), its finalizers and its requeueing.
- Runs.Reconcile: a late initialisation that could not be written is lost with the resource in memory; the status is stored in any case. Writes that the runtime itself makes between Observe and the action (finalizers, annotations) are not modelled.
- FailingHelm.BoundedRetry: holds where `Fits` does and Helm records each failure; RetryLimit.EveryReconcileDeploysIff and RetryLimit.UnrecordedDeploysIff have the exact conditions for failures that are recorded and that are not. Runs that mix both are covered by RetryAccounting only.
- NamespacedRelease.DeployAgrees: the namespaced controller is modelled as step functions, not as a second class with the same assignments.
- GoMaps.MergeMaps: maps inside lists are values here, so sharing below a list is not captured; neither are nil maps held as values.
- Compose.ComposeValuesFromSpec: uses the merge on values, to which GoMaps.MergeMaps relates the mutable maps; `strvals.ParseInto` is a partial function of text and values, not an update in place.
- Drift.InSyncIff: the semantic equality of the original also identifies nil and empty lists and maps; the model has one empty list and one empty map.
- Normalize.NormEqualIff: strings that are not valid UTF-8, which a JSON round trip changes, are not modelled.
- Patches.UpdateIffPatchesDiffer: case folding is that of ASCII letters.
- ConnectionDetails.Collect: field paths, printing and base64 are parameters.
- Text.Base and the other path functions: dot segments and the cleaning of paths are not modelled.
- References.ParsePrinted: percent-encoding, queries, fragments, user info and bracketed IPv6 hosts are not modelled; the digest check applies to `oci://` in lower case as in the original.
- CacheProtocol.CacheSafety: errors of reading the temporary directory count as a failed pull; failing to remove it is modelled, running out of disk space is a failed step.
- ChartClient.Client.PullAndLoadChart: the stat of a file either works or fails as a whole; the parsing of a plain URL that `url.Parse` rejects is not modelled.
- VersionedCharts.VersionedLoadIsFreshPull: holds only where the file name is served one artifact; RepositoryNotInKey shows why.
- `repoCredsFromSecret`: credentials are an answer from outside.
- LookupAgreement.RepositoryLookupMatchesPullIff: is about any text; the API admits only digests without blanks, for which PinnedLoads.PinnedPlan and ChartKeys.Sha256IsWellFormed apply.
- NamespacedRelease.ObserveAgrees: that Helm finds a release in the namespace it was made for is a hypothesis; NamespacedRelease.ObserveAgreesFor does without it.
- ConcurrentLoads.LoadsAreServed: one cache directory and one provider process; nobody else removes files from it.
