/**
 The chart cache shared by concurrent pulls. Each `pullChartToCache` is split into its steps: make a
 temporary directory in the cache, let Helm write into it, check that it holds one file, rename that
 file into the cache, remove the directory. Any number of pulls interleave in any way, and any of
 them may stop for ever at any step.

 `leaves(i, files)` says that `files` is what Helm may leave in the directory of pull `i` when it returns
 without error; `served(n, a)` that `a` is a complete artifact Helm writes under the file name `n`.
 */
module CacheProtocol {
  datatype Artifact = Artifact(bytes: string)

  datatype Content = Partial | Complete(artifact: Artifact)

  /** An entry of the cache directory. */
  datatype Entry = File(content: Content) | Dir(files: map<string, Content>)

  type Served = (string, Artifact) -> bool

  type Leaves = (nat, map<string, Content>) -> bool

  datatype Phase =
    | Ready
    | Pulling(dir: string)
    | Pulled(dir: string)
    | Checked(dir: string, name: string)
    | Renamed(dir: string, name: string)
    | Aborted(dir: string)
    | Succeeded(name: string)
    | Failed
    | Crashed

  datatype System = System(cache: map<string, Entry>, pullers: map<nat, Phase>)

  datatype Action =
    | MakeDir(dir: string)
    | MakeDirFails
    | Write(files: map<string, Content>)   // Helm leaves the directory with these files, partial or not
    | PullReturns(ok: bool)
    | CheckSingle
    | Rename(ok: bool)
    | Remove(ok: bool)
    | Crash

  /** The directory a puller still has to itself. */
  predicate Holds(p: Phase) {
    p.Pulling? || p.Pulled? || p.Checked? || p.Renamed? || p.Aborted?
  }

  ghost predicate AllServed(served: Served, files: map<string, Content>) {
    forall n | n in files :: files[n].Complete? && served(n, files[n].artifact)
  }

  /** Every pull leaves only complete artifacts under names they are served under. */
  ghost predicate PullsServe(leaves: Leaves, served: Served) {
    forall i: nat, files: map<string, Content> | leaves(i, files) :: AllServed(served, files)
  }

  /** When puller `i` can take the action. MkdirTemp picks an unused name; while Helm writes, the directory
      may hold anything, and when it returns without error, what Helm leaves; a rename onto a directory
      fails. */
  ghost predicate Enabled(leaves: Leaves, s: System, i: nat, a: Action) {
    i in s.pullers &&
    var p := s.pullers[i];
    (Holds(p) ==> p.dir in s.cache && s.cache[p.dir].Dir?) &&
    match a
    case MakeDir(dir) => p.Ready? && dir !in s.cache
    case MakeDirFails => p.Ready?
    case Write(_) => p.Pulling?
    case PullReturns(ok) => p.Pulling? && (ok ==> leaves(i, s.cache[p.dir].files))
    case CheckSingle => p.Pulled?
    case Rename(ok) =>
      p.Checked? && p.name in s.cache[p.dir].files && (ok ==> p.name !in s.cache || s.cache[p.name].File?)
    case Remove(_) => p.Renamed? || p.Aborted?
    case Crash => !p.Succeeded? && !p.Failed? && !p.Crashed?
  }

  predicate Single(files: map<string, Content>) {
    |files| == 1
  }

  ghost function TheName(files: map<string, Content>): string
    requires Single(files)
    ensures files.Keys == {TheName(files)}
  {
    var n :| n in files;
    assert |files.Keys - {n}| == 0;
    n
  }

  /** The state after puller `i` takes an enabled action. */
  ghost function Step(leaves: Leaves, s: System, i: nat, a: Action): System
    requires Enabled(leaves, s, i, a)
  {
    var p := s.pullers[i];
    match a
    case MakeDir(dir) => System(s.cache[dir := Dir(map[])], s.pullers[i := Pulling(dir)])
    case MakeDirFails => s.(pullers := s.pullers[i := Failed])
    case Write(files) => s.(cache := s.cache[p.dir := Dir(files)])
    case PullReturns(ok) => s.(pullers := s.pullers[i := if ok then Pulled(p.dir) else Aborted(p.dir)])
    case CheckSingle =>
      var files := s.cache[p.dir].files;
      s.(pullers := s.pullers[i := if Single(files) then Checked(p.dir, TheName(files)) else Aborted(p.dir)])
    case Rename(ok) =>
      if !ok then s.(pullers := s.pullers[i := Aborted(p.dir)])
      else
        var files := s.cache[p.dir].files;
        System(s.cache[p.dir := Dir(files - {p.name})][p.name := File(files[p.name])],
               s.pullers[i := Renamed(p.dir, p.name)])
    case Remove(ok) =>
      System(if ok then s.cache - {p.dir} else s.cache,
             s.pullers[i := if p.Renamed? then Succeeded(p.name) else Failed])
    case Crash => s.(pullers := s.pullers[i := Crashed])
  }

  type Schedule = seq<(nat, Action)>

  ghost predicate Possible(leaves: Leaves, s: System, schedule: Schedule)
    decreases |schedule|
  {
    schedule == [] ||
    (Enabled(leaves, s, schedule[0].0, schedule[0].1) &&
     Possible(leaves, Step(leaves, s, schedule[0].0, schedule[0].1), schedule[1..]))
  }

  ghost function After(leaves: Leaves, s: System, schedule: Schedule): System
    requires Possible(leaves, s, schedule)
    decreases |schedule|
  {
    if schedule == [] then s
    else After(leaves, Step(leaves, s, schedule[0].0, schedule[0].1), schedule[1..])
  }

  // ---------- Safety ----------

  /** Every regular file at the top of the cache is a complete artifact served under its name. */
  ghost predicate CacheSound(served: Served, cache: map<string, Entry>) {
    forall n | n in cache && cache[n].File? :: cache[n].content.Complete? && served(n, cache[n].content.artifact)
  }

  /** Pullers at work have a directory each, no two the same. */
  ghost predicate DirsDisjoint(s: System) {
    (forall i | i in s.pullers && Holds(s.pullers[i]) ::
      s.pullers[i].dir in s.cache && s.cache[s.pullers[i].dir].Dir?) &&
    forall i, j | i in s.pullers && j in s.pullers && i != j && Holds(s.pullers[i]) && Holds(s.pullers[j]) ::
      s.pullers[i].dir != s.pullers[j].dir
  }

  /** After Helm returned and until the rename, a puller's directory holds only complete artifacts, after
      the check exactly the one named. */
  ghost predicate DirsReady(served: Served, s: System) {
    forall i | i in s.pullers && (s.pullers[i].Pulled? || s.pullers[i].Checked?) ::
      var p := s.pullers[i];
      p.dir in s.cache && s.cache[p.dir].Dir? && AllServed(served, s.cache[p.dir].files) &&
      (p.Checked? ==> s.cache[p.dir].files.Keys == {p.name})
  }

  ghost predicate Inv(served: Served, s: System) {
    CacheSound(served, s.cache) && DirsDisjoint(s) && DirsReady(served, s)
  }

  lemma StepKeepsDirs(leaves: Leaves, served: Served, s: System, i: nat, a: Action)
    requires Inv(served, s) && Enabled(leaves, s, i, a)
    ensures DirsDisjoint(Step(leaves, s, i, a))
  {}

  lemma StepKeepsReady(leaves: Leaves, served: Served, s: System, i: nat, a: Action)
    requires PullsServe(leaves, served) && Inv(served, s) && Enabled(leaves, s, i, a)
    ensures DirsReady(served, Step(leaves, s, i, a))
  {}

  lemma StepKeepsSound(leaves: Leaves, served: Served, s: System, i: nat, a: Action)
    requires Inv(served, s) && Enabled(leaves, s, i, a)
    ensures CacheSound(served, Step(leaves, s, i, a).cache)
  {}

  lemma InvStep(leaves: Leaves, served: Served, s: System, i: nat, a: Action)
    requires PullsServe(leaves, served) && Inv(served, s) && Enabled(leaves, s, i, a)
    ensures Inv(served, Step(leaves, s, i, a))
  {
    StepKeepsDirs(leaves, served, s, i, a);
    StepKeepsReady(leaves, served, s, i, a);
    StepKeepsSound(leaves, served, s, i, a);
  }

  /** In every interleaving, the cache stays sound and the directories stay apart. */
  lemma {:induction false} CacheSafety(leaves: Leaves, served: Served, s: System, schedule: Schedule)
    requires PullsServe(leaves, served) && Inv(served, s) && Possible(leaves, s, schedule)
    ensures Inv(served, After(leaves, s, schedule))
    decreases |schedule|
  {
    if schedule != [] {
      var (i, a) := schedule[0];
      InvStep(leaves, served, s, i, a);
      CacheSafety(leaves, served, Step(leaves, s, i, a), schedule[1..]);
    }
  }

  /** Nothing but a directory in the way keeps a checked pull from renaming its file. */
  lemma RenamePossibleIff(leaves: Leaves, served: Served, s: System, i: nat)
    requires Inv(served, s) && i in s.pullers && s.pullers[i].Checked?
    ensures var n := s.pullers[i].name;
            Enabled(leaves, s, i, Rename(true)) <==> !(n in s.cache && s.cache[n].Dir?)
  {}

  // ---------- What a pull changes ----------

  /** The regular files at the top of the cache. */
  ghost function TopFiles(cache: map<string, Entry>): map<string, Content> {
    map n | n in cache && cache[n].File? :: cache[n].content
  }

  /** Only a successful rename changes them, and it publishes exactly the file that was checked. */
  lemma OnlyRenamePublishes(leaves: Leaves, served: Served, s: System, i: nat, a: Action)
    requires Inv(served, s) && Enabled(leaves, s, i, a)
    ensures var top, top' := TopFiles(s.cache), TopFiles(Step(leaves, s, i, a).cache);
            top' == if a == Rename(true)
                    then top[s.pullers[i].name := s.cache[s.pullers[i].dir].files[s.pullers[i].name]]
                    else top
  {}

  ghost predicate Published(p: Phase) {
    p.Renamed? || p.Succeeded?
  }

  /** No step of puller `i` changes a top-level file. */
  ghost predicate ChangesNothing(leaves: Leaves, s: System, schedule: Schedule, i: nat)
    requires Possible(leaves, s, schedule)
    decreases |schedule|
  {
    schedule == [] ||
    var s' := Step(leaves, s, schedule[0].0, schedule[0].1);
    (schedule[0].0 == i ==> TopFiles(s'.cache) == TopFiles(s.cache)) &&
    ChangesNothing(leaves, s', schedule[1..], i)
  }

  lemma PhaseMoves(leaves: Leaves, s: System, i: nat, j: nat, a: Action)
    requires Enabled(leaves, s, j, a) && i in s.pullers
    ensures var s' := Step(leaves, s, j, a);
            i in s'.pullers && (i != j ==> s'.pullers[i] == s.pullers[i]) &&
            (i == j ==> !Stopped(s'.pullers[i]) ==> !Stopped(s.pullers[i]) && a != Rename(true))
  {}

  /** Published or crashed: no later phase of a pull is another. */
  ghost predicate Stopped(p: Phase) {
    Published(p) || p.Crashed?
  }

  /** A pull that has neither published nor crashed at the end has changed no top-level file on the way;
      in particular, a failed one has not. */
  lemma {:induction false} FailedPullChangesNothing(leaves: Leaves, served: Served, s: System, schedule: Schedule,
                                                    i: nat)
    requires PullsServe(leaves, served) && Inv(served, s) && Possible(leaves, s, schedule) && i in s.pullers
    requires i in After(leaves, s, schedule).pullers ==> !Stopped(After(leaves, s, schedule).pullers[i])
    ensures !Stopped(s.pullers[i]) && ChangesNothing(leaves, s, schedule, i)
    decreases |schedule|
  {
    if schedule != [] {
      var (j, a) := schedule[0];
      var s1 := Step(leaves, s, j, a);
      InvStep(leaves, served, s, j, a);
      PhaseMoves(leaves, s, i, j, a);
      OnlyRenamePublishes(leaves, served, s, j, a);
      FailedPullChangesNothing(leaves, served, s1, schedule[1..], i);
    } else {
      assert After(leaves, s, schedule) == s;
    }
  }

  // ---------- What a pull leaves ----------

  /** A pull that has published finds its file at the top of the cache. */
  ghost predicate ResultsPresent(s: System) {
    forall i | i in s.pullers && Published(s.pullers[i]) ::
      s.pullers[i].name in s.cache && s.cache[s.pullers[i].name].File?
  }

  lemma StepKeepsFiles(leaves: Leaves, served: Served, s: System, i: nat, a: Action, n: string)
    requires Inv(served, s) && Enabled(leaves, s, i, a)
    requires n in s.cache && s.cache[n].File?
    ensures var c := Step(leaves, s, i, a).cache; n in c && c[n].File?
  {
    OnlyRenamePublishes(leaves, served, s, i, a);
    assert n in TopFiles(s.cache);
  }

  lemma StepKeepsResults(leaves: Leaves, served: Served, s: System, i: nat, a: Action)
    requires Inv(served, s) && ResultsPresent(s) && Enabled(leaves, s, i, a)
    ensures ResultsPresent(Step(leaves, s, i, a))
  {
    var s' := Step(leaves, s, i, a);
    forall j | j in s'.pullers && Published(s'.pullers[j])
      ensures s'.pullers[j].name in s'.cache && s'.cache[s'.pullers[j].name].File?
    {
      if j in s.pullers && Published(s.pullers[j]) {
        StepKeepsFiles(leaves, served, s, i, a, s.pullers[j].name);
      }
    }
  }

  /** Whatever happens later, a file at the top of the cache stays. */
  lemma {:induction false} PublishedFilesStay(leaves: Leaves, served: Served, s: System, schedule: Schedule, n: string)
    requires PullsServe(leaves, served) && Inv(served, s) && ResultsPresent(s) && Possible(leaves, s, schedule)
    ensures var s' := After(leaves, s, schedule);
            ResultsPresent(s') &&
            (n in s.cache && s.cache[n].File? ==> n in s'.cache && s'.cache[n].File?)
    decreases |schedule|
  {
    if schedule != [] {
      var (i, a) := schedule[0];
      InvStep(leaves, served, s, i, a);
      StepKeepsResults(leaves, served, s, i, a);
      if n in s.cache && s.cache[n].File? {
        StepKeepsFiles(leaves, served, s, i, a, n);
      }
      PublishedFilesStay(leaves, served, Step(leaves, s, i, a), schedule[1..], n);
    }
  }

  /** A pull that succeeded at some point has its file, complete, at every later point of every run; if one
      artifact alone is served under the name, the file is that artifact at both points. */
  lemma SuccessLasts(leaves: Leaves, served: Served, s: System, first: Schedule, later: Schedule, i: nat)
    requires PullsServe(leaves, served) && Inv(served, s) && ResultsPresent(s)
    requires Possible(leaves, s, first) && Possible(leaves, After(leaves, s, first), later)
    requires i in After(leaves, s, first).pullers && After(leaves, s, first).pullers[i].Succeeded?
    ensures var mid := After(leaves, s, first);
            var end := After(leaves, mid, later);
            var n := mid.pullers[i].name;
            n in mid.cache && mid.cache[n].File? && mid.cache[n].content.Complete? &&
            n in end.cache && end.cache[n].File? && end.cache[n].content.Complete? &&
            served(n, end.cache[n].content.artifact) &&
            ((forall a, b | served(n, a) && served(n, b) :: a == b) ==> end.cache[n] == mid.cache[n])
  {
    var mid := After(leaves, s, first);
    var n := mid.pullers[i].name;
    CacheSafety(leaves, served, s, first);
    PublishedFilesStay(leaves, served, s, first, n);
    CacheSafety(leaves, served, mid, later);
    PublishedFilesStay(leaves, served, mid, later, n);
  }

  /** Pulls that have not started leave every sound cache a state to start from. */
  lemma StartIsSafe(served: Served, s: System)
    requires CacheSound(served, s.cache) && forall i | i in s.pullers :: s.pullers[i].Ready?
    ensures Inv(served, s) && ResultsPresent(s)
  {}
}
