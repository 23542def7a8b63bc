/**
 Whole `PullAndLoadChart` calls that interleave: each looks for its file, pulls it with the steps of
 `CacheProtocol` if it is missing, and loads it, while all the others do the same.

 `names(j, n)` says that call `j` may arrive at the file name `n`.
 */
module ConcurrentLoads {
  import opened CacheProtocol

  /** What a call that does not pull just now is about to do. */
  datatype Reading =
    | Latest                                  // pull first, then look for what was pulled
    | Looking(file: string)
    | Missed                                  // the file was missing: pull it
    | Have(name: string)                      // load this file
    | Loaded(name: string, artifact: Artifact)
    | GaveUp

  /** Call `j` pulls as puller `j`. */
  datatype Calls = Calls(sys: System, readings: map<nat, Reading>)

  datatype Move =
    | Pull(a: Action)
    | Take
    | Look(ok: bool)
    | Load(accepted: bool)

  type Names = (nat, string) -> bool

  ghost predicate CanMove(leaves: Leaves, c: Calls, j: nat, m: Move) {
    j in c.readings &&
    var r := c.readings[j];
    match m
    case Pull(a) => (r.Latest? || r.Missed?) && Enabled(leaves, c.sys, j, a)
    case Take => (r.Latest? || r.Missed?) && j in c.sys.pullers && c.sys.pullers[j].Succeeded?
    case Look(_) => r.Looking?
    case Load(_) => r.Have?
  }

  function LookAt(cache: map<string, Entry>, file: string, ok: bool): Reading {
    if !ok then GaveUp
    else if file !in cache then Missed
    else if cache[file].Dir? then GaveUp
    else Have(file)
  }

  function LoadFrom(cache: map<string, Entry>, name: string, accepted: bool): Reading {
    if accepted && name in cache && cache[name].File? && cache[name].content.Complete?
    then Loaded(name, cache[name].content.artifact)
    else GaveUp
  }

  ghost function Moved(leaves: Leaves, c: Calls, j: nat, m: Move): Calls
    requires CanMove(leaves, c, j, m)
  {
    var r := c.readings[j];
    match m
    case Pull(a) => c.(sys := Step(leaves, c.sys, j, a))
    case Take => c.(readings := c.readings[j := if r.Latest? then Looking(c.sys.pullers[j].name)
      else Have(c.sys.pullers[j].name)])
    case Look(ok) => c.(readings := c.readings[j := LookAt(c.sys.cache, r.file, ok)])
    case Load(accepted) => c.(readings := c.readings[j := LoadFrom(c.sys.cache, r.name, accepted)])
  }

  type Moves = seq<(nat, Move)>

  ghost predicate CanRun(leaves: Leaves, c: Calls, moves: Moves)
    decreases |moves|
  {
    moves == [] ||
    (CanMove(leaves, c, moves[0].0, moves[0].1) && CanRun(leaves, Moved(leaves, c, moves[0].0, moves[0].1), moves[1..]))
  }

  ghost function AfterMoves(leaves: Leaves, c: Calls, moves: Moves): Calls
    requires CanRun(leaves, c, moves)
    decreases |moves|
  {
    if moves == [] then c else AfterMoves(leaves, Moved(leaves, c, moves[0].0, moves[0].1), moves[1..])
  }

  // ---------- Invariants ----------

  /** Every pull leaves only names its call may arrive at. */
  ghost predicate PullsName(leaves: Leaves, names: Names) {
    forall i: nat, files: map<string, Content>, n: string | leaves(i, files) && n in files :: names(i, n)
  }

  ghost predicate PullersNamed(names: Names, s: System) {
    (forall i | i in s.pullers && s.pullers[i].Pulled? ::
      s.pullers[i].dir in s.cache && s.cache[s.pullers[i].dir].Dir? &&
      forall n | n in s.cache[s.pullers[i].dir].files :: names(i, n)) &&
    forall i | i in s.pullers && (s.pullers[i].Checked? || Published(s.pullers[i])) :: names(i, s.pullers[i].name)
  }

  /** A call looks for, has and has loaded only files it may arrive at; what it has is there, and what it
      loaded was served under its name. */
  ghost predicate ReadingSound(served: Served, names: Names, cache: map<string, Entry>, j: nat, r: Reading) {
    match r
    case Looking(file) => names(j, file)
    case Have(n) => names(j, n) && n in cache && cache[n].File?
    case Loaded(n, a) => names(j, n) && served(n, a)
    case _ => true
  }

  ghost predicate CallsSound(served: Served, names: Names, c: Calls) {
    Inv(served, c.sys) && ResultsPresent(c.sys) && PullersNamed(names, c.sys) &&
    forall j | j in c.readings :: ReadingSound(served, names, c.sys.cache, j, c.readings[j])
  }

  lemma StepKeepsNames(leaves: Leaves, served: Served, names: Names, s: System, i: nat, a: Action)
    requires PullsName(leaves, names) && Inv(served, s) && PullersNamed(names, s) && Enabled(leaves, s, i, a)
    ensures PullersNamed(names, Step(leaves, s, i, a))
  {}

  lemma PullKeepsReadings(leaves: Leaves, served: Served, names: Names, c: Calls, j: nat, a: Action)
    requires CallsSound(served, names, c) && Enabled(leaves, c.sys, j, a)
    ensures forall k | k in c.readings :: ReadingSound(served, names, Step(leaves, c.sys, j, a).cache, k, c.readings[k])
  {
    forall k | k in c.readings && c.readings[k].Have?
      ensures ReadingSound(served, names, Step(leaves, c.sys, j, a).cache, k, c.readings[k])
    {
      StepKeepsFiles(leaves, served, c.sys, j, a, c.readings[k].name);
    }
  }

  lemma MoveKeepsSound(leaves: Leaves, served: Served, names: Names, c: Calls, j: nat, m: Move)
    requires PullsServe(leaves, served) && PullsName(leaves, names)
    requires CallsSound(served, names, c) && CanMove(leaves, c, j, m)
    ensures CallsSound(served, names, Moved(leaves, c, j, m))
  {
    if m.Pull? {
      InvStep(leaves, served, c.sys, j, m.a);
      StepKeepsResults(leaves, served, c.sys, j, m.a);
      StepKeepsNames(leaves, served, names, c.sys, j, m.a);
      PullKeepsReadings(leaves, served, names, c, j, m.a);
    }
  }

  /** In every interleaving of any number of calls, whatever a call has loaded was served under a name it
      may arrive at. */
  lemma {:induction false} LoadsAreServed(leaves: Leaves, served: Served, names: Names, c: Calls, moves: Moves)
    requires PullsServe(leaves, served) && PullsName(leaves, names)
    requires CallsSound(served, names, c) && CanRun(leaves, c, moves)
    ensures CallsSound(served, names, AfterMoves(leaves, c, moves))
    decreases |moves|
  {
    if moves != [] {
      var (j, m) := moves[0];
      MoveKeepsSound(leaves, served, names, c, j, m);
      LoadsAreServed(leaves, served, names, Moved(leaves, c, j, m), moves[1..]);
    }
  }

  /** A call about to load fails only if the loader does not accept the file: no other call makes it
      disappear, and none shows it half written. */
  lemma LoadFailsIff(leaves: Leaves, served: Served, names: Names, c: Calls, j: nat, accepted: bool)
    requires CallsSound(served, names, c) && CanMove(leaves, c, j, Load(accepted))
    ensures Moved(leaves, c, j, Load(accepted)).readings[j] == GaveUp <==> !accepted
  {}

  /** Calls that have only made their plan. */
  lemma CallsStartSound(served: Served, names: Names, c: Calls)
    requires CacheSound(served, c.sys.cache) && forall i | i in c.sys.pullers :: c.sys.pullers[i].Ready?
    requires forall j | j in c.readings ::
               var r := c.readings[j];
               r.Latest? || r.Missed? || r.GaveUp? || (r.Looking? && names(j, r.file))
    ensures CallsSound(served, names, c)
  {
    StartIsSafe(served, c.sys);
  }
}
