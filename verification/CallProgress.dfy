/** What a whole call leads to when nothing keeps it from going on, next to whatever other calls are under way. */
module CallProgress {
  import opened CacheProtocol
  import opened PullProgress
  import opened ConcurrentLoads

  ghost predicate Runs(leaves: Leaves, c: Calls, moves: Moves, c': Calls) {
    CanRun(leaves, c, moves) && AfterMoves(leaves, c, moves) == c'
  }

  lemma {:induction false} RunsFurther(leaves: Leaves, c: Calls, first: Moves, c1: Calls, later: Moves, c2: Calls)
    requires Runs(leaves, c, first, c1) && Runs(leaves, c1, later, c2)
    ensures Runs(leaves, c, first + later, c2)
    decreases |first|
  {
    if first == [] {
      assert first + later == later;
    } else {
      var all := first + later;
      assert all[0] == first[0] && all[1..] == first[1..] + later;
      RunsFurther(leaves, Moved(leaves, c, first[0].0, first[0].1), first[1..], c1, later, c2);
    }
  }

  lemma RunsByMove(leaves: Leaves, c: Calls, j: nat, m: Move)
    requires CanMove(leaves, c, j, m)
    ensures Runs(leaves, c, [(j, m)], Moved(leaves, c, j, m))
  {
    assert [(j, m)][1..] == [];
  }

  /** The steps of pull `j` as moves of call `j`. */
  function AsMoves(schedule: Schedule): Moves {
    seq(|schedule|, k requires 0 <= k < |schedule| => (schedule[k].0, Pull(schedule[k].1)))
  }

  lemma {:induction false} PullRuns(leaves: Leaves, c: Calls, j: nat, schedule: Schedule, s': System)
    requires j in c.readings && (c.readings[j].Latest? || c.readings[j].Missed?)
    requires Leads(leaves, c.sys, schedule, s') && forall k | 0 <= k < |schedule| :: schedule[k].0 == j
    ensures Runs(leaves, c, AsMoves(schedule), c.(sys := s'))
    decreases |schedule|
  {
    if schedule != [] {
      var s1 := Step(leaves, c.sys, j, schedule[0].1);
      var moves := AsMoves(schedule);
      assert moves[0] == (j, Pull(schedule[0].1)) && moves[1..] == AsMoves(schedule[1..]);
      PullRuns(leaves, c.(sys := s1), j, schedule[1..], s');
    }
  }

  /** What a look at the cache decides. */
  lemma LookIff(leaves: Leaves, c: Calls, j: nat, ok: bool)
    requires j in c.readings && c.readings[j].Looking?
    ensures CanMove(leaves, c, j, Look(ok))
    ensures var file := c.readings[j].file;
            var r := Moved(leaves, c, j, Look(ok)).readings[j];
            (r == Have(file) <==> ok && file in c.sys.cache && c.sys.cache[file].File?) &&
            (r == Missed <==> ok && file !in c.sys.cache) &&
            (r == GaveUp <==> !ok || (file in c.sys.cache && c.sys.cache[file].Dir?))
  {}

  /** A call that has a complete file loads it. */
  lemma HaveLoads(leaves: Leaves, c: Calls, j: nat, n: string, a: Artifact)
    requires j in c.readings && c.readings[j] == Have(n)
    requires n in c.sys.cache && c.sys.cache[n] == File(Complete(a))
    ensures Runs(leaves, c, [(j, Load(true))], c.(readings := c.readings[j := Loaded(n, a)]))
  {
    RunsByMove(leaves, c, j, Load(true));
  }

  /** A call whose file is in the cache loads it and changes nothing. */
  lemma HitLoads(leaves: Leaves, c: Calls, j: nat, file: string, a: Artifact)
    requires j in c.readings && c.readings[j] == Looking(file)
    requires file in c.sys.cache && c.sys.cache[file] == File(Complete(a))
    ensures Runs(leaves, c, [(j, Look(true)), (j, Load(true))], c.(readings := c.readings[j := Loaded(file, a)]))
  {
    var c1 := c.(readings := c.readings[j := Have(file)]);
    RunsByMove(leaves, c, j, Look(true));
    HaveLoads(leaves, c1, j, file, a);
    RunsFurther(leaves, c, [(j, Look(true))], c1, [(j, Load(true))],
      c1.(readings := c1.readings[j := Loaded(file, a)]));
    assert c1.readings[j := Loaded(file, a)] == c.readings[j := Loaded(file, a)];
    assert [(j, Look(true))] + [(j, Load(true))] == [(j, Look(true)), (j, Load(true))];
  }

  /** The state in which call `j` has pulled and published `n`. */
  function AfterPull(c: Calls, j: nat, n: string, a: Artifact): System {
    System(c.sys.cache[n := File(Complete(a))], c.sys.pullers[j := Succeeded(n)])
  }

  lemma PullsThrough(leaves: Leaves, c: Calls, j: nat, dir: string, n: string, a: Artifact) returns (moves: Moves)
    requires j in c.readings && (c.readings[j].Latest? || c.readings[j].Missed?)
    requires j in c.sys.pullers && c.sys.pullers[j].Ready? && dir !in c.sys.cache && n != dir
    requires !(n in c.sys.cache && c.sys.cache[n].Dir?) && leaves(j, map[n := Complete(a)])
    ensures Runs(leaves, c, moves, c.(sys := AfterPull(c, j, n, a)))
  {
    var schedule := [(j, MakeDir(dir)), (j, Write(map[n := Complete(a)])), (j, PullReturns(true)), (j, CheckSingle),
                     (j, Rename(true)), (j, Remove(true))];
    PullCompletes(leaves, c.sys, j, dir, n, a);
    PullRuns(leaves, c, j, schedule, AfterPull(c, j, n, a));
    moves := AsMoves(schedule);
  }

  /** A call whose file is missing pulls it and loads what it pulled. */
  lemma MissLoads(leaves: Leaves, c: Calls, j: nat, file: string, dir: string, n: string, a: Artifact)
    returns (moves: Moves)
    requires j in c.readings && c.readings[j] == Looking(file) && file !in c.sys.cache
    requires j in c.sys.pullers && c.sys.pullers[j].Ready? && dir !in c.sys.cache && n != dir
    requires !(n in c.sys.cache && c.sys.cache[n].Dir?) && leaves(j, map[n := Complete(a)])
    ensures Runs(leaves, c, moves, Calls(AfterPull(c, j, n, a), c.readings[j := Loaded(n, a)]))
  {
    var c1 := c.(readings := c.readings[j := Missed]);
    RunsByMove(leaves, c, j, Look(true));
    var pull := PullsThrough(leaves, c1, j, dir, n, a);
    var c2 := c1.(sys := AfterPull(c, j, n, a));
    var c3 := c2.(readings := c2.readings[j := Have(n)]);
    RunsFurther(leaves, c, [(j, Look(true))], c1, pull, c2);
    RunsByMove(leaves, c2, j, Take);
    RunsFurther(leaves, c, [(j, Look(true))] + pull, c2, [(j, Take)], c3);
    HaveLoads(leaves, c3, j, n, a);
    moves := [(j, Look(true))] + pull + [(j, Take)] + [(j, Load(true))];
    RunsFurther(leaves, c, [(j, Look(true))] + pull + [(j, Take)], c3, [(j, Load(true))],
                c3.(readings := c3.readings[j := Loaded(n, a)]));
    assert c3.readings[j := Loaded(n, a)] == c.readings[j := Loaded(n, a)];
  }

  /** A call for the latest chart pulls it, looks for it and loads it. */
  lemma LatestLoads(leaves: Leaves, c: Calls, j: nat, dir: string, n: string, a: Artifact) returns (moves: Moves)
    requires j in c.readings && c.readings[j].Latest?
    requires j in c.sys.pullers && c.sys.pullers[j].Ready? && dir !in c.sys.cache && n != dir
    requires !(n in c.sys.cache && c.sys.cache[n].Dir?) && leaves(j, map[n := Complete(a)])
    ensures Runs(leaves, c, moves, Calls(AfterPull(c, j, n, a), c.readings[j := Loaded(n, a)]))
  {
    var pull := PullsThrough(leaves, c, j, dir, n, a);
    var c1 := c.(sys := AfterPull(c, j, n, a));
    var c2 := c1.(readings := c1.readings[j := Looking(n)]);
    RunsByMove(leaves, c1, j, Take);
    RunsFurther(leaves, c, pull, c1, [(j, Take)], c2);
    HitLoads(leaves, c2, j, n, a);
    moves := pull + [(j, Take)] + [(j, Look(true)), (j, Load(true))];
    RunsFurther(leaves, c, pull + [(j, Take)], c2, [(j, Look(true)), (j, Load(true))],
                c2.(readings := c2.readings[j := Loaded(n, a)]));
    assert c2.readings[j := Loaded(n, a)] == c.readings[j := Loaded(n, a)];
  }
}
