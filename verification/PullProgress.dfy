/**
 What the steps of a pull lead to when they follow one another, next to whatever other pulls are under way:
 the outcome of `pullChartToCache` taken as one action.
 */
module PullProgress {
  import opened Wrappers
  import opened CacheProtocol
  import opened ChartClient

  ghost predicate Leads(leaves: Leaves, s: System, schedule: Schedule, s': System) {
    Possible(leaves, s, schedule) && After(leaves, s, schedule) == s'
  }

  lemma {:induction false} LeadsFurther(leaves: Leaves, s: System, first: Schedule, s1: System, later: Schedule,
                                        s2: System)
    requires Leads(leaves, s, first, s1) && Leads(leaves, s1, later, s2)
    ensures Leads(leaves, s, first + later, s2)
    decreases |first|
  {
    if first == [] {
      assert first + later == later;
    } else {
      var all := first + later;
      assert all[0] == first[0] && all[1..] == first[1..] + later;
      LeadsFurther(leaves, Step(leaves, s, first[0].0, first[0].1), first[1..], s1, later, s2);
    }
  }

  lemma LeadsByStep(leaves: Leaves, s: System, i: nat, a: Action)
    requires Enabled(leaves, s, i, a)
    ensures Leads(leaves, s, [(i, a)], Step(leaves, s, i, a))
  {
    assert [(i, a)][1..] == [];
  }

  /** `s` with puller `i` in another phase. */
  function With(s: System, cache: map<string, Entry>, i: nat, p: Phase): System {
    System(cache, s.pullers[i := p])
  }

  /** One step of puller `i`, from `cache` and phase `p` to `cache'` and phase `p'`. */
  lemma StepTo(leaves: Leaves, s: System, i: nat, cache: map<string, Entry>, p: Phase, a: Action,
               cache': map<string, Entry>, p': Phase)
    requires Enabled(leaves, With(s, cache, i, p), i, a)
    requires Step(leaves, With(s, cache, i, p), i, a) == System(cache', s.pullers[i := p][i := p'])
    ensures Leads(leaves, With(s, cache, i, p), [(i, a)], With(s, cache', i, p'))
  {
    assert s.pullers[i := p][i := p'] == s.pullers[i := p'];
    LeadsByStep(leaves, With(s, cache, i, p), i, a);
  }

  /** The check goes on with a file exactly if it is the only one; it changes nothing else. */
  lemma CheckSingleIff(leaves: Leaves, s: System, i: nat, dir: string)
    requires i in s.pullers && s.pullers[i] == Pulled(dir) && dir in s.cache && s.cache[dir].Dir?
    ensures Enabled(leaves, s, i, CheckSingle)
    ensures var s' := Step(leaves, s, i, CheckSingle);
            s'.cache == s.cache && s'.pullers == s.pullers[i := s'.pullers[i]] &&
            (forall n :: s'.pullers[i] == Checked(dir, n) <==> s.cache[dir].files.Keys == {n}) &&
            (s'.pullers[i] == Aborted(dir) <==> |s.cache[dir].files| != 1)
  {
    var s' := Step(leaves, s, i, CheckSingle);
    var keys := s.cache[dir].files.Keys;
    forall n ensures s'.pullers[i] == Checked(dir, n) <==> keys == {n} {
      if keys == {n} {
        assert |keys| == 1 && n in {TheName(s.cache[dir].files)};
      }
    }
  }

  /** A temporary directory, and what Helm leaves in it. */
  lemma Fills(leaves: Leaves, s: System, i: nat, dir: string, files: map<string, Content>, ok: bool)
    requires i in s.pullers && s.pullers[i].Ready? && dir !in s.cache && (ok ==> leaves(i, files))
    ensures Leads(leaves, s, [(i, MakeDir(dir)), (i, Write(files)), (i, PullReturns(ok))],
                  With(s, s.cache[dir := Dir(files)], i, if ok then Pulled(dir) else Aborted(dir)))
  {
    var made, full := s.cache[dir := Dir(map[])], s.cache[dir := Dir(files)];
    var end := if ok then Pulled(dir) else Aborted(dir);
    assert s == With(s, s.cache, i, Ready);
    assert made[dir := Dir(files)] == full;
    StepTo(leaves, s, i, s.cache, Ready, MakeDir(dir), made, Pulling(dir));
    var x := With(s, made, i, Pulling(dir));
    assert Step(leaves, x, i, Write(files)).pullers == s.pullers[i := Pulling(dir)][i := Pulling(dir)];
    StepTo(leaves, s, i, made, Pulling(dir), Write(files), full, Pulling(dir));
    StepTo(leaves, s, i, full, Pulling(dir), PullReturns(ok), full, end);
    LeadsFurther(leaves, s, [(i, MakeDir(dir))], x, [(i, Write(files))], With(s, full, i, Pulling(dir)));
    LeadsFurther(leaves, s, [(i, MakeDir(dir))] + [(i, Write(files))], With(s, full, i, Pulling(dir)),
                 [(i, PullReturns(ok))], With(s, full, i, end));
    assert [(i, MakeDir(dir))] + [(i, Write(files))] + [(i, PullReturns(ok))] ==
           [(i, MakeDir(dir)), (i, Write(files)), (i, PullReturns(ok))];
  }

  lemma CleansUp(leaves: Leaves, s: System, i: nat, dir: string, files: map<string, Content>)
    requires i in s.pullers && dir !in s.cache
    ensures Leads(leaves, With(s, s.cache[dir := Dir(files)], i, Aborted(dir)), [(i, Remove(true))],
                  With(s, s.cache, i, Failed))
  {
    assert s.cache[dir := Dir(files)] - {dir} == s.cache;
    StepTo(leaves, s, i, s.cache[dir := Dir(files)], Aborted(dir), Remove(true), s.cache, Failed);
  }

  /** A pull that leaves one file, with no directory in its place, ends with exactly that file published and
      its own directory gone. */
  lemma PullCompletes(leaves: Leaves, s: System, i: nat, dir: string, n: string, a: Artifact)
    requires i in s.pullers && s.pullers[i].Ready? && dir !in s.cache && n != dir
    requires !(n in s.cache && s.cache[n].Dir?) && leaves(i, map[n := Complete(a)])
    ensures Leads(leaves, s,
                  [(i, MakeDir(dir)), (i, Write(map[n := Complete(a)])), (i, PullReturns(true)), (i, CheckSingle),
                   (i, Rename(true)), (i, Remove(true))],
                  System(s.cache[n := File(Complete(a))], s.pullers[i := Succeeded(n)]))
  {
    var files := map[n := Complete(a)];
    var full := s.cache[dir := Dir(files)];
    var first := [(i, MakeDir(dir)), (i, Write(files)), (i, PullReturns(true))];
    Fills(leaves, s, i, dir, files, true);
    ChecksSingle(leaves, s, i, dir, n, a);
    Renames(leaves, s, i, dir, n, a);
    LeadsFurther(leaves, s, first, With(s, full, i, Pulled(dir)), [(i, CheckSingle)],
      With(s, full, i, Checked(dir, n)));
    LeadsFurther(leaves, s, first + [(i, CheckSingle)], With(s, full, i, Checked(dir, n)),
                 [(i, Rename(true)), (i, Remove(true))], With(s, s.cache[n := File(Complete(a))], i, Succeeded(n)));
    assert first + [(i, CheckSingle)] + [(i, Rename(true)), (i, Remove(true))] ==
           [(i, MakeDir(dir)), (i, Write(files)), (i, PullReturns(true)), (i, CheckSingle), (i, Rename(true)),
            (i, Remove(true))];
  }

  lemma ChecksSingle(leaves: Leaves, s: System, i: nat, dir: string, n: string, a: Artifact)
    requires i in s.pullers
    ensures var full := s.cache[dir := Dir(map[n := Complete(a)])];
            Leads(leaves, With(s, full, i, Pulled(dir)), [(i, CheckSingle)], With(s, full, i, Checked(dir, n)))
  {
    var full := s.cache[dir := Dir(map[n := Complete(a)])];
    var x := With(s, full, i, Pulled(dir));
    CheckSingleIff(leaves, x, i, dir);
    assert x.cache[dir].files.Keys == {n};
    StepTo(leaves, s, i, full, Pulled(dir), CheckSingle, full, Checked(dir, n));
  }

  lemma Renames(leaves: Leaves, s: System, i: nat, dir: string, n: string, a: Artifact)
    requires i in s.pullers && dir !in s.cache && n != dir && !(n in s.cache && s.cache[n].Dir?)
    ensures Leads(leaves, With(s, s.cache[dir := Dir(map[n := Complete(a)])], i, Checked(dir, n)),
                  [(i, Rename(true)), (i, Remove(true))], With(s, s.cache[n := File(Complete(a))], i, Succeeded(n)))
  {
    var full := s.cache[dir := Dir(map[n := Complete(a)])];
    var moved := full[dir := Dir(map[])][n := File(Complete(a))];
    assert map[n := Complete(a)] - {n} == map[];
    assert moved - {dir} == s.cache[n := File(Complete(a))];
    StepTo(leaves, s, i, full, Checked(dir, n), Rename(true), moved, Renamed(dir, n));
    StepTo(leaves, s, i, moved, Renamed(dir, n), Remove(true), s.cache[n := File(Complete(a))], Succeeded(n));
    LeadsFurther(leaves, With(s, full, i, Checked(dir, n)), [(i, Rename(true))], With(s, moved, i, Renamed(dir, n)),
                 [(i, Remove(true))], With(s, s.cache[n := File(Complete(a))], i, Succeeded(n)));
    assert [(i, Rename(true))] + [(i, Remove(true))] == [(i, Rename(true)), (i, Remove(true))];
  }

  // ---------- Pulls that fail ----------

  /** A pull that Helm fails leaves nothing behind, whatever it had written. */
  lemma FailedPullCleansUp(leaves: Leaves, s: System, i: nat, dir: string, files: map<string, Content>)
    requires i in s.pullers && s.pullers[i].Ready? && dir !in s.cache
    ensures Leads(leaves, s,
                  [(i, MakeDir(dir)), (i, Write(files)), (i, PullReturns(false)), (i, Remove(true))],
                  System(s.cache, s.pullers[i := Failed]))
  {
    var first := [(i, MakeDir(dir)), (i, Write(files)), (i, PullReturns(false))];
    Fills(leaves, s, i, dir, files, false);
    CleansUp(leaves, s, i, dir, files);
    LeadsFurther(leaves, s, first, With(s, s.cache[dir := Dir(files)], i, Aborted(dir)), [(i, Remove(true))],
                 With(s, s.cache, i, Failed));
    assert first + [(i, Remove(true))] ==
           [(i, MakeDir(dir)), (i, Write(files)), (i, PullReturns(false)), (i, Remove(true))];
  }

  /** So does one that left no file or several. */
  lemma UnexpectedContentCleansUp(leaves: Leaves, s: System, i: nat, dir: string, files: map<string, Content>)
    requires i in s.pullers && s.pullers[i].Ready? && dir !in s.cache && leaves(i, files) && |files| != 1
    ensures Leads(leaves, s,
                  [(i, MakeDir(dir)), (i, Write(files)), (i, PullReturns(true)), (i, CheckSingle), (i, Remove(true))],
                  System(s.cache, s.pullers[i := Failed]))
  {
    var full := s.cache[dir := Dir(files)];
    var first := [(i, MakeDir(dir)), (i, Write(files)), (i, PullReturns(true))];
    Fills(leaves, s, i, dir, files, true);
    CheckSingleIff(leaves, With(s, full, i, Pulled(dir)), i, dir);
    StepTo(leaves, s, i, full, Pulled(dir), CheckSingle, full, Aborted(dir));
    CleansUp(leaves, s, i, dir, files);
    LeadsFurther(leaves, s, first, With(s, full, i, Pulled(dir)), [(i, CheckSingle)], With(s, full, i, Aborted(dir)));
    LeadsFurther(leaves, s, first + [(i, CheckSingle)], With(s, full, i, Aborted(dir)), [(i, Remove(true))],
                 With(s, s.cache, i, Failed));
    assert first + [(i, CheckSingle)] + [(i, Remove(true))] ==
           [(i, MakeDir(dir)), (i, Write(files)), (i, PullReturns(true)), (i, CheckSingle), (i, Remove(true))];
  }

  /** And one whose file cannot take its place, because a directory is there. */
  lemma BlockedRenameCleansUp(leaves: Leaves, s: System, i: nat, dir: string, n: string, a: Artifact)
    requires i in s.pullers && s.pullers[i].Ready? && dir !in s.cache && leaves(i, map[n := Complete(a)])
    ensures Leads(leaves, s,
                  [(i, MakeDir(dir)), (i, Write(map[n := Complete(a)])), (i, PullReturns(true)), (i, CheckSingle),
                   (i, Rename(false)), (i, Remove(true))],
                  System(s.cache, s.pullers[i := Failed]))
  {
    var files := map[n := Complete(a)];
    var full := s.cache[dir := Dir(files)];
    var first := [(i, MakeDir(dir)), (i, Write(files)), (i, PullReturns(true))];
    var checked := With(s, full, i, Checked(dir, n));
    Fills(leaves, s, i, dir, files, true);
    ChecksSingle(leaves, s, i, dir, n, a);
    StepTo(leaves, s, i, full, Checked(dir, n), Rename(false), full, Aborted(dir));
    CleansUp(leaves, s, i, dir, files);
    LeadsFurther(leaves, s, first, With(s, full, i, Pulled(dir)), [(i, CheckSingle)], checked);
    LeadsFurther(leaves, s, first + [(i, CheckSingle)], checked, [(i, Rename(false))], With(s, full, i, Aborted(dir)));
    LeadsFurther(leaves, s, first + [(i, CheckSingle)] + [(i, Rename(false))], With(s, full, i, Aborted(dir)),
                 [(i, Remove(true))], With(s, s.cache, i, Failed));
    assert first + [(i, CheckSingle)] + [(i, Rename(false))] + [(i, Remove(true))] ==
           [(i, MakeDir(dir)), (i, Write(files)), (i, PullReturns(true)), (i, CheckSingle), (i, Rename(false)),
            (i, Remove(true))];
  }

  /** And one for which no directory could be made. */
  lemma NoDirectoryFails(leaves: Leaves, s: System, i: nat)
    requires i in s.pullers && s.pullers[i].Ready?
    ensures Leads(leaves, s, [(i, MakeDirFails)], System(s.cache, s.pullers[i := Failed]))
  {
    LeadsByStep(leaves, s, i, MakeDirFails);
  }

  /** A pull that stops for ever leaves its directory with what is in it. */
  lemma CrashLeavesDirectory(leaves: Leaves, s: System, i: nat)
    requires i in s.pullers && Holds(s.pullers[i])
    requires s.pullers[i].dir in s.cache && s.cache[s.pullers[i].dir].Dir?
    ensures Leads(leaves, s, [(i, Crash)], System(s.cache, s.pullers[i := Crashed]))
  {
    LeadsByStep(leaves, s, i, Crash);
  }

  // ---------- The pull as one action ----------

  /** The directory holds what the pull deposited. */
  ghost predicate Holding(files: map<string, Content>, outcome: PullOutcome) {
    outcome.Deposited? ==>
      |files| == |outcome.files| && forall f | f in outcome.files :: f.0 in files && files[f.0] == Complete(f.1)
  }

  lemma OnlyFile(files: map<string, Content>, outcome: PullOutcome)
    requires Holding(files, outcome) && outcome.Deposited? && |outcome.files| == 1
    ensures files == map[outcome.files[0].0 := Complete(outcome.files[0].1)]
  {
    var f := outcome.files[0];
    assert f in outcome.files;
    assert |files.Keys - {f.0}| == 0;
  }

  /** Every outcome of Helm has steps that end in what the client's method does at once: the same cache, and
      success with the same file or failure. */
  lemma StepsPublish(leaves: Leaves, s: System, i: nat, dir: string, files: map<string, Content>, outcome: PullOutcome)
    returns (schedule: Schedule)
    requires i in s.pullers && s.pullers[i].Ready? && dir !in s.cache && dir !in files && Holding(files, outcome)
    requires outcome.Deposited? ==> leaves(i, files)
    ensures var (cache', r) := Publish(s.cache, outcome);
            Leads(leaves, s, schedule, System(cache', s.pullers[i := if r.Ok? then Succeeded(r.value) else Failed]))
  {
    if outcome.NotPulled? {
      FailedPullCleansUp(leaves, s, i, dir, files);
      schedule := [(i, MakeDir(dir)), (i, Write(files)), (i, PullReturns(false)), (i, Remove(true))];
    } else if |outcome.files| != 1 {
      UnexpectedContentCleansUp(leaves, s, i, dir, files);
      schedule := [(i, MakeDir(dir)), (i, Write(files)), (i, PullReturns(true)), (i, CheckSingle), (i, Remove(true))];
    } else {
      var (n, a) := outcome.files[0];
      OnlyFile(files, outcome);
      assert n in files;
      if n in s.cache && s.cache[n].Dir? {
        BlockedRenameCleansUp(leaves, s, i, dir, n, a);
        schedule := [(i, MakeDir(dir)), (i, Write(files)), (i, PullReturns(true)), (i, CheckSingle), (i, Rename(false)),
                     (i, Remove(true))];
      } else {
        PullCompletes(leaves, s, i, dir, n, a);
        schedule := [(i, MakeDir(dir)), (i, Write(files)), (i, PullReturns(true)), (i, CheckSingle), (i, Rename(true)),
                     (i, Remove(true))];
      }
    }
  }
}
