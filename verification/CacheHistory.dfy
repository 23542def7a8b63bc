/**
 Concurrent pulls as a sequence of publications: whatever the interleaving, the files at the top of the
 cache are those at the start, overwritten by the published ones in the order of their renames.
 */
module CacheHistory {
  import opened CacheProtocol

  /** A file that a rename put into the cache. */
  datatype Publication = Publication(puller: nat, name: string, content: Content)

  ghost function Log(leaves: Leaves, s: System, schedule: Schedule): seq<Publication>
    requires Possible(leaves, s, schedule)
    decreases |schedule|
  {
    if schedule == [] then []
    else
      var (i, a) := schedule[0];
      var rest := Log(leaves, Step(leaves, s, i, a), schedule[1..]);
      if a == Rename(true)
      then [Publication(i, s.pullers[i].name, s.cache[s.pullers[i].dir].files[s.pullers[i].name])] + rest
      else rest
  }

  /** Publishing one after the other. */
  function Replay(top: map<string, Content>, log: seq<Publication>): map<string, Content>
    decreases |log|
  {
    if log == [] then top else Replay(top[log[0].name := log[0].content], log[1..])
  }

  function OfPuller(log: seq<Publication>, i: nat): seq<Publication> {
    if log == [] then []
    else (if log[0].puller == i then [log[0]] else []) + OfPuller(log[1..], i)
  }

  /** Every interleaving has the effect of its publications alone. */
  lemma {:induction false} PullsLinearize(leaves: Leaves, served: Served, s: System, schedule: Schedule)
    requires PullsServe(leaves, served) && Inv(served, s) && Possible(leaves, s, schedule)
    ensures TopFiles(After(leaves, s, schedule).cache) == Replay(TopFiles(s.cache), Log(leaves, s, schedule))
    decreases |schedule|
  {
    if schedule != [] {
      var (i, a) := schedule[0];
      var s1 := Step(leaves, s, i, a);
      InvStep(leaves, served, s, i, a);
      OnlyRenamePublishes(leaves, served, s, i, a);
      PullsLinearize(leaves, served, s1, schedule[1..]);
      var rest := Log(leaves, s1, schedule[1..]);
      if a == Rename(true) {
        assert Log(leaves, s, schedule)[1..] == rest;
      }
    }
  }

  /** Only complete artifacts are published, under names they are served under. */
  lemma {:induction false} PublishesServed(leaves: Leaves, served: Served, s: System, schedule: Schedule)
    requires PullsServe(leaves, served) && Inv(served, s) && Possible(leaves, s, schedule)
    ensures forall e | e in Log(leaves, s, schedule) :: e.content.Complete? && served(e.name, e.content.artifact)
    decreases |schedule|
  {
    if schedule != [] {
      InvStep(leaves, served, s, schedule[0].0, schedule[0].1);
      PublishesServed(leaves, served, Step(leaves, s, schedule[0].0, schedule[0].1), schedule[1..]);
    }
  }

  /** How one step moves the phase of its own puller. */
  lemma OwnStep(leaves: Leaves, s: System, i: nat, a: Action)
    requires Enabled(leaves, s, i, a)
    ensures var p, p' := s.pullers[i], Step(leaves, s, i, a).pullers[i];
            !p.Crashed? &&
            if Published(p) then a != Rename(true) && (p'.Crashed? || (Published(p') && p'.name == p.name))
            else if a == Rename(true) then Published(p') && p'.name == p.name
            else !Published(p')
  {}

  /** What a pull that moved from one phase to another may have published: once it has published or
      crashed nothing more; before, at most one file, exactly one under its name if it has published at
      the end, and none if it has neither published nor crashed at the end. */
  ghost predicate OnceBetween(start: Phase, end: Phase, mine: seq<Publication>) {
    if start.Crashed? then end.Crashed? && mine == []
    else if Published(start) then mine == [] && (end.Crashed? || (Published(end) && end.name == start.name))
    else |mine| <= 1 && (Published(end) ==> |mine| == 1 && mine[0].name == end.name) && (!Stopped(end) ==> mine == [])
  }

  lemma ExtendOnce(start: Phase, mid: Phase, end: Phase, first: seq<Publication>, rest: seq<Publication>, name: string)
    requires OnceBetween(mid, end, rest) && !start.Crashed?
    requires if Published(start) then first == [] && (mid.Crashed? || (Published(mid) && mid.name == start.name))
             else if first == [] then !Published(mid)
             else |first| == 1 && first[0].name == name && Published(mid) && mid.name == name
    ensures OnceBetween(start, end, first + rest)
  {}

  /** A pull publishes at most once, and exactly once if it succeeds. */
  lemma {:induction false} PublishesOnce(leaves: Leaves, s: System, schedule: Schedule, i: nat)
    requires Possible(leaves, s, schedule) && i in s.pullers
    ensures i in After(leaves, s, schedule).pullers
    ensures OnceBetween(s.pullers[i], After(leaves, s, schedule).pullers[i], OfPuller(Log(leaves, s, schedule), i))
    decreases |schedule|
  {
    if schedule != [] {
      var (j, a) := schedule[0];
      var s1 := Step(leaves, s, j, a);
      PhaseMoves(leaves, s, i, j, a);
      PublishesOnce(leaves, s1, schedule[1..], i);
      OwnStep(leaves, s, j, a);
      var rest := OfPuller(Log(leaves, s1, schedule[1..]), i);
      LogOfStep(leaves, s, schedule, i);
      if i == j {
        var p := s.pullers[i];
        ExtendOnce(p, s1.pullers[i], After(leaves, s, schedule).pullers[i], FirstOfPuller(leaves, s, j, a, i), rest,
                   if p.Checked? then p.name else "");
      }
    }
  }

  /** What the first step publishes for puller `i`. */
  ghost function FirstOfPuller(leaves: Leaves, s: System, j: nat, a: Action, i: nat): seq<Publication>
    requires Enabled(leaves, s, j, a)
  {
    if a == Rename(true) && i == j
    then [Publication(j, s.pullers[j].name, s.cache[s.pullers[j].dir].files[s.pullers[j].name])]
    else []
  }

  lemma LogOfStep(leaves: Leaves, s: System, schedule: Schedule, i: nat)
    requires Possible(leaves, s, schedule) && schedule != []
    ensures var (j, a) := schedule[0];
            OfPuller(Log(leaves, s, schedule), i) ==
            FirstOfPuller(leaves, s, j, a, i) + OfPuller(Log(leaves, Step(leaves, s, j, a), schedule[1..]), i)
  {}
}
