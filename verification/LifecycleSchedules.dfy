/** Which schedules keep idle memory and memory in use within the limit in every state of a run.

    A caller waits from its snapshot of the in-flight memory to the lock. The limit is kept whenever
    warm containers are taken by the caller that has waited longest, and so in particular when
    callers do not overlap between snapshot and lock. */
module LifecycleSchedules {
  import opened Common
  import opened IdleLists
  import opened Lifecycle
  import opened LifecycleInvariant
  import opened LifecycleTheorems
  import opened LifecycleCap

  // ---------------------------------------------------------------- the limit along a run

  /** The limit is kept in every state of a run. */
  ghost predicate CapKept(cfg: Config, s: State, steps: seq<Step>)
    decreases |steps|
  {
    && Footprint(cfg, s) <= cfg.maxMemory
    && (steps != [] && Apply(cfg, s, steps[0]).Some? ==> CapKept(cfg, Apply(cfg, s, steps[0]).value, steps[1..]))
  }

  /** Whoever makes space during the run does so on a snapshot no staler than the slack of the guard. */
  ghost predicate FreshEnough(cfg: Config, s: State, steps: seq<Step>)
    decreases |steps|
  {
    steps != [] && Apply(cfg, s, steps[0]).Some? ==>
      && (MakesSpace(s, steps[0]) ==> Staleness(cfg, s, steps[0].t) <= Slack(cfg, s, steps[0].t, steps[0].evicted))
      && FreshEnough(cfg, Apply(cfg, s, steps[0]).value, steps[1..])
  }

  lemma {:induction false} RunKeepsCapIff(cfg: Config, s: State, steps: seq<Step>)
    requires Sensible(cfg) && Inv(cfg, s) && Footprint(cfg, s) <= cfg.maxMemory
    ensures CapKept(cfg, s, steps) <==> FreshEnough(cfg, s, steps)
    decreases |steps|
  {
    hide Inv, Sensible, Apply, Footprint, Staleness, Slack, MakesSpace;
    if steps != [] && Apply(cfg, s, steps[0]).Some? {
      var step, next := steps[0], Apply(cfg, s, steps[0]).value;
      StepKeeps(cfg, s, step, next);
      StepKeepsCapIff(cfg, s, step, next);
      if Footprint(cfg, next) <= cfg.maxMemory { RunKeepsCapIff(cfg, next, steps[1..]); }
    }
  }

  lemma StepKeepsCapIff(cfg: Config, s: State, step: Step, after: State)
    requires Sensible(cfg) && Inv(cfg, s) && Footprint(cfg, s) <= cfg.maxMemory && Apply(cfg, s, step) == Some(after)
    ensures Footprint(cfg, after) <= cfg.maxMemory
       <==> (MakesSpace(s, step) ==> Staleness(cfg, s, step.t) <= Slack(cfg, s, step.t, step.evicted))
  {
    hide Inv, Sensible, Apply, Footprint, Staleness, Slack, MakesSpace;
    if MakesSpace(s, step) { MakingSpaceKeepsCapIff(cfg, s, step, after); }
    else { OnlyMakingSpaceGrows(cfg, s, step, after); }
  }

  lemma NothingInUseAtFirst(cfg: Config)
    ensures Footprint(cfg, Initial(cfg)) == 0
  {
    hide Share;
    InitialShares(cfg, Reserved);
    SumOfZeroes(Shares(cfg, Reserved, Initial(cfg).threads));
  }

  /** A run keeps the limit in all its states if and only if whoever makes space does so on a snapshot
      no staler than the slack of the guard: nothing else than making space can break it. What makes
      snapshots stale is said by `NoOvertakingKeepsCap`. */
  lemma CapIsKeptIff(cfg: Config, steps: seq<Step>)
    requires Sensible(cfg)
    ensures CapKept(cfg, Initial(cfg), steps) <==> FreshEnough(cfg, Initial(cfg), steps)
  {
    hide Inv, Initial, Footprint, CapKept, FreshEnough;
    InitialHolds(cfg);
    NothingInUseAtFirst(cfg);
    RunKeepsCapIff(cfg, Initial(cfg), steps);
  }

  // ---------------------------------------------------------------- callers in line

  /** The memory a waiting caller asks for. */
  function Need(cfg: Config, threads: map<nat, Pc>, t: nat): nat {
    if t in threads && threads[t].Counting? then cfg.memoryOf(threads[t].key) else 0
  }

  function Needs(cfg: Config, threads: map<nat, Pc>, line: seq<nat>): nat {
    if line == [] then 0 else Need(cfg, threads, line[0]) + Needs(cfg, threads, line[1..])
  }

  function SnapshotOf(threads: map<nat, Pc>, t: nat): nat {
    if t in threads && threads[t].Counting? then threads[t].snapshot else 0
  }

  function Without(line: seq<nat>, t: nat): seq<nat> { Filter((u: nat) => u != t, line) }

  /** The waiting callers in the order of their snapshots. */
  function NextLine(line: seq<nat>, step: Step): seq<nat> {
    if step.AddCounter? then line + [step.t]
    else if step.LockedGet? then Without(line, step.t)
    else line
  }

  ghost predicate Distinct(line: seq<nat>) {
    forall i, j :: 0 <= i < j < |line| ==> line[i] != line[j]
  }

  /** The line consists of the callers between snapshot and lock. */
  ghost predicate InLine(s: State, line: seq<nat>) {
    && Distinct(line)
    && forall t :: t in line <==> t in s.threads && s.threads[t].Counting?
  }

  /** Warm containers are taken by the first in line only. */
  ghost predicate NoOvertaking(cfg: Config, s: State, line: seq<nat>, steps: seq<Step>)
    decreases |steps|
  {
    steps != [] && Apply(cfg, s, steps[0]).Some? ==>
      && (PopsWarm(s, steps[0]) ==> line != [] && line[0] == steps[0].t)
      && NoOvertaking(cfg, Apply(cfg, s, steps[0]).value, NextLine(line, steps[0]), steps[1..])
  }

  lemma {:induction false} NeedsSplit(cfg: Config, threads: map<nat, Pc>, a: seq<nat>, b: seq<nat>)
    ensures Needs(cfg, threads, a + b) == Needs(cfg, threads, a) + Needs(cfg, threads, b)
  {
    if a == [] {
      assert a + b == b;
    } else {
      assert (a + b)[1..] == a[1..] + b;
      NeedsSplit(cfg, threads, a[1..], b);
    }
  }

  lemma {:induction false} NeedsFrame(cfg: Config, threads: map<nat, Pc>, line: seq<nat>, t: nat, pc: Pc)
    requires t !in line
    ensures Needs(cfg, threads[t := pc], line) == Needs(cfg, threads, line)
  {
    if line != [] {
      assert line[0] != t;
      NeedsFrame(cfg, threads, line[1..], t, pc);
    }
  }

  lemma ShareOfWaiting(cfg: Config, pc: Pc)
    ensures Share(cfg, Reserved, pc) <= Share(cfg, InFlight, pc)
    ensures pc.Counting? ==> Share(cfg, Reserved, pc) == 0 && Share(cfg, InFlight, pc) == cfg.memoryOf(pc.key)
    ensures Share(cfg, Reserved, Done) == Share(cfg, InFlight, Done) == 0
  {
  }

  /** What is in use and what is waited for is all accounted for in flight. */
  lemma {:induction false} NeedsAreInFlight(cfg: Config, threads: map<nat, Pc>, line: seq<nat>)
    requires Distinct(line) && forall t :: t in line ==> t in threads && threads[t].Counting?
    ensures InUse(cfg, threads) + Needs(cfg, threads, line) <= OfThreads(cfg, InFlight, threads)
    decreases |line|
  {
    hide Share;
    if line == [] {
      forall t | t in threads ensures Share(cfg, Reserved, threads[t]) <= Share(cfg, InFlight, threads[t]) {
        ShareOfWaiting(cfg, threads[t]);
      }
      SumMonotone(Shares(cfg, Reserved, threads), Shares(cfg, InFlight, threads));
    } else {
      var t, rest := line[0], line[1..];
      ShareOfWaiting(cfg, threads[t]);
      ThreadMoves(cfg, threads, t, Done);
      NeedsFrame(cfg, threads, rest, t, Done);
      NeedsAreInFlight(cfg, threads[t := Done], rest);
    }
  }

  // ---------------------------------------------------------------- room for everybody in line

  /** The caller at place `i` has room: its snapshot covers what is in use and asked for up to its
      place, or all of it fits beside what is idle. */
  ghost predicate RoomAt(cfg: Config, s: State, line: seq<nat>, i: nat)
    requires i < |line|
  {
    || InUse(cfg, s.threads) + Needs(cfg, s.threads, line[..i + 1]) <= SnapshotOf(s.threads, line[i])
    || Footprint(cfg, s) + Needs(cfg, s.threads, line[..i + 1]) <= cfg.maxMemory
  }

  ghost predicate Room(cfg: Config, s: State, line: seq<nat>) {
    && InLine(s, line)
    && Footprint(cfg, s) <= cfg.maxMemory
    && forall i: nat :: i < |line| ==> RoomAt(cfg, s, line, i)
  }

  /** A step of somebody outside the line keeps everybody's room if it takes nothing. */
  lemma OutsidersKeepRoom(cfg: Config, s: State, after: State, line: seq<nat>, t: nat)
    requires Room(cfg, s, line) && t in after.threads && after.threads == s.threads[t := after.threads[t]]
    requires !after.threads[t].Counting? && t !in line
    requires Footprint(cfg, after) <= Footprint(cfg, s) && InUse(cfg, after.threads) <= InUse(cfg, s.threads)
    ensures Room(cfg, after, line)
  {
    hide InUse, Footprint, Needs, Distinct;
    forall i: nat | i < |line| ensures RoomAt(cfg, after, line, i) {
      assert RoomAt(cfg, s, line, i);
      assert line[i] != t;
      NeedsFrame(cfg, s.threads, line[..i + 1], t, after.threads[t]);
    }
  }

  /** A new snapshot covers what is in use and everybody in line. */
  lemma SnapshotKeepsRoom(cfg: Config, s: State, after: State, line: seq<nat>, t: nat)
    requires Inv(cfg, after) && Room(cfg, s, line) && t in s.threads && DoAddCounter(cfg, s, t) == Some(after)
    ensures Room(cfg, after, line + [t])
  {
    hide Inv, InUse, Footprint, Needs, Distinct, DoAddCounter, AddressInv, CensusInv, FactsInv, PrewarmInv;
    SnapshotReservesNothing(cfg, s, t, after);
    SnapshotIsTheCounter(cfg, after);
    JoinsLine(s, after, line, t);
    forall i: nat | i < |line + [t]| ensures RoomAt(cfg, after, line + [t], i) {
      if i < |line| {
        assert (line + [t])[..i + 1] == line[..i + 1];
        assert RoomAt(cfg, s, line, i);
        NeedsFrame(cfg, s.threads, line[..i + 1], t, after.threads[t]);
      } else {
        assert (line + [t])[..i + 1] == line + [t];
        NeedsAreInFlight(cfg, after.threads, line + [t]);
      }
    }
  }

  lemma SnapshotIsTheCounter(cfg: Config, s: State)
    requires Inv(cfg, s)
    ensures s.counter == OfThreads(cfg, InFlight, s.threads)
  {
    hide CensusInv, AddressInv, FactsInv, PrewarmInv;
  }

  lemma JoinsLine(s: State, after: State, line: seq<nat>, t: nat)
    requires InLine(s, line) && t in s.threads && !s.threads[t].Counting?
    requires t in after.threads && after.threads[t].Counting? && after.threads == s.threads[t := after.threads[t]]
    ensures InLine(after, line + [t]) && Distinct(line + [t]) && t !in line
  {
  }

  lemma LeavesLine(s: State, after: State, line: seq<nat>, k: nat)
    requires InLine(s, line) && k < |line|
    requires line[k] in after.threads && !after.threads[line[k]].Counting?
    requires after.threads == s.threads[line[k] := after.threads[line[k]]]
    ensures InLine(after, line[..k] + line[k + 1..])
  {
    var rest := line[..k] + line[k + 1..];
    forall t ensures t in rest <==> t in line && t != line[k] {
      if t in line && t != line[k] {
        var i :| 0 <= i < |line| && line[i] == t;
        assert rest[if i < k then i else i - 1] == t;
      }
    }
  }

  lemma WithoutPlace(line: seq<nat>, k: nat)
    requires Distinct(line) && k < |line|
    ensures Without(line, line[k]) == line[..k] + line[k + 1..]
  {
    var t := line[k];
    assert line == line[..k] + ([t] + line[k + 1..]);
    FilterAppend((u: nat) => u != t, line[..k], [t] + line[k + 1..]);
    FilterAppend((u: nat) => u != t, [t], line[k + 1..]);
    FilterAll((u: nat) => u != t, line[..k]);
    FilterAll((u: nat) => u != t, line[k + 1..]);
    assert Filter((u: nat) => u != t, [t]) == [];
  }

  /** What is asked for up to a place once somebody left the line. */
  lemma NeedsWithout(cfg: Config, threads: map<nat, Pc>, line: seq<nat>, k: nat, pc: Pc, i: nat)
    requires Distinct(line) && k < |line| && i < |line| - 1
    ensures var rest := line[..k] + line[k + 1..];
      Needs(cfg, threads[line[k] := pc], rest[..i + 1])
        == if i < k then Needs(cfg, threads, line[..i + 1]) else Needs(cfg, threads, line[..i + 2]) - Need(cfg, threads, line[k])
  {
    hide Need;
    var rest := line[..k] + line[k + 1..];
    assert line[k] !in rest[..i + 1];
    NeedsFrame(cfg, threads, rest[..i + 1], line[k], pc);
    if i < k {
      assert rest[..i + 1] == line[..i + 1];
    } else {
      assert rest[..i + 1] == line[..k] + line[k + 1..i + 2];
      assert line[..i + 2] == line[..k] + ([line[k]] + line[k + 1..i + 2]);
      NeedsSplit(cfg, threads, line[..k], line[k + 1..i + 2]);
      NeedsSplit(cfg, threads, line[..k], [line[k]] + line[k + 1..i + 2]);
    }
  }

  /** What somebody at place `k` takes when leaving the line, and from whom. */
  ghost predicate Takes(cfg: Config, s: State, after: State, line: seq<nat>, k: nat)
    requires k < |line|
  {
    && line[k] in s.threads && s.threads[line[k]].Counting?
    && line[k] in after.threads && !after.threads[line[k]].Counting?
    && after.threads == s.threads[line[k] := after.threads[line[k]]]
    && InUse(cfg, after.threads) == InUse(cfg, s.threads) + cfg.memoryOf(s.threads[line[k]].key)
    && Footprint(cfg, after) <= Footprint(cfg, s) + cfg.memoryOf(s.threads[line[k]].key)
  }

  /** Those behind keep their room: what is taken was asked for already. */
  lemma RoomBehind(cfg: Config, s: State, after: State, line: seq<nat>, k: nat, i: nat)
    requires Room(cfg, s, line) && k < |line| && Takes(cfg, s, after, line, k) && k <= i < |line| - 1
    ensures RoomAt(cfg, after, line[..k] + line[k + 1..], i)
  {
    hide InUse, Footprint, Needs, Distinct;
    NeedsWithout(cfg, s.threads, line, k, after.threads[line[k]], i);
    assert RoomAt(cfg, s, line, i + 1);
    assert (line[..k] + line[k + 1..])[i] == line[i + 1] && line[i + 1] != line[k] by { DistinctAt(line, k, i + 1); }
  }

  lemma DistinctAt(line: seq<nat>, i: nat, j: nat)
    requires Distinct(line) && i < j < |line|
    ensures line[i] != line[j]
  {
  }

  /** The first in line takes a warm container: the footprint stays, and nobody was ahead. */
  lemma PopKeepsRoom(cfg: Config, s: State, after: State, line: seq<nat>)
    requires Room(cfg, s, line) && line != [] && Takes(cfg, s, after, line, 0) && Footprint(cfg, after) <= Footprint(cfg, s)
    ensures Room(cfg, after, Without(line, line[0]))
  {
    hide Takes, RoomAt, Footprint;
    WithoutPlace(line, 0);
    LeaversLine(cfg, s, after, line, 0);
    forall i: nat | i < |line| - 1 ensures RoomAt(cfg, after, line[..0] + line[1..], i) {
      RoomBehind(cfg, s, after, line, 0, i);
    }
  }

  lemma LeaversLine(cfg: Config, s: State, after: State, line: seq<nat>, k: nat)
    requires InLine(s, line) && k < |line| && Takes(cfg, s, after, line, k)
    ensures InLine(after, line[..k] + line[k + 1..])
  {
    hide InUse, Footprint, InLine;
    LeavesLine(s, after, line, k);
  }

  /** Whoever makes space leaves room for everybody up to its place: its guard counted them. */
  lemma SpaceLeavesRoom(cfg: Config, s: State, step: Step, after: State, line: seq<nat>, k: nat)
    requires Sensible(cfg) && Inv(cfg, s) && MakesSpace(s, step) && Apply(cfg, s, step) == Some(after)
    requires Room(cfg, s, line) && k < |line| && line[k] == step.t
    ensures Footprint(cfg, after) + Needs(cfg, s.threads, line[..k]) <= cfg.maxMemory
    ensures Takes(cfg, s, after, line, k)
  {
    hide Inv, Sensible, Apply, InUse, Distinct, Ids;
    SpaceIsMade(cfg, s, step, after);
    assert RoomAt(cfg, s, line, k);
    assert line[..k + 1] == line[..k] + [line[k]];
    NeedsSplit(cfg, s.threads, line[..k], [line[k]]);
  }

  lemma {:induction false} NeedsGrow(cfg: Config, threads: map<nat, Pc>, line: seq<nat>, i: nat, k: nat)
    requires i <= k <= |line|
    ensures Needs(cfg, threads, line[..i]) <= Needs(cfg, threads, line[..k])
  {
    assert line[..k] == line[..i] + line[i..k];
    NeedsSplit(cfg, threads, line[..i], line[i..k]);
  }

  lemma SpaceKeepsRoom(cfg: Config, s: State, step: Step, after: State, line: seq<nat>, k: nat)
    requires Sensible(cfg) && Inv(cfg, s) && MakesSpace(s, step) && Apply(cfg, s, step) == Some(after)
    requires Room(cfg, s, line) && k < |line| && line[k] == step.t
    ensures Room(cfg, after, Without(line, step.t))
  {
    hide Inv, Sensible, Apply, MakesSpace, InUse, Footprint, Needs, Takes;
    SpaceLeavesRoom(cfg, s, step, after, line, k);
    WithoutPlace(line, k);
    LeaversLine(cfg, s, after, line, k);
    var rest := line[..k] + line[k + 1..];
    forall i: nat | i < |rest| ensures RoomAt(cfg, after, rest, i) {
      if i < k {
        TakesFrom(cfg, s, after, line, k, i);
        NeedsGrow(cfg, s.threads, line, i + 1, k);
      } else {
        RoomBehind(cfg, s, after, line, k, i);
      }
    }
    NeedsGrow(cfg, s.threads, line, 0, k);
  }

  lemma TakesFrom(cfg: Config, s: State, after: State, line: seq<nat>, k: nat, i: nat)
    requires Distinct(line) && k < |line| && Takes(cfg, s, after, line, k) && i < k
    ensures Needs(cfg, after.threads, (line[..k] + line[k + 1..])[..i + 1]) == Needs(cfg, s.threads, line[..i + 1])
  {
    hide InUse, Footprint, Distinct;
    NeedsWithout(cfg, s.threads, line, k, after.threads[line[k]], i);
  }

  // ---------------------------------------------------------------- the theorem

  lemma PlaceInLine(s: State, line: seq<nat>, t: nat) returns (k: nat)
    requires InLine(s, line) && t in s.threads && s.threads[t].Counting?
    ensures k < |line| && line[k] == t
  {
    k :| k < |line| && line[k] == t;
  }

  lemma PopTakes(cfg: Config, s: State, step: Step, after: State, line: seq<nat>)
    requires Sensible(cfg) && Inv(cfg, s) && PopsWarm(s, step) && Apply(cfg, s, step) == Some(after)
    requires line != [] && line[0] == step.t
    ensures Takes(cfg, s, after, line, 0) && Footprint(cfg, after) <= Footprint(cfg, s)
  {
    hide Inv, Sensible, ApplyLists, InUse, Footprint;
    PopIsAListStep(cfg, s, step, after);
    PopReservesNothing(cfg, s, step, after);
  }

  lemma LockedGetKeepsRoom(cfg: Config, s: State, step: Step, after: State, line: seq<nat>)
    requires Sensible(cfg) && Inv(cfg, s) && step.LockedGet? && Apply(cfg, s, step) == Some(after) && Room(cfg, s, line)
    requires PopsWarm(s, step) ==> line != [] && line[0] == step.t
    ensures Room(cfg, after, Without(line, step.t))
  {
    hide Inv, Sensible, Apply, Room, Takes, Footprint;
    PopIsAListStep(cfg, s, step, after);
    if PopsWarm(s, step) {
      PopTakes(cfg, s, step, after, line);
      PopKeepsRoom(cfg, s, after, line);
    } else {
      var k := PlaceOf(cfg, s, line, step.t);
      SpaceKeepsRoom(cfg, s, step, after, line, k);
    }
  }

  lemma PlaceOf(cfg: Config, s: State, line: seq<nat>, t: nat) returns (k: nat)
    requires Room(cfg, s, line) && t in s.threads && s.threads[t].Counting?
    ensures k < |line| && line[k] == t
  {
    hide RoomAt, Footprint, InLine;
    k := PlaceInLine(s, line, t);
  }

  lemma ArrivalKeepsRoom(cfg: Config, s: State, step: Step, after: State, line: seq<nat>)
    requires step.Arrive? && Apply(cfg, s, step) == Some(after) && Room(cfg, s, line)
    ensures Room(cfg, after, line)
  {
    hide InUse, Footprint, RoomAt;
    ArriveReservesNothing(cfg, s, step.t, step.key, after);
    OutsidersKeepRoom(cfg, s, after, line, step.t);
  }

  lemma SteadyKeepsRoom(cfg: Config, s: State, after: State, line: seq<nat>, t: nat)
    requires Room(cfg, s, line) && Steady(cfg, s, t, after)
    ensures Room(cfg, after, line)
  {
    hide InUse, Footprint, RoomAt;
    OutsidersKeepRoom(cfg, s, after, line, t);
  }

  lemma StepKeepsRoom(cfg: Config, s: State, step: Step, after: State, line: seq<nat>)
    requires Sensible(cfg) && Inv(cfg, s) && Apply(cfg, s, step) == Some(after) && Room(cfg, s, line)
    requires PopsWarm(s, step) ==> line != [] && line[0] == step.t
    ensures Room(cfg, after, NextLine(line, step))
  {
    hide Inv, Sensible, Apply, Room, Steady, PopsWarm, Without, DoAddCounter;
    if step.Arrive? { ArrivalKeepsRoom(cfg, s, step, after, line); }
    else if step.AddCounter? {
      StepKeeps(cfg, s, step, after);
      SnapshotIsACounterStep(cfg, s, step, after);
      SnapshotKeepsRoom(cfg, s, after, line, step.t);
    }
    else if step.LockedGet? { LockedGetKeepsRoom(cfg, s, step, after, line); }
    else {
      OthersAreSteady(cfg, s, step, after);
      SteadyKeepsRoom(cfg, s, after, line, step.t);
    }
  }

  lemma {:induction false} RunKeepsRoom(cfg: Config, s: State, line: seq<nat>, steps: seq<Step>)
    requires Sensible(cfg) && Inv(cfg, s) && Room(cfg, s, line) && NoOvertaking(cfg, s, line, steps)
    ensures CapKept(cfg, s, steps)
    decreases |steps|
  {
    hide Inv, Sensible, Apply, Footprint, RoomAt, InLine, NextLine, PopsWarm;
    if steps != [] && Apply(cfg, s, steps[0]).Some? {
      var next := Apply(cfg, s, steps[0]).value;
      StepKeeps(cfg, s, steps[0], next);
      StepKeepsRoom(cfg, s, steps[0], next, line);
      RunKeepsRoom(cfg, next, NextLine(line, steps[0]), steps[1..]);
    }
  }

  /** If warm containers are only ever taken by the caller that took its snapshot first of all those
      still waiting for the lock, the limit is kept in every state of the run. */
  lemma NoOvertakingKeepsCap(cfg: Config, steps: seq<Step>)
    requires Sensible(cfg) && NoOvertaking(cfg, Initial(cfg), [], steps)
    ensures CapKept(cfg, Initial(cfg), steps)
  {
    hide Inv, Footprint, CapKept, NoOvertaking, RoomAt;
    InitialHolds(cfg);
    NothingInUseAtFirst(cfg);
    RunKeepsRoom(cfg, Initial(cfg), [], steps);
  }

  // ---------------------------------------------------------------- callers that do not meet

  ghost predicate OnlyWaiting(s: State, t: nat) {
    forall u :: u in s.threads && u != t ==> !s.threads[u].Counting?
  }

  /** Nobody takes a warm container while another caller is between its snapshot and the lock. */
  ghost predicate PopsAlone(cfg: Config, s: State, steps: seq<Step>)
    decreases |steps|
  {
    steps != [] && Apply(cfg, s, steps[0]).Some? ==>
      && (PopsWarm(s, steps[0]) ==> OnlyWaiting(s, steps[0].t))
      && PopsAlone(cfg, Apply(cfg, s, steps[0]).value, steps[1..])
  }

  /** Every snapshot is directly followed by the locked section of the same caller, as if both were one
      step. */
  predicate SnapshotsAreFresh(steps: seq<Step>) {
    forall i :: 0 <= i < |steps| - 1 && steps[i].AddCounter? ==> steps[i + 1].LockedGet? && steps[i + 1].t == steps[i].t
  }

  lemma AloneIsFirst(cfg: Config, s: State, step: Step, line: seq<nat>)
    requires Room(cfg, s, line) && PopsWarm(s, step) && OnlyWaiting(s, step.t)
    ensures line != [] && line[0] == step.t
  {
    hide RoomAt, Footprint;
    var k := PlaceInLine(s, line, step.t);
    assert line[0] in line;
  }

  lemma {:induction false} PopsAloneOvertakeNobody(cfg: Config, s: State, line: seq<nat>, steps: seq<Step>)
    requires Sensible(cfg) && Inv(cfg, s) && Room(cfg, s, line) && PopsAlone(cfg, s, steps)
    ensures NoOvertaking(cfg, s, line, steps)
    decreases |steps|
  {
    hide Inv, Sensible, Apply, Room, NextLine, PopsWarm, OnlyWaiting;
    if steps != [] && Apply(cfg, s, steps[0]).Some? {
      var next := Apply(cfg, s, steps[0]).value;
      if PopsWarm(s, steps[0]) { AloneIsFirst(cfg, s, steps[0], line); }
      StepKeeps(cfg, s, steps[0], next);
      StepKeepsRoom(cfg, s, steps[0], next, line);
      PopsAloneOvertakeNobody(cfg, next, NextLine(line, steps[0]), steps[1..]);
    }
  }

  /** If no warm container is taken while another caller is between its snapshot and the lock, the
      limit is kept in every state of the run. */
  lemma PopsAloneKeepCap(cfg: Config, steps: seq<Step>)
    requires Sensible(cfg) && PopsAlone(cfg, Initial(cfg), steps)
    ensures CapKept(cfg, Initial(cfg), steps)
  {
    hide Inv, Footprint, CapKept, NoOvertaking, PopsAlone, RoomAt;
    InitialHolds(cfg);
    NothingInUseAtFirst(cfg);
    PopsAloneOvertakeNobody(cfg, Initial(cfg), [], steps);
    NoOvertakingKeepsCap(cfg, steps);
  }

  /** Who waits after a step. */
  lemma WaitingAfter(cfg: Config, s: State, step: Step, after: State, u: nat)
    requires Sensible(cfg) && Inv(cfg, s) && Apply(cfg, s, step) == Some(after)
    requires u in after.threads && after.threads[u].Counting?
    ensures (step.AddCounter? && u == step.t) || (u in s.threads && s.threads[u] == after.threads[u] && !(step.LockedGet? && u == step.t))
  {
    hide Inv, Sensible, ApplyCounters, ApplyPrewarming, ApplyLists, ApplyLifetimes, ApplyCallers, DoAddCounter, InUse, Footprint;
    if step.AddCounter? {
      SnapshotIsACounterStep(cfg, s, step, after);
      SnapshotReservesNothing(cfg, s, step.t, after);
    } else if step.LockedGet? {
      GetLeavesLine(cfg, s, step, after);
    } else if !step.Arrive? {
      OthersAreSteady(cfg, s, step, after);
    }
  }

  lemma GetLeavesLine(cfg: Config, s: State, step: Step, after: State)
    requires Sensible(cfg) && Inv(cfg, s) && step.LockedGet? && Apply(cfg, s, step) == Some(after)
    ensures step.t in s.threads && step.t in after.threads
    ensures after.threads == s.threads[step.t := after.threads[step.t]] && !after.threads[step.t].Counting?
  {
    hide Inv, Sensible, ApplyLists, InUse, Footprint;
    PopIsAListStep(cfg, s, step, after);
    if PopsWarm(s, step) { PopReservesNothing(cfg, s, step, after); }
    else { SpaceIsMade(cfg, s, step, after); }
  }

  /** At most the caller whose locked section comes next is waiting. */
  ghost predicate NextIsWaiting(s: State, steps: seq<Step>) {
    forall u :: u in s.threads && s.threads[u].Counting? ==> steps == [] || (steps[0].LockedGet? && steps[0].t == u)
  }

  lemma FreshSnapshotsWaitAlone(cfg: Config, s: State, steps: seq<Step>, next: State)
    requires Sensible(cfg) && Inv(cfg, s) && steps != [] && Apply(cfg, s, steps[0]) == Some(next)
    requires SnapshotsAreFresh(steps) && NextIsWaiting(s, steps)
    ensures SnapshotsAreFresh(steps[1..]) && NextIsWaiting(next, steps[1..])
    ensures PopsWarm(s, steps[0]) ==> OnlyWaiting(s, steps[0].t)
  {
    hide Inv, Sensible, Apply;
    forall u | u in next.threads && next.threads[u].Counting?
      ensures steps[1..] == [] || (steps[1..][0].LockedGet? && steps[1..][0].t == u)
    {
      WaitingAfter(cfg, s, steps[0], next, u);
    }
  }

  lemma {:induction false} FreshSnapshotsPopAlone(cfg: Config, s: State, steps: seq<Step>)
    requires Sensible(cfg) && Inv(cfg, s) && SnapshotsAreFresh(steps) && NextIsWaiting(s, steps)
    ensures PopsAlone(cfg, s, steps)
    decreases |steps|
  {
    hide Inv, Sensible, Apply, SnapshotsAreFresh, NextIsWaiting, OnlyWaiting, PopsWarm;
    if steps != [] && Apply(cfg, s, steps[0]).Some? {
      var next := Apply(cfg, s, steps[0]).value;
      FreshSnapshotsWaitAlone(cfg, s, steps, next);
      StepKeeps(cfg, s, steps[0], next);
      FreshSnapshotsPopAlone(cfg, next, steps[1..]);
    }
  }

  /** If adding to the counter and the locked section are one step, the limit is strict: it is kept in
      every state of the run, however everything else interleaves. */
  lemma FreshSnapshotsKeepCap(cfg: Config, steps: seq<Step>)
    requires Sensible(cfg) && SnapshotsAreFresh(steps)
    ensures CapKept(cfg, Initial(cfg), steps)
  {
    hide Inv, CapKept, PopsAlone, SnapshotsAreFresh;
    InitialHolds(cfg);
    FreshSnapshotsPopAlone(cfg, Initial(cfg), steps);
    PopsAloneKeepCap(cfg, steps);
  }
}
