/** When the idle lists are ordered by last use, although stamping a container and filing it are
    separate steps of the caller that returns it. */
module LifecycleOrder {
  import opened Common
  import opened IdleLists
  import opened Lifecycle
  import Client

  // ---------------------------------------------------------------- one step

  /** A container is filed behind none that was used later. */
  predicate FilesInOrder(s: State, step: Step) {
    step.LockedPut? && step.t in s.threads && s.threads[step.t].Stamped? && s.threads[step.t].c in s.containers ==>
      var l := ListOf(s.idles, s.threads[step.t].key);
      l != [] ==> l[|l| - 1].lastUsed <= s.containers[s.threads[step.t].c].lastUsed
  }

  lemma AppendAscends(l: seq<Pooled>, p: Pooled)
    requires Ascending(l)
    ensures Ascending(l + [p]) <==> (l != [] ==> l[|l| - 1].lastUsed <= p.lastUsed)
  {
    if l != [] {
      assert (l + [p])[|l| - 1] == l[|l| - 1] && (l + [p])[|l|] == p;
    }
  }

  /** Filing keeps the lists ordered if and only if the last container of the list was not used later. */
  lemma FilingKeepsOrderIff(s: State, t: nat, after: State)
    requires Ordered(s.idles) && t in s.threads && DoLockedPut(s, t) == Some(after)
    ensures Ordered(after.idles) <==> FilesInOrder(s, LockedPut(t))
  {
    hide AddU64, Ascending;
    var key, x := s.threads[t].key, s.containers[s.threads[t].c];
    var l := ListOf(s.idles, key);
    var p := Pooled(s.threads[t].c, key, x.memory, x.lastUsed);
    assert Ascending(l) by { NothingAscends(); }
    AppendAscends(l, p);
    assert after.idles == s.idles[key := l + [p]];
    assert after.idles[key] == l + [p];
  }

  /** Lists from which something was taken. */
  ghost predicate OnlyTaken(idles: Idles, rest: Idles) {
    && (Ordered(idles) ==> Ordered(rest))
    && (Ordered(idles) ==> forall p :: IsIdle(rest, p) ==> IsIdle(idles, p))
  }

  lemma GettingTakes(cfg: Config, s: State, t: nat, evicted: seq<Pooled>, rest: Idles, after: State)
    requires t in s.threads && DoLockedGet(cfg, s, t, evicted, rest) == Some(after)
    ensures OnlyTaken(s.idles, after.idles)
  {
    hide Fits, Evicts, Ordered, IsIdle;
    var l := ListOf(s.idles, s.threads[t].key);
    if l != [] { PoppingTakes(s.idles, s.threads[t].key); }
    else {
      EvictsKeepsShape(s.idles, evicted, rest);
      forall p | IsIdle(rest, p) ensures IsIdle(s.idles, p) { EvictingTakes(s.idles, evicted, rest, p); }
    }
  }

  lemma PoppingTakes(idles: Idles, k: WarmKey)
    requires k in idles && idles[k] != []
    ensures OnlyTaken(idles, idles[k := idles[k][..|idles[k]| - 1]])
  {
    var rest := idles[k := idles[k][..|idles[k]| - 1]];
    forall p | IsIdle(rest, p) ensures IsIdle(idles, p) {
      var j :| j in rest && p in rest[j];
      assert p in idles[j];
    }
  }

  lemma EvictingTakes(idles: Idles, out: seq<Pooled>, rest: Idles, p: Pooled)
    requires Evicts(idles, out, rest) && IsIdle(rest, p)
    ensures IsIdle(idles, p)
  {
    hide Evicts;
    EvictsShortens(idles, out, rest);
    var k :| k in rest && p in rest[k];
    assert SuffixOf(rest[k], idles[k]);
    assert p in idles[k];
  }

  lemma ReapingTakes(idles: Idles, cutoff: int, order: seq<WarmKey>, out: seq<Pooled>, rest: Idles)
    requires Enumerates(order, idles.Keys) && Reaps(idles, cutoff, order, out, rest)
    ensures OnlyTaken(idles, rest)
  {
    hide Reaps, Enumerates, Ordered;
    ReapsConserves(idles, cutoff, order, out, rest);
    if Ordered(idles) {
      ReapIsFilter(idles, cutoff, order, out, rest);
      forall p | IsIdle(rest, p) ensures IsIdle(idles, p) {
        var k :| k in rest && p in rest[k];
        YoungIsPart(idles[k], cutoff);
      }
    }
  }

  lemma OtherListStepsTake(cfg: Config, s: State, step: Step, after: State)
    requires step.t in s.threads && ApplyLists(cfg, s, step) == Some(after) && !step.LockedPut?
    ensures OnlyTaken(s.idles, after.idles)
  {
    hide DoLockedGet, Ordered, IsIdle, Reaps, Enumerates;
    if step.LockedGet? { GettingTakes(cfg, s, step.t, step.evicted, step.rest, after); }
    else if step.LockedReap? { ReapingTakes(s.idles, step.cutoff, step.order, step.removed, step.rest); }
  }

  lemma CountersLeaveLists(cfg: Config, s: State, step: Step, after: State)
    requires step.t in s.threads && ApplyCounters(cfg, s, step) == Some(after)
    ensures after.idles == s.idles
  {
    hide Goto, AddU64, NegU64;
    GotoFields();
  }

  lemma PrewarmingLeavesLists(cfg: Config, s: State, step: Step, after: State)
    requires step.t in s.threads && ApplyPrewarming(cfg, s, step) == Some(after)
    ensures after.idles == s.idles
  {
    hide Goto;
    GotoFields();
  }

  lemma LifetimesLeaveLists(cfg: Config, s: State, step: Step, after: State)
    requires step.t in s.threads && ApplyLifetimes(cfg, s, step) == Some(after)
    ensures after.idles == s.idles
  {
    hide Resume, CreateFailed, KindFor, MemoryFor, Goto, Change;
    GotoFields();
    ChangeFields();
  }

  lemma CallersLeaveLists(cfg: Config, s: State, step: Step, after: State)
    requires step.t in s.threads && ApplyCallers(cfg, s, step) == Some(after)
    ensures after.idles == s.idles
  {
    hide Used, AfterOp, Goto, Change;
    GotoFields();
    ChangeFields();
  }

  /** Only filing can take the lists out of order; every other step takes containers out at most. */
  lemma OnlyFilingAdds(cfg: Config, s: State, step: Step, after: State)
    requires Apply(cfg, s, step) == Some(after) && !step.LockedPut?
    ensures OnlyTaken(s.idles, after.idles)
  {
    hide ApplyCounters, ApplyPrewarming, ApplyLists, ApplyLifetimes, ApplyCallers, Ordered, IsIdle;
    if step.Arrive? {}
    else if OnCounters(step) { CountersLeaveLists(cfg, s, step, after); }
    else if OnPrewarming(step) { PrewarmingLeavesLists(cfg, s, step, after); }
    else if OnLists(step) { OtherListStepsTake(cfg, s, step, after); }
    else if OnLifetimes(step) { LifetimesLeaveLists(cfg, s, step, after); }
    else { CallersLeaveLists(cfg, s, step, after); }
  }

  lemma FilingIsAListStep(cfg: Config, s: State, step: Step, after: State)
    requires step.LockedPut? && Apply(cfg, s, step) == Some(after)
    ensures step.t in s.threads && DoLockedPut(s, step.t) == Some(after)
  {
  }

  /** Every step from ordered lists leads to ordered lists if and only if it does not file behind a
      container used later. */
  lemma StepKeepsOrderIff(cfg: Config, s: State, step: Step, after: State)
    requires Ordered(s.idles) && Apply(cfg, s, step) == Some(after)
    ensures Ordered(after.idles) <==> FilesInOrder(s, step)
  {
    hide Apply, Ordered, IsIdle, DoLockedPut;
    if step.LockedPut? {
      FilingIsAListStep(cfg, s, step, after);
      FilingKeepsOrderIff(s, step.t, after);
    } else {
      OnlyFilingAdds(cfg, s, step, after);
    }
  }

  // ---------------------------------------------------------------- whole runs

  ghost predicate OrderKept(cfg: Config, s: State, steps: seq<Step>)
    decreases |steps|
  {
    && Ordered(s.idles)
    && (steps != [] && Apply(cfg, s, steps[0]).Some? ==> OrderKept(cfg, Apply(cfg, s, steps[0]).value, steps[1..]))
  }

  ghost predicate AlwaysFilesInOrder(cfg: Config, s: State, steps: seq<Step>)
    decreases |steps|
  {
    steps != [] && Apply(cfg, s, steps[0]).Some? ==>
      FilesInOrder(s, steps[0]) && AlwaysFilesInOrder(cfg, Apply(cfg, s, steps[0]).value, steps[1..])
  }

  lemma {:induction false} RunKeepsOrderIff(cfg: Config, s: State, steps: seq<Step>)
    requires Ordered(s.idles)
    ensures OrderKept(cfg, s, steps) <==> AlwaysFilesInOrder(cfg, s, steps)
    decreases |steps|
  {
    hide Apply, Ordered, FilesInOrder;
    if steps != [] && Apply(cfg, s, steps[0]).Some? {
      var next := Apply(cfg, s, steps[0]).value;
      StepKeepsOrderIff(cfg, s, steps[0], next);
      if Ordered(next.idles) { RunKeepsOrderIff(cfg, next, steps[1..]); }
    }
  }

  /** The idle lists are ordered by last use in all states of a run if and only if no container is ever
      filed behind one used later. */
  lemma ListsAreOrderedIff(cfg: Config, steps: seq<Step>)
    ensures OrderKept(cfg, Initial(cfg), steps) <==> AlwaysFilesInOrder(cfg, Initial(cfg), steps)
  {
    RunKeepsOrderIff(cfg, Initial(cfg), steps);
  }

  // ---------------------------------------------------------------- returning a container in one go

  /** Stamping and filing follow each other directly, and the clock never goes back. */
  predicate ReturnsInOneGo(steps: seq<Step>, clock: int)
    decreases |steps|
  {
    steps != [] ==>
      var stamps := steps[0].ClientOp? && steps[0].op.Put?;
      && (stamps ==> clock <= steps[0].now)
      && (stamps && |steps| > 1 ==> steps[1] == LockedPut(steps[0].t))
      && ReturnsInOneGo(steps[1..], if stamps then steps[0].now else clock)
  }

  /** No idle container was used after `clock`. */
  ghost predicate NoneLater(idles: Idles, clock: int) {
    forall p :: IsIdle(idles, p) ==> p.lastUsed <= clock
  }

  /** Who holds a stamped container files it next, and it is the latest. */
  ghost predicate StampedIsNext(s: State, steps: seq<Step>, clock: int) {
    forall u :: u in s.threads && s.threads[u].Stamped? ==>
      && (steps != [] ==> steps[0] == LockedPut(u))
      && s.threads[u].c in s.containers && s.containers[s.threads[u].c].lastUsed == clock
  }

  lemma NobodyElseStamps(cfg: Config, s: State, step: Step, after: State, u: nat)
    requires Apply(cfg, s, step) == Some(after) && !(step.ClientOp? && step.op.Put?)
    requires u in after.threads && after.threads[u].Stamped?
    ensures u in s.threads && after.threads[u] == s.threads[u] && !(step.LockedPut? && step.t == u)
  {
    hide ApplyCounters, ApplyPrewarming, ApplyLists, ApplyLifetimes, ApplyCallers;
    if step.Arrive? {}
    else if OnCounters(step) { CountersStampNothing(cfg, s, step, after, u); }
    else if OnPrewarming(step) { PrewarmingStampsNothing(cfg, s, step, after, u); }
    else if OnLists(step) { ListsStampNothing(cfg, s, step, after, u); }
    else if OnLifetimes(step) { LifetimesStampNothing(cfg, s, step, after, u); }
    else { CallersStampNothing(cfg, s, step, after, u); }
  }

  lemma CountersStampNothing(cfg: Config, s: State, step: Step, after: State, u: nat)
    requires step.t in s.threads && ApplyCounters(cfg, s, step) == Some(after) && u in after.threads && after.threads[u].Stamped?
    ensures u in s.threads && after.threads[u] == s.threads[u]
  {
    hide Goto, AddU64, NegU64;
    GotoFields();
  }

  lemma PrewarmingStampsNothing(cfg: Config, s: State, step: Step, after: State, u: nat)
    requires step.t in s.threads && ApplyPrewarming(cfg, s, step) == Some(after) && u in after.threads && after.threads[u].Stamped?
    ensures u in s.threads && after.threads[u] == s.threads[u]
  {
    hide Goto;
    GotoFields();
  }

  lemma GettingStampsNothing(cfg: Config, s: State, t: nat, evicted: seq<Pooled>, rest: Idles, after: State)
    requires t in s.threads && DoLockedGet(cfg, s, t, evicted, rest) == Some(after)
    ensures t in after.threads && !after.threads[t].Stamped? && after.threads == s.threads[t := after.threads[t]]
  {
    hide Evicts, Fits, Ids, Memory, SubU64, ListOf, Goto;
    GotoFields();
    var key := s.threads[t].key;
    var mine := ListOf(s.idles, key);
    var pc := if mine != [] then WarmPopped(key, mine[|mine| - 1].id)
              else if Fits(cfg, s, evicted, s.threads[t].snapshot) then MakingSpace(key, Ids(evicted)) else Settling(cfg.memoryOf(key));
    assert after.threads == s.threads[t := pc];
  }

  lemma ListsStampNothing(cfg: Config, s: State, step: Step, after: State, u: nat)
    requires step.t in s.threads && ApplyLists(cfg, s, step) == Some(after) && u in after.threads && after.threads[u].Stamped?
    ensures u in s.threads && after.threads[u] == s.threads[u] && !(step.LockedPut? && step.t == u)
  {
    hide Reaps, Enumerates, Ids, AddU64, SubU64, DoLockedGet, Goto;
    GotoFields();
    if step.LockedGet? { GettingStampsNothing(cfg, s, step.t, step.evicted, step.rest, after); }
  }

  lemma EndingStampsNothing(cfg: Config, purpose: Purpose, next: After)
    ensures !CreateFailed(cfg, purpose).Stamped? && !Resume(cfg, next).Stamped?
  {
  }

  lemma AddressingStampsNothing(cfg: Config, s: State, t: nat, after: State)
    requires t in s.threads && DoAcquireIp(cfg, s, t) == Some(after)
    ensures t in after.threads && !after.threads[t].Stamped? && after.threads == s.threads[t := after.threads[t]]
  {
    hide KindFor, CreateFailed, Goto;
    GotoFields();
    EndingStampsNothing(cfg, s.threads[t].purpose, NextDelete);
  }

  lemma CreatingStampsNothing(cfg: Config, s: State, t: nat, c: nat, ok: bool, after: State)
    requires t in s.threads && DoDockerCreate(cfg, s, t, c, ok) == Some(after)
    ensures t in after.threads && !after.threads[t].Stamped? && after.threads == s.threads[t := after.threads[t]]
  {
    hide MemoryFor, CreateFailed, Goto, Change;
    GotoFields();
    ChangeFields();
    EndingStampsNothing(cfg, s.threads[t].purpose, NextDelete);
  }

  lemma BringingUpStampsNothing(s: State, t: nat, ok: bool, after: State)
    requires t in s.threads && DoBringUp(s, t, ok) == Some(after)
    ensures t in after.threads && !after.threads[t].Stamped? && after.threads == s.threads[t := after.threads[t]]
  {
    hide Goto;
    GotoFields();
  }

  lemma RemovalStampsNothing(cfg: Config, s: State, step: Step, after: State, u: nat)
    requires step.t in s.threads && ApplyLifetimes(cfg, s, step) == Some(after) && u in after.threads && after.threads[u].Stamped?
    requires step.UnpauseDoomed? || step.Remove? || step.ReleaseIp?
    ensures u in s.threads && after.threads[u] == s.threads[u]
  {
    hide Resume, DoAcquireIp, DoDockerCreate, DoBringUp, Goto, Change;
    GotoFields();
    ChangeFields();
    EndingStampsNothing(cfg, ForPrewarm(PrewarmKey("", 0), map[]), s.threads[step.t].after);
    assert u != step.t ==> after.threads[u] == s.threads[u];
  }

  lemma LifetimesStampNothing(cfg: Config, s: State, step: Step, after: State, u: nat)
    requires step.t in s.threads && ApplyLifetimes(cfg, s, step) == Some(after) && u in after.threads && after.threads[u].Stamped?
    ensures u in s.threads && after.threads[u] == s.threads[u]
  {
    hide DoAcquireIp, DoDockerCreate, DoBringUp, DoUnpauseDoomed, DoRemove, DoReleaseIp;
    if step.AcquireIp? { AddressingStampsNothing(cfg, s, step.t, after); }
    else if step.DockerCreate? { CreatingStampsNothing(cfg, s, step.t, step.c, step.ok, after); }
    else if step.BringUp? { BringingUpStampsNothing(s, step.t, step.ok, after); }
    else { RemovalStampsNothing(cfg, s, step, after, u); }
  }

  lemma CallersStampNothing(cfg: Config, s: State, step: Step, after: State, u: nat)
    requires step.t in s.threads && ApplyCallers(cfg, s, step) == Some(after) && !(step.ClientOp? && step.op.Put?)
    requires u in after.threads && after.threads[u].Stamped?
    ensures u in s.threads && after.threads[u] == s.threads[u]
  {
    hide Used, Goto, Change;
    GotoFields();
    ChangeFields();
  }

  /** Between stamping and filing: the stamp is the latest, and the one filed next. */
  ghost predicate Orderly(s: State, steps: seq<Step>, clock: int) {
    Ordered(s.idles) && NoneLater(s.idles, clock) && StampedIsNext(s, steps, clock)
  }

  lemma FilingIsOrderly(cfg: Config, s: State, steps: seq<Step>, clock: int, after: State)
    requires Orderly(s, steps, clock) && steps != [] && steps[0].LockedPut? && Apply(cfg, s, steps[0]) == Some(after)
    ensures FilesInOrder(s, steps[0]) && NoneLater(after.idles, clock)
  {
    hide Apply, AddU64, Ordered;
    FilingIsAListStep(cfg, s, steps[0], after);
    var key, c := s.threads[steps[0].t].key, s.threads[steps[0].t].c;
    var l := ListOf(s.idles, key);
    if l != [] { assert IsIdle(s.idles, l[|l| - 1]); }
    forall p | IsIdle(after.idles, p) ensures p.lastUsed <= clock {
      var k :| k in after.idles && p in after.idles[k];
      if k != key { assert p in s.idles[k]; }
      assert p == Pooled(c, key, s.containers[c].memory, s.containers[c].lastUsed) || IsIdle(s.idles, p);
    }
  }

  lemma StampingIsOrderly(cfg: Config, s: State, steps: seq<Step>, clock: int, after: State)
    requires Orderly(s, steps, clock) && steps != [] && steps[0].ClientOp? && steps[0].op.Put?
    requires clock <= steps[0].now && (|steps| > 1 ==> steps[1] == LockedPut(steps[0].t))
    requires Apply(cfg, s, steps[0]) == Some(after)
    ensures Orderly(after, steps[1..], steps[0].now)
  {
    hide Ordered, IsIdle, Goto, Change, ApplyCounters, ApplyPrewarming, ApplyLists, ApplyLifetimes;
    GotoFields();
    ChangeFields();
    var t := steps[0].t;
    assert after.threads[t].c in after.containers && after.containers[after.threads[t].c].lastUsed == steps[0].now;
  }

  lemma OthersAreOrderly(cfg: Config, s: State, steps: seq<Step>, clock: int, after: State)
    requires Orderly(s, steps, clock) && steps != [] && !(steps[0].ClientOp? && steps[0].op.Put?)
    requires Apply(cfg, s, steps[0]) == Some(after)
    ensures FilesInOrder(s, steps[0]) && Orderly(after, steps[1..], clock)
  {
    hide Apply, Ordered, IsIdle;
    if steps[0].LockedPut? { FilingIsOrderly(cfg, s, steps, clock, after); }
    else { OnlyFilingAdds(cfg, s, steps[0], after); }
    StepKeepsOrderIff(cfg, s, steps[0], after);
    forall u | u in after.threads && after.threads[u].Stamped? ensures false {
      NobodyElseStamps(cfg, s, steps[0], after, u);
    }
  }

  lemma {:induction false} ReturningInOneGoIsOrderly(cfg: Config, s: State, steps: seq<Step>, clock: int)
    requires Orderly(s, steps, clock) && ReturnsInOneGo(steps, clock)
    ensures OrderKept(cfg, s, steps)
    decreases |steps|
  {
    hide Apply, Ordered, NoneLater, StampedIsNext, FilesInOrder;
    if steps != [] && Apply(cfg, s, steps[0]).Some? {
      var next := Apply(cfg, s, steps[0]).value;
      if steps[0].ClientOp? && steps[0].op.Put? {
        StampingIsOrderly(cfg, s, steps, clock, next);
        ReturningInOneGoIsOrderly(cfg, next, steps[1..], steps[0].now);
      } else {
        OthersAreOrderly(cfg, s, steps, clock, next);
        ReturningInOneGoIsOrderly(cfg, next, steps[1..], clock);
      }
    }
  }

  /** If stamping and filing follow each other directly and the clock never goes back, the idle lists are
      ordered by last use all along. */
  lemma ReturningInOneGoKeepsOrder(cfg: Config, steps: seq<Step>, clock: int)
    requires ReturnsInOneGo(steps, clock)
    ensures OrderKept(cfg, Initial(cfg), steps)
  {
    ReturningInOneGoIsOrderly(cfg, Initial(cfg), steps, clock);
  }
}
