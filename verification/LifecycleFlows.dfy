/** How containers and creations flow through the queue, the prewarm lists and the background goroutines,
    in every interleaving. */
module LifecycleFlows {
  import opened Common
  import opened IdleLists
  import opened Lifecycle
  import opened LifecycleInvariant
  import opened LifecycleListSteps
  import opened LifecycleTheorems
  import opened LifecycleGet
  import opened LifecycleReturns
  import Client

  // ---------------------------------------------------------------- waiting lines

  /** Containers wait to be deleted, or to be used for the first time. */
  datatype Line = ToDelete | Stock(pk: PrewarmKey)

  function Waiting(s: State, line: Line): seq<nat> {
    match line case ToDelete => s.queue case Stock(pk) => PrewarmList(s.prewarmed, pk)
  }

  /** What a step adds to a line: what a caller evicted, or what the prewarm goroutine created. */
  function Joins(s: State, line: Line, step: Step): seq<nat> {
    if step.t !in s.threads then []
    else
      match (line, s.threads[step.t])
      case (ToDelete, MakingSpace(_, doomed)) => if doomed != [] then [doomed[0]] else []
      case (Stock(pk), PrewarmReady(of, c, _)) => if of == pk then [c] else []
      case _ => []
  }

  /** What a step takes from a line: what is unpaused to be deleted next, or what a caller holds next. */
  function Leaves(cfg: Config, line: Line, step: Step, after: State): seq<nat> {
    if step.t !in after.threads then []
    else
      match (line, step, after.threads[step.t])
      case (ToDelete, TakeQueued(_), Unpausing(c, _)) => [c]
      case (Stock(pk), LookPrewarm(_), PrewarmTaken(key, c)) =>
        if PrewarmKey(cfg.kindOf(key), cfg.memoryOf(key)) == pk then [c] else []
      case _ => []
  }

  ghost function AllJoin(cfg: Config, s: State, line: Line, steps: seq<Step>): seq<nat>
    decreases |steps|
  {
    if steps == [] || Apply(cfg, s, steps[0]).None? then []
    else Joins(s, line, steps[0]) + AllJoin(cfg, Apply(cfg, s, steps[0]).value, line, steps[1..])
  }

  ghost function AllLeave(cfg: Config, s: State, line: Line, steps: seq<Step>): seq<nat>
    decreases |steps|
  {
    if steps == [] || Apply(cfg, s, steps[0]).None? then []
    else
      var next := Apply(cfg, s, steps[0]).value;
      Leaves(cfg, line, steps[0], next) + AllLeave(cfg, next, line, steps[1..])
  }

  /** The four steps that move a line. */
  predicate MovesLine(step: Step) { step.PushDoomed? || step.TakeQueued? || step.LookPrewarm? || step.AddPrewarmed? }

  /** All others leave the lines alone. */
  predicate SameLines(s: State, after: State) { after.queue == s.queue && after.prewarmed == s.prewarmed }

  lemma PrewarmingKeepsLines(cfg: Config, s: State, step: Step, after: State)
    requires step.t in s.threads && !MovesLine(step) && ApplyPrewarming(cfg, s, step) == Some(after)
    ensures SameLines(s, after)
  {
    hide Goto;
    GotoFields();
  }

  lemma ListsKeepLines(cfg: Config, s: State, step: Step, after: State)
    requires step.t in s.threads && !MovesLine(step) && ApplyLists(cfg, s, step) == Some(after)
    ensures SameLines(s, after)
  {
    hide Goto, Evicts, Fits, Reaps, Enumerates, Ids, Memory, SubU64, AddU64, ListOf;
    GotoFields();
  }

  lemma LifetimesKeepLines(cfg: Config, s: State, step: Step, after: State)
    requires step.t in s.threads && ApplyLifetimes(cfg, s, step) == Some(after)
    ensures SameLines(s, after)
  {
    hide Goto, Change, Resume, CreateFailed, KindFor, MemoryFor;
    GotoFields();
    ChangeFields();
  }

  lemma CallersKeepLines(cfg: Config, s: State, step: Step, after: State)
    requires step.t in s.threads && !step.Arrive? && ApplyCallers(cfg, s, step) == Some(after)
    ensures SameLines(s, after)
  {
    hide Goto, Change, Used, AfterOp;
    GotoFields();
    ChangeFields();
  }

  lemma OthersKeepLines(cfg: Config, s: State, step: Step, after: State)
    requires Apply(cfg, s, step) == Some(after) && !MovesLine(step)
    ensures SameLines(s, after)
  {
    hide SameLines, ApplyCounters, ApplyPrewarming, ApplyLists, ApplyLifetimes, ApplyCallers;
    if step.Arrive? || OnCounters(step) { FiguresKeepLines(cfg, s, step, after); }
    else if OnPrewarming(step) { PrewarmingKeepsLines(cfg, s, step, after); }
    else if OnLists(step) { ListsKeepLines(cfg, s, step, after); }
    else if OnLifetimes(step) { LifetimesKeepLines(cfg, s, step, after); }
    else { CallersKeepLines(cfg, s, step, after); }
  }

  lemma FiguresKeepLines(cfg: Config, s: State, step: Step, after: State)
    requires Apply(cfg, s, step) == Some(after) && (step.Arrive? || OnCounters(step))
    ensures SameLines(s, after)
  {
    hide Goto, AddU64, NegU64;
    GotoFields();
  }

  /** The flow of one line over one step. */
  ghost predicate Flows(cfg: Config, s: State, step: Step, after: State, line: Line) {
    Waiting(s, line) + Joins(s, line, step) == Leaves(cfg, line, step, after) + Waiting(after, line)
  }

  lemma NothingFlows(cfg: Config, s: State, step: Step, after: State, line: Line)
    requires SameLines(s, after) && !MovesLine(step) && (step.t in s.threads ==> Suits(s.threads[step.t], step))
    ensures Flows(cfg, s, step, after, line)
  {
  }

  lemma PushFlows(cfg: Config, s: State, step: Step, after: State, line: Line)
    requires step.PushDoomed? && step.t in s.threads && Apply(cfg, s, step) == Some(after)
    ensures Flows(cfg, s, step, after, line)
  {
    hide Goto;
    GotoFields();
  }

  lemma TakeFlows(cfg: Config, s: State, step: Step, after: State, line: Line)
    requires step.TakeQueued? && step.t in s.threads && Apply(cfg, s, step) == Some(after)
    ensures Flows(cfg, s, step, after, line)
  {
    hide Goto;
    GotoFields();
  }

  lemma LookFlows(cfg: Config, s: State, step: Step, after: State, line: Line)
    requires step.LookPrewarm? && step.t in s.threads && Apply(cfg, s, step) == Some(after)
    ensures Flows(cfg, s, step, after, line)
  {
    hide Apply, Goto;
    GotoFields();
    StepSuits(cfg, s, step);
    LookDoes(cfg, s, step.t, after);
    var key := s.threads[step.t].key;
    var pk := PrewarmKey(cfg.kindOf(key), cfg.memoryOf(key));
    if line == Stock(pk) && PrewarmList(s.prewarmed, pk) != [] {
      var l := s.prewarmed[pk];
      assert l + [] == [l[0]] + l[1..];
    }
  }

  lemma AddedTo(prewarmed: map<PrewarmKey, seq<nat>>, pk: PrewarmKey, c: nat)
    ensures var more := prewarmed[pk := PrewarmList(prewarmed, pk) + [c]];
      forall other :: PrewarmList(more, other) == if other == pk then PrewarmList(prewarmed, pk) + [c] else PrewarmList(prewarmed, other)
  {
  }

  lemma AddFlows(cfg: Config, s: State, step: Step, after: State, line: Line)
    requires step.AddPrewarmed? && step.t in s.threads && Apply(cfg, s, step) == Some(after)
    ensures Flows(cfg, s, step, after, line)
  {
    hide Apply, Goto;
    GotoFields();
    StepSuits(cfg, s, step);
    CreatedIsAdded(cfg, s, step, after);
    hide PrewarmList;
    AddedTo(s.prewarmed, s.threads[step.t].pk, s.threads[step.t].c);
    var pk, c := s.threads[step.t].pk, s.threads[step.t].c;
    if line == Stock(pk) {
      assert Joins(s, line, step) == [c] && Leaves(cfg, line, step, after) == [];
      assert Waiting(after, line) == Waiting(s, line) + [c];
    } else {
      assert Joins(s, line, step) == [] && Leaves(cfg, line, step, after) == [];
      assert Waiting(after, line) == Waiting(s, line);
    }
  }

  lemma StepFlows(cfg: Config, s: State, step: Step, after: State, line: Line)
    requires Apply(cfg, s, step) == Some(after)
    ensures Flows(cfg, s, step, after, line)
  {
    hide Flows, Apply;
    if !step.Arrive? { StepsAreOfThreads(cfg, s, step); }
    if step.PushDoomed? { PushFlows(cfg, s, step, after, line); }
    else if step.TakeQueued? { TakeFlows(cfg, s, step, after, line); }
    else if step.LookPrewarm? { LookFlows(cfg, s, step, after, line); }
    else if step.AddPrewarmed? { AddFlows(cfg, s, step, after, line); }
    else {
      OthersKeepLines(cfg, s, step, after);
      if step.t in s.threads { StepSuits(cfg, s, step); }
      NothingFlows(cfg, s, step, after, line);
    }
  }

  /** First in, first out: in every run, what waited and what joined the line is what left it and what
      still waits, in this order. */
  lemma {:induction false} LinesAreFifo(cfg: Config, s: State, steps: seq<Step>, after: State, line: Line)
    requires RunAll(cfg, s, steps) == Some(after)
    ensures Waiting(s, line) + AllJoin(cfg, s, line, steps) == AllLeave(cfg, s, line, steps) + Waiting(after, line)
    decreases |steps|
  {
    hide Apply, Waiting, Joins, Leaves;
    if steps != [] {
      var next := Apply(cfg, s, steps[0]).value;
      var joins, leaves := Joins(s, line, steps[0]), Leaves(cfg, line, steps[0], next);
      StepFlows(cfg, s, steps[0], next, line);
      LinesAreFifo(cfg, next, steps[1..], after, line);
      var moreJoin, moreLeave := AllJoin(cfg, next, line, steps[1..]), AllLeave(cfg, next, line, steps[1..]);
      assert Waiting(s, line) + (joins + moreJoin) == (Waiting(s, line) + joins) + moreJoin;
      assert leaves + (Waiting(next, line) + moreJoin) == (leaves + Waiting(next, line)) + moreJoin;
      assert leaves + (moreLeave + Waiting(after, line)) == (leaves + moreLeave) + Waiting(after, line);
    }
  }

  /** Sending waits exactly while sixteen containers wait to be deleted, and there are never more. */
  lemma QueueHoldsSixteen(cfg: Config, s: State, t: nat)
    requires Sensible(cfg) && Reachable(cfg, s)
    ensures |s.queue| <= 16
    ensures t in s.threads && s.threads[t].MakingSpace? && s.threads[t].doomed != [] ==>
      (Apply(cfg, s, PushDoomed(t)).Some? <==> |s.queue| < 16)
  {
    hide MemoryInv, AddressInv, FactsInv, PrewarmInv, Goto, Reachable, Places;
    ReachableHolds(cfg, s);
  }

  /** A request is admitted exactly while its memory fits beside what is held, and then it can still be
      canceled instead. */
  lemma AdmittedIffItFits(cfg: Config, s: State, t: nat)
    requires t in s.threads && s.threads[t].Entering?
    ensures Apply(cfg, s, Acquire(t)).Some? <==> s.held + cfg.memoryOf(s.threads[t].key) <= cfg.maxMemory
    ensures Apply(cfg, s, CancelAcquire(t)).Some?
  {
    hide Goto;
  }

  // ---------------------------------------------------------------- what is doomed stays doomed

  /** The containers a thread is about to send for deletion, or to remove. */
  function DoomedBy(pc: Pc): seq<nat> {
    match pc
    case MakingSpace(_, doomed) => doomed
    case Unpausing(c, next) => [c] + StillDoomed(next)
    case Removing(c, next) => [c] + StillDoomed(next)
    case Releasing(c, next) => [c] + StillDoomed(next)
    case Reaping(doomed) => doomed
    case _ => []
  }

  predicate Dead(s: State, c: nat) { c in s.containers && s.containers[c].fate != Alive }

  predicate DoomedIn(s: State, t: nat, c: nat) { t in s.threads && c in DoomedBy(s.threads[t]) }

  /** Chosen for deletion, or removed, or given up. */
  ghost predicate Doomed(s: State, c: nat) {
    Dead(s, c) || c in s.queue || exists t :: DoomedIn(s, t, c)
  }

  /** What one step does to a doomed container. */
  ghost predicate StaysDoomed(s: State, t: nat, after: State, c: nat) {
    && (Dead(s, c) ==> Dead(after, c))
    && (c in s.queue ==> c in after.queue || DoomedIn(after, t, c))
    && (DoomedIn(s, t, c) ==> Dead(after, c) || c in after.queue || DoomedIn(after, t, c))
    && (forall u :: u in s.threads && u != t ==> u in after.threads && after.threads[u] == s.threads[u])
  }

  lemma StayingDoomed(s: State, t: nat, after: State, c: nat)
    requires StaysDoomed(s, t, after, c) && Doomed(s, c)
    ensures Doomed(after, c)
  {
    hide DoomedBy, Dead;
    if c !in s.queue && !Dead(s, c) {
      var u :| DoomedIn(s, u, c);
      assert u != t ==> DoomedIn(after, u, c);
    }
  }

  /** A thread that dooms nothing yet. */
  lemma NothingDoomed(s: State, t: nat, after: State, c: nat, pc: Pc)
    requires t in s.threads && DoomedBy(s.threads[t]) == [] && after.queue == s.queue
    requires after.threads == s.threads[t := pc] && (Dead(s, c) ==> Dead(after, c))
    ensures StaysDoomed(s, t, after, c)
  {
  }

  lemma DeadStays(s: State, after: State, c: nat)
    requires after.containers == s.containers
    ensures Dead(after, c) <==> Dead(s, c)
  {
  }

  /** Changing a container does not bring it back. */
  lemma DeadStaysDead(s: State, d: nat, x: Container, after: State, c: nat)
    requires after.containers == s.containers[d := x] && (d in s.containers ==> x.fate == s.containers[d].fate || x.fate != Alive)
    ensures Dead(s, c) ==> Dead(after, c)
  {
  }

  lemma CountersKeepDoomed(cfg: Config, s: State, step: Step, after: State, c: nat)
    requires step.t in s.threads && ApplyCounters(cfg, s, step) == Some(after)
    ensures StaysDoomed(s, step.t, after, c)
  {
    hide Goto, AddU64, NegU64;
    GotoFields();
  }

  lemma PrewarmingKeepsDoomed(cfg: Config, s: State, step: Step, after: State, c: nat)
    requires step.t in s.threads && ApplyPrewarming(cfg, s, step) == Some(after)
    ensures StaysDoomed(s, step.t, after, c)
  {
    hide StaysDoomed, Dead, ApplyPrewarming;
    PrewarmingDoomsNothing(cfg, s, step, after);
    DeadStays(s, after, c);
    NothingDoomed(s, step.t, after, c, after.threads[step.t]);
  }

  lemma PrewarmingDoomsNothing(cfg: Config, s: State, step: Step, after: State)
    requires step.t in s.threads && ApplyPrewarming(cfg, s, step) == Some(after)
    ensures step.t in after.threads && after.threads == s.threads[step.t := after.threads[step.t]]
    ensures DoomedBy(s.threads[step.t]) == [] && after.queue == s.queue && after.containers == s.containers
  {
    hide Goto;
    GotoFields();
  }

  lemma GettingKeepsDoomed(cfg: Config, s: State, t: nat, evicted: seq<Pooled>, rest: Idles, after: State, c: nat)
    requires t in s.threads && DoLockedGet(cfg, s, t, evicted, rest) == Some(after)
    ensures StaysDoomed(s, t, after, c)
  {
    hide StaysDoomed, Dead, DoLockedGet, DoomedBy;
    GettingMoves(cfg, s, t, evicted, rest, after);
    DeadStays(s, after, c);
    NothingDoomed(s, t, after, c, after.threads[t]);
  }

  lemma GettingMoves(cfg: Config, s: State, t: nat, evicted: seq<Pooled>, rest: Idles, after: State)
    requires t in s.threads && DoLockedGet(cfg, s, t, evicted, rest) == Some(after)
    ensures t in after.threads && after.threads == s.threads[t := after.threads[t]]
    ensures DoomedBy(s.threads[t]) == [] && after.queue == s.queue && after.containers == s.containers
  {
    hide Evicts, Fits, Ids, Memory, SubU64, ListOf;
  }

  lemma PushingKeepsDoomed(s: State, t: nat, after: State, c: nat)
    requires t in s.threads && DoPushDoomed(s, t) == Some(after)
    ensures StaysDoomed(s, t, after, c)
  {
    hide Goto;
    GotoFields();
  }

  lemma FilingKeepsDoomed(s: State, t: nat, after: State, c: nat)
    requires t in s.threads && DoLockedPut(s, t) == Some(after)
    ensures StaysDoomed(s, t, after, c)
  {
    hide Goto, AddU64, ListOf;
    GotoFields();
  }

  lemma TakingKeepsDoomed(s: State, t: nat, after: State, c: nat)
    requires t in s.threads && DoTakeQueued(s, t) == Some(after)
    ensures StaysDoomed(s, t, after, c)
  {
    hide Goto;
    GotoFields();
  }

  lemma CollectingKeepsDoomed(s: State, t: nat, cutoff: int, order: seq<WarmKey>, removed: seq<Pooled>, rest: Idles, after: State, c: nat)
    requires t in s.threads && DoLockedReap(s, t, cutoff, order, removed, rest) == Some(after)
    ensures StaysDoomed(s, t, after, c)
  {
    hide Goto, Reaps, Enumerates, Ids, Memory, SubU64;
    GotoFields();
  }

  lemma ReapingKeepsDoomed(s: State, t: nat, after: State, c: nat)
    requires t in s.threads && DoTakeReaped(s, t) == Some(after)
    ensures StaysDoomed(s, t, after, c)
  {
    hide Goto;
    GotoFields();
  }

  lemma ListsKeepDoomed(cfg: Config, s: State, step: Step, after: State, c: nat)
    requires step.t in s.threads && ApplyLists(cfg, s, step) == Some(after)
    ensures StaysDoomed(s, step.t, after, c)
  {
    hide StaysDoomed, DoLockedGet, DoPushDoomed, DoLockedPut, DoTakeQueued, DoLockedReap, DoTakeReaped;
    match step
    case LockedGet(t, evicted, rest) => GettingKeepsDoomed(cfg, s, t, evicted, rest, after, c);
    case PushDoomed(t) => PushingKeepsDoomed(s, t, after, c);
    case LockedPut(t) => FilingKeepsDoomed(s, t, after, c);
    case TakeQueued(t) => TakingKeepsDoomed(s, t, after, c);
    case LockedReap(t, cutoff, order, removed, rest) => CollectingKeepsDoomed(s, t, cutoff, order, removed, rest, after, c);
    case TakeReaped(t) => ReapingKeepsDoomed(s, t, after, c);
    case _ =>
  }

  lemma UnpausingKeepsDoomed(s: State, t: nat, after: State, c: nat)
    requires t in s.threads && DoUnpauseDoomed(s, t) == Some(after)
    ensures StaysDoomed(s, t, after, c)
  {
    hide Goto, Change;
    GotoFields();
    ChangeFields();
  }

  lemma RemovingKeepsDoomed(cfg: Config, s: State, t: nat, cleanupOk: bool, dockerOk: bool, after: State, c: nat)
    requires t in s.threads && DoRemove(cfg, s, t, cleanupOk, dockerOk) == Some(after)
    ensures StaysDoomed(s, t, after, c)
  {
    hide Goto, Change, Resume;
    GotoFields();
    ChangeFields();
    ResumesDoomed(cfg, s.threads[t].after);
  }

  lemma ReleasingKeepsDoomed(cfg: Config, s: State, t: nat, after: State, c: nat)
    requires t in s.threads && DoReleaseIp(cfg, s, t) == Some(after)
    ensures StaysDoomed(s, t, after, c)
  {
    hide Goto, Change, Resume;
    GotoFields();
    ChangeFields();
    ResumesDoomed(cfg, s.threads[t].after);
  }

  /** Whoever removes a container goes on with the rest of those it has to remove. */
  lemma ResumesDoomed(cfg: Config, next: After)
    ensures DoomedBy(Resume(cfg, next)) == StillDoomed(next)
  {
  }

  lemma CreatingKeepsDoomed(cfg: Config, s: State, step: Step, after: State, c: nat)
    requires step.t in s.threads && ApplyLifetimes(cfg, s, step) == Some(after)
    requires step.AcquireIp? || step.DockerCreate? || step.BringUp?
    ensures StaysDoomed(s, step.t, after, c)
  {
    hide Goto, Change, KindFor, MemoryFor, CreateFailed, StaysDoomed, Dead;
    GotoFields();
    ChangeFields();
    if after.containers == s.containers { DeadStays(s, after, c); }
    else { DeadStaysDead(s, step.c, after.containers[step.c], after, c); }
    NothingDoomed(s, step.t, after, c, after.threads[step.t]);
  }

  lemma LifetimesKeepDoomed(cfg: Config, s: State, step: Step, after: State, c: nat)
    requires step.t in s.threads && ApplyLifetimes(cfg, s, step) == Some(after)
    ensures StaysDoomed(s, step.t, after, c)
  {
    hide StaysDoomed, DoAcquireIp, DoDockerCreate, DoBringUp, DoUnpauseDoomed, DoRemove, DoReleaseIp;
    match step
    case UnpauseDoomed(t) => UnpausingKeepsDoomed(s, t, after, c);
    case Remove(t, cleanupOk, dockerOk) => RemovingKeepsDoomed(cfg, s, t, cleanupOk, dockerOk, after, c);
    case ReleaseIp(t) => ReleasingKeepsDoomed(cfg, s, t, after, c);
    case _ => CreatingKeepsDoomed(cfg, s, step, after, c);
  }

  /** A caller that changes one container of its own. */
  lemma ChangeKeepsDoomed(s: State, t: nat, d: nat, x: Container, pc: Pc, c: nat)
    requires t in s.threads && DoomedBy(s.threads[t]) == []
    requires d in s.containers ==> x.fate == s.containers[d].fate || x.fate != Alive
    ensures StaysDoomed(s, t, Goto(Change(s, d, x), t, pc), c)
  {
    hide StaysDoomed, Dead;
    DeadStaysDead(s, d, x, Goto(Change(s, d, x), t, pc), c);
    NothingDoomed(s, t, Goto(Change(s, d, x), t, pc), c, pc);
  }

  lemma GotoKeepsDoomed(s: State, t: nat, pc: Pc, c: nat)
    requires t in s.threads && DoomedBy(s.threads[t]) == []
    ensures StaysDoomed(s, t, Goto(s, t, pc), c)
  {
  }

  lemma WarmCallersKeepDoomed(cfg: Config, s: State, step: Step, after: State, c: nat)
    requires step.t in s.threads && Apply(cfg, s, step) == Some(after) && (step.UnpauseWarm? || step.WarmFirewall?)
    ensures StaysDoomed(s, step.t, after, c)
  {
    hide StaysDoomed, Goto, Change, Apply;
    StepSuits(cfg, s, step);
    var d, key := s.threads[step.t].c, s.threads[step.t].key;
    if step.UnpauseWarm? {
      UnpauseDoes(cfg, s, step.t, step.ok, step.stateKnown, after);
      var x := s.containers[d].(pauses := s.containers[d].pauses - 1);
      if step.ok { ChangeKeepsDoomed(s, step.t, d, x, WarmAwake(key, d), c); }
      else if step.stateKnown { ChangeKeepsDoomed(s, step.t, d, x, Removing(d, FailGet(key)), c); }
      else { ChangeKeepsDoomed(s, step.t, d, x.(fate := Lost), Settling(cfg.memoryOf(key)), c); }
    } else {
      WarmFirewallDoes(cfg, s, step.t, step.needed, step.ok, after);
      ChangeKeepsDoomed(s, step.t, d, s.containers[d].(firewall := step.needed), Using(key, d, Client.Ready), c);
      GotoKeepsDoomed(s, step.t, Removing(d, FailGet(key)), c);
    }
  }

  lemma OtherCallersKeepDoomed(cfg: Config, s: State, step: Step, after: State, c: nat)
    requires step.t in s.threads && Apply(cfg, s, step) == Some(after) && (step.NewFirewall? || step.ClientOp?)
    ensures StaysDoomed(s, step.t, after, c)
  {
    hide StaysDoomed, Goto, Change, Apply, AfterOp;
    StepSuits(cfg, s, step);
    var d, key := s.threads[step.t].c, s.threads[step.t].key;
    if step.NewFirewall? {
      NewFirewallDoes(cfg, s, step.t, step.needed, step.ok, after);
      ChangeKeepsDoomed(s, step.t, d, s.containers[d].(firewall := step.needed, boundTo := Some(key)), Using(key, d, Client.Fresh), c);
      GotoKeepsDoomed(s, step.t, Removing(d, FailGet(key)), c);
    } else {
      OperationDoes(cfg, s, step, after);
      var x := s.containers[d];
      ChangeKeepsDoomed(s, step.t, d, Used(x, key, step.op, step.now),
                        AfterOp(key, d, x.memory, step.op, Client.Next(s.threads[step.t].stage, step.op).value), c);
    }
  }

  lemma StepKeepsDoomed(cfg: Config, s: State, step: Step, after: State, c: nat)
    requires Apply(cfg, s, step) == Some(after) && Doomed(s, c)
    ensures Doomed(after, c)
  {
    hide StaysDoomed, ApplyCounters, ApplyPrewarming, ApplyLists, ApplyLifetimes, ApplyCallers, Doomed;
    if step.Arrive? { ArrivalKeepsDoomed(cfg, s, step, after, c); }
    else if OnCounters(step) { CountersKeepDoomed(cfg, s, step, after, c); }
    else if OnPrewarming(step) { PrewarmingKeepsDoomed(cfg, s, step, after, c); }
    else if OnLists(step) { ListsKeepDoomed(cfg, s, step, after, c); }
    else if OnLifetimes(step) { LifetimesKeepDoomed(cfg, s, step, after, c); }
    else if step.UnpauseWarm? || step.WarmFirewall? { WarmCallersKeepDoomed(cfg, s, step, after, c); }
    else { OtherCallersKeepDoomed(cfg, s, step, after, c); }
    StayingDoomed(s, step.t, after, c);
  }

  lemma ArrivalKeepsDoomed(cfg: Config, s: State, step: Step, after: State, c: nat)
    requires step.Arrive? && DoArrive(s, step.t, step.key) == Some(after)
    ensures StaysDoomed(s, step.t, after, c)
  {
  }

  lemma {:induction false} RunKeepsDoomed(cfg: Config, s: State, steps: seq<Step>, after: State, c: nat)
    requires RunAll(cfg, s, steps) == Some(after) && Doomed(s, c)
    ensures Doomed(after, c)
    decreases |steps|
  {
    hide Apply, Doomed;
    if steps != [] {
      var next := Apply(cfg, s, steps[0]).value;
      StepKeepsDoomed(cfg, s, steps[0], next, c);
      RunKeepsDoomed(cfg, next, steps[1..], after, c);
    }
  }

  /** A container chosen for deletion, removed or given up never comes back: however the run goes on, it is
      still being deleted, gone or given up, and so never idle, prewarmed or in a caller's use again. */
  lemma DoomedNeverReturns(cfg: Config, s: State, steps: seq<Step>, after: State, c: nat)
    requires Sensible(cfg) && Reachable(cfg, s) && RunAll(cfg, s, steps) == Some(after)
    requires c in s.containers
    requires c in s.queue || s.containers[c].fate != Alive || exists t :: DoomedIn(s, t, c)
    ensures c in after.queue || (c in after.containers && after.containers[c].fate != Alive) || exists t :: DoomedIn(after, t, c)
    ensures forall k, i :: k in after.idles && 0 <= i < |after.idles[k]| ==> after.idles[k][i].id != c
    ensures forall pk, i :: pk in after.prewarmed && 0 <= i < |after.prewarmed[pk]| ==> after.prewarmed[pk][i] != c
    ensures forall t :: t in after.threads && (after.threads[t].Using? || after.threads[t].WarmPopped? || after.threads[t].PrewarmTaken?) ==>
      after.threads[t].c != c
  {
    hide Inv, RunAll, Sensible, Reachable, DoomedBy, Holds, MemoryInv, CensusInv, AddressInv, FactsInv, PrewarmInv;
    RunKeepsDoomed(cfg, s, steps, after, c);
    ReachableHolds(cfg, s);
    RunKeeps(cfg, s, steps, after);
    DoomedIsNowhereElse(cfg, after, c);
  }

  lemma DoomedIsNowhereElse(cfg: Config, s: State, c: nat)
    requires Inv(cfg, s) && Doomed(s, c)
    ensures NotListed(s.(queue := []), c)
    ensures forall t :: t in s.threads && (s.threads[t].Using? || s.threads[t].WarmPopped? || s.threads[t].PrewarmTaken?) ==> s.threads[t].c != c
  {
    hide Inv, DoomedBy, Holds, MemoryInv, CensusInv, AddressInv, FactsInv, PrewarmInv;
    InvParts(cfg, s);
    if exists u :: DoomedIn(s, u, c) {
      var u :| DoomedIn(s, u, c);
      DoomedIsHeld(s.threads[u], c);
      Alone(cfg, s, u, c);
      forall t | t in s.threads && (s.threads[t].Using? || s.threads[t].WarmPopped? || s.threads[t].PrewarmTaken?) ensures s.threads[t].c != c {
        UsersDoomNothing(s.threads[t]);
      }
    } else {
      ShelvedIsNotHeld(cfg, s, c);
      forall t | t in s.threads && (s.threads[t].Using? || s.threads[t].WarmPopped? || s.threads[t].PrewarmTaken?) ensures s.threads[t].c != c {
        UsersDoomNothing(s.threads[t]);
      }
    }
  }

  lemma DoomedIsHeld(pc: Pc, c: nat)
    ensures c in DoomedBy(pc) ==> c in Holds(pc)
  {
  }

  lemma UsersDoomNothing(pc: Pc)
    requires pc.Using? || pc.WarmPopped? || pc.PrewarmTaken?
    ensures DoomedBy(pc) == [] && pc.c in Holds(pc)
  {
  }

  /** What is queued or dead is in nobody's hands and on no other list. */
  lemma ShelvedIsNotHeld(cfg: Config, s: State, c: nat)
    requires CensusInv(cfg, s) && (Dead(s, c) || c in s.queue)
    ensures NotListed(s.(queue := []), c) && forall t :: t in s.threads ==> c !in Holds(s.threads[t])
  {
    hide Holds;
    assert Places(cfg, s, c) == Exists(s, c);
    assert c in s.queue ==> multiset(s.queue)[c] >= 1;
    ListedIsCounted(cfg, s.(queue := []), c);
    forall t | t in s.threads ensures c !in Holds(s.threads[t]) {
      ThreadMoves(cfg, s.threads, t, Done);
      HeldIsCounted(cfg, s.threads[t], c);
    }
  }

  // ---------------------------------------------------------------- as many prewarmed containers as configured

  /** The configured count; nothing is prewarmed for other kinds and memories. */
  function Configured(cfg: Config, pk: PrewarmKey): nat {
    if pk in cfg.stemcells && cfg.stemcells[pk] > 0 then cfg.stemcells[pk] else 0
  }

  function Planned(pc: Pc, pk: PrewarmKey): nat {
    var plan := Outstanding(pc);
    if plan.Some? && pk in plan.value then plan.value[pk] else 0
  }

  /** What is there and what is planned do not exceed the configured count. */
  predicate Bounded(cfg: Config, s: State, pk: PrewarmKey) {
    && PREWARMER in s.threads
    && |PrewarmList(s.prewarmed, pk)| + Planned(s.threads[PREWARMER], pk) <= Configured(cfg, pk)
  }

  /** The step moves its own thread only, which has no more to create afterwards. */
  predicate PlansNoMore(s: State, t: nat, after: State, pk: PrewarmKey) {
    && t in s.threads && t in after.threads && after.threads == s.threads[t := after.threads[t]]
    && Planned(after.threads[t], pk) <= Planned(s.threads[t], pk)
  }

  lemma CountersPlan(cfg: Config, s: State, step: Step, after: State, pk: PrewarmKey)
    requires step.t in s.threads && ApplyCounters(cfg, s, step) == Some(after)
    ensures PlansNoMore(s, step.t, after, pk)
  {
    hide Goto, AddU64, NegU64;
    GotoFields();
  }

  lemma PrewarmingPlans(cfg: Config, s: State, step: Step, after: State, pk: PrewarmKey)
    requires step.t in s.threads && !step.Plan? && !step.AddPrewarmed? && ApplyPrewarming(cfg, s, step) == Some(after)
    ensures PlansNoMore(s, step.t, after, pk)
  {
    hide Goto;
    GotoFields();
  }

  /** Where nothing is planned. */
  lemma NothingPlanned(pc: Pc, pk: PrewarmKey)
    requires pc.WarmPopped? || pc.MakingSpace? || pc.Settling? || pc.Unpausing? || pc.Removing? || pc.Releasing?
          || pc.Reaping? || pc.DeleterIdle? || pc.PrewarmFailed?
    ensures Planned(pc, pk) == 0
  {
  }

  lemma ListsPlan(cfg: Config, s: State, step: Step, after: State, pk: PrewarmKey)
    requires step.t in s.threads && ApplyLists(cfg, s, step) == Some(after)
    ensures PlansNoMore(s, step.t, after, pk)
  {
    hide DoLockedGet, Goto, Reaps, Enumerates, Ids, Memory, SubU64, AddU64, ListOf, Planned;
    GotoFields();
    if step.LockedGet? {
      GettingMoves(cfg, s, step.t, step.evicted, step.rest, after);
      GettingLeads(cfg, s, step.t, step.evicted, step.rest, after);
    }
    NothingPlanned(after.threads[step.t], pk);
  }

  lemma RemovalsPlan(cfg: Config, s: State, step: Step, after: State, pk: PrewarmKey)
    requires step.t in s.threads && ApplyLifetimes(cfg, s, step) == Some(after)
    requires step.UnpauseDoomed? || step.Remove? || step.ReleaseIp?
    ensures PlansNoMore(s, step.t, after, pk)
  {
    hide Goto, Change, Planned, Resume;
    GotoFields();
    ChangeFields();
    ResumesUnplanned(cfg, s.threads[step.t].after);
    NothingPlanned(after.threads[step.t], pk);
  }

  lemma ResumesUnplanned(cfg: Config, next: After)
    ensures var pc := Resume(cfg, next); pc.Settling? || pc.DeleterIdle? || pc.Reaping? || pc.PrewarmFailed?
  {
  }

  lemma CreationsPlan(cfg: Config, s: State, step: Step, after: State, pk: PrewarmKey)
    requires step.t in s.threads && Apply(cfg, s, step) == Some(after) && (step.AcquireIp? || step.DockerCreate? || step.BringUp?)
    ensures PlansNoMore(s, step.t, after, pk)
  {
    hide Apply;
    StepSuits(cfg, s, step);
    if step.AcquireIp? { AddressOrFailure(cfg, s, step, after); }
    else if step.DockerCreate? { CreatedOrReturned(cfg, s, step, after); }
    else { UpOrRemoved(cfg, s, step, after); }
  }

  lemma LifetimesPlan(cfg: Config, s: State, step: Step, after: State, pk: PrewarmKey)
    requires step.t in s.threads && OnLifetimes(step) && Apply(cfg, s, step) == Some(after)
    ensures PlansNoMore(s, step.t, after, pk)
  {
    hide PlansNoMore, ApplyLifetimes;
    if step.UnpauseDoomed? || step.Remove? || step.ReleaseIp? { RemovalsPlan(cfg, s, step, after, pk); }
    else { CreationsPlan(cfg, s, step, after, pk); }
  }

  lemma CallersPlan(cfg: Config, s: State, step: Step, after: State, pk: PrewarmKey)
    requires step.t in s.threads && !step.Arrive? && ApplyCallers(cfg, s, step) == Some(after)
    ensures PlansNoMore(s, step.t, after, pk)
  {
    hide Goto, Change, Used;
    GotoFields();
    ChangeFields();
  }

  lemma OthersPlanNoMore(cfg: Config, s: State, step: Step, after: State, pk: PrewarmKey)
    requires !step.Arrive? && !step.Plan? && !step.AddPrewarmed? && Apply(cfg, s, step) == Some(after)
    ensures PlansNoMore(s, step.t, after, pk)
  {
    hide PlansNoMore, ApplyCounters, ApplyPrewarming, ApplyLists, ApplyLifetimes, ApplyCallers;
    if OnCounters(step) { CountersPlan(cfg, s, step, after, pk); }
    else if OnPrewarming(step) { PrewarmingPlans(cfg, s, step, after, pk); }
    else if OnLists(step) { ListsPlan(cfg, s, step, after, pk); }
    else if OnLifetimes(step) { LifetimesPlan(cfg, s, step, after, pk); }
    else { CallersPlan(cfg, s, step, after, pk); }
  }

  /** Whatever moves the lists but the addition only shortens them. */
  lemma ListsShrink(cfg: Config, s: State, step: Step, after: State, pk: PrewarmKey)
    requires !step.AddPrewarmed? && Apply(cfg, s, step) == Some(after)
    ensures |PrewarmList(after.prewarmed, pk)| <= |PrewarmList(s.prewarmed, pk)|
  {
    hide Apply, Goto;
    GotoFields();
    if step.LookPrewarm? {
      StepsAreOfThreads(cfg, s, step);
      StepSuits(cfg, s, step);
      LookDoes(cfg, s, step.t, after);
    } else if step.PushDoomed? || step.TakeQueued? {
      QueueStepsKeepPrewarmed(cfg, s, step, after);
    } else {
      OthersKeepLines(cfg, s, step, after);
    }
  }

  lemma QueueStepsKeepPrewarmed(cfg: Config, s: State, step: Step, after: State)
    requires (step.PushDoomed? || step.TakeQueued?) && Apply(cfg, s, step) == Some(after)
    ensures after.prewarmed == s.prewarmed
  {
    hide Goto;
    GotoFields();
  }

  lemma PlanDoes(cfg: Config, s: State, t: nat, after: State)
    requires t in s.threads && Apply(cfg, s, Plan(t)) == Some(after)
    ensures s.threads[t].Planning? && after == Goto(s, t, Creating(Missing(cfg, s)))
  {
    hide Goto;
  }

  lemma PlanIsBounded(cfg: Config, s: State, t: nat, after: State, pk: PrewarmKey)
    requires Bounded(cfg, s, pk) && RolesInv(s) && t in s.threads && Apply(cfg, s, Plan(t)) == Some(after)
    ensures Bounded(cfg, after, pk)
  {
    hide Apply;
    PlanDoes(cfg, s, t, after);
    assert RoleOf(s.threads[t]) == Prewarmer;
  }

  lemma AdditionIsBounded(cfg: Config, s: State, t: nat, after: State, pk: PrewarmKey)
    requires Bounded(cfg, s, pk) && RolesInv(s) && t in s.threads && Apply(cfg, s, AddPrewarmed(t)) == Some(after)
    ensures Bounded(cfg, after, pk)
  {
    hide Apply, Configured;
    StepSuits(cfg, s, AddPrewarmed(t));
    CreatedIsAdded(cfg, s, AddPrewarmed(t), after);
    assert RoleOf(s.threads[t]) == Prewarmer;
  }

  lemma StepIsBounded(cfg: Config, s: State, step: Step, after: State, pk: PrewarmKey)
    requires Bounded(cfg, s, pk) && RolesInv(s) && Apply(cfg, s, step) == Some(after)
    ensures Bounded(cfg, after, pk)
  {
    hide Apply, Configured, Planned, RolesInv, PrewarmList;
    if !step.Arrive? { StepsAreOfThreads(cfg, s, step); }
    if step.Plan? { PlanIsBounded(cfg, s, step.t, after, pk); }
    else if step.AddPrewarmed? { AdditionIsBounded(cfg, s, step.t, after, pk); }
    else {
      ListsShrink(cfg, s, step, after, pk);
      if step.Arrive? { ArrivalKeepsPlan(cfg, s, step, after); }
      else { OthersPlanNoMore(cfg, s, step, after, pk); }
    }
  }

  lemma ArrivalKeepsPlan(cfg: Config, s: State, step: Step, after: State)
    requires step.Arrive? && Apply(cfg, s, step) == Some(after) && PREWARMER in s.threads
    ensures PREWARMER in after.threads && after.threads[PREWARMER] == s.threads[PREWARMER]
  {
  }

  lemma {:induction false} RunIsBounded(cfg: Config, s: State, steps: seq<Step>, after: State, pk: PrewarmKey)
    requires Sensible(cfg) && Inv(cfg, s) && Bounded(cfg, s, pk) && RunAll(cfg, s, steps) == Some(after)
    ensures Bounded(cfg, after, pk)
    decreases |steps|
  {
    hide Apply, Inv, Sensible, Bounded, MemoryInv, CensusInv, AddressInv, FactsInv;
    if steps != [] {
      var next := Apply(cfg, s, steps[0]).value;
      InvParts(cfg, s);
      StepKeeps(cfg, s, steps[0], next);
      StepIsBounded(cfg, s, steps[0], next, pk);
      RunIsBounded(cfg, next, steps[1..], after, pk);
    }
  }

  /** Prewarming never overshoots: in every reachable state there are no more prewarmed containers of a kind
      and memory than configured, whatever is taken and added meanwhile; and whenever prewarming is quiet,
      there are exactly as many. */
  lemma PrewarmIsExact(cfg: Config, s: State, pk: PrewarmKey)
    requires Sensible(cfg) && Reachable(cfg, s)
    ensures pk in cfg.stemcells && cfg.stemcells[pk] >= 0 ==> |PrewarmList(s.prewarmed, pk)| <= cfg.stemcells[pk]
    ensures pk !in cfg.stemcells || cfg.stemcells[pk] <= 0 ==> PrewarmList(s.prewarmed, pk) == []
    ensures PrewarmQuiet(s) && pk in cfg.stemcells && cfg.stemcells[pk] >= 0 ==> |PrewarmList(s.prewarmed, pk)| == cfg.stemcells[pk]
  {
    hide Apply, Inv, Sensible, RunAll, PrewarmQuiet;
    var steps :| RunAll(cfg, Initial(cfg), steps) == Some(s);
    InitialHolds(cfg);
    RunIsBounded(cfg, Initial(cfg), steps, s, pk);
    if PrewarmQuiet(s) && pk in cfg.stemcells { NoLostWakeup(cfg, s, pk); }
  }
}
