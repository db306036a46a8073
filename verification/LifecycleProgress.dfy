/** Progress of the container lifecycle: nobody waits forever for a lock, a channel, a pause
    goroutine or the semaphore, and every invocation takes boundedly many steps of each kind. */
module LifecycleProgress {
  import opened Common
  import opened IdleLists
  import opened Lifecycle
  import opened LifecycleInvariant
  import opened LifecycleSteps
  import opened LifecycleListSteps
  import opened LifecycleTheorems
  import Client

  /** A thread with nothing to do: finished, or a goroutine waiting for work. */
  predicate Resting(s: State, t: nat)
    requires t in s.threads
  {
    match s.threads[t]
    case Done => true
    case DeleterIdle => s.queue == []
    case Reaping(doomed) => doomed == []
    case PrewarmIdle => !s.poke
    case _ => false
  }

  /** A thread that waits for others: for the semaphore, or for room in the deletion queue. */
  predicate Waiting(cfg: Config, s: State, t: nat)
    requires t in s.threads
  {
    match s.threads[t]
    case Entering(key) => s.held + cfg.memoryOf(key) > cfg.maxMemory
    case MakingSpace(_, doomed) => doomed != [] && |s.queue| == QUEUE_CAPACITY
    case _ => false
  }

  /** A step that is not a new arrival, a cancellation or a tick of the reaper. */
  predicate Working(step: Step) {
    !step.Arrive? && !step.CancelAcquire? && !step.LockedReap?
  }

  /** A step by which thread `t` gets on with its own work. */
  ghost predicate Enabled(cfg: Config, s: State, t: nat, step: Step) {
    step.t == t && Working(step) && Apply(cfg, s, step).Some?
  }

  /** The operation a caller performs next when everything goes well. */
  function NextOp(stage: Client.Stage): Client.Op
    requires stage != Client.Finished
  {
    match stage
    case Fresh => Client.Initialize(true)
    case Ready => Client.Run(Client.RanFine)
    case Served => Client.CollectLogs(false)
    case Broken => Client.CollectLogs(false)
    case Returning => Client.Put
    case Destroying => Client.PutToDestroy
  }

  /** The locked section of `getContainer` can always complete. */
  lemma LockedGetCompletes(cfg: Config, s: State, t: nat) returns (step: Step)
    requires Sensible(cfg) && Inv(cfg, s) && t in s.threads && s.threads[t].Counting?
    ensures Enabled(cfg, s, t, step)
  {
    hide CensusInv, AddressInv, FactsInv, PrewarmInv, Fits, Enabled, Apply, OfThreads;
    var key, snapshot := s.threads[t].key, s.threads[t].snapshot;
    CountingFacts(cfg, s, t);
    IdlesAreFiled(cfg, s);
    var out, rest := RoomCanBeMade(s.idles, snapshot, cfg.maxMemory);
    EvictsConserves(s.idles, out, rest);
    assert Total(Bytes, s.idles) == Amount(Bytes, out) + Total(Bytes, rest);
    FitsIsExact(cfg, s, out, snapshot);
    forall part | part < out ensures !Fits(cfg, s, part, snapshot) {
      AmountSplit(Bytes, out, |part|);
      assert out[..|part|] == part;
      FitsIsExact(cfg, s, part, snapshot);
    }
    step := LockedGet(t, out, rest);
    ListStepIsEnabled(cfg, s, step);
  }

  lemma IdlesAreFiled(cfg: Config, s: State)
    requires Inv(cfg, s)
    ensures Filed(s.idles)
  {
    hide MemoryInv, CensusInv, AddressInv, PrewarmInv, HistoryOk, WarmFacts, PcFacts, FreshFacts;
    assert forall k, i :: k in s.idles && 0 <= i < |s.idles[k]| ==> IdleFacts(cfg, s.containers, k, s.idles[k][i]);
  }

  /** The step a thread takes next, when it is neither resting nor waiting. */
  function Choice(s: State, t: nat, c: nat): Step
    requires t in s.threads
  {
    match s.threads[t]
    case Entering(_) => Acquire(t)
    case Acquired(_) => AddCounter(t)
    case WarmPopped(_, _) => UnpauseWarm(t, true, true)
    case WarmAwake(_, _) => WarmFirewall(t, false, true)
    case MakingSpace(_, doomed) => if doomed == [] then LookPrewarm(t) else PushDoomed(t)
    case PrewarmTaken(_, _) => Poke(t)
    case PrewarmPoked(_, _) => NewFirewall(t, false, true)
    case ColdCreated(_, _) => NewFirewall(t, false, true)
    case NeedIp(_) => AcquireIp(t)
    case HasIp(_, _) => DockerCreate(t, c, true)
    case BringingUp(_, _) => BringUp(t, true)
    case Using(_, _, stage) => if stage == Client.Finished then Acquire(t) else ClientOp(t, NextOp(stage), 0)
    case Stamped(_, _) => LockedPut(t)
    case Settling(_) => SubCounter(t)
    case Settled(_) => ReleaseSemaphore(t)
    case Unpausing(_, _) => UnpauseDoomed(t)
    case Removing(_, _) => Remove(t, true, true)
    case Releasing(_, _) => ReleaseIp(t)
    case DeleterIdle => TakeQueued(t)
    case Reaping(_) => TakeReaped(t)
    case PrewarmIdle => ReadPoke(t)
    case Planning => Plan(t)
    case PrewarmReady(_, _, _) => AddPrewarmed(t)
    case PrewarmFailed => RetryPoke(t)
    case _ => FinishPlan(t)
  }

  // A step is enabled when its own part of the system takes it.

  lemma CounterStepIsEnabled(cfg: Config, s: State, step: Step)
    requires step.t in s.threads && OnCounters(step) && !step.CancelAcquire? && ApplyCounters(cfg, s, step).Some?
    ensures Enabled(cfg, s, step.t, step)
  {
    hide ApplyCounters;
  }

  lemma PrewarmStepIsEnabled(cfg: Config, s: State, step: Step)
    requires step.t in s.threads && OnPrewarming(step) && ApplyPrewarming(cfg, s, step).Some?
    ensures Enabled(cfg, s, step.t, step)
  {
    hide ApplyPrewarming;
  }

  lemma ListStepIsEnabled(cfg: Config, s: State, step: Step)
    requires step.t in s.threads && OnLists(step) && !step.LockedReap? && ApplyLists(cfg, s, step).Some?
    ensures Enabled(cfg, s, step.t, step)
  {
    hide ApplyLists;
  }

  lemma LifetimeStepIsEnabled(cfg: Config, s: State, step: Step)
    requires step.t in s.threads && OnLifetimes(step) && ApplyLifetimes(cfg, s, step).Some?
    ensures Enabled(cfg, s, step.t, step)
  {
    hide ApplyLifetimes;
  }

  lemma CallerStepIsEnabled(cfg: Config, s: State, step: Step)
    requires step.UnpauseWarm? || step.WarmFirewall? || step.NewFirewall? || step.ClientOp?
    requires step.t in s.threads && ApplyCallers(cfg, s, step).Some?
    ensures Enabled(cfg, s, step.t, step)
  {
    hide ApplyCallers;
  }

  /** What a thread finds about the container it goes on with. */
  lemma FindsContainer(cfg: Config, containers: map<nat, Container>, pc: Pc)
    requires PcFacts(cfg, containers, pc)
    ensures pc.WarmPopped? || pc.WarmAwake? || pc.PrewarmPoked? || pc.ColdCreated? || pc.Using? ==> pc.c in containers
    ensures pc.Stamped? || pc.Unpausing? || pc.Removing? || pc.Releasing? ==> pc.c in containers
    ensures pc.WarmPopped? || pc.Unpausing? ==> containers[pc.c].pauses == 1
    ensures pc.Using? ==> pc.stage != Client.Finished
    ensures pc.PrewarmReady? ==> pc.pk in pc.plan && pc.plan[pc.pk] > 0
  {
  }

  lemma ChoiceCallers(cfg: Config, s: State, t: nat, c: nat)
    requires Inv(cfg, s) && t in s.threads
    requires s.threads[t].WarmPopped? || s.threads[t].WarmAwake? || s.threads[t].PrewarmPoked? || s.threads[t].ColdCreated?
          || s.threads[t].Using?
    ensures Enabled(cfg, s, t, Choice(s, t, c))
  {
    hide Inv, HistoryOk, PcFacts, Enabled, Goto, Change, Used, AfterOp;
    FactsOf(cfg, s, t);
    FindsContainer(cfg, s.containers, s.threads[t]);
    CallerStepIsEnabled(cfg, s, Choice(s, t, c));
  }

  lemma ChoiceLifetimes(cfg: Config, s: State, t: nat, c: nat)
    requires Inv(cfg, s) && t in s.threads && c !in s.containers
    requires s.threads[t].NeedIp? || s.threads[t].HasIp? || s.threads[t].BringingUp? || s.threads[t].Unpausing?
          || s.threads[t].Removing? || s.threads[t].Releasing?
    ensures Enabled(cfg, s, t, Choice(s, t, c))
  {
    hide Inv, HistoryOk, PcFacts, Enabled, Goto, Change, Resume, CreateFailed, KindFor, MemoryFor;
    FactsOf(cfg, s, t);
    FindsContainer(cfg, s.containers, s.threads[t]);
    LifetimeStepIsEnabled(cfg, s, Choice(s, t, c));
  }

  lemma SettledIsHeld(cfg: Config, s: State, t: nat)
    requires MemoryInv(cfg, s) && t in s.threads && s.threads[t].Settled?
    ensures s.threads[t].memory <= s.held
  {
    hide OfThreads;
    ThreadMoves(cfg, s.threads, t, Done);
    assert Share(cfg, Held, s.threads[t]) == s.threads[t].memory;
  }

  lemma ChoiceCounters(cfg: Config, s: State, t: nat, c: nat)
    requires MemoryInv(cfg, s) && t in s.threads && !Waiting(cfg, s, t)
    requires s.threads[t].Entering? || s.threads[t].Acquired? || s.threads[t].Settling? || s.threads[t].Settled?
    ensures Enabled(cfg, s, t, Choice(s, t, c))
  {
    hide MemoryInv, Enabled, Goto, AddU64, NegU64;
    if s.threads[t].Settled? { SettledIsHeld(cfg, s, t); }
    CounterStepIsEnabled(cfg, s, Choice(s, t, c));
  }

  lemma ChoiceLists(cfg: Config, s: State, t: nat, c: nat)
    requires Inv(cfg, s) && t in s.threads && !Waiting(cfg, s, t) && !Resting(s, t)
    requires (s.threads[t].MakingSpace? && s.threads[t].doomed != []) || s.threads[t].Stamped? || s.threads[t].DeleterIdle?
          || s.threads[t].Reaping?
    ensures Enabled(cfg, s, t, Choice(s, t, c))
  {
    hide Inv, MemoryInv, CensusInv, FactsInv, AddressInv, PrewarmInv, HistoryOk, PcFacts, Enabled, Goto, AddU64, DoLockedGet, DoLockedReap;
    FactsOf(cfg, s, t);
    FindsContainer(cfg, s.containers, s.threads[t]);
    InvParts(cfg, s);
    QueueScheduled(cfg, s);
    NobodyLocked(cfg, s);
    ListStepIsEnabled(cfg, s, Choice(s, t, c));
  }

  lemma NobodyLocked(cfg: Config, s: State)
    requires MemoryInv(cfg, s)
    ensures !s.idlesLocked
  {
  }

  lemma ChoicePrewarming(cfg: Config, s: State, t: nat, c: nat)
    requires Inv(cfg, s) && t in s.threads && !Resting(s, t) && !s.threads[t].Creating?
    requires (s.threads[t].MakingSpace? && s.threads[t].doomed == []) || s.threads[t].PrewarmTaken?
          || s.threads[t].PrewarmIdle? || s.threads[t].Planning? || s.threads[t].PrewarmReady? || s.threads[t].PrewarmFailed?
    ensures Enabled(cfg, s, t, Choice(s, t, c))
  {
    hide Inv, HistoryOk, PcFacts, Enabled, Goto;
    FactsOf(cfg, s, t);
    FindsContainer(cfg, s.containers, s.threads[t]);
    PrewarmStepIsEnabled(cfg, s, Choice(s, t, c));
  }

  lemma PlanGoesOn(cfg: Config, s: State, t: nat) returns (step: Step)
    requires t in s.threads && s.threads[t].Creating?
    ensures Enabled(cfg, s, t, step)
  {
    var plan := s.threads[t].plan;
    if pk :| pk in plan && plan[pk] > 0 {
      step := NextCreate(t, pk);
    } else {
      step := FinishPlan(t);
    }
  }

  /** A thread that is neither resting nor waiting for others can take a step: the locks are free,
      its container is there, and the pause goroutine it talks to is waiting. */
  lemma ThreadCanStep(cfg: Config, s: State, t: nat) returns (step: Step)
    requires Sensible(cfg) && Inv(cfg, s) && t in s.threads && !Resting(s, t) && !Waiting(cfg, s, t)
    ensures Enabled(cfg, s, t, step)
  {
    hide Inv, Sensible, Enabled, Choice;
    var c := Unused(s.containers.Keys);
    step := Choice(s, t, c);
    match s.threads[t]
    case Counting(_, _) => step := LockedGetCompletes(cfg, s, t);
    case Creating(_) => step := PlanGoesOn(cfg, s, t);
    case WarmPopped(_, _) => ChoiceCallers(cfg, s, t, c);
    case WarmAwake(_, _) => ChoiceCallers(cfg, s, t, c);
    case PrewarmPoked(_, _) => ChoiceCallers(cfg, s, t, c);
    case ColdCreated(_, _) => ChoiceCallers(cfg, s, t, c);
    case Using(_, _, _) => ChoiceCallers(cfg, s, t, c);
    case Entering(_) => InvParts(cfg, s); ChoiceCounters(cfg, s, t, c);
    case Acquired(_) => InvParts(cfg, s); ChoiceCounters(cfg, s, t, c);
    case Settling(_) => InvParts(cfg, s); ChoiceCounters(cfg, s, t, c);
    case Settled(_) => InvParts(cfg, s); ChoiceCounters(cfg, s, t, c);
    case MakingSpace(_, doomed) =>
      if doomed == [] { ChoicePrewarming(cfg, s, t, c); } else { ChoiceLists(cfg, s, t, c); }
    case Stamped(_, _) => ChoiceLists(cfg, s, t, c);
    case DeleterIdle => ChoiceLists(cfg, s, t, c);
    case Reaping(_) => ChoiceLists(cfg, s, t, c);
    case PrewarmTaken(_, _) => ChoicePrewarming(cfg, s, t, c);
    case PrewarmIdle => ChoicePrewarming(cfg, s, t, c);
    case Planning => ChoicePrewarming(cfg, s, t, c);
    case PrewarmReady(_, _, _) => ChoicePrewarming(cfg, s, t, c);
    case PrewarmFailed => ChoicePrewarming(cfg, s, t, c);
    case _ => ChoiceLifetimes(cfg, s, t, c);
  }

  /** The deletion goroutine is never stuck behind a full queue. */
  lemma DeleterCanStep(cfg: Config, s: State) returns (step: Step)
    requires Sensible(cfg) && Inv(cfg, s) && s.queue != []
    ensures Enabled(cfg, s, DELETER, step)
  {
    hide MemoryInv, CensusInv, AddressInv, FactsInv, Sensible, Enabled, Covered;
    assert RoleOf(s.threads[DELETER]) == Deleter;
    step := ThreadCanStep(cfg, s, DELETER);
  }

  /** Whoever holds part of the semaphore is past waiting for it. */
  lemma HolderIsInside(cfg: Config, s: State) returns (t: nat)
    requires MemoryInv(cfg, s) && s.held > 0
    ensures t in s.threads && Charge(cfg, s.threads[t]) > 0
    ensures !s.threads[t].Entering? && !Resting(s, t)
  {
    t := SumPositive(Shares(cfg, Held, s.threads));
    assert Share(cfg, Held, s.threads[t]) > 0;
  }

  /** Deadlock freedom: in every reachable state in which some thread has work to do, some thread can
      take a working step, provided no function asks for more memory than there is. */
  lemma NoDeadlock(cfg: Config, s: State, t: nat) returns (step: Step)
    requires Sensible(cfg) && Reachable(cfg, s) && t in s.threads && !Resting(s, t)
    requires s.threads[t].Entering? ==> cfg.memoryOf(s.threads[t].key) <= cfg.maxMemory
    ensures Working(step) && Apply(cfg, s, step).Some?
  {
    hide Inv, Sensible, Apply, RunAll, Charge, Working;
    ReachableHolds(cfg, s);
    var u := t;
    if s.threads[t].Entering? && Waiting(cfg, s, t) {
      InvParts(cfg, s);
      u := HolderIsInside(cfg, s);
    }
    if Waiting(cfg, s, u) {
      step := DeleterCanStep(cfg, s);
    } else {
      step := ThreadCanStep(cfg, s, u);
    }
  }

  // ---------------------------------------------------------------- every invocation ends

  /** How far an invocation is from its end. */
  function Remaining(pc: Pc): nat {
    match pc
    case Entering(_) => 25
    case Acquired(_) => 24
    case Counting(_, _) => 23
    case WarmPopped(_, _) => 22
    case WarmAwake(_, _) => 21
    case MakingSpace(_, _) => 20
    case PrewarmTaken(_, _) => 19
    case PrewarmPoked(_, _) => 18
    case NeedIp(_) => 17
    case HasIp(_, _) => 16
    case BringingUp(_, _) => 15
    case ColdCreated(_, _) => 14
    case Using(_, _, stage) => StepsLeft(stage)
    case Unpausing(_, _) => 6
    case Removing(_, _) => 5
    case Releasing(_, _) => 4
    case Stamped(_, _) => 3
    case Settling(_) => 2
    case Settled(_) => 1
    case _ => 0
  }

  function StepsLeft(stage: Client.Stage): nat {
    match stage
    case Fresh => 12
    case Ready => 11
    case Served => 10
    case Broken => 10
    case Returning => 9
    case Destroying => 9
    case Finished => 8
  }

  function Doomed(pc: Pc): nat { if pc.MakingSpace? then |pc.doomed| else 0 }

  /** One step of an invocation brings it closer to its end: it gets further, or has one container
      less to queue for deletion. */
  ghost predicate Closer(before: Pc, after: Pc) {
    Remaining(after) < Remaining(before) || (Remaining(after) == Remaining(before) && Doomed(after) < Doomed(before))
  }

  ghost predicate GetsOn(s: State, t: nat, after: State) {
    && t in s.threads && t in after.threads
    && Closer(s.threads[t], after.threads[t])
    && forall u :: u in s.threads && u != t ==> u in after.threads && after.threads[u] == s.threads[u]
  }

  /** Only one thread moves. */
  lemma GoesTo(s: State, after: State, t: nat, pc: Pc)
    requires t in s.threads && after.threads == s.threads[t := pc] && Closer(s.threads[t], pc)
    ensures GetsOn(s, t, after)
  {
    hide Closer;
  }

  lemma CountersGetOn(cfg: Config, s: State, step: Step, after: State)
    requires step.t in s.threads && ApplyCounters(cfg, s, step) == Some(after)
    ensures GetsOn(s, step.t, after)
  {
    hide GetsOn, Goto, AddU64, NegU64;
    GotoFields();
    GoesTo(s, after, step.t, after.threads[step.t]);
  }

  lemma LookPrewarmGetsOn(cfg: Config, s: State, t: nat, after: State)
    requires t in s.threads && DoLookPrewarm(cfg, s, t) == Some(after)
    ensures GetsOn(s, t, after)
  {
    hide GetsOn, Goto;
    GotoFields();
    GoesTo(s, after, t, after.threads[t]);
  }

  lemma PokeGetsOn(s: State, t: nat, after: State)
    requires t in s.threads && DoPoke(s, t) == Some(after)
    ensures GetsOn(s, t, after)
  {
    hide GetsOn, Goto;
    GotoFields();
    GoesTo(s, after, t, after.threads[t]);
  }

  /** The other steps of prewarming are not taken by invocations. */
  lemma PrewarmingGetsOn(cfg: Config, s: State, step: Step, after: State)
    requires step.t in s.threads && RoleOf(s.threads[step.t]) == Invocation && ApplyPrewarming(cfg, s, step) == Some(after)
    ensures GetsOn(s, step.t, after)
  {
    hide GetsOn, DoLookPrewarm, DoPoke, Missing, PrewarmList;
    match step
    case LookPrewarm(t) => LookPrewarmGetsOn(cfg, s, t, after);
    case Poke(t) => PokeGetsOn(s, t, after);
    case _ =>
  }

  lemma FailingIsNearTheEnd(cfg: Config, next: After, purpose: Purpose)
    ensures RoleOfAfter(next) == Invocation ==> Remaining(Resume(cfg, next)) <= 2
    ensures purpose.ForGet? ==> Remaining(CreateFailed(cfg, purpose)) <= 2
  {
  }

  function AnyKey(): WarmKey { WarmKey("", FunctionMeta("", "", "", "", "")) }

  lemma RolesOfRemoval(c: nat, next: After)
    ensures RoleOf(Removing(c, next)) == RoleOf(Releasing(c, next)) == RoleOf(Unpausing(c, next)) == RoleOfAfter(next)
  {
  }

  lemma OperationsGetOn(key: WarmKey, c: nat, containers: map<nat, Container>, stage: Client.Stage, op: Client.Op)
    requires Client.Next(stage, op).Some?
    ensures c in containers ==>
      Remaining(AfterOp(key, c, containers[c].memory, op, Client.Next(stage, op).value)) < StepsLeft(stage)
  {
  }

  lemma LockedGetPcs(cfg: Config, key: WarmKey, snapshot: nat, c: nat, doomed: seq<nat>)
    ensures Closer(Counting(key, snapshot), WarmPopped(key, c)) && Closer(Counting(key, snapshot), MakingSpace(key, doomed))
    ensures Closer(Counting(key, snapshot), Settling(cfg.memoryOf(key)))
  {
  }

  lemma LockedGetGetsOn(cfg: Config, s: State, t: nat, out: seq<Pooled>, rest: Idles, after: State)
    requires t in s.threads && DoLockedGet(cfg, s, t, out, rest) == Some(after)
    ensures GetsOn(s, t, after)
  {
    hide Evicts, Fits, Ids, SubU64, Memory, ListOf, Goto, GetsOn, Closer;
    GotoFields();
    var key, snapshot := s.threads[t].key, s.threads[t].snapshot;
    var mine := ListOf(s.idles, key);
    var c := if mine == [] then 0 else mine[|mine| - 1].id;
    LockedGetPcs(cfg, key, snapshot, c, Ids(out));
    if mine != [] { GoesTo(s, after, t, WarmPopped(key, c)); }
    else if Fits(cfg, s, out, snapshot) { GoesTo(s, after, t, MakingSpace(key, Ids(out))); }
    else { GoesTo(s, after, t, Settling(cfg.memoryOf(key))); }
  }

  lemma AcquireIpGetsOn(cfg: Config, s: State, t: nat, after: State)
    requires t in s.threads && RoleOf(s.threads[t]) == Invocation && DoAcquireIp(cfg, s, t) == Some(after)
    ensures GetsOn(s, t, after)
  {
    hide KindFor, MemoryFor, CreateFailed, Goto;
    GotoFields();
    var pc := s.threads[t];
    FailingIsNearTheEnd(cfg, FailCreate(pc.purpose), pc.purpose);
  }

  lemma DockerCreateGetsOn(cfg: Config, s: State, t: nat, c: nat, ok: bool, after: State)
    requires t in s.threads && RoleOf(s.threads[t]) == Invocation && DoDockerCreate(cfg, s, t, c, ok) == Some(after)
    ensures GetsOn(s, t, after)
  {
    hide KindFor, MemoryFor, CreateFailed, Goto, Change;
    GotoFields();
    ChangeFields();
    var pc := s.threads[t];
    FailingIsNearTheEnd(cfg, FailCreate(pc.purpose), pc.purpose);
  }

  lemma RemoveGetsOn(cfg: Config, s: State, t: nat, cleanupOk: bool, dockerOk: bool, after: State)
    requires t in s.threads && RoleOf(s.threads[t]) == Invocation && DoRemove(cfg, s, t, cleanupOk, dockerOk) == Some(after)
    ensures GetsOn(s, t, after)
  {
    hide Resume, RoleOf, Goto, Change;
    GotoFields();
    ChangeFields();
    var pc := s.threads[t];
    RolesOfRemoval(pc.c, pc.after);
    FailingIsNearTheEnd(cfg, pc.after, ForGet(AnyKey()));
  }

  lemma ReleaseIpGetsOn(cfg: Config, s: State, t: nat, after: State)
    requires t in s.threads && RoleOf(s.threads[t]) == Invocation && DoReleaseIp(cfg, s, t) == Some(after)
    ensures GetsOn(s, t, after)
  {
    hide Resume, RoleOf, Goto, Change;
    GotoFields();
    ChangeFields();
    var pc := s.threads[t];
    RolesOfRemoval(pc.c, pc.after);
    FailingIsNearTheEnd(cfg, pc.after, ForGet(AnyKey()));
  }

  lemma UnpauseWarmGetsOn(cfg: Config, s: State, t: nat, ok: bool, known: bool, after: State)
    requires t in s.threads && DoUnpauseWarm(cfg, s, t, ok, known) == Some(after)
    ensures GetsOn(s, t, after)
  {
    hide Goto, Change;
    GotoFields();
    ChangeFields();
  }

  lemma WarmFirewallGetsOn(cfg: Config, s: State, t: nat, needed: bool, ok: bool, after: State)
    requires t in s.threads && DoWarmFirewall(s, t, needed, ok) == Some(after)
    ensures GetsOn(s, t, after)
  {
    hide GetsOn, Closer, Goto, Change;
    GotoFields();
    ChangeFields();
    var pc := s.threads[t];
    WarmFirewallPcs(pc.key, pc.c);
    GoesTo(s, after, t, after.threads[t]);
  }

  lemma WarmFirewallPcs(key: WarmKey, c: nat)
    ensures Closer(WarmAwake(key, c), Using(key, c, Client.Start(true)))
    ensures Closer(WarmAwake(key, c), Removing(c, FailGet(key)))
  {
  }

  lemma NewFirewallGetsOn(cfg: Config, s: State, t: nat, needed: bool, ok: bool, after: State)
    requires t in s.threads && DoNewFirewall(s, t, needed, ok) == Some(after)
    ensures GetsOn(s, t, after)
  {
    hide GetsOn, Goto, Change;
    GotoFields();
    ChangeFields();
    GoesTo(s, after, t, after.threads[t]);
  }

  lemma ClientOpGetsOn(cfg: Config, s: State, t: nat, op: Client.Op, now: int, after: State)
    requires t in s.threads && DoClientOp(s, t, op, now) == Some(after)
    ensures GetsOn(s, t, after)
  {
    hide Used, AfterOp, Goto, Change;
    GotoFields();
    ChangeFields();
    var pc := s.threads[t];
    OperationsGetOn(pc.key, pc.c, s.containers, pc.stage, op);
  }

  lemma PushDoomedGetsOn(s: State, t: nat, after: State)
    requires t in s.threads && DoPushDoomed(s, t) == Some(after)
    ensures GetsOn(s, t, after)
  {
    hide GetsOn, Goto;
    GotoFields();
    GoesTo(s, after, t, after.threads[t]);
  }

  lemma LockedPutGetsOn(s: State, t: nat, after: State)
    requires t in s.threads && DoLockedPut(s, t) == Some(after)
    ensures GetsOn(s, t, after)
  {
    hide GetsOn, Goto;
    GotoFields();
    GoesTo(s, after, t, after.threads[t]);
  }

  /** The other steps on the lists are not taken by invocations. */
  lemma ListsGetOn(cfg: Config, s: State, step: Step, after: State)
    requires step.t in s.threads && RoleOf(s.threads[step.t]) == Invocation && ApplyLists(cfg, s, step) == Some(after)
    ensures GetsOn(s, step.t, after)
  {
    hide DoLockedGet, DoPushDoomed, DoLockedPut, Enumerates, Reaps, GetsOn;
    match step
    case LockedGet(t, out, rest) => LockedGetGetsOn(cfg, s, t, out, rest, after);
    case PushDoomed(t) => PushDoomedGetsOn(s, t, after);
    case LockedPut(t) => LockedPutGetsOn(s, t, after);
    case _ =>
  }

  lemma BringUpGetsOn(s: State, t: nat, ok: bool, after: State)
    requires t in s.threads && RoleOf(s.threads[t]) == Invocation && DoBringUp(s, t, ok) == Some(after)
    ensures GetsOn(s, t, after)
  {
    hide GetsOn, Goto;
    GotoFields();
    GoesTo(s, after, t, after.threads[t]);
  }

  lemma UnpauseDoomedGetsOn(s: State, t: nat, after: State)
    requires t in s.threads && DoUnpauseDoomed(s, t) == Some(after)
    ensures GetsOn(s, t, after)
  {
    hide GetsOn, Goto, Change;
    GotoFields();
    ChangeFields();
    GoesTo(s, after, t, after.threads[t]);
  }

  lemma LifetimesGetOn(cfg: Config, s: State, step: Step, after: State)
    requires step.t in s.threads && RoleOf(s.threads[step.t]) == Invocation && ApplyLifetimes(cfg, s, step) == Some(after)
    ensures GetsOn(s, step.t, after)
  {
    hide DoAcquireIp, DoDockerCreate, DoRemove, DoReleaseIp, DoBringUp, DoUnpauseDoomed, GetsOn, RoleOf;
    match step
    case AcquireIp(t) => AcquireIpGetsOn(cfg, s, t, after);
    case DockerCreate(t, c, ok) => DockerCreateGetsOn(cfg, s, t, c, ok, after);
    case Remove(t, cleanupOk, dockerOk) => RemoveGetsOn(cfg, s, t, cleanupOk, dockerOk, after);
    case ReleaseIp(t) => ReleaseIpGetsOn(cfg, s, t, after);
    case BringUp(t, ok) => BringUpGetsOn(s, t, ok, after);
    case UnpauseDoomed(t) => UnpauseDoomedGetsOn(s, t, after);
    case _ =>
  }

  lemma CallersGetOn(cfg: Config, s: State, step: Step, after: State)
    requires step.t in s.threads && RoleOf(s.threads[step.t]) == Invocation && ApplyCallers(cfg, s, step) == Some(after)
    ensures GetsOn(s, step.t, after)
  {
    hide DoUnpauseWarm, DoWarmFirewall, DoNewFirewall, DoClientOp;
    match step
    case UnpauseWarm(t, ok, known) => UnpauseWarmGetsOn(cfg, s, t, ok, known, after);
    case WarmFirewall(t, needed, ok) => WarmFirewallGetsOn(cfg, s, t, needed, ok, after);
    case NewFirewall(t, needed, ok) => NewFirewallGetsOn(cfg, s, t, needed, ok, after);
    case ClientOp(t, op, now) => ClientOpGetsOn(cfg, s, t, op, now, after);
    case _ =>
  }

  /** Every step of an invocation brings it closer to its end and leaves the other threads where they
      are. So each invocation takes boundedly many steps. Whether it takes them is up to the scheduler. */
  lemma InvocationsEnd(cfg: Config, s: State, step: Step, after: State)
    requires step.t in s.threads && RoleOf(s.threads[step.t]) == Invocation && Apply(cfg, s, step) == Some(after)
    ensures GetsOn(s, step.t, after)
  {
    hide ApplyCounters, ApplyPrewarming, ApplyLists, ApplyLifetimes, ApplyCallers, GetsOn, RoleOf;
    if OnCounters(step) { CountersGetOn(cfg, s, step, after); }
    else if OnPrewarming(step) { PrewarmingGetsOn(cfg, s, step, after); }
    else if OnLists(step) { ListsGetOn(cfg, s, step, after); }
    else if OnLifetimes(step) { LifetimesGetOn(cfg, s, step, after); }
    else { CallersGetOn(cfg, s, step, after); }
  }

}
