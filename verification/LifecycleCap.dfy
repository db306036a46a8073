/** What single steps do to idle memory and memory in use, although every atomic action is a step of its
    own: only making space can raise them together, and it keeps the limit under an exact condition. */
module LifecycleCap {
  import opened Common
  import opened IdleLists
  import opened Lifecycle
  import opened LifecycleInvariant
  import opened LifecycleSteps
  import opened LifecycleListSteps
  import opened LifecycleTheorems
  import Client

  /** The memory of everything being obtained or in use. */
  ghost function InUse(cfg: Config, threads: map<nat, Pc>): nat { OfThreads(cfg, Reserved, threads) }

  /** Idle memory plus the memory of everything being obtained or in use. */
  ghost function Footprint(cfg: Config, s: State): nat {
    s.idlesMemory + InUse(cfg, s.threads)
  }

  // ---------------------------------------------------------------- one step that makes space

  /** The step of a caller that found nothing warm and makes space. */
  predicate MakesSpace(s: State, step: Step) {
    step.LockedGet? && step.t in s.threads && s.threads[step.t].Counting? && ListOf(s.idles, s.threads[step.t].key) == []
  }

  /** The step of a caller that takes a warm container. */
  predicate PopsWarm(s: State, step: Step) {
    step.LockedGet? && step.t in s.threads && s.threads[step.t].Counting? && ListOf(s.idles, s.threads[step.t].key) != []
  }

  /** By how much the memory in use, together with the request, has outgrown the caller's snapshot. */
  ghost function Staleness(cfg: Config, s: State, t: nat): int
    requires t in s.threads && s.threads[t].Counting?
  {
    InUse(cfg, s.threads) + cfg.memoryOf(s.threads[t].key) - s.threads[t].snapshot
  }

  /** What the guard leaves free once `evicted` is gone. */
  function Slack(cfg: Config, s: State, t: nat, evicted: seq<Pooled>): int
    requires t in s.threads && s.threads[t].Counting?
  {
    cfg.maxMemory - (s.idlesMemory - Memory(evicted) + s.threads[t].snapshot)
  }

  lemma SpaceCharge(cfg: Config, key: WarmKey, snapshot: nat, doomed: seq<nat>)
    ensures Share(cfg, Reserved, MakingSpace(key, doomed)) == cfg.memoryOf(key)
    ensures Share(cfg, Reserved, Counting(key, snapshot)) == 0
  {
  }

  lemma SpaceStep(cfg: Config, s: State, step: Step, after: State)
    requires MakesSpace(s, step) && Apply(cfg, s, step) == Some(after)
    ensures Evicts(s.idles, step.evicted, step.rest)
    ensures var key, snapshot := s.threads[step.t].key, s.threads[step.t].snapshot;
      if Fits(cfg, s, step.evicted, snapshot)
      then after == Goto(s.(idles := step.rest, idlesMemory := SubU64(s.idlesMemory, Memory(step.evicted))), step.t,
                         MakingSpace(key, Ids(step.evicted)))
      else forall k :: k in step.rest ==> step.rest[k] == []
  {
    hide Evicts, Fits, Goto, SubU64, Ids, Memory, DoPushDoomed, DoLockedPut, DoTakeQueued, DoLockedReap, DoTakeReaped;
  }

  /** What making space does: the guard leaves no negative slack, idle memory shrinks by what is
      evicted, and the request is in use from now on. */
  lemma SpaceIsMade(cfg: Config, s: State, step: Step, after: State)
    requires Sensible(cfg) && Inv(cfg, s) && MakesSpace(s, step) && Apply(cfg, s, step) == Some(after)
    ensures Slack(cfg, s, step.t, step.evicted) >= 0
    ensures after.idlesMemory == s.idlesMemory - Memory(step.evicted)
    ensures InUse(cfg, after.threads) == InUse(cfg, s.threads) + cfg.memoryOf(s.threads[step.t].key)
    ensures after.threads == s.threads[step.t := MakingSpace(s.threads[step.t].key, Ids(step.evicted))]
  {
    hide Inv, Apply, Fits, Share, OfThreads, Evicts, SubU64, Ids, Goto, MemoryInv, CensusInv, AddressInv, FactsInv, PrewarmInv;
    GotoFields();
    var t, evicted, rest := step.t, step.evicted, step.rest;
    var key, snapshot := s.threads[t].key, s.threads[t].snapshot;
    SpaceStep(cfg, s, step, after);
    InvParts(cfg, s);
    CountingFacts(cfg, s, t);
    if !Fits(cfg, s, evicted, snapshot) {
      RoomIsFound(cfg, s, evicted, rest, snapshot);
    }
    EvictsConserves(s.idles, evicted, rest);
    assert Total(Bytes, s.idles) == Amount(Bytes, evicted) + Total(Bytes, rest);
    FitsIsExact(cfg, s, evicted, snapshot);
    SubExact(s.idlesMemory, Memory(evicted));
    ThreadMoves(cfg, s.threads, t, MakingSpace(key, Ids(evicted)));
    SpaceCharge(cfg, key, snapshot, Ids(evicted));
  }

  /** Making space keeps within the limit if and only if the snapshot is no staler than the slack the
      guard leaves. The snapshot is on both sides: what this comes down to is that the request fits
      beside what stays idle and what is in use by now, which the guard did not look at. */
  lemma MakingSpaceKeepsCapIff(cfg: Config, s: State, step: Step, after: State)
    requires Sensible(cfg) && Inv(cfg, s) && MakesSpace(s, step) && Apply(cfg, s, step) == Some(after)
    ensures Slack(cfg, s, step.t, step.evicted) >= 0
    ensures Footprint(cfg, after) <= cfg.maxMemory <==> Staleness(cfg, s, step.t) <= Slack(cfg, s, step.t, step.evicted)
  {
    hide Inv, Apply, InUse;
    SpaceIsMade(cfg, s, step, after);
  }

  lemma GuardStep(cfg: Config, s: State, t: nat, evicted: seq<Pooled>, rest: Idles)
    requires MakesSpace(s, LockedGet(t, evicted, rest)) && !s.idlesLocked
    ensures var snapshot := s.threads[t].snapshot;
      && Apply(cfg, s, LockedGet(t, evicted, rest)).Some? ==
           (&& Evicts(s.idles, evicted, rest)
            && (forall part :: part < evicted ==> !Fits(cfg, s, part, snapshot))
            && (Fits(cfg, s, evicted, snapshot) || forall k :: k in rest ==> rest[k] == []))
  {
    hide Evicts, Fits, Goto, SubU64, Ids, Memory, DoPushDoomed, DoLockedPut, DoTakeQueued, DoLockedReap, DoTakeReaped;
  }

  /** The step that makes space by these evictions can be taken exactly if the guard allows them: they
      make room beside the snapshot, and no earlier stop would have. */
  lemma GuardAllowsIff(cfg: Config, s: State, t: nat, evicted: seq<Pooled>, rest: Idles)
    requires Sensible(cfg) && Inv(cfg, s) && MakesSpace(s, LockedGet(t, evicted, rest))
    ensures Apply(cfg, s, LockedGet(t, evicted, rest)).Some?
       <==> MakesRoom(s.idles, s.threads[t].snapshot, cfg.maxMemory, evicted, rest)
  {
    hide Inv, Apply, Evicts, Fits, MemoryInv, FactsInv, CensusInv, AddressInv, PrewarmInv;
    var snapshot := s.threads[t].snapshot;
    InvParts(cfg, s);
    CountingFacts(cfg, s, t);
    NotLocked(cfg, s);
    GuardStep(cfg, s, t, evicted, rest);
    if Evicts(s.idles, evicted, rest) {
      EvictsConserves(s.idles, evicted, rest);
      assert Total(Bytes, s.idles) == Amount(Bytes, evicted) + Total(Bytes, rest);
      FitsIsExact(cfg, s, evicted, snapshot);
      forall part | part < evicted
        ensures Fits(cfg, s, part, snapshot) <==> Total(Bytes, s.idles) - Memory(part) + snapshot <= cfg.maxMemory
      {
        AmountSplit(Bytes, evicted, |part|);
        assert evicted[..|part|] == part;
        FitsIsExact(cfg, s, part, snapshot);
      }
      if forall k :: k in rest ==> rest[k] == [] {
        RoomIsFound(cfg, s, evicted, rest, snapshot);
      }
    }
  }

  lemma NotLocked(cfg: Config, s: State)
    requires Inv(cfg, s)
    ensures !s.idlesLocked
  {
    hide CensusInv, AddressInv, FactsInv, PrewarmInv, OfThreads;
  }

  /** The same before the step is taken: whichever way a caller may make space now, the limit is kept,
      if and only if its snapshot is no staler than the slack of every eviction the guard allows. */
  lemma SpaceCanBeMadeSafelyIff(cfg: Config, s: State, t: nat)
    requires Sensible(cfg) && Inv(cfg, s)
    requires t in s.threads && s.threads[t].Counting? && ListOf(s.idles, s.threads[t].key) == []
    ensures (forall evicted, rest, after :: Apply(cfg, s, LockedGet(t, evicted, rest)) == Some(after) ==>
               Footprint(cfg, after) <= cfg.maxMemory)
       <==> (forall evicted, rest :: MakesRoom(s.idles, s.threads[t].snapshot, cfg.maxMemory, evicted, rest) ==>
               Staleness(cfg, s, t) <= Slack(cfg, s, t, evicted))
  {
    hide Inv, Apply, Footprint, MakesRoom, Staleness, Slack;
    forall evicted, rest
      ensures Apply(cfg, s, LockedGet(t, evicted, rest)).Some?
         <==> MakesRoom(s.idles, s.threads[t].snapshot, cfg.maxMemory, evicted, rest)
    {
      GuardAllowsIff(cfg, s, t, evicted, rest);
    }
    forall evicted, rest, after | Apply(cfg, s, LockedGet(t, evicted, rest)) == Some(after)
      ensures Footprint(cfg, after) <= cfg.maxMemory <==> Staleness(cfg, s, t) <= Slack(cfg, s, t, evicted)
    {
      MakingSpaceKeepsCapIff(cfg, s, LockedGet(t, evicted, rest), after);
    }
    if forall evicted, rest, after :: Apply(cfg, s, LockedGet(t, evicted, rest)) == Some(after) ==> Footprint(cfg, after) <= cfg.maxMemory {
      forall evicted, rest | MakesRoom(s.idles, s.threads[t].snapshot, cfg.maxMemory, evicted, rest)
        ensures Staleness(cfg, s, t) <= Slack(cfg, s, t, evicted)
      {
        assert Apply(cfg, s, LockedGet(t, evicted, rest)) == Some(Apply(cfg, s, LockedGet(t, evicted, rest)).value);
      }
    }
  }

  // ---------------------------------------------------------------- all other steps

  /** A step of a thread that is not between its snapshot and the lock, neither before nor after: it
      takes neither memory in use nor the footprint any higher. */
  ghost predicate Steady(cfg: Config, s: State, t: nat, after: State) {
    && t in s.threads && t in after.threads && after.threads == s.threads[t := after.threads[t]]
    && !s.threads[t].Counting? && !after.threads[t].Counting?
    && Footprint(cfg, after) <= Footprint(cfg, s) && InUse(cfg, after.threads) <= InUse(cfg, s.threads)
  }

  lemma StaysSteady(cfg: Config, s: State, after: State, t: nat, pc: Pc)
    requires t in s.threads && after.threads == s.threads[t := pc]
    requires !s.threads[t].Counting? && !pc.Counting?
    requires Share(cfg, Reserved, pc) <= Share(cfg, Reserved, s.threads[t])
    requires after.idlesMemory + Share(cfg, Reserved, pc) <= s.idlesMemory + Share(cfg, Reserved, s.threads[t])
    ensures Steady(cfg, s, t, after)
  {
    hide Share, OfThreads;
    ThreadMoves(cfg, s.threads, t, pc);
  }

  lemma ArriveReservesNothing(cfg: Config, s: State, t: nat, key: WarmKey, after: State)
    requires DoArrive(s, t, key) == Some(after)
    ensures Footprint(cfg, after) == Footprint(cfg, s) && InUse(cfg, after.threads) == InUse(cfg, s.threads)
  {
    hide OfThreads;
    ThreadMoves(cfg, s.threads, t, Entering(key));
    assert Share(cfg, Reserved, Entering(key)) == 0;
  }

  /** Taking a snapshot reserves nothing yet. */
  lemma SnapshotReservesNothing(cfg: Config, s: State, t: nat, after: State)
    requires t in s.threads && DoAddCounter(cfg, s, t) == Some(after)
    ensures Footprint(cfg, after) == Footprint(cfg, s) && InUse(cfg, after.threads) == InUse(cfg, s.threads)
    ensures after.threads == s.threads[t := Counting(s.threads[t].key, after.counter)] && !s.threads[t].Counting?
  {
    hide OfThreads, AddU64, Goto;
    GotoFields();
    var pc := after.threads[t];
    ThreadMoves(cfg, s.threads, t, pc);
    assert Share(cfg, Reserved, pc) == 0 && Share(cfg, Reserved, s.threads[t]) == 0;
  }

  lemma CountersReserveNothing(cfg: Config, s: State, step: Step, after: State)
    requires step.t in s.threads && ApplyCounters(cfg, s, step) == Some(after) && !step.AddCounter?
    ensures Steady(cfg, s, step.t, after)
  {
    hide Steady, Goto;
    GotoFields();
    StaysSteady(cfg, s, after, step.t, after.threads[step.t]);
  }

  lemma LookPrewarmReservesNothing(cfg: Config, s: State, t: nat, after: State)
    requires t in s.threads && DoLookPrewarm(cfg, s, t) == Some(after)
    ensures Steady(cfg, s, t, after)
  {
    hide Steady, Goto;
    GotoFields();
    StaysSteady(cfg, s, after, t, after.threads[t]);
  }

  lemma PrewarmCharges(cfg: Config, pc: Pc)
    ensures pc.PrewarmIdle? || pc.Planning? || pc.Creating? || pc.PrewarmReady? || pc.PrewarmFailed? ==> Share(cfg, Reserved, pc) == 0
    ensures pc.NeedIp? && pc.purpose.ForPrewarm? ==> Share(cfg, Reserved, pc) == 0
    ensures pc.PrewarmTaken? || pc.PrewarmPoked? ==> Share(cfg, Reserved, pc) == cfg.memoryOf(pc.key)
  {
  }

  lemma PrewarmingReservesNothing(cfg: Config, s: State, step: Step, after: State)
    requires step.t in s.threads && ApplyPrewarming(cfg, s, step) == Some(after)
    ensures Steady(cfg, s, step.t, after)
  {
    hide Steady, DoLookPrewarm, Goto, Share;
    GotoFields();
    if step.LookPrewarm? { LookPrewarmReservesNothing(cfg, s, step.t, after); }
    else {
      PrewarmCharges(cfg, s.threads[step.t]);
      PrewarmCharges(cfg, after.threads[step.t]);
      StaysSteady(cfg, s, after, step.t, after.threads[step.t]);
    }
  }

  lemma FailingReservesNothing(cfg: Config, purpose: Purpose)
    ensures Share(cfg, Reserved, CreateFailed(cfg, purpose)) == 0 && !CreateFailed(cfg, purpose).Counting?
  {
  }

  lemma EndingReservesNothing(cfg: Config, c: nat, next: After)
    ensures Share(cfg, Reserved, Resume(cfg, next)) == 0 && !Resume(cfg, next).Counting?
    ensures Share(cfg, Reserved, Unpausing(c, next)) == Share(cfg, Reserved, Removing(c, next)) == Share(cfg, Reserved, Releasing(c, next))
  {
    hide CreateFailed;
    if next.FailCreate? { FailingReservesNothing(cfg, next.purpose); }
  }

  lemma CreationCharges(cfg: Config, c: nat, purpose: Purpose, ip: string)
    ensures Share(cfg, Reserved, NeedIp(purpose)) == Share(cfg, Reserved, HasIp(purpose, ip)) == Share(cfg, Reserved, BringingUp(purpose, c))
    ensures Share(cfg, Reserved, Removing(c, FailCreate(purpose))) == Share(cfg, Reserved, BringingUp(purpose, c))
    ensures purpose.ForGet? ==> Share(cfg, Reserved, ColdCreated(purpose.key, c)) == Share(cfg, Reserved, BringingUp(purpose, c))
    ensures purpose.ForPrewarm? ==> Share(cfg, Reserved, PrewarmReady(purpose.pk, c, purpose.plan)) == 0
  {
  }

  lemma AcquireIpReservesNothing(cfg: Config, s: State, t: nat, after: State)
    requires t in s.threads && DoAcquireIp(cfg, s, t) == Some(after)
    ensures Steady(cfg, s, t, after)
  {
    hide Steady, Share, CreateFailed, KindFor, Goto;
    GotoFields();
    FailingReservesNothing(cfg, s.threads[t].purpose);
    CreationCharges(cfg, 0, s.threads[t].purpose, if s.freeIps == [] then "" else s.freeIps[0]);
    StaysSteady(cfg, s, after, t, after.threads[t]);
  }

  lemma DockerCreateReservesNothing(cfg: Config, s: State, t: nat, c: nat, ok: bool, after: State)
    requires t in s.threads && DoDockerCreate(cfg, s, t, c, ok) == Some(after)
    ensures Steady(cfg, s, t, after)
  {
    hide Steady, Share, CreateFailed, MemoryFor, Goto, Change;
    GotoFields();
    ChangeFields();
    FailingReservesNothing(cfg, s.threads[t].purpose);
    CreationCharges(cfg, c, s.threads[t].purpose, s.threads[t].ip);
    StaysSteady(cfg, s, after, t, after.threads[t]);
  }

  lemma BringUpReservesNothing(cfg: Config, s: State, t: nat, ok: bool, after: State)
    requires t in s.threads && DoBringUp(s, t, ok) == Some(after)
    ensures Steady(cfg, s, t, after)
  {
    hide Steady, Share, Goto;
    GotoFields();
    CreationCharges(cfg, s.threads[t].c, s.threads[t].purpose, "");
    StaysSteady(cfg, s, after, t, after.threads[t]);
  }

  lemma RemovalReservesNothing(cfg: Config, s: State, step: Step, after: State)
    requires step.UnpauseDoomed? || step.Remove? || step.ReleaseIp?
    requires step.t in s.threads && ApplyLifetimes(cfg, s, step) == Some(after)
    ensures Steady(cfg, s, step.t, after)
  {
    hide Steady, Share, Resume, Goto, Change;
    GotoFields();
    ChangeFields();
    EndingReservesNothing(cfg, s.threads[step.t].c, s.threads[step.t].after);
    StaysSteady(cfg, s, after, step.t, after.threads[step.t]);
  }

  lemma LifetimesReserveNothing(cfg: Config, s: State, step: Step, after: State)
    requires step.t in s.threads && ApplyLifetimes(cfg, s, step) == Some(after)
    ensures Steady(cfg, s, step.t, after)
  {
    hide Steady, DoAcquireIp, DoDockerCreate, DoBringUp, DoUnpauseDoomed, DoRemove, DoReleaseIp;
    if step.AcquireIp? { AcquireIpReservesNothing(cfg, s, step.t, after); }
    else if step.DockerCreate? { DockerCreateReservesNothing(cfg, s, step.t, step.c, step.ok, after); }
    else if step.BringUp? { BringUpReservesNothing(cfg, s, step.t, step.ok, after); }
    else { RemovalReservesNothing(cfg, s, step, after); }
  }

  /** A caller on its container reserves the memory of its key all along, or less. */
  lemma CallerCharges(cfg: Config, key: WarmKey, c: nat, stage: Client.Stage)
    ensures Share(cfg, Reserved, WarmPopped(key, c)) == Share(cfg, Reserved, WarmAwake(key, c)) == cfg.memoryOf(key)
    ensures Share(cfg, Reserved, PrewarmPoked(key, c)) == Share(cfg, Reserved, ColdCreated(key, c)) == cfg.memoryOf(key)
    ensures Share(cfg, Reserved, Using(key, c, stage)) == Share(cfg, Reserved, Stamped(key, c)) == cfg.memoryOf(key)
    ensures Share(cfg, Reserved, Removing(c, FailGet(key))) == cfg.memoryOf(key)
    ensures Share(cfg, Reserved, Removing(c, AfterDestroy(cfg.memoryOf(key)))) == cfg.memoryOf(key)
    ensures Share(cfg, Reserved, Settling(cfg.memoryOf(key))) == 0
  {
  }

  lemma UnpauseWarmReservesNothing(cfg: Config, s: State, t: nat, ok: bool, known: bool, after: State)
    requires t in s.threads && DoUnpauseWarm(cfg, s, t, ok, known) == Some(after)
    ensures Steady(cfg, s, t, after)
  {
    hide Steady, Share, Goto, Change;
    GotoFields();
    ChangeFields();
    CallerCharges(cfg, s.threads[t].key, s.threads[t].c, Client.Ready);
    StaysSteady(cfg, s, after, t, after.threads[t]);
  }

  lemma WarmFirewallReservesNothing(cfg: Config, s: State, t: nat, needed: bool, ok: bool, after: State)
    requires t in s.threads && DoWarmFirewall(s, t, needed, ok) == Some(after)
    ensures Steady(cfg, s, t, after)
  {
    hide Steady, Share, Goto, Change;
    GotoFields();
    ChangeFields();
    CallerCharges(cfg, s.threads[t].key, s.threads[t].c, Client.Ready);
    StaysSteady(cfg, s, after, t, after.threads[t]);
  }

  lemma NewFirewallReservesNothing(cfg: Config, s: State, t: nat, needed: bool, ok: bool, after: State)
    requires t in s.threads && DoNewFirewall(s, t, needed, ok) == Some(after)
    ensures Steady(cfg, s, t, after)
  {
    hide Steady, Share, Goto, Change;
    GotoFields();
    ChangeFields();
    CallerCharges(cfg, s.threads[t].key, s.threads[t].c, Client.Fresh);
    StaysSteady(cfg, s, after, t, after.threads[t]);
  }

  lemma ClientOpReservesNothing(cfg: Config, s: State, t: nat, op: Client.Op, now: int, after: State)
    requires t in s.threads && DoClientOp(s, t, op, now) == Some(after) && PcFacts(cfg, s.containers, s.threads[t])
    ensures Steady(cfg, s, t, after)
  {
    hide Steady, Share, Used, Goto, Change;
    GotoFields();
    ChangeFields();
    var key, c, stage := s.threads[t].key, s.threads[t].c, s.threads[t].stage;
    CallerCharges(cfg, key, c, stage);
    CallerCharges(cfg, key, c, Client.Next(stage, op).value);
    StaysSteady(cfg, s, after, t, after.threads[t]);
  }

  lemma CallersReserveNothing(cfg: Config, s: State, step: Step, after: State)
    requires step.t in s.threads && ApplyCallers(cfg, s, step) == Some(after) && PcFacts(cfg, s.containers, s.threads[step.t])
    ensures Steady(cfg, s, step.t, after)
  {
    hide Steady, PcFacts, DoUnpauseWarm, DoWarmFirewall, DoNewFirewall, DoClientOp;
    if step.ClientOp? { ClientOpReservesNothing(cfg, s, step.t, step.op, step.now, after); }
    else if step.UnpauseWarm? { UnpauseWarmReservesNothing(cfg, s, step.t, step.ok, step.stateKnown, after); }
    else if step.WarmFirewall? { WarmFirewallReservesNothing(cfg, s, step.t, step.needed, step.ok, after); }
    else { NewFirewallReservesNothing(cfg, s, step.t, step.needed, step.ok, after); }
  }

  lemma PopReservesNothing(cfg: Config, s: State, step: Step, after: State)
    requires Sensible(cfg) && Inv(cfg, s) && PopsWarm(s, step)
    requires step.t in s.threads && ApplyLists(cfg, s, step) == Some(after)
    ensures Footprint(cfg, after) <= Footprint(cfg, s)
    ensures InUse(cfg, after.threads) == InUse(cfg, s.threads) + cfg.memoryOf(s.threads[step.t].key)
    ensures after.threads == s.threads[step.t := after.threads[step.t]] && !after.threads[step.t].Counting?
  {
    hide DoPushDoomed, DoLockedPut, DoTakeQueued, DoLockedReap, DoTakeReaped, Inv, Share, OfThreads, Total, Evicts, Fits, SubU64,
         FactsInv, CensusInv, AddressInv, PrewarmInv, Goto;
    GotoFields();
    var t, key := step.t, s.threads[step.t].key;
    var l := s.idles[key];
    InvParts(cfg, s);
    WarmFactsOfList(cfg, s, key, |l| - 1);
    IdleLists.Counted(Bytes, s.idles, key, |l| - 1);
    IdleBound(cfg, s, t);
    SubExact(s.idlesMemory, l[|l| - 1].memory);
    PopCharges(cfg, key, l[|l| - 1].id, s.threads[t].snapshot);
    ThreadMoves(cfg, s.threads, t, after.threads[t]);
  }

  lemma PopCharges(cfg: Config, key: WarmKey, c: nat, snapshot: nat)
    ensures Share(cfg, Reserved, WarmPopped(key, c)) == cfg.memoryOf(key) && Share(cfg, Reserved, Counting(key, snapshot)) == 0
  {
  }

  lemma StampedFacts(cfg: Config, containers: map<nat, Container>, key: WarmKey, c: nat)
    requires PcFacts(cfg, containers, Stamped(key, c))
    ensures c in containers && containers[c].memory == cfg.memoryOf(key)
  {
  }

  lemma PutReservesNothing(cfg: Config, s: State, t: nat, after: State)
    requires Sensible(cfg) && Inv(cfg, s) && t in s.threads && DoLockedPut(s, t) == Some(after)
    ensures Steady(cfg, s, t, after)
  {
    hide Steady, Inv, Share, AddU64, MemoryInv, FactsInv, CensusInv, AddressInv, PrewarmInv, PcFacts, HistoryOk, Goto;
    GotoFields();
    var key, c := s.threads[t].key, s.threads[t].c;
    InvParts(cfg, s);
    FactsOf(cfg, s, t);
    StampedFacts(cfg, s.containers, key, c);
    CallerCharges(cfg, key, c, Client.Ready);
    IdleBound(cfg, s, t);
    AddExact(s.idlesMemory, s.containers[c].memory);
    StaysSteady(cfg, s, after, t, after.threads[t]);
  }

  lemma ReapStep(cfg: Config, s: State, step: Step, after: State)
    requires step.LockedReap? && step.t in s.threads && ApplyLists(cfg, s, step) == Some(after)
    ensures s.threads[step.t] == Reaping([]) && Reaps(s.idles, step.cutoff, step.order, step.removed, step.rest)
    ensures after == Goto(s.(idles := step.rest, idlesMemory := SubU64(s.idlesMemory, Memory(step.removed))), step.t, Reaping(Ids(step.removed)))
  {
    hide Reaps, Enumerates, SubU64, Memory, Ids, Goto, DoLockedGet, DoPushDoomed, DoLockedPut, DoTakeQueued, DoTakeReaped;
  }

  lemma ReapReservesNothing(cfg: Config, s: State, step: Step, after: State)
    requires Sensible(cfg) && Inv(cfg, s) && step.LockedReap? && step.t in s.threads && ApplyLists(cfg, s, step) == Some(after)
    ensures Steady(cfg, s, step.t, after)
  {
    hide Steady, Inv, SubU64, Reaps, Ids, Total, MemoryInv, FactsInv, CensusInv, AddressInv, PrewarmInv, Goto, ApplyLists;
    GotoFields();
    ReapStep(cfg, s, step, after);
    InvParts(cfg, s);
    IdleBound(cfg, s, step.t);
    ReapsConserves(s.idles, step.cutoff, step.order, step.removed, step.rest);
    assert Total(Bytes, s.idles) == Amount(Bytes, step.removed) + Total(Bytes, step.rest);
    SubExact(s.idlesMemory, Memory(step.removed));
    StaysSteady(cfg, s, after, step.t, after.threads[step.t]);
  }

  lemma QueueReservesNothing(cfg: Config, s: State, step: Step, after: State)
    requires step.PushDoomed? || step.TakeQueued? || step.TakeReaped?
    requires step.t in s.threads && ApplyLists(cfg, s, step) == Some(after)
    ensures Steady(cfg, s, step.t, after)
  {
    hide Steady, Goto, DoLockedGet, DoLockedPut, DoLockedReap;
    GotoFields();
    StaysSteady(cfg, s, after, step.t, after.threads[step.t]);
  }

  /** All steps but arrivals, snapshots and locked sections of `Get` are steady. */
  lemma OthersAreSteady(cfg: Config, s: State, step: Step, after: State)
    requires Sensible(cfg) && Inv(cfg, s) && Apply(cfg, s, step) == Some(after)
    requires !step.Arrive? && !step.AddCounter? && !step.LockedGet?
    ensures Steady(cfg, s, step.t, after)
  {
    hide Inv, Sensible, Steady, ApplyCounters, ApplyPrewarming, ApplyLists, ApplyLifetimes, ApplyCallers, PcFacts;
    if OnCounters(step) { CountersReserveNothing(cfg, s, step, after); }
    else if OnPrewarming(step) { PrewarmingReservesNothing(cfg, s, step, after); }
    else if step.LockedPut? { PutIsAListStep(cfg, s, step, after); PutReservesNothing(cfg, s, step.t, after); }
    else if step.LockedReap? { ReapReservesNothing(cfg, s, step, after); }
    else if OnLists(step) { QueueReservesNothing(cfg, s, step, after); }
    else if OnLifetimes(step) { LifetimesReserveNothing(cfg, s, step, after); }
    else { FactsOf(cfg, s, step.t); CallersReserveNothing(cfg, s, step, after); }
  }

  lemma PutIsAListStep(cfg: Config, s: State, step: Step, after: State)
    requires step.LockedPut? && step.t in s.threads && ApplyLists(cfg, s, step) == Some(after)
    ensures DoLockedPut(s, step.t) == Some(after)
  {
  }

  lemma SnapshotIsACounterStep(cfg: Config, s: State, step: Step, after: State)
    requires step.AddCounter? && Apply(cfg, s, step) == Some(after)
    ensures step.t in s.threads && DoAddCounter(cfg, s, step.t) == Some(after)
  {
  }

  lemma PopIsAListStep(cfg: Config, s: State, step: Step, after: State)
    requires step.LockedGet? && Apply(cfg, s, step) == Some(after)
    ensures step.t in s.threads && ApplyLists(cfg, s, step) == Some(after) && s.threads[step.t].Counting?
  {
  }

  /** Only making space can take idle memory and memory in use together any higher. */
  lemma OnlyMakingSpaceGrows(cfg: Config, s: State, step: Step, after: State)
    requires Sensible(cfg) && Inv(cfg, s) && !MakesSpace(s, step) && Apply(cfg, s, step) == Some(after)
    ensures Footprint(cfg, after) <= Footprint(cfg, s)
  {
    hide Inv, Sensible, Footprint, ApplyLists, DoArrive, DoAddCounter;
    if step.Arrive? { ArriveReservesNothing(cfg, s, step.t, step.key, after); }
    else if step.AddCounter? { SnapshotIsACounterStep(cfg, s, step, after); SnapshotReservesNothing(cfg, s, step.t, after); }
    else if step.LockedGet? { PopIsAListStep(cfg, s, step, after); PopReservesNothing(cfg, s, step, after); }
    else { OthersAreSteady(cfg, s, step, after); }
  }
}
