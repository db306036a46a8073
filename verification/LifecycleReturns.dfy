/** What becomes of a container that cannot be used, that has to be removed, or that its user returns. */
module LifecycleReturns {
  import opened Common
  import opened IdleLists
  import opened Lifecycle
  import opened LifecycleInvariant
  import opened LifecycleSteps
  import opened LifecycleListSteps
  import opened LifecycleTheorems
  import opened LifecycleGet
  import Client

  // ---------------------------------------------------------------- failures

  /** A warm container that does not unpause is removed; only if not even its state can be fetched, it is
      given up. */
  lemma UnpausedOrRemoved(cfg: Config, s: State, step: Step, after: State)
    requires step.t in s.threads && s.threads[step.t].WarmPopped? && Apply(cfg, s, step) == Some(after)
    ensures step.UnpauseWarm?
    ensures var key, c := s.threads[step.t].key, s.threads[step.t].c;
      && c in s.containers && c in after.containers
      && after.containers[c].fate == (if step.ok || step.stateKnown then s.containers[c].fate else Lost)
      && after.threads == s.threads[step.t :=
           if step.ok then WarmAwake(key, c) else if step.stateKnown then Removing(c, FailGet(key)) else Settling(cfg.memoryOf(key))]
  {
    hide Apply, Goto, Change;
    GotoFields();
    ChangeFields();
    StepSuits(cfg, s, step);
    UnpauseDoes(cfg, s, step.t, step.ok, step.stateKnown, after);
  }

  /** One that runs gets the firewall it needs now, set up or taken down, or is removed. */
  lemma AdjustedOrRemoved(cfg: Config, s: State, step: Step, after: State)
    requires step.t in s.threads && s.threads[step.t].WarmAwake? && Apply(cfg, s, step) == Some(after)
    ensures step.WarmFirewall?
    ensures var key, c := s.threads[step.t].key, s.threads[step.t].c;
      && c in s.containers
      && if step.ok || step.needed == s.containers[c].firewall then
           && after.threads == s.threads[step.t := Using(key, c, Client.Ready)]
           && after.containers == s.containers[c := s.containers[c].(firewall := step.needed)]
         else after.threads == s.threads[step.t := Removing(c, FailGet(key))] && after.containers == s.containers
  {
    hide Apply, Goto, Change;
    GotoFields();
    ChangeFields();
    StepSuits(cfg, s, step);
    WarmFirewallDoes(cfg, s, step.t, step.needed, step.ok, after);
  }

  /** A container that is new to its key is bound to it with the firewall it needs, or is removed. */
  lemma BoundOrRemoved(cfg: Config, s: State, step: Step, after: State)
    requires step.t in s.threads && (s.threads[step.t].PrewarmPoked? || s.threads[step.t].ColdCreated?) && Apply(cfg, s, step) == Some(after)
    ensures step.NewFirewall?
    ensures var key, c := s.threads[step.t].key, s.threads[step.t].c;
      && c in s.containers
      && if step.ok || !step.needed then
           && after.threads == s.threads[step.t := Using(key, c, Client.Fresh)]
           && after.containers == s.containers[c := s.containers[c].(boundTo := Some(key), firewall := step.needed)]
         else after.threads == s.threads[step.t := Removing(c, FailGet(key))] && after.containers == s.containers
  {
    hide Apply, Goto, Change;
    GotoFields();
    ChangeFields();
    StepSuits(cfg, s, step);
    NewFirewallDoes(cfg, s, step.t, step.needed, step.ok, after);
  }

  /** A creation, for a caller or for prewarming, takes the first free address, and fails without one or
      without a runtime of the kind. */
  lemma AddressOrFailure(cfg: Config, s: State, step: Step, after: State)
    requires step.t in s.threads && s.threads[step.t].NeedIp? && Apply(cfg, s, step) == Some(after)
    ensures var purpose := s.threads[step.t].purpose;
      var kind := match purpose case ForGet(key) => cfg.kindOf(key) case ForPrewarm(pk, _) => pk.kind;
      if kind in cfg.kinds && s.freeIps != [] then
        after.freeIps == s.freeIps[1..] && after.threads == s.threads[step.t := HasIp(purpose, s.freeIps[0])]
      else
        && after.freeIps == s.freeIps
        && after.threads == s.threads[step.t :=
             match purpose case ForGet(key) => Settling(cfg.memoryOf(key)) case ForPrewarm(_, _) => PrewarmFailed]
  {
    hide Goto;
    GotoFields();
    StepSuits(cfg, s, step);
  }

  /** If docker creates nothing, the address goes back. */
  lemma CreatedOrReturned(cfg: Config, s: State, step: Step, after: State)
    requires step.t in s.threads && s.threads[step.t].HasIp? && Apply(cfg, s, step) == Some(after)
    ensures step.DockerCreate?
    ensures var purpose, ip := s.threads[step.t].purpose, s.threads[step.t].ip;
      if step.ok then
        && after.freeIps == s.freeIps && after.threads == s.threads[step.t := BringingUp(purpose, step.c)]
        && step.c !in s.containers && step.c in after.containers && after.containers[step.c].ip == ip
        && after.containers[step.c].memory == match purpose case ForGet(key) => cfg.memoryOf(key) case ForPrewarm(pk, _) => pk.memory
      else
        && after.freeIps == s.freeIps + [ip] && after.containers == s.containers
        && after.threads == s.threads[step.t :=
             match purpose case ForGet(key) => Settling(cfg.memoryOf(key)) case ForPrewarm(_, _) => PrewarmFailed]
  {
    hide Goto, Change;
    GotoFields();
    ChangeFields();
    StepSuits(cfg, s, step);
  }

  /** If a container does not come up, it is removed. */
  lemma UpOrRemoved(cfg: Config, s: State, step: Step, after: State)
    requires step.t in s.threads && s.threads[step.t].BringingUp? && Apply(cfg, s, step) == Some(after)
    ensures step.BringUp? && after.containers == s.containers
    ensures var purpose, c := s.threads[step.t].purpose, s.threads[step.t].c;
      after.threads == s.threads[step.t :=
        if !step.ok then Removing(c, FailCreate(purpose))
        else match purpose case ForGet(key) => ColdCreated(key, c) case ForPrewarm(pk, plan) => PrewarmReady(pk, c, plan)]
  {
    hide Goto;
    GotoFields();
    StepSuits(cfg, s, step);
  }

  /** Nothing is taken for granted about docker, the firewall and the function: in every reachable state
      any answer can come to whoever waits for it, and any new caller can arrive. */
  lemma AnyAnswerCanCome(cfg: Config, s: State, step: Step)
    requires Sensible(cfg) && Reachable(cfg, s)
    requires step.Arrive? ==> step.t !in s.threads
    requires !step.Arrive? ==> step.t in s.threads
    requires match step
      case Arrive(_, _) => true
      case CancelAcquire(t) => s.threads[t].Entering?
      case UnpauseWarm(t, _, _) => s.threads[t].WarmPopped?
      case WarmFirewall(t, _, _) => s.threads[t].WarmAwake?
      case NewFirewall(t, _, _) => s.threads[t].PrewarmPoked? || s.threads[t].ColdCreated?
      case DockerCreate(t, c, _) => s.threads[t].HasIp? && c !in s.containers
      case BringUp(t, _) => s.threads[t].BringingUp?
      case Remove(t, _, _) => s.threads[t].Removing?
      case ClientOp(t, op, _) => s.threads[t].Using? && Client.Next(s.threads[t].stage, op).Some?
      case _ => false
    ensures Apply(cfg, s, step).Some?
  {
    hide Reachable, Sensible, Inv, PcFacts, Apply, Client.Next;
    if step.Arrive? || step.CancelAcquire? { CallersComeAndGo(cfg, s, step); }
    else {
      ReachableHolds(cfg, s);
      FactsOf(cfg, s, step.t);
      HeldExist(cfg, s.containers, s.threads[step.t]);
      if step.DockerCreate? || step.BringUp? || step.Remove? { LifetimesTakeAnyAnswer(cfg, s, step); }
      else { CallersTakeAnyAnswer(cfg, s, step); }
    }
  }

  lemma CallersComeAndGo(cfg: Config, s: State, step: Step)
    requires (step.Arrive? && step.t !in s.threads) || (step.CancelAcquire? && step.t in s.threads && s.threads[step.t].Entering?)
    ensures Apply(cfg, s, step).Some?
  {
    hide Goto;
  }

  lemma LifetimesTakeAnyAnswer(cfg: Config, s: State, step: Step)
    requires step.t in s.threads && (step.DockerCreate? || step.BringUp? || step.Remove?)
    requires Suits(s.threads[step.t], step)
    requires step.DockerCreate? ==> step.c !in s.containers
    requires !step.DockerCreate? ==> s.threads[step.t].c in s.containers
    ensures Apply(cfg, s, step).Some?
  {
    hide Goto, Change, CreateFailed, MemoryFor, Resume;
  }

  lemma CallersTakeAnyAnswer(cfg: Config, s: State, step: Step)
    requires step.t in s.threads && (step.UnpauseWarm? || step.WarmFirewall? || step.NewFirewall? || step.ClientOp?)
    requires Suits(s.threads[step.t], step) && s.threads[step.t].c in s.containers
    requires step.UnpauseWarm? ==> s.containers[s.threads[step.t].c].pauses > 0
    requires step.ClientOp? ==> Client.Next(s.threads[step.t].stage, step.op).Some?
    ensures Apply(cfg, s, step).Some?
  {
    hide Goto, Change, Used, AfterOp, Client.Next;
  }

  lemma HeldExist(cfg: Config, containers: map<nat, Container>, pc: Pc)
    requires PcFacts(cfg, containers, pc)
    ensures pc.WarmPopped? ==> pc.c in containers && containers[pc.c].pauses > 0
    ensures pc.WarmAwake? || pc.PrewarmPoked? || pc.ColdCreated? || pc.BringingUp? || pc.Removing? || pc.Using? ==> pc.c in containers
  {
  }

  // ---------------------------------------------------------------- removal

  /** A container is gone, and its address free, exactly if its firewall could be taken down, if it had
      one, and docker removed it; otherwise it keeps its address for good. Either way whoever removes it
      goes on the same. */
  lemma RemovalDecides(cfg: Config, s: State, t: nat, cleanupOk: bool, dockerOk: bool, mid: State)
    requires t in s.threads && s.threads[t].Removing? && Apply(cfg, s, Remove(t, cleanupOk, dockerOk)) == Some(mid)
    ensures s.threads[t].c in s.containers
    ensures var c, next := s.threads[t].c, s.threads[t].after;
      var x := s.containers[c];
      var goesOn := match next
        case FailGet(key) => Settling(cfg.memoryOf(key))
        case AfterDestroy(memory) => Settling(memory)
        case NextDelete => DeleterIdle
        case NextReap(doomed) => Reaping(doomed)
        case FailCreate(ForGet(key)) => Settling(cfg.memoryOf(key))
        case FailCreate(ForPrewarm(_, _)) => PrewarmFailed;
      if dockerOk && (cleanupOk || !x.firewall) then
        forall after :: Apply(cfg, mid, ReleaseIp(t)) == Some(after) ==>
          && after.containers == s.containers[c := x.(fate := Gone)] && after.freeIps == s.freeIps + [x.ip]
          && after.threads == s.threads[t := goesOn]
      else
        && mid.containers == s.containers[c := x.(fate := Lost)] && mid.freeIps == s.freeIps
        && mid.threads == s.threads[t := goesOn]
  {
    hide Apply, Goto, Change;
    GotoFields();
    ChangeFields();
    RemoveDoes(cfg, s, t, cleanupOk, dockerOk, mid);
    var c, next := s.threads[t].c, s.threads[t].after;
    if dockerOk && (cleanupOk || !s.containers[c].firewall) {
      forall after | Apply(cfg, mid, ReleaseIp(t)) == Some(after)
        ensures after.containers == s.containers[c := s.containers[c].(fate := Gone)] && after.freeIps == s.freeIps + [s.containers[c].ip]
        ensures after.threads == s.threads[t := Resume(cfg, next)]
      {
        ReleaseDoes(cfg, mid, t, after);
        assert s.threads[t := Releasing(c, next)][t := Resume(cfg, next)] == s.threads[t := Resume(cfg, next)];
      }
    }
  }

  // ---------------------------------------------------------------- the goroutines

  /** The deletion goroutine takes what waits first, and the reaper works off what it collected in order. */
  lemma DeletersTakeTheFirst(cfg: Config, s: State, step: Step, after: State)
    requires step.t in s.threads && Apply(cfg, s, step) == Some(after)
    requires s.threads[step.t].DeleterIdle? || (s.threads[step.t].Reaping? && s.threads[step.t].doomed != [])
    ensures s.threads[step.t].DeleterIdle? ==>
      s.queue != [] && after == s.(queue := s.queue[1..], threads := s.threads[step.t := Unpausing(s.queue[0], NextDelete)])
    ensures s.threads[step.t].Reaping? ==>
      var doomed := s.threads[step.t].doomed;
      after == s.(threads := s.threads[step.t := Unpausing(doomed[0], NextReap(doomed[1..]))])
  {
    hide Apply, Goto;
    StepSuits(cfg, s, step);
    if step.TakeQueued? { TakeQueuedDoes(cfg, s, step.t, after); } else { TakeReapedDoes(cfg, s, step.t, after); }
  }

  lemma TakeQueuedDoes(cfg: Config, s: State, t: nat, after: State)
    requires t in s.threads && Apply(cfg, s, TakeQueued(t)) == Some(after)
    ensures s.queue != [] && after == s.(queue := s.queue[1..], threads := s.threads[t := Unpausing(s.queue[0], NextDelete)])
  {
  }

  lemma TakeReapedDoes(cfg: Config, s: State, t: nat, after: State)
    requires t in s.threads && Apply(cfg, s, TakeReaped(t)) == Some(after)
    ensures var pc := s.threads[t];
      && pc.Reaping? && pc.doomed != []
      && after == s.(threads := s.threads[t := Unpausing(pc.doomed[0], NextReap(pc.doomed[1..]))])
  {
  }

  /** What is doomed is unpaused and then removed, whatever comes out of unpausing. */
  lemma UnpausedThenRemoved(cfg: Config, s: State, step: Step, after: State)
    requires step.t in s.threads && s.threads[step.t].Unpausing? && Apply(cfg, s, step) == Some(after)
    ensures var c, next := s.threads[step.t].c, s.threads[step.t].after;
      && c in s.containers && s.containers[c].pauses > 0
      && after == s.(containers := s.containers[c := s.containers[c].(pauses := s.containers[c].pauses - 1)],
                     threads := s.threads[step.t := Removing(c, next)])
  {
    StepSuits(cfg, s, step);
  }

  /** The reaper collects what was last used no later than the cutoff, list by list. */
  lemma ReaperCollects(cfg: Config, s: State, step: Step, after: State)
    requires step.t in s.threads && s.threads[step.t] == Reaping([]) && Apply(cfg, s, step) == Some(after)
    ensures step.LockedReap? && Enumerates(step.order, s.idles.Keys)
    ensures Reaps(s.idles, step.cutoff, step.order, step.removed, after.idles)
    ensures after == s.(idles := after.idles, idlesMemory := after.idlesMemory, threads := s.threads[step.t := Reaping(Ids(step.removed))])
  {
    hide Apply, Goto;
    StepSuits(cfg, s, step);
    CollectDoes(cfg, s, step, after);
  }

  lemma CollectDoes(cfg: Config, s: State, step: Step, after: State)
    requires step.LockedReap? && step.t in s.threads && Apply(cfg, s, step) == Some(after)
    ensures Enumerates(step.order, s.idles.Keys) && Reaps(s.idles, step.cutoff, step.order, step.removed, after.idles)
    ensures after == s.(idles := after.idles, idlesMemory := after.idlesMemory, threads := s.threads[step.t := Reaping(Ids(step.removed))])
  {
    hide Enumerates, Reaps, Ids, Memory, SubU64;
  }

  /** The prewarm goroutine consumes the poke, plans what is missing of every configured count, creates
      until nothing is, and pokes itself again after a failure. */
  lemma PokeIsConsumed(cfg: Config, s: State, step: Step, after: State)
    requires step.t in s.threads && s.threads[step.t].PrewarmIdle? && Apply(cfg, s, step) == Some(after)
    ensures s.poke && after == s.(poke := false, threads := s.threads[step.t := Planning])
  {
    StepSuits(cfg, s, step);
  }

  lemma FailurePokes(cfg: Config, s: State, step: Step, after: State)
    requires step.t in s.threads && s.threads[step.t].PrewarmFailed? && Apply(cfg, s, step) == Some(after)
    ensures after == s.(poke := true, threads := s.threads[step.t := PrewarmIdle])
  {
    StepSuits(cfg, s, step);
  }

  lemma MissingIsPlanned(cfg: Config, s: State, step: Step, after: State)
    requires step.t in s.threads && s.threads[step.t].Planning? && Apply(cfg, s, step) == Some(after)
    ensures step.t in after.threads && after.threads[step.t].Creating?
    ensures var plan := after.threads[step.t].plan;
      && plan.Keys == cfg.stemcells.Keys
      && (forall pk :: pk in plan ==> plan[pk] == if cfg.stemcells[pk] > |PrewarmList(s.prewarmed, pk)|
                                                  then cfg.stemcells[pk] - |PrewarmList(s.prewarmed, pk)| else 0)
      && after == s.(threads := s.threads[step.t := Creating(plan)])
  {
    StepSuits(cfg, s, step);
  }

  lemma PlanIsCarriedOut(cfg: Config, s: State, step: Step, after: State)
    requires step.t in s.threads && s.threads[step.t].Creating? && Apply(cfg, s, step) == Some(after)
    ensures var plan := s.threads[step.t].plan;
      if forall pk :: pk in plan ==> plan[pk] == 0 then after == s.(threads := s.threads[step.t := PrewarmIdle])
      else
        && step.NextCreate? && step.pk in plan && plan[step.pk] > 0
        && after == s.(threads := s.threads[step.t := NeedIp(ForPrewarm(step.pk, plan))])
  {
    StepSuits(cfg, s, step);
  }

  lemma CreatedIsAdded(cfg: Config, s: State, step: Step, after: State)
    requires step.t in s.threads && s.threads[step.t].PrewarmReady? && Apply(cfg, s, step) == Some(after)
    ensures var pk, c, plan := s.threads[step.t].pk, s.threads[step.t].c, s.threads[step.t].plan;
      && pk in plan && plan[pk] > 0
      && after == s.(prewarmed := s.prewarmed[pk := PrewarmList(s.prewarmed, pk) + [c]],
                     threads := s.threads[step.t := Creating(plan[pk := plan[pk] - 1])])
  {
    StepSuits(cfg, s, step);
  }

  // ---------------------------------------------------------------- use and return

  /** What a caller does with its container is recorded of it, and nothing else happens to any. */
  lemma OperationsAreRecorded(cfg: Config, s: State, step: Step, after: State)
    requires step.t in s.threads && s.threads[step.t].Using? && Apply(cfg, s, step) == Some(after)
    ensures step.ClientOp? && Client.Next(s.threads[step.t].stage, step.op).Some?
    ensures var key, c := s.threads[step.t].key, s.threads[step.t].c;
      && c in s.containers
      && var x := s.containers[c];
         var y := match step.op
           case Initialize(ok) => x.(uses := x.uses + [Init(key, ok)])
           case Run(_) => x.(uses := x.uses + [Run(key)])
           case CollectLogs(_) => x
           case Put => x.(lastUsed := step.now, pauses := x.pauses + 1)
           case PutToDestroy => x;
         after == s.(containers := s.containers[c := y], threads := s.threads[step.t :=
           match step.op
           case Put => Stamped(key, c)
           case PutToDestroy => Removing(c, AfterDestroy(x.memory))
           case _ => Using(key, c, Client.Next(s.threads[step.t].stage, step.op).value)])
  {
    hide Apply;
    StepSuits(cfg, s, step);
    OperationDoes(cfg, s, step, after);
  }

  lemma OperationDoes(cfg: Config, s: State, step: Step, after: State)
    requires step.t in s.threads && s.threads[step.t].Using? && step.ClientOp? && Apply(cfg, s, step) == Some(after)
    ensures Client.Next(s.threads[step.t].stage, step.op).Some?
    ensures var key, c := s.threads[step.t].key, s.threads[step.t].c;
      && c in s.containers
      && after == Goto(Change(s, c, Used(s.containers[c], key, step.op, step.now)), step.t,
           AfterOp(key, c, s.containers[c].memory, step.op, Client.Next(s.threads[step.t].stage, step.op).value))
  {
    hide Goto, Change, Used, AfterOp, Client.Next;
  }

  lemma FilingDoes(cfg: Config, s: State, step: Step, after: State)
    requires Sensible(cfg) && Inv(cfg, s)
    requires step.t in s.threads && s.threads[step.t].Stamped? && Apply(cfg, s, step) == Some(after)
    ensures step.LockedPut?
    ensures var key, c := s.threads[step.t].key, s.threads[step.t].c;
      && c in s.containers
      && var x := s.containers[c];
         after == s.(idles := s.idles[key := ListOf(s.idles, key) + [Pooled(c, key, x.memory, x.lastUsed)]],
                     idlesMemory := after.idlesMemory, threads := s.threads[step.t := Settling(x.memory)])
  {
    hide Inv;
    StepSuits(cfg, s, step);
  }

  lemma CountedDown(cfg: Config, s: State, step: Step, after: State)
    requires Sensible(cfg) && MemoryInv(cfg, s)
    requires step.t in s.threads && s.threads[step.t].Settling? && Apply(cfg, s, step) == Some(after)
    ensures var m := s.threads[step.t].memory;
      m <= s.counter && after == s.(counter := s.counter - m, threads := s.threads[step.t := Settled(m)])
  {
    hide MemoryInv, AddU64, NegU64, Share;
    StepSuits(cfg, s, step);
    SettlingIsCounted(cfg, s, step.t);
    AddNegU64(s.counter, s.threads[step.t].memory);
  }

  lemma Released(cfg: Config, s: State, step: Step, after: State)
    requires step.t in s.threads && s.threads[step.t].Settled? && Apply(cfg, s, step) == Some(after)
    ensures var m := s.threads[step.t].memory;
      m <= s.held && after == s.(held := s.held - m, threads := s.threads[step.t := Done])
  {
    StepSuits(cfg, s, step);
  }

  /** The rest of a run after its first step. */
  lemma Unrolled(cfg: Config, s: State, steps: seq<Step>, after: State) returns (next: State)
    requires RunAll(cfg, s, steps) == Some(after) && steps != [] && Sensible(cfg) && Inv(cfg, s)
    ensures Apply(cfg, s, steps[0]) == Some(next) && RunAll(cfg, next, steps[1..]) == Some(after) && Inv(cfg, next)
  {
    hide Apply, Inv, Sensible;
    next := Apply(cfg, s, steps[0]).value;
    StepKeeps(cfg, s, steps[0], next);
  }

  lemma NotOver(cfg: Config, s: State, t: nat, steps: seq<Step>, after: State)
    requires RunAll(cfg, s, steps) == Some(after) && t in s.threads && t in after.threads && s.threads[t] != after.threads[t]
    ensures steps != []
  {
  }

  /** The last steps of a return: memory is counted down and the weight released. */
  lemma SettlesAlone(cfg: Config, s0: State, t: nat, steps: seq<Step>, s: State)
    requires Sensible(cfg) && Inv(cfg, s0) && t in s0.threads && s0.threads[t].Settling?
    requires forall i :: 0 <= i < |steps| ==> steps[i].t == t
    requires RunAll(cfg, s0, steps) == Some(s) && t in s.threads && s.threads[t].Done?
    ensures var m := s0.threads[t].memory;
      && m <= s0.held && m <= s0.counter
      && s == s0.(held := s0.held - m, counter := s0.counter - m, threads := s0.threads[t := Done])
  {
    hide Apply, RunAll, Inv, Sensible, MemoryInv, CensusInv, AddressInv, FactsInv, PrewarmInv;
    var m := s0.threads[t].memory;
    NotOver(cfg, s0, t, steps, s);
    var s1 := Unrolled(cfg, s0, steps, s);
    InvParts(cfg, s0);
    CountedDown(cfg, s0, steps[0], s1);
    NotOver(cfg, s1, t, steps[1..], s);
    var s2 := Unrolled(cfg, s1, steps[1..], s);
    Released(cfg, s1, steps[1..][0], s2);
    assert s0.threads[t := Settled(m)][t := Done] == s0.threads[t := Done];
    DoneStays(cfg, s2, t, steps[1..][1..], s);
  }

  lemma DoneStays(cfg: Config, s: State, t: nat, steps: seq<Step>, after: State)
    requires t in s.threads && s.threads[t].Done? && RunAll(cfg, s, steps) == Some(after)
    requires forall i :: 0 <= i < |steps| ==> steps[i].t == t
    ensures after == s
  {
    hide Apply;
    if steps != [] { DoneIsDone(cfg, s, steps[0]); }
  }

  /** A return that nobody disturbs does what `Put` does in one piece: the container is stamped and its
      pause scheduled, it becomes the last of its list, its memory is no longer in flight, and nothing else
      changes. */
  lemma UndisturbedPut(cfg: Config, s0: State, t: nat, steps: seq<Step>, s: State)
    requires Sensible(cfg) && Reachable(cfg, s0) && t in s0.threads && s0.threads[t].Using? && s0.threads[t].stage == Client.Returning
    requires forall i :: 0 <= i < |steps| ==> steps[i].t == t
    requires RunAll(cfg, s0, steps) == Some(s) && t in s.threads && s.threads[t].Done?
    ensures steps != [] && steps[0].ClientOp?
    ensures var key, c, now := s0.threads[t].key, s0.threads[t].c, steps[0].now;
      var m := cfg.memoryOf(key);
      && c in s0.containers && m <= s0.held && m <= s0.counter
      && s == s0.(
           held := s0.held - m, counter := s0.counter - m,
           idles := s0.idles[key := ListOf(s0.idles, key) + [Pooled(c, key, m, now)]], idlesMemory := s.idlesMemory,
           containers := s0.containers[c := s0.containers[c].(lastUsed := now, pauses := 1)],
           threads := s0.threads[t := Done])
  {
    hide Apply, RunAll, Inv, Sensible, Reachable, MemoryInv, CensusInv, AddressInv, FactsInv, PrewarmInv, PcFacts;
    ReachableHolds(cfg, s0);
    UsedFacts(cfg, s0, t);
    NotOver(cfg, s0, t, steps, s);
    var s1 := Unrolled(cfg, s0, steps, s);
    OperationsAreRecorded(cfg, s0, steps[0], s1);
    NotOver(cfg, s1, t, steps[1..], s);
    var s2 := Unrolled(cfg, s1, steps[1..], s);
    FilingDoes(cfg, s1, steps[1..][0], s2);
    SettlesAlone(cfg, s2, t, steps[1..][1..], s);
    var key, c := s0.threads[t].key, s0.threads[t].c;
    assert s0.threads[t := Stamped(key, c)][t := Settling(cfg.memoryOf(key))][t := Done] == s0.threads[t := Done];
  }

  lemma UsedFacts(cfg: Config, s: State, t: nat)
    requires Inv(cfg, s) && t in s.threads && s.threads[t].Using?
    ensures var key, c := s.threads[t].key, s.threads[t].c;
      c in s.containers && s.containers[c].memory == cfg.memoryOf(key) && s.containers[c].pauses == 0
  {
    hide Inv, HistoryOk;
    FactsOf(cfg, s, t);
  }
}
