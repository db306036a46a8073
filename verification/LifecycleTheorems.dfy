/** What holds in every reachable state of the container lifecycle, for any number of invocations
    and any interleaving, whatever docker, the firewall and the functions do. */
module LifecycleTheorems {
  import opened Common
  import opened IdleLists
  import opened Lifecycle
  import opened LifecycleInvariant
  import opened LifecycleSteps
  import opened LifecycleListSteps
  import Client

  // ---------------------------------------------------------------- the invariant over whole runs

  lemma InitialHolds(cfg: Config)
    ensures Inv(cfg, Initial(cfg))
  {
    hide MemoryInv, CensusInv, AddressInv, FactsInv, PrewarmInv;
    InitialSums(cfg);
    InitialLists(cfg);
  }

  lemma InitialSums(cfg: Config)
    ensures MemoryInv(cfg, Initial(cfg)) && CensusInv(cfg, Initial(cfg)) && AddressInv(cfg, Initial(cfg))
  {
    hide Share;
    var s := Initial(cfg);
    forall w: Ledger ensures OfThreads(cfg, w, s.threads) == 0 {
      InitialShares(cfg, w);
      SumOfZeroes(Shares(cfg, w, s.threads));
    }
    forall c: nat ensures Places(cfg, s, c) == 0 {}
    forall ip: string ensures Holding(s.containers, ip) == 0 {}
  }

  lemma InitialShares(cfg: Config, w: Ledger)
    ensures Share(cfg, w, PrewarmIdle) == Share(cfg, w, DeleterIdle) == Share(cfg, w, Reaping([])) == 0
  {
  }

  lemma InitialLists(cfg: Config)
    ensures FactsInv(cfg, Initial(cfg)) && PrewarmInv(cfg, Initial(cfg))
  {
    hide PcFacts, HistoryOk, IdleFacts, FreshFacts, Covered;
    InitialPcs(cfg);
  }

  lemma InitialPcs(cfg: Config)
    ensures PcFacts(cfg, map[], PrewarmIdle) && PcFacts(cfg, map[], DeleterIdle) && PcFacts(cfg, map[], Reaping([]))
  {
  }

  lemma CountersKeep(cfg: Config, s: State, step: Step, after: State)
    requires Sensible(cfg) && Inv(cfg, s) && step.t in s.threads && ApplyCounters(cfg, s, step) == Some(after)
    ensures Inv(cfg, after)
  {
    hide Inv, Sensible, DoAcquire, DoCancelAcquire, DoAddCounter, DoSubCounter, DoReleaseSemaphore;
    match step
    case Acquire(t) => AcquireKeeps(cfg, s, t, after);
    case CancelAcquire(t) => CancelAcquireKeeps(cfg, s, t, after);
    case AddCounter(t) => AddCounterKeeps(cfg, s, t, after);
    case SubCounter(t) => SubCounterKeeps(cfg, s, t, after);
    case ReleaseSemaphore(t) => ReleaseSemaphoreKeeps(cfg, s, t, after);
    case _ =>
  }

  lemma PrewarmingKeep(cfg: Config, s: State, step: Step, after: State)
    requires Sensible(cfg) && Inv(cfg, s) && step.t in s.threads && ApplyPrewarming(cfg, s, step) == Some(after)
    ensures Inv(cfg, after)
  {
    hide Inv, Sensible, DoReadPoke, DoPlan, DoNextCreate, DoFinishPlan, DoRetryPoke, DoAddPrewarmed, DoLookPrewarm, DoPoke;
    match step
    case ReadPoke(t) => ReadPokeKeeps(cfg, s, t, after);
    case Plan(t) => PlanKeeps(cfg, s, t, after);
    case NextCreate(t, pk) => NextCreateKeeps(cfg, s, t, pk, after);
    case FinishPlan(t) => FinishPlanKeeps(cfg, s, t, after);
    case RetryPoke(t) => RetryPokeKeeps(cfg, s, t, after);
    case AddPrewarmed(t) => AddPrewarmedKeeps(cfg, s, t, after);
    case LookPrewarm(t) => LookPrewarmKeeps(cfg, s, t, after);
    case Poke(t) => PokeKeeps(cfg, s, t, after);
    case _ =>
  }

  lemma ListsKeep(cfg: Config, s: State, step: Step, after: State)
    requires Sensible(cfg) && Inv(cfg, s) && step.t in s.threads && ApplyLists(cfg, s, step) == Some(after)
    ensures Inv(cfg, after)
  {
    hide Inv, Sensible, DoLockedGet, DoPushDoomed, DoLockedPut, DoTakeQueued, DoLockedReap, DoTakeReaped;
    match step
    case LockedGet(t, evicted, rest) => LockedGetKeeps(cfg, s, t, evicted, rest, after);
    case PushDoomed(t) => PushDoomedKeeps(cfg, s, t, after);
    case LockedPut(t) => LockedPutKeeps(cfg, s, t, after);
    case TakeQueued(t) => TakeQueuedKeeps(cfg, s, t, after);
    case LockedReap(t, cutoff, order, removed, rest) => LockedReapKeeps(cfg, s, t, cutoff, order, removed, rest, after);
    case TakeReaped(t) => TakeReapedKeeps(cfg, s, t, after);
    case _ =>
  }

  lemma LifetimesKeep(cfg: Config, s: State, step: Step, after: State)
    requires Sensible(cfg) && Inv(cfg, s) && step.t in s.threads && ApplyLifetimes(cfg, s, step) == Some(after)
    ensures Inv(cfg, after)
  {
    hide Inv, Sensible, DoAcquireIp, DoDockerCreate, DoBringUp, DoUnpauseDoomed, DoRemove, DoReleaseIp;
    match step
    case AcquireIp(t) => AcquireIpKeeps(cfg, s, t, after);
    case DockerCreate(t, c, ok) => DockerCreateKeeps(cfg, s, t, c, ok, after);
    case BringUp(t, ok) => BringUpKeeps(cfg, s, t, ok, after);
    case UnpauseDoomed(t) => UnpauseDoomedKeeps(cfg, s, t, after);
    case Remove(t, cleanupOk, dockerOk) => RemoveKeeps(cfg, s, t, cleanupOk, dockerOk, after);
    case ReleaseIp(t) => ReleaseIpKeeps(cfg, s, t, after);
    case _ =>
  }

  lemma CallersKeep(cfg: Config, s: State, step: Step, after: State)
    requires Sensible(cfg) && Inv(cfg, s) && step.t in s.threads && ApplyCallers(cfg, s, step) == Some(after)
    ensures Inv(cfg, after)
  {
    hide Inv, Sensible, DoUnpauseWarm, DoWarmFirewall, DoNewFirewall, DoClientOp;
    match step
    case UnpauseWarm(t, ok, known) => UnpauseWarmKeeps(cfg, s, t, ok, known, after);
    case WarmFirewall(t, needed, ok) => WarmFirewallKeeps(cfg, s, t, needed, ok, after);
    case NewFirewall(t, needed, ok) => NewFirewallKeeps(cfg, s, t, needed, ok, after);
    case ClientOp(t, op, now) => ClientOpKeeps(cfg, s, t, op, now, after);
    case _ =>
  }

  /** Every step keeps the invariant. */
  lemma StepKeeps(cfg: Config, s: State, step: Step, after: State)
    requires Sensible(cfg) && Inv(cfg, s) && Apply(cfg, s, step) == Some(after)
    ensures Inv(cfg, after)
  {
    hide Inv, Sensible, DoArrive, ApplyCounters, ApplyPrewarming, ApplyLists, ApplyLifetimes, ApplyCallers;
    if step.Arrive? { ArriveKeeps(cfg, s, step.t, step.key, after); }
    else if OnCounters(step) { CountersKeep(cfg, s, step, after); }
    else if OnPrewarming(step) { PrewarmingKeep(cfg, s, step, after); }
    else if OnLists(step) { ListsKeep(cfg, s, step, after); }
    else if OnLifetimes(step) { LifetimesKeep(cfg, s, step, after); }
    else { CallersKeep(cfg, s, step, after); }
  }

  lemma {:induction false} RunKeeps(cfg: Config, s: State, steps: seq<Step>, after: State)
    requires Sensible(cfg) && Inv(cfg, s) && RunAll(cfg, s, steps) == Some(after)
    ensures Inv(cfg, after)
    decreases |steps|
  {
    hide Inv, Sensible, Apply;
    if steps != [] {
      var next := Apply(cfg, s, steps[0]).value;
      StepKeeps(cfg, s, steps[0], next);
      RunKeeps(cfg, next, steps[1..], after);
    }
  }

  lemma ReachableHolds(cfg: Config, s: State)
    requires Sensible(cfg) && Reachable(cfg, s)
    ensures Inv(cfg, s)
  {
    hide Inv, Sensible;
    var steps :| RunAll(cfg, Initial(cfg), steps) == Some(s);
    InitialHolds(cfg);
    RunKeeps(cfg, Initial(cfg), steps, s);
  }

  // ---------------------------------------------------------------- memory

  /** Fine-grained memory safety: the counter stays within the weight held of the semaphore, which
      stays within the limit; both are exactly what the callers account for; the exit that would
      leave the mutex locked is never taken; idle memory and the memory of containers being obtained
      or in use stay within twice the limit. */
  lemma MemorySafety(cfg: Config, s: State)
    requires Sensible(cfg) && Reachable(cfg, s)
    ensures s.counter == OfThreads(cfg, InFlight, s.threads)
    ensures s.held == OfThreads(cfg, Held, s.threads)
    ensures s.counter <= s.held <= cfg.maxMemory
    ensures s.idlesMemory == Total(Bytes, s.idles)
    ensures s.idlesMemory + OfThreads(cfg, Reserved, s.threads) <= 2 * cfg.maxMemory
    ensures !s.idlesLocked
  {
    ReachableHolds(cfg, s);
    CountersAreBounded(cfg, s, PREWARMER);
  }

  /** None of the unsigned 64-bit operations on the in-flight counter wraps around: every step
      changes it by exactly the memory it is about, and the semaphore never releases too much. */
  lemma CounterNeverWraps(cfg: Config, s: State, t: nat)
    requires Sensible(cfg) && Reachable(cfg, s) && t in s.threads
    ensures s.threads[t].Settling? ==> AddU64(s.counter, NegU64(s.threads[t].memory)) == s.counter - s.threads[t].memory
    ensures s.threads[t].Settled? ==> s.threads[t].memory <= s.held
    ensures s.threads[t].Acquired? ==> AddU64(s.counter, cfg.memoryOf(s.threads[t].key)) == s.counter + cfg.memoryOf(s.threads[t].key)
  {
    hide CensusInv, AddressInv, PrewarmInv, FactsInv, Share, AddU64, NegU64;
    ReachableHolds(cfg, s);
    ChargeShapes(cfg, s.threads[t]);
    CountersAreBounded(cfg, s, t);
    ThreadMoves(cfg, s.threads, t, Done);
    if s.threads[t].Settling? { AddNegU64(s.counter, s.threads[t].memory); }
    if s.threads[t].Acquired? { AddExact(s.counter, cfg.memoryOf(s.threads[t].key)); }
  }

  /** Nor do those on the idle memory, and the sum tested for room is the true sum. */
  lemma IdleMemoryNeverWraps(cfg: Config, s: State, t: nat)
    requires Sensible(cfg) && Reachable(cfg, s) && t in s.threads
    ensures s.threads[t].Stamped? ==> s.idlesMemory + cfg.memoryOf(s.threads[t].key) < U64
    ensures s.threads[t].Counting? ==> s.idlesMemory + s.threads[t].snapshot < U64
    ensures forall k, i :: k in s.idles && 0 <= i < |s.idles[k]| ==> s.idles[k][i].memory <= s.idlesMemory
  {
    hide CensusInv, AddressInv, PrewarmInv, FactsInv, Share;
    ReachableHolds(cfg, s);
    ChargeShapes(cfg, s.threads[t]);
    IdleBound(cfg, s, t);
    forall k, i | k in s.idles && 0 <= i < |s.idles[k]| ensures s.idles[k][i].memory <= s.idlesMemory {
      IdleLists.Counted(Bytes, s.idles, k, i);
    }
  }

  lemma ChargeShapes(cfg: Config, pc: Pc)
    ensures pc.Settling? ==> Share(cfg, InFlight, pc) == Share(cfg, Held, pc) == pc.memory
    ensures pc.Settled? ==> Share(cfg, Held, pc) == pc.memory
    ensures pc.Acquired? ==> Share(cfg, Held, pc) == cfg.memoryOf(pc.key) && Share(cfg, InFlight, pc) == 0
    ensures pc.Stamped? ==> Share(cfg, Reserved, pc) == cfg.memoryOf(pc.key)
  {
  }

  // ---------------------------------------------------------------- ownership

  /** Where a created container can be. */
  datatype Place =
    | Idle(key: WarmKey)
    | Prewarmed(pk: PrewarmKey)
    | Queued
    | InHands(t: nat)
    | Removed
    | Abandoned

  /** How often a container occurs in a place. */
  function Occurrences(s: State, c: nat, place: Place): nat {
    match place
    case Idle(key) => Amount(Copies(c), ListOf(s.idles, key))
    case Prewarmed(pk) => multiset(PrewarmList(s.prewarmed, pk))[c]
    case Queued => multiset(s.queue)[c]
    case InHands(t) => if t in s.threads then multiset(Holds(s.threads[t]))[c] else 0
    case Removed => if c in s.containers && s.containers[c].fate == Gone then 1 else 0
    case Abandoned => if c in s.containers && s.containers[c].fate == Lost then 1 else 0
  }

  /** What a place contributes to the census. */
  lemma PlaceIsCounted(cfg: Config, s: State, c: nat, p: Place)
    ensures Occurrences(s, c, p) <= Places(cfg, s, c)
  {
    hide Holds, Share;
    match p
    case Idle(key) => TotalUpdate(Copies(c), s.idles, key, []);
    case Prewarmed(pk) => PrewarmMoves(s.prewarmed, pk, []);
    case InHands(t) => if t in s.threads { HandsAreCounted(cfg, s, c, t); }
    case _ =>
  }

  lemma HandsAreCounted(cfg: Config, s: State, c: nat, t: nat)
    requires t in s.threads
    ensures Occurrences(s, c, InHands(t)) == Share(cfg, Copy(c), s.threads[t]) <= OfThreads(cfg, Copy(c), s.threads)
  {
    ThreadMoves(cfg, s.threads, t, Done);
  }

  /** Two different places contribute to the census independently. */
  lemma PlacesAddUp(cfg: Config, s: State, c: nat, p: Place, q: Place)
    requires p != q
    ensures Occurrences(s, c, p) + Occurrences(s, c, q) <= Places(cfg, s, c)
  {
    hide Holds, Share;
    PlaceIsCounted(cfg, s, c, p);
    PlaceIsCounted(cfg, s, c, q);
    match (p, q)
    case (Idle(k), Idle(l)) =>
      TotalUpdate(Copies(c), s.idles, k, []);
      TotalUpdate(Copies(c), s.idles[k := []], l, []);
    case (Prewarmed(k), Prewarmed(l)) =>
      PrewarmMoves(s.prewarmed, k, []);
      PrewarmMoves(s.prewarmed[k := []], l, []);
    case (InHands(t), InHands(u)) =>
      if t in s.threads && u in s.threads {
        HandsAreCounted(cfg, s, c, t);
        HandsAreCounted(cfg, s, c, u);
        TwoThreads(cfg, Copy(c), s.threads, t, u);
      }
    case _ => DifferentPlaces(cfg, s, c, p, q);
  }

  lemma DifferentPlaces(cfg: Config, s: State, c: nat, p: Place, q: Place)
    requires p != q && !(p.Idle? && q.Idle?) && !(p.Prewarmed? && q.Prewarmed?) && !(p.InHands? && q.InHands?)
    ensures Occurrences(s, c, p) + Occurrences(s, c, q) <= Places(cfg, s, c)
  {
    hide Holds, Share;
    if p.Idle? { TotalUpdate(Copies(c), s.idles, p.key, []); }
    if q.Idle? { TotalUpdate(Copies(c), s.idles, q.key, []); }
    if p.Prewarmed? { PrewarmMoves(s.prewarmed, p.pk, []); }
    if q.Prewarmed? { PrewarmMoves(s.prewarmed, q.pk, []); }
    if p.InHands? && p.t in s.threads { HandsAreCounted(cfg, s, c, p.t); }
    if q.InHands? && q.t in s.threads { HandsAreCounted(cfg, s, c, q.t); }
  }

  /** A container that is counted is somewhere. */
  lemma FindPlace(cfg: Config, s: State, c: nat) returns (place: Place)
    requires Places(cfg, s, c) > 0
    ensures Occurrences(s, c, place) > 0
  {
    hide Holds, Share;
    if Total(Copies(c), s.idles) > 0 {
      var k := SumPositive(Weights(Copies(c), s.idles));
      place := Idle(k);
    } else if Prewarms(s.prewarmed, c) > 0 {
      var pk := SumPositive(PrewarmCopies(s.prewarmed, c));
      place := Prewarmed(pk);
    } else if OfThreads(cfg, Copy(c), s.threads) > 0 {
      var t := SumPositive(Shares(cfg, Copy(c), s.threads));
      HandsAreCounted(cfg, s, c, t);
      place := InHands(t);
    } else if multiset(s.queue)[c] > 0 {
      place := Queued;
    } else {
      place := if s.containers[c].fate == Gone then Removed else Abandoned;
    }
  }

  /** Single ownership: every created container is at all times in exactly one place, once, and when
      idle it is in the list of the key it was successfully initialised for. */
  lemma SingleOwnership(cfg: Config, s: State, c: nat) returns (place: Place)
    requires Sensible(cfg) && Reachable(cfg, s) && c in s.containers
    ensures Occurrences(s, c, place) == 1
    ensures forall other :: other != place ==> Occurrences(s, c, other) == 0
    ensures place.Idle? ==> Initialised(s.containers[c], place.key)
  {
    hide MemoryInv, AddressInv, PrewarmInv, FactsInv, Occurrences, Places, Initialised;
    ReachableHolds(cfg, s);
    assert Places(cfg, s, c) == Exists(s, c);
    place := FindPlace(cfg, s, c);
    PlaceIsCounted(cfg, s, c, place);
    forall other | other != place ensures Occurrences(s, c, other) == 0 {
      PlacesAddUp(cfg, s, c, place, other);
    }
    if place.Idle? { IdleIsInitialised(cfg, s, c, place.key); }
  }

  lemma IdleIsInitialised(cfg: Config, s: State, c: nat, key: WarmKey)
    requires FactsInv(cfg, s) && Occurrences(s, c, Idle(key)) > 0
    ensures c in s.containers && Initialised(s.containers[c], key)
  {
    hide HistoryOk, FreshFacts, PcFacts;
    var i := FindCopy(ListOf(s.idles, key), c);
    assert IdleFacts(cfg, s.containers, key, s.idles[key][i]);
  }

  lemma {:induction false} FindCopy(l: seq<Pooled>, c: nat) returns (i: nat)
    requires Amount(Copies(c), l) > 0
    ensures i < |l| && l[i].id == c
  {
    if l[0].id == c {
      i := 0;
    } else {
      i := FindCopy(l[1..], c);
      i := i + 1;
    }
  }

  // ---------------------------------------------------------------- key fidelity and initialisation

  /** Initialise exactly once, and for one key only: in every reachable state each container was
      initialised at most once, before everything it ran and successfully if it ran anything, and all
      its uses were for one key. */
  lemma InitialisedOnceForOneKey(cfg: Config, s: State, c: nat)
    requires Sensible(cfg) && Reachable(cfg, s) && c in s.containers
    ensures var uses := s.containers[c].uses;
      && (forall i :: 1 <= i < |uses| ==> uses[i].Run? && uses[0] == Init(uses[i].key, true))
      && (uses != [] ==> uses[0].Init? && s.containers[c].boundTo == Some(uses[0].key))
  {
    hide MemoryInv, AddressInv, PrewarmInv, CensusInv, ListFacts, PcFacts;
    ReachableHolds(cfg, s);
    assert HistoryOk(s.containers[c].uses, s.containers[c].boundTo);
  }

  /** A caller only ever has a container that was never used for another key; if it need not
      initialise it, it was successfully initialised for exactly this key. */
  lemma HandedOutForItsKey(cfg: Config, s: State, t: nat)
    requires Sensible(cfg) && Reachable(cfg, s) && t in s.threads && s.threads[t].Using?
    ensures var key, c := s.threads[t].key, s.threads[t].c;
      && c in s.containers
      && s.containers[c].boundTo == Some(key)
      && s.containers[c].memory == cfg.memoryOf(key)
      && (forall i :: 0 <= i < |s.containers[c].uses| ==> s.containers[c].uses[i].key == key)
      && (s.threads[t].stage == Client.Fresh ==> s.containers[c].uses == [])
      && (s.threads[t].stage == Client.Ready ==> s.containers[c].uses != [] && s.containers[c].uses[0] == Init(key, true))
  {
    hide MemoryInv, AddressInv, PrewarmInv, CensusInv, ListFacts;
    ReachableHolds(cfg, s);
    var c := s.threads[t].c;
    assert PcFacts(cfg, s.containers, s.threads[t]);
    assert HistoryOk(s.containers[c].uses, s.containers[c].boundTo);
  }

  /** A container's history is only ever added to; once used, its key stays, and so does its address. */
  ghost predicate Remembers(before: State, after: State, c: nat) {
    c in before.containers ==>
      && c in after.containers
      && before.containers[c].uses <= after.containers[c].uses
      && (before.containers[c].uses != [] ==> after.containers[c].boundTo == before.containers[c].boundTo)
      && after.containers[c].ip == before.containers[c].ip
  }

  lemma PrewarmingRemembers(cfg: Config, s: State, step: Step, after: State, c: nat)
    requires step.t in s.threads && ApplyPrewarming(cfg, s, step) == Some(after)
    ensures Remembers(s, after, c)
  {
    hide Goto;
    GotoFields();
  }

  lemma GettingRemembers(cfg: Config, s: State, t: nat, evicted: seq<Pooled>, rest: Idles, after: State, c: nat)
    requires t in s.threads && DoLockedGet(cfg, s, t, evicted, rest) == Some(after)
    ensures Remembers(s, after, c)
  {
    hide Remembers, Evicts, Fits, Ids, Memory, SubU64, ListOf, Goto;
    GotoFields();
    UntouchedIsRemembered(s, after, c);
  }

  lemma ListsRemember(cfg: Config, s: State, step: Step, after: State, c: nat)
    requires step.t in s.threads && ApplyLists(cfg, s, step) == Some(after)
    ensures Remembers(s, after, c)
  {
    hide Remembers, DoLockedGet, Reaps, Enumerates, Ids, AddU64, SubU64, Goto;
    GotoFields();
    if step.LockedGet? { GettingRemembers(cfg, s, step.t, step.evicted, step.rest, after, c); }
    else { UntouchedIsRemembered(s, after, c); }
  }

  /** Creating a container or changing what is unrelated to its use. */
  lemma ChangeIsRemembered(s: State, after: State, d: nat, x: Container, c: nat)
    requires after.containers == s.containers[d := x]
    requires d in s.containers ==>
      x.uses == s.containers[d].uses && x.boundTo == s.containers[d].boundTo && x.ip == s.containers[d].ip
    ensures Remembers(s, after, c)
  {
  }

  lemma CreatingRemembers(cfg: Config, s: State, t: nat, d: nat, ok: bool, after: State, c: nat)
    requires t in s.threads && DoDockerCreate(cfg, s, t, d, ok) == Some(after)
    ensures Remembers(s, after, c)
  {
    hide Remembers, CreateFailed, MemoryFor, Goto, Change;
    GotoFields();
    ChangeFields();
    if ok { ChangeIsRemembered(s, after, d, after.containers[d], c); }
    else { UntouchedIsRemembered(s, after, c); }
  }

  lemma RemovingRemembers(cfg: Config, s: State, step: Step, after: State, c: nat)
    requires step.t in s.threads && ApplyLifetimes(cfg, s, step) == Some(after)
    requires step.UnpauseDoomed? || step.Remove? || step.ReleaseIp?
    ensures Remembers(s, after, c)
  {
    hide Remembers, Resume, Goto, Change;
    GotoFields();
    ChangeFields();
    var d := s.threads[step.t].c;
    if after.containers == s.containers { UntouchedIsRemembered(s, after, c); }
    else { ChangeIsRemembered(s, after, d, after.containers[d], c); }
  }

  lemma LifetimesRemember(cfg: Config, s: State, step: Step, after: State, c: nat)
    requires step.t in s.threads && ApplyLifetimes(cfg, s, step) == Some(after)
    ensures Remembers(s, after, c)
  {
    hide Remembers, Resume, CreateFailed, KindFor, DoDockerCreate, DoUnpauseDoomed, DoRemove, DoReleaseIp, Goto;
    GotoFields();
    if step.DockerCreate? { CreatingRemembers(cfg, s, step.t, step.c, step.ok, after, c); }
    else if step.UnpauseDoomed? || step.Remove? || step.ReleaseIp? { RemovingRemembers(cfg, s, step, after, c); }
    else { UntouchedIsRemembered(s, after, c); }
  }

  /** Only a container that was never used is bound to a key. */
  lemma NewFirewallRemembers(cfg: Config, s: State, t: nat, needed: bool, ok: bool, after: State, c: nat)
    requires t in s.threads && DoNewFirewall(s, t, needed, ok) == Some(after)
    requires PcFacts(cfg, s.containers, s.threads[t])
    ensures Remembers(s, after, c)
  {
    hide Goto, Change;
    GotoFields();
    ChangeFields();
  }

  lemma ClientOpRemembers(s: State, t: nat, op: Client.Op, now: int, after: State, c: nat)
    requires t in s.threads && DoClientOp(s, t, op, now) == Some(after)
    ensures Remembers(s, after, c)
  {
    hide AfterOp, Goto, Change;
    GotoFields();
    ChangeFields();
  }

  lemma UnpauseWarmRemembers(cfg: Config, s: State, t: nat, ok: bool, known: bool, after: State, c: nat)
    requires t in s.threads && DoUnpauseWarm(cfg, s, t, ok, known) == Some(after)
    ensures Remembers(s, after, c)
  {
    hide Remembers, Goto, Change;
    GotoFields();
    ChangeFields();
    var d := s.threads[t].c;
    ChangeIsRemembered(s, after, d, after.containers[d], c);
  }

  lemma WarmFirewallRemembers(s: State, t: nat, needed: bool, ok: bool, after: State, c: nat)
    requires t in s.threads && DoWarmFirewall(s, t, needed, ok) == Some(after)
    ensures Remembers(s, after, c)
  {
    hide Remembers, Goto, Change;
    GotoFields();
    ChangeFields();
    var d := s.threads[t].c;
    if after.containers == s.containers { UntouchedIsRemembered(s, after, c); }
    else { ChangeIsRemembered(s, after, d, after.containers[d], c); }
  }

  lemma CallersRemember(cfg: Config, s: State, step: Step, after: State, c: nat)
    requires step.t in s.threads && ApplyCallers(cfg, s, step) == Some(after)
    requires PcFacts(cfg, s.containers, s.threads[step.t])
    ensures Remembers(s, after, c)
  {
    hide Remembers, PcFacts, DoNewFirewall, DoClientOp, DoUnpauseWarm, DoWarmFirewall;
    if step.NewFirewall? { NewFirewallRemembers(cfg, s, step.t, step.needed, step.ok, after, c); }
    else if step.ClientOp? { ClientOpRemembers(s, step.t, step.op, step.now, after, c); }
    else if step.UnpauseWarm? { UnpauseWarmRemembers(cfg, s, step.t, step.ok, step.stateKnown, after, c); }
    else { WarmFirewallRemembers(s, step.t, step.needed, step.ok, after, c); }
  }

  lemma StepRemembers(cfg: Config, s: State, step: Step, after: State, c: nat)
    requires Inv(cfg, s) && Apply(cfg, s, step) == Some(after)
    ensures Remembers(s, after, c)
  {
    hide Inv, Remembers, ApplyPrewarming, ApplyLists, ApplyLifetimes, ApplyCallers;
    if step.Arrive? || OnCounters(step) { UntouchedIsRemembered(s, after, c); }
    else if OnPrewarming(step) { PrewarmingRemembers(cfg, s, step, after, c); }
    else if OnLists(step) { ListsRemember(cfg, s, step, after, c); }
    else if OnLifetimes(step) { LifetimesRemember(cfg, s, step, after, c); }
    else { FactsOf(cfg, s, step.t); CallersRemember(cfg, s, step, after, c); }
  }

  lemma UntouchedIsRemembered(s: State, after: State, c: nat)
    requires after.containers == s.containers
    ensures Remembers(s, after, c)
  {
  }

  /** Over any run, what was done with a container is never forgotten. */
  lemma {:induction false} RunRemembers(cfg: Config, s: State, steps: seq<Step>, after: State, c: nat)
    requires Sensible(cfg) && Inv(cfg, s) && RunAll(cfg, s, steps) == Some(after)
    ensures Remembers(s, after, c)
    decreases |steps|
  {
    hide Inv, Sensible, Apply;
    if steps != [] {
      var next := Apply(cfg, s, steps[0]).value;
      StepKeeps(cfg, s, steps[0], next);
      StepRemembers(cfg, s, steps[0], next, c);
      RunRemembers(cfg, next, steps[1..], after, c);
    }
  }

  /** A container ever used for one key is never handed out for another, however the run goes on. */
  lemma NeverForAnotherKey(cfg: Config, s: State, steps: seq<Step>, after: State, c: nat, t: nat)
    requires Sensible(cfg) && Reachable(cfg, s) && RunAll(cfg, s, steps) == Some(after)
    requires c in s.containers && s.containers[c].uses != []
    requires t in after.threads && after.threads[t].Using? && after.threads[t].c == c
    ensures after.threads[t].key == s.containers[c].uses[0].key
  {
    hide Inv, RunAll, Apply, HistoryOk;
    ReachableHolds(cfg, s);
    RunKeeps(cfg, s, steps, after);
    RunRemembers(cfg, s, steps, after, c);
    InitialisedOnceForOneKey(cfg, s, c);
    FactsOf(cfg, after, t);
  }

  // ---------------------------------------------------------------- pause handshake pairing

  /** Each idle container, each container waiting for deletion and each container about to be
      unpaused has exactly one pause goroutine waiting for it, so `UnpauseIfNeeded` gets its answer;
      and a container in use has none, so no earlier pause can still fire. */
  lemma PausesArePaired(cfg: Config, s: State)
    requires Sensible(cfg) && Reachable(cfg, s)
    ensures forall k, i :: k in s.idles && 0 <= i < |s.idles[k]| ==> Scheduled(s.containers, s.idles[k][i].id)
    ensures AllScheduled(s.containers, s.queue)
    ensures forall t :: t in s.threads && (s.threads[t].WarmPopped? || s.threads[t].Unpausing? || s.threads[t].Stamped?) ==>
      Scheduled(s.containers, s.threads[t].c)
    ensures forall t :: t in s.threads && (s.threads[t].Using? || s.threads[t].Removing?) ==>
      s.threads[t].c in s.containers && s.containers[s.threads[t].c].pauses == 0
  {
    hide Inv, Reachable, PcFacts, AllScheduled;
    ReachableHolds(cfg, s);
    ListedAreScheduled(cfg, s);
    forall t | t in s.threads ensures PcFacts(cfg, s.containers, s.threads[t]) { FactsOf(cfg, s, t); }
    forall t | t in s.threads { PausesByPlace(cfg, s.containers, s.threads[t]); }
  }

  lemma ListedAreScheduled(cfg: Config, s: State)
    requires Inv(cfg, s)
    ensures forall k, i :: k in s.idles && 0 <= i < |s.idles[k]| ==> Scheduled(s.containers, s.idles[k][i].id)
    ensures AllScheduled(s.containers, s.queue)
  {
    hide MemoryInv, AddressInv, PrewarmInv, CensusInv, HistoryOk, FreshFacts, PcFacts, Scheduled;
    forall k, i | k in s.idles && 0 <= i < |s.idles[k]| ensures Scheduled(s.containers, s.idles[k][i].id) {
      ScheduledFromIdle(cfg, s.containers, k, s.idles[k][i]);
    }
  }

  lemma PausesByPlace(cfg: Config, containers: map<nat, Container>, pc: Pc)
    requires PcFacts(cfg, containers, pc)
    ensures pc.WarmPopped? || pc.Unpausing? || pc.Stamped? ==> Scheduled(containers, pc.c)
    ensures pc.Using? || pc.Removing? ==> pc.c in containers && containers[pc.c].pauses == 0
  {
  }

  // ---------------------------------------------------------------- addresses

  /** Address conservation: the free list, the addresses of containers under creation and those of
      containers not successfully removed are together exactly the initial addresses. */
  lemma AddressesAreConserved(cfg: Config, s: State, ip: string)
    requires Sensible(cfg) && Reachable(cfg, s)
    ensures multiset(s.freeIps)[ip] + OfThreads(cfg, Address(ip), s.threads) + Holding(s.containers, ip) == multiset(cfg.ips)[ip]
  {
    hide MemoryInv, CensusInv, PrewarmInv, FactsInv;
    ReachableHolds(cfg, s);
  }

  /** No two containers that are not removed share an address, nor is such an address handed out again. */
  lemma NoSharedAddress(cfg: Config, s: State, c: nat, d: nat)
    requires Sensible(cfg) && Reachable(cfg, s)
    requires forall i, j :: 0 <= i < j < |cfg.ips| ==> cfg.ips[i] != cfg.ips[j]
    requires c in s.containers && s.containers[c].fate != Gone
    ensures d in s.containers && d != c && s.containers[d].fate != Gone ==> s.containers[d].ip != s.containers[c].ip
    ensures s.containers[c].ip !in s.freeIps
    ensures forall t :: t in s.threads && s.threads[t].HasIp? ==> s.threads[t].ip != s.containers[c].ip
  {
    hide Inv, RunAll;
    var ip := s.containers[c].ip;
    AddressesAreConserved(cfg, s, ip);
    DistinctOnce(cfg.ips, ip);
    SumRemove(LiveAddresses(s.containers, ip), c);
    if d in s.containers && d != c && s.containers[d].fate != Gone && s.containers[d].ip == ip {
      SumRemove(LiveAddresses(s.containers, ip) - {c}, d);
    }
    forall t | t in s.threads && s.threads[t].HasIp? ensures s.threads[t].ip != ip {
      ThreadMoves(cfg, s.threads, t, Done);
      assert Share(cfg, Address(s.threads[t].ip), s.threads[t]) == 1;
    }
  }

  lemma {:induction false} DistinctOnce(l: seq<string>, x: string)
    requires forall i, j :: 0 <= i < j < |l| ==> l[i] != l[j]
    ensures multiset(l)[x] <= 1
    decreases |l|
  {
    if l != [] {
      assert l == [l[0]] + l[1..];
      DistinctOnce(l[1..], x);
      assert l[0] == x ==> x !in l[1..];
    }
  }

  // ---------------------------------------------------------------- prewarming

  /** No reconciliation is buffered, running or retrying, and nobody is between taking a prewarmed
      container and poking. */
  ghost predicate PrewarmQuiet(s: State) {
    && !s.poke
    && PREWARMER in s.threads && s.threads[PREWARMER].PrewarmIdle?
    && NobodyAboutToPoke(s)
  }

  /** No lost wakeup: whenever prewarming is quiet, every configured count is reached. */
  lemma NoLostWakeup(cfg: Config, s: State, pk: PrewarmKey)
    requires Sensible(cfg) && Reachable(cfg, s) && PrewarmQuiet(s) && pk in cfg.stemcells
    ensures |PrewarmList(s.prewarmed, pk)| >= cfg.stemcells[pk]
  {
    hide MemoryInv, CensusInv, AddressInv, FactsInv;
    ReachableHolds(cfg, s);
  }
}
