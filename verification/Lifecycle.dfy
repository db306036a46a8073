/** The container lifecycle as one transition system.

    Any number of invocations call the pool while its deletion goroutine, its reaper and its prewarm
    goroutine run beside them. Every atomic action of the code is one step of one thread: semaphore
    operations, counter updates, critical sections, channel operations, docker and firewall calls.
    What docker, the firewall and the function do is part of the step, so it is left open. */
module Lifecycle {
  import opened Common
  import opened IdleLists
  import Client

  /** What does not change during a run. */
  datatype Config = Config(
    maxMemory: nat,
    memoryOf: WarmKey -> nat,             // memory limit of the function behind a key
    kindOf: WarmKey -> string,            // runtime kind of the function behind a key
    kinds: set<string>,                   // kinds with a runtime manifest
    stemcells: map<PrewarmKey, int>,      // configured prewarm counts
    ips: seq<string>                      // the usable addresses at start
  )

  /** Sums of idle and in-flight memory must fit 64 bits. */
  predicate Sensible(cfg: Config) {
    && 3 * cfg.maxMemory < U64
    && forall pk :: pk in cfg.stemcells ==> pk.kind in cfg.kinds
  }

  /** What a container was asked to do so far. */
  datatype Use = Init(key: WarmKey, ok: bool) | Run(key: WarmKey)

  datatype Fate = Alive | Gone | Lost

  /** A created container. `pauses` counts the pause goroutines waiting for it. */
  datatype Container = Container(
    ip: string,
    memory: nat,
    boundTo: Option<WarmKey>,
    lastUsed: int,
    firewall: bool,
    pauses: nat,
    uses: seq<Use>,
    fate: Fate
  )

  /** Why a container is being created. */
  datatype Purpose = ForGet(key: WarmKey) | ForPrewarm(pk: PrewarmKey, plan: map<PrewarmKey, nat>)

  /** What a thread does after removing a container. */
  datatype After =
    | FailGet(key: WarmKey)
    | AfterDestroy(memory: nat)
    | NextDelete
    | NextReap(doomed: seq<nat>)
    | FailCreate(purpose: Purpose)

  datatype Pc =
    // Get
    | Entering(key: WarmKey)
    | Acquired(key: WarmKey)
    | Counting(key: WarmKey, snapshot: nat)
    | WarmPopped(key: WarmKey, c: nat)
    | WarmAwake(key: WarmKey, c: nat)
    | MakingSpace(key: WarmKey, doomed: seq<nat>)
    | PrewarmTaken(key: WarmKey, c: nat)
    | PrewarmPoked(key: WarmKey, c: nat)
    | ColdCreated(key: WarmKey, c: nat)
    // CreateContainer
    | NeedIp(purpose: Purpose)
    | HasIp(purpose: Purpose, ip: string)
    | BringingUp(purpose: Purpose, c: nat)
    // Invoke, Put and PutToDestroy
    | Using(key: WarmKey, c: nat, stage: Client.Stage)
    | Stamped(key: WarmKey, c: nat)
    | Settling(memory: nat)
    | Settled(memory: nat)
    | Done
    // removal of one container
    | Unpausing(c: nat, after: After)
    | Removing(c: nat, after: After)
    | Releasing(c: nat, after: After)
    // goroutines of the pool
    | DeleterIdle
    | Reaping(doomed: seq<nat>)
    | PrewarmIdle
    | Planning
    | Creating(plan: map<PrewarmKey, nat>)
    | PrewarmReady(pk: PrewarmKey, c: nat, plan: map<PrewarmKey, nat>)
    | PrewarmFailed

  const PREWARMER: nat := 0
  const DELETER: nat := 1
  const REAPER: nat := 2

  /** Capacity of the channel of containers to delete. */
  const QUEUE_CAPACITY: nat := 16

  datatype State = State(
    held: nat,                               // weight held of the semaphore
    counter: nat,                            // inFlightMemory
    idlesLocked: bool,                       // a critical section of idlesMux was left locked
    idlesMemory: nat,
    idles: Idles,
    prewarmed: map<PrewarmKey, seq<nat>>,
    poke: bool,                              // the buffered poke
    queue: seq<nat>,                         // containersToDeleteForSpace
    freeIps: seq<string>,                    // UsableIPs
    containers: map<nat, Container>,         // every container docker created
    threads: map<nat, Pc>
  )

  function Initial(cfg: Config): State {
    State(0, 0, false, 0, map[], map[], true, [], cfg.ips, map[],
          map[PREWARMER := PrewarmIdle, DELETER := DeleterIdle, REAPER := Reaping([])])
  }

  datatype Step =
    | Arrive(t: nat, key: WarmKey)
    | Acquire(t: nat)
    | CancelAcquire(t: nat)
    | AddCounter(t: nat)
    | LockedGet(t: nat, evicted: seq<Pooled>, rest: Idles)
    | UnpauseWarm(t: nat, ok: bool, stateKnown: bool)
    | WarmFirewall(t: nat, needed: bool, ok: bool)
    | PushDoomed(t: nat)
    | LookPrewarm(t: nat)
    | Poke(t: nat)
    | NewFirewall(t: nat, needed: bool, ok: bool)
    | AcquireIp(t: nat)
    | DockerCreate(t: nat, c: nat, ok: bool)
    | BringUp(t: nat, ok: bool)
    | ClientOp(t: nat, op: Client.Op, now: int)
    | LockedPut(t: nat)
    | SubCounter(t: nat)
    | ReleaseSemaphore(t: nat)
    | TakeQueued(t: nat)
    | LockedReap(t: nat, cutoff: int, order: seq<WarmKey>, removed: seq<Pooled>, rest: Idles)
    | TakeReaped(t: nat)
    | UnpauseDoomed(t: nat)
    | Remove(t: nat, cleanupOk: bool, dockerOk: bool)
    | ReleaseIp(t: nat)
    | ReadPoke(t: nat)
    | Plan(t: nat)
    | NextCreate(t: nat, pk: PrewarmKey)
    | AddPrewarmed(t: nat)
    | FinishPlan(t: nat)
    | RetryPoke(t: nat)

  // ---------------------------------------------------------------- the steps

  function Goto(s: State, t: nat, pc: Pc): State {
    s.(threads := s.threads[t := pc])
  }

  /** Replaces what is known of one container. */
  function Change(s: State, c: nat, x: Container): State {
    s.(containers := s.containers[c := x])
  }

  /** What these two leave alone. */
  lemma GotoFields()
    ensures forall s, t, pc :: Goto(s, t, pc).threads == s.threads[t := pc] && Goto(s, t, pc).containers == s.containers
    ensures forall s, t, pc :: Goto(s, t, pc).held == s.held && Goto(s, t, pc).counter == s.counter
    ensures forall s, t, pc :: Goto(s, t, pc).idles == s.idles && Goto(s, t, pc).idlesMemory == s.idlesMemory
                            && Goto(s, t, pc).idlesLocked == s.idlesLocked
    ensures forall s, t, pc :: Goto(s, t, pc).prewarmed == s.prewarmed && Goto(s, t, pc).poke == s.poke
                            && Goto(s, t, pc).queue == s.queue && Goto(s, t, pc).freeIps == s.freeIps
  {
  }

  lemma ChangeFields()
    ensures forall s, c, x :: Change(s, c, x).threads == s.threads && Change(s, c, x).containers == s.containers[c := x]
    ensures forall s, c, x :: Change(s, c, x).held == s.held && Change(s, c, x).counter == s.counter
    ensures forall s, c, x :: Change(s, c, x).idles == s.idles && Change(s, c, x).idlesMemory == s.idlesMemory
                           && Change(s, c, x).idlesLocked == s.idlesLocked
    ensures forall s, c, x :: Change(s, c, x).prewarmed == s.prewarmed && Change(s, c, x).poke == s.poke
                           && Change(s, c, x).queue == s.queue && Change(s, c, x).freeIps == s.freeIps
  {
  }

  /** Where a thread continues once it is through with a container it removed or gave up. */
  function Resume(cfg: Config, after: After): Pc {
    match after
    case FailGet(key) => Settling(cfg.memoryOf(key))
    case AfterDestroy(memory) => Settling(memory)
    case NextDelete => DeleterIdle
    case NextReap(doomed) => Reaping(doomed)
    case FailCreate(purpose) => CreateFailed(cfg, purpose)
  }

  function CreateFailed(cfg: Config, purpose: Purpose): Pc {
    match purpose
    case ForGet(key) => Settling(cfg.memoryOf(key))
    case ForPrewarm(_, _) => PrewarmFailed
  }

  function Ids(l: seq<Pooled>): (ids: seq<nat>)
    ensures |ids| == |l| && forall i :: 0 <= i < |l| ==> ids[i] == l[i].id
  {
    if l == [] then [] else [l[0].id] + Ids(l[1..])
  }

  /** The test for enough room once `part` is evicted. */
  predicate Fits(cfg: Config, s: State, part: seq<Pooled>, snapshot: nat) {
    AddU64(SubU64(s.idlesMemory, Memory(part)), snapshot) <= cfg.maxMemory
  }

  /** The first critical section of `getContainer`. Taking a warm container wins over making space;
      when space cannot be made the section returns without unlocking. */
  ghost function DoLockedGet(cfg: Config, s: State, t: nat, evicted: seq<Pooled>, rest: Idles): Option<State>
    requires t in s.threads
  {
    if !s.threads[t].Counting? then None else
    var key, snapshot := s.threads[t].key, s.threads[t].snapshot;
    var mine := ListOf(s.idles, key);
    if s.idlesLocked then None
    else if mine != [] then
      var p := mine[|mine| - 1];
      Some(Goto(s.(idles := s.idles[key := mine[..|mine| - 1]],
                   idlesMemory := SubU64(s.idlesMemory, p.memory)),
                t, WarmPopped(key, p.id)))
    else if !Evicts(s.idles, evicted, rest) || exists part :: part < evicted && Fits(cfg, s, part, snapshot) then None
    else
      var after := s.(idles := rest, idlesMemory := SubU64(s.idlesMemory, Memory(evicted)));
      if Fits(cfg, s, evicted, snapshot) then
        Some(Goto(after, t, MakingSpace(key, Ids(evicted))))
      else if forall k :: k in rest ==> rest[k] == [] then
        Some(Goto(after.(idlesLocked := true), t, Settling(cfg.memoryOf(key))))
      else None
  }

  function DoUnpauseWarm(cfg: Config, s: State, t: nat, ok: bool, stateKnown: bool): Option<State>
    requires t in s.threads
  {
    if !s.threads[t].WarmPopped? then None else
    var key, c := s.threads[t].key, s.threads[t].c;
    if c !in s.containers || s.containers[c].pauses == 0 then None
    else
      var x := s.containers[c];
      var x := x.(pauses := x.pauses - 1);
      if ok then Some(Goto(Change(s, c, x), t, WarmAwake(key, c)))
      else if stateKnown then Some(Goto(Change(s, c, x), t, Removing(c, FailGet(key))))
      else Some(Goto(Change(s, c, x.(fate := Lost)), t, Settling(cfg.memoryOf(key))))
  }

  function DoWarmFirewall(s: State, t: nat, needed: bool, ok: bool): Option<State>
    requires t in s.threads
  {
    if !s.threads[t].WarmAwake? then None else
    var key, c := s.threads[t].key, s.threads[t].c;
    if c !in s.containers then None
    else
      var x := s.containers[c];
      if x.firewall == needed then Some(Goto(s, t, Using(key, c, Client.Start(true))))
      else if ok then Some(Goto(Change(s, c, x.(firewall := needed)), t, Using(key, c, Client.Start(true))))
      else Some(Goto(s, t, Removing(c, FailGet(key))))
  }

  function DoLookPrewarm(cfg: Config, s: State, t: nat): Option<State>
    requires t in s.threads
  {
    if !s.threads[t].MakingSpace? then None else
    var key := s.threads[t].key;
    var pk := PrewarmKey(cfg.kindOf(key), cfg.memoryOf(key));
    if s.threads[t].doomed != [] then None
    else if PrewarmList(s.prewarmed, pk) != [] then
      Some(Goto(s.(prewarmed := s.prewarmed[pk := s.prewarmed[pk][1..]]), t, PrewarmTaken(key, s.prewarmed[pk][0])))
    else Some(Goto(s, t, NeedIp(ForGet(key))))
  }

  /** Firewall setup for a container that was never used: it is then bound to the key. */
  function DoNewFirewall(s: State, t: nat, needed: bool, ok: bool): Option<State>
    requires t in s.threads
  {
    if !(s.threads[t].PrewarmPoked? || s.threads[t].ColdCreated?) then None else
    var key, c := s.threads[t].key, s.threads[t].c;
    if c !in s.containers then None
    else if needed && !ok then Some(Goto(s, t, Removing(c, FailGet(key))))
    else
      Some(Goto(Change(s, c, s.containers[c].(firewall := needed, boundTo := Some(key))), t,
                Using(key, c, Client.Start(false))))
  }

  function KindFor(cfg: Config, purpose: Purpose): string {
    match purpose case ForGet(key) => cfg.kindOf(key) case ForPrewarm(pk, _) => pk.kind
  }

  function MemoryFor(cfg: Config, purpose: Purpose): nat {
    match purpose case ForGet(key) => cfg.memoryOf(key) case ForPrewarm(pk, _) => pk.memory
  }

  function DoAcquireIp(cfg: Config, s: State, t: nat): Option<State>
    requires t in s.threads
  {
    if !s.threads[t].NeedIp? then None else
    var purpose := s.threads[t].purpose;
    if KindFor(cfg, purpose) !in cfg.kinds || s.freeIps == [] then Some(Goto(s, t, CreateFailed(cfg, purpose)))
    else Some(Goto(s.(freeIps := s.freeIps[1..]), t, HasIp(purpose, s.freeIps[0])))
  }

  function DoDockerCreate(cfg: Config, s: State, t: nat, c: nat, ok: bool): Option<State>
    requires t in s.threads
  {
    if !s.threads[t].HasIp? then None else
    var purpose, ip := s.threads[t].purpose, s.threads[t].ip;
    if !ok then Some(Goto(s.(freeIps := s.freeIps + [ip]), t, CreateFailed(cfg, purpose)))
    else if c in s.containers then None
    else
      Some(Goto(Change(s, c, Container(ip, MemoryFor(cfg, purpose), None, 0, false, 0, [], Alive)), t,
                BringingUp(purpose, c)))
  }

  function DoBringUp(s: State, t: nat, ok: bool): Option<State>
    requires t in s.threads
  {
    if !s.threads[t].BringingUp? then None else
    var purpose, c := s.threads[t].purpose, s.threads[t].c;
    if !ok then Some(Goto(s, t, Removing(c, FailCreate(purpose))))
    else
      match purpose
      case ForGet(key) => Some(Goto(s, t, ColdCreated(key, c)))
      case ForPrewarm(pk, plan) => Some(Goto(s, t, PrewarmReady(pk, c, plan)))
  }

  /** What an operation of the caller does to its container. `Put` stamps it and schedules its pause. */
  function Used(x: Container, key: WarmKey, op: Client.Op, now: int): Container {
    match op
    case Initialize(ok) => x.(uses := x.uses + [Init(key, ok)])
    case Run(_) => x.(uses := x.uses + [Run(key)])
    case CollectLogs(_) => x
    case Put => x.(lastUsed := now, pauses := x.pauses + 1)
    case PutToDestroy => x
  }

  function AfterOp(key: WarmKey, c: nat, memory: nat, op: Client.Op, next: Client.Stage): Pc {
    match op
    case Put => Stamped(key, c)
    case PutToDestroy => Removing(c, AfterDestroy(memory))
    case _ => Using(key, c, next)
  }

  /** One operation of the caller on its container, in the order the runner keeps. */
  function DoClientOp(s: State, t: nat, op: Client.Op, now: int): Option<State>
    requires t in s.threads
  {
    if !s.threads[t].Using? then None else
    var key, c, stage := s.threads[t].key, s.threads[t].c, s.threads[t].stage;
    var next := Client.Next(stage, op);
    if c !in s.containers || next.None? then None
    else
      var x := s.containers[c];
      Some(Goto(Change(s, c, Used(x, key, op, now)), t, AfterOp(key, c, x.memory, op, next.value)))
  }

  function DoLockedPut(s: State, t: nat): Option<State>
    requires t in s.threads
  {
    if !s.threads[t].Stamped? then None else
    var key, c := s.threads[t].key, s.threads[t].c;
    if s.idlesLocked || c !in s.containers then None
    else
      var x := s.containers[c];
      Some(Goto(s.(idles := s.idles[key := ListOf(s.idles, key) + [Pooled(c, key, x.memory, x.lastUsed)]],
                   idlesMemory := AddU64(s.idlesMemory, x.memory)),
                t, Settling(x.memory)))
  }

  /** The critical section of `reap`. */
  ghost function DoLockedReap(s: State, t: nat, cutoff: int, order: seq<WarmKey>, removed: seq<Pooled>, rest: Idles): Option<State>
    requires t in s.threads
  {
    if s.threads[t] != Reaping([]) || s.idlesLocked || !Enumerates(order, s.idles.Keys)
       || !Reaps(s.idles, cutoff, order, removed, rest) then None
    else
      Some(Goto(s.(idles := rest, idlesMemory := SubU64(s.idlesMemory, Memory(removed))),
                t, Reaping(Ids(removed))))
  }

  /** Unpausing a container that is about to be removed: whatever comes out of it, it is removed. */
  function DoUnpauseDoomed(s: State, t: nat): Option<State>
    requires t in s.threads
  {
    if !s.threads[t].Unpausing? then None else
    var c, after := s.threads[t].c, s.threads[t].after;
    if c !in s.containers || s.containers[c].pauses == 0 then None
    else Some(Goto(Change(s, c, s.containers[c].(pauses := s.containers[c].pauses - 1)), t, Removing(c, after)))
  }

  /** `PooledContainer.Remove` around the docker removal: a failing firewall cleanup aborts it. */
  function DoRemove(cfg: Config, s: State, t: nat, cleanupOk: bool, dockerOk: bool): Option<State>
    requires t in s.threads
  {
    if !s.threads[t].Removing? then None else
    var c, after := s.threads[t].c, s.threads[t].after;
    if c !in s.containers then None
    else if (s.containers[c].firewall && !cleanupOk) || !dockerOk then
      Some(Goto(Change(s, c, s.containers[c].(fate := Lost)), t, Resume(cfg, after)))
    else Some(Goto(s, t, Releasing(c, after)))
  }

  function DoReleaseIp(cfg: Config, s: State, t: nat): Option<State>
    requires t in s.threads
  {
    if !s.threads[t].Releasing? then None else
    var c, after := s.threads[t].c, s.threads[t].after;
    if c !in s.containers then None
    else
      Some(Goto(Change(s.(freeIps := s.freeIps + [s.containers[c].ip]), c, s.containers[c].(fate := Gone)), t,
                Resume(cfg, after)))
  }

  function PrewarmList(prewarmed: map<PrewarmKey, seq<nat>>, pk: PrewarmKey): seq<nat> {
    if pk in prewarmed then prewarmed[pk] else []
  }

  /** The creations a reconciliation finds necessary. */
  function Missing(cfg: Config, s: State): map<PrewarmKey, nat> {
    map pk | pk in cfg.stemcells ::
      var have := |PrewarmList(s.prewarmed, pk)|;
      if cfg.stemcells[pk] > have then cfg.stemcells[pk] - have else 0
  }

  // The short steps.

  function DoArrive(s: State, t: nat, key: WarmKey): Option<State> {
    if t in s.threads then None else Some(Goto(s, t, Entering(key)))
  }

  function DoAcquire(cfg: Config, s: State, t: nat): Option<State>
    requires t in s.threads
  {
    var pc := s.threads[t];
    if pc.Entering? && s.held + cfg.memoryOf(pc.key) <= cfg.maxMemory
    then Some(Goto(s.(held := s.held + cfg.memoryOf(pc.key)), t, Acquired(pc.key))) else None
  }

  function DoCancelAcquire(s: State, t: nat): Option<State>
    requires t in s.threads
  {
    if s.threads[t].Entering? then Some(Goto(s, t, Done)) else None
  }

  function DoAddCounter(cfg: Config, s: State, t: nat): Option<State>
    requires t in s.threads
  {
    var pc := s.threads[t];
    if pc.Acquired? then
      var sum := AddU64(s.counter, cfg.memoryOf(pc.key));
      Some(Goto(s.(counter := sum), t, Counting(pc.key, sum)))
    else None
  }

  function DoPushDoomed(s: State, t: nat): Option<State>
    requires t in s.threads
  {
    var pc := s.threads[t];
    if pc.MakingSpace? && pc.doomed != [] && |s.queue| < QUEUE_CAPACITY
    then Some(Goto(s.(queue := s.queue + [pc.doomed[0]]), t, MakingSpace(pc.key, pc.doomed[1..]))) else None
  }

  function DoPoke(s: State, t: nat): Option<State>
    requires t in s.threads
  {
    var pc := s.threads[t];
    if pc.PrewarmTaken? then Some(Goto(s.(poke := true), t, PrewarmPoked(pc.key, pc.c))) else None
  }

  function DoSubCounter(s: State, t: nat): Option<State>
    requires t in s.threads
  {
    var pc := s.threads[t];
    if pc.Settling?
    then Some(Goto(s.(counter := AddU64(s.counter, NegU64(pc.memory))), t, Settled(pc.memory))) else None
  }

  /** Releasing more than is held would panic. */
  function DoReleaseSemaphore(s: State, t: nat): Option<State>
    requires t in s.threads
  {
    var pc := s.threads[t];
    if pc.Settled? && pc.memory <= s.held then Some(Goto(s.(held := s.held - pc.memory), t, Done)) else None
  }

  function DoTakeQueued(s: State, t: nat): Option<State>
    requires t in s.threads
  {
    if s.threads[t].DeleterIdle? && s.queue != []
    then Some(Goto(s.(queue := s.queue[1..]), t, Unpausing(s.queue[0], NextDelete))) else None
  }

  function DoTakeReaped(s: State, t: nat): Option<State>
    requires t in s.threads
  {
    var pc := s.threads[t];
    if pc.Reaping? && pc.doomed != []
    then Some(Goto(s, t, Unpausing(pc.doomed[0], NextReap(pc.doomed[1..])))) else None
  }

  function DoReadPoke(s: State, t: nat): Option<State>
    requires t in s.threads
  {
    if s.threads[t].PrewarmIdle? && s.poke then Some(Goto(s.(poke := false), t, Planning)) else None
  }

  function DoPlan(cfg: Config, s: State, t: nat): Option<State>
    requires t in s.threads
  {
    if s.threads[t].Planning? then Some(Goto(s, t, Creating(Missing(cfg, s)))) else None
  }

  function DoNextCreate(s: State, t: nat, pk: PrewarmKey): Option<State>
    requires t in s.threads
  {
    var pc := s.threads[t];
    if pc.Creating? && pk in pc.plan && pc.plan[pk] > 0
    then Some(Goto(s, t, NeedIp(ForPrewarm(pk, pc.plan)))) else None
  }

  function DoAddPrewarmed(s: State, t: nat): Option<State>
    requires t in s.threads
  {
    var pc := s.threads[t];
    if pc.PrewarmReady? && pc.pk in pc.plan && pc.plan[pc.pk] > 0 then
      Some(Goto(s.(prewarmed := s.prewarmed[pc.pk := PrewarmList(s.prewarmed, pc.pk) + [pc.c]]), t,
                Creating(pc.plan[pc.pk := pc.plan[pc.pk] - 1])))
    else None
  }

  function DoFinishPlan(s: State, t: nat): Option<State>
    requires t in s.threads
  {
    var pc := s.threads[t];
    if pc.Creating? && forall pk :: pk in pc.plan ==> pc.plan[pk] == 0 then Some(Goto(s, t, PrewarmIdle)) else None
  }

  function DoRetryPoke(s: State, t: nat): Option<State>
    requires t in s.threads
  {
    if s.threads[t].PrewarmFailed? then Some(Goto(s.(poke := true), t, PrewarmIdle)) else None
  }

  predicate OnCounters(step: Step) {
    step.Acquire? || step.CancelAcquire? || step.AddCounter? || step.SubCounter? || step.ReleaseSemaphore?
  }

  predicate OnPrewarming(step: Step) {
    step.ReadPoke? || step.Plan? || step.NextCreate? || step.FinishPlan? || step.RetryPoke? || step.AddPrewarmed? || step.LookPrewarm? || step.Poke?
  }

  predicate OnLists(step: Step) {
    step.LockedGet? || step.PushDoomed? || step.LockedPut? || step.TakeQueued? || step.LockedReap? || step.TakeReaped?
  }

  predicate OnLifetimes(step: Step) {
    step.AcquireIp? || step.DockerCreate? || step.BringUp? || step.UnpauseDoomed? || step.Remove? || step.ReleaseIp?
  }

  /** Steps on the semaphore and the in-flight counter. */
  function ApplyCounters(cfg: Config, s: State, step: Step): Option<State>
    requires step.t in s.threads
  {
    match step
    case Acquire(t) => DoAcquire(cfg, s, t)
    case CancelAcquire(t) => DoCancelAcquire(s, t)
    case AddCounter(t) => DoAddCounter(cfg, s, t)
    case SubCounter(t) => DoSubCounter(s, t)
    case ReleaseSemaphore(t) => DoReleaseSemaphore(s, t)
    case _ => None
  }

  /** Steps on pokes, plans and prewarmed containers. */
  function ApplyPrewarming(cfg: Config, s: State, step: Step): Option<State>
    requires step.t in s.threads
  {
    match step
    case LookPrewarm(t) => DoLookPrewarm(cfg, s, t)
    case Poke(t) => DoPoke(s, t)
    case ReadPoke(t) => DoReadPoke(s, t)
    case Plan(t) => DoPlan(cfg, s, t)
    case NextCreate(t, pk) => DoNextCreate(s, t, pk)
    case AddPrewarmed(t) => DoAddPrewarmed(s, t)
    case FinishPlan(t) => DoFinishPlan(s, t)
    case RetryPoke(t) => DoRetryPoke(s, t)
    case _ => None
  }

  /** Steps that move containers through the idle lists and the deletion queue. */
  ghost function ApplyLists(cfg: Config, s: State, step: Step): Option<State>
    requires step.t in s.threads
  {
    match step
    case LockedGet(t, evicted, rest) => DoLockedGet(cfg, s, t, evicted, rest)
    case PushDoomed(t) => DoPushDoomed(s, t)
    case LockedPut(t) => DoLockedPut(s, t)
    case TakeQueued(t) => DoTakeQueued(s, t)
    case LockedReap(t, cutoff, order, removed, rest) => DoLockedReap(s, t, cutoff, order, removed, rest)
    case TakeReaped(t) => DoTakeReaped(s, t)
    case _ => None
  }

  /** Steps of creating and removing containers. */
  function ApplyLifetimes(cfg: Config, s: State, step: Step): Option<State>
    requires step.t in s.threads
  {
    match step
    case AcquireIp(t) => DoAcquireIp(cfg, s, t)
    case DockerCreate(t, c, ok) => DoDockerCreate(cfg, s, t, c, ok)
    case BringUp(t, ok) => DoBringUp(s, t, ok)
    case UnpauseDoomed(t) => DoUnpauseDoomed(s, t)
    case Remove(t, cleanupOk, dockerOk) => DoRemove(cfg, s, t, cleanupOk, dockerOk)
    case ReleaseIp(t) => DoReleaseIp(cfg, s, t)
    case _ => None
  }

  /** Steps of a caller on the container it obtained. */
  function ApplyCallers(cfg: Config, s: State, step: Step): Option<State>
    requires step.t in s.threads
  {
    match step
    case UnpauseWarm(t, ok, stateKnown) => DoUnpauseWarm(cfg, s, t, ok, stateKnown)
    case WarmFirewall(t, needed, ok) => DoWarmFirewall(s, t, needed, ok)
    case NewFirewall(t, needed, ok) => DoNewFirewall(s, t, needed, ok)
    case ClientOp(t, op, now) => DoClientOp(s, t, op, now)
    case _ => None
  }

  /** The state after a step, or nothing when the step cannot be taken. */
  ghost function Apply(cfg: Config, s: State, step: Step): Option<State> {
    if step.Arrive? then DoArrive(s, step.t, step.key)
    else if step.t !in s.threads then None
    else if OnCounters(step) then ApplyCounters(cfg, s, step)
    else if OnPrewarming(step) then ApplyPrewarming(cfg, s, step)
    else if OnLists(step) then ApplyLists(cfg, s, step)
    else if OnLifetimes(step) then ApplyLifetimes(cfg, s, step)
    else ApplyCallers(cfg, s, step)
  }

  /** The state after a whole run. */
  ghost function RunAll(cfg: Config, s: State, steps: seq<Step>): Option<State>
    decreases |steps|
  {
    if steps == [] then Some(s)
    else
      match Apply(cfg, s, steps[0])
      case None => None
      case Some(next) => RunAll(cfg, next, steps[1..])
  }

  ghost predicate Reachable(cfg: Config, s: State) {
    exists steps :: RunAll(cfg, Initial(cfg), steps) == Some(s)
  }
}
