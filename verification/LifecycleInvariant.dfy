/** The invariant of the container lifecycle, in five parts, and the tools its proof needs. */
module LifecycleInvariant {
  import opened Common
  import opened IdleLists
  import opened Lifecycle
  import Client

  // ---------------------------------------------------------------- what a thread accounts for

  /** What is added up over threads. */
  datatype Ledger =
    | Held           // weight of the semaphore
    | InFlight       // share of the in-flight counter
    | Reserved       // memory of containers handed out, or being obtained past the idle lock
    | Address(ip: string)
    | Copy(c: nat)

  function ChargeAfter(cfg: Config, after: After): nat {
    match after
    case FailGet(key) => cfg.memoryOf(key)
    case AfterDestroy(memory) => memory
    case FailCreate(ForGet(key)) => cfg.memoryOf(key)
    case _ => 0
  }

  function ChargePurpose(cfg: Config, purpose: Purpose): nat {
    match purpose case ForGet(key) => cfg.memoryOf(key) case ForPrewarm(_, _) => 0
  }

  /** The memory a thread holds of the semaphore. */
  function Charge(cfg: Config, pc: Pc): nat {
    match pc
    case Acquired(key) => cfg.memoryOf(key)
    case Counting(key, _) => cfg.memoryOf(key)
    case WarmPopped(key, _) => cfg.memoryOf(key)
    case WarmAwake(key, _) => cfg.memoryOf(key)
    case MakingSpace(key, _) => cfg.memoryOf(key)
    case PrewarmTaken(key, _) => cfg.memoryOf(key)
    case PrewarmPoked(key, _) => cfg.memoryOf(key)
    case ColdCreated(key, _) => cfg.memoryOf(key)
    case NeedIp(purpose) => ChargePurpose(cfg, purpose)
    case HasIp(purpose, _) => ChargePurpose(cfg, purpose)
    case BringingUp(purpose, _) => ChargePurpose(cfg, purpose)
    case Using(key, _, _) => cfg.memoryOf(key)
    case Stamped(key, _) => cfg.memoryOf(key)
    case Settling(memory) => memory
    case Settled(memory) => memory
    case Unpausing(_, after) => ChargeAfter(cfg, after)
    case Removing(_, after) => ChargeAfter(cfg, after)
    case Releasing(_, after) => ChargeAfter(cfg, after)
    case _ => 0
  }

  /** The containers a thread has in its hands. */
  function Holds(pc: Pc): seq<nat> {
    match pc
    case WarmPopped(_, c) => [c]
    case WarmAwake(_, c) => [c]
    case MakingSpace(_, doomed) => doomed
    case PrewarmTaken(_, c) => [c]
    case PrewarmPoked(_, c) => [c]
    case ColdCreated(_, c) => [c]
    case BringingUp(_, c) => [c]
    case Using(_, c, _) => [c]
    case Stamped(_, c) => [c]
    case Unpausing(c, after) => [c] + StillDoomed(after)
    case Removing(c, after) => [c] + StillDoomed(after)
    case Releasing(c, after) => [c] + StillDoomed(after)
    case Reaping(doomed) => doomed
    case PrewarmReady(_, c, _) => [c]
    case _ => []
  }

  function StillDoomed(after: After): seq<nat> {
    if after.NextReap? then after.doomed else []
  }

  function Share(cfg: Config, w: Ledger, pc: Pc): nat {
    match w
    case Held => Charge(cfg, pc)
    case InFlight => if pc.Acquired? || pc.Settled? then 0 else Charge(cfg, pc)
    case Reserved => if pc.Acquired? || pc.Counting? || pc.Settling? || pc.Settled? then 0 else Charge(cfg, pc)
    case Address(ip) => if pc.HasIp? && pc.ip == ip then 1 else 0
    case Copy(c) => multiset(Holds(pc))[c]
  }

  ghost function Shares(cfg: Config, w: Ledger, threads: map<nat, Pc>): map<nat, nat> {
    map t | t in threads :: Share(cfg, w, threads[t])
  }

  ghost function OfThreads(cfg: Config, w: Ledger, threads: map<nat, Pc>): nat {
    Sum(Shares(cfg, w, threads))
  }

  lemma ThreadMoves(cfg: Config, threads: map<nat, Pc>, t: nat, pc: Pc)
    ensures forall w :: OfThreads(cfg, w, threads[t := pc])
                     == OfThreads(cfg, w, threads) - (if t in threads then Share(cfg, w, threads[t]) else 0) + Share(cfg, w, pc)
    ensures t in threads ==> forall w :: Share(cfg, w, threads[t]) <= OfThreads(cfg, w, threads)
  {
    forall w
      ensures OfThreads(cfg, w, threads[t := pc])
           == OfThreads(cfg, w, threads) - (if t in threads then Share(cfg, w, threads[t]) else 0) + Share(cfg, w, pc)
      ensures t in threads ==> Share(cfg, w, threads[t]) <= OfThreads(cfg, w, threads)
    {
      SumUpdate(Shares(cfg, w, threads), t, Share(cfg, w, pc));
      assert Shares(cfg, w, threads[t := pc]) == Shares(cfg, w, threads)[t := Share(cfg, w, pc)];
    }
  }

  /** Two threads that both hold something account for it twice. */
  lemma TwoThreads(cfg: Config, w: Ledger, threads: map<nat, Pc>, t: nat, u: nat)
    requires t in threads && u in threads && t != u
    ensures Share(cfg, w, threads[t]) + Share(cfg, w, threads[u]) <= OfThreads(cfg, w, threads)
  {
    SumRemove(Shares(cfg, w, threads), t);
    SumRemove(Shares(cfg, w, threads) - {t}, u);
  }

  // ---------------------------------------------------------------- containers and prewarm lists

  /** Whether a container holds an address: it does until it is successfully removed. */
  function Live(x: Container, ip: string): nat {
    if x.fate != Gone && x.ip == ip then 1 else 0
  }

  ghost function LiveAddresses(containers: map<nat, Container>, ip: string): map<nat, nat> {
    map c | c in containers :: Live(containers[c], ip)
  }

  /** How many containers hold an address. */
  ghost function Holding(containers: map<nat, Container>, ip: string): nat {
    Sum(LiveAddresses(containers, ip))
  }

  lemma ContainerChanges(containers: map<nat, Container>, c: nat, x: Container)
    ensures forall ip :: Holding(containers[c := x], ip)
                      == Holding(containers, ip) - (if c in containers then Live(containers[c], ip) else 0) + Live(x, ip)
  {
    forall ip
      ensures Holding(containers[c := x], ip)
           == Holding(containers, ip) - (if c in containers then Live(containers[c], ip) else 0) + Live(x, ip)
    {
      SumUpdate(LiveAddresses(containers, ip), c, Live(x, ip));
      assert LiveAddresses(containers[c := x], ip) == LiveAddresses(containers, ip)[c := Live(x, ip)];
    }
  }

  ghost function PrewarmCopies(prewarmed: map<PrewarmKey, seq<nat>>, c: nat): map<PrewarmKey, nat> {
    map pk | pk in prewarmed :: multiset(prewarmed[pk])[c]
  }

  ghost function Prewarms(prewarmed: map<PrewarmKey, seq<nat>>, c: nat): nat {
    Sum(PrewarmCopies(prewarmed, c))
  }

  lemma PrewarmMoves(prewarmed: map<PrewarmKey, seq<nat>>, pk: PrewarmKey, l: seq<nat>)
    ensures forall c :: Prewarms(prewarmed[pk := l], c)
                     == Prewarms(prewarmed, c) - multiset(PrewarmList(prewarmed, pk))[c] + multiset(l)[c]
    ensures forall c :: multiset(PrewarmList(prewarmed, pk))[c] <= Prewarms(prewarmed, c)
  {
    forall c
      ensures Prewarms(prewarmed[pk := l], c)
           == Prewarms(prewarmed, c) - multiset(PrewarmList(prewarmed, pk))[c] + multiset(l)[c]
      ensures multiset(PrewarmList(prewarmed, pk))[c] <= Prewarms(prewarmed, c)
    {
      SumUpdate(PrewarmCopies(prewarmed, c), pk, multiset(l)[c]);
      assert PrewarmCopies(prewarmed[pk := l], c) == PrewarmCopies(prewarmed, c)[pk := multiset(l)[c]];
    }
  }

  lemma {:induction false} CopiesAreIds(l: seq<Pooled>, c: nat)
    ensures Amount(Copies(c), l) == multiset(Ids(l))[c]
  {
    if l != [] {
      CopiesAreIds(l[1..], c);
    }
  }

  // ---------------------------------------------------------------- the invariant

  ghost predicate MemoryInv(cfg: Config, s: State) {
    && s.held == OfThreads(cfg, Held, s.threads) <= cfg.maxMemory
    && s.counter == OfThreads(cfg, InFlight, s.threads)
    && s.idlesMemory == Total(Bytes, s.idles)
    && s.idlesMemory + OfThreads(cfg, Reserved, s.threads) <= 2 * cfg.maxMemory
    && !s.idlesLocked
    && forall t :: t in s.threads && s.threads[t].Counting? ==> s.threads[t].snapshot <= cfg.maxMemory
  }

  /** In how many places outside the threads' hands a container is. */
  ghost function Shelved(s: State, c: nat): nat {
    Total(Copies(c), s.idles) + Prewarms(s.prewarmed, c) + multiset(s.queue)[c]
      + if c in s.containers && s.containers[c].fate != Alive then 1 else 0
  }

  /** In how many places a container is. */
  ghost function Places(cfg: Config, s: State, c: nat): nat {
    Shelved(s, c) + OfThreads(cfg, Copy(c), s.threads)
  }

  function Exists(s: State, c: nat): nat { if c in s.containers then 1 else 0 }

  ghost predicate CensusInv(cfg: Config, s: State) {
    && |s.queue| <= QUEUE_CAPACITY
    && forall c :: Places(cfg, s, c) == Exists(s, c)
  }

  ghost predicate AddressInv(cfg: Config, s: State) {
    forall ip :: multiset(s.freeIps)[ip] + OfThreads(cfg, Address(ip), s.threads) + Holding(s.containers, ip)
              == multiset(cfg.ips)[ip]
  }

  /** Initialised at most once, before anything runs, and always for the key it is bound to. */
  predicate HistoryOk(uses: seq<Use>, boundTo: Option<WarmKey>) {
    uses != [] ==>
      && boundTo.Some?
      && uses[0].Init?
      && (forall i :: 0 <= i < |uses| ==> uses[i].key == boundTo.value)
      && (forall i :: 1 <= i < |uses| ==> uses[i].Run? && uses[0].ok)
  }

  predicate Initialised(x: Container, key: WarmKey) {
    && x.boundTo == Some(key)
    && x.uses != [] && x.uses[0] == Init(key, true)
  }

  /** Never used, never bound to a key. */
  predicate Pristine(x: Container, memory: nat) {
    x.boundTo == None && x.uses == [] && x.pauses == 0 && !x.firewall && x.memory == memory
  }

  predicate Scheduled(containers: map<nat, Container>, c: nat) {
    c in containers && containers[c].pauses == 1
  }

  predicate AllScheduled(containers: map<nat, Container>, l: seq<nat>) {
    forall i :: 0 <= i < |l| ==> Scheduled(containers, l[i])
  }

  predicate WarmFacts(cfg: Config, containers: map<nat, Container>, key: WarmKey, c: nat, pauses: nat) {
    c in containers && Initialised(containers[c], key) && containers[c].memory == cfg.memoryOf(key) && containers[c].pauses == pauses
  }

  predicate FreshFacts(containers: map<nat, Container>, c: nat, memory: nat) {
    c in containers && Pristine(containers[c], memory)
  }

  predicate UsingFacts(cfg: Config, containers: map<nat, Container>, key: WarmKey, c: nat, stage: Client.Stage) {
    && c in containers
    && var x := containers[c];
    && x.boundTo == Some(key) && x.memory == cfg.memoryOf(key) && x.pauses == 0
    && stage != Client.Finished
    && (stage == Client.Fresh ==> x.uses == [])
    && (stage in {Client.Ready, Client.Served, Client.Returning} ==> Initialised(x, key))
  }

  predicate PurposeOk(purpose: Purpose) {
    purpose.ForPrewarm? ==> purpose.pk in purpose.plan && purpose.plan[purpose.pk] > 0
  }

  predicate RemovalFacts(containers: map<nat, Container>, c: nat, after: After, pauses: nat) {
    && c in containers && containers[c].pauses == pauses
    && AllScheduled(containers, StillDoomed(after))
    && (after.FailCreate? ==> PurposeOk(after.purpose))
    && (pauses == 1 ==> after.NextDelete? || after.NextReap?)
  }

  /** What is true of the containers a thread holds, by where the thread is. */
  predicate PcFacts(cfg: Config, containers: map<nat, Container>, pc: Pc) {
    match pc
    case WarmPopped(key, c) => WarmFacts(cfg, containers, key, c, 1)
    case WarmAwake(key, c) => WarmFacts(cfg, containers, key, c, 0)
    case MakingSpace(_, doomed) => AllScheduled(containers, doomed)
    case PrewarmTaken(key, c) => FreshFacts(containers, c, cfg.memoryOf(key))
    case PrewarmPoked(key, c) => FreshFacts(containers, c, cfg.memoryOf(key))
    case ColdCreated(key, c) => FreshFacts(containers, c, cfg.memoryOf(key))
    case NeedIp(purpose) => PurposeOk(purpose)
    case HasIp(purpose, _) => PurposeOk(purpose)
    case BringingUp(purpose, c) => PurposeOk(purpose) && FreshFacts(containers, c, MemoryFor(cfg, purpose))
    case Using(key, c, stage) => UsingFacts(cfg, containers, key, c, stage)
    case Stamped(key, c) => WarmFacts(cfg, containers, key, c, 1)
    case Unpausing(c, after) => RemovalFacts(containers, c, after, 1)
    case Removing(c, after) => RemovalFacts(containers, c, after, 0)
    case Releasing(c, after) => RemovalFacts(containers, c, after, 0)
    case Reaping(doomed) => AllScheduled(containers, doomed)
    case PrewarmReady(pk, c, plan) => pk in plan && plan[pk] > 0 && FreshFacts(containers, c, pk.memory)
    case _ => true
  }

  predicate IdleFacts(cfg: Config, containers: map<nat, Container>, key: WarmKey, p: Pooled) {
    p.key == key && p.memory == cfg.memoryOf(key) && WarmFacts(cfg, containers, key, p.id, 1)
  }

  ghost predicate ListFacts(cfg: Config, s: State, containers: map<nat, Container>) {
    && (forall k, i :: k in s.idles && 0 <= i < |s.idles[k]| ==> IdleFacts(cfg, containers, k, s.idles[k][i]))
    && (forall pk, i :: pk in s.prewarmed && 0 <= i < |s.prewarmed[pk]| ==> FreshFacts(containers, s.prewarmed[pk][i], pk.memory))
    && AllScheduled(containers, s.queue)
  }

  ghost predicate FactsInv(cfg: Config, s: State) {
    && (forall c :: c in s.containers ==> HistoryOk(s.containers[c].uses, s.containers[c].boundTo) && s.containers[c].pauses <= 1)
    && ListFacts(cfg, s, s.containers)
    && (forall t :: t in s.threads ==> PcFacts(cfg, s.containers, s.threads[t]))
  }

  // ---------------------------------------------------------------- goroutines and prewarming

  datatype Role = Prewarmer | Deleter | Reaper | Invocation

  function RoleOfPurpose(purpose: Purpose): Role { if purpose.ForPrewarm? then Prewarmer else Invocation }

  function RoleOfAfter(after: After): Role {
    match after
    case NextDelete => Deleter
    case NextReap(_) => Reaper
    case FailCreate(purpose) => RoleOfPurpose(purpose)
    case _ => Invocation
  }

  function RoleOf(pc: Pc): Role {
    match pc
    case NeedIp(purpose) => RoleOfPurpose(purpose)
    case HasIp(purpose, _) => RoleOfPurpose(purpose)
    case BringingUp(purpose, _) => RoleOfPurpose(purpose)
    case Unpausing(_, after) => RoleOfAfter(after)
    case Removing(_, after) => RoleOfAfter(after)
    case Releasing(_, after) => RoleOfAfter(after)
    case DeleterIdle => Deleter
    case Reaping(_) => Reaper
    case PrewarmIdle => Prewarmer
    case Planning => Prewarmer
    case Creating(_) => Prewarmer
    case PrewarmReady(_, _, _) => Prewarmer
    case PrewarmFailed => Prewarmer
    case _ => Invocation
  }

  function RoleOfThread(t: nat): Role {
    if t == PREWARMER then Prewarmer else if t == DELETER then Deleter else if t == REAPER then Reaper else Invocation
  }

  /** The creations a reconciliation still has to do; nothing while it will start over anyway. */
  function Outstanding(pc: Pc): Option<map<PrewarmKey, nat>> {
    match pc
    case Creating(plan) => Some(plan)
    case NeedIp(ForPrewarm(_, plan)) => Some(plan)
    case HasIp(ForPrewarm(_, plan), _) => Some(plan)
    case BringingUp(ForPrewarm(_, plan), _) => Some(plan)
    case PrewarmReady(_, _, plan) => Some(plan)
    case PrewarmIdle => Some(map[])
    case _ => None
  }

  /** Every configured count is reached once the outstanding creations are done. */
  ghost predicate Covered(cfg: Config, s: State, plan: map<PrewarmKey, nat>) {
    forall pk :: pk in cfg.stemcells ==>
      cfg.stemcells[pk] <= |PrewarmList(s.prewarmed, pk)| + if pk in plan then plan[pk] else 0
  }

  ghost predicate NobodyAboutToPoke(s: State) {
    forall t :: t in s.threads ==> !s.threads[t].PrewarmTaken?
  }

  ghost predicate RolesInv(s: State) {
    && PREWARMER in s.threads && DELETER in s.threads && REAPER in s.threads
    && forall t :: t in s.threads ==> RoleOf(s.threads[t]) == RoleOfThread(t)
  }

  ghost predicate PrewarmInv(cfg: Config, s: State) {
    && RolesInv(s)
    && (!s.poke && NobodyAboutToPoke(s) && Outstanding(s.threads[PREWARMER]).Some? ==>
          Covered(cfg, s, Outstanding(s.threads[PREWARMER]).value))
  }

  ghost predicate Inv(cfg: Config, s: State) {
    && MemoryInv(cfg, s)
    && CensusInv(cfg, s)
    && AddressInv(cfg, s)
    && FactsInv(cfg, s)
    && PrewarmInv(cfg, s)
  }

  // ---------------------------------------------------------------- ownership in use

  ghost predicate NotListed(s: State, c: nat) {
    && (forall k, i :: k in s.idles && 0 <= i < |s.idles[k]| ==> s.idles[k][i].id != c)
    && (forall pk, i :: pk in s.prewarmed && 0 <= i < |s.prewarmed[pk]| ==> s.prewarmed[pk][i] != c)
    && c !in s.queue
  }

  /** A container that is in no place but possibly one thread's hands is in no list. */
  lemma ListedIsCounted(cfg: Config, s: State, c: nat)
    requires Total(Copies(c), s.idles) == 0 && Prewarms(s.prewarmed, c) == 0 && multiset(s.queue)[c] == 0
    ensures NotListed(s, c)
  {
    forall k, i | k in s.idles && 0 <= i < |s.idles[k]| ensures s.idles[k][i].id != c {
      IdleLists.Counted(Copies(c), s.idles, k, i);
    }
    forall pk, i | pk in s.prewarmed && 0 <= i < |s.prewarmed[pk]| ensures s.prewarmed[pk][i] != c {
      PrewarmMoves(s.prewarmed, pk, []);
      assert s.prewarmed[pk][i] in multiset(s.prewarmed[pk]);
    }
    assert c in s.queue ==> c in multiset(s.queue);
  }

  lemma HeldIsCounted(cfg: Config, pc: Pc, c: nat)
    ensures c in Holds(pc) <==> Share(cfg, Copy(c), pc) >= 1
  {
  }

  /** A container in a thread's hands is nowhere else. */
  lemma Alone(cfg: Config, s: State, t: nat, c: nat)
    requires CensusInv(cfg, s) && t in s.threads && c in Holds(s.threads[t])
    ensures c in s.containers && s.containers[c].fate == Alive
    ensures NotListed(s, c)
    ensures forall u :: u in s.threads && u != t ==> c !in Holds(s.threads[u])
    ensures multiset(Holds(s.threads[t]))[c] == 1
  {
    ThreadMoves(cfg, s.threads, t, Done);
    HeldIsCounted(cfg, s.threads[t], c);
    assert Places(cfg, s, c) == Exists(s, c);
    ListedIsCounted(cfg, s, c);
    forall u | u in s.threads && u != t ensures c !in Holds(s.threads[u]) {
      TwoThreads(cfg, Copy(c), s.threads, t, u);
      HeldIsCounted(cfg, s.threads[u], c);
    }
  }

  /** A container that does not exist yet is nowhere. */
  lemma Nowhere(cfg: Config, s: State, c: nat)
    requires CensusInv(cfg, s) && c !in s.containers
    ensures NotListed(s, c)
    ensures forall u :: u in s.threads ==> c !in Holds(s.threads[u])
  {
    assert Places(cfg, s, c) == 0;
    ListedIsCounted(cfg, s, c);
    forall u | u in s.threads ensures c !in Holds(s.threads[u]) {
      ThreadMoves(cfg, s.threads, u, Done);
      HeldIsCounted(cfg, s.threads[u], c);
    }
  }

  /** What is known of a thread's containers does not depend on the others. */
  lemma PcFactsFrame(cfg: Config, containers: map<nat, Container>, c: nat, x: Container, pc: Pc)
    requires PcFacts(cfg, containers, pc) && c !in Holds(pc)
    ensures PcFacts(cfg, containers[c := x], pc)
  {
  }

  lemma ListFactsFrame(cfg: Config, s: State, c: nat, x: Container)
    requires ListFacts(cfg, s, s.containers) && NotListed(s, c)
    ensures ListFacts(cfg, s, s.containers[c := x])
  {
  }

  /** Changing a container that thread `t` alone holds leaves everybody else's facts alone. */
  lemma OthersKeepFacts(cfg: Config, s: State, t: nat, c: nat, x: Container)
    requires Inv(cfg, s) && t in s.threads
    requires c in Holds(s.threads[t]) || c !in s.containers
    ensures ListFacts(cfg, s, s.containers[c := x])
    ensures forall u :: u in s.threads && u != t ==> PcFacts(cfg, s.containers[c := x], s.threads[u])
  {
    if c in s.containers { Alone(cfg, s, t, c); } else { Nowhere(cfg, s, c); }
    ListFactsFrame(cfg, s, c, x);
    forall u | u in s.threads && u != t ensures PcFacts(cfg, s.containers[c := x], s.threads[u]) {
      PcFactsFrame(cfg, s.containers, c, x, s.threads[u]);
    }
  }

  /** What the invariant says about the containers in one thread's hands. */
  lemma FactsOf(cfg: Config, s: State, t: nat)
    requires Inv(cfg, s) && t in s.threads
    ensures PcFacts(cfg, s.containers, s.threads[t])
    ensures forall c :: c in Holds(s.threads[t]) ==>
      && c in s.containers && s.containers[c].fate == Alive
      && HistoryOk(s.containers[c].uses, s.containers[c].boundTo) && s.containers[c].pauses <= 1
      && multiset(Holds(s.threads[t]))[c] == 1
  {
    forall c | c in Holds(s.threads[t])
      ensures c in s.containers && s.containers[c].fate == Alive && multiset(Holds(s.threads[t]))[c] == 1
    {
      Alone(cfg, s, t, c);
    }
  }
}
