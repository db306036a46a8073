/** Every step of the container lifecycle keeps the invariant. */
module LifecycleSteps {
  import opened Common
  import opened IdleLists
  import opened Lifecycle
  import opened LifecycleInvariant
  import Client

  // ---------------------------------------------------------------- common shapes of steps

  /** The prewarm promise survives a step that neither takes a prewarmed container nor pokes. */
  lemma PrewarmFrame(cfg: Config, s: State, after: State, t: nat, pc: Pc)
    requires PrewarmInv(cfg, s) && t in s.threads
    requires after.threads == s.threads[t := pc] && after.prewarmed == s.prewarmed && after.poke == s.poke
    requires !s.threads[t].PrewarmTaken? && RoleOf(pc) == RoleOf(s.threads[t])
    requires RoleOf(pc) == Prewarmer ==> Outstanding(pc) == None || Outstanding(pc) == Outstanding(s.threads[t])
    ensures PrewarmInv(cfg, after)
  {
    if NobodyAboutToPoke(after) {
      forall u | u in s.threads ensures !s.threads[u].PrewarmTaken? {
        assert u != t ==> after.threads[u] == s.threads[u];
      }
    }
  }

  /** Thread `t` goes to `pc`; what happens to the shared state is said separately. */
  ghost predicate Went(s: State, after: State, t: nat, pc: Pc) {
    t in s.threads && after.threads == s.threads[t := pc]
  }

  lemma MemoryMovesTo(cfg: Config, s: State, after: State, t: nat, pc: Pc)
    requires MemoryInv(cfg, s) && Went(s, after, t, pc)
    requires after.idlesMemory == Total(Bytes, after.idles) && !after.idlesLocked
    requires after.held == s.held - Share(cfg, Held, s.threads[t]) + Share(cfg, Held, pc) <= cfg.maxMemory
    requires after.counter == s.counter - Share(cfg, InFlight, s.threads[t]) + Share(cfg, InFlight, pc)
    requires after.idlesMemory + OfThreads(cfg, Reserved, after.threads) <= 2 * cfg.maxMemory
    requires pc.Counting? ==> pc.snapshot <= cfg.maxMemory
    ensures MemoryInv(cfg, after)
  {
    ThreadMoves(cfg, s.threads, t, pc);
  }

  lemma MemoryMoves(cfg: Config, s: State, after: State, t: nat, pc: Pc)
    requires MemoryInv(cfg, s) && Went(s, after, t, pc)
    requires after.idlesMemory == Total(Bytes, after.idles) && !after.idlesLocked
    requires after.held == s.held - Share(cfg, Held, s.threads[t]) + Share(cfg, Held, pc) <= cfg.maxMemory
    requires after.counter == s.counter - Share(cfg, InFlight, s.threads[t]) + Share(cfg, InFlight, pc)
    requires after.idlesMemory + Share(cfg, Reserved, pc) <= s.idlesMemory + Share(cfg, Reserved, s.threads[t])
    requires pc.Counting? ==> pc.snapshot <= cfg.maxMemory
    ensures MemoryInv(cfg, after)
  {
    ThreadMoves(cfg, s.threads, t, pc);
  }

  lemma CensusMoves(cfg: Config, s: State, after: State, t: nat, pc: Pc)
    requires CensusInv(cfg, s) && Went(s, after, t, pc) && |after.queue| <= QUEUE_CAPACITY
    requires forall c :: Shelved(after, c) + Share(cfg, Copy(c), pc) + Exists(s, c)
                      == Shelved(s, c) + Share(cfg, Copy(c), s.threads[t]) + Exists(after, c)
    ensures CensusInv(cfg, after)
  {
    ThreadMoves(cfg, s.threads, t, pc);
    forall c ensures Places(cfg, after, c) == Exists(after, c) {
      assert Places(cfg, s, c) == Exists(s, c);
    }
  }

  lemma AddressMoves(cfg: Config, s: State, after: State, t: nat, pc: Pc)
    requires AddressInv(cfg, s) && Went(s, after, t, pc)
    requires forall ip ::
      multiset(after.freeIps)[ip] + Holding(after.containers, ip) + Share(cfg, Address(ip), pc)
      == multiset(s.freeIps)[ip] + Holding(s.containers, ip) + Share(cfg, Address(ip), s.threads[t])
    ensures AddressInv(cfg, after)
  {
    ThreadMoves(cfg, s.threads, t, pc);
    forall ip ensures multiset(after.freeIps)[ip] + OfThreads(cfg, Address(ip), after.threads) + Holding(after.containers, ip)
                   == multiset(cfg.ips)[ip]
    {
      assert multiset(s.freeIps)[ip] + OfThreads(cfg, Address(ip), s.threads) + Holding(s.containers, ip) == multiset(cfg.ips)[ip];
    }
  }

  lemma SameAddresses(cfg: Config, s: State, after: State, t: nat, pc: Pc)
    requires AddressInv(cfg, s) && Went(s, after, t, pc) && !pc.HasIp? && !s.threads[t].HasIp?
    requires after.freeIps == s.freeIps && after.containers == s.containers
    ensures AddressInv(cfg, after)
  {
    AddressMoves(cfg, s, after, t, pc);
  }

  /** What a thread has reserved fits beside the idle memory, without any wrap-around. */
  lemma IdleBound(cfg: Config, s: State, t: nat)
    requires Sensible(cfg) && MemoryInv(cfg, s) && t in s.threads
    ensures s.idlesMemory == Total(Bytes, s.idles)
    ensures s.idlesMemory + Share(cfg, Reserved, s.threads[t]) <= 2 * cfg.maxMemory < U64
  {
    ThreadMoves(cfg, s.threads, t, Done);
  }

  /** The facts after a step that leaves all containers as they are. */
  lemma FactsMove(cfg: Config, s: State, after: State, t: nat, pc: Pc)
    requires FactsInv(cfg, s) && Went(s, after, t, pc) && after.containers == s.containers
    requires ListFacts(cfg, after, s.containers) && PcFacts(cfg, s.containers, pc)
    ensures FactsInv(cfg, after)
  {
    assert forall u :: u in s.threads && u != t ==> after.threads[u] == s.threads[u];
  }

  /** The facts after a step that changes one container. */
  lemma FactsChange(cfg: Config, s: State, after: State, t: nat, c: nat, x: Container, pc: Pc)
    requires Inv(cfg, s) && Went(s, after, t, pc) && after.containers == s.containers[c := x]
    requires c in Holds(s.threads[t]) || c !in s.containers
    requires after.idles == s.idles && after.prewarmed == s.prewarmed && after.queue == s.queue
    requires HistoryOk(x.uses, x.boundTo) && x.pauses <= 1
    requires PcFacts(cfg, after.containers, pc)
    ensures FactsInv(cfg, after)
  {
    hide MemoryInv, CensusInv, AddressInv, PrewarmInv, ListFacts, PcFacts, HistoryOk, Holds;
    OthersKeepFacts(cfg, s, t, c, x);
    SameLists(cfg, s, after, after.containers);
    assert forall u :: u in s.threads && u != t ==> after.threads[u] == s.threads[u];
  }

  lemma SameLists(cfg: Config, s: State, after: State, containers: map<nat, Container>)
    requires ListFacts(cfg, s, containers)
    requires after.idles == s.idles && after.prewarmed == s.prewarmed && after.queue == s.queue
    ensures ListFacts(cfg, after, containers)
  {
    hide IdleFacts, FreshFacts, AllScheduled;
  }

  /** The new position charges what the old one did, up to memory no longer reserved. */
  ghost predicate SameCharge(cfg: Config, was: Pc, pc: Pc) {
    && Share(cfg, Held, pc) == Share(cfg, Held, was)
    && Share(cfg, InFlight, pc) == Share(cfg, InFlight, was)
    && Share(cfg, Reserved, pc) <= Share(cfg, Reserved, was)
    && !pc.HasIp? && !was.HasIp?
    && !pc.Counting? && !was.PrewarmTaken?
    && RoleOf(pc) == RoleOf(was)
    && (RoleOf(pc) == Prewarmer ==> Outstanding(pc) == None || Outstanding(pc) == Outstanding(was))
  }

  /** The thread goes on with the same containers. */
  ghost predicate Continues(cfg: Config, was: Pc, pc: Pc) {
    SameCharge(cfg, was, pc) && Holds(pc) == Holds(was)
  }

  lemma KeepsCensus(cfg: Config, s: State, after: State, t: nat, pc: Pc)
    requires CensusInv(cfg, s) && Went(s, after, t, pc)
    requires after.idles == s.idles && after.prewarmed == s.prewarmed && after.queue == s.queue
    requires after.containers.Keys == s.containers.Keys
    requires forall c :: c in s.containers ==> after.containers[c].fate == s.containers[c].fate
    requires Holds(pc) == Holds(s.threads[t])
    ensures CensusInv(cfg, after)
  {
    forall c ensures Shelved(after, c) == Shelved(s, c) && Exists(after, c) == Exists(s, c) {
      assert c in after.containers.Keys <==> c in s.containers.Keys;
    }
    CensusMoves(cfg, s, after, t, pc);
  }

  lemma KeepsAddresses(cfg: Config, s: State, after: State, t: nat, c: nat, x: Container, pc: Pc)
    requires AddressInv(cfg, s) && Went(s, after, t, pc) && !pc.HasIp? && !s.threads[t].HasIp?
    requires c in s.containers && after.containers == s.containers[c := x] && after.freeIps == s.freeIps
    requires x.ip == s.containers[c].ip && (x.fate == Gone <==> s.containers[c].fate == Gone)
    ensures AddressInv(cfg, after)
  {
    ContainerChanges(s.containers, c, x);
    AddressMoves(cfg, s, after, t, pc);
  }

  /** A step of one thread on its own. */
  lemma Moves(cfg: Config, s: State, t: nat, pc: Pc)
    requires Inv(cfg, s) && t in s.threads
    requires Continues(cfg, s.threads[t], pc)
    requires PcFacts(cfg, s.containers, pc)
    ensures Inv(cfg, Goto(s, t, pc))
  {
    hide MemoryInv, CensusInv, AddressInv, PrewarmInv;
    var after := Goto(s, t, pc);
    KeepsCharges(cfg, s, after, t, pc);
    KeepsCensus(cfg, s, after, t, pc);
    AddressMoves(cfg, s, after, t, pc);
    FactsMove(cfg, s, after, t, pc);
  }

  /** A step in which a thread changes a container it holds. */
  lemma Touches(cfg: Config, s: State, t: nat, c: nat, x: Container, pc: Pc)
    requires Inv(cfg, s) && t in s.threads && c in Holds(s.threads[t]) && c in s.containers
    requires Continues(cfg, s.threads[t], pc)
    requires x.ip == s.containers[c].ip && x.fate == s.containers[c].fate && HistoryOk(x.uses, x.boundTo) && x.pauses <= 1
    requires PcFacts(cfg, s.containers[c := x], pc)
    ensures Inv(cfg, Goto(Change(s, c, x), t, pc))
  {
    hide MemoryInv, CensusInv, AddressInv, FactsInv, PrewarmInv;
    var after := Goto(Change(s, c, x), t, pc);
    KeepsCharges(cfg, s, after, t, pc);
    KeepsCensus(cfg, s, after, t, pc);
    KeepsAddresses(cfg, s, after, t, c, x, pc);
    FactsChange(cfg, s, after, t, c, x, pc);
  }

  /** A step in which a thread gives up a container without removing it. */
  lemma Loses(cfg: Config, s: State, t: nat, c: nat, x: Container, pc: Pc)
    requires Inv(cfg, s) && t in s.threads && c in Holds(s.threads[t]) && c in s.containers
    requires SameCharge(cfg, s.threads[t], pc) && Holds(s.threads[t]) == [c] + Holds(pc)
    requires x.ip == s.containers[c].ip && x.fate == Lost && HistoryOk(x.uses, x.boundTo) && x.pauses <= 1
    requires PcFacts(cfg, s.containers[c := x], pc)
    ensures Inv(cfg, Goto(Change(s, c, x), t, pc))
  {
    hide MemoryInv, CensusInv, AddressInv, FactsInv, PrewarmInv;
    var after := Goto(Change(s, c, x), t, pc);
    Alone(cfg, s, t, c);
    KeepsCharges(cfg, s, after, t, pc);
    LosesCensus(cfg, s, after, t, c, x, pc);
    KeepsAddresses(cfg, s, after, t, c, x, pc);
    FactsChange(cfg, s, after, t, c, x, pc);
  }

  lemma LosesCensus(cfg: Config, s: State, after: State, t: nat, c: nat, x: Container, pc: Pc)
    requires CensusInv(cfg, s) && Went(s, after, t, pc) && after.containers == s.containers[c := x]
    requires after.idles == s.idles && after.prewarmed == s.prewarmed && after.queue == s.queue
    requires c in s.containers && s.containers[c].fate == Alive && x.fate != Alive
    requires Holds(s.threads[t]) == [c] + Holds(pc)
    ensures CensusInv(cfg, after)
  {
    hide Share, Holds;
    forall d ensures Shelved(after, d) + Share(cfg, Copy(d), pc) == Shelved(s, d) + Share(cfg, Copy(d), s.threads[t]) {
      OneLess(cfg, s.threads[t], c, pc, d);
    }
    CensusMoves(cfg, s, after, t, pc);
  }

  lemma OneLess(cfg: Config, was: Pc, c: nat, pc: Pc, d: nat)
    requires Holds(was) == [c] + Holds(pc)
    ensures Share(cfg, Copy(d), was) == Share(cfg, Copy(d), pc) + if c == d then 1 else 0
  {
    hide Holds;
    assert multiset([c] + Holds(pc)) == multiset{c} + multiset(Holds(pc));
  }

  /** Charges that stay the same keep the memory invariant and the prewarm promise. */
  lemma KeepsCharges(cfg: Config, s: State, after: State, t: nat, pc: Pc)
    requires MemoryInv(cfg, s) && PrewarmInv(cfg, s) && Went(s, after, t, pc) && SameCharge(cfg, s.threads[t], pc)
    requires after.held == s.held && after.counter == s.counter && after.idlesLocked == s.idlesLocked
    requires after.idlesMemory == s.idlesMemory && after.idles == s.idles
    requires after.prewarmed == s.prewarmed && after.poke == s.poke
    ensures MemoryInv(cfg, after) && PrewarmInv(cfg, after)
  {
    MemoryMoves(cfg, s, after, t, pc);
    PrewarmFrame(cfg, s, after, t, pc);
  }

  // ---------------------------------------------------------------- steps on containers in hand

  lemma WarmContinues(cfg: Config, containers: map<nat, Container>, key: WarmKey, c: nat, x: Container)
    requires PcFacts(cfg, containers, WarmPopped(key, c)) && x == containers[c].(pauses := 0)
    ensures Continues(cfg, WarmPopped(key, c), WarmAwake(key, c))
    ensures Continues(cfg, WarmPopped(key, c), Removing(c, FailGet(key)))
    ensures SameCharge(cfg, WarmPopped(key, c), Settling(cfg.memoryOf(key)))
    ensures Holds(WarmPopped(key, c)) == [c] == [c] + Holds(Settling(cfg.memoryOf(key)))
    ensures PcFacts(cfg, containers[c := x], WarmAwake(key, c)) && PcFacts(cfg, containers[c := x], Removing(c, FailGet(key)))
  {
  }

  lemma UnpauseWarmKeeps(cfg: Config, s: State, t: nat, ok: bool, stateKnown: bool, after: State)
    requires Inv(cfg, s) && t in s.threads && DoUnpauseWarm(cfg, s, t, ok, stateKnown) == Some(after)
    ensures Inv(cfg, after)
  {
    hide Inv, HistoryOk, Continues, SameCharge, Holds;
    FactsOf(cfg, s, t);
    var key, c := s.threads[t].key, s.threads[t].c;
    var x := s.containers[c].(pauses := 0);
    WarmContinues(cfg, s.containers, key, c, x);
    if ok { Touches(cfg, s, t, c, x, WarmAwake(key, c)); }
    else if stateKnown { Touches(cfg, s, t, c, x, Removing(c, FailGet(key))); }
    else { Loses(cfg, s, t, c, x.(fate := Lost), Settling(cfg.memoryOf(key))); }
  }

  lemma FirewallContinues(cfg: Config, containers: map<nat, Container>, key: WarmKey, c: nat, needed: bool)
    requires PcFacts(cfg, containers, WarmAwake(key, c))
    ensures Continues(cfg, WarmAwake(key, c), Using(key, c, Client.Ready))
    ensures Continues(cfg, WarmAwake(key, c), Removing(c, FailGet(key)))
    ensures Holds(WarmAwake(key, c)) == [c]
    ensures PcFacts(cfg, containers, Using(key, c, Client.Ready)) && PcFacts(cfg, containers, Removing(c, FailGet(key)))
    ensures PcFacts(cfg, containers[c := containers[c].(firewall := needed)], Using(key, c, Client.Ready))
  {
  }

  lemma WarmFirewallKeeps(cfg: Config, s: State, t: nat, needed: bool, ok: bool, after: State)
    requires Inv(cfg, s) && t in s.threads && DoWarmFirewall(s, t, needed, ok) == Some(after)
    ensures Inv(cfg, after)
  {
    hide Inv, HistoryOk, PcFacts, Continues, Holds;
    FactsOf(cfg, s, t);
    var key, c := s.threads[t].key, s.threads[t].c;
    FirewallContinues(cfg, s.containers, key, c, needed);
    assert c in [c];
    var x := s.containers[c];
    if x.firewall == needed { Moves(cfg, s, t, Using(key, c, Client.Ready)); }
    else if ok { Touches(cfg, s, t, c, x.(firewall := needed), Using(key, c, Client.Ready)); }
    else { Moves(cfg, s, t, Removing(c, FailGet(key))); }
  }

  lemma NewContinues(cfg: Config, pc: Pc, key: WarmKey, c: nat)
    requires pc == PrewarmPoked(key, c) || pc == ColdCreated(key, c)
    ensures Continues(cfg, pc, Using(key, c, Client.Fresh)) && Continues(cfg, pc, Removing(c, FailGet(key)))
    ensures Holds(pc) == [c]
  {
  }

  lemma NewKeepsFacts(cfg: Config, containers: map<nat, Container>, pc: Pc, key: WarmKey, c: nat, needed: bool)
    requires pc == PrewarmPoked(key, c) || pc == ColdCreated(key, c)
    requires PcFacts(cfg, containers, pc)
    ensures PcFacts(cfg, containers, Removing(c, FailGet(key)))
    ensures c in containers && containers[c].uses == [] && containers[c].pauses == 0
    ensures PcFacts(cfg, containers[c := containers[c].(firewall := needed, boundTo := Some(key))], Using(key, c, Client.Fresh))
  {
  }

  lemma NewFirewallKeeps(cfg: Config, s: State, t: nat, needed: bool, ok: bool, after: State)
    requires Inv(cfg, s) && t in s.threads && DoNewFirewall(s, t, needed, ok) == Some(after)
    ensures Inv(cfg, after)
  {
    hide Inv, PcFacts, Continues, Holds;
    FactsOf(cfg, s, t);
    var key, c := s.threads[t].key, s.threads[t].c;
    NewContinues(cfg, s.threads[t], key, c);
    NewKeepsFacts(cfg, s.containers, s.threads[t], key, c, needed);
    assert c in [c];
    if needed && !ok { Moves(cfg, s, t, Removing(c, FailGet(key))); }
    else { Touches(cfg, s, t, c, s.containers[c].(firewall := needed, boundTo := Some(key)), Using(key, c, Client.Fresh)); }
  }

  lemma UseContinues(cfg: Config, key: WarmKey, c: nat, op: Client.Op, stage: Client.Stage, next: Client.Stage)
    ensures Continues(cfg, Using(key, c, stage), AfterOp(key, c, cfg.memoryOf(key), op, next))
    ensures Holds(Using(key, c, stage)) == [c]
  {
  }

  /** Using a container the way the runner does keeps its history in order. */
  lemma UseKeepsFacts(cfg: Config, containers: map<nat, Container>, key: WarmKey, c: nat, op: Client.Op, stage: Client.Stage, now: int)
    requires PcFacts(cfg, containers, Using(key, c, stage)) && Client.Next(stage, op).Some?
    requires HistoryOk(containers[c].uses, containers[c].boundTo)
    ensures
      var y := Used(containers[c], key, op, now);
      && HistoryOk(y.uses, y.boundTo) && y.pauses <= 1 && y.ip == containers[c].ip && y.fate == containers[c].fate
      && PcFacts(cfg, containers[c := y], AfterOp(key, c, cfg.memoryOf(key), op, Client.Next(stage, op).value))
  {
  }

  lemma ClientOpKeeps(cfg: Config, s: State, t: nat, op: Client.Op, now: int, after: State)
    requires Inv(cfg, s) && t in s.threads && DoClientOp(s, t, op, now) == Some(after)
    ensures Inv(cfg, after)
  {
    hide Inv, Continues, Holds, HistoryOk, Initialised, AfterOp, Used;
    FactsOf(cfg, s, t);
    var key, c, stage := s.threads[t].key, s.threads[t].c, s.threads[t].stage;
    var next := Client.Next(stage, op).value;
    UseContinues(cfg, key, c, op, stage, next);
    assert c in [c];
    UseKeepsFacts(cfg, s.containers, key, c, op, stage, now);
    Touches(cfg, s, t, c, Used(s.containers[c], key, op, now), AfterOp(key, c, cfg.memoryOf(key), op, next));
  }

  /** What a finished creation is for decides where its thread continues. */
  lemma CreationContinues(cfg: Config, purpose: Purpose, c: nat)
    ensures Continues(cfg, BringingUp(purpose, c), Removing(c, FailCreate(purpose)))
    ensures purpose.ForGet? ==> Continues(cfg, BringingUp(purpose, c), ColdCreated(purpose.key, c))
    ensures purpose.ForPrewarm? ==> Continues(cfg, BringingUp(purpose, c), PrewarmReady(purpose.pk, c, purpose.plan))
  {
  }

  lemma BringUpKeeps(cfg: Config, s: State, t: nat, ok: bool, after: State)
    requires Inv(cfg, s) && t in s.threads && DoBringUp(s, t, ok) == Some(after)
    ensures Inv(cfg, after)
  {
    hide Inv, Continues, Holds;
    FactsOf(cfg, s, t);
    var purpose, c := s.threads[t].purpose, s.threads[t].c;
    CreationContinues(cfg, purpose, c);
    if !ok { Moves(cfg, s, t, Removing(c, FailCreate(purpose))); }
    else if purpose.ForGet? { Moves(cfg, s, t, ColdCreated(purpose.key, c)); }
    else { Moves(cfg, s, t, PrewarmReady(purpose.pk, c, purpose.plan)); }
  }

  lemma RemovalContinues(cfg: Config, c: nat, next: After)
    ensures Continues(cfg, Unpausing(c, next), Removing(c, next))
    ensures Continues(cfg, Removing(c, next), Releasing(c, next))
  {
  }

  lemma RemovalResumes(cfg: Config, c: nat, next: After)
    ensures SameCharge(cfg, Removing(c, next), Resume(cfg, next))
    ensures SameCharge(cfg, Releasing(c, next), Resume(cfg, next))
    ensures Holds(Unpausing(c, next)) == Holds(Removing(c, next)) == Holds(Releasing(c, next)) == [c] + StillDoomed(next)
    ensures Holds(Resume(cfg, next)) == StillDoomed(next)
  {
  }

  lemma ReapingFacts(cfg: Config, containers: map<nat, Container>, doomed: seq<nat>)
    requires doomed != [] && PcFacts(cfg, containers, Reaping(doomed))
    ensures PcFacts(cfg, containers, Unpausing(doomed[0], NextReap(doomed[1..])))
    ensures Continues(cfg, Reaping(doomed), Unpausing(doomed[0], NextReap(doomed[1..])))
  {
    assert doomed == [doomed[0]] + doomed[1..];
  }

  lemma TakeReapedKeeps(cfg: Config, s: State, t: nat, after: State)
    requires Inv(cfg, s) && t in s.threads && DoTakeReaped(s, t) == Some(after)
    ensures Inv(cfg, after)
  {
    hide Inv, PcFacts, Continues;
    FactsOf(cfg, s, t);
    var doomed := s.threads[t].doomed;
    ReapingFacts(cfg, s.containers, doomed);
    Moves(cfg, s, t, Unpausing(doomed[0], NextReap(doomed[1..])));
  }

  lemma OnlyOnce(c: nat, rest: seq<nat>)
    ensures multiset([c] + rest)[c] == 1 ==> c !in rest
  {
    assert multiset([c] + rest) == multiset{c} + multiset(rest);
    assert c in rest ==> c in multiset(rest);
  }

  /** A thread's remaining containers are not the one it is dealing with. */
  lemma RemainderIsOther(cfg: Config, s: State, t: nat, c: nat, rest: After)
    requires Inv(cfg, s) && t in s.threads
    requires Holds(s.threads[t]) == [c] + StillDoomed(rest)
    ensures c !in StillDoomed(rest) && c in Holds(s.threads[t])
  {
    assert c in [c] + StillDoomed(rest);
    Alone(cfg, s, t, c);
    OnlyOnce(c, StillDoomed(rest));
  }

  lemma RemainderKeepsFacts(cfg: Config, containers: map<nat, Container>, c: nat, rest: After, pauses: nat, x: Container)
    requires RemovalFacts(containers, c, rest, pauses) && c !in StillDoomed(rest)
    requires x.pauses == if pauses == 0 && c in containers then containers[c].pauses else 0
    ensures RemovalFacts(containers[c := x], c, rest, 0)
    ensures PcFacts(cfg, containers[c := x], Resume(cfg, rest))
  {
  }

  lemma UnpauseDoomedKeeps(cfg: Config, s: State, t: nat, after: State)
    requires Inv(cfg, s) && t in s.threads && DoUnpauseDoomed(s, t) == Some(after)
    ensures Inv(cfg, after)
  {
    hide Inv, Continues, Holds, RemovalFacts;
    var c, next := s.threads[t].c, s.threads[t].after;
    var x := s.containers[c].(pauses := 0);
    FactsOf(cfg, s, t);
    RemovalContinues(cfg, c, next);
    RemovalResumes(cfg, c, next);
    RemainderIsOther(cfg, s, t, c, next);
    RemainderKeepsFacts(cfg, s.containers, c, next, 1, x);
    Touches(cfg, s, t, c, x, Removing(c, next));
  }

  lemma RemoveKeeps(cfg: Config, s: State, t: nat, cleanupOk: bool, dockerOk: bool, after: State)
    requires Inv(cfg, s) && t in s.threads && DoRemove(cfg, s, t, cleanupOk, dockerOk) == Some(after)
    ensures Inv(cfg, after)
  {
    hide Inv, Continues, Holds, RemovalFacts, SameCharge, Resume;
    var c, next := s.threads[t].c, s.threads[t].after;
    FactsOf(cfg, s, t);
    RemovalContinues(cfg, c, next);
    RemovalResumes(cfg, c, next);
    if (s.containers[c].firewall && !cleanupOk) || !dockerOk {
      var x := s.containers[c].(fate := Lost);
      RemainderIsOther(cfg, s, t, c, next);
      RemainderKeepsFacts(cfg, s.containers, c, next, 0, x);
      Loses(cfg, s, t, c, x, Resume(cfg, next));
    } else {
      Moves(cfg, s, t, Releasing(c, next));
    }
  }

  lemma ReturnsAddress(cfg: Config, s: State, after: State, t: nat, c: nat, x: Container, pc: Pc)
    requires AddressInv(cfg, s) && Went(s, after, t, pc) && !pc.HasIp? && !s.threads[t].HasIp?
    requires c in s.containers && after.containers == s.containers[c := x]
    requires s.containers[c].fate != Gone && x.fate == Gone && after.freeIps == s.freeIps + [s.containers[c].ip]
    ensures AddressInv(cfg, after)
  {
    ContainerChanges(s.containers, c, x);
    assert multiset(after.freeIps) == multiset(s.freeIps) + multiset{s.containers[c].ip};
    AddressMoves(cfg, s, after, t, pc);
  }

  lemma ReleaseIpKeeps(cfg: Config, s: State, t: nat, after: State)
    requires Inv(cfg, s) && t in s.threads && DoReleaseIp(cfg, s, t) == Some(after)
    ensures Inv(cfg, after)
  {
    hide PcFacts, Holds, SameCharge, RemovalFacts, ListFacts;
    var c, next := s.threads[t].c, s.threads[t].after;
    var x := s.containers[c].(fate := Gone);
    var pc := Resume(cfg, next);
    FactsOf(cfg, s, t);
    RemovalResumes(cfg, c, next);
    RemainderIsOther(cfg, s, t, c, next);
    RemainderKeepsFacts(cfg, s.containers, c, next, 0, x);
    FactsChange(cfg, s, after, t, c, x, pc);
    ReturnsAddress(cfg, s, after, t, c, x, pc);
    LosesCensus(cfg, s, after, t, c, x, pc);
    KeepsCharges(cfg, s, after, t, pc);
  }

  // ---------------------------------------------------------------- steps on the memory counters

  /** What a step on the counters alone leaves untouched. */
  lemma CountersOnly(cfg: Config, s: State, after: State, t: nat, pc: Pc)
    requires Inv(cfg, s) && Went(s, after, t, pc)
    requires after == s.(held := after.held, counter := after.counter, threads := after.threads)
    requires Uninvolved(cfg, pc) && Uninvolved(cfg, s.threads[t])
    ensures CensusInv(cfg, after) && AddressInv(cfg, after) && FactsInv(cfg, after) && PrewarmInv(cfg, after)
  {
    hide MemoryInv, CensusInv, AddressInv, PrewarmInv, Holds, RoleOf, PcFacts, Share, HistoryOk;
    UninvolvedFacts(cfg, s.containers, pc);
    UninvolvedFacts(cfg, s.containers, s.threads[t]);
    KeepsCensus(cfg, s, after, t, pc);
    AddressMoves(cfg, s, after, t, pc);
    FactsMove(cfg, s, after, t, pc);
    PrewarmFrame(cfg, s, after, t, pc);
  }

  /** A thread with nothing but memory to account for. */
  predicate Uninvolved(cfg: Config, pc: Pc) {
    pc.Entering? || pc.Acquired? || pc.Counting? || pc.Settling? || pc.Settled? || pc.Done?
  }

  lemma UninvolvedFacts(cfg: Config, containers: map<nat, Container>, pc: Pc)
    requires Uninvolved(cfg, pc)
    ensures Holds(pc) == [] && !pc.HasIp? && !pc.PrewarmTaken? && RoleOf(pc) == Invocation && PcFacts(cfg, containers, pc)
    ensures forall ip: string :: Share(cfg, Address(ip), pc) == 0
  {
  }

  lemma UninvolvedCharges(cfg: Config, pc: Pc)
    requires Uninvolved(cfg, pc)
    ensures Share(cfg, Reserved, pc) == 0
    ensures Share(cfg, Held, pc)
         == if pc.Acquired? || pc.Counting? then cfg.memoryOf(pc.key) else if pc.Settling? || pc.Settled? then pc.memory else 0
    ensures Share(cfg, InFlight, pc) == if pc.Counting? then cfg.memoryOf(pc.key) else if pc.Settling? then pc.memory else 0
  {
  }

  /** A new invocation has no share in anything. */
  lemma ArriveSums(cfg: Config, s: State, t: nat, key: WarmKey)
    requires t !in s.threads
    ensures forall w :: OfThreads(cfg, w, s.threads[t := Entering(key)]) == OfThreads(cfg, w, s.threads)
  {
    ThreadMoves(cfg, s.threads, t, Entering(key));
    assert forall w :: Share(cfg, w, Entering(key)) == 0;
  }

  lemma ArriveKeeps(cfg: Config, s: State, t: nat, key: WarmKey, after: State)
    requires Inv(cfg, s) && DoArrive(s, t, key) == Some(after)
    ensures Inv(cfg, after)
  {
    hide CensusInv, FactsInv, PrewarmInv;
    ArriveSums(cfg, s, t, key);
    ArriveCensus(cfg, s, t, key, after);
    ArriveRest(cfg, s, t, key, after);
  }

  lemma ArriveCensus(cfg: Config, s: State, t: nat, key: WarmKey, after: State)
    requires CensusInv(cfg, s) && DoArrive(s, t, key) == Some(after)
    ensures CensusInv(cfg, after)
  {
    ArriveSums(cfg, s, t, key);
    forall c ensures Places(cfg, after, c) == Exists(after, c) {
      assert Places(cfg, s, c) == Exists(s, c);
      ShelvedFrame(s, after, c);
    }
  }

  lemma ShelvedFrame(s: State, after: State, c: nat)
    requires after == s.(threads := after.threads)
    ensures Shelved(after, c) == Shelved(s, c)
  {
  }

  lemma ArriveRest(cfg: Config, s: State, t: nat, key: WarmKey, after: State)
    requires FactsInv(cfg, s) && PrewarmInv(cfg, s) && DoArrive(s, t, key) == Some(after)
    ensures FactsInv(cfg, after) && PrewarmInv(cfg, after)
  {
    hide FactsInv, PrewarmInv;
    ArriveFacts(cfg, s, t, key, after);
    ArrivePromise(cfg, s, t, key, after);
  }

  lemma ArriveFacts(cfg: Config, s: State, t: nat, key: WarmKey, after: State)
    requires FactsInv(cfg, s) && DoArrive(s, t, key) == Some(after)
    ensures FactsInv(cfg, after)
  {
    hide PcFacts, HistoryOk, ListFacts, Goto;
    GotoFields();
    UninvolvedFacts(cfg, s.containers, Entering(key));
    ListFactsOnly(cfg, s, after, s.containers);
  }

  lemma ListFactsOnly(cfg: Config, s: State, after: State, containers: map<nat, Container>)
    requires ListFacts(cfg, s, containers) && after.idles == s.idles && after.prewarmed == s.prewarmed && after.queue == s.queue
    ensures ListFacts(cfg, after, containers)
  {
    hide IdleFacts, FreshFacts, AllScheduled;
  }

  lemma ArrivePromise(cfg: Config, s: State, t: nat, key: WarmKey, after: State)
    requires PrewarmInv(cfg, s) && DoArrive(s, t, key) == Some(after)
    ensures PrewarmInv(cfg, after)
  {
    hide Outstanding, Goto, RoleOf;
    GotoFields();
    assert RoleOf(Entering(key)) == Invocation by { UninvolvedFacts(cfg, s.containers, Entering(key)); }
    assert forall u :: u in s.threads ==> after.threads[u] == s.threads[u];
    assert NobodyAboutToPoke(after) ==> NobodyAboutToPoke(s);
  }

  lemma AcquireKeeps(cfg: Config, s: State, t: nat, after: State)
    requires Inv(cfg, s) && t in s.threads && DoAcquire(cfg, s, t) == Some(after)
    ensures Inv(cfg, after)
  {
    hide MemoryInv, CensusInv, AddressInv, FactsInv, PrewarmInv, Share, Goto;
    GotoFields();
    var pc := after.threads[t];
    MemoryParts(cfg, s);
    UninvolvedCharges(cfg, s.threads[t]);
    UninvolvedCharges(cfg, pc);
    MemoryMoves(cfg, s, after, t, pc);
    CountersOnly(cfg, s, after, t, pc);
  }

  lemma MemoryParts(cfg: Config, s: State)
    requires MemoryInv(cfg, s)
    ensures s.idlesMemory == Total(Bytes, s.idles) && !s.idlesLocked && s.held <= cfg.maxMemory
  {
  }

  lemma CancelAcquireKeeps(cfg: Config, s: State, t: nat, after: State)
    requires Inv(cfg, s) && t in s.threads && DoCancelAcquire(s, t) == Some(after)
    ensures Inv(cfg, after)
  {
    hide MemoryInv, CensusInv, AddressInv, FactsInv, PrewarmInv, Share, Goto;
    GotoFields();
    MemoryParts(cfg, s);
    UninvolvedCharges(cfg, s.threads[t]);
    UninvolvedCharges(cfg, Done);
    MemoryMoves(cfg, s, after, t, Done);
    CountersOnly(cfg, s, after, t, Done);
  }

  /** The counter never exceeds the weight held, and no thread's share exceeds what is counted. */
  lemma CountersAreBounded(cfg: Config, s: State, t: nat)
    requires MemoryInv(cfg, s) && t in s.threads
    ensures s.counter <= s.held
    ensures Share(cfg, InFlight, s.threads[t]) <= s.counter
    ensures s.counter + Share(cfg, Held, s.threads[t]) <= s.held + Share(cfg, InFlight, s.threads[t])
  {
    ThreadMoves(cfg, s.threads, t, Done);
    SumMonotone(Shares(cfg, InFlight, s.threads), Shares(cfg, Held, s.threads));
    ThreadMoves(cfg, s.threads[t := Done], t, Done);
    SumMonotone(Shares(cfg, InFlight, s.threads[t := Done]), Shares(cfg, Held, s.threads[t := Done]));
  }

  lemma AddCounterKeeps(cfg: Config, s: State, t: nat, after: State)
    requires Sensible(cfg) && Inv(cfg, s) && t in s.threads && DoAddCounter(cfg, s, t) == Some(after)
    ensures Inv(cfg, after)
  {
    hide MemoryInv, CensusInv, AddressInv, FactsInv, PrewarmInv, Share, Goto;
    GotoFields();
    var pc := after.threads[t];
    MemoryParts(cfg, s);
    CountersAreBounded(cfg, s, t);
    UninvolvedCharges(cfg, s.threads[t]);
    UninvolvedCharges(cfg, pc);
    MemoryMoves(cfg, s, after, t, pc);
    CountersOnly(cfg, s, after, t, pc);
  }

  lemma SubCounterKeeps(cfg: Config, s: State, t: nat, after: State)
    requires Sensible(cfg) && Inv(cfg, s) && t in s.threads && DoSubCounter(s, t) == Some(after)
    ensures Inv(cfg, after)
  {
    hide MemoryInv, CensusInv, AddressInv, FactsInv, PrewarmInv, Share, AddU64, NegU64, Goto;
    GotoFields();
    var pc := Settled(s.threads[t].memory);
    MemoryParts(cfg, s);
    CountersAreBounded(cfg, s, t);
    UninvolvedCharges(cfg, s.threads[t]);
    UninvolvedCharges(cfg, pc);
    AddNegU64(s.counter, s.threads[t].memory);
    MemoryMoves(cfg, s, after, t, pc);
    CountersOnly(cfg, s, after, t, pc);
  }

  lemma ReleaseSemaphoreKeeps(cfg: Config, s: State, t: nat, after: State)
    requires Inv(cfg, s) && t in s.threads && DoReleaseSemaphore(s, t) == Some(after)
    ensures Inv(cfg, after)
  {
    hide MemoryInv, CensusInv, AddressInv, FactsInv, PrewarmInv, Share, Goto;
    GotoFields();
    MemoryParts(cfg, s);
    UninvolvedCharges(cfg, s.threads[t]);
    UninvolvedCharges(cfg, Done);
    MemoryMoves(cfg, s, after, t, Done);
    CountersOnly(cfg, s, after, t, Done);
  }
}
