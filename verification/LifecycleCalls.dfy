/** What one caller can do in any configuration, as runs: entering, finding nothing or something warm,
    creating or reusing its container, putting it back and leaving. */
module LifecycleCalls {
  import opened Common
  import opened IdleLists
  import opened Lifecycle
  import opened LifecycleInvariant
  import opened LifecycleTheorems
  import Client

  // ---------------------------------------------------------------- runs step by step

  lemma {:induction false} RunAppend(cfg: Config, s: State, steps: seq<Step>, mid: State, step: Step)
    requires RunAll(cfg, s, steps) == Some(mid)
    ensures RunAll(cfg, s, steps + [step]) == Apply(cfg, mid, step)
    decreases |steps|
  {
    hide Apply;
    if steps == [] {
      assert steps + [step] == [step];
      var next := Apply(cfg, s, step);
      assert next.Some? ==> RunAll(cfg, next.value, [step][1..]) == next;
    } else {
      assert (steps + [step])[1..] == steps[1..] + [step];
      RunAppend(cfg, Apply(cfg, s, steps[0]).value, steps[1..], mid, step);
    }
  }

  lemma ReachStep(cfg: Config, s: State, step: Step, after: State)
    requires Reachable(cfg, s) && Apply(cfg, s, step) == Some(after)
    ensures Reachable(cfg, after)
  {
    hide Apply;
    var steps :| RunAll(cfg, Initial(cfg), steps) == Some(s);
    RunAppend(cfg, Initial(cfg), steps, s, step);
    assert RunAll(cfg, Initial(cfg), steps + [step]) == Some(after);
  }

  lemma ArrivesNow(cfg: Config, s: State, t: nat, key: WarmKey)
    requires t !in s.threads
    ensures Apply(cfg, s, Arrive(t, key)) == Some(Goto(s, t, Entering(key)))
  {
    hide Goto;
  }

  lemma AcquiresNow(cfg: Config, s: State, t: nat, key: WarmKey)
    requires t in s.threads && s.threads[t] == Entering(key) && s.held + cfg.memoryOf(key) <= cfg.maxMemory
    ensures Apply(cfg, s, Acquire(t)) == Some(Goto(s.(held := s.held + cfg.memoryOf(key)), t, Acquired(key)))
  {
    hide Goto;
  }

  lemma CountsNow(cfg: Config, s: State, t: nat, key: WarmKey)
    requires t in s.threads && s.threads[t] == Acquired(key) && s.counter + cfg.memoryOf(key) < U64
    ensures Apply(cfg, s, AddCounter(t)) 
         == Some(Goto(s.(counter := s.counter + cfg.memoryOf(key)), t, Counting(key, s.counter + cfg.memoryOf(key))))
  {
    hide Goto;
  }

  /** A new caller is admitted. */
  lemma IsAdmitted(cfg: Config, s: State, t: nat, key: WarmKey) returns (after: State)
    requires Reachable(cfg, s) && t !in s.threads && s.held + cfg.memoryOf(key) <= cfg.maxMemory
    ensures Reachable(cfg, after)
    ensures after == s.(held := s.held + cfg.memoryOf(key), threads := s.threads[t := Acquired(key)])
  {
    hide Reachable, RunAll, Apply;
    var s1 := Goto(s, t, Entering(key));
    ArrivesNow(cfg, s, t, key);
    ReachStep(cfg, s, Arrive(t, key), s1);
    after := Goto(s1.(held := s.held + cfg.memoryOf(key)), t, Acquired(key));
    AcquiresNow(cfg, s1, t, key);
    ReachStep(cfg, s1, Acquire(t), after);
    assert s.threads[t := Entering(key)][t := Acquired(key)] == s.threads[t := Acquired(key)];
  }

  /** A new caller up to its snapshot. */
  lemma Enters(cfg: Config, s: State, t: nat, key: WarmKey) returns (after: State)
    requires Reachable(cfg, s) && t !in s.threads
    requires s.held + cfg.memoryOf(key) <= cfg.maxMemory && s.counter + cfg.memoryOf(key) < U64
    ensures Reachable(cfg, after)
    ensures after == s.(held := s.held + cfg.memoryOf(key), counter := s.counter + cfg.memoryOf(key),
                        threads := s.threads[t := Counting(key, s.counter + cfg.memoryOf(key))])
  {
    hide Reachable, RunAll, Apply;
    var s1 := IsAdmitted(cfg, s, t, key);
    var pc := Counting(key, s.counter + cfg.memoryOf(key));
    after := Goto(s1.(counter := s.counter + cfg.memoryOf(key)), t, pc);
    CountsNow(cfg, s1, t, key);
    ReachStep(cfg, s1, AddCounter(t), after);
    assert s.threads[t := Acquired(key)][t := pc] == s.threads[t := pc];
  }

  /** A caller that finds nothing warm and room enough starts creating a container. */
  lemma FindsNothing(cfg: Config, s: State, t: nat, key: WarmKey, snapshot: nat) returns (after: State)
    requires Reachable(cfg, s) && t in s.threads && s.threads[t] == Counting(key, snapshot) && !s.idlesLocked
    requires ListOf(s.idles, key) == [] && s.idlesMemory + snapshot <= cfg.maxMemory < U64
    ensures Reachable(cfg, after) && after == Goto(s, t, MakingSpace(key, []))
  {
    hide Reachable, RunAll, Apply;
    after := Goto(s, t, MakingSpace(key, []));
    FindsNothingNow(cfg, s, t, key, snapshot);
    ReachStep(cfg, s, LockedGet(t, [], s.idles), after);
  }

  lemma FindsNothingNow(cfg: Config, s: State, t: nat, key: WarmKey, snapshot: nat)
    requires t in s.threads && s.threads[t] == Counting(key, snapshot) && !s.idlesLocked
    requires ListOf(s.idles, key) == [] && s.idlesMemory + snapshot <= cfg.maxMemory < U64
    ensures Apply(cfg, s, LockedGet(t, [], s.idles)) == Some(Goto(s, t, MakingSpace(key, [])))
  {
    hide Goto, ListOf;
    var none: seq<Pooled> := [];
    assert SubU64(s.idlesMemory, 0) == s.idlesMemory && AddU64(s.idlesMemory, snapshot) == s.idlesMemory + snapshot;
    assert Evicts(s.idles, none, s.idles) && Memory(none) == 0 && Fits(cfg, s, none, snapshot);
    assert s.(idles := s.idles, idlesMemory := s.idlesMemory) == s;
  }

  /** A step of one thread on one container, the idle lists aside. */
  ghost predicate Only(s: State, after: State, t: nat, c: nat) {
    && after.idles == s.idles && after.idlesMemory == s.idlesMemory && after.idlesLocked == s.idlesLocked
    && after.prewarmed == s.prewarmed && after.held == s.held && after.counter == s.counter
    && t in s.threads && t in after.threads
    && (forall u :: u != t ==> (u in after.threads <==> u in s.threads) && (u in s.threads ==> after.threads[u] == s.threads[u]))
    && (forall d :: d != c ==> (d in after.containers <==> d in s.containers) && (d in s.containers ==> after.containers[d] == s.containers[d]))
  }

  lemma GotoIsOnly(s: State, t: nat, c: nat, pc: Pc, x: Container, ips: seq<string>)
    requires t in s.threads
    ensures Only(s, Goto(s, t, pc), t, c)
    ensures Only(s, Goto(Change(s.(freeIps := ips), c, x), t, pc), t, c)
    ensures Only(s, Goto(s.(freeIps := ips), t, pc), t, c)
  {
    hide Only, Goto, Change;
    GotoFields();
    ChangeFields();
    SetsOnly(s, Goto(s, t, pc), t, c, pc, x);
    SetsOnly(s, Goto(Change(s.(freeIps := ips), c, x), t, pc), t, c, pc, x);
    SetsOnly(s, Goto(s.(freeIps := ips), t, pc), t, c, pc, x);
  }

  lemma SetsOnly(s: State, after: State, t: nat, c: nat, pc: Pc, x: Container)
    requires t in s.threads && after.threads == s.threads[t := pc]
    requires after.containers == s.containers || after.containers == s.containers[c := x]
    requires after.idles == s.idles && after.idlesMemory == s.idlesMemory && after.idlesLocked == s.idlesLocked
    requires after.prewarmed == s.prewarmed && after.held == s.held && after.counter == s.counter
    ensures Only(s, after, t, c)
  {
  }

  lemma OnlyTwice(s: State, mid: State, after: State, t: nat, c: nat)
    requires Only(s, mid, t, c) && Only(mid, after, t, c)
    ensures Only(s, after, t, c)
  {
  }

  lemma LooksInVain(cfg: Config, s: State, t: nat, key: WarmKey)
    requires t in s.threads && s.threads[t] == MakingSpace(key, []) && s.prewarmed == map[]
    ensures Apply(cfg, s, LookPrewarm(t)) == Some(Goto(s, t, NeedIp(ForGet(key))))
  {
  }

  lemma AcquiresAddress(cfg: Config, s: State, t: nat, key: WarmKey)
    requires t in s.threads && s.threads[t] == NeedIp(ForGet(key)) && s.freeIps != [] && cfg.kindOf(key) in cfg.kinds
    ensures Apply(cfg, s, AcquireIp(t)) == Some(Goto(s.(freeIps := s.freeIps[1..]), t, HasIp(ForGet(key), s.freeIps[0])))
  {
  }

  /** It finds nothing prewarmed and takes an address. */
  lemma TakesAddress(cfg: Config, s: State, t: nat, key: WarmKey, c: nat) returns (after: State)
    requires Reachable(cfg, s) && t in s.threads && s.threads[t] == MakingSpace(key, [])
    requires s.prewarmed == map[] && s.freeIps != [] && cfg.kindOf(key) in cfg.kinds
    ensures Reachable(cfg, after) && Only(s, after, t, c) && after.freeIps == s.freeIps[1..]
    ensures after.threads[t] == HasIp(ForGet(key), s.freeIps[0]) && after.containers == s.containers
  {
    hide Reachable, RunAll, Only, CreateFailed, Apply;
    var x := Container("", 1, None, 0, false, 0, [], Alive);
    var s1 := Goto(s, t, NeedIp(ForGet(key)));
    LooksInVain(cfg, s, t, key);
    AcquiresAddress(cfg, s1, t, key);
    ReachStep(cfg, s, LookPrewarm(t), s1);
    GotoIsOnly(s, t, c, NeedIp(ForGet(key)), x, s.freeIps);
    after := Goto(s1.(freeIps := s.freeIps[1..]), t, HasIp(ForGet(key), s.freeIps[0]));
    ReachStep(cfg, s1, AcquireIp(t), after);
    GotoIsOnly(s1, t, c, HasIp(ForGet(key), s.freeIps[0]), x, s.freeIps[1..]);
    OnlyTwice(s, s1, after, t, c);
  }

  lemma CreatesNow(cfg: Config, s: State, t: nat, key: WarmKey, c: nat, ip: string)
    requires t in s.threads && s.threads[t] == HasIp(ForGet(key), ip) && c !in s.containers
    ensures Apply(cfg, s, DockerCreate(t, c, true))
         == Some(Goto(Change(s.(freeIps := s.freeIps), c, Container(ip, cfg.memoryOf(key), None, 0, false, 0, [], Alive)), t,
                      BringingUp(ForGet(key), c)))
  {
    hide Goto, Change;
    assert s.(freeIps := s.freeIps) == s;
  }

  lemma BringsUp(cfg: Config, s: State, t: nat, key: WarmKey, c: nat)
    requires t in s.threads && s.threads[t] == BringingUp(ForGet(key), c)
    ensures Apply(cfg, s, BringUp(t, true)) == Some(Goto(s, t, ColdCreated(key, c)))
  {
    hide Goto;
  }

  lemma SetsUp(cfg: Config, s: State, t: nat, key: WarmKey, c: nat)
    requires t in s.threads && s.threads[t] == ColdCreated(key, c) && c in s.containers
    ensures Apply(cfg, s, NewFirewall(t, false, true))
         == Some(Goto(Change(s.(freeIps := s.freeIps), c, s.containers[c].(boundTo := Some(key), firewall := false)), t,
                      Using(key, c, Client.Fresh)))
  {
    hide Goto, Change;
    assert s.(freeIps := s.freeIps) == s;
  }

  lemma OperatesNow(cfg: Config, s: State, t: nat, key: WarmKey, c: nat, stage: Client.Stage, op: Client.Op, now: int)
    requires t in s.threads && s.threads[t] == Using(key, c, stage) && Client.Next(stage, op).Some?
    requires c in s.containers && s.containers[c].memory == cfg.memoryOf(key)
    ensures Apply(cfg, s, ClientOp(t, op, now))
         == Some(Goto(Change(s.(freeIps := s.freeIps), c, Used(s.containers[c], key, op, now)), t,
                      AfterOp(key, c, cfg.memoryOf(key), op, Client.Next(stage, op).value)))
  {
    hide Goto, Change, Used, AfterOp;
    assert s.(freeIps := s.freeIps) == s;
  }

  /** It creates its container. */
  lemma Creates(cfg: Config, s: State, t: nat, key: WarmKey, c: nat, ip: string) returns (after: State)
    requires Reachable(cfg, s) && t in s.threads && s.threads[t] == HasIp(ForGet(key), ip) && c !in s.containers
    ensures Reachable(cfg, after) && Only(s, after, t, c) && after.freeIps == s.freeIps
    ensures after.threads[t] == BringingUp(ForGet(key), c)
    ensures c in after.containers && after.containers[c].memory == cfg.memoryOf(key)
  {
    hide Reachable, RunAll, Only, Apply;
    var x := Container(ip, cfg.memoryOf(key), None, 0, false, 0, [], Alive);
    CreatesNow(cfg, s, t, key, c, ip);
    after := Goto(Change(s.(freeIps := s.freeIps), c, x), t, BringingUp(ForGet(key), c));
    ReachStep(cfg, s, DockerCreate(t, c, true), after);
    GotoIsOnly(s, t, c, BringingUp(ForGet(key), c), x, s.freeIps);
  }

  /** The container comes up and is handed to the caller. */
  lemma Obtains(cfg: Config, s: State, t: nat, key: WarmKey, c: nat) returns (after: State)
    requires Reachable(cfg, s) && t in s.threads && s.threads[t] == BringingUp(ForGet(key), c)
    requires c in s.containers && s.containers[c].memory == cfg.memoryOf(key)
    ensures Reachable(cfg, after) && Only(s, after, t, c) && after.freeIps == s.freeIps
    ensures after.threads[t] == Using(key, c, Client.Fresh)
    ensures c in after.containers && after.containers[c].memory == cfg.memoryOf(key)
  {
    hide Reachable, RunAll, Only, Apply;
    var s1 := Goto(s, t, ColdCreated(key, c));
    BringsUp(cfg, s, t, key, c);
    SetsUp(cfg, s1, t, key, c);
    ReachStep(cfg, s, BringUp(t, true), s1);
    var y := s.containers[c].(boundTo := Some(key), firewall := false);
    GotoIsOnly(s, t, c, ColdCreated(key, c), y, s.freeIps);
    after := Goto(Change(s1.(freeIps := s1.freeIps), c, y), t, Using(key, c, Client.Fresh));
    ReachStep(cfg, s1, NewFirewall(t, false, true), after);
    GotoIsOnly(s1, t, c, Using(key, c, Client.Fresh), y, s1.freeIps);
    OnlyTwice(s, s1, after, t, c);
  }

  /** One operation on the container. */
  lemma Operates(cfg: Config, s: State, t: nat, key: WarmKey, c: nat, stage: Client.Stage, op: Client.Op, now: int) returns (after: State)
    requires Reachable(cfg, s) && t in s.threads && s.threads[t] == Using(key, c, stage)
    requires c in s.containers && s.containers[c].memory == cfg.memoryOf(key)
    requires Client.Next(stage, op).Some?
    ensures Reachable(cfg, after) && Only(s, after, t, c) && after.freeIps == s.freeIps
    ensures after.threads[t] == AfterOp(key, c, cfg.memoryOf(key), op, Client.Next(stage, op).value)
    ensures c in after.containers && after.containers[c].memory == cfg.memoryOf(key) && (op.Put? ==> after.containers[c].lastUsed == now)
  {
    hide Reachable, RunAll, Only, Apply;
    OperatesNow(cfg, s, t, key, c, stage, op, now);
    var x := Used(s.containers[c], key, op, now);
    var pc := AfterOp(key, c, cfg.memoryOf(key), op, Client.Next(stage, op).value);
    after := Goto(Change(s.(freeIps := s.freeIps), c, x), t, pc);
    ReachStep(cfg, s, ClientOp(t, op, now), after);
    GotoIsOnly(s, t, c, pc, x, s.freeIps);
  }

  /** The three operations after initialisation. */
  lemma Reuses(cfg: Config, s: State, t: nat, key: WarmKey, c: nat, now: int) returns (after: State)
    requires Reachable(cfg, s) && t in s.threads && s.threads[t] == Using(key, c, Client.Ready)
    requires c in s.containers && s.containers[c].memory == cfg.memoryOf(key)
    ensures Reachable(cfg, after) && Only(s, after, t, c) && after.freeIps == s.freeIps
    ensures after.threads[t] == Stamped(key, c)
    ensures c in after.containers && after.containers[c].memory == cfg.memoryOf(key) && after.containers[c].lastUsed == now
  {
    hide Reachable, RunAll, Only, Apply, AfterOp, Client.Next;
    OperationsInOrder(cfg, key, c);
    var s1 := Operates(cfg, s, t, key, c, Client.Ready, Client.Run(Client.RanFine), now);
    ThreadStays(s, s1, t, c);
    var s2 := Operates(cfg, s1, t, key, c, Client.Served, Client.CollectLogs(false), now);
    OnlyTwice(s, s1, s2, t, c);
    ThreadStays(s, s2, t, c);
    after := Operates(cfg, s2, t, key, c, Client.Returning, Client.Put, now);
    OnlyTwice(s, s2, after, t, c);
  }

  /** The four operations of an invocation without incidents. */
  lemma Uses(cfg: Config, s: State, t: nat, key: WarmKey, c: nat, now: int) returns (after: State)
    requires Reachable(cfg, s) && t in s.threads && s.threads[t] == Using(key, c, Client.Fresh)
    requires c in s.containers && s.containers[c].memory == cfg.memoryOf(key)
    ensures Reachable(cfg, after) && Only(s, after, t, c) && after.freeIps == s.freeIps
    ensures after.threads[t] == Stamped(key, c)
    ensures c in after.containers && after.containers[c].memory == cfg.memoryOf(key) && after.containers[c].lastUsed == now
  {
    hide Reachable, RunAll, Only, Apply, AfterOp, Client.Next;
    OperationsInOrder(cfg, key, c);
    var s1 := Operates(cfg, s, t, key, c, Client.Fresh, Client.Initialize(true), now);
    ThreadStays(s, s1, t, c);
    after := Reuses(cfg, s1, t, key, c, now);
    OnlyTwice(s, s1, after, t, c);
  }

  lemma OperationsInOrder(cfg: Config, key: WarmKey, c: nat)
    ensures Client.Next(Client.Fresh, Client.Initialize(true)) == Some(Client.Ready)
    ensures Client.Next(Client.Ready, Client.Run(Client.RanFine)) == Some(Client.Served)
    ensures Client.Next(Client.Served, Client.CollectLogs(false)) == Some(Client.Returning)
    ensures Client.Next(Client.Returning, Client.Put) == Some(Client.Finished)
    ensures AfterOp(key, c, cfg.memoryOf(key), Client.Initialize(true), Client.Ready) == Using(key, c, Client.Ready)
    ensures AfterOp(key, c, cfg.memoryOf(key), Client.Run(Client.RanFine), Client.Served) == Using(key, c, Client.Served)
    ensures AfterOp(key, c, cfg.memoryOf(key), Client.CollectLogs(false), Client.Returning) == Using(key, c, Client.Returning)
    ensures AfterOp(key, c, cfg.memoryOf(key), Client.Put, Client.Finished) == Stamped(key, c)
  {
  }

  /** From making space to the point where the container is about to be put back. */
  lemma Serves(cfg: Config, s: State, t: nat, key: WarmKey, c: nat, now: int) returns (after: State)
    requires Reachable(cfg, s) && t in s.threads && s.threads[t] == MakingSpace(key, [])
    requires s.prewarmed == map[] && s.freeIps != [] && cfg.kindOf(key) in cfg.kinds && c !in s.containers
    ensures Reachable(cfg, after) && Only(s, after, t, c) && after.freeIps == s.freeIps[1..]
    ensures after.threads[t] == Stamped(key, c)
    ensures c in after.containers && after.containers[c].memory == cfg.memoryOf(key) && after.containers[c].lastUsed == now
  {
    hide Reachable, RunAll, Only, Apply;
    var s1 := TakesAddress(cfg, s, t, key, c);
    ThreadStays(s, s1, t, c);
    var s2 := Creates(cfg, s1, t, key, c, s.freeIps[0]);
    OnlyTwice(s, s1, s2, t, c);
    ThreadStays(s, s2, t, c);
    var s3 := Obtains(cfg, s2, t, key, c);
    OnlyTwice(s, s2, s3, t, c);
    ThreadStays(s, s3, t, c);
    after := Uses(cfg, s3, t, key, c, now);
    OnlyTwice(s, s3, after, t, c);
  }

  lemma ThreadStays(s: State, after: State, t: nat, c: nat)
    requires Only(s, after, t, c)
    ensures t in after.threads
  {
  }

  lemma PutsBackNow(cfg: Config, s: State, t: nat, key: WarmKey, c: nat)
    requires t in s.threads && s.threads[t] == Stamped(key, c) && !s.idlesLocked
    requires c in s.containers && s.containers[c].memory == cfg.memoryOf(key) && s.idlesMemory + cfg.memoryOf(key) < U64
    ensures Apply(cfg, s, LockedPut(t))
         == Some(Goto(s.(idles := s.idles[key := ListOf(s.idles, key) + [Pooled(c, key, cfg.memoryOf(key), s.containers[c].lastUsed)]],
                         idlesMemory := s.idlesMemory + cfg.memoryOf(key)), t,
                     Settling(cfg.memoryOf(key))))
  {
    hide Goto, ListOf;
  }

  /** It puts the container back. */
  lemma PutsBack(cfg: Config, s: State, t: nat, key: WarmKey, c: nat) returns (after: State, p: Pooled)
    requires Reachable(cfg, s) && t in s.threads && s.threads[t] == Stamped(key, c) && !s.idlesLocked
    requires c in s.containers && s.containers[c].memory == cfg.memoryOf(key) && s.idlesMemory + cfg.memoryOf(key) < U64
    ensures Reachable(cfg, after) && p == Pooled(c, key, cfg.memoryOf(key), s.containers[c].lastUsed)
    ensures after == Goto(s.(idles := s.idles[key := ListOf(s.idles, key) + [p]], idlesMemory := s.idlesMemory + cfg.memoryOf(key)), t,
                     Settling(cfg.memoryOf(key)))
  {
    hide Reachable, RunAll, Apply;
    PutsBackNow(cfg, s, t, key, c);
    p := Pooled(c, key, cfg.memoryOf(key), s.containers[c].lastUsed);
    after := Goto(s.(idles := s.idles[key := ListOf(s.idles, key) + [p]], idlesMemory := s.idlesMemory + cfg.memoryOf(key)), t,
                     Settling(cfg.memoryOf(key)));
    ReachStep(cfg, s, LockedPut(t), after);
  }

  lemma LeavesNow(cfg: Config, s: State, t: nat, memory: nat)
    requires t in s.threads && s.threads[t] == Settling(memory) && memory <= s.counter < U64
    ensures Apply(cfg, s, SubCounter(t)) == Some(Goto(s.(counter := s.counter - memory), t, Settled(memory)))
  {
    hide Goto, AddU64, NegU64;
    AddNegU64(s.counter, memory);
  }

  lemma ReleasesNow(cfg: Config, s: State, t: nat, memory: nat)
    requires t in s.threads && s.threads[t] == Settled(memory) && memory <= s.held
    ensures Apply(cfg, s, ReleaseSemaphore(t)) == Some(Goto(s.(held := s.held - memory), t, Done))
  {
    hide Goto;
  }

  /** It gives back its share of the counters and leaves. */
  lemma Leaves(cfg: Config, s: State, t: nat, memory: nat) returns (after: State)
    requires Reachable(cfg, s) && t in s.threads && s.threads[t] == Settling(memory)
    requires memory <= s.counter < U64 && memory <= s.held
    ensures Reachable(cfg, after)
    ensures after == s.(counter := s.counter - memory, held := s.held - memory, threads := s.threads[t := Done])
  {
    hide Reachable, RunAll, Apply;
    var s1 := Goto(s.(counter := s.counter - memory), t, Settled(memory));
    LeavesNow(cfg, s, t, memory);
    ReachStep(cfg, s, SubCounter(t), s1);
    after := Goto(s1.(held := s.held - memory), t, Done);
    ReleasesNow(cfg, s1, t, memory);
    ReachStep(cfg, s1, ReleaseSemaphore(t), after);
    assert s.threads[t := Settled(memory)][t := Done] == s.threads[t := Done];
  }

  /** A caller on its way puts its container back and leaves. */
  lemma Returns(cfg: Config, s: State, t: nat, key: WarmKey, c: nat) returns (after: State, p: Pooled)
    requires Reachable(cfg, s) && t in s.threads && s.threads[t] == Stamped(key, c) && !s.idlesLocked
    requires c in s.containers && s.containers[c].memory == cfg.memoryOf(key) && s.idlesMemory + cfg.memoryOf(key) < U64
    requires cfg.memoryOf(key) <= s.counter < U64 && cfg.memoryOf(key) <= s.held
    ensures Reachable(cfg, after) && p == Pooled(c, key, cfg.memoryOf(key), s.containers[c].lastUsed)
    ensures after == s.(idles := s.idles[key := ListOf(s.idles, key) + [p]], idlesMemory := s.idlesMemory + cfg.memoryOf(key),
                        counter := s.counter - cfg.memoryOf(key), held := s.held - cfg.memoryOf(key),
                        threads := s.threads[t := Done])
  {
    hide Reachable, RunAll, Apply, ListOf;
    var b;
    b, p := PutsBack(cfg, s, t, key, c);
    after := Leaves(cfg, b, t, cfg.memoryOf(key));
    assert s.threads[t := Settling(cfg.memoryOf(key))][t := Done] == s.threads[t := Done];
  }

  // ---------------------------------------------------------------- warm containers

  lemma WarmMemory(cfg: Config, s: State, key: WarmKey, i: nat)
    requires Sensible(cfg) && Reachable(cfg, s) && i < |ListOf(s.idles, key)|
    ensures ListOf(s.idles, key)[i].memory == cfg.memoryOf(key) <= s.idlesMemory < U64
  {
    hide HistoryOk, WarmFacts, FreshFacts, PcFacts, CensusInv, AddressInv, PrewarmInv, OfThreads, Total;
    ReachableHolds(cfg, s);
    assert IdleFacts(cfg, s.containers, key, s.idles[key][i]);
    Counted(Bytes, s.idles, key, i);
  }

  lemma PopsNow(cfg: Config, s: State, t: nat, key: WarmKey, snapshot: nat, l: seq<Pooled>)
    requires t in s.threads && s.threads[t] == Counting(key, snapshot) && !s.idlesLocked
    requires l == ListOf(s.idles, key) && l != [] && l[|l| - 1].memory == cfg.memoryOf(key) <= s.idlesMemory < U64
    ensures Apply(cfg, s, LockedGet(t, [], s.idles))
         == Some(Goto(s.(idles := s.idles[key := l[..|l| - 1]], idlesMemory := s.idlesMemory - cfg.memoryOf(key)), t,
                      WarmPopped(key, l[|l| - 1].id)))
  {
    hide Goto, Evicts, Fits, ListOf, SubU64;
    SubExact(s.idlesMemory, cfg.memoryOf(key));
  }

  /** Taking a warm container. */
  lemma Pops(cfg: Config, s: State, t: nat, key: WarmKey, snapshot: nat) returns (after: State)
    requires Sensible(cfg) && Reachable(cfg, s) && t in s.threads && s.threads[t] == Counting(key, snapshot) && !s.idlesLocked
    requires ListOf(s.idles, key) != []
    ensures Reachable(cfg, after) && cfg.memoryOf(key) <= s.idlesMemory
    ensures var l := ListOf(s.idles, key);
      after == s.(idles := s.idles[key := l[..|l| - 1]], idlesMemory := s.idlesMemory - cfg.memoryOf(key),
                  threads := s.threads[t := WarmPopped(key, l[|l| - 1].id)])
  {
    hide Reachable, RunAll, Apply, ListOf, Sensible;
    var l := ListOf(s.idles, key);
    WarmMemory(cfg, s, key, |l| - 1);
    PopsNow(cfg, s, t, key, snapshot, l);
    after := Goto(s.(idles := s.idles[key := l[..|l| - 1]], idlesMemory := s.idlesMemory - cfg.memoryOf(key)), t,
                  WarmPopped(key, l[|l| - 1].id));
    ReachStep(cfg, s, LockedGet(t, [], s.idles), after);
  }

  lemma AwakesNow(cfg: Config, s: State, t: nat, key: WarmKey, c: nat)
    requires t in s.threads && s.threads[t] == WarmPopped(key, c) && c in s.containers && s.containers[c].pauses == 1
    ensures Apply(cfg, s, UnpauseWarm(t, true, true))
         == Some(Goto(Change(s.(freeIps := s.freeIps), c, s.containers[c].(pauses := 0)), t, WarmAwake(key, c)))
  {
    hide Goto, Change;
    assert s.(freeIps := s.freeIps) == s;
  }

  lemma KeepsFirewallNow(cfg: Config, s: State, t: nat, key: WarmKey, c: nat)
    requires t in s.threads && s.threads[t] == WarmAwake(key, c) && c in s.containers
    ensures Apply(cfg, s, WarmFirewall(t, s.containers[c].firewall, true)) == Some(Goto(s, t, Using(key, c, Client.Ready)))
  {
    hide Goto;
  }

  lemma PoppedFacts(cfg: Config, s: State, t: nat, key: WarmKey, c: nat)
    requires Sensible(cfg) && Reachable(cfg, s) && t in s.threads && s.threads[t] == WarmPopped(key, c)
    ensures c in s.containers && s.containers[c].memory == cfg.memoryOf(key) && s.containers[c].pauses == 1
  {
    hide Inv, RunAll, HistoryOk;
    ReachableHolds(cfg, s);
    FactsOf(cfg, s, t);
  }

  /** From taking a warm container to the point where it is about to be put back. */
  lemma ServesWarm(cfg: Config, s: State, t: nat, key: WarmKey, c: nat, now: int) returns (after: State)
    requires Sensible(cfg) && Reachable(cfg, s) && t in s.threads && s.threads[t] == WarmPopped(key, c)
    ensures Reachable(cfg, after) && Only(s, after, t, c) && after.freeIps == s.freeIps
    ensures after.threads[t] == Stamped(key, c)
    ensures c in after.containers && after.containers[c].memory == cfg.memoryOf(key)
  {
    hide Reachable, RunAll, Only, Apply, Sensible;
    PoppedFacts(cfg, s, t, key, c);
    var x := s.containers[c].(pauses := 0);
    var s1 := Goto(Change(s.(freeIps := s.freeIps), c, x), t, WarmAwake(key, c));
    AwakesNow(cfg, s, t, key, c);
    ReachStep(cfg, s, UnpauseWarm(t, true, true), s1);
    GotoIsOnly(s, t, c, WarmAwake(key, c), x, s.freeIps);
    var s2 := Goto(s1, t, Using(key, c, Client.Ready));
    KeepsFirewallNow(cfg, s1, t, key, c);
    ReachStep(cfg, s1, WarmFirewall(t, s1.containers[c].firewall, true), s2);
    GotoIsOnly(s1, t, c, Using(key, c, Client.Ready), x, s1.freeIps);
    OnlyTwice(s, s1, s2, t, c);
    after := Reuses(cfg, s2, t, key, c, now);
    OnlyTwice(s, s2, after, t, c);
  }

  // ---------------------------------------------------------------- the beginning

  lemma InitialIsReachable(cfg: Config)
    ensures Reachable(cfg, Initial(cfg))
    ensures var s := Initial(cfg);
      && s.held == s.counter == 0 && !s.idlesLocked && s.idlesMemory == 0 && s.idles == map[] && s.prewarmed == map[]
      && s.threads.Keys == {PREWARMER, DELETER, REAPER} && s.containers == map[] && s.freeIps == cfg.ips
  {
    var none: seq<Step> := [];
    assert RunAll(cfg, Initial(cfg), none) == Some(Initial(cfg));
  }

  lemma OnlyMeans(s: State, after: State, t: nat, c: nat)
    requires Only(s, after, t, c) && c in after.containers
    ensures after.idles == s.idles && after.idlesMemory == s.idlesMemory && after.idlesLocked == s.idlesLocked
    ensures after.prewarmed == s.prewarmed && after.held == s.held && after.counter == s.counter
    ensures after.threads.Keys == s.threads.Keys && forall u :: u in s.threads && u != t ==> after.threads[u] == s.threads[u]
    ensures after.containers.Keys == s.containers.Keys + {c}
    ensures forall d :: d in s.containers && d != c ==> after.containers[d] == s.containers[d]
  {
  }
}
