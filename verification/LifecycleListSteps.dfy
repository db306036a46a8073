/** The steps that move containers between threads and lists keep the invariant: the critical
    sections over idle lists, the deletion queue, the prewarm lists, creation and addresses. */
module LifecycleListSteps {
  import opened Common
  import opened IdleLists
  import opened Lifecycle
  import opened LifecycleInvariant
  import opened LifecycleSteps

  // ---------------------------------------------------------------- taking a warm container

  /** Cutting the last container off a list takes exactly that container out of every sum. */
  lemma TakeLast(w: Measure, idles: Idles, key: WarmKey)
    requires key in idles && idles[key] != []
    ensures var l := idles[key]; var p := l[|l| - 1];
      Total(w, idles) == Total(w, idles[key := l[..|l| - 1]]) + Weigh(w, p)
  {
    var l := idles[key];
    AmountAt(w, l, |l| - 1);
    assert l[|l| - 1 + 1..] == [];
    TotalUpdate(w, idles, key, l[..|l| - 1]);
  }

  /** Taking containers out of the idle lists, their memory charged to the thread at most. */
  lemma ShrinkMemory(cfg: Config, s: State, after: State, t: nat, pc: Pc, amount: nat)
    requires Sensible(cfg) && MemoryInv(cfg, s) && Went(s, after, t, pc) && !pc.Counting?
    requires Total(Bytes, s.idles) == Total(Bytes, after.idles) + amount
    requires after.idlesMemory == SubU64(s.idlesMemory, amount)
    requires after.held == s.held && after.counter == s.counter && after.idlesLocked == s.idlesLocked
    requires Share(cfg, Held, pc) == Share(cfg, Held, s.threads[t])
    requires Share(cfg, InFlight, pc) == Share(cfg, InFlight, s.threads[t])
    requires Share(cfg, Reserved, pc) <= Share(cfg, Reserved, s.threads[t]) + amount
    ensures MemoryInv(cfg, after)
  {
    hide SubU64, Sensible, Share;
    IdleBound(cfg, s, t);
    SubExact(s.idlesMemory, amount);
    MemoryMoves(cfg, s, after, t, pc);
  }

  lemma TakeWarmKeeps(cfg: Config, s: State, t: nat, after: State)
    requires Sensible(cfg) && Inv(cfg, s) && t in s.threads && s.threads[t].Counting?
    requires ListOf(s.idles, s.threads[t].key) != []
    requires DoLockedGet(cfg, s, t, [], s.idles) == Some(after)
    ensures Inv(cfg, after)
  {
    hide MemoryInv, CensusInv, AddressInv, FactsInv, PrewarmInv, Inv;
    var key := s.threads[t].key;
    var l := s.idles[key];
    var p := l[|l| - 1];
    var pc := WarmPopped(key, p.id);
    InvParts(cfg, s);
    TakeLast(Bytes, s.idles, key);
    WarmFactsOfList(cfg, s, key, |l| - 1);
    ShrinkMemory(cfg, s, after, t, pc, p.memory);
    TakeWarmCensus(cfg, s, after, t, key, p.id);
    SameAddresses(cfg, s, after, t, pc);
    TakeWarmFacts(cfg, s, t, after, pc);
    PrewarmFrame(cfg, s, after, t, pc);
    InvWhole(cfg, after);
  }

  lemma InvParts(cfg: Config, s: State)
    requires Inv(cfg, s)
    ensures MemoryInv(cfg, s) && CensusInv(cfg, s) && AddressInv(cfg, s) && FactsInv(cfg, s) && PrewarmInv(cfg, s)
  {
  }

  lemma InvWhole(cfg: Config, s: State)
    requires MemoryInv(cfg, s) && CensusInv(cfg, s) && AddressInv(cfg, s) && FactsInv(cfg, s) && PrewarmInv(cfg, s)
    ensures Inv(cfg, s)
  {
  }

  lemma WarmFactsOfList(cfg: Config, s: State, key: WarmKey, i: nat)
    requires FactsInv(cfg, s) && key in s.idles && i < |s.idles[key]|
    ensures IdleFacts(cfg, s.containers, key, s.idles[key][i])
  {
  }

  lemma WarmPoppedHolds(key: WarmKey, c: nat)
    ensures Holds(WarmPopped(key, c)) == [c]
  {
  }

  lemma TakeWarmCensus(cfg: Config, s: State, after: State, t: nat, key: WarmKey, c: nat)
    requires CensusInv(cfg, s) && Went(s, after, t, WarmPopped(key, c)) && Holds(s.threads[t]) == []
    requires key in s.idles && s.idles[key] != [] && c == s.idles[key][|s.idles[key]| - 1].id
    requires after == s.(idles := s.idles[key := s.idles[key][..|s.idles[key]| - 1]], idlesMemory := after.idlesMemory,
                         threads := after.threads)
    ensures CensusInv(cfg, after)
  {
    hide Share, Holds;
    assert Holds(WarmPopped(key, c)) == [c] by { WarmPoppedHolds(key, c); }
    forall d ensures Shelved(after, d) + Share(cfg, Copy(d), WarmPopped(key, c)) == Shelved(s, d) + Share(cfg, Copy(d), s.threads[t]) {
      TakeLast(Copies(d), s.idles, key);
      SingleShare(cfg, WarmPopped(key, c), c, d);
      EmptyShare(cfg, s.threads[t], d);
    }
    CensusMoves(cfg, s, after, t, WarmPopped(key, c));
  }

  lemma TakeWarmFacts(cfg: Config, s: State, t: nat, after: State, pc: Pc)
    requires FactsInv(cfg, s) && t in s.threads && s.threads[t].Counting?
    requires ListOf(s.idles, s.threads[t].key) != []
    requires DoLockedGet(cfg, s, t, [], s.idles) == Some(after) && pc == after.threads[t]
    ensures FactsInv(cfg, after)
  {
    hide HistoryOk, WarmFacts, FreshFacts;
    var key := s.threads[t].key;
    WarmFactsOfList(cfg, s, key, |s.idles[key]| - 1);
    FactsMove(cfg, s, after, t, pc);
  }

  // ---------------------------------------------------------------- making space

  lemma {:induction false} EvictedFacts(cfg: Config, containers: map<nat, Container>, idles: Idles, out: seq<Pooled>, rest: Idles)
    requires Evicts(idles, out, rest)
    requires forall k, i :: k in idles && 0 <= i < |idles[k]| ==> IdleFacts(cfg, containers, k, idles[k][i])
    ensures forall k, i :: k in rest && 0 <= i < |rest[k]| ==> IdleFacts(cfg, containers, k, rest[k][i])
    ensures AllScheduled(containers, Ids(out))
    decreases |out|
  {
    hide IdleFacts;
    if out != [] {
      var mid := DropHead(idles, out[0].key);
      EvictedFacts(cfg, containers, mid, out[1..], rest);
      var k := out[0].key;
      ScheduledFromIdle(cfg, containers, k, idles[k][0]);
      assert Ids(out) == [out[0].id] + Ids(out[1..]);
    }
  }

  lemma ScheduledFromIdle(cfg: Config, containers: map<nat, Container>, key: WarmKey, p: Pooled)
    requires IdleFacts(cfg, containers, key, p)
    ensures Scheduled(containers, p.id)
  {
  }

  lemma EvictCensus(cfg: Config, s: State, t: nat, out: seq<Pooled>, rest: Idles, after: State, pc: Pc)
    requires CensusInv(cfg, s) && Went(s, after, t, pc)
    requires after == s.(idles := rest, idlesMemory := after.idlesMemory, threads := after.threads)
    requires Holds(s.threads[t]) == [] && Holds(pc) == Ids(out)
    requires forall w :: Total(w, s.idles) == Amount(w, out) + Total(w, rest)
    ensures CensusInv(cfg, after)
  {
    hide Holds, Ids;
    forall c ensures Shelved(after, c) + Share(cfg, Copy(c), pc) == Shelved(s, c) + Share(cfg, Copy(c), s.threads[t]) {
      CopiesAreIds(out, c);
      assert Total(Copies(c), s.idles) == Amount(Copies(c), out) + Total(Copies(c), rest);
    }
    CensusMoves(cfg, s, after, t, pc);
  }

  lemma SpaceFacts(cfg: Config, s: State, t: nat, out: seq<Pooled>, rest: Idles, after: State, pc: Pc)
    requires FactsInv(cfg, s) && Went(s, after, t, pc) && pc.MakingSpace? && pc.doomed == Ids(out)
    requires Evicts(s.idles, out, rest)
    requires after == s.(idles := rest, idlesMemory := after.idlesMemory, threads := after.threads)
    ensures FactsInv(cfg, after)
  {
    hide IdleFacts, FreshFacts, HistoryOk, Scheduled;
    EvictedFacts(cfg, s.containers, s.idles, out, rest);
    FactsMove(cfg, s, after, t, pc);
  }

  /** The test for room does not wrap around. */
  lemma FitsIsExact(cfg: Config, s: State, out: seq<Pooled>, snapshot: nat)
    requires Sensible(cfg) && s.idlesMemory <= 2 * cfg.maxMemory && snapshot <= cfg.maxMemory
    requires Memory(out) <= s.idlesMemory
    ensures SubU64(s.idlesMemory, Memory(out)) == s.idlesMemory - Memory(out)
    ensures Fits(cfg, s, out, snapshot) <==> s.idlesMemory - Memory(out) + snapshot <= cfg.maxMemory
  {
    hide AddU64, SubU64, Amount;
    SubExact(s.idlesMemory, Memory(out));
    AddExact(s.idlesMemory - Memory(out), snapshot);
  }

  /** With the in-flight memory within bounds, running out of containers to evict while still
      lacking room is impossible. */
  lemma RoomIsFound(cfg: Config, s: State, out: seq<Pooled>, rest: Idles, snapshot: nat)
    requires Sensible(cfg) && s.idlesMemory == Total(Bytes, s.idles) <= 2 * cfg.maxMemory && snapshot <= cfg.maxMemory
    requires Evicts(s.idles, out, rest) && forall k :: k in rest ==> rest[k] == []
    ensures Fits(cfg, s, out, snapshot)
  {
    EvictsConserves(s.idles, out, rest);
    TotalOfEmptyLists(Bytes, rest);
    assert Total(Bytes, s.idles) == Amount(Bytes, out);
    FitsIsExact(cfg, s, out, snapshot);
  }

  lemma ReservedIsHeld(cfg: Config, threads: map<nat, Pc>)
    ensures OfThreads(cfg, Reserved, threads) <= OfThreads(cfg, Held, threads)
  {
    SumMonotone(Shares(cfg, Reserved, threads), Shares(cfg, Held, threads));
  }

  /** The weaker bound: what is idle fits beside the snapshot, what is reserved fits the semaphore. */
  lemma SpaceMemory(cfg: Config, s: State, after: State, t: nat, out: seq<Pooled>, rest: Idles, key: WarmKey, snapshot: nat)
    requires Sensible(cfg) && MemoryInv(cfg, s) && Went(s, after, t, MakingSpace(key, Ids(out)))
    requires s.threads[t] == Counting(key, snapshot)
    requires Total(Bytes, s.idles) == Amount(Bytes, out) + Total(Bytes, rest)
    requires Fits(cfg, s, out, snapshot)
    requires after == s.(idles := rest, idlesMemory := SubU64(s.idlesMemory, Memory(out)), threads := after.threads)
    ensures MemoryInv(cfg, after)
  {
    hide MemoryInv, Share, Fits, SubU64, OfThreads, Ids;
    var pc := MakingSpace(key, Ids(out));
    CountingFacts(cfg, s, t);
    MemoryParts(cfg, s);
    FitsIsExact(cfg, s, out, snapshot);
    SpaceCharges(cfg, key, snapshot, Ids(out));
    ReservedIsHeld(cfg, after.threads);
    ThreadMoves(cfg, s.threads, t, pc);
    HeldIsSum(cfg, s);
    MemoryMovesTo(cfg, s, after, t, pc);
  }

  lemma HeldIsSum(cfg: Config, s: State)
    requires MemoryInv(cfg, s)
    ensures s.held == OfThreads(cfg, Held, s.threads) <= cfg.maxMemory
  {
  }

  lemma SpaceCharges(cfg: Config, key: WarmKey, snapshot: nat, doomed: seq<nat>)
    ensures Share(cfg, Held, MakingSpace(key, doomed)) == Share(cfg, Held, Counting(key, snapshot))
    ensures Share(cfg, InFlight, MakingSpace(key, doomed)) == Share(cfg, InFlight, Counting(key, snapshot))
  {
  }

  lemma MakeSpaceKeeps(cfg: Config, s: State, t: nat, out: seq<Pooled>, rest: Idles, after: State)
    requires Sensible(cfg) && Inv(cfg, s) && t in s.threads && s.threads[t].Counting?
    requires ListOf(s.idles, s.threads[t].key) == []
    requires DoLockedGet(cfg, s, t, out, rest) == Some(after)
    ensures Inv(cfg, after)
  {
    hide CensusInv, AddressInv, FactsInv, PrewarmInv, MemoryInv, Inv, Fits;
    var key, snapshot := s.threads[t].key, s.threads[t].snapshot;
    var pc := MakingSpace(key, Ids(out));
    InvParts(cfg, s);
    CountingFacts(cfg, s, t);
    if !Fits(cfg, s, out, snapshot) {
      RoomIsFound(cfg, s, out, rest, snapshot);
    }
    EvictsConserves(s.idles, out, rest);
    SpaceMemory(cfg, s, after, t, out, rest, key, snapshot);
    EvictCensus(cfg, s, t, out, rest, after, pc);
    SameAddresses(cfg, s, after, t, pc);
    SpaceFacts(cfg, s, t, out, rest, after, pc);
    PrewarmFrame(cfg, s, after, t, pc);
    InvWhole(cfg, after);
  }

  lemma CountingFacts(cfg: Config, s: State, t: nat)
    requires MemoryInv(cfg, s) && t in s.threads && s.threads[t].Counting?
    ensures s.threads[t].snapshot <= cfg.maxMemory
    ensures s.idlesMemory == Total(Bytes, s.idles) <= 2 * cfg.maxMemory
  {
  }

  lemma LockedGetKeeps(cfg: Config, s: State, t: nat, out: seq<Pooled>, rest: Idles, after: State)
    requires Sensible(cfg) && Inv(cfg, s) && t in s.threads && DoLockedGet(cfg, s, t, out, rest) == Some(after)
    ensures Inv(cfg, after)
  {
    hide Inv;
    if ListOf(s.idles, s.threads[t].key) != [] { TakeWarmKeeps(cfg, s, t, after); }
    else { MakeSpaceKeeps(cfg, s, t, out, rest, after); }
  }

  // ---------------------------------------------------------------- putting back

  lemma AddLast(w: Measure, idles: Idles, key: WarmKey, p: Pooled)
    ensures Total(w, idles[key := ListOf(idles, key) + [p]]) == Total(w, idles) + Weigh(w, p)
  {
    var l := ListOf(idles, key);
    AmountConcat(w, l, [p]);
    assert Amount(w, [p]) == Weigh(w, p) + Amount(w, [p][1..]);
    TotalUpdate(w, idles, key, l + [p]);
  }

  lemma SingleShare(cfg: Config, pc: Pc, c: nat, d: nat)
    requires Holds(pc) == [c]
    ensures Share(cfg, Copy(d), pc) == if c == d then 1 else 0
  {
  }

  lemma PutCensus(cfg: Config, s: State, after: State, t: nat, key: WarmKey, p: Pooled, memory: nat)
    requires CensusInv(cfg, s) && Went(s, after, t, Settling(memory)) && Holds(s.threads[t]) == [p.id]
    requires after == s.(idles := s.idles[key := ListOf(s.idles, key) + [p]], idlesMemory := after.idlesMemory, threads := after.threads)
    ensures CensusInv(cfg, after)
  {
    hide Share;
    forall d
      ensures Shelved(after, d) + Share(cfg, Copy(d), Settling(memory)) == Shelved(s, d) + Share(cfg, Copy(d), s.threads[t])
    {
      AddLast(Copies(d), s.idles, key, p);
      SingleShare(cfg, s.threads[t], p.id, d);
      NoShare(cfg, memory, d);
    }
    CensusMoves(cfg, s, after, t, Settling(memory));
  }

  lemma NoShare(cfg: Config, memory: nat, d: nat)
    ensures Share(cfg, Copy(d), Settling(memory)) == 0
  {
  }

  lemma PutCharges(cfg: Config, key: WarmKey, c: nat)
    ensures Share(cfg, Held, Stamped(key, c)) == Share(cfg, Held, Settling(cfg.memoryOf(key)))
    ensures Share(cfg, InFlight, Stamped(key, c)) == Share(cfg, InFlight, Settling(cfg.memoryOf(key)))
    ensures Share(cfg, Reserved, Stamped(key, c)) == cfg.memoryOf(key) && Share(cfg, Reserved, Settling(cfg.memoryOf(key))) == 0
  {
  }

  lemma PutMemory(cfg: Config, s: State, after: State, t: nat, key: WarmKey, c: nat, p: Pooled)
    requires Sensible(cfg) && MemoryInv(cfg, s) && Went(s, after, t, Settling(p.memory)) && s.threads[t] == Stamped(key, c)
    requires p.memory == cfg.memoryOf(key)
    requires after == s.(idles := s.idles[key := ListOf(s.idles, key) + [p]],
                         idlesMemory := AddU64(s.idlesMemory, p.memory), threads := after.threads)
    ensures MemoryInv(cfg, after)
  {
    hide AddU64, Sensible, MemoryInv, Share, Total, Memory;
    MemoryParts(cfg, s);
    PutCharges(cfg, key, c);
    HeldIsSum(cfg, s);
    IdleBound(cfg, s, t);
    AddExact(s.idlesMemory, p.memory);
    AddLast(Bytes, s.idles, key, p);
    MemoryMoves(cfg, s, after, t, Settling(p.memory));
  }

  lemma PutFacts(cfg: Config, s: State, after: State, t: nat, key: WarmKey, p: Pooled)
    requires FactsInv(cfg, s) && Went(s, after, t, Settling(p.memory)) && IdleFacts(cfg, s.containers, key, p)
    requires after == s.(idles := s.idles[key := ListOf(s.idles, key) + [p]], idlesMemory := after.idlesMemory, threads := after.threads)
    ensures FactsInv(cfg, after)
  {
    hide IdleFacts, FreshFacts, HistoryOk, Scheduled;
    FactsMove(cfg, s, after, t, Settling(p.memory));
  }

  lemma LockedPutKeeps(cfg: Config, s: State, t: nat, after: State)
    requires Sensible(cfg) && Inv(cfg, s) && t in s.threads && DoLockedPut(s, t) == Some(after)
    ensures Inv(cfg, after)
  {
    hide MemoryInv, CensusInv, AddressInv, FactsInv, PrewarmInv, Inv;
    var key, c := s.threads[t].key, s.threads[t].c;
    var x := s.containers[c];
    var p := Pooled(c, key, x.memory, x.lastUsed);
    FactsOf(cfg, s, t);
    InvParts(cfg, s);
    PutMemory(cfg, s, after, t, key, c, p);
    PutCensus(cfg, s, after, t, key, p, x.memory);
    SameAddresses(cfg, s, after, t, Settling(x.memory));
    PutFacts(cfg, s, after, t, key, p);
    PrewarmFrame(cfg, s, after, t, Settling(x.memory));
    InvWhole(cfg, after);
  }

  // ---------------------------------------------------------------- reaping

  ghost predicate AllIdle(cfg: Config, containers: map<nat, Container>, idles: Idles) {
    forall k, i :: k in idles && 0 <= i < |idles[k]| ==> IdleFacts(cfg, containers, k, idles[k][i])
  }

  lemma ReapKeyFacts(cfg: Config, containers: map<nat, Container>, idles: Idles, k: WarmKey, cutoff: int)
    requires k in idles && AllIdle(cfg, containers, idles)
    ensures AllIdle(cfg, containers, ReapKey(idles, k, cutoff))
    ensures forall i :: 0 <= i < |idles[k]| ==> Scheduled(containers, idles[k][i].id)
  {
    hide WarmFacts;
    forall i | 0 <= i < |idles[k]| ensures Scheduled(containers, idles[k][i].id) {
      ScheduledFromIdle(cfg, containers, k, idles[k][i]);
    }
  }

  lemma {:induction false} ReapedFacts(cfg: Config, containers: map<nat, Container>, idles: Idles, cutoff: int,
                                       order: seq<WarmKey>, out: seq<Pooled>, rest: Idles)
    requires Reaps(idles, cutoff, order, out, rest) && AllIdle(cfg, containers, idles)
    ensures AllIdle(cfg, containers, rest)
    ensures forall i :: 0 <= i < |out| ==> Scheduled(containers, out[i].id)
    decreases |order|
  {
    hide AllIdle, Scheduled, ReapKey;
    if order != [] {
      var k := order[0];
      var n := OldPrefix(idles[k], cutoff);
      ReapKeyFacts(cfg, containers, idles, k, cutoff);
      ReapedFacts(cfg, containers, ReapKey(idles, k, cutoff), cutoff, order[1..], out[n..], rest);
      forall i | 0 <= i < |out| ensures Scheduled(containers, out[i].id) {
        assert i < n ==> out[i] == out[..n][i] == idles[k][i];
        assert i >= n ==> out[i] == out[n..][i - n];
      }
    }
  }

  lemma ReapFacts(cfg: Config, s: State, after: State, t: nat, cutoff: int, order: seq<WarmKey>, out: seq<Pooled>, rest: Idles)
    requires FactsInv(cfg, s) && Went(s, after, t, Reaping(Ids(out)))
    requires Reaps(s.idles, cutoff, order, out, rest)
    requires after == s.(idles := rest, idlesMemory := after.idlesMemory, threads := after.threads)
    ensures FactsInv(cfg, after)
  {
    hide IdleFacts, FreshFacts, HistoryOk, Scheduled;
    ReapedFacts(cfg, s.containers, s.idles, cutoff, order, out, rest);
    FactsMove(cfg, s, after, t, Reaping(Ids(out)));
  }

  lemma LockedReapKeeps(cfg: Config, s: State, t: nat, cutoff: int, order: seq<WarmKey>, out: seq<Pooled>, rest: Idles, after: State)
    requires Sensible(cfg) && Inv(cfg, s) && t in s.threads && DoLockedReap(s, t, cutoff, order, out, rest) == Some(after)
    ensures Inv(cfg, after)
  {
    hide MemoryInv, CensusInv, AddressInv, FactsInv, PrewarmInv, Inv, Reaps, Enumerates, Ids;
    var pc := Reaping(Ids(out));
    InvParts(cfg, s);
    ReapsConserves(s.idles, cutoff, order, out, rest);
    ShrinkMemory(cfg, s, after, t, pc, Memory(out));
    EvictCensus(cfg, s, t, out, rest, after, pc);
    SameAddresses(cfg, s, after, t, pc);
    ReapFacts(cfg, s, after, t, cutoff, order, out, rest);
    PrewarmFrame(cfg, s, after, t, pc);
    InvWhole(cfg, after);
  }

  // ---------------------------------------------------------------- the deletion queue

  lemma PopFront(l: seq<nat>)
    requires l != []
    ensures multiset(l) == multiset{l[0]} + multiset(l[1..])
  {
    assert l == [l[0]] + l[1..];
  }

  lemma PushDoomedPcs(cfg: Config, containers: map<nat, Container>, key: WarmKey, doomed: seq<nat>)
    requires doomed != [] && PcFacts(cfg, containers, MakingSpace(key, doomed))
    ensures SameCharge(cfg, MakingSpace(key, doomed), MakingSpace(key, doomed[1..]))
    ensures PcFacts(cfg, containers, MakingSpace(key, doomed[1..])) && Scheduled(containers, doomed[0])
    ensures Holds(MakingSpace(key, doomed)) == doomed && Holds(MakingSpace(key, doomed[1..])) == doomed[1..]
  {
  }

  lemma PushDoomedKeeps(cfg: Config, s: State, t: nat, after: State)
    requires Inv(cfg, s) && t in s.threads && DoPushDoomed(s, t) == Some(after)
    ensures Inv(cfg, after)
  {
    hide MemoryInv, CensusInv, AddressInv, FactsInv, PrewarmInv, Inv, Share, Holds, PcFacts, RoleOf, Outstanding, Scheduled;
    var key, doomed := s.threads[t].key, s.threads[t].doomed;
    var pc := MakingSpace(key, doomed[1..]);
    InvParts(cfg, s);
    FactsOf(cfg, s, t);
    PushDoomedPcs(cfg, s.containers, key, doomed);
    QueueScheduled(cfg, s);
    PopFront(doomed);
    KeepsCharges(cfg, s, after, t, pc);
    QueueCensus(cfg, s, after, t, pc);
    SameAddresses(cfg, s, after, t, pc);
    QueueFacts(cfg, s, after, t, pc);
    InvWhole(cfg, after);
  }

  lemma QueueCensus(cfg: Config, s: State, after: State, t: nat, pc: Pc)
    requires CensusInv(cfg, s) && Went(s, after, t, pc) && |after.queue| <= QUEUE_CAPACITY
    requires after == s.(queue := after.queue, threads := after.threads)
    requires multiset(after.queue) + multiset(Holds(pc)) == multiset(s.queue) + multiset(Holds(s.threads[t]))
    ensures CensusInv(cfg, after)
  {
    hide Holds;
    forall d ensures Shelved(after, d) + Share(cfg, Copy(d), pc) == Shelved(s, d) + Share(cfg, Copy(d), s.threads[t]) {
      assert (multiset(after.queue) + multiset(Holds(pc)))[d] == (multiset(s.queue) + multiset(Holds(s.threads[t])))[d];
    }
    CensusMoves(cfg, s, after, t, pc);
  }

  lemma QueueFacts(cfg: Config, s: State, after: State, t: nat, pc: Pc)
    requires FactsInv(cfg, s) && Went(s, after, t, pc) && PcFacts(cfg, s.containers, pc)
    requires after == s.(queue := after.queue, threads := after.threads)
    requires AllScheduled(s.containers, after.queue)
    ensures FactsInv(cfg, after)
  {
    hide PcFacts, HistoryOk, IdleFacts, FreshFacts, Scheduled;
    FactsMove(cfg, s, after, t, pc);
  }

  lemma TakeQueuedPcs(cfg: Config, containers: map<nat, Container>, c: nat)
    requires Scheduled(containers, c)
    ensures SameCharge(cfg, DeleterIdle, Unpausing(c, NextDelete))
    ensures PcFacts(cfg, containers, Unpausing(c, NextDelete))
    ensures Holds(DeleterIdle) == [] && Holds(Unpausing(c, NextDelete)) == [c]
  {
  }

  lemma TakeQueuedKeeps(cfg: Config, s: State, t: nat, after: State)
    requires Inv(cfg, s) && t in s.threads && DoTakeQueued(s, t) == Some(after)
    ensures Inv(cfg, after)
  {
    hide MemoryInv, CensusInv, AddressInv, FactsInv, PrewarmInv, Inv, Share, Holds, PcFacts, RoleOf, Outstanding, Scheduled;
    var c := s.queue[0];
    var pc := Unpausing(c, NextDelete);
    InvParts(cfg, s);
    QueueScheduled(cfg, s);
    TakeQueuedPcs(cfg, s.containers, c);
    PopFront(s.queue);
    KeepsCharges(cfg, s, after, t, pc);
    QueueCensus(cfg, s, after, t, pc);
    SameAddresses(cfg, s, after, t, pc);
    QueueFacts(cfg, s, after, t, pc);
    InvWhole(cfg, after);
  }

  lemma QueueScheduled(cfg: Config, s: State)
    requires FactsInv(cfg, s) && CensusInv(cfg, s)
    ensures AllScheduled(s.containers, s.queue) && |s.queue| <= QUEUE_CAPACITY
  {
  }

  // ---------------------------------------------------------------- prewarmed containers

  lemma PrewarmCensus(cfg: Config, s: State, after: State, t: nat, pc: Pc, pk: PrewarmKey, l: seq<nat>)
    requires CensusInv(cfg, s) && Went(s, after, t, pc)
    requires after == s.(prewarmed := s.prewarmed[pk := l], threads := after.threads)
    requires multiset(l) + multiset(Holds(pc)) == multiset(PrewarmList(s.prewarmed, pk)) + multiset(Holds(s.threads[t]))
    ensures CensusInv(cfg, after)
  {
    hide Holds, CensusInv, Share, Shelved;
    forall d
      ensures Shelved(after, d) + Share(cfg, Copy(d), pc) + Exists(s, d) == Shelved(s, d) + Share(cfg, Copy(d), s.threads[t]) + Exists(after, d)
    {
      PrewarmMovesOne(cfg, s, after, s.threads[t], pc, pk, l, d);
    }
    QueueIsShort(cfg, s);
    CensusMoves(cfg, s, after, t, pc);
  }

  lemma PrewarmMovesOne(cfg: Config, s: State, after: State, was: Pc, pc: Pc, pk: PrewarmKey, l: seq<nat>, d: nat)
    requires after == s.(prewarmed := s.prewarmed[pk := l], threads := after.threads)
    requires multiset(l) + multiset(Holds(pc)) == multiset(PrewarmList(s.prewarmed, pk)) + multiset(Holds(was))
    ensures Shelved(after, d) + Share(cfg, Copy(d), pc) == Shelved(s, d) + Share(cfg, Copy(d), was) && Exists(after, d) == Exists(s, d)
  {
    hide Holds, Prewarms, Total;
    PrewarmMoves(s.prewarmed, pk, l);
    assert Prewarms(after.prewarmed, d) == Prewarms(s.prewarmed, d) - multiset(PrewarmList(s.prewarmed, pk))[d] + multiset(l)[d];
    assert (multiset(l) + multiset(Holds(pc)))[d] == (multiset(PrewarmList(s.prewarmed, pk)) + multiset(Holds(was)))[d];
  }

  lemma QueueIsShort(cfg: Config, s: State)
    requires CensusInv(cfg, s)
    ensures |s.queue| <= QUEUE_CAPACITY
  {
    hide Places;
  }

  lemma PrewarmFacts(cfg: Config, s: State, after: State, t: nat, pc: Pc, pk: PrewarmKey, l: seq<nat>)
    requires FactsInv(cfg, s) && Went(s, after, t, pc) && PcFacts(cfg, s.containers, pc)
    requires after == s.(prewarmed := s.prewarmed[pk := l], threads := after.threads)
    requires forall i :: 0 <= i < |l| ==> FreshFacts(s.containers, l[i], pk.memory)
    ensures FactsInv(cfg, after)
  {
    hide IdleFacts, HistoryOk, FreshFacts, PcFacts;
    FactsMove(cfg, s, after, t, pc);
  }

  lemma FreshList(cfg: Config, s: State, pk: PrewarmKey)
    requires FactsInv(cfg, s)
    ensures forall i :: 0 <= i < |PrewarmList(s.prewarmed, pk)| ==> FreshFacts(s.containers, PrewarmList(s.prewarmed, pk)[i], pk.memory)
  {
  }

  lemma TakePrewarmPcs(cfg: Config, containers: map<nat, Container>, key: WarmKey, c: nat)
    requires FreshFacts(containers, c, cfg.memoryOf(key))
    ensures forall w: Ledger :: !w.Copy? ==> Share(cfg, w, PrewarmTaken(key, c)) == Share(cfg, w, MakingSpace(key, []))
    ensures PcFacts(cfg, containers, PrewarmTaken(key, c))
    ensures Holds(MakingSpace(key, [])) == [] && Holds(PrewarmTaken(key, c)) == [c]
    ensures RoleOf(MakingSpace(key, [])) == Invocation
  {
  }

  lemma TakePrewarmKeeps(cfg: Config, s: State, t: nat, after: State)
    requires Inv(cfg, s) && t in s.threads && s.threads[t].MakingSpace? && DoLookPrewarm(cfg, s, t) == Some(after)
    requires PrewarmList(s.prewarmed, PrewarmKey(cfg.kindOf(s.threads[t].key), cfg.memoryOf(s.threads[t].key))) != []
    ensures Inv(cfg, after)
  {
    hide CensusInv, AddressInv, FactsInv, PrewarmInv, Inv, FreshFacts, Share, Holds, PcFacts, RoleOf, OfThreads, Total;
    var key := s.threads[t].key;
    var pk := PrewarmKey(cfg.kindOf(key), cfg.memoryOf(key));
    var l := s.prewarmed[pk];
    var pc := PrewarmTaken(key, l[0]);
    InvParts(cfg, s);
    PopFront(l);
    FreshList(cfg, s, pk);
    TakePrewarmPcs(cfg, s.containers, key, l[0]);
    MemoryMoves(cfg, s, after, t, pc);
    PrewarmCensus(cfg, s, after, t, pc, pk, l[1..]);
    SameAddresses(cfg, s, after, t, pc);
    PrewarmFacts(cfg, s, after, t, pc, pk, l[1..]);
    TakePrewarmPromise(cfg, s, after, t, pc);
    InvWhole(cfg, after);
  }

  /** Between taking a prewarmed container and poking, nothing is promised. */
  lemma TakePrewarmPromise(cfg: Config, s: State, after: State, t: nat, pc: Pc)
    requires PrewarmInv(cfg, s) && Went(s, after, t, pc) && pc.PrewarmTaken? && RoleOf(s.threads[t]) == Invocation
    ensures PrewarmInv(cfg, after)
  {
    assert after.threads[t].PrewarmTaken?;
  }

  lemma LookPrewarmKeeps(cfg: Config, s: State, t: nat, after: State)
    requires Inv(cfg, s) && t in s.threads && DoLookPrewarm(cfg, s, t) == Some(after)
    ensures Inv(cfg, after)
  {
    hide Inv;
    var pk := PrewarmKey(cfg.kindOf(s.threads[t].key), cfg.memoryOf(s.threads[t].key));
    if PrewarmList(s.prewarmed, pk) != [] { TakePrewarmKeeps(cfg, s, t, after); }
    else { Moves(cfg, s, t, NeedIp(ForGet(s.threads[t].key))); }
  }

  /** What a step that only pokes leaves untouched. */
  lemma PokeKeepsRest(cfg: Config, s: State, after: State, t: nat, pc: Pc)
    requires Inv(cfg, s) && Went(s, after, t, pc) && after == s.(poke := after.poke, threads := after.threads)
    requires Holds(pc) == Holds(s.threads[t]) && !pc.HasIp? && !s.threads[t].HasIp? && !pc.Counting?
    requires Share(cfg, Held, pc) == Share(cfg, Held, s.threads[t])
    requires Share(cfg, InFlight, pc) == Share(cfg, InFlight, s.threads[t])
    requires Share(cfg, Reserved, pc) <= Share(cfg, Reserved, s.threads[t])
    requires PcFacts(cfg, s.containers, pc)
    ensures MemoryInv(cfg, after) && CensusInv(cfg, after) && AddressInv(cfg, after) && FactsInv(cfg, after)
  {
    hide PcFacts, Holds, Share, PrewarmInv;
    MemoryMoves(cfg, s, after, t, pc);
    KeepsCensus(cfg, s, after, t, pc);
    SameAddresses(cfg, s, after, t, pc);
    FactsMove(cfg, s, after, t, pc);
  }

  lemma PokeKeeps(cfg: Config, s: State, t: nat, after: State)
    requires Inv(cfg, s) && t in s.threads && DoPoke(s, t) == Some(after)
    ensures Inv(cfg, after)
  {
    hide MemoryInv, CensusInv, AddressInv, FactsInv;
    var pc := PrewarmPoked(s.threads[t].key, s.threads[t].c);
    FactsOf(cfg, s, t);
    PokeKeepsRest(cfg, s, after, t, pc);
  }

  /** A reconciliation between two of its stages has nothing in its hands. */
  predicate Between(pc: Pc) {
    pc.PrewarmIdle? || pc.Planning? || pc.Creating? || pc.PrewarmFailed?
  }

  lemma BetweenFacts(cfg: Config, containers: map<nat, Container>, pc: Pc)
    requires Between(pc)
    ensures Holds(pc) == [] && !pc.HasIp? && !pc.Counting? && !pc.PrewarmTaken? && RoleOf(pc) == Prewarmer && PcFacts(cfg, containers, pc)
    ensures Share(cfg, Held, pc) == Share(cfg, InFlight, pc) == Share(cfg, Reserved, pc) == 0
    ensures Outstanding(pc) == if pc.Creating? then Some(pc.plan) else if pc.PrewarmIdle? then Some(map[]) else None
  {
  }

  /** The prewarm goroutine goes from one stage to another: its promise is what has to be kept. */
  lemma StageKeeps(cfg: Config, s: State, after: State, t: nat, pc: Pc)
    requires Inv(cfg, s) && Went(s, after, t, pc) && after == s.(poke := after.poke, threads := after.threads)
    requires Between(pc) && Between(s.threads[t])
    requires !after.poke && NobodyAboutToPoke(s) && Outstanding(pc).Some? ==>
      || (!s.poke && Outstanding(s.threads[t]).Some?
          && (Covered(cfg, s, Outstanding(s.threads[t]).value) ==> Covered(cfg, s, Outstanding(pc).value)))
      || Covered(cfg, s, Outstanding(pc).value)
    ensures Inv(cfg, after)
  {
    hide MemoryInv, CensusInv, AddressInv, FactsInv, Holds, PcFacts, Share, RoleOf, Outstanding, Covered;
    BetweenFacts(cfg, s.containers, pc);
    BetweenFacts(cfg, s.containers, s.threads[t]);
    PokeKeepsRest(cfg, s, after, t, pc);
    assert t == PREWARMER;
    assert NobodyAboutToPoke(after) ==> NobodyAboutToPoke(s) by {
      assert forall u :: u in s.threads && u != t ==> after.threads[u] == s.threads[u];
    }
    if Outstanding(pc).Some? { CoveredFrame(cfg, s, after, Outstanding(pc).value); }
  }

  lemma CoveredFrame(cfg: Config, s: State, after: State, plan: map<PrewarmKey, nat>)
    requires after.prewarmed == s.prewarmed
    ensures Covered(cfg, s, plan) == Covered(cfg, after, plan)
  {
  }

  lemma RetryPokeKeeps(cfg: Config, s: State, t: nat, after: State)
    requires Inv(cfg, s) && t in s.threads && DoRetryPoke(s, t) == Some(after)
    ensures Inv(cfg, after)
  {
    hide Inv, Outstanding, Covered;
    StageKeeps(cfg, s, after, t, PrewarmIdle);
  }

  lemma ReadPokeKeeps(cfg: Config, s: State, t: nat, after: State)
    requires Inv(cfg, s) && t in s.threads && DoReadPoke(s, t) == Some(after)
    ensures Inv(cfg, after)
  {
    hide Inv, Outstanding, Covered;
    BetweenFacts(cfg, s.containers, Planning);
    StageKeeps(cfg, s, after, t, Planning);
  }

  /** A plan covers what is missing when it is made. */
  lemma PlanCovers(cfg: Config, s: State)
    ensures Covered(cfg, s, Missing(cfg, s))
  {
  }

  lemma PlanKeeps(cfg: Config, s: State, t: nat, after: State)
    requires Inv(cfg, s) && t in s.threads && DoPlan(cfg, s, t) == Some(after)
    ensures Inv(cfg, after)
  {
    hide Inv, Outstanding, Covered, Missing;
    PlanCovers(cfg, s);
    BetweenFacts(cfg, s.containers, Creating(Missing(cfg, s)));
    StageKeeps(cfg, s, after, t, Creating(Missing(cfg, s)));
  }

  /** With nothing left to create the plan promises nothing more. */
  lemma FinishedPlanCovers(cfg: Config, s: State, plan: map<PrewarmKey, nat>)
    requires forall pk :: pk in plan ==> plan[pk] == 0
    ensures Covered(cfg, s, plan) ==> Covered(cfg, s, map[])
  {
  }

  lemma FinishPlanKeeps(cfg: Config, s: State, t: nat, after: State)
    requires Inv(cfg, s) && t in s.threads && DoFinishPlan(s, t) == Some(after)
    ensures Inv(cfg, after)
  {
    hide Inv, Outstanding, Covered;
    BetweenFacts(cfg, s.containers, s.threads[t]);
    BetweenFacts(cfg, s.containers, PrewarmIdle);
    FinishedPlanCovers(cfg, s, s.threads[t].plan);
    StageKeeps(cfg, s, after, t, PrewarmIdle);
  }

  lemma NextCreateKeeps(cfg: Config, s: State, t: nat, pk: PrewarmKey, after: State)
    requires Inv(cfg, s) && t in s.threads && DoNextCreate(s, t, pk) == Some(after)
    ensures Inv(cfg, after)
  {
    hide Inv;
    Moves(cfg, s, t, NeedIp(ForPrewarm(pk, s.threads[t].plan)));
  }

  lemma AddPrewarmedPcs(cfg: Config, containers: map<nat, Container>, pk: PrewarmKey, c: nat, plan: map<PrewarmKey, nat>, rest: map<PrewarmKey, nat>)
    requires PcFacts(cfg, containers, PrewarmReady(pk, c, plan))
    ensures forall w: Ledger :: !w.Copy? ==> Share(cfg, w, Creating(rest)) == Share(cfg, w, PrewarmReady(pk, c, plan))
    ensures PcFacts(cfg, containers, Creating(rest)) && FreshFacts(containers, c, pk.memory)
    ensures Holds(PrewarmReady(pk, c, plan)) == [c] && Holds(Creating(rest)) == []
    ensures RoleOf(PrewarmReady(pk, c, plan)) == RoleOf(Creating(rest)) == Prewarmer
    ensures Outstanding(PrewarmReady(pk, c, plan)) == Some(plan) && Outstanding(Creating(rest)) == Some(rest)
  {
  }

  lemma AddPrewarmedKeeps(cfg: Config, s: State, t: nat, after: State)
    requires Inv(cfg, s) && t in s.threads && DoAddPrewarmed(s, t) == Some(after)
    ensures Inv(cfg, after)
  {
    hide CensusInv, AddressInv, FactsInv, PrewarmInv, Inv, FreshFacts, Share, Holds, PcFacts, RoleOf, Outstanding, OfThreads, Total;
    var pk, c, plan := s.threads[t].pk, s.threads[t].c, s.threads[t].plan;
    var l := PrewarmList(s.prewarmed, pk);
    var pc := Creating(plan[pk := plan[pk] - 1]);
    InvParts(cfg, s);
    FactsOf(cfg, s, t);
    AddPrewarmedPcs(cfg, s.containers, pk, c, plan, plan[pk := plan[pk] - 1]);
    FreshList(cfg, s, pk);
    MemoryMoves(cfg, s, after, t, pc);
    PrewarmCensus(cfg, s, after, t, pc, pk, l + [c]);
    SameAddresses(cfg, s, after, t, pc);
    PrewarmFacts(cfg, s, after, t, pc, pk, l + [c]);
    AddPrewarmedPromise(cfg, s, after, t, pk, c, plan);
    InvWhole(cfg, after);
  }

  /** A finished creation moves one container from the plan to the list. */
  lemma AddPrewarmedPromise(cfg: Config, s: State, after: State, t: nat, pk: PrewarmKey, c: nat, plan: map<PrewarmKey, nat>)
    requires PrewarmInv(cfg, s) && t in s.threads && s.threads[t] == PrewarmReady(pk, c, plan)
    requires DoAddPrewarmed(s, t) == Some(after)
    ensures PrewarmInv(cfg, after)
  {
    hide RoleOf, Outstanding, Covered;
    var rest := plan[pk := plan[pk] - 1];
    PrewarmerPcs(pk, c, plan, rest);
    assert t == PREWARMER;
    if NobodyAboutToPoke(after) {
      forall u | u in s.threads ensures !s.threads[u].PrewarmTaken? {
        assert u != t ==> after.threads[u] == s.threads[u];
      }
    }
    CoveredByOneMore(cfg, s, after, pk, c, plan);
  }

  lemma PrewarmerPcs(pk: PrewarmKey, c: nat, plan: map<PrewarmKey, nat>, rest: map<PrewarmKey, nat>)
    ensures RoleOf(PrewarmReady(pk, c, plan)) == RoleOf(Creating(rest)) == Prewarmer
    ensures Outstanding(PrewarmReady(pk, c, plan)) == Some(plan) && Outstanding(Creating(rest)) == Some(rest)
  {
  }

  lemma CoveredByOneMore(cfg: Config, s: State, after: State, pk: PrewarmKey, c: nat, plan: map<PrewarmKey, nat>)
    requires pk in plan && plan[pk] > 0 && after.prewarmed == s.prewarmed[pk := PrewarmList(s.prewarmed, pk) + [c]]
    ensures Covered(cfg, s, plan) ==> Covered(cfg, after, plan[pk := plan[pk] - 1])
  {
  }

  // ---------------------------------------------------------------- addresses

  lemma AcquireIpPcs(cfg: Config, containers: map<nat, Container>, purpose: Purpose, ip: string)
    requires PcFacts(cfg, containers, NeedIp(purpose))
    ensures forall w: Ledger :: !w.Address? ==> Share(cfg, w, HasIp(purpose, ip)) == Share(cfg, w, NeedIp(purpose))
    ensures Holds(HasIp(purpose, ip)) == Holds(NeedIp(purpose)) && PcFacts(cfg, containers, HasIp(purpose, ip))
    ensures RoleOf(HasIp(purpose, ip)) == RoleOf(NeedIp(purpose)) && Outstanding(HasIp(purpose, ip)) == Outstanding(NeedIp(purpose))
  {
  }

  lemma NoIpPcs(cfg: Config, containers: map<nat, Container>, purpose: Purpose)
    ensures Continues(cfg, NeedIp(purpose), CreateFailed(cfg, purpose))
    ensures PcFacts(cfg, containers, CreateFailed(cfg, purpose))
    ensures !CreateFailed(cfg, purpose).HasIp?
  {
  }

  lemma TakeIpKeeps(cfg: Config, s: State, t: nat, purpose: Purpose, after: State)
    requires Inv(cfg, s) && t in s.threads && s.threads[t] == NeedIp(purpose) && s.freeIps != []
    requires after == Goto(s.(freeIps := s.freeIps[1..]), t, HasIp(purpose, s.freeIps[0]))
    ensures Inv(cfg, after)
  {
    hide CensusInv, AddressInv, FactsInv, PrewarmInv, Inv, Share, Holds, PcFacts, RoleOf, Outstanding, OfThreads, Total;
    var pc := HasIp(purpose, s.freeIps[0]);
    FactsOf(cfg, s, t);
    InvParts(cfg, s);
    AcquireIpPcs(cfg, s.containers, purpose, s.freeIps[0]);
    MemoryMoves(cfg, s, after, t, pc);
    KeepsCensus(cfg, s, after, t, pc);
    TakesAddress(cfg, s, after, t, purpose);
    FreeIpsFacts(cfg, s, after, t, pc);
    PrewarmFrame(cfg, s, after, t, pc);
    InvWhole(cfg, after);
  }

  lemma AcquireIpKeeps(cfg: Config, s: State, t: nat, after: State)
    requires Inv(cfg, s) && t in s.threads && DoAcquireIp(cfg, s, t) == Some(after)
    ensures Inv(cfg, after)
  {
    hide Inv, Share, Holds, PcFacts, RoleOf, Outstanding, Continues, CreateFailed;
    var purpose := s.threads[t].purpose;
    NoIpPcs(cfg, s.containers, purpose);
    if after.threads[t].HasIp? {
      TakeIpKeeps(cfg, s, t, purpose, after);
    } else {
      Moves(cfg, s, t, CreateFailed(cfg, purpose));
    }
  }

  lemma AddressPcs(cfg: Config, containers: map<nat, Container>, purpose: Purpose, ip: string)
    ensures forall w: Ledger :: w.Held? || w.InFlight? ==> Share(cfg, w, CreateFailed(cfg, purpose)) == Share(cfg, w, HasIp(purpose, ip))
    ensures Share(cfg, Reserved, CreateFailed(cfg, purpose)) <= Share(cfg, Reserved, HasIp(purpose, ip))
    ensures !CreateFailed(cfg, purpose).HasIp? && !CreateFailed(cfg, purpose).Counting?
    ensures RoleOf(CreateFailed(cfg, purpose)) == RoleOf(HasIp(purpose, ip))
    ensures Holds(CreateFailed(cfg, purpose)) == Holds(HasIp(purpose, ip)) && PcFacts(cfg, containers, CreateFailed(cfg, purpose))
    ensures RoleOf(HasIp(purpose, ip)) == Prewarmer ==> Outstanding(CreateFailed(cfg, purpose)) == None
  {
  }

  lemma TakesAddress(cfg: Config, s: State, after: State, t: nat, purpose: Purpose)
    requires AddressInv(cfg, s) && s.freeIps != [] && Went(s, after, t, HasIp(purpose, s.freeIps[0]))
    requires s.threads[t] == NeedIp(purpose)
    requires after.freeIps == s.freeIps[1..] && after.containers == s.containers
    ensures AddressInv(cfg, after)
  {
    hide Holds, OfThreads, Holding;
    assert s.freeIps == [s.freeIps[0]] + s.freeIps[1..];
    AddressMoves(cfg, s, after, t, HasIp(purpose, s.freeIps[0]));
  }

  lemma FreeIpsFacts(cfg: Config, s: State, after: State, t: nat, pc: Pc)
    requires FactsInv(cfg, s) && Went(s, after, t, pc) && PcFacts(cfg, s.containers, pc)
    requires after == s.(freeIps := after.freeIps, threads := after.threads)
    ensures FactsInv(cfg, after)
  {
    hide PcFacts;
    FactsMove(cfg, s, after, t, pc);
  }

  lemma CreateFailsKeeps(cfg: Config, s: State, t: nat, c: nat, after: State)
    requires Inv(cfg, s) && t in s.threads && DoDockerCreate(cfg, s, t, c, false) == Some(after)
    ensures Inv(cfg, after)
  {
    hide CensusInv, AddressInv, FactsInv, PrewarmInv, Inv, Share, Holds, PcFacts, RoleOf, Outstanding, CreateFailed, OfThreads, Total;
    var purpose, ip := s.threads[t].purpose, s.threads[t].ip;
    var pc := CreateFailed(cfg, purpose);
    InvParts(cfg, s);
    AddressPcs(cfg, s.containers, purpose, ip);
    MemoryMoves(cfg, s, after, t, pc);
    KeepsCensus(cfg, s, after, t, pc);
    GivesBackAddress(cfg, s, after, t, purpose, ip, pc);
    FreeIpsFacts(cfg, s, after, t, pc);
    PrewarmFrame(cfg, s, after, t, pc);
    InvWhole(cfg, after);
  }

  lemma GivesBackAddress(cfg: Config, s: State, after: State, t: nat, purpose: Purpose, ip: string, pc: Pc)
    requires AddressInv(cfg, s) && Went(s, after, t, pc) && s.threads[t] == HasIp(purpose, ip) && !pc.HasIp?
    requires after.freeIps == s.freeIps + [ip] && after.containers == s.containers
    ensures AddressInv(cfg, after)
  {
    assert multiset(after.freeIps) == multiset(s.freeIps) + multiset{ip};
    AddressMoves(cfg, s, after, t, pc);
  }

  lemma CreatedCensus(cfg: Config, s: State, after: State, t: nat, c: nat, x: Container, pc: Pc)
    requires CensusInv(cfg, s) && Went(s, after, t, pc) && after == s.(containers := s.containers[c := x], threads := after.threads)
    requires c !in s.containers && x.fate == Alive && Holds(s.threads[t]) == [] && Holds(pc) == [c]
    ensures CensusInv(cfg, after)
  {
    hide Share;
    forall d
      ensures Shelved(after, d) + Share(cfg, Copy(d), pc) + Exists(s, d) == Shelved(s, d) + Share(cfg, Copy(d), s.threads[t]) + Exists(after, d)
    {
      SingleShare(cfg, pc, c, d);
      EmptyShare(cfg, s.threads[t], d);
    }
    CensusMoves(cfg, s, after, t, pc);
  }

  lemma EmptyShare(cfg: Config, pc: Pc, d: nat)
    requires Holds(pc) == []
    ensures Share(cfg, Copy(d), pc) == 0
  {
  }

  lemma CreatedAddress(cfg: Config, s: State, after: State, t: nat, c: nat, x: Container, purpose: Purpose, pc: Pc)
    requires AddressInv(cfg, s) && Went(s, after, t, pc) && s.threads[t] == HasIp(purpose, x.ip) && !pc.HasIp?
    requires c !in s.containers && x.fate == Alive && after.containers == s.containers[c := x] && after.freeIps == s.freeIps
    ensures AddressInv(cfg, after)
  {
    ContainerChanges(s.containers, c, x);
    AddressMoves(cfg, s, after, t, pc);
  }

  lemma DockerCreateKeeps(cfg: Config, s: State, t: nat, c: nat, ok: bool, after: State)
    requires Inv(cfg, s) && t in s.threads && DoDockerCreate(cfg, s, t, c, ok) == Some(after)
    ensures Inv(cfg, after)
  {
    hide MemoryInv, CensusInv, AddressInv, FactsInv, PrewarmInv, Inv;
    if !ok {
      CreateFailsKeeps(cfg, s, t, c, after);
    } else {
      var purpose, ip := s.threads[t].purpose, s.threads[t].ip;
      var x := Container(ip, MemoryFor(cfg, purpose), None, 0, false, 0, [], Alive);
      var pc := BringingUp(purpose, c);
      InvParts(cfg, s);
      FactsOf(cfg, s, t);
      MemoryMoves(cfg, s, after, t, pc);
      CreatedCensus(cfg, s, after, t, c, x, pc);
      CreatedAddress(cfg, s, after, t, c, x, purpose, pc);
      FactsChange(cfg, s, after, t, c, x, pc);
      PrewarmFrame(cfg, s, after, t, pc);
      InvWhole(cfg, after);
    }
  }
}
