/** How far idle memory and memory in use can go beyond the limit: up to twice the limit less the
    smallest request, which no run exceeds and some run reaches. */
module LifecycleBound {
  import opened Common
  import opened IdleLists
  import opened Lifecycle
  import opened LifecycleInvariant
  import opened LifecycleListSteps
  import opened LifecycleTheorems
  import opened LifecycleCap
  import opened LifecycleSchedules
  import opened LifecycleCalls

  // ---------------------------------------------------------------- the bound

  /** Every snapshot counts the request it was taken for. */
  ghost predicate SnapshotsCount(cfg: Config, s: State) {
    forall t :: t in s.threads && s.threads[t].Counting? ==> cfg.memoryOf(s.threads[t].key) <= s.threads[t].snapshot
  }

  ghost predicate Within(cfg: Config, least: nat, s: State) {
    Footprint(cfg, s) == 0 || Footprint(cfg, s) + least <= 2 * cfg.maxMemory
  }

  lemma NewSnapshotCounts(cfg: Config, s: State, t: nat, after: State)
    requires Inv(cfg, after) && t in s.threads && DoAddCounter(cfg, s, t) == Some(after)
    ensures t in after.threads && after.threads[t].Counting? && cfg.memoryOf(after.threads[t].key) <= after.threads[t].snapshot
  {
    hide Inv, Share, OfThreads, AddU64;
    SnapshotIsTheCounter(cfg, after);
    ThreadMoves(cfg, after.threads, t, Done);
    ShareOfWaiting(cfg, after.threads[t]);
  }

  lemma SnapshotsKeepCounting(cfg: Config, s: State, step: Step, after: State)
    requires Sensible(cfg) && Inv(cfg, s) && SnapshotsCount(cfg, s) && Apply(cfg, s, step) == Some(after)
    ensures SnapshotsCount(cfg, after)
  {
    hide Inv, Sensible, Apply, DoAddCounter;
    StepKeeps(cfg, s, step, after);
    forall t | t in after.threads && after.threads[t].Counting?
      ensures cfg.memoryOf(after.threads[t].key) <= after.threads[t].snapshot
    {
      WaitingAfter(cfg, s, step, after, t);
      if step.AddCounter? && t == step.t {
        SnapshotIsACounterStep(cfg, s, step, after);
        NewSnapshotCounts(cfg, s, t, after);
      }
    }
  }

  lemma InUseIsHeld(cfg: Config, s: State)
    requires Inv(cfg, s)
    ensures InUse(cfg, s.threads) <= cfg.maxMemory
  {
    hide Share, CensusInv, AddressInv, FactsInv, PrewarmInv, OfThreads;
    ReservedIsHeld(cfg, s.threads);
  }

  lemma StepStaysWithin(cfg: Config, least: nat, s: State, step: Step, after: State)
    requires Sensible(cfg) && Inv(cfg, s) && SnapshotsCount(cfg, s) && Apply(cfg, s, step) == Some(after)
    requires Within(cfg, least, s) && forall k :: least <= cfg.memoryOf(k)
    ensures Within(cfg, least, after)
  {
    hide Inv, Sensible, Apply, InUse;
    if MakesSpace(s, step) {
      SpaceIsMade(cfg, s, step, after);
      StepKeeps(cfg, s, step, after);
      InUseIsHeld(cfg, after);
    } else {
      OnlyMakingSpaceGrows(cfg, s, step, after);
    }
  }

  lemma {:induction false} RunStaysWithin(cfg: Config, least: nat, s: State, steps: seq<Step>, after: State)
    requires Sensible(cfg) && Inv(cfg, s) && SnapshotsCount(cfg, s) && Within(cfg, least, s)
    requires RunAll(cfg, s, steps) == Some(after) && forall k :: least <= cfg.memoryOf(k)
    ensures Within(cfg, least, after)
    decreases |steps|
  {
    hide Inv, Sensible, Apply, Within, SnapshotsCount;
    if steps != [] {
      var next := Apply(cfg, s, steps[0]).value;
      StepKeeps(cfg, s, steps[0], next);
      SnapshotsKeepCounting(cfg, s, steps[0], next);
      StepStaysWithin(cfg, least, s, steps[0], next);
      RunStaysWithin(cfg, least, next, steps[1..], after);
    }
  }

  /** Idle memory and memory in use together stay within twice the limit less the smallest request. */
  lemma FootprintIsBounded(cfg: Config, least: nat, s: State)
    requires Sensible(cfg) && Reachable(cfg, s) && forall k :: least <= cfg.memoryOf(k)
    ensures Footprint(cfg, s) == 0 || Footprint(cfg, s) + least <= 2 * cfg.maxMemory
  {
    hide Inv, Sensible, Footprint;
    var steps :| RunAll(cfg, Initial(cfg), steps) == Some(s);
    InitialHolds(cfg);
    NothingInUseAtFirst(cfg);
    RunStaysWithin(cfg, least, Initial(cfg), steps, s);
  }

  // ---------------------------------------------------------------- callers at work

  /** The memory of that many requests. */
  function Times(k: nat, m: nat): nat { k * m }

  lemma TimesMore(k: nat, m: nat)
    ensures Times(k + 1, m) == Times(k, m) + m && Times(0, m) == 0
  {
  }

  lemma TimesGrow(k: nat, l: nat, m: nat)
    requires k <= l
    ensures Times(k, m) <= Times(l, m)
  {
  }

  lemma TimesAdd(k: nat, l: nat, m: nat)
    ensures Times(k + l, m) == Times(k, m) + Times(l, m)
  {
  }

  /** Two functions of the same size, and a limit for exactly `n` of them. */
  ghost predicate Fitting(cfg: Config, a: WarmKey, b: WarmKey, n: nat) {
    && Sensible(cfg) && a != b && cfg.memoryOf(a) == cfg.memoryOf(b)
    && cfg.maxMemory == Times(n, cfg.memoryOf(a))
    && cfg.kindOf(a) in cfg.kinds && cfg.kindOf(b) in cfg.kinds
  }

  function Stock(s: State, a: WarmKey, b: WarmKey): nat { |ListOf(s.idles, a)| + |ListOf(s.idles, b)| }

  /** How many containers the callers of either function obtained; `waiting` callers more are admitted. */
  ghost predicate Scene(cfg: Config, a: WarmKey, b: WarmKey, s: State, busy: set<nat>, waiting: nat) {
    && Reachable(cfg, s) && !s.idlesLocked && s.prewarmed == map[]
    && s.held == s.counter == Times(|busy| + waiting, cfg.memoryOf(a))
    && s.idlesMemory == Times(Stock(s, a, b), cfg.memoryOf(a))
    && forall t :: t in busy ==> t in s.threads && Popped(s.threads[t], a, b)
  }

  /** A caller of either function that took a warm container. */
  predicate Popped(pc: Pc, a: WarmKey, b: WarmKey) { pc.WarmPopped? && (pc.key == a || pc.key == b) }

  /** A new caller of one of the two functions takes its snapshot. */
  lemma Joins(cfg: Config, a: WarmKey, b: WarmKey, n: nat, s: State, busy: set<nat>, waiting: nat, key: WarmKey)
      returns (after: State, t: nat)
    requires Fitting(cfg, a, b, n) && (key == a || key == b) && Scene(cfg, a, b, s, busy, waiting) && |busy| + waiting < n
    ensures Scene(cfg, a, b, after, busy, waiting + 1) && t !in s.threads && t !in busy
    ensures after == s.(held := after.held, counter := after.counter,
                        threads := s.threads[t := Counting(key, Times(|busy| + waiting + 1, cfg.memoryOf(a)))])
  {
    hide Reachable, Times, Popped, ListOf;
    TimesMore(|busy| + waiting, cfg.memoryOf(a));
    TimesGrow(|busy| + waiting + 1, n, cfg.memoryOf(a));
    t := Unused(s.threads.Keys);
    after := Enters(cfg, s, t, key);
  }

  /** It takes a warm container. */
  lemma Takes(cfg: Config, a: WarmKey, b: WarmKey, n: nat, s: State, busy: set<nat>, waiting: nat, t: nat, key: WarmKey, snapshot: nat)
      returns (after: State)
    requires Fitting(cfg, a, b, n) && (key == a || key == b) && Scene(cfg, a, b, s, busy, waiting + 1)
    requires t in s.threads && s.threads[t] == Counting(key, snapshot) && t !in busy && ListOf(s.idles, key) != []
    ensures Scene(cfg, a, b, after, busy + {t}, waiting) && after.freeIps == s.freeIps
    ensures |busy + {t}| == |busy| + 1 && Stock(after, a, b) == Stock(s, a, b) - 1
    ensures |ListOf(after.idles, key)| == |ListOf(s.idles, key)| - 1
    ensures forall u :: u in s.threads && u != t ==> u in after.threads && after.threads[u] == s.threads[u]
  {
    hide Reachable, Times, Sensible;
    after := Pops(cfg, s, t, key, snapshot);
    TimesMore(Stock(after, a, b), cfg.memoryOf(a));
    assert |busy| + (waiting + 1) == |busy + {t}| + waiting;
  }

  /** A new caller takes a warm container, one of the first function if there is any. */
  lemma TakesOne(cfg: Config, a: WarmKey, b: WarmKey, n: nat, s: State, busy: set<nat>) returns (after: State, t: nat)
    requires Fitting(cfg, a, b, n) && Scene(cfg, a, b, s, busy, 1) && |busy| + 1 < n && 0 < Stock(s, a, b)
    ensures t !in s.threads && t !in busy && |busy + {t}| == |busy| + 1
    ensures Scene(cfg, a, b, after, busy + {t}, 1) && after.freeIps == s.freeIps && Stock(after, a, b) == Stock(s, a, b) - 1
    ensures |ListOf(after.idles, a)| == if ListOf(s.idles, a) != [] then |ListOf(s.idles, a)| - 1 else 0
    ensures forall u :: u in s.threads ==> u in after.threads && after.threads[u] == s.threads[u]
  {
    hide Fitting, Scene, ListOf, Times;
    var key := if ListOf(s.idles, a) != [] then a else b;
    var mid;
    mid, t := Joins(cfg, a, b, n, s, busy, 1, key);
    after := Takes(cfg, a, b, n, mid, busy, 1, t, key, Times(|busy| + 1 + 1, cfg.memoryOf(a)));
  }

  /** Warm containers are taken one after the other, those of the first function before the others. */
  lemma {:induction false} TakesMany(cfg: Config, a: WarmKey, b: WarmKey, n: nat, s: State, busy: set<nat>, k: nat)
      returns (after: State, more: set<nat>)
    requires Fitting(cfg, a, b, n) && Scene(cfg, a, b, s, busy, 1) && |busy| + 1 + k <= n && k <= Stock(s, a, b)
    ensures Scene(cfg, a, b, after, more, 1) && |more| == |busy| + k && after.freeIps == s.freeIps
    ensures Stock(after, a, b) == Stock(s, a, b) - k
    ensures |ListOf(after.idles, a)| == if k <= |ListOf(s.idles, a)| then |ListOf(s.idles, a)| - k else 0
    ensures forall u :: u in s.threads && u !in busy ==> u in after.threads && after.threads[u] == s.threads[u] && u !in more
    decreases k
  {
    hide Fitting, Scene, ListOf, Stock;
    if k == 0 {
      after, more := s, busy;
    } else {
      var next, t := TakesOne(cfg, a, b, n, s, busy);
      after, more := TakesMany(cfg, a, b, n, next, busy + {t}, k - 1);
    }
  }

  function Least(x: nat, y: nat): nat { if x < y then x else y }

  /** A caller whose snapshot is as old as can be finds room although everybody else is at work. */
  lemma Peaks(cfg: Config, a: WarmKey, b: WarmKey, n: nat, s: State) returns (after: State, u: nat, busy: set<nat>)
    requires Fitting(cfg, a, b, n) && Scene(cfg, a, b, s, {}, 0) && |ListOf(s.idles, a)| < n && Stock(s, a, b) <= 2 * n - 2
    ensures Scene(cfg, a, b, after, busy, 1) && after.freeIps == s.freeIps && |busy| == Least(n - 1, Stock(s, a, b))
    ensures u in after.threads && after.threads[u] == MakingSpace(a, []) && u !in busy
    ensures Stock(after, a, b) == Stock(s, a, b) - |busy|
  {
    hide Reachable, Times, Popped, ListOf;
    var m, k := cfg.memoryOf(a), Least(n - 1, Stock(s, a, b));
    var mid;
    mid, u := Joins(cfg, a, b, n, s, {}, 0, a);
    var full;
    full, busy := TakesMany(cfg, a, b, n, mid, {}, k);
    assert ListOf(full.idles, a) == [];
    TimesAdd(Stock(full, a, b), 1, m);
    TimesGrow(Stock(full, a, b) + 1, n, m);
    after := FindsNothing(cfg, full, u, a, Times(1, m));
    WaitsNoMore(cfg, a, b, full, busy, 1, u, MakingSpace(a, []), after);
  }

  lemma WaitsNoMore(cfg: Config, a: WarmKey, b: WarmKey, s: State, busy: set<nat>, waiting: nat, u: nat, pc: Pc, after: State)
    requires Scene(cfg, a, b, s, busy, waiting) && u !in busy && after == Goto(s, u, pc) && Reachable(cfg, after)
    ensures Scene(cfg, a, b, after, busy, waiting) && Stock(after, a, b) == Stock(s, a, b)
  {
    hide Reachable, Times, Popped, ListOf;
  }

  // ---------------------------------------------------------------- callers come back

  /** A caller that has been served files its container and leaves. */
  lemma ComesBack(cfg: Config, a: WarmKey, b: WarmKey, n: nat, s: State, served: State, busy: set<nat>, waiting: nat, t: nat, key: WarmKey, c: nat)
      returns (after: State)
    requires Fitting(cfg, a, b, n) && (key == a || key == b) && Scene(cfg, a, b, s, busy, waiting + 1) && t !in busy
    requires Reachable(cfg, served) && Only(s, served, t, c) && served.threads[t] == Stamped(key, c)
    requires c in served.containers && served.containers[c].memory == cfg.memoryOf(key)
    ensures Scene(cfg, a, b, after, busy, waiting) && after.freeIps == served.freeIps
    ensures Stock(after, a, b) == Stock(s, a, b) + 1
    ensures forall u :: u in s.threads && u != t ==> u in after.threads && after.threads[u] == s.threads[u]
  {
    hide Reachable, Times, Popped;
    var m := cfg.memoryOf(a);
    TimesMore(|busy| + waiting, m);
    TimesMore(Stock(s, a, b), m);
    IdleIsSmall(cfg, s);
    CountersAreSmall(cfg, s);
    var p;
    after, p := Returns(cfg, served, t, key, c);
  }

  lemma IdleIsSmall(cfg: Config, s: State)
    requires Sensible(cfg) && Reachable(cfg, s)
    ensures s.idlesMemory <= 2 * cfg.maxMemory
  {
    hide OfThreads, Total, Reachable;
    MemorySafety(cfg, s);
  }

  lemma CountersAreSmall(cfg: Config, s: State)
    requires Sensible(cfg) && Reachable(cfg, s)
    ensures s.counter <= s.held <= cfg.maxMemory < U64
  {
    hide OfThreads, Total, Reachable;
    MemorySafety(cfg, s);
  }

  lemma WithoutOne(busy: set<nat>, t: nat)
    requires t in busy
    ensures |busy - {t}| == |busy| - 1
  {
  }

  /** A caller with a warm container comes back. */
  lemma WarmComesBack(cfg: Config, a: WarmKey, b: WarmKey, n: nat, s: State, busy: set<nat>, t: nat) returns (after: State)
    requires Fitting(cfg, a, b, n) && Scene(cfg, a, b, s, busy, 0) && t in busy
    ensures Scene(cfg, a, b, after, busy - {t}, 0) && after.freeIps == s.freeIps && Stock(after, a, b) == Stock(s, a, b) + 1
  {
    hide Reachable, Times, Only, Stock, Sensible;
    var key, c := s.threads[t].key, s.threads[t].c;
    WithoutOne(busy, t);
    var served := ServesWarm(cfg, s, t, key, c, 0);
    after := ComesBack(cfg, a, b, n, s, served, busy - {t}, 0, t, key, c);
  }

  lemma {:induction false} AllComeBack(cfg: Config, a: WarmKey, b: WarmKey, n: nat, s: State, busy: set<nat>) returns (after: State)
    requires Fitting(cfg, a, b, n) && Scene(cfg, a, b, s, busy, 0)
    ensures Scene(cfg, a, b, after, {}, 0) && after.freeIps == s.freeIps && Stock(after, a, b) == Stock(s, a, b) + |busy|
    decreases |busy|
  {
    hide Fitting, Scene, Stock;
    if busy == {} {
      after := s;
    } else {
      var t :| t in busy;
      WithoutOne(busy, t);
      var next := WarmComesBack(cfg, a, b, n, s, busy, t);
      after := AllComeBack(cfg, a, b, n, next, busy - {t});
    }
  }

  /** A caller that makes space creates its container, uses it and comes back. */
  lemma ColdComesBack(cfg: Config, a: WarmKey, b: WarmKey, n: nat, s: State, busy: set<nat>, u: nat) returns (after: State)
    requires Fitting(cfg, a, b, n) && Scene(cfg, a, b, s, busy, 1) && u !in busy && s.freeIps != []
    requires u in s.threads && s.threads[u] == MakingSpace(a, [])
    ensures Scene(cfg, a, b, after, busy, 0) && after.freeIps == s.freeIps[1..] && Stock(after, a, b) == Stock(s, a, b) + 1
  {
    hide Reachable, Times, Only, Stock, Sensible;
    var c := Unused(s.containers.Keys);
    var served := Serves(cfg, s, u, a, c, 0);
    after := ComesBack(cfg, a, b, n, s, served, busy, 0, u, a, c);
  }

  // ---------------------------------------------------------------- the climb

  /** One round: with a caller waiting from the start, one container more ends up idle. */
  lemma Round(cfg: Config, a: WarmKey, b: WarmKey, n: nat, s: State) returns (after: State)
    requires Fitting(cfg, a, b, n) && Scene(cfg, a, b, s, {}, 0) && |ListOf(s.idles, a)| < n && Stock(s, a, b) <= 2 * n - 2
    requires s.freeIps != []
    ensures Scene(cfg, a, b, after, {}, 0) && after.freeIps == s.freeIps[1..] && Stock(after, a, b) == Stock(s, a, b) + 1
  {
    hide Fitting, Scene, Stock, ListOf;
    var peak, u, busy := Peaks(cfg, a, b, n, s);
    var mid := ColdComesBack(cfg, a, b, n, peak, busy, u);
    after := AllComeBack(cfg, a, b, n, mid, busy);
  }

  lemma Swapped(cfg: Config, a: WarmKey, b: WarmKey, n: nat, s: State, busy: set<nat>, waiting: nat)
    requires Fitting(cfg, a, b, n) && Scene(cfg, a, b, s, busy, waiting)
    ensures Fitting(cfg, b, a, n) && Scene(cfg, b, a, s, busy, waiting) && Stock(s, a, b) == Stock(s, b, a)
  {
    hide Reachable, Times, ListOf;
  }

  lemma NothingYet(cfg: Config, a: WarmKey, b: WarmKey, n: nat) returns (s: State)
    requires Fitting(cfg, a, b, n)
    ensures Scene(cfg, a, b, s, {}, 0) && Stock(s, a, b) == 0 && s.freeIps == cfg.ips
  {
    hide Reachable, Initial;
    InitialIsReachable(cfg);
    s := Initial(cfg);
  }

  /** Round by round, up to one container less than twice what the limit is for can be idle. */
  lemma {:induction false} Climbs(cfg: Config, a: WarmKey, b: WarmKey, n: nat, x: nat) returns (s: State)
    requires Fitting(cfg, a, b, n) && x <= 2 * n - 1 && x <= |cfg.ips|
    ensures Scene(cfg, a, b, s, {}, 0) && Stock(s, a, b) == x && |s.freeIps| == |cfg.ips| - x
    decreases x
  {
    hide Fitting, Scene, ListOf;
    if x == 0 {
      s := NothingYet(cfg, a, b, n);
    } else {
      var below := Climbs(cfg, a, b, n, x - 1);
      Swapped(cfg, a, b, n, below, {}, 0);
      if |ListOf(below.idles, a)| < n {
        s := Round(cfg, a, b, n, below);
      } else {
        s := Round(cfg, b, a, n, below);
        Swapped(cfg, b, a, n, s, {}, 0);
      }
    }
  }

  lemma {:induction false} BusyAreInUse(cfg: Config, threads: map<nat, Pc>, busy: set<nat>, m: nat)
    requires forall t :: t in busy ==> t in threads && Share(cfg, Reserved, threads[t]) == m
    ensures Times(|busy|, m) <= OfThreads(cfg, Reserved, threads)
    decreases |busy|
  {
    hide Share, Times;
    if busy == {} {
      TimesMore(0, m);
    } else {
      var t :| t in busy;
      WithoutOne(busy, t);
      TimesMore(|busy| - 1, m);
      ThreadMoves(cfg, threads, t, Done);
      NothingWhenDone(cfg);
      BusyAreInUse(cfg, threads[t := Done], busy - {t}, m);
    }
  }

  lemma NothingWhenDone(cfg: Config)
    ensures Share(cfg, Reserved, Done) == 0
  {
  }

  lemma PeakIsHigh(cfg: Config, a: WarmKey, b: WarmKey, n: nat, s: State, busy: set<nat>, u: nat)
    requires Fitting(cfg, a, b, n) && Scene(cfg, a, b, s, busy, 1) && u !in busy
    requires u in s.threads && s.threads[u] == MakingSpace(a, []) && |busy| + 1 == n && Stock(s, a, b) == n - 1
    ensures Footprint(cfg, s) + cfg.memoryOf(a) >= 2 * cfg.maxMemory
  {
    hide Reachable, Times, Stock, Share, OfThreads, Sensible;
    var m := cfg.memoryOf(a);
    forall t | t in busy + {u} ensures t in s.threads && Share(cfg, Reserved, s.threads[t]) == m {
      WorkReserves(cfg, s.threads[t]);
    }
    BusyAreInUse(cfg, s.threads, busy + {u}, m);
    TimesMore(n - 1, m);
  }

  lemma WorkReserves(cfg: Config, pc: Pc)
    ensures pc.WarmPopped? || pc.MakingSpace? ==> Share(cfg, Reserved, pc) == cfg.memoryOf(pc.key)
  {
  }

  /** For every configuration with two functions of a size that divides the limit, there is a run to
      idle memory and memory in use of twice the limit less one request. */
  lemma TwiceTheLimitIsApproached(cfg: Config, a: WarmKey, b: WarmKey, n: nat) returns (s: State)
    requires Fitting(cfg, a, b, n) && 0 < n && 2 * n - 2 <= |cfg.ips|
    ensures Reachable(cfg, s) && Footprint(cfg, s) + cfg.memoryOf(a) >= 2 * cfg.maxMemory
  {
    hide Fitting, Footprint, ListOf, Reachable, Times;
    var rest := Climbs(cfg, a, b, n, 2 * n - 2);
    Swapped(cfg, a, b, n, rest, {}, 0);
    var u, busy;
    if |ListOf(rest.idles, a)| < n {
      s, u, busy := Peaks(cfg, a, b, n, rest);
      PeakIsHigh(cfg, a, b, n, s, busy, u);
    } else {
      s, u, busy := Peaks(cfg, b, a, n, rest);
      PeakIsHigh(cfg, b, a, n, s, busy, u);
      SameSize(cfg, a, b, n);
    }
  }

  lemma SameSize(cfg: Config, a: WarmKey, b: WarmKey, n: nat)
    requires Fitting(cfg, a, b, n)
    ensures cfg.memoryOf(a) == cfg.memoryOf(b) && Sensible(cfg)
  {
  }

  /** The exact bound: no reachable state goes beyond twice the limit less the smallest request, and some
      state reaches it. */
  lemma BoundIsExact(cfg: Config, a: WarmKey, b: WarmKey, n: nat)
    requires Fitting(cfg, a, b, n) && 0 < n && 2 * n - 2 <= |cfg.ips|
    requires 0 < cfg.memoryOf(a) && forall k :: cfg.memoryOf(a) <= cfg.memoryOf(k)
    ensures forall s :: Reachable(cfg, s) ==> Footprint(cfg, s) <= 2 * cfg.maxMemory - cfg.memoryOf(a)
    ensures exists s :: Reachable(cfg, s) && Footprint(cfg, s) == 2 * cfg.maxMemory - cfg.memoryOf(a)
  {
    hide Footprint, Reachable, Times;
    var m := cfg.memoryOf(a);
    TimesGrow(1, n, m);
    TimesMore(0, m);
    forall s | Reachable(cfg, s) ensures Footprint(cfg, s) <= 2 * cfg.maxMemory - m {
      FootprintIsBounded(cfg, m, s);
    }
    var s := TwiceTheLimitIsApproached(cfg, a, b, n);
  }

  // ---------------------------------------------------------------- the smallest example

  /** Two units of memory, and functions that need one each. */
  function Small(): Config {
    Config(2, (k: WarmKey) => 1, (k: WarmKey) => "k", {"k"}, map[], ["a", "b"])
  }

  function NamedKey(namespace: string): WarmKey { WarmKey(namespace, FunctionMeta("", "", "", "", "")) }

  /** The limit is not kept step by step: a caller takes its snapshot, another one takes a warm
      container, and the first finds room that is no longer there. */
  lemma CapCanBeExceeded() returns (s: State)
    ensures Sensible(Small()) && Reachable(Small(), s) && Footprint(Small(), s) > Small().maxMemory
  {
    hide Reachable, Footprint;
    var a, b := NamedKey("a"), NamedKey("b");
    assert a.namespace[0] != b.namespace[0];
    s := TwiceTheLimitIsApproached(Small(), a, b, 2);
  }
}
