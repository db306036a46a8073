/** A run of the container lifecycle to a state that one would not expect: an idle list out of order. */
module LifecycleRuns {
  import opened Common
  import opened IdleLists
  import opened Lifecycle
  import opened LifecycleCalls

  /** A function of which two containers fit the limit. */
  predicate FitsTwice(cfg: Config, key: WarmKey) {
    Sensible(cfg) && 2 * cfg.memoryOf(key) <= cfg.maxMemory && cfg.kindOf(key) in cfg.kinds && |cfg.ips| >= 2
  }

  /** A caller that finds room for a new container gets up to returning it. */
  lemma ColdCall(cfg: Config, key: WarmKey, s: State, t: nat, c: nat, now: int) returns (after: State)
    requires FitsTwice(cfg, key) && Reachable(cfg, s) && t !in s.threads && c !in s.containers
    requires s.held == s.counter <= cfg.memoryOf(key) && !s.idlesLocked && s.prewarmed == map[] && s.freeIps != []
    requires s.idles == map[] && s.idlesMemory == 0
    ensures Reachable(cfg, after)
    ensures after.held == after.counter == s.counter + cfg.memoryOf(key) && !after.idlesLocked && after.prewarmed == map[]
    ensures after.idles == map[] && after.idlesMemory == 0 && after.freeIps == s.freeIps[1..]
    ensures after.threads.Keys == s.threads.Keys + {t} && after.threads[t] == Stamped(key, c)
    ensures forall u :: u in s.threads ==> after.threads[u] == s.threads[u]
    ensures after.containers.Keys == s.containers.Keys + {c}
    ensures after.containers[c].memory == cfg.memoryOf(key) && after.containers[c].lastUsed == now
    ensures forall d :: d in s.containers ==> after.containers[d] == s.containers[d]
  {
    hide Reachable, Only, ListOf, Goto;
    GotoFields();
    var s1 := Enters(cfg, s, t, key);
    NothingListed(key);
    var s2 := FindsNothing(cfg, s1, t, key, s.counter + cfg.memoryOf(key));
    after := Serves(cfg, s2, t, key, c, now);
    OnlyMeans(s2, after, t, c);
  }

  lemma NothingListed(key: WarmKey)
    ensures ListOf(map[], key) == []
  {
  }

  /** Two callers of one function at once both create a container and stamp it. */
  lemma TwoCallers(cfg: Config, key: WarmKey, early: int, later: int) returns (s: State)
    requires FitsTwice(cfg, key)
    ensures Reachable(cfg, s) && !s.idlesLocked && s.idlesMemory == 0 && s.idles == map[]
    ensures 3 in s.threads && s.threads[3] == Stamped(key, 0) && 4 in s.threads && s.threads[4] == Stamped(key, 1)
    ensures s.containers.Keys == {0, 1}
    ensures s.containers[0].memory == s.containers[1].memory == cfg.memoryOf(key)
    ensures s.containers[0].lastUsed == early && s.containers[1].lastUsed == later
  {
    hide Reachable, Initial;
    InitialIsReachable(cfg);
    var one := ColdCall(cfg, key, Initial(cfg), 3, 0, early);
    s := ColdCall(cfg, key, one, 4, 1, later);
  }

  /** Idle lists can get out of order: of two callers of one function the one that stamped its
      container first files it last. The reaper, which stops at the first container that is young
      enough, then leaves the older one behind. */
  lemma ListsCanGetOutOfOrder(cfg: Config, key: WarmKey, early: int, later: int) returns (s: State, young: Pooled, late: Pooled)
    requires FitsTwice(cfg, key) && early < later
    ensures Reachable(cfg, s)
    ensures s.idles == map[key := [young, late]] && young.lastUsed == later && late.lastUsed == early
    ensures !Ordered(s.idles)
    ensures Reaps(s.idles, early, [key], [], s.idles)
  {
    hide Reachable, Ordered, Reaps;
    var a := TwoCallers(cfg, key, early, later);
    var b;
    b, young := PutsBack(cfg, a, 4, key, 1);
    s, late := PutsBack(cfg, b, 3, key, 0);
    assert [] + [young] == [young] && [young] + [late] == [young, late];
    assert s.idles == map[key := [young, late]];
    MissesTheOld(s.idles, key, young, late);
  }

  lemma MissesTheOld(idles: Idles, key: WarmKey, young: Pooled, late: Pooled)
    requires idles == map[key := [young, late]] && late.lastUsed < young.lastUsed
    ensures !Ordered(idles) && Reaps(idles, late.lastUsed, [key], [], idles)
  {
    var l, cutoff := idles[key], late.lastUsed;
    assert l[0].lastUsed > l[1].lastUsed;
    var none: seq<Pooled> := [];
    assert OldPrefix(l, cutoff) == 0 && l[0..] == l;
    assert idles[key := l] == idles;
    assert Reaps(idles, cutoff, [key][1..], none[0..], idles);
  }
}
