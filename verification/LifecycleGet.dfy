/** What obtaining a container comes to when nobody disturbs it: a run of one caller, from any state
    the pool can be in, does what `Get` does in one piece. */
module LifecycleGet {
  import opened Common
  import opened IdleLists
  import opened Lifecycle
  import opened LifecycleInvariant
  import opened LifecycleSteps
  import opened LifecycleListSteps
  import opened LifecycleTheorems
  import Cap = LifecycleCap
  import Client

  // ---------------------------------------------------------------- which step comes next

  /** Where a thread must stand to take a step. */
  predicate Suits(pc: Pc, step: Step) {
    match step
    case Arrive(_, _) => false
    case Acquire(_) => pc.Entering?
    case CancelAcquire(_) => pc.Entering?
    case AddCounter(_) => pc.Acquired?
    case LockedGet(_, _, _) => pc.Counting?
    case UnpauseWarm(_, _, _) => pc.WarmPopped?
    case WarmFirewall(_, _, _) => pc.WarmAwake?
    case PushDoomed(_) => pc.MakingSpace? && pc.doomed != []
    case LookPrewarm(_) => pc.MakingSpace? && pc.doomed == []
    case Poke(_) => pc.PrewarmTaken?
    case NewFirewall(_, _, _) => pc.PrewarmPoked? || pc.ColdCreated?
    case AcquireIp(_) => pc.NeedIp?
    case DockerCreate(_, _, _) => pc.HasIp?
    case BringUp(_, _) => pc.BringingUp?
    case ClientOp(_, _, _) => pc.Using?
    case LockedPut(_) => pc.Stamped?
    case SubCounter(_) => pc.Settling?
    case ReleaseSemaphore(_) => pc.Settled?
    case TakeQueued(_) => pc.DeleterIdle?
    case LockedReap(_, _, _, _, _) => pc == Reaping([])
    case TakeReaped(_) => pc.Reaping? && pc.doomed != []
    case UnpauseDoomed(_) => pc.Unpausing?
    case Remove(_, _, _) => pc.Removing?
    case ReleaseIp(_) => pc.Releasing?
    case ReadPoke(_) => pc.PrewarmIdle?
    case Plan(_) => pc.Planning?
    case NextCreate(_, _) => pc.Creating?
    case AddPrewarmed(_) => pc.PrewarmReady?
    case FinishPlan(_) => pc.Creating?
    case RetryPoke(_) => pc.PrewarmFailed?
  }

  lemma PrewarmingSuits(cfg: Config, s: State, step: Step)
    requires step.t in s.threads && ApplyPrewarming(cfg, s, step).Some?
    ensures Suits(s.threads[step.t], step)
  {
    hide Goto, Missing, PrewarmList;
  }

  lemma ListsSuit(cfg: Config, s: State, step: Step)
    requires step.t in s.threads && ApplyLists(cfg, s, step).Some?
    ensures Suits(s.threads[step.t], step)
  {
    hide Goto, Evicts, Fits, Reaps, Enumerates, Ids, Memory, SubU64, AddU64, ListOf;
  }

  lemma LifetimesSuit(cfg: Config, s: State, step: Step)
    requires step.t in s.threads && ApplyLifetimes(cfg, s, step).Some?
    ensures Suits(s.threads[step.t], step)
  {
    hide Goto, Change, Resume, CreateFailed, KindFor, MemoryFor;
  }

  lemma CallersSuit(cfg: Config, s: State, step: Step)
    requires step.t in s.threads && !step.Arrive? && ApplyCallers(cfg, s, step).Some?
    ensures Suits(s.threads[step.t], step)
  {
    hide Goto, Change, Used, AfterOp;
  }

  /** Every step is taken where it belongs. */
  lemma StepSuits(cfg: Config, s: State, step: Step)
    requires step.t in s.threads && Apply(cfg, s, step).Some?
    ensures Suits(s.threads[step.t], step)
  {
    hide Suits, ApplyPrewarming, ApplyLists, ApplyLifetimes, ApplyCallers;
    if OnCounters(step) { CountersSuit(cfg, s, step); }
    else if OnPrewarming(step) { PrewarmingSuits(cfg, s, step); }
    else if OnLists(step) { ListsSuit(cfg, s, step); }
    else if OnLifetimes(step) { LifetimesSuit(cfg, s, step); }
    else { CallersSuit(cfg, s, step); }
  }

  lemma CountersSuit(cfg: Config, s: State, step: Step)
    requires step.t in s.threads && ApplyCounters(cfg, s, step).Some?
    ensures Suits(s.threads[step.t], step)
  {
    hide Goto, AddU64, NegU64;
  }

  // ---------------------------------------------------------------- what each step of a Get does

  lemma AcquireDoes(cfg: Config, s: State, t: nat, after: State)
    requires t in s.threads && s.threads[t].Entering? && Apply(cfg, s, Acquire(t)) == Some(after)
    ensures var key := s.threads[t].key; after == Goto(s.(held := s.held + cfg.memoryOf(key)), t, Acquired(key))
  {
    hide Goto;
  }

  lemma AddCounterDoes(cfg: Config, s: State, t: nat, after: State)
    requires Sensible(cfg) && MemoryInv(cfg, s)
    requires t in s.threads && s.threads[t].Acquired? && Apply(cfg, s, AddCounter(t)) == Some(after)
    ensures var key := s.threads[t].key;
      var sum := s.counter + cfg.memoryOf(key); after == Goto(s.(counter := sum), t, Counting(key, sum))
  {
    hide Goto, MemoryInv, AddU64, Share;
    AdmittedFits(cfg, s, t);
    AddExact(s.counter, cfg.memoryOf(s.threads[t].key));
  }

  lemma AdmittedFits(cfg: Config, s: State, t: nat)
    requires Sensible(cfg) && MemoryInv(cfg, s) && t in s.threads && s.threads[t].Acquired?
    ensures s.counter + cfg.memoryOf(s.threads[t].key) < U64
  {
    ChargeShapes(cfg, s.threads[t]);
    CountersAreBounded(cfg, s, t);
  }

  /** A warm container is taken from the end of the list. */
  lemma PopDoes(cfg: Config, s: State, t: nat, evicted: seq<Pooled>, rest: Idles, after: State)
    requires t in s.threads && s.threads[t].Counting? && Apply(cfg, s, LockedGet(t, evicted, rest)) == Some(after)
    requires ListOf(s.idles, s.threads[t].key) != []
    ensures var key := s.threads[t].key;
      var l := s.idles[key];
      after == Goto(s.(idles := s.idles[key := l[..|l| - 1]], idlesMemory := after.idlesMemory), t, WarmPopped(key, l[|l| - 1].id))
  {
    hide Evicts, Fits, SubU64, Ids, Memory;
  }

  /** Otherwise room is made. */
  lemma MakeSpaceDoes(cfg: Config, s: State, t: nat, evicted: seq<Pooled>, rest: Idles, after: State)
    requires Sensible(cfg) && Inv(cfg, s)
    requires t in s.threads && s.threads[t].Counting? && Apply(cfg, s, LockedGet(t, evicted, rest)) == Some(after)
    requires ListOf(s.idles, s.threads[t].key) == []
    ensures MakesRoom(s.idles, s.threads[t].snapshot, cfg.maxMemory, evicted, after.idles)
    ensures var key := s.threads[t].key;
      after == Goto(s.(idles := after.idles, idlesMemory := after.idlesMemory), t, MakingSpace(key, Ids(evicted)))
  {
    hide Inv, Apply, MakesRoom, Goto;
    var step := LockedGet(t, evicted, rest);
    Cap.GuardAllowsIff(cfg, s, t, evicted, rest);
    Cap.SpaceIsMade(cfg, s, step, after);
    SpaceStates(cfg, s, t, evicted, rest, after);
  }

  lemma SpaceStates(cfg: Config, s: State, t: nat, evicted: seq<Pooled>, rest: Idles, after: State)
    requires t in s.threads && s.threads[t].Counting? && Apply(cfg, s, LockedGet(t, evicted, rest)) == Some(after)
    requires ListOf(s.idles, s.threads[t].key) == []
    requires after.threads == s.threads[t := MakingSpace(s.threads[t].key, Ids(evicted))]
    ensures after == Goto(s.(idles := rest, idlesMemory := after.idlesMemory), t, MakingSpace(s.threads[t].key, Ids(evicted)))
    ensures after.idles == rest
  {
    hide Evicts, Fits, SubU64, Ids, Memory, ListOf;
    assert after.threads[t] == MakingSpace(s.threads[t].key, Ids(evicted));
  }

  lemma PushDoes(cfg: Config, s: State, t: nat, after: State)
    requires t in s.threads && s.threads[t].MakingSpace? && s.threads[t].doomed != []
    requires Apply(cfg, s, PushDoomed(t)) == Some(after)
    ensures var pc := s.threads[t];
      after == Goto(s.(queue := s.queue + [pc.doomed[0]]), t, MakingSpace(pc.key, pc.doomed[1..]))
  {
    hide Goto;
  }

  lemma LookDoes(cfg: Config, s: State, t: nat, after: State)
    requires t in s.threads && s.threads[t].MakingSpace? && Apply(cfg, s, LookPrewarm(t)) == Some(after)
    ensures var key := s.threads[t].key;
      var pk := PrewarmKey(cfg.kindOf(key), cfg.memoryOf(key));
      if PrewarmList(s.prewarmed, pk) != [] then
        after == Goto(s.(prewarmed := s.prewarmed[pk := s.prewarmed[pk][1..]]), t, PrewarmTaken(key, s.prewarmed[pk][0]))
      else after == Goto(s, t, NeedIp(ForGet(key)))
  {
    hide Goto;
  }

  lemma PokeDoes(cfg: Config, s: State, t: nat, after: State)
    requires t in s.threads && s.threads[t].PrewarmTaken? && Apply(cfg, s, Poke(t)) == Some(after)
    ensures after == Goto(s.(poke := true), t, PrewarmPoked(s.threads[t].key, s.threads[t].c))
  {
    hide Goto;
  }

  lemma UnpauseDoes(cfg: Config, s: State, t: nat, ok: bool, known: bool, after: State)
    requires t in s.threads && s.threads[t].WarmPopped? && Apply(cfg, s, UnpauseWarm(t, ok, known)) == Some(after)
    ensures var key, c := s.threads[t].key, s.threads[t].c;
      && c in s.containers && s.containers[c].pauses > 0
      && var y := s.containers[c].(pauses := s.containers[c].pauses - 1);
         after == if ok then Goto(Change(s, c, y), t, WarmAwake(key, c))
                  else if known then Goto(Change(s, c, y), t, Removing(c, FailGet(key)))
                  else Goto(Change(s, c, y.(fate := Lost)), t, Settling(cfg.memoryOf(key)))
  {
    hide Goto, Change;
  }

  lemma WarmFirewallDoes(cfg: Config, s: State, t: nat, needed: bool, ok: bool, after: State)
    requires t in s.threads && s.threads[t].WarmAwake? && Apply(cfg, s, WarmFirewall(t, needed, ok)) == Some(after)
    ensures var key, c := s.threads[t].key, s.threads[t].c;
      && c in s.containers
      && var x := s.containers[c];
         if ok || needed == x.firewall then after == Goto(Change(s, c, x.(firewall := needed)), t, Using(key, c, Client.Ready))
         else after == Goto(s, t, Removing(c, FailGet(key)))
  {
    hide Goto;
    var c := s.threads[t].c;
    assert c in s.containers && s.containers[c].firewall == needed ==> Change(s, c, s.containers[c]) == s by {
      if c in s.containers { assert s.containers[c := s.containers[c]] == s.containers; }
    }
  }

  lemma NewFirewallDoes(cfg: Config, s: State, t: nat, needed: bool, ok: bool, after: State)
    requires t in s.threads && (s.threads[t].PrewarmPoked? || s.threads[t].ColdCreated?)
    requires Apply(cfg, s, NewFirewall(t, needed, ok)) == Some(after)
    ensures var key, c := s.threads[t].key, s.threads[t].c;
      && c in s.containers
      && after == if ok || !needed
           then Goto(Change(s, c, s.containers[c].(firewall := needed, boundTo := Some(key))), t, Using(key, c, Client.Fresh))
           else Goto(s, t, Removing(c, FailGet(key)))
  {
    hide Goto, Change;
  }

  lemma AcquireIpDoes(cfg: Config, s: State, t: nat, key: WarmKey, after: State)
    requires t in s.threads && s.threads[t] == NeedIp(ForGet(key)) && Apply(cfg, s, AcquireIp(t)) == Some(after)
    ensures if cfg.kindOf(key) in cfg.kinds && s.freeIps != []
      then after == Goto(s.(freeIps := s.freeIps[1..]), t, HasIp(ForGet(key), s.freeIps[0]))
      else after == Goto(s, t, Settling(cfg.memoryOf(key)))
  {
    hide Goto;
  }

  lemma CreateDoes(cfg: Config, s: State, t: nat, key: WarmKey, c: nat, ok: bool, after: State)
    requires t in s.threads && s.threads[t].HasIp? && s.threads[t].purpose == ForGet(key)
    requires Apply(cfg, s, DockerCreate(t, c, ok)) == Some(after)
    ensures var ip := s.threads[t].ip;
      if ok then
        && c !in s.containers
        && after == Goto(Change(s, c, Container(ip, cfg.memoryOf(key), None, 0, false, 0, [], Alive)), t, BringingUp(ForGet(key), c))
      else after == Goto(s.(freeIps := s.freeIps + [ip]), t, Settling(cfg.memoryOf(key)))
  {
    hide Goto, Change;
  }

  lemma BringUpDoes(cfg: Config, s: State, t: nat, key: WarmKey, ok: bool, after: State)
    requires t in s.threads && s.threads[t].BringingUp? && s.threads[t].purpose == ForGet(key)
    requires Apply(cfg, s, BringUp(t, ok)) == Some(after)
    ensures var c := s.threads[t].c;
      after == Goto(s, t, if ok then ColdCreated(key, c) else Removing(c, FailCreate(ForGet(key))))
  {
    hide Goto;
  }

  // ---------------------------------------------------------------- where an undisturbed caller can be

  /** Admitted and counted. */
  function Charged(cfg: Config, s0: State, key: WarmKey): State {
    s0.(held := s0.held + cfg.memoryOf(key), counter := s0.counter + cfg.memoryOf(key))
  }

  /** Up to the locked section only the figures change. */
  predicate Before(cfg: Config, s0: State, key: WarmKey, t: nat, s: State) {
    && t in s.threads
    && match s.threads[t]
       case Entering(k) => k == key && s == Goto(s0, t, Entering(key))
       case Acquired(k) => k == key && s == Goto(s0.(held := s0.held + cfg.memoryOf(key)), t, Acquired(key))
       case Counting(k, snapshot) =>
         k == key && snapshot == s0.counter + cfg.memoryOf(key) && s == Goto(Charged(cfg, s0, key), t, Counting(key, snapshot))
       case _ => false
  }

  /** With the last idle container of the key taken off its list. */
  function Popped(cfg: Config, s0: State, key: WarmKey, s: State): State {
    var l := ListOf(s0.idles, key);
    Charged(cfg, s0, key).(idles := s0.idles[key := if l == [] then l else l[..|l| - 1]], idlesMemory := s.idlesMemory)
  }

  function Awake(s0: State, c: nat): Container
    requires Paused(s0, c)
  {
    s0.containers[c].(pauses := s0.containers[c].pauses - 1)
  }

  predicate Paused(s0: State, c: nat) { c in s0.containers && s0.containers[c].pauses > 0 }

  /** With a warm container in hand, everything but the lists and this container is as it was. */
  predicate WithWarm(cfg: Config, s0: State, key: WarmKey, t: nat, s: State) {
    && t in s.threads && ListOf(s0.idles, key) != []
    && var b, c := Popped(cfg, s0, key, s), s0.idles[key][|s0.idles[key]| - 1].id;
       match s.threads[t]
       case WarmPopped(k, d) => k == key && d == c && s == Goto(b, t, WarmPopped(key, c))
       case WarmAwake(k, d) => k == key && d == c && Paused(s0, c) && s == Goto(Change(b, c, Awake(s0, c)), t, WarmAwake(key, c))
       case Using(k, d, stage) =>
         && k == key && d == c && Paused(s0, c) && c in s.containers
         && s == Goto(Change(b, c, Awake(s0, c).(firewall := s.containers[c].firewall)), t, Using(key, c, Client.Ready))
       case _ => false
  }

  /** Room is made by evicting `out`, of which `left` is not sent for deletion yet. */
  ghost predicate MadeRoom(cfg: Config, s0: State, key: WarmKey, s: State, out: seq<Pooled>, left: seq<nat>) {
    && ListOf(s0.idles, key) == []
    && MakesRoom(s0.idles, s0.counter + cfg.memoryOf(key), cfg.maxMemory, out, s.idles)
    && s.queue + left == s0.queue + Ids(out)
  }

  /** The lists after making room. */
  function Roomy(cfg: Config, s0: State, key: WarmKey, s: State): State {
    Charged(cfg, s0, key).(idles := s.idles, idlesMemory := s.idlesMemory, queue := s.queue)
  }

  predicate Sending(cfg: Config, s0: State, key: WarmKey, t: nat, s: State, left: seq<nat>) {
    t in s.threads && s.threads[t] == MakingSpace(key, left) && s == Goto(Roomy(cfg, s0, key, s), t, MakingSpace(key, left))
  }

  function Wanted(cfg: Config, key: WarmKey): PrewarmKey { PrewarmKey(cfg.kindOf(key), cfg.memoryOf(key)) }

  /** With the first prewarmed container taken off its list. */
  predicate WithPrewarmed(cfg: Config, s0: State, key: WarmKey, t: nat, s: State) {
    && t in s.threads && PrewarmList(s0.prewarmed, Wanted(cfg, key)) != []
    && var l := s0.prewarmed[Wanted(cfg, key)];
       var b, c := Roomy(cfg, s0, key, s).(prewarmed := s0.prewarmed[Wanted(cfg, key) := l[1..]]), l[0];
       match s.threads[t]
       case PrewarmTaken(k, d) => k == key && d == c && s == Goto(b, t, PrewarmTaken(key, c))
       case PrewarmPoked(k, d) => k == key && d == c && s == Goto(b.(poke := true), t, PrewarmPoked(key, c))
       case Using(k, d, stage) =>
         && k == key && d == c && c in s0.containers && c in s.containers
         && s == Goto(Change(b.(poke := true), c, s0.containers[c].(firewall := s.containers[c].firewall, boundTo := Some(key))),
                      t, Using(key, c, Client.Fresh))
       case _ => false
  }

  /** A container as it is created for a key. */
  function Created(cfg: Config, ip: string, key: WarmKey): Container {
    Container(ip, cfg.memoryOf(key), None, 0, false, 0, [], Alive)
  }

  predicate HadAddress(cfg: Config, s0: State, key: WarmKey) { cfg.kindOf(key) in cfg.kinds && s0.freeIps != [] }

  predicate WithNew(cfg: Config, s0: State, key: WarmKey, t: nat, s: State) {
    && t in s.threads && PrewarmList(s0.prewarmed, Wanted(cfg, key)) == []
    && var b := Roomy(cfg, s0, key, s);
       if s.threads[t].NeedIp? then s.threads[t].purpose == ForGet(key) && s == Goto(b, t, NeedIp(ForGet(key)))
       else
         && HadAddress(cfg, s0, key)
         && var b, ip := b.(freeIps := s0.freeIps[1..]), s0.freeIps[0];
         match s.threads[t]
         case HasIp(purpose, i) => purpose == ForGet(key) && i == ip && s == Goto(b, t, HasIp(ForGet(key), ip))
         case BringingUp(purpose, c) =>
           purpose == ForGet(key) && c !in s0.containers && s == Goto(Change(b, c, Created(cfg, ip, key)), t, BringingUp(ForGet(key), c))
         case ColdCreated(k, c) => k == key && c !in s0.containers && s == Goto(Change(b, c, Created(cfg, ip, key)), t, ColdCreated(key, c))
         case Using(k, c, stage) =>
           && k == key && c !in s0.containers && c in s.containers
           && s == Goto(Change(b, c, Created(cfg, ip, key).(firewall := s.containers[c].firewall, boundTo := Some(key))),
                        t, Using(key, c, Client.Fresh))
         case _ => false
  }

  /** What an attempt that fails leaves of the lists: whatever it took is gone. */
  ghost predicate ListsTaken(cfg: Config, s0: State, key: WarmKey, s: State, out: seq<Pooled>) {
    var l, pl := ListOf(s0.idles, key), PrewarmList(s0.prewarmed, Wanted(cfg, key));
    if l != [] then s.idles == s0.idles[key := l[..|l| - 1]] && s.queue == s0.queue && s.prewarmed == s0.prewarmed
    else MadeRoom(cfg, s0, key, s, out, []) && s.prewarmed == if pl == [] then s0.prewarmed else s0.prewarmed[Wanted(cfg, key) := pl[1..]]
  }

  /** The memory of a failed attempt is given back step by step. */
  predicate GivingBack(cfg: Config, s0: State, key: WarmKey, t: nat, s: State) {
    var m := cfg.memoryOf(key);
    && t in s.threads
    && match s.threads[t]
       case Removing(_, next) => Fails(next, key) && s.held == s0.held + m && s.counter == s0.counter + m
       case Releasing(_, next) => Fails(next, key) && s.held == s0.held + m && s.counter == s0.counter + m
       case Settling(memory) => memory == m && s.held == s0.held + m && s.counter == s0.counter + m
       case Settled(memory) => memory == m && s.held == s0.held + m && s.counter == s0.counter
       case Done => s.held == s0.held && s.counter == s0.counter
       case _ => false
  }

  predicate Fails(next: After, key: WarmKey) { next == FailGet(key) || next == FailCreate(ForGet(key)) }

  // ---------------------------------------------------------------- step by step

  lemma GotoAgain(s: State, t: nat, pc: Pc, next: Pc)
    ensures Goto(Goto(s, t, pc), t, next) == Goto(s, t, next)
  {
    assert s.threads[t := pc][t := next] == s.threads[t := next];
  }

  lemma GotoAt(s: State, t: nat, pc: Pc)
    ensures t in Goto(s, t, pc).threads && Goto(s, t, pc).threads[t] == pc
  {
  }

  lemma GotoKeeps(s: State, t: nat, pc: Pc)
    ensures var g := Goto(s, t, pc); t in g.threads && g.threads[t] == pc && SameLists(s, g)
    ensures var g := Goto(s, t, pc); g.idlesMemory == s.idlesMemory && g.containers == s.containers
  {
  }

  lemma ChangeKeeps(s: State, c: nat, x: Container)
    ensures var g := Change(s, c, x); SameLists(s, g) && g.idlesMemory == s.idlesMemory
    ensures var g := Change(s, c, x); c in g.containers && g.containers[c] == x
  {
  }

  lemma ChangeAgain(s: State, c: nat, x: Container, y: Container)
    ensures Change(Change(s, c, x), c, y) == Change(s, c, y)
  {
    assert s.containers[c := x][c := y] == s.containers[c := y];
  }

  /** A call of the attempt fails, or there is no address or runtime for it. */
  predicate Refused(cfg: Config, s0: State, key: WarmKey, step: Step) {
    match step
    case CancelAcquire(_) => true
    case UnpauseWarm(_, ok, _) => !ok
    case WarmFirewall(_, needed, ok) => !ok && needed != HadFirewall(s0, key)
    case NewFirewall(_, needed, ok) => needed && !ok
    case AcquireIp(_) => cfg.kindOf(key) !in cfg.kinds || s0.freeIps == []
    case DockerCreate(_, _, ok) => !ok
    case BringUp(_, ok) => !ok
    case _ => false
  }

  /** Whether the idle container that is taken has a firewall of its own. */
  predicate HadFirewall(s0: State, key: WarmKey) {
    var l := ListOf(s0.idles, key);
    l != [] && l[|l| - 1].id in s0.containers && s0.containers[l[|l| - 1].id].firewall
  }

  /** The firewall is as the last call wanted it. */
  predicate FirewallSet(s: State, t: nat, step: Step) {
    t in s.threads && s.threads[t].Using? && s.threads[t].c in s.containers ==>
      if s.threads[t].stage == Client.Ready then step.WarmFirewall? && s.containers[s.threads[t].c].firewall == step.needed
      else step.NewFirewall? && s.containers[s.threads[t].c].firewall == step.needed
  }

  lemma FromEntering(cfg: Config, s0: State, key: WarmKey, t: nat, s: State, step: Step, after: State)
    requires s == Goto(s0, t, Entering(key)) && step.t == t && Apply(cfg, s, step) == Some(after)
    ensures after == if Refused(cfg, s0, key, step) then Goto(s0, t, Done)
                     else Goto(s0.(held := s0.held + cfg.memoryOf(key)), t, Acquired(key))
  {
    hide Apply, Goto, Suits, Refused;
    GotoAt(s0, t, Entering(key));
    StepSuits(cfg, s, step);
    EnteringSuits(cfg, s0, key, step);
    if step.Acquire? {
      AcquireDoes(cfg, s, t, after);
      EnteringHeld(s0, t, key);
      GotoHeld(s0, s0.held + cfg.memoryOf(key), t, Entering(key), Acquired(key));
    } else {
      CancelDoes(cfg, s, t, after);
      GotoAgain(s0, t, Entering(key), Done);
    }
  }

  lemma EnteringSuits(cfg: Config, s0: State, key: WarmKey, step: Step)
    requires Suits(Entering(key), step)
    ensures step.Acquire? || step.CancelAcquire?
    ensures Refused(cfg, s0, key, step) <==> step.CancelAcquire?
  {
  }

  lemma EnteringHeld(s: State, t: nat, key: WarmKey)
    ensures Goto(s, t, Entering(key)).held == s.held
  {
  }

  lemma FromAcquired(cfg: Config, s0: State, key: WarmKey, t: nat, s: State, step: Step, after: State)
    requires Sensible(cfg) && MemoryInv(cfg, s) && s == Goto(s0.(held := s0.held + cfg.memoryOf(key)), t, Acquired(key))
    requires step.t == t && Apply(cfg, s, step) == Some(after)
    ensures !Refused(cfg, s0, key, step)
    ensures after == Goto(Charged(cfg, s0, key), t, Counting(key, s0.counter + cfg.memoryOf(key)))
  {
    hide Apply, MemoryInv, Sensible;
    StepSuits(cfg, s, step);
    AddCounterDoes(cfg, s, t, after);
    CountedState(cfg, s0, key, t);
  }

  lemma FromStart(cfg: Config, s0: State, key: WarmKey, t: nat, s: State, step: Step, after: State)
    requires Sensible(cfg) && Inv(cfg, s) && Before(cfg, s0, key, t, s) && !s.threads[t].Counting?
    requires step.t == t && Apply(cfg, s, step) == Some(after)
    ensures if Refused(cfg, s0, key, step) then after == Goto(s0, t, Done) else Before(cfg, s0, key, t, after)
  {
    hide Inv, MemoryInv, CensusInv, AddressInv, FactsInv, PrewarmInv, Apply, Refused, Charged, Sensible, Goto;
    InvParts(cfg, s);
    GotoAt(s0, t, Done);
    GotoAt(s0.(held := s0.held + cfg.memoryOf(key)), t, Acquired(key));
    GotoAt(Charged(cfg, s0, key), t, Counting(key, s0.counter + cfg.memoryOf(key)));
    if s.threads[t].Entering? { FromEntering(cfg, s0, key, t, s, step, after); }
    else { FromAcquired(cfg, s0, key, t, s, step, after); }
  }

  lemma CancelDoes(cfg: Config, s: State, t: nat, after: State)
    requires t in s.threads && s.threads[t].Entering? && Apply(cfg, s, CancelAcquire(t)) == Some(after)
    ensures after == Goto(s, t, Done)
  {
    hide Goto;
  }

  lemma GotoHeld(s: State, held: nat, t: nat, pc: Pc, next: Pc)
    ensures Goto(Goto(s, t, pc).(held := held), t, next) == Goto(s.(held := held), t, next)
  {
    GotoAgain(s.(held := held), t, pc, next);
  }

  lemma CountedState(cfg: Config, s0: State, key: WarmKey, t: nat)
    ensures var sum := s0.counter + cfg.memoryOf(key);
      Goto(Goto(s0.(held := s0.held + cfg.memoryOf(key)), t, Acquired(key)).(counter := sum), t, Counting(key, sum))
        == Goto(Charged(cfg, s0, key), t, Counting(key, sum))
  {
    GotoAgain(Charged(cfg, s0, key), t, Acquired(key), Counting(key, s0.counter + cfg.memoryOf(key)));
  }

  // The locked section.

  lemma CountingPops(cfg: Config, s0: State, key: WarmKey, t: nat, s: State, step: Step, after: State)
    requires s == Goto(Charged(cfg, s0, key), t, Counting(key, s0.counter + cfg.memoryOf(key))) && ListOf(s0.idles, key) != []
    requires step.LockedGet? && step.t == t && Apply(cfg, s, step) == Some(after)
    ensures WithWarm(cfg, s0, key, t, after) && after.threads[t].WarmPopped?
  {
    hide Apply;
    PopDoes(cfg, s, t, step.evicted, step.rest, after);
    var l := s0.idles[key];
    GotoAgain(Popped(cfg, s0, key, after), t, Counting(key, s0.counter + cfg.memoryOf(key)), WarmPopped(key, l[|l| - 1].id));
  }

  lemma CountingMakesRoom(cfg: Config, s0: State, key: WarmKey, t: nat, s: State, step: Step, after: State)
    requires Sensible(cfg) && Inv(cfg, s) && ListOf(s0.idles, key) == []
    requires s == Goto(Charged(cfg, s0, key), t, Counting(key, s0.counter + cfg.memoryOf(key)))
    requires step.LockedGet? && step.t == t && Apply(cfg, s, step) == Some(after)
    ensures MadeRoom(cfg, s0, key, after, step.evicted, Ids(step.evicted)) && Sending(cfg, s0, key, t, after, Ids(step.evicted))
  {
    hide Apply, Inv, Sensible, MakesRoom, Ids;
    MakeSpaceDoes(cfg, s, t, step.evicted, step.rest, after);
    GotoAgain(Roomy(cfg, s0, key, after), t, Counting(key, s0.counter + cfg.memoryOf(key)), MakingSpace(key, Ids(step.evicted)));
  }

  lemma ChangeGoto(b: State, t: nat, pc: Pc, c: nat, x: Container, next: Pc)
    ensures Goto(Change(Goto(b, t, pc), c, x), t, next) == Goto(Change(b, c, x), t, next)
  {
    GotoAgain(Change(b, c, x), t, pc, next);
  }

  lemma ChangeTwice(b: State, t: nat, pc: Pc, c: nat, x: Container, y: Container, next: Pc)
    ensures Goto(Change(Goto(Change(b, c, x), t, pc), c, y), t, next) == Goto(Change(b, c, y), t, next)
  {
    ChangeGoto(Change(b, c, x), t, pc, c, y, next);
    ChangeAgain(b, c, x, y);
  }

  // The steps between two places, whatever came before.

  lemma FromPopped(cfg: Config, b: State, key: WarmKey, t: nat, c: nat, s: State, step: Step, after: State)
    requires s == Goto(b, t, WarmPopped(key, c)) && step.t == t && Apply(cfg, s, step) == Some(after)
    ensures step.UnpauseWarm? && Paused(b, c)
    ensures after == if step.ok then Goto(Change(b, c, Awake(b, c)), t, WarmAwake(key, c))
                     else if step.stateKnown then Goto(Change(b, c, Awake(b, c)), t, Removing(c, FailGet(key)))
                     else Goto(Change(b, c, Awake(b, c).(fate := Lost)), t, Settling(cfg.memoryOf(key)))
  {
    hide Apply, Change;
    ChangeFields();
    StepSuits(cfg, s, step);
    UnpauseDoes(cfg, s, t, step.ok, step.stateKnown, after);
    if step.ok { ChangeGoto(b, t, WarmPopped(key, c), c, Awake(b, c), WarmAwake(key, c)); }
    else if step.stateKnown { ChangeGoto(b, t, WarmPopped(key, c), c, Awake(b, c), Removing(c, FailGet(key))); }
    else { ChangeGoto(b, t, WarmPopped(key, c), c, Awake(b, c).(fate := Lost), Settling(cfg.memoryOf(key))); }
  }

  lemma FromAwake(cfg: Config, b: State, key: WarmKey, t: nat, c: nat, x: Container, s: State, step: Step, after: State)
    requires s == Goto(Change(b, c, x), t, WarmAwake(key, c)) && step.t == t && Apply(cfg, s, step) == Some(after)
    ensures step.WarmFirewall?
    ensures after == if step.ok || step.needed == x.firewall then Goto(Change(b, c, x.(firewall := step.needed)), t, Using(key, c, Client.Ready))
                     else Goto(Change(b, c, x), t, Removing(c, FailGet(key)))
  {
    hide Apply;
    StepSuits(cfg, s, step);
    WarmFirewallDoes(cfg, s, t, step.needed, step.ok, after);
    ChangeTwice(b, t, WarmAwake(key, c), c, x, x.(firewall := step.needed), Using(key, c, Client.Ready));
    GotoAgain(Change(b, c, x), t, WarmAwake(key, c), Removing(c, FailGet(key)));
  }

  lemma FromSending(cfg: Config, b: State, key: WarmKey, t: nat, left: seq<nat>, s: State, step: Step, after: State)
    requires s == Goto(b, t, MakingSpace(key, left)) && left != [] && step.t == t && Apply(cfg, s, step) == Some(after)
    ensures step.PushDoomed? && after == Goto(b.(queue := b.queue + [left[0]]), t, MakingSpace(key, left[1..]))
  {
    hide Apply;
    StepSuits(cfg, s, step);
    PushDoes(cfg, s, t, after);
    GotoAgain(b.(queue := b.queue + [left[0]]), t, MakingSpace(key, left), MakingSpace(key, left[1..]));
  }

  lemma FromSent(cfg: Config, b: State, key: WarmKey, t: nat, s: State, step: Step, after: State)
    requires s == Goto(b, t, MakingSpace(key, [])) && step.t == t && Apply(cfg, s, step) == Some(after)
    ensures step.LookPrewarm?
    ensures var l := PrewarmList(b.prewarmed, Wanted(cfg, key));
      after == if l != [] then Goto(b.(prewarmed := b.prewarmed[Wanted(cfg, key) := l[1..]]), t, PrewarmTaken(key, l[0]))
               else Goto(b, t, NeedIp(ForGet(key)))
  {
    hide Apply;
    StepSuits(cfg, s, step);
    LookDoes(cfg, s, t, after);
    var l := PrewarmList(b.prewarmed, Wanted(cfg, key));
    GotoAgain(b, t, MakingSpace(key, []), NeedIp(ForGet(key)));
    if l != [] {
      GotoAgain(b.(prewarmed := b.prewarmed[Wanted(cfg, key) := l[1..]]), t, MakingSpace(key, []), PrewarmTaken(key, l[0]));
    }
  }

  lemma FromTaken(cfg: Config, b: State, key: WarmKey, t: nat, c: nat, s: State, step: Step, after: State)
    requires s == Goto(b, t, PrewarmTaken(key, c)) && step.t == t && Apply(cfg, s, step) == Some(after)
    ensures step.Poke? && after == Goto(b.(poke := true), t, PrewarmPoked(key, c))
  {
    hide Apply;
    StepSuits(cfg, s, step);
    PokeDoes(cfg, s, t, after);
    GotoAgain(b.(poke := true), t, PrewarmTaken(key, c), PrewarmPoked(key, c));
  }

  /** Setting up the firewall of a container that is new to the key. */
  lemma FromFresh(cfg: Config, b: State, key: WarmKey, t: nat, c: nat, pc: Pc, s: State, step: Step, after: State)
    requires pc == PrewarmPoked(key, c) || pc == ColdCreated(key, c)
    requires s == Goto(b, t, pc) && step.t == t && Apply(cfg, s, step) == Some(after)
    ensures step.NewFirewall? && c in b.containers
    ensures after == if step.ok || !step.needed
      then Goto(Change(b, c, b.containers[c].(firewall := step.needed, boundTo := Some(key))), t, Using(key, c, Client.Fresh))
      else Goto(b, t, Removing(c, FailGet(key)))
  {
    hide Apply;
    StepSuits(cfg, s, step);
    NewFirewallDoes(cfg, s, t, step.needed, step.ok, after);
    ChangeGoto(b, t, pc, c, b.containers[c].(firewall := step.needed, boundTo := Some(key)), Using(key, c, Client.Fresh));
    GotoAgain(b, t, pc, Removing(c, FailGet(key)));
  }

  lemma FromNeed(cfg: Config, b: State, key: WarmKey, t: nat, s: State, step: Step, after: State)
    requires s == Goto(b, t, NeedIp(ForGet(key))) && step.t == t && Apply(cfg, s, step) == Some(after)
    ensures step.AcquireIp?
    ensures after == if cfg.kindOf(key) in cfg.kinds && b.freeIps != []
      then Goto(b.(freeIps := b.freeIps[1..]), t, HasIp(ForGet(key), b.freeIps[0]))
      else Goto(b, t, Settling(cfg.memoryOf(key)))
  {
    hide Apply;
    StepSuits(cfg, s, step);
    AcquireIpDoes(cfg, s, t, key, after);
    GotoAgain(b, t, NeedIp(ForGet(key)), Settling(cfg.memoryOf(key)));
    if b.freeIps != [] {
      GotoAgain(b.(freeIps := b.freeIps[1..]), t, NeedIp(ForGet(key)), HasIp(ForGet(key), b.freeIps[0]));
    }
  }

  lemma FromAddress(cfg: Config, b: State, key: WarmKey, t: nat, ip: string, s: State, step: Step, after: State)
    requires s == Goto(b, t, HasIp(ForGet(key), ip)) && step.t == t && Apply(cfg, s, step) == Some(after)
    ensures step.DockerCreate? && (step.ok ==> step.c !in b.containers)
    ensures after == if step.ok then Goto(Change(b, step.c, Created(cfg, ip, key)), t, BringingUp(ForGet(key), step.c))
                     else Goto(b.(freeIps := b.freeIps + [ip]), t, Settling(cfg.memoryOf(key)))
  {
    hide Apply;
    StepSuits(cfg, s, step);
    CreateDoes(cfg, s, t, key, step.c, step.ok, after);
    ChangeGoto(b, t, HasIp(ForGet(key), ip), step.c, Created(cfg, ip, key), BringingUp(ForGet(key), step.c));
    GotoAgain(b.(freeIps := b.freeIps + [ip]), t, HasIp(ForGet(key), ip), Settling(cfg.memoryOf(key)));
  }

  lemma FromBringingUp(cfg: Config, b: State, key: WarmKey, t: nat, c: nat, s: State, step: Step, after: State)
    requires s == Goto(b, t, BringingUp(ForGet(key), c)) && step.t == t && Apply(cfg, s, step) == Some(after)
    ensures step.BringUp?
    ensures after == Goto(b, t, if step.ok then ColdCreated(key, c) else Removing(c, FailCreate(ForGet(key))))
  {
    hide Apply;
    StepSuits(cfg, s, step);
    BringUpDoes(cfg, s, t, key, step.ok, after);
    GotoAgain(b, t, BringingUp(ForGet(key), c), after.threads[t]);
  }

  // Giving back.

  /** A failing attempt does not touch the lists any more. */
  predicate SameLists(s: State, after: State) {
    after.idles == s.idles && after.queue == s.queue && after.prewarmed == s.prewarmed
  }

  lemma RemovingGivesBack(cfg: Config, s: State, t: nat, key: WarmKey, step: Step, after: State)
    requires t in s.threads && (s.threads[t].Removing? || s.threads[t].Releasing?) && Fails(s.threads[t].after, key)
    requires step.t == t && Apply(cfg, s, step) == Some(after)
    ensures SameLists(s, after) && after.held == s.held && after.counter == s.counter && t in after.threads
    ensures after.threads[t] == Settling(cfg.memoryOf(key))
         || (after.threads[t].Releasing? && after.threads[t].after == s.threads[t].after)
  {
    hide Apply, Goto, Change, Resume;
    GotoFields();
    ChangeFields();
    StepSuits(cfg, s, step);
    FailingSettles(cfg, s.threads[t].after, key);
    if step.Remove? { RemoveDoes(cfg, s, t, step.cleanupOk, step.dockerOk, after); } else { ReleaseDoes(cfg, s, t, after); }
  }

  lemma FailingSettles(cfg: Config, next: After, key: WarmKey)
    requires Fails(next, key)
    ensures Resume(cfg, next) == Settling(cfg.memoryOf(key))
  {
  }

  lemma RemoveDoes(cfg: Config, s: State, t: nat, cleanupOk: bool, dockerOk: bool, after: State)
    requires t in s.threads && s.threads[t].Removing? && Apply(cfg, s, Remove(t, cleanupOk, dockerOk)) == Some(after)
    ensures var c, next := s.threads[t].c, s.threads[t].after;
      && c in s.containers
      && after == if dockerOk && (cleanupOk || !s.containers[c].firewall) then Goto(s, t, Releasing(c, next))
                  else Goto(Change(s, c, s.containers[c].(fate := Lost)), t, Resume(cfg, next))
  {
    hide Goto, Change, Resume;
  }

  lemma ReleaseDoes(cfg: Config, s: State, t: nat, after: State)
    requires t in s.threads && s.threads[t].Releasing? && Apply(cfg, s, ReleaseIp(t)) == Some(after)
    ensures var c, next := s.threads[t].c, s.threads[t].after;
      && c in s.containers
      && after == Goto(Change(s.(freeIps := s.freeIps + [s.containers[c].ip]), c, s.containers[c].(fate := Gone)), t, Resume(cfg, next))
  {
    hide Goto, Change, Resume;
  }

  lemma SettlingGivesBack(cfg: Config, s: State, t: nat, step: Step, after: State)
    requires MemoryInv(cfg, s) && Sensible(cfg) && t in s.threads && s.threads[t].Settling?
    requires step.t == t && Apply(cfg, s, step) == Some(after)
    ensures SameLists(s, after) && after.held == s.held && after.counter == s.counter - s.threads[t].memory
    ensures t in after.threads && after.threads[t] == Settled(s.threads[t].memory)
  {
    hide Goto, MemoryInv, AddU64, NegU64, Share;
    GotoFields();
    StepSuits(cfg, s, step);
    SettlingIsCounted(cfg, s, t);
    AddNegU64(s.counter, s.threads[t].memory);
  }

  lemma SettlingIsCounted(cfg: Config, s: State, t: nat)
    requires MemoryInv(cfg, s) && Sensible(cfg) && t in s.threads && s.threads[t].Settling?
    ensures s.threads[t].memory <= s.counter < U64
  {
    ChargeShapes(cfg, s.threads[t]);
    CountersAreBounded(cfg, s, t);
  }

  lemma SettledGivesBack(cfg: Config, s: State, t: nat, step: Step, after: State)
    requires t in s.threads && s.threads[t].Settled? && step.t == t && Apply(cfg, s, step) == Some(after)
    ensures SameLists(s, after) && after.held == s.held - s.threads[t].memory && after.counter == s.counter
    ensures t in after.threads && after.threads[t] == Done
  {
    hide Goto;
    GotoFields();
    StepSuits(cfg, s, step);
  }

  lemma DoneIsDone(cfg: Config, s: State, step: Step)
    requires step.t in s.threads && s.threads[step.t].Done?
    ensures Apply(cfg, s, step).None?
  {
    hide Apply, Suits;
    DoneSuitsNothing(step);
    if Apply(cfg, s, step).Some? { StepSuits(cfg, s, step); }
  }

  lemma DoneSuitsNothing(step: Step)
    ensures !Suits(Done, step)
  {
  }

  // ---------------------------------------------------------------- an undisturbed attempt

  ghost predicate OnTrack(cfg: Config, s0: State, key: WarmKey, t: nat, s: State, out: seq<Pooled>) {
    || Before(cfg, s0, key, t, s)
    || WithWarm(cfg, s0, key, t, s)
    || (t in s.threads && s.threads[t].MakingSpace? && MadeRoom(cfg, s0, key, s, out, s.threads[t].doomed)
        && Sending(cfg, s0, key, t, s, s.threads[t].doomed))
    || (MadeRoom(cfg, s0, key, s, out, []) && WithPrewarmed(cfg, s0, key, t, s))
    || (MadeRoom(cfg, s0, key, s, out, []) && WithNew(cfg, s0, key, t, s))
  }

  ghost predicate OffTrack(cfg: Config, s0: State, key: WarmKey, t: nat, s: State, out: seq<Pooled>) {
    s == Goto(s0, t, Done) || (ListsTaken(cfg, s0, key, s, out) && GivingBack(cfg, s0, key, t, s))
  }

  /** A failing step that leaves the lists alone starts giving back. */
  lemma StartsGivingBack(cfg: Config, s0: State, key: WarmKey, t: nat, b: State, pc: Pc, out: seq<Pooled>)
    requires ListsTaken(cfg, s0, key, b, out)
    requires b.held == s0.held + cfg.memoryOf(key) && b.counter == s0.counter + cfg.memoryOf(key)
    requires (pc.Removing? && Fails(pc.after, key)) || pc == Settling(cfg.memoryOf(key))
    ensures OffTrack(cfg, s0, key, t, Goto(b, t, pc), out)
  {
    hide MakesRoom, Ids;
  }

  lemma AwakeIsWarm(cfg: Config, s0: State, key: WarmKey, t: nat, s: State, b: State, c: nat)
    requires ListOf(s0.idles, key) != [] && b == Popped(cfg, s0, key, s) && c == s0.idles[key][|s0.idles[key]| - 1].id && Paused(s0, c)
    ensures WithWarm(cfg, s0, key, t, Goto(Change(b, c, Awake(s0, c)), t, WarmAwake(key, c)))
  {
  }

  lemma UsedIsWarm(cfg: Config, s0: State, key: WarmKey, t: nat, s: State, b: State, c: nat, needed: bool)
    requires ListOf(s0.idles, key) != [] && b == Popped(cfg, s0, key, s) && c == s0.idles[key][|s0.idles[key]| - 1].id && Paused(s0, c)
    ensures var after := Goto(Change(b, c, Awake(s0, c).(firewall := needed)), t, Using(key, c, Client.Ready));
      WithWarm(cfg, s0, key, t, after) && after.threads[t] == Using(key, c, Client.Ready) && after.containers[c].firewall == needed
  {
  }

  lemma PoppedStays(cfg: Config, s0: State, key: WarmKey, t: nat, s: State, step: Step, after: State)
    requires WithWarm(cfg, s0, key, t, s) && s.threads[t].WarmPopped?
    requires step.t == t && Apply(cfg, s, step) == Some(after)
    ensures if Refused(cfg, s0, key, step) then OffTrack(cfg, s0, key, t, after, [])
            else WithWarm(cfg, s0, key, t, after) && !after.threads[t].Using?
  {
    hide Apply, OffTrack, Goto, Change;
    ChangeFields();
    var b, c := Popped(cfg, s0, key, s), s.threads[t].c;
    FromPopped(cfg, b, key, t, c, s, step, after);
    if step.ok {
      AwakeIsWarm(cfg, s0, key, t, s, b, c);
      GotoAt(Change(b, c, Awake(s0, c)), t, WarmAwake(key, c));
    } else {
      var x := if step.stateKnown then Awake(s0, c) else Awake(s0, c).(fate := Lost);
      StartsGivingBack(cfg, s0, key, t, Change(b, c, x), if step.stateKnown then Removing(c, FailGet(key)) else Settling(cfg.memoryOf(key)), []);
    }
  }

  lemma AwakeStays(cfg: Config, s0: State, key: WarmKey, t: nat, s: State, step: Step, after: State)
    requires WithWarm(cfg, s0, key, t, s) && s.threads[t].WarmAwake?
    requires step.t == t && Apply(cfg, s, step) == Some(after)
    ensures if Refused(cfg, s0, key, step) then OffTrack(cfg, s0, key, t, after, [])
            else WithWarm(cfg, s0, key, t, after) && FirewallSet(after, t, step)
  {
    hide Apply, OffTrack, Goto, Change;
    ChangeFields();
    var b, c := Popped(cfg, s0, key, s), s.threads[t].c;
    FromAwake(cfg, b, key, t, c, Awake(s0, c), s, step, after);
    if step.ok || step.needed == s0.containers[c].firewall {
      UsedIsWarm(cfg, s0, key, t, s, b, c, step.needed);
    } else {
      StartsGivingBack(cfg, s0, key, t, Change(b, c, Awake(s0, c)), Removing(c, FailGet(key)), []);
    }
  }

  // Sending what was evicted.

  lemma SendingStays(cfg: Config, s0: State, key: WarmKey, t: nat, s: State, out: seq<Pooled>, left: seq<nat>, step: Step, after: State)
    requires MadeRoom(cfg, s0, key, s, out, left) && Sending(cfg, s0, key, t, s, left) && left != []
    requires step.t == t && Apply(cfg, s, step) == Some(after)
    ensures !Refused(cfg, s0, key, step)
    ensures MadeRoom(cfg, s0, key, after, out, left[1..]) && Sending(cfg, s0, key, t, after, left[1..])
  {
    hide Apply, MakesRoom, Ids;
    FromSending(cfg, Roomy(cfg, s0, key, s), key, t, left, s, step, after);
    assert s.queue + left == s.queue + [left[0]] + left[1..];
  }

  lemma TakenIsPrewarmed(cfg: Config, s0: State, key: WarmKey, t: nat, s: State)
    requires PrewarmList(s0.prewarmed, Wanted(cfg, key)) != []
    ensures var l := s0.prewarmed[Wanted(cfg, key)];
      var after := Goto(Roomy(cfg, s0, key, s).(prewarmed := s0.prewarmed[Wanted(cfg, key) := l[1..]]), t, PrewarmTaken(key, l[0]));
      WithPrewarmed(cfg, s0, key, t, after) && after.idles == s.idles && after.queue == s.queue && after.threads[t].PrewarmTaken?
  {
  }

  lemma NeedingIsNew(cfg: Config, s0: State, key: WarmKey, t: nat, s: State)
    requires PrewarmList(s0.prewarmed, Wanted(cfg, key)) == []
    ensures var after := Goto(Roomy(cfg, s0, key, s), t, NeedIp(ForGet(key)));
      WithNew(cfg, s0, key, t, after) && after.idles == s.idles && after.queue == s.queue && after.threads[t].NeedIp?
  {
  }

  /** Sent: a prewarmed container comes next, if there is one. */
  lemma SentStays(cfg: Config, s0: State, key: WarmKey, t: nat, s: State, out: seq<Pooled>, step: Step, after: State)
    requires MadeRoom(cfg, s0, key, s, out, []) && Sending(cfg, s0, key, t, s, [])
    requires step.t == t && Apply(cfg, s, step) == Some(after)
    ensures !Refused(cfg, s0, key, step) && MadeRoom(cfg, s0, key, after, out, [])
    ensures WithPrewarmed(cfg, s0, key, t, after) || WithNew(cfg, s0, key, t, after)
    ensures !after.threads[t].Using?
  {
    hide Apply, MakesRoom, Ids, Goto, WithPrewarmed, WithNew, PrewarmList;
    FromSent(cfg, Roomy(cfg, s0, key, s), key, t, s, step, after);
    if PrewarmList(s0.prewarmed, Wanted(cfg, key)) != [] {
      ListedIn(s0.prewarmed, Wanted(cfg, key));
      TakenIsPrewarmed(cfg, s0, key, t, s);
    } else {
      NeedingIsNew(cfg, s0, key, t, s);
    }
  }

  lemma ListedIn(prewarmed: map<PrewarmKey, seq<nat>>, pk: PrewarmKey)
    requires PrewarmList(prewarmed, pk) != []
    ensures pk in prewarmed && prewarmed[pk] == PrewarmList(prewarmed, pk)
  {
  }

  // A prewarmed container in hand.

  lemma TakenStays(cfg: Config, s0: State, key: WarmKey, t: nat, s: State, step: Step, after: State)
    requires WithPrewarmed(cfg, s0, key, t, s) && s.threads[t].PrewarmTaken?
    requires step.t == t && Apply(cfg, s, step) == Some(after)
    ensures !Refused(cfg, s0, key, step) && WithPrewarmed(cfg, s0, key, t, after) && !after.threads[t].Using?
    ensures after.queue == s.queue && after.idles == s.idles
  {
    hide Apply;
    var l := s0.prewarmed[Wanted(cfg, key)];
    FromTaken(cfg, Roomy(cfg, s0, key, s).(prewarmed := s0.prewarmed[Wanted(cfg, key) := l[1..]]), key, t, l[0], s, step, after);
  }

  lemma UsedIsPrewarmed(cfg: Config, s0: State, key: WarmKey, t: nat, s: State, c: nat, needed: bool)
    requires PrewarmList(s0.prewarmed, Wanted(cfg, key)) != [] && c == s0.prewarmed[Wanted(cfg, key)][0] && c in s0.containers
    ensures var b := Roomy(cfg, s0, key, s).(prewarmed := s0.prewarmed[Wanted(cfg, key) := s0.prewarmed[Wanted(cfg, key)][1..]], poke := true);
      var after := Goto(Change(b, c, s0.containers[c].(firewall := needed, boundTo := Some(key))), t, Using(key, c, Client.Fresh));
      WithPrewarmed(cfg, s0, key, t, after) && after.threads[t] == Using(key, c, Client.Fresh)
      && after.containers[c].firewall == needed && after.idles == s.idles && after.queue == s.queue
  {
  }

  lemma PokedStays(cfg: Config, s0: State, key: WarmKey, t: nat, s: State, out: seq<Pooled>, step: Step, after: State)
    requires MadeRoom(cfg, s0, key, s, out, []) && WithPrewarmed(cfg, s0, key, t, s) && s.threads[t].PrewarmPoked?
    requires step.t == t && Apply(cfg, s, step) == Some(after)
    ensures if Refused(cfg, s0, key, step) then OffTrack(cfg, s0, key, t, after, out)
            else MadeRoom(cfg, s0, key, after, out, []) && WithPrewarmed(cfg, s0, key, t, after) && FirewallSet(after, t, step)
  {
    hide Apply, OffTrack, Goto, Change, MakesRoom, Ids;
    var l := s0.prewarmed[Wanted(cfg, key)];
    var b := Roomy(cfg, s0, key, s).(prewarmed := s0.prewarmed[Wanted(cfg, key) := l[1..]], poke := true);
    FromFresh(cfg, b, key, t, l[0], PrewarmPoked(key, l[0]), s, step, after);
    hide WithPrewarmed;
    if step.needed && !step.ok {
      StartsGivingBack(cfg, s0, key, t, b, Removing(l[0], FailGet(key)), out);
    } else {
      UsedIsPrewarmed(cfg, s0, key, t, s, l[0], step.needed);
    }
  }

  // A new container.

  lemma NeedStays(cfg: Config, s0: State, key: WarmKey, t: nat, s: State, out: seq<Pooled>, step: Step, after: State)
    requires MadeRoom(cfg, s0, key, s, out, []) && WithNew(cfg, s0, key, t, s) && s.threads[t].NeedIp?
    requires step.t == t && Apply(cfg, s, step) == Some(after)
    ensures if Refused(cfg, s0, key, step) then OffTrack(cfg, s0, key, t, after, out)
            else MadeRoom(cfg, s0, key, after, out, []) && WithNew(cfg, s0, key, t, after) && !after.threads[t].Using?
  {
    hide Apply, OffTrack, Goto, MakesRoom, Ids;
    var b := Roomy(cfg, s0, key, s);
    FromNeed(cfg, b, key, t, s, step, after);
    if HadAddress(cfg, s0, key) {
      GotoKeeps(b.(freeIps := s0.freeIps[1..]), t, HasIp(ForGet(key), s0.freeIps[0]));
    } else {
      StartsGivingBack(cfg, s0, key, t, b, Settling(cfg.memoryOf(key)), out);
    }
  }

  lemma ComingUpIsNew(cfg: Config, s0: State, key: WarmKey, t: nat, s: State, c: nat)
    requires PrewarmList(s0.prewarmed, Wanted(cfg, key)) == [] && HadAddress(cfg, s0, key) && c !in s0.containers
    ensures var b := Roomy(cfg, s0, key, s).(freeIps := s0.freeIps[1..]);
      var after := Goto(Change(b, c, Created(cfg, s0.freeIps[0], key)), t, BringingUp(ForGet(key), c));
      WithNew(cfg, s0, key, t, after) && after.threads[t].BringingUp? && SameLists(b, after)
  {
  }

  lemma AddressStays(cfg: Config, s0: State, key: WarmKey, t: nat, s: State, out: seq<Pooled>, step: Step, after: State)
    requires MadeRoom(cfg, s0, key, s, out, []) && WithNew(cfg, s0, key, t, s) && s.threads[t].HasIp?
    requires step.t == t && Apply(cfg, s, step) == Some(after)
    ensures if Refused(cfg, s0, key, step) then OffTrack(cfg, s0, key, t, after, out)
            else MadeRoom(cfg, s0, key, after, out, []) && WithNew(cfg, s0, key, t, after) && !after.threads[t].Using?
  {
    hide Apply, OffTrack, Goto, Change, MakesRoom, Ids, Created;
    var b, ip := Roomy(cfg, s0, key, s).(freeIps := s0.freeIps[1..]), s0.freeIps[0];
    FromAddress(cfg, b, key, t, ip, s, step, after);
    hide WithNew;
    if step.ok {
      ComingUpIsNew(cfg, s0, key, t, s, step.c);
    } else {
      StartsGivingBack(cfg, s0, key, t, b.(freeIps := b.freeIps + [ip]), Settling(cfg.memoryOf(key)), out);
    }
  }

  lemma BringingUpStays(cfg: Config, s0: State, key: WarmKey, t: nat, s: State, out: seq<Pooled>, step: Step, after: State)
    requires MadeRoom(cfg, s0, key, s, out, []) && WithNew(cfg, s0, key, t, s) && s.threads[t].BringingUp?
    requires step.t == t && Apply(cfg, s, step) == Some(after)
    ensures if Refused(cfg, s0, key, step) then OffTrack(cfg, s0, key, t, after, out)
            else MadeRoom(cfg, s0, key, after, out, []) && WithNew(cfg, s0, key, t, after) && !after.threads[t].Using?
  {
    hide Apply, OffTrack, Goto, Change, MakesRoom, Ids;
    var c, x := s.threads[t].c, Created(cfg, s0.freeIps[0], key);
    var b := Change(Roomy(cfg, s0, key, s).(freeIps := s0.freeIps[1..]), c, x);
    ChangeKeeps(Roomy(cfg, s0, key, s).(freeIps := s0.freeIps[1..]), c, x);
    FromBringingUp(cfg, b, key, t, c, s, step, after);
    if step.ok {
      GotoKeeps(b, t, ColdCreated(key, c));
    } else {
      ChangeFields();
      StartsGivingBack(cfg, s0, key, t, b, Removing(c, FailCreate(ForGet(key))), out);
    }
  }

  lemma UsedIsNew(cfg: Config, s0: State, key: WarmKey, t: nat, s: State, c: nat, needed: bool)
    requires PrewarmList(s0.prewarmed, Wanted(cfg, key)) == [] && HadAddress(cfg, s0, key) && c !in s0.containers
    ensures var x := Created(cfg, s0.freeIps[0], key).(firewall := needed, boundTo := Some(key));
      var after := Goto(Change(Roomy(cfg, s0, key, s).(freeIps := s0.freeIps[1..]), c, x), t, Using(key, c, Client.Fresh));
      WithNew(cfg, s0, key, t, after) && after.threads[t] == Using(key, c, Client.Fresh)
      && after.containers[c].firewall == needed && SameLists(Roomy(cfg, s0, key, s), after)
  {
  }

  lemma ColdStays(cfg: Config, s0: State, key: WarmKey, t: nat, s: State, out: seq<Pooled>, step: Step, after: State)
    requires MadeRoom(cfg, s0, key, s, out, []) && WithNew(cfg, s0, key, t, s) && s.threads[t].ColdCreated?
    requires step.t == t && Apply(cfg, s, step) == Some(after)
    ensures if Refused(cfg, s0, key, step) then OffTrack(cfg, s0, key, t, after, out)
            else MadeRoom(cfg, s0, key, after, out, []) && WithNew(cfg, s0, key, t, after) && FirewallSet(after, t, step)
  {
    hide Apply, OffTrack, Goto, Change, MakesRoom, Ids, Created;
    var c, x := s.threads[t].c, Created(cfg, s0.freeIps[0], key);
    var b := Roomy(cfg, s0, key, s).(freeIps := s0.freeIps[1..]);
    ChangeKeeps(b, c, x);
    FromFresh(cfg, Change(b, c, x), key, t, c, ColdCreated(key, c), s, step, after);
    if step.needed && !step.ok {
      FailsFirewall(cfg, s0, key, t, s, b, c, x, out);
    } else {
      ChangeAgain(b, c, x, x.(firewall := step.needed, boundTo := Some(key)));
      UsedIsNew(cfg, s0, key, t, s, c, step.needed);
    }
  }

  lemma FailsFirewall(cfg: Config, s0: State, key: WarmKey, t: nat, s: State, b: State, c: nat, x: Container, out: seq<Pooled>)
    requires MadeRoom(cfg, s0, key, s, out, []) && PrewarmList(s0.prewarmed, Wanted(cfg, key)) == []
    requires b == Roomy(cfg, s0, key, s).(freeIps := b.freeIps)
    ensures OffTrack(cfg, s0, key, t, Goto(Change(b, c, x), t, Removing(c, FailGet(key))), out)
  {
    hide OffTrack, Goto, Change, MakesRoom, Ids;
    ChangeFields();
    StartsGivingBack(cfg, s0, key, t, Change(b, c, x), Removing(c, FailGet(key)), out);
  }

  // All together.

  lemma CountingStays(cfg: Config, s0: State, key: WarmKey, t: nat, s: State, step: Step, after: State) returns (out: seq<Pooled>)
    requires Sensible(cfg) && Inv(cfg, s) && Before(cfg, s0, key, t, s) && s.threads[t].Counting?
    requires step.t == t && Apply(cfg, s, step) == Some(after)
    ensures !Refused(cfg, s0, key, step) && OnTrack(cfg, s0, key, t, after, out) && !after.threads[t].Using?
  {
    hide Inv, Apply, MadeRoom, Sensible, Charged, Goto, WithPrewarmed, WithNew, MadeRoom;
    StepSuits(cfg, s, step);
    out := step.evicted;
    if ListOf(s0.idles, key) != [] {
      CountingPops(cfg, s0, key, t, s, step, after);
    } else {
      CountingMakesRoom(cfg, s0, key, t, s, step, after);
    }
  }

  lemma UsingStays(cfg: Config, s: State, step: Step, after: State)
    requires step.t in s.threads && s.threads[step.t].Using? && Apply(cfg, s, step) == Some(after)
    ensures step.ClientOp?
  {
    hide Apply;
    StepSuits(cfg, s, step);
  }

  lemma WarmStays(cfg: Config, s0: State, key: WarmKey, t: nat, s: State, step: Step, after: State)
    requires WithWarm(cfg, s0, key, t, s) && step.t == t && !step.ClientOp? && Apply(cfg, s, step) == Some(after)
    ensures if Refused(cfg, s0, key, step) then OffTrack(cfg, s0, key, t, after, [])
            else WithWarm(cfg, s0, key, t, after) && FirewallSet(after, t, step)
  {
    hide Apply, OffTrack, Popped, Goto, Change, Refused;
    if s.threads[t].WarmPopped? { PoppedStays(cfg, s0, key, t, s, step, after); }
    else if s.threads[t].WarmAwake? { AwakeStays(cfg, s0, key, t, s, step, after); }
    else { UsingStays(cfg, s, step, after); }
  }

  lemma PrewarmedStays(cfg: Config, s0: State, key: WarmKey, t: nat, s: State, out: seq<Pooled>, step: Step, after: State)
    requires MadeRoom(cfg, s0, key, s, out, []) && WithPrewarmed(cfg, s0, key, t, s)
    requires step.t == t && !step.ClientOp? && Apply(cfg, s, step) == Some(after)
    ensures if Refused(cfg, s0, key, step) then OffTrack(cfg, s0, key, t, after, out)
            else MadeRoom(cfg, s0, key, after, out, []) && WithPrewarmed(cfg, s0, key, t, after) && FirewallSet(after, t, step)
  {
    hide Apply, OffTrack, Roomy, Goto, Change, Refused, MakesRoom, Ids;
    if s.threads[t].PrewarmTaken? { TakenStays(cfg, s0, key, t, s, step, after); }
    else if s.threads[t].PrewarmPoked? { PokedStays(cfg, s0, key, t, s, out, step, after); }
    else { UsingStays(cfg, s, step, after); }
  }

  lemma NewStays(cfg: Config, s0: State, key: WarmKey, t: nat, s: State, out: seq<Pooled>, step: Step, after: State)
    requires MadeRoom(cfg, s0, key, s, out, []) && WithNew(cfg, s0, key, t, s)
    requires step.t == t && !step.ClientOp? && Apply(cfg, s, step) == Some(after)
    ensures if Refused(cfg, s0, key, step) then OffTrack(cfg, s0, key, t, after, out)
            else MadeRoom(cfg, s0, key, after, out, []) && WithNew(cfg, s0, key, t, after) && FirewallSet(after, t, step)
  {
    hide Apply, OffTrack, Roomy, Goto, Change, Refused, MadeRoom, Created;
    if s.threads[t].NeedIp? { NeedStays(cfg, s0, key, t, s, out, step, after); }
    else if s.threads[t].HasIp? { AddressStays(cfg, s0, key, t, s, out, step, after); }
    else if s.threads[t].BringingUp? { BringingUpStays(cfg, s0, key, t, s, out, step, after); }
    else if s.threads[t].ColdCreated? { ColdStays(cfg, s0, key, t, s, out, step, after); }
    else { UsingStays(cfg, s, step, after); }
  }

  /** Every step of an undisturbed attempt stays on track, until one is refused. */
  lemma TrackStays(cfg: Config, s0: State, key: WarmKey, t: nat, s: State, out: seq<Pooled>, step: Step, after: State)
      returns (next: seq<Pooled>)
    requires Sensible(cfg) && Inv(cfg, s) && OnTrack(cfg, s0, key, t, s, out)
    requires step.t == t && !step.ClientOp? && Apply(cfg, s, step) == Some(after)
    ensures if Refused(cfg, s0, key, step) then OffTrack(cfg, s0, key, t, after, next)
            else OnTrack(cfg, s0, key, t, after, next) && FirewallSet(after, t, step)
  {
    hide Inv, Sensible, Apply, Before, WithWarm, WithPrewarmed, WithNew, Refused, ListsTaken, GivingBack, MadeRoom;
    next := out;
    if Before(cfg, s0, key, t, s) {
      BeforeIsEarly(cfg, s0, key, t, s);
      if s.threads[t].Counting? { next := CountingStays(cfg, s0, key, t, s, step, after); }
      else {
        FromStart(cfg, s0, key, t, s, step, after);
        if Before(cfg, s0, key, t, after) { BeforeIsEarly(cfg, s0, key, t, after); }
      }
    } else if WithWarm(cfg, s0, key, t, s) {
      next := [];
      WarmStays(cfg, s0, key, t, s, step, after);
    } else if MadeRoom(cfg, s0, key, s, out, []) && WithPrewarmed(cfg, s0, key, t, s) {
      PrewarmedStays(cfg, s0, key, t, s, out, step, after);
    } else if MadeRoom(cfg, s0, key, s, out, []) && WithNew(cfg, s0, key, t, s) {
      NewStays(cfg, s0, key, t, s, out, step, after);
    } else if s.threads[t].doomed != [] {
      SendingStays(cfg, s0, key, t, s, out, s.threads[t].doomed, step, after);
    } else {
      SentStays(cfg, s0, key, t, s, out, step, after);
    }
  }

  lemma BeforeIsEarly(cfg: Config, s0: State, key: WarmKey, t: nat, s: State)
    requires Before(cfg, s0, key, t, s)
    ensures t in s.threads && (s.threads[t].Entering? || s.threads[t].Acquired? || s.threads[t].Counting?)
  {
  }

  lemma BackStays(cfg: Config, s0: State, key: WarmKey, t: nat, s: State, out: seq<Pooled>, step: Step, after: State)
    requires Sensible(cfg) && Inv(cfg, s) && OffTrack(cfg, s0, key, t, s, out) && step.t == t && Apply(cfg, s, step) == Some(after)
    ensures OffTrack(cfg, s0, key, t, after, out)
  {
    hide Inv, Sensible, Apply, Goto, ListsTaken, MemoryInv, CensusInv, AddressInv, FactsInv, PrewarmInv;
    InvParts(cfg, s);
    GotoAt(s0, t, Done);
    if s.threads[t].Done? { DoneIsDone(cfg, s, step); }
    else {
      if s.threads[t].Settling? { SettlingGivesBack(cfg, s, t, step, after); }
      else if s.threads[t].Settled? { SettledGivesBack(cfg, s, t, step, after); }
      else { RemovingGivesBack(cfg, s, t, key, step, after); }
      ListsStayTaken(cfg, s0, key, s, after, out);
    }
  }

  lemma ListsStayTaken(cfg: Config, s0: State, key: WarmKey, s: State, after: State, out: seq<Pooled>)
    requires ListsTaken(cfg, s0, key, s, out) && SameLists(s, after)
    ensures ListsTaken(cfg, s0, key, after, out)
  {
    hide MakesRoom, Ids;
  }

  predicate AllBy(steps: seq<Step>, t: nat) { forall i :: 0 <= i < |steps| ==> steps[i].t == t && !steps[i].ClientOp? }

  /** Some step of a run is refused. */
  predicate AnyRefused(cfg: Config, s0: State, key: WarmKey, steps: seq<Step>) {
    exists i :: 0 <= i < |steps| && Refused(cfg, s0, key, steps[i])
  }

  lemma {:induction false} BackToTheEnd(cfg: Config, s0: State, key: WarmKey, t: nat, s: State, out: seq<Pooled>, steps: seq<Step>, after: State)
    requires Sensible(cfg) && Inv(cfg, s) && OffTrack(cfg, s0, key, t, s, out)
    requires AllBy(steps, t) && RunAll(cfg, s, steps) == Some(after)
    ensures OffTrack(cfg, s0, key, t, after, out)
    decreases |steps|
  {
    hide Inv, Sensible, Apply, OffTrack;
    if steps != [] {
      var next := Apply(cfg, s, steps[0]).value;
      StepKeeps(cfg, s, steps[0], next);
      BackStays(cfg, s0, key, t, s, out, steps[0], next);
      BackToTheEnd(cfg, s0, key, t, next, out, steps[1..], after);
    }
  }

  lemma {:induction false} TrackToTheEnd(cfg: Config, s0: State, key: WarmKey, t: nat, s: State, out: seq<Pooled>, steps: seq<Step>, after: State)
      returns (last: seq<Pooled>)
    requires Sensible(cfg) && Inv(cfg, s) && OnTrack(cfg, s0, key, t, s, out)
    requires AllBy(steps, t) && RunAll(cfg, s, steps) == Some(after)
    ensures if AnyRefused(cfg, s0, key, steps) then OffTrack(cfg, s0, key, t, after, last)
            else OnTrack(cfg, s0, key, t, after, last) && (steps != [] ==> FirewallSet(after, t, steps[|steps| - 1]))
    decreases |steps|
  {
    hide Inv, Sensible, Apply, OffTrack, OnTrack, Refused, FirewallSet;
    if steps == [] {
      last := out;
    } else {
      var next := Apply(cfg, s, steps[0]).value;
      StepKeeps(cfg, s, steps[0], next);
      last := TrackStays(cfg, s0, key, t, s, out, steps[0], next);
      assert AnyRefused(cfg, s0, key, steps) <==> Refused(cfg, s0, key, steps[0]) || AnyRefused(cfg, s0, key, steps[1..]) by {
        RefusedFirst(cfg, s0, key, steps);
      }
      if Refused(cfg, s0, key, steps[0]) {
        BackToTheEnd(cfg, s0, key, t, next, last, steps[1..], after);
      } else {
        last := TrackToTheEnd(cfg, s0, key, t, next, last, steps[1..], after);
        if |steps| > 1 { assert steps[1..][|steps| - 2] == steps[|steps| - 1]; }
      }
    }
  }

  lemma RefusedFirst(cfg: Config, s0: State, key: WarmKey, steps: seq<Step>)
    requires steps != []
    ensures AnyRefused(cfg, s0, key, steps) <==> Refused(cfg, s0, key, steps[0]) || AnyRefused(cfg, s0, key, steps[1..])
  {
    hide Refused;
    if AnyRefused(cfg, s0, key, steps) && !Refused(cfg, s0, key, steps[0]) {
      var i :| 0 <= i < |steps| && Refused(cfg, s0, key, steps[i]);
      assert steps[1..][i - 1] == steps[i];
    }
    if AnyRefused(cfg, s0, key, steps[1..]) {
      var i :| 0 <= i < |steps[1..]| && Refused(cfg, s0, key, steps[1..][i]);
      assert steps[i + 1] == steps[1..][i];
    }
  }

  lemma ArrivesOnTrack(cfg: Config, s0: State, t: nat, key: WarmKey, s: State)
    requires Apply(cfg, s0, Arrive(t, key)) == Some(s)
    ensures OnTrack(cfg, s0, key, t, s, []) && t in s.threads && s.threads[t].Entering?
  {
    hide MakesRoom, WithWarm, WithPrewarmed, WithNew;
  }

  /** A run that begins with an arrival. */
  lemma ArrivesAndGoesOn(cfg: Config, s0: State, t: nat, key: WarmKey, steps: seq<Step>, s: State) returns (out: seq<Pooled>)
    requires Sensible(cfg) && Reachable(cfg, s0) && AllBy(steps, t)
    requires RunAll(cfg, s0, [Arrive(t, key)] + steps) == Some(s)
    ensures if AnyRefused(cfg, s0, key, steps) then OffTrack(cfg, s0, key, t, s, out)
            else OnTrack(cfg, s0, key, t, s, out) && (steps != [] ==> FirewallSet(s, t, steps[|steps| - 1]))
    ensures steps == [] ==> t in s.threads && s.threads[t].Entering?
  {
    hide Inv, Sensible, Reachable, Apply, OffTrack, OnTrack, AnyRefused, FirewallSet;
    var first := [Arrive(t, key)] + steps;
    assert first[0] == Arrive(t, key) && first[1..] == steps;
    var s1 := Apply(cfg, s0, first[0]).value;
    ReachableHolds(cfg, s0);
    StepKeeps(cfg, s0, first[0], s1);
    ArrivesOnTrack(cfg, s0, t, key, s1);
    out := TrackToTheEnd(cfg, s0, key, t, s1, [], steps, s);
  }

  /** A caller whose attempt nobody disturbs gets a container exactly if nothing is refused: it is not
      canceled, no call fails, and if a container has to be created there is a runtime of the kind and a
      free address. */
  lemma UndisturbedGetSucceedsIff(cfg: Config, s0: State, t: nat, key: WarmKey, steps: seq<Step>, s: State)
    requires Sensible(cfg) && Reachable(cfg, s0)
    requires forall i :: 0 <= i < |steps| ==> steps[i].t == t && !steps[i].ClientOp?
    requires RunAll(cfg, s0, [Arrive(t, key)] + steps) == Some(s)
    requires t in s.threads && (s.threads[t].Using? || s.threads[t].Done?)
    ensures s.threads[t].Using? <==> forall i :: 0 <= i < |steps| ==>
      match steps[i]
      case CancelAcquire(_) => false
      case UnpauseWarm(_, ok, _) => ok
      case WarmFirewall(_, needed, ok) =>
        ok || needed == (var l := ListOf(s0.idles, key);
                         l != [] && l[|l| - 1].id in s0.containers && s0.containers[l[|l| - 1].id].firewall)
      case NewFirewall(_, needed, ok) => ok || !needed
      case AcquireIp(_) => cfg.kindOf(key) in cfg.kinds && s0.freeIps != []
      case DockerCreate(_, _, ok) => ok
      case BringUp(_, ok) => ok
      case _ => true
  {
    hide Sensible, Reachable, RunAll, FirewallSet, OnTrack, OffTrack;
    var out := ArrivesAndGoesOn(cfg, s0, t, key, steps, s);
    if AnyRefused(cfg, s0, key, steps) {
      OffIsNotUsing(cfg, s0, key, t, s, out);
    } else {
      OnIsNotDone(cfg, s0, key, t, s, out);
    }
    forall i | 0 <= i < |steps| ensures Refused(cfg, s0, key, steps[i]) ==> AnyRefused(cfg, s0, key, steps) {}
  }

  lemma OffIsNotUsing(cfg: Config, s0: State, key: WarmKey, t: nat, s: State, out: seq<Pooled>)
    requires OffTrack(cfg, s0, key, t, s, out)
    ensures t in s.threads && !s.threads[t].Using?
  {
    hide ListsTaken;
  }

  lemma OnIsNotDone(cfg: Config, s0: State, key: WarmKey, t: nat, s: State, out: seq<Pooled>)
    requires OnTrack(cfg, s0, key, t, s, out)
    ensures t in s.threads && !s.threads[t].Done?
  {
    hide MadeRoom, Goto, Change;
  }

  /** With an idle container of the key, exactly the last one of the list is handed out, running, with the
      firewall it needs now, and nothing else changes. */
  lemma UndisturbedGetTakesWarm(cfg: Config, s0: State, t: nat, key: WarmKey, steps: seq<Step>, s: State)
    requires Sensible(cfg) && Reachable(cfg, s0)
    requires forall i :: 0 <= i < |steps| ==> steps[i].t == t && !steps[i].ClientOp?
    requires RunAll(cfg, s0, [Arrive(t, key)] + steps) == Some(s) && t in s.threads && s.threads[t].Using?
    requires ListOf(s0.idles, key) != []
    ensures steps != [] && steps[|steps| - 1].WarmFirewall?
    ensures var l, m := s0.idles[key], cfg.memoryOf(key);
      var c := l[|l| - 1].id;
      && c in s0.containers && s0.containers[c].pauses == 1
      && s == s0.(
           held := s0.held + m, counter := s0.counter + m,
           idles := s0.idles[key := l[..|l| - 1]], idlesMemory := s.idlesMemory,
           containers := s0.containers[c := s0.containers[c].(pauses := 0, firewall := steps[|steps| - 1].needed)],
           threads := s0.threads[t := Using(key, c, Client.Ready)])
  {
    hide Sensible, Reachable, RunAll, OnTrack, OffTrack, AnyRefused;
    var out := ArrivesAndGoesOn(cfg, s0, t, key, steps, s);
    UsingIsOnTrack(cfg, s0, key, t, steps, s, out);
    LastIsScheduled(cfg, s0, key);
    WarmState(cfg, s0, t, key, steps[|steps| - 1], s);
  }

  lemma WarmState(cfg: Config, s0: State, t: nat, key: WarmKey, last: Step, s: State)
    requires WithWarm(cfg, s0, key, t, s) && s.threads[t].Using? && FirewallSet(s, t, last)
    requires var l := s0.idles[key]; Scheduled(s0.containers, l[|l| - 1].id)
    ensures last.WarmFirewall?
    ensures var l, m := s0.idles[key], cfg.memoryOf(key);
      var c := l[|l| - 1].id;
      && c in s0.containers && s0.containers[c].pauses == 1
      && s == s0.(
           held := s0.held + m, counter := s0.counter + m,
           idles := s0.idles[key := l[..|l| - 1]], idlesMemory := s.idlesMemory,
           containers := s0.containers[c := s0.containers[c].(pauses := 0, firewall := last.needed)],
           threads := s0.threads[t := Using(key, c, Client.Ready)])
  {
  }

  /** Where an attempt on track has its container from. */
  lemma UsingIsOnTrack(cfg: Config, s0: State, key: WarmKey, t: nat, steps: seq<Step>, s: State, out: seq<Pooled>)
    requires t in s.threads && s.threads[t].Using?
    requires if AnyRefused(cfg, s0, key, steps) then OffTrack(cfg, s0, key, t, s, out)
             else OnTrack(cfg, s0, key, t, s, out) && (steps != [] ==> FirewallSet(s, t, steps[|steps| - 1]))
    requires steps == [] ==> s.threads[t].Entering?
    ensures steps != [] && FirewallSet(s, t, steps[|steps| - 1])
    ensures ListOf(s0.idles, key) != [] ==> WithWarm(cfg, s0, key, t, s)
    ensures ListOf(s0.idles, key) == [] ==> MadeRoom(cfg, s0, key, s, out, [])
    ensures ListOf(s0.idles, key) == [] && PrewarmList(s0.prewarmed, Wanted(cfg, key)) != [] ==> WithPrewarmed(cfg, s0, key, t, s)
    ensures ListOf(s0.idles, key) == [] && PrewarmList(s0.prewarmed, Wanted(cfg, key)) == [] ==> WithNew(cfg, s0, key, t, s)
  {
    hide AnyRefused, MakesRoom, Ids, FirewallSet;
    if AnyRefused(cfg, s0, key, steps) { OffIsNotUsing(cfg, s0, key, t, s, out); }
  }

  /** Idle containers have their pause scheduled. */
  lemma LastIsScheduled(cfg: Config, s: State, key: WarmKey)
    requires Sensible(cfg) && Reachable(cfg, s) && ListOf(s.idles, key) != []
    ensures var l := s.idles[key]; Scheduled(s.containers, l[|l| - 1].id)
  {
    hide Sensible, Reachable;
    PausesArePaired(cfg, s);
  }

  /** Without one, room is made, what is evicted is sent for deletion in order, and then the first
      prewarmed container of the kind and memory is handed out, with a poke for its successor. */
  lemma UndisturbedGetTakesPrewarmed(cfg: Config, s0: State, t: nat, key: WarmKey, steps: seq<Step>, s: State) returns (out: seq<Pooled>)
    requires Sensible(cfg) && Reachable(cfg, s0)
    requires forall i :: 0 <= i < |steps| ==> steps[i].t == t && !steps[i].ClientOp?
    requires RunAll(cfg, s0, [Arrive(t, key)] + steps) == Some(s) && t in s.threads && s.threads[t].Using?
    requires ListOf(s0.idles, key) == [] && PrewarmList(s0.prewarmed, PrewarmKey(cfg.kindOf(key), cfg.memoryOf(key))) != []
    ensures steps != [] && steps[|steps| - 1].NewFirewall?
    ensures MakesRoom(s0.idles, s0.counter + cfg.memoryOf(key), cfg.maxMemory, out, s.idles)
    ensures var pk, m := PrewarmKey(cfg.kindOf(key), cfg.memoryOf(key)), cfg.memoryOf(key);
      var l := s0.prewarmed[pk];
      && l[0] in s0.containers
      && s == s0.(
           held := s0.held + m, counter := s0.counter + m,
           idles := s.idles, idlesMemory := s.idlesMemory, queue := s0.queue + Ids(out),
           prewarmed := s0.prewarmed[pk := l[1..]], poke := true,
           containers := s0.containers[l[0] := s0.containers[l[0]].(firewall := steps[|steps| - 1].needed, boundTo := Some(key))],
           threads := s0.threads[t := Using(key, l[0], Client.Fresh)])
  {
    hide Sensible, Reachable, RunAll, OnTrack, OffTrack, AnyRefused, MakesRoom, Ids, WithPrewarmed;
    out := ArrivesAndGoesOn(cfg, s0, t, key, steps, s);
    UsingIsOnTrack(cfg, s0, key, t, steps, s, out);
    PrewarmedState(cfg, s0, t, key, steps[|steps| - 1], s, out);
  }

  lemma PrewarmedState(cfg: Config, s0: State, t: nat, key: WarmKey, last: Step, s: State, out: seq<Pooled>)
    requires MadeRoom(cfg, s0, key, s, out, [])
    requires WithPrewarmed(cfg, s0, key, t, s) && s.threads[t].Using? && FirewallSet(s, t, last)
    ensures last.NewFirewall?
    ensures var pk, m := PrewarmKey(cfg.kindOf(key), cfg.memoryOf(key)), cfg.memoryOf(key);
      var l := s0.prewarmed[pk];
      && l[0] in s0.containers
      && s == s0.(
           held := s0.held + m, counter := s0.counter + m,
           idles := s.idles, idlesMemory := s.idlesMemory, queue := s0.queue + Ids(out),
           prewarmed := s0.prewarmed[pk := l[1..]], poke := true,
           containers := s0.containers[l[0] := s0.containers[l[0]].(firewall := last.needed, boundTo := Some(key))],
           threads := s0.threads[t := Using(key, l[0], Client.Fresh)])
  {
    hide MakesRoom, Ids;
    assert s.queue + [] == s.queue;
  }

  /** Without either, a container nobody has is created at the first free address, with the memory of
      the function and the firewall it needs. */
  lemma UndisturbedGetCreates(cfg: Config, s0: State, t: nat, key: WarmKey, steps: seq<Step>, s: State) returns (out: seq<Pooled>)
    requires Sensible(cfg) && Reachable(cfg, s0)
    requires forall i :: 0 <= i < |steps| ==> steps[i].t == t && !steps[i].ClientOp?
    requires RunAll(cfg, s0, [Arrive(t, key)] + steps) == Some(s) && t in s.threads && s.threads[t].Using?
    requires ListOf(s0.idles, key) == [] && PrewarmList(s0.prewarmed, PrewarmKey(cfg.kindOf(key), cfg.memoryOf(key))) == []
    ensures steps != [] && steps[|steps| - 1].NewFirewall?
    ensures MakesRoom(s0.idles, s0.counter + cfg.memoryOf(key), cfg.maxMemory, out, s.idles)
    ensures var m, c := cfg.memoryOf(key), s.threads[t].c;
      && c !in s0.containers && cfg.kindOf(key) in cfg.kinds && s0.freeIps != []
      && s == s0.(
           held := s0.held + m, counter := s0.counter + m,
           idles := s.idles, idlesMemory := s.idlesMemory, queue := s0.queue + Ids(out),
           freeIps := s0.freeIps[1..],
           containers := s0.containers[c := Container(s0.freeIps[0], m, Some(key), 0, steps[|steps| - 1].needed, 0, [], Alive)],
           threads := s0.threads[t := Using(key, c, Client.Fresh)])
  {
    hide Sensible, Reachable, RunAll, OnTrack, OffTrack, AnyRefused, MakesRoom, Ids, WithNew;
    out := ArrivesAndGoesOn(cfg, s0, t, key, steps, s);
    UsingIsOnTrack(cfg, s0, key, t, steps, s, out);
    NewState(cfg, s0, t, key, steps[|steps| - 1], s, out);
  }

  lemma NewState(cfg: Config, s0: State, t: nat, key: WarmKey, last: Step, s: State, out: seq<Pooled>)
    requires MadeRoom(cfg, s0, key, s, out, [])
    requires WithNew(cfg, s0, key, t, s) && s.threads[t].Using? && FirewallSet(s, t, last)
    ensures last.NewFirewall?
    ensures var m, c := cfg.memoryOf(key), s.threads[t].c;
      && c !in s0.containers && cfg.kindOf(key) in cfg.kinds && s0.freeIps != []
      && s == s0.(
           held := s0.held + m, counter := s0.counter + m,
           idles := s.idles, idlesMemory := s.idlesMemory, queue := s0.queue + Ids(out),
           freeIps := s0.freeIps[1..],
           containers := s0.containers[c := Container(s0.freeIps[0], m, Some(key), 0, last.needed, 0, [], Alive)],
           threads := s0.threads[t := Using(key, c, Client.Fresh)])
  {
    hide MakesRoom, Ids;
    assert s.queue + [] == s.queue;
  }

  /** An attempt that fails gives its memory back. Unless it was canceled while it waited, whatever it
      took off the lists is gone from them. */
  lemma UndisturbedGetFails(cfg: Config, s0: State, t: nat, key: WarmKey, steps: seq<Step>, s: State) returns (out: seq<Pooled>)
    requires Sensible(cfg) && Reachable(cfg, s0)
    requires forall i :: 0 <= i < |steps| ==> steps[i].t == t && !steps[i].ClientOp?
    requires RunAll(cfg, s0, [Arrive(t, key)] + steps) == Some(s) && t in s.threads && s.threads[t].Done?
    ensures s.held == s0.held && s.counter == s0.counter
    ensures s == s0.(threads := s0.threads[t := Done]) ||
      var l, pk := ListOf(s0.idles, key), PrewarmKey(cfg.kindOf(key), cfg.memoryOf(key));
      var pl := PrewarmList(s0.prewarmed, pk);
      if l != [] then s.idles == s0.idles[key := l[..|l| - 1]] && s.queue == s0.queue && s.prewarmed == s0.prewarmed
      else
        && MakesRoom(s0.idles, s0.counter + cfg.memoryOf(key), cfg.maxMemory, out, s.idles)
        && s.queue == s0.queue + Ids(out)
        && s.prewarmed == if pl == [] then s0.prewarmed else s0.prewarmed[pk := pl[1..]]
  {
    hide Sensible, Reachable, RunAll, OnTrack, AnyRefused, MakesRoom, Ids, FirewallSet;
    out := ArrivesAndGoesOn(cfg, s0, t, key, steps, s);
    if !AnyRefused(cfg, s0, key, steps) { OnIsNotDone(cfg, s0, key, t, s, out); }
    assert s.queue + [] == s.queue;
  }

  // ---------------------------------------------------------------- in every interleaving

  /** No warm container is passed by, whatever the others do: a caller at the idle lists takes the last
      container of its key, if there is one. */
  lemma WarmIsTaken(cfg: Config, s: State, step: Step, after: State)
    requires step.t in s.threads && s.threads[step.t].Counting? && Apply(cfg, s, step) == Some(after)
    requires ListOf(s.idles, s.threads[step.t].key) != []
    ensures var key := s.threads[step.t].key;
      var l := s.idles[key];
      && after.idles == s.idles[key := l[..|l| - 1]] && after.prewarmed == s.prewarmed && after.queue == s.queue
      && after.threads == s.threads[step.t := WarmPopped(key, l[|l| - 1].id)]
  {
    hide Apply, Goto;
    GotoFields();
    StepSuits(cfg, s, step);
    PopDoes(cfg, s, step.t, step.evicted, step.rest, after);
  }

  /** Nor is a prewarmed one: a caller that made room takes the first of its kind and memory, if there is
      one, and the list loses exactly that one. */
  lemma PrewarmedIsTaken(cfg: Config, s: State, step: Step, after: State)
    requires step.t in s.threads && s.threads[step.t].MakingSpace? && s.threads[step.t].doomed == []
    requires Apply(cfg, s, step) == Some(after)
    ensures var key := s.threads[step.t].key;
      var pk := PrewarmKey(cfg.kindOf(key), cfg.memoryOf(key));
      var l := PrewarmList(s.prewarmed, pk);
      && after.idles == s.idles && after.queue == s.queue
      && if l != [] then after.prewarmed == s.prewarmed[pk := l[1..]] && after.threads == s.threads[step.t := PrewarmTaken(key, l[0])]
         else after.prewarmed == s.prewarmed && after.threads == s.threads[step.t := NeedIp(ForGet(key))]
  {
    hide Apply, Goto;
    GotoFields();
    StepSuits(cfg, s, step);
    LookDoes(cfg, s, step.t, after);
  }

  /** Whoever took a prewarmed container pokes next, and the poke is there afterwards. */
  lemma TakingIsFollowedByPoke(cfg: Config, s: State, step: Step, after: State)
    requires step.t in s.threads && s.threads[step.t].PrewarmTaken? && Apply(cfg, s, step) == Some(after)
    ensures after.poke && after.threads == s.threads[step.t := PrewarmPoked(s.threads[step.t].key, s.threads[step.t].c)]
  {
    hide Apply, Goto;
    GotoFields();
    StepSuits(cfg, s, step);
    PokeDoes(cfg, s, step.t, after);
  }

  /** A container is created only for a caller that made room and found neither. */
  lemma ColdOnlyWithoutPrewarmed(cfg: Config, s: State, step: Step, after: State, key: WarmKey)
    requires Apply(cfg, s, step) == Some(after) && step.t in after.threads && after.threads[step.t] == NeedIp(ForGet(key))
    ensures step.t in s.threads && s.threads[step.t] == MakingSpace(key, [])
    ensures PrewarmList(s.prewarmed, PrewarmKey(cfg.kindOf(key), cfg.memoryOf(key))) == []
  {
    hide Apply, Goto;
    GotoFields();
    if step.Arrive? {
      ArrivalEnters(cfg, s, step, after);
    } else {
      StepsAreOfThreads(cfg, s, step);
      OnlyLookingLeadsToCreation(cfg, s, step, after);
      StepSuits(cfg, s, step);
      LookDoes(cfg, s, step.t, after);
    }
  }

  lemma ArrivalEnters(cfg: Config, s: State, step: Step, after: State)
    requires step.Arrive? && Apply(cfg, s, step) == Some(after)
    ensures step.t in after.threads && after.threads[step.t].Entering?
  {
  }

  lemma StepsAreOfThreads(cfg: Config, s: State, step: Step)
    requires !step.Arrive? && Apply(cfg, s, step).Some?
    ensures step.t in s.threads
  {
    hide ApplyCounters, ApplyPrewarming, ApplyLists, ApplyLifetimes, ApplyCallers;
  }

  lemma OnlyLookingLeadsToCreation(cfg: Config, s: State, step: Step, after: State)
    requires step.t in s.threads && Apply(cfg, s, step) == Some(after)
    ensures step.t in after.threads
    ensures after.threads[step.t].NeedIp? && after.threads[step.t].purpose.ForGet? ==>
      step.LookPrewarm? && after.threads[step.t] == NeedIp(ForGet(s.threads[step.t].key))
  {
    hide Goto, Change, ApplyPrewarming, ApplyLists, ApplyLifetimes, ApplyCallers;
    GotoFields();
    if OnPrewarming(step) { PrewarmingLeads(cfg, s, step, after); }
    else if OnLists(step) { ListsLead(cfg, s, step, after); }
    else if OnLifetimes(step) { LifetimesLead(cfg, s, step, after); }
    else if !OnCounters(step) { CallersLead(cfg, s, step, after); }
  }

  lemma PrewarmingLeads(cfg: Config, s: State, step: Step, after: State)
    requires step.t in s.threads && ApplyPrewarming(cfg, s, step) == Some(after)
    ensures step.t in after.threads
    ensures after.threads[step.t].NeedIp? && after.threads[step.t].purpose.ForGet? ==>
      step.LookPrewarm? && after.threads[step.t] == NeedIp(ForGet(s.threads[step.t].key))
  {
    hide Goto;
    GotoFields();
  }

  lemma GettingLeads(cfg: Config, s: State, t: nat, evicted: seq<Pooled>, rest: Idles, after: State)
    requires t in s.threads && DoLockedGet(cfg, s, t, evicted, rest) == Some(after)
    ensures t in after.threads && (after.threads[t].WarmPopped? || after.threads[t].MakingSpace? || after.threads[t].Settling?)
  {
    hide Evicts, Fits, Ids, Memory, SubU64, ListOf;
  }

  lemma ListsLead(cfg: Config, s: State, step: Step, after: State)
    requires step.t in s.threads && ApplyLists(cfg, s, step) == Some(after)
    ensures step.t in after.threads && !after.threads[step.t].NeedIp?
  {
    hide Goto, DoLockedGet, Reaps, Enumerates, Ids, Memory, SubU64, AddU64, ListOf;
    GotoFields();
    if step.LockedGet? { GettingLeads(cfg, s, step.t, step.evicted, step.rest, after); }
  }

  lemma LifetimesLead(cfg: Config, s: State, step: Step, after: State)
    requires step.t in s.threads && ApplyLifetimes(cfg, s, step) == Some(after)
    ensures step.t in after.threads && !after.threads[step.t].NeedIp?
  {
    hide Goto, Change, KindFor, MemoryFor;
    GotoFields();
    ChangeFields();
  }

  lemma CallersLead(cfg: Config, s: State, step: Step, after: State)
    requires step.t in s.threads && !step.Arrive? && ApplyCallers(cfg, s, step) == Some(after)
    ensures step.t in after.threads && !after.threads[step.t].NeedIp?
  {
    hide Goto, Change, Used;
    GotoFields();
    ChangeFields();
  }
}
