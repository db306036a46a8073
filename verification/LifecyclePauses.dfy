/** The pool keeps the discipline that the pause handshake needs: on every container its calls
    alternate, so what is proved of the handshake holds for each container in every run. */
module LifecyclePauses {
  import opened Common
  import opened IdleLists
  import opened Lifecycle
  import opened LifecycleInvariant
  import opened LifecycleListSteps
  import opened LifecycleTheorems
  import Client
  import Handshake = PauseHandshake

  /** A call of the pool on a container: scheduling its pause, unpausing it for a caller with the given
      outcome, or unpausing it to remove it whatever comes out. */
  datatype Call = Schedule | UnpauseToUse(ok: bool) | UnpauseToRemove

  /** The call on a container that a step makes. */
  function CallOn(s: State, step: Step, c: nat): Option<Call> {
    if step.t !in s.threads then None
    else
      var pc := s.threads[step.t];
      if step.ClientOp? && step.op.Put? && pc.Using? && pc.c == c then Some(Schedule)
      else if step.UnpauseWarm? && pc.WarmPopped? && pc.c == c then Some(UnpauseToUse(step.ok))
      else if step.UnpauseDoomed? && pc.Unpausing? && pc.c == c then Some(UnpauseToRemove)
      else None
  }

  /** The calls on a container during a run. */
  ghost function CallsOn(cfg: Config, s: State, steps: seq<Step>, c: nat): seq<Call>
    decreases |steps|
  {
    if steps == [] || Apply(cfg, s, steps[0]).None? then []
    else
      var rest := CallsOn(cfg, Apply(cfg, s, steps[0]).value, steps[1..], c);
      match CallOn(s, steps[0], c)
      case None => rest
      case Some(call) => [call] + rest
  }

  /** The calls alternate, beginning with an unpause if a pause is scheduled. */
  predicate Alternate(calls: seq<Call>, scheduled: bool)
    decreases |calls|
  {
    calls != [] ==> (calls[0] != Schedule) == scheduled && Alternate(calls[1..], !scheduled)
  }

  /** How many pauses of a container are scheduled and not yet answered. */
  function Pauses(s: State, c: nat): nat {
    if c in s.containers then s.containers[c].pauses else 0
  }

  /** What a call does to the number of scheduled pauses. */
  predicate CallCounts(s: State, step: Step, c: nat, after: State) {
    match CallOn(s, step, c)
    case None => Pauses(after, c) == Pauses(s, c)
    case Some(Schedule) => Pauses(s, c) == 0 && Pauses(after, c) == 1
    case Some(_) => Pauses(s, c) == 1 && Pauses(after, c) == 0
  }

  lemma UntouchedCounts(s: State, step: Step, c: nat, after: State)
    requires after.containers == s.containers && CallOn(s, step, c).None?
    ensures CallCounts(s, step, c, after)
  {
  }

  lemma CountersPauseNothing(cfg: Config, s: State, step: Step, c: nat, after: State)
    requires OnCounters(step) && step.t in s.threads && ApplyCounters(cfg, s, step) == Some(after)
    ensures CallCounts(s, step, c, after)
  {
    hide CallCounts, Goto;
    GotoFields();
    UntouchedCounts(s, step, c, after);
  }

  lemma PrewarmingPausesNothing(cfg: Config, s: State, step: Step, c: nat, after: State)
    requires OnPrewarming(step) && step.t in s.threads && ApplyPrewarming(cfg, s, step) == Some(after)
    ensures CallCounts(s, step, c, after)
  {
    hide CallCounts, Goto;
    GotoFields();
    UntouchedCounts(s, step, c, after);
  }

  lemma ListsPauseNothing(cfg: Config, s: State, step: Step, c: nat, after: State)
    requires OnLists(step) && step.t in s.threads && ApplyLists(cfg, s, step) == Some(after)
    ensures CallCounts(s, step, c, after)
  {
    hide CallCounts, Evicts, Reaps, Fits, Enumerates, Ids, AddU64, SubU64, ListOf, Goto;
    GotoFields();
    UntouchedCounts(s, step, c, after);
  }

  lemma CreatingPausesNothing(cfg: Config, s: State, step: Step, c: nat, after: State)
    requires step.AcquireIp? || step.DockerCreate? || step.BringUp?
    requires step.t in s.threads && ApplyLifetimes(cfg, s, step) == Some(after)
    ensures CallCounts(s, step, c, after)
  {
    hide KindFor, MemoryFor, CreateFailed, Goto, Change;
    GotoFields();
    ChangeFields();
  }

  lemma RemovingUnpauses(cfg: Config, s: State, step: Step, c: nat, after: State)
    requires step.UnpauseDoomed? || step.Remove? || step.ReleaseIp?
    requires step.t in s.threads && ApplyLifetimes(cfg, s, step) == Some(after)
    requires forall d :: d in s.containers ==> s.containers[d].pauses <= 1
    ensures CallCounts(s, step, c, after)
  {
    hide Resume, Goto, Change;
    GotoFields();
    ChangeFields();
  }

  lemma UnpauseWarmCounts(cfg: Config, s: State, t: nat, ok: bool, known: bool, c: nat, after: State)
    requires t in s.threads && DoUnpauseWarm(cfg, s, t, ok, known) == Some(after)
    requires forall d :: d in s.containers ==> s.containers[d].pauses <= 1
    ensures CallCounts(s, UnpauseWarm(t, ok, known), c, after)
  {
    hide Goto, Change;
    GotoFields();
    ChangeFields();
  }

  lemma WarmFirewallCounts(s: State, t: nat, needed: bool, ok: bool, c: nat, after: State)
    requires t in s.threads && DoWarmFirewall(s, t, needed, ok) == Some(after)
    ensures CallCounts(s, WarmFirewall(t, needed, ok), c, after)
  {
    hide Goto, Change;
    GotoFields();
    ChangeFields();
  }

  lemma NewFirewallCounts(s: State, t: nat, needed: bool, ok: bool, c: nat, after: State)
    requires t in s.threads && DoNewFirewall(s, t, needed, ok) == Some(after)
    ensures CallCounts(s, NewFirewall(t, needed, ok), c, after)
  {
    hide Goto, Change;
    GotoFields();
    ChangeFields();
  }

  /** A container in use has no pause scheduled, so that the one of `Put` is the only one. */
  lemma ClientOpCounts(cfg: Config, s: State, t: nat, op: Client.Op, now: int, c: nat, after: State)
    requires t in s.threads && DoClientOp(s, t, op, now) == Some(after) && PcFacts(cfg, s.containers, s.threads[t])
    ensures CallCounts(s, ClientOp(t, op, now), c, after)
  {
    hide AfterOp, Goto, Change;
    GotoFields();
    ChangeFields();
  }

  lemma CallersCount(cfg: Config, s: State, step: Step, c: nat, after: State)
    requires step.t in s.threads && ApplyCallers(cfg, s, step) == Some(after) && PcFacts(cfg, s.containers, s.threads[step.t])
    requires forall d :: d in s.containers ==> s.containers[d].pauses <= 1
    ensures CallCounts(s, step, c, after)
  {
    hide CallCounts, PcFacts, DoUnpauseWarm, DoWarmFirewall, DoNewFirewall, DoClientOp;
    match step
    case UnpauseWarm(t, ok, known) => UnpauseWarmCounts(cfg, s, t, ok, known, c, after);
    case WarmFirewall(t, needed, ok) => WarmFirewallCounts(s, t, needed, ok, c, after);
    case NewFirewall(t, needed, ok) => NewFirewallCounts(s, t, needed, ok, c, after);
    case ClientOp(t, op, now) => ClientOpCounts(cfg, s, t, op, now, c, after);
    case _ =>
  }

  lemma ArrivingPausesNothing(s: State, step: Step, c: nat, after: State)
    requires step.Arrive? && DoArrive(s, step.t, step.key) == Some(after)
    ensures CallCounts(s, step, c, after)
  {
  }

  /** Every step schedules a pause only where none is scheduled, answers one only where one is, and
      leaves all others alone. */
  lemma StepCounts(cfg: Config, s: State, step: Step, c: nat, after: State)
    requires Inv(cfg, s) && Apply(cfg, s, step) == Some(after)
    ensures CallCounts(s, step, c, after)
  {
    hide Inv, CallCounts, DoArrive, ApplyCounters, ApplyPrewarming, ApplyLists, ApplyLifetimes, ApplyCallers, PcFacts;
    AtMostOnePause(cfg, s);
    if step.Arrive? { ArrivingPausesNothing(s, step, c, after); }
    else if OnCounters(step) { CountersPauseNothing(cfg, s, step, c, after); }
    else if OnPrewarming(step) { PrewarmingPausesNothing(cfg, s, step, c, after); }
    else if OnLists(step) { ListsPauseNothing(cfg, s, step, c, after); }
    else if step.UnpauseDoomed? || step.Remove? || step.ReleaseIp? { RemovingUnpauses(cfg, s, step, c, after); }
    else if OnLifetimes(step) { CreatingPausesNothing(cfg, s, step, c, after); }
    else { FactsOf(cfg, s, step.t); CallersCount(cfg, s, step, c, after); }
  }

  lemma AtMostOnePause(cfg: Config, s: State)
    requires Inv(cfg, s)
    ensures forall d :: d in s.containers ==> s.containers[d].pauses <= 1
  {
    hide MemoryInv, CensusInv, AddressInv, PrewarmInv, ListFacts, PcFacts, HistoryOk;
  }

  lemma {:induction false} CallsAlternateFrom(cfg: Config, s: State, steps: seq<Step>, c: nat)
    requires Sensible(cfg) && Inv(cfg, s)
    ensures Alternate(CallsOn(cfg, s, steps, c), Pauses(s, c) == 1)
    decreases |steps|
  {
    hide Inv, Sensible, Apply, Pauses, CallOn;
    if steps != [] && Apply(cfg, s, steps[0]).Some? {
      var next := Apply(cfg, s, steps[0]).value;
      StepKeeps(cfg, s, steps[0], next);
      StepCounts(cfg, s, steps[0], c, next);
      CallsAlternateFrom(cfg, next, steps[1..], c);
      var rest := CallsOn(cfg, next, steps[1..], c);
      if CallOn(s, steps[0], c).Some? { assert ([CallOn(s, steps[0], c).value] + rest)[1..] == rest; }
    }
  }

  /** In every run of the pool, its calls on any one container alternate between scheduling a pause and
      unpausing, whoever makes them. */
  lemma PoolCallsAlternate(cfg: Config, steps: seq<Step>, c: nat)
    requires Sensible(cfg)
    ensures Alternate(CallsOn(cfg, Initial(cfg), steps, c), false)
  {
    hide Inv, Sensible;
    InitialHolds(cfg);
    CallsAlternateFrom(cfg, Initial(cfg), steps, c);
  }

  // ---------------------------------------------------------------- callers and the handshake

  /** A caller was given the container and has not stamped it yet. */
  predicate HandedOut(pc: Pc, c: nat) { (pc.WarmAwake? || pc.Using?) && pc.c == c }

  /** What the last call on a container says about it. */
  ghost predicate Known(s: State, c: nat, last: Option<Call>) {
    && (Pauses(s, c) == 1 <==> last == Some(Schedule))
    && (forall t :: t in s.threads && HandedOut(s.threads[t], c) ==> last.None? || last == Some(UnpauseToUse(true)))
    && (c !in s.containers || s.containers[c].uses == [] ==> last.None?)
  }

  /** A step by which nobody is given a container. */
  ghost predicate GivesNothing(s: State, t: nat, after: State) {
    && t in s.threads && t in after.threads && after.threads == s.threads[t := after.threads[t]]
    && !after.threads[t].WarmAwake? && !after.threads[t].Using?
  }

  lemma CountersGiveNothing(cfg: Config, s: State, step: Step, after: State)
    requires step.t in s.threads && ApplyCounters(cfg, s, step) == Some(after)
    ensures GivesNothing(s, step.t, after)
  {
    hide Goto, AddU64, NegU64;
    GotoFields();
  }

  lemma PrewarmingGivesNothing(cfg: Config, s: State, step: Step, after: State)
    requires step.t in s.threads && ApplyPrewarming(cfg, s, step) == Some(after)
    ensures GivesNothing(s, step.t, after)
  {
    hide Goto;
    GotoFields();
  }

  lemma GettingGivesNothing(cfg: Config, s: State, t: nat, evicted: seq<Pooled>, rest: Idles, after: State)
    requires t in s.threads && DoLockedGet(cfg, s, t, evicted, rest) == Some(after)
    ensures GivesNothing(s, t, after)
  {
    hide Evicts, Fits, Ids, Memory, SubU64, ListOf, Goto;
    GotoFields();
    var key := s.threads[t].key;
    var mine := ListOf(s.idles, key);
    var pc := if mine != [] then WarmPopped(key, mine[|mine| - 1].id)
              else if Fits(cfg, s, evicted, s.threads[t].snapshot) then MakingSpace(key, Ids(evicted)) else Settling(cfg.memoryOf(key));
    assert after.threads == s.threads[t := pc];
  }

  lemma ListsGiveNothing(cfg: Config, s: State, step: Step, after: State)
    requires step.t in s.threads && ApplyLists(cfg, s, step) == Some(after)
    ensures GivesNothing(s, step.t, after)
  {
    hide GivesNothing, Reaps, Enumerates, Ids, AddU64, SubU64, DoLockedGet, Goto;
    GotoFields();
    if step.LockedGet? { GettingGivesNothing(cfg, s, step.t, step.evicted, step.rest, after); }
    else { GivesIfSo(s, step.t, after, after.threads[step.t]); }
  }

  lemma GivesIfSo(s: State, t: nat, after: State, pc: Pc)
    requires t in s.threads && after.threads == s.threads[t := pc] && !pc.WarmAwake? && !pc.Using?
    ensures GivesNothing(s, t, after)
  {
  }

  lemma EndingGivesNothing(cfg: Config, purpose: Purpose, next: After)
    ensures !CreateFailed(cfg, purpose).WarmAwake? && !CreateFailed(cfg, purpose).Using?
    ensures !Resume(cfg, next).WarmAwake? && !Resume(cfg, next).Using?
  {
  }

  lemma AddressingGivesNothing(cfg: Config, s: State, t: nat, after: State)
    requires t in s.threads && DoAcquireIp(cfg, s, t) == Some(after)
    ensures GivesNothing(s, t, after)
  {
    hide GivesNothing, KindFor, CreateFailed, Goto;
    GotoFields();
    EndingGivesNothing(cfg, s.threads[t].purpose, NextDelete);
    GivesIfSo(s, t, after, after.threads[t]);
  }

  lemma CreatingGivesNothing(cfg: Config, s: State, t: nat, c: nat, ok: bool, after: State)
    requires t in s.threads && DoDockerCreate(cfg, s, t, c, ok) == Some(after)
    ensures GivesNothing(s, t, after)
  {
    hide GivesNothing, MemoryFor, CreateFailed, Goto, Change;
    GotoFields();
    ChangeFields();
    EndingGivesNothing(cfg, s.threads[t].purpose, NextDelete);
    GivesIfSo(s, t, after, after.threads[t]);
  }

  lemma BringingUpGivesNothing(s: State, t: nat, ok: bool, after: State)
    requires t in s.threads && DoBringUp(s, t, ok) == Some(after)
    ensures GivesNothing(s, t, after)
  {
    hide GivesNothing, Goto;
    GotoFields();
    GivesIfSo(s, t, after, after.threads[t]);
  }

  lemma LifetimesGiveNothing(cfg: Config, s: State, step: Step, after: State)
    requires step.t in s.threads && ApplyLifetimes(cfg, s, step) == Some(after)
    ensures GivesNothing(s, step.t, after)
  {
    hide GivesNothing, DoAcquireIp, DoDockerCreate, DoBringUp, DoUnpauseDoomed, DoRemove, DoReleaseIp;
    if step.AcquireIp? { AddressingGivesNothing(cfg, s, step.t, after); }
    else if step.DockerCreate? { CreatingGivesNothing(cfg, s, step.t, step.c, step.ok, after); }
    else if step.BringUp? { BringingUpGivesNothing(s, step.t, step.ok, after); }
    else { RemovingGivesNothing(cfg, s, step, after); }
  }

  lemma RemovingGivesNothing(cfg: Config, s: State, step: Step, after: State)
    requires step.UnpauseDoomed? || step.Remove? || step.ReleaseIp?
    requires step.t in s.threads && ApplyLifetimes(cfg, s, step) == Some(after)
    ensures GivesNothing(s, step.t, after)
  {
    hide GivesNothing, Resume, DoAcquireIp, DoDockerCreate, DoBringUp, Goto, Change;
    GotoFields();
    ChangeFields();
    EndingGivesNothing(cfg, ForPrewarm(PrewarmKey("", 0), map[]), s.threads[step.t].after);
    GivesIfSo(s, step.t, after, after.threads[step.t]);
  }

  /** Whoever was just given a container holds it by its own step: by a warm container that was unpaused,
      by a new one that was set up, or by having it before. */
  ghost predicate Given(s: State, step: Step, after: State, c: nat) {
    var t := step.t;
    t in s.threads && t in after.threads && after.threads == s.threads[t := after.threads[t]]
    && (HandedOut(after.threads[t], c) ==>
          || (HandedOut(s.threads[t], c) && CallOn(s, step, c).None?)
          || ((s.threads[t].PrewarmPoked? || s.threads[t].ColdCreated?) && s.threads[t].c == c && CallOn(s, step, c).None?)
          || CallOn(s, step, c) == Some(UnpauseToUse(true)))
  }

  lemma CallersAreGiven(cfg: Config, s: State, step: Step, after: State, c: nat)
    requires step.t in s.threads && ApplyCallers(cfg, s, step) == Some(after)
    ensures Given(s, step, after, c)
  {
    hide Given, DoUnpauseWarm, DoWarmFirewall, DoNewFirewall, DoClientOp;
    if step.UnpauseWarm? { UnpausedIsGiven(cfg, s, step, after, c); }
    else if step.WarmFirewall? { WarmIsGiven(s, step, after, c); }
    else if step.NewFirewall? { NewIsGiven(s, step, after, c); }
    else { UsedIsGiven(s, step, after, c); }
  }

  lemma UnpausedIsGiven(cfg: Config, s: State, step: Step, after: State, c: nat)
    requires step.UnpauseWarm? && step.t in s.threads && DoUnpauseWarm(cfg, s, step.t, step.ok, step.stateKnown) == Some(after)
    ensures Given(s, step, after, c)
  {
    hide Goto, Change;
    GotoFields();
    ChangeFields();
  }

  lemma WarmIsGiven(s: State, step: Step, after: State, c: nat)
    requires step.WarmFirewall? && step.t in s.threads && DoWarmFirewall(s, step.t, step.needed, step.ok) == Some(after)
    ensures Given(s, step, after, c)
  {
    hide Goto, Change;
    GotoFields();
    ChangeFields();
  }

  lemma NewIsGiven(s: State, step: Step, after: State, c: nat)
    requires step.NewFirewall? && step.t in s.threads && DoNewFirewall(s, step.t, step.needed, step.ok) == Some(after)
    ensures Given(s, step, after, c)
  {
    hide Goto, Change;
    GotoFields();
    ChangeFields();
  }

  lemma UsedIsGiven(s: State, step: Step, after: State, c: nat)
    requires step.ClientOp? && step.t in s.threads && DoClientOp(s, step.t, step.op, step.now) == Some(after)
    ensures Given(s, step, after, c)
  {
    hide Goto, Change, Used;
    GotoFields();
    ChangeFields();
  }

  lemma StepGives(cfg: Config, s: State, step: Step, after: State, c: nat)
    requires !step.Arrive? && Apply(cfg, s, step) == Some(after)
    ensures Given(s, step, after, c)
  {
    hide Given, ApplyCounters, ApplyPrewarming, ApplyLists, ApplyLifetimes, ApplyCallers, GivesNothing;
    if OnCounters(step) { CountersGiveNothing(cfg, s, step, after); }
    else if OnPrewarming(step) { PrewarmingGivesNothing(cfg, s, step, after); }
    else if OnLists(step) { ListsGiveNothing(cfg, s, step, after); }
    else if OnLifetimes(step) { LifetimesGiveNothing(cfg, s, step, after); }
    else { CallersAreGiven(cfg, s, step, after, c); }
    if GivesNothing(s, step.t, after) { NothingIsGiven(s, step, after, c); }
  }

  lemma NothingIsGiven(s: State, step: Step, after: State, c: nat)
    requires GivesNothing(s, step.t, after)
    ensures Given(s, step, after, c)
  {
  }

  /** Whoever calls holds the container, and so nobody else was given it. */
  lemma CallerIsAlone(cfg: Config, s: State, step: Step, c: nat, t: nat)
    requires Inv(cfg, s) && CallOn(s, step, c).Some? && t in s.threads && t != step.t
    ensures !HandedOut(s.threads[t], c)
  {
    hide Inv, CensusInv, NotListed, Holds, HandedOut, CallOn;
    CallerHolds(s, step, c);
    InvParts(cfg, s);
    Alone(cfg, s, step.t, c);
    HandedOutIsHeld(s.threads[t], c);
  }

  lemma CallerHolds(s: State, step: Step, c: nat)
    requires CallOn(s, step, c).Some?
    ensures step.t in s.threads && c in Holds(s.threads[step.t])
  {
  }

  lemma HandedOutIsHeld(pc: Pc, c: nat)
    ensures HandedOut(pc, c) ==> c in Holds(pc)
  {
  }

  /** The first pause is scheduled for a container that has been used. */
  lemma CallsAreForUsed(cfg: Config, s: State, step: Step, c: nat, after: State, last: Option<Call>)
    requires Inv(cfg, s) && Apply(cfg, s, step) == Some(after) && CallOn(s, step, c).Some? && Known(s, c, last)
    ensures c in s.containers && s.containers[c].uses != []
  {
    hide Inv;
    StepCounts(cfg, s, step, c, after);
    if step.ClientOp? {
      FactsOf(cfg, s, step.t);
      PutIsApplied(cfg, s, step, after);
    }
  }

  lemma PutIsApplied(cfg: Config, s: State, step: Step, after: State)
    requires step.ClientOp? && step.op.Put? && Apply(cfg, s, step) == Some(after)
    ensures step.t in s.threads && s.threads[step.t].Using? && s.threads[step.t].stage == Client.Returning
  {
    hide Goto, Change, Used;
  }

  lemma StepIsKnown(cfg: Config, s: State, step: Step, c: nat, after: State, last: Option<Call>)
    requires Inv(cfg, s) && Apply(cfg, s, step) == Some(after) && Known(s, c, last)
    ensures Known(after, c, if CallOn(s, step, c).Some? then CallOn(s, step, c) else last)
  {
    hide Inv, Apply, CallOn;
    StepCounts(cfg, s, step, c, after);
    StepRemembers(cfg, s, step, after, c);
    if CallOn(s, step, c).Some? { CallsAreForUsed(cfg, s, step, c, after, last); }
    forall t | t in after.threads && HandedOut(after.threads[t], c)
      ensures var now := if CallOn(s, step, c).Some? then CallOn(s, step, c) else last; now.None? || now == Some(UnpauseToUse(true))
    {
      HandedOutIsKnown(cfg, s, step, c, after, last, t);
    }
  }

  lemma HandedOutIsKnown(cfg: Config, s: State, step: Step, c: nat, after: State, last: Option<Call>, t: nat)
    requires Inv(cfg, s) && Apply(cfg, s, step) == Some(after) && Known(s, c, last)
    requires t in after.threads && HandedOut(after.threads[t], c)
    ensures var now := if CallOn(s, step, c).Some? then CallOn(s, step, c) else last; now.None? || now == Some(UnpauseToUse(true))
  {
    hide Inv, ApplyCounters, ApplyPrewarming, ApplyLists, ApplyLifetimes, ApplyCallers, Pauses;
    if !step.Arrive? {
      StepGives(cfg, s, step, after, c);
      if t == step.t {
        if s.threads[t].PrewarmPoked? || s.threads[t].ColdCreated? { NewIsUnused(cfg, s, t); }
      } else if CallOn(s, step, c).Some? {
        CallerIsAlone(cfg, s, step, c, t);
      }
    }
  }

  lemma NewIsUnused(cfg: Config, s: State, t: nat)
    requires Inv(cfg, s) && t in s.threads && (s.threads[t].PrewarmPoked? || s.threads[t].ColdCreated?)
    ensures s.threads[t].c in s.containers && s.containers[s.threads[t].c].uses == []
  {
    hide Inv, HistoryOk;
    FactsOf(cfg, s, t);
  }

  lemma {:induction false} RunIsKnown(cfg: Config, s: State, steps: seq<Step>, c: nat, after: State, last: Option<Call>)
    requires Sensible(cfg) && Inv(cfg, s) && Known(s, c, last) && RunAll(cfg, s, steps) == Some(after)
    ensures Known(after, c, Handshake.Latest(last, CallsOn(cfg, s, steps, c)))
    decreases |steps|
  {
    hide Inv, Sensible, Apply, Known, CallOn;
    if steps != [] {
      var next := Apply(cfg, s, steps[0]).value;
      var call := CallOn(s, steps[0], c);
      StepKeeps(cfg, s, steps[0], next);
      StepIsKnown(cfg, s, steps[0], c, next, last);
      RunIsKnown(cfg, next, steps[1..], c, after, if call.Some? then call else last);
    }
  }

  // ---------------------------------------------------------------- both together

  /** A completed call of the handshake is this call of the pool, with the answer the pool acted on. */
  predicate Answers(call: Call, answer: Handshake.PoolCall) {
    match call
    case Schedule => answer.Schedule?
    case UnpauseToUse(ok) => answer == Handshake.Unpause(ok)
    case UnpauseToRemove => answer.Unpause?
  }

  predicate AllAnswer(calls: seq<Call>, answers: seq<Handshake.PoolCall>) {
    |calls| == |answers| && forall i :: 0 <= i < |calls| ==> Answers(calls[i], answers[i])
  }

  lemma {:induction false} AnswersAlternate(calls: seq<Call>, answers: seq<Handshake.PoolCall>, scheduled: bool)
    requires AllAnswer(calls, answers) && Alternate(calls, scheduled)
    ensures Handshake.Alternate(answers, scheduled)
    decreases |calls|
  {
    if calls != [] {
      assert Answers(calls[0], answers[0]);
      AnswersAlternate(calls[1..], answers[1..], !scheduled);
    }
  }

  lemma NothingIsKnownAtFirst(cfg: Config, c: nat)
    ensures Known(Initial(cfg), c, None)
  {
  }

  /** Pool and handshake together. Take any run of the pool and any run of the handshake of one container
      in which the calls and the answers to them are the same, however timers, goroutines and docker
      interleave with them. Then the handshake keeps the discipline; a container in a caller's hands is
      running and no pause is left that could still fire; and one for which a pause is scheduled has its
      goroutine or is about to be unpaused. */
  lemma PoolAndHandshakeAgree(cfg: Config, steps: seq<Step>, s: State, c: nat, handshake: seq<Handshake.Step>, after: Handshake.State)
    requires Sensible(cfg) && RunAll(cfg, Initial(cfg), steps) == Some(s)
    requires Handshake.RunAll(Handshake.Initial, handshake) == Some(after)
    requires AllAnswer(CallsOn(cfg, Initial(cfg), steps, c), Handshake.CallsOf(Handshake.Initial, handshake))
    ensures Handshake.Paired(Handshake.Initial, handshake) && |after.goroutines| <= 1
    ensures forall t :: t in s.threads && HandedOut(s.threads[t], c) ==>
      after.owner == Handshake.InUse && !after.frozen && after.goroutines == map[]
    ensures Pauses(s, c) == 1 <==> Handshake.Open(after.owner)
  {
    hide Initial, Inv, Sensible, Handshake.Paired, Handshake.RunAll, RunAll, Pauses, HandedOut;
    var calls, answers := CallsOn(cfg, Initial(cfg), steps, c), Handshake.CallsOf(Handshake.Initial, handshake);
    PoolCallsAlternate(cfg, steps, c);
    AnswersAlternate(calls, answers, false);
    Handshake.AlternatingCallsArePaired(Handshake.Initial, handshake, None);
    assert Handshake.Reachable(after);
    Handshake.OneGoroutine(after);
    Handshake.OwnerStands(Handshake.Initial, handshake, after, None);
    InitialHolds(cfg);
    NothingIsKnownAtFirst(cfg, c);
    RunIsKnown(cfg, Initial(cfg), steps, c, s, None);
    if calls != [] { assert Answers(calls[|calls| - 1], answers[|calls| - 1]); }
    if after.owner == Handshake.InUse { Handshake.NilMeansRunning(after, Handshake.UnpauseIfNeeded); }
  }
}
