/** The handshake between the pool and the goroutines that pause idle containers, for one container.

    `PauseEventually` starts a goroutine that waits for a timer or for a stop; `UnpauseIfNeeded`
    sends a stop, receives an answer, and unpauses if the answer says so. Both channels are
    unbuffered, so sending and receiving are one joint step. Docker decides freely how every attempt
    to pause or unpause ends. */
module PauseHandshake {
  import opened Common

  const RETRIES: nat := 10

  /** How docker answers one attempt. A claim that the container already is in the wanted state makes
      the caller try again. */
  datatype Answer = Fine | ClaimsDone | Fails

  datatype Goroutine =
    | Waiting                                // in the select over timer and stop
    | Pausing(retries: nat)                  // the timer fired
    | Paused(failed: bool)                   // about to receive the stop
    | Answering(isPaused: bool, failed: bool)

  datatype Owner =
    | InUse                                  // the container is used; UnpauseIfNeeded returned nil
    | Scheduled                              // PauseEventually was called
    | Stopping                               // in UnpauseIfNeeded, sending the stop
    | Awaiting                               // in UnpauseIfNeeded, receiving the answer
    | Unpausing(retries: nat)                // in UnpauseIfNeeded, unpausing
    | Failed                                 // UnpauseIfNeeded returned an error

  /** `frozen` is whether docker holds the container paused. */
  datatype State = State(owner: Owner, goroutines: map<nat, Goroutine>, frozen: bool)

  const Initial := State(InUse, map[], false)

  datatype Step =
    | PauseEventually(g: nat)
    | UnpauseIfNeeded
    | TimerFires(g: nat)
    | PauseAttempt(g: nat, answer: Answer, frozen: bool)
    | Stop(g: nat)
    | Respond(g: nat)
    | UnpauseAttempt(answer: Answer, frozen: bool)

  function Set(s: State, g: nat, x: Goroutine): State { s.(goroutines := s.goroutines[g := x]) }

  /** Outcome of one attempt: done, try again, or give up. A failed call may leave either state. */
  datatype Attempt = Done | Again | GiveUp

  function Outcome(answer: Answer, retries: nat): Attempt {
    match answer
    case Fine => Done
    case ClaimsDone => if retries == RETRIES then GiveUp else Again
    case Fails => GiveUp
  }

  function DoPauseAttempt(s: State, g: nat, answer: Answer, frozen: bool): Option<State>
    requires g in s.goroutines
  {
    if !s.goroutines[g].Pausing? then None
    else
      var retries := s.goroutines[g].retries;
      match Outcome(answer, retries)
      case Done => Some(Set(s, g, Paused(false)).(frozen := true))
      case Again => Some(Set(s, g, Pausing(retries + 1)).(frozen := frozen))
      case GiveUp => Some(Set(s, g, Paused(true)).(frozen := frozen))
  }

  function DoStop(s: State, g: nat): Option<State>
    requires g in s.goroutines
  {
    if s.owner != Stopping then None
    else
      match s.goroutines[g]
      case Waiting => Some(Set(s, g, Answering(false, false)).(owner := Awaiting))
      case Paused(failed) => Some(Set(s, g, Answering(true, failed)).(owner := Awaiting))
      case _ => None
  }

  function DoRespond(s: State, g: nat): Option<State>
    requires g in s.goroutines
  {
    if s.owner != Awaiting || !s.goroutines[g].Answering? then None
    else
      var x := s.goroutines[g];
      var owner := if x.failed then Failed else if !x.isPaused then InUse else Unpausing(0);
      Some(s.(owner := owner, goroutines := s.goroutines - {g}))
  }

  function DoUnpauseAttempt(s: State, answer: Answer, frozen: bool): Option<State> {
    if !s.owner.Unpausing? then None
    else
      match Outcome(answer, s.owner.retries)
      case Done => Some(s.(owner := InUse, frozen := false))
      case Again => Some(s.(owner := Unpausing(s.owner.retries + 1), frozen := frozen))
      case GiveUp => Some(s.(owner := Failed, frozen := frozen))
  }

  /** The code lets anybody schedule a pause for a container that is used or already scheduled. */
  function Apply(s: State, step: Step): Option<State> {
    match step
    case PauseEventually(g) =>
      if g !in s.goroutines && s.owner in {InUse, Scheduled}
      then Some(Set(s, g, Waiting).(owner := Scheduled)) else None
    case UnpauseIfNeeded => if s.owner == Scheduled then Some(s.(owner := Stopping)) else None
    case TimerFires(g) => if g in s.goroutines && s.goroutines[g] == Waiting then Some(Set(s, g, Pausing(0))) else None
    case PauseAttempt(g, answer, frozen) => if g in s.goroutines then DoPauseAttempt(s, g, answer, frozen) else None
    case Stop(g) => if g in s.goroutines then DoStop(s, g) else None
    case Respond(g) => if g in s.goroutines then DoRespond(s, g) else None
    case UnpauseAttempt(answer, frozen) => DoUnpauseAttempt(s, answer, frozen)
  }

  function RunAll(s: State, steps: seq<Step>): Option<State>
    decreases |steps|
  {
    if steps == [] then Some(s)
    else
      match Apply(s, steps[0])
      case None => None
      case Some(next) => RunAll(next, steps[1..])
  }

  /** The pool's discipline: a pause is scheduled only for a container in use, so that each
      PauseEventually is followed by at most one UnpauseIfNeeded before the next. */
  predicate Paired(s: State, steps: seq<Step>)
    decreases |steps|
  {
    steps != [] ==>
      && (steps[0].PauseEventually? ==> s.owner == InUse)
      && (Apply(s, steps[0]).Some? ==> Paired(Apply(s, steps[0]).value, steps[1..]))
  }

  ghost predicate Reachable(s: State) {
    exists steps :: Paired(Initial, steps) && RunAll(Initial, steps) == Some(s)
  }

  // ---------------------------------------------------------------- the invariant

  /** The goroutine of a scheduled pause, by where the owner is. */
  predicate Fits(owner: Owner, x: Goroutine, frozen: bool) {
    && (owner == Awaiting <==> x.Answering?)
    && (x.Waiting? ==> !frozen)
    && (x.Pausing? ==> x.retries <= RETRIES)
    && (x.Answering? && !x.isPaused ==> !frozen && !x.failed)
    && (x.Paused? && !x.failed ==> frozen)
    && (x.Answering? && x.isPaused && !x.failed ==> frozen)
  }

  ghost predicate Inv(s: State) {
    && (s.owner in {Scheduled, Stopping, Awaiting} ==>
          exists g :: s.goroutines.Keys == {g} && Fits(s.owner, s.goroutines[g], s.frozen))
    && (s.owner !in {Scheduled, Stopping, Awaiting} ==> s.goroutines == map[])
    && (s.owner == InUse ==> !s.frozen)
    && (s.owner.Unpausing? ==> s.owner.retries <= RETRIES)
  }

  lemma StepKeeps(s: State, step: Step, after: State)
    requires Inv(s) && Apply(s, step) == Some(after)
    requires step.PauseEventually? ==> s.owner == InUse
    ensures Inv(after)
  {
    hide Fits, DoPauseAttempt, DoStop, DoRespond, DoUnpauseAttempt;
    if s.owner in {Scheduled, Stopping, Awaiting} {
      var g :| s.goroutines.Keys == {g} && Fits(s.owner, s.goroutines[g], s.frozen);
      PendingKeeps(s, step, after, g);
    } else if step.PauseEventually? {
      FirstFits(s.frozen);
      assert after.goroutines.Keys == {step.g} && Fits(after.owner, after.goroutines[step.g], after.frozen);
    } else {
      UnpausingKeeps(s, step, after);
    }
  }

  lemma FirstFits(frozen: bool)
    ensures !frozen ==> Fits(Scheduled, Waiting, frozen)
  {
  }

  lemma UnpausingKeeps(s: State, step: Step, after: State)
    requires Inv(s) && s.owner !in {Scheduled, Stopping, Awaiting} && !step.PauseEventually? && Apply(s, step) == Some(after)
    ensures Inv(after)
  {
    hide Fits, DoPauseAttempt, DoStop, DoRespond;
  }

  /** The goroutine that the owner waits for goes on, or is gone. */
  ghost predicate Pending(after: State, g: nat) {
    after.owner in {Scheduled, Stopping, Awaiting} && after.goroutines.Keys == {g} && Fits(after.owner, after.goroutines[g], after.frozen)
  }

  lemma PendingKeeps(s: State, step: Step, after: State, g: nat)
    requires s.owner in {Scheduled, Stopping, Awaiting} && Apply(s, step) == Some(after) && !step.PauseEventually?
    requires s.goroutines.Keys == {g} && Fits(s.owner, s.goroutines[g], s.frozen)
    ensures Inv(after)
  {
    hide Fits, Pending, Inv, DoPauseAttempt, DoStop, DoRespond, DoUnpauseAttempt;
    match step
    case PauseAttempt(h, answer, frozen) => AttemptStaysPending(s, g, answer, frozen, after); PendingIsKept(after, g);
    case Stop(h) => StopStaysPending(s, g, after); PendingIsKept(after, g);
    case Respond(h) => ResponseEndsIt(s, g, after);
    case UnpauseAttempt(answer, frozen) => NobodyUnpauses(s, answer, frozen);
    case UnpauseIfNeeded => CallStaysPending(s, after, g); PendingIsKept(after, g);
    case TimerFires(h) => TimerStaysPending(s, after, g); PendingIsKept(after, g);
    case _ =>
  }

  lemma PendingIsKept(after: State, g: nat)
    requires Pending(after, g)
    ensures Inv(after)
  {
    hide Fits;
  }

  lemma CallStaysPending(s: State, after: State, g: nat)
    requires s.owner == Scheduled && s.goroutines.Keys == {g} && Fits(s.owner, s.goroutines[g], s.frozen)
    requires after == s.(owner := Stopping)
    ensures Pending(after, g)
  {
  }

  lemma TimerStaysPending(s: State, after: State, g: nat)
    requires s.owner in {Scheduled, Stopping, Awaiting} && s.goroutines.Keys == {g} && Fits(s.owner, s.goroutines[g], s.frozen)
    requires s.goroutines[g] == Waiting && after == Set(s, g, Pausing(0))
    ensures Pending(after, g)
  {
  }

  lemma AttemptStaysPending(s: State, g: nat, answer: Answer, frozen: bool, after: State)
    requires s.owner in {Scheduled, Stopping, Awaiting} && s.goroutines.Keys == {g} && Fits(s.owner, s.goroutines[g], s.frozen)
    requires DoPauseAttempt(s, g, answer, frozen) == Some(after)
    ensures Pending(after, g)
  {
  }

  lemma StopStaysPending(s: State, g: nat, after: State)
    requires s.goroutines.Keys == {g} && Fits(s.owner, s.goroutines[g], s.frozen)
    requires DoStop(s, g) == Some(after)
    ensures Pending(after, g)
  {
  }

  lemma ResponseEndsIt(s: State, g: nat, after: State)
    requires s.goroutines.Keys == {g} && Fits(s.owner, s.goroutines[g], s.frozen)
    requires DoRespond(s, g) == Some(after)
    ensures Inv(after)
  {
    assert after.goroutines == map[];
  }

  lemma NobodyUnpauses(s: State, answer: Answer, frozen: bool)
    requires !s.owner.Unpausing?
    ensures DoUnpauseAttempt(s, answer, frozen) == None
  {
  }

  lemma {:induction false} RunKeeps(s: State, steps: seq<Step>, after: State)
    requires Inv(s) && Paired(s, steps) && RunAll(s, steps) == Some(after)
    ensures Inv(after)
    decreases |steps|
  {
    if steps != [] {
      var next := Apply(s, steps[0]).value;
      StepKeeps(s, steps[0], next);
      RunKeeps(next, steps[1..], after);
    }
  }

  lemma ReachableHolds(s: State)
    requires Reachable(s)
    ensures Inv(s)
  {
    var steps :| Paired(Initial, steps) && RunAll(Initial, steps) == Some(s);
    RunKeeps(Initial, steps, s);
  }

  // ---------------------------------------------------------------- whose calls keep the discipline

  /** The two calls of the pool on a container. Unpausing is a call of its own once it has returned. */
  datatype PoolCall = Schedule | Unpause(ok: bool)

  /** The call that a step completes. */
  function CallOf(s: State, step: Step, after: State): Option<PoolCall> {
    if step.PauseEventually? then Some(Schedule)
    else if s.owner != InUse && after.owner == InUse then Some(Unpause(true))
    else if s.owner != Failed && after.owner == Failed then Some(Unpause(false))
    else None
  }

  function CallsOf(s: State, steps: seq<Step>): seq<PoolCall>
    decreases |steps|
  {
    if steps == [] || Apply(s, steps[0]).None? then []
    else
      var next := Apply(s, steps[0]).value;
      var rest := CallsOf(next, steps[1..]);
      match CallOf(s, steps[0], next)
      case None => rest
      case Some(call) => [call] + rest
  }

  /** The calls alternate, beginning with an unpause if a pause is scheduled. */
  predicate Alternate(calls: seq<PoolCall>, scheduled: bool)
    decreases |calls|
  {
    calls != [] ==> calls[0].Unpause? == scheduled && Alternate(calls[1..], !scheduled)
  }

  /** A pause is scheduled and its unpausing has not returned. */
  predicate Open(owner: Owner) { owner in {Scheduled, Stopping, Awaiting} || owner.Unpausing? }

  /** Where the owner stands after its last call. */
  predicate Stands(owner: Owner, last: Option<PoolCall>) {
    match last
    case None => owner == InUse
    case Some(Schedule) => Open(owner)
    case Some(Unpause(ok)) => owner == if ok then InUse else Failed
  }

  function Latest<T>(last: Option<T>, calls: seq<T>): Option<T> {
    if calls == [] then last else Some(calls[|calls| - 1])
  }

  lemma StepStands(s: State, step: Step, after: State, last: Option<PoolCall>)
    requires Apply(s, step) == Some(after) && Stands(s.owner, last)
    ensures var call := CallOf(s, step, after); Stands(after.owner, if call.Some? then call else last)
    ensures CallOf(s, step, after).None? ==> Open(after.owner) == Open(s.owner)
    ensures CallOf(s, step, after).Some? ==> Open(after.owner) == CallOf(s, step, after).value.Schedule?
  {
  }

  /** The answers of the calls say where the owner stands, however timers, goroutines and docker
      interleave with them. */
  lemma {:induction false} OwnerStands(s: State, steps: seq<Step>, after: State, last: Option<PoolCall>)
    requires Stands(s.owner, last) && RunAll(s, steps) == Some(after)
    ensures Stands(after.owner, Latest(last, CallsOf(s, steps)))
    decreases |steps|
  {
    hide Apply, Stands, CallOf;
    if steps != [] {
      var next := Apply(s, steps[0]).value;
      var call := CallOf(s, steps[0], next);
      StepStands(s, steps[0], next, last);
      OwnerStands(next, steps[1..], after, if call.Some? then call else last);
    }
  }

  /** A pause is scheduled only when none is: whoever alternates its calls keeps the discipline, however
      timers, goroutines and docker interleave with them. */
  lemma {:induction false} AlternatingCallsArePaired(s: State, steps: seq<Step>, last: Option<PoolCall>)
    requires Stands(s.owner, last) && RunAll(s, steps).Some? && Alternate(CallsOf(s, steps), Open(s.owner))
    ensures Paired(s, steps)
    decreases |steps|
  {
    hide Stands, DoStop, DoRespond, DoPauseAttempt, DoUnpauseAttempt;
    if steps != [] {
      var next := Apply(s, steps[0]).value;
      var call := CallOf(s, steps[0], next);
      StepStands(s, steps[0], next, last);
      if call.Some? { assert CallsOf(s, steps)[1..] == CallsOf(next, steps[1..]); }
      AlternatingCallsArePaired(next, steps[1..], if call.Some? then call else last);
    }
  }

  // ---------------------------------------------------------------- safety

  /** Between PauseEventually and the answer to UnpauseIfNeeded exactly one pause goroutine exists;
      at all other times there is none. */
  lemma OneGoroutine(s: State)
    requires Reachable(s)
    ensures |s.goroutines| == if s.owner in {Scheduled, Stopping, Awaiting} then 1 else 0
  {
    ReachableHolds(s);
    if s.owner in {Scheduled, Stopping, Awaiting} {
      var g :| s.goroutines.Keys == {g};
      assert |s.goroutines| == |s.goroutines.Keys|;
    }
  }

  /** A nil result means the container runs and no pause scheduled earlier can still fire: nothing at
      all happens to it until the next pause is scheduled. */
  lemma NilMeansRunning(s: State, step: Step)
    requires Reachable(s) && s.owner == InUse
    ensures !s.frozen && s.goroutines == map[]
    ensures Apply(s, step).Some? ==> step.PauseEventually?
  {
    ReachableHolds(s);
  }

  /** No goroutine carries an error and the last call did not fail. */
  predicate NoFailure(s: State) {
    && s.owner != Failed
    && forall g :: g in s.goroutines ==>
         match s.goroutines[g] case Paused(failed) => !failed case Answering(_, failed) => !failed case _ => true
  }

  /** Docker gives up on one attempt of a run. */
  predicate GivesUp(s: State, steps: seq<Step>)
    decreases |steps|
  {
    steps != [] && Apply(s, steps[0]).Some? && (GivesUpAt(s, steps[0]) || GivesUp(Apply(s, steps[0]).value, steps[1..]))
  }

  predicate GivesUpAt(s: State, step: Step) {
    match step
    case PauseAttempt(g, answer, _) =>
      g in s.goroutines && s.goroutines[g].Pausing? && Outcome(answer, s.goroutines[g].retries) == GiveUp
    case UnpauseAttempt(answer, _) => s.owner.Unpausing? && Outcome(answer, s.owner.retries) == GiveUp
    case _ => false
  }

  /** UnpauseIfNeeded returns an error only after docker gave up pausing or unpausing. */
  lemma {:induction false} ErrorsComeFromDocker(s: State, steps: seq<Step>, after: State)
    requires NoFailure(s) && RunAll(s, steps) == Some(after) && !GivesUp(s, steps)
    ensures NoFailure(after)
    decreases |steps|
  {
    if steps != [] {
      var next := Apply(s, steps[0]).value;
      assert NoFailure(next);
      ErrorsComeFromDocker(next, steps[1..], after);
    }
  }

  /** What docker answered to the attempts to pause since the last `PauseEventually`, and to those to unpause. */
  datatype Heard = Heard(pause: seq<Answer>, unpause: seq<Answer>)

  function Hear(x: Heard, step: Step): Heard {
    match step
    case PauseEventually(_) => Heard([], [])
    case PauseAttempt(_, answer, _) => x.(pause := x.pause + [answer])
    case UnpauseAttempt(answer, _) => x.(unpause := x.unpause + [answer])
    case _ => x
  }

  /** Docker failed, or claimed eleven times that the container already is in the wanted state. */
  predicate GaveUp(answers: seq<Answer>) {
    answers != [] && (answers[|answers| - 1] == Fails || (|answers| == 11 && answers[10] == ClaimsDone))
  }

  /** What the result of an unpausing tells. If the pause did not begin, nothing is asked of docker and
      there is no error; if docker gave up pausing, that is the error and no unpausing is tried; and if the
      container was paused, it is unpaused, and an error means that docker gave up doing so. */
  predicate Explains(ok: bool, x: Heard) {
    if x.pause == [] then ok && x.unpause == []
    else if GaveUp(x.pause) then !ok && x.unpause == []
    else x.unpause != [] && (ok <==> !GaveUp(x.unpause))
  }

  /** Every result that a run gives is so explained by what was heard until then. */
  predicate ResultsAreExplained(s: State, steps: seq<Step>, x: Heard)
    decreases |steps|
  {
    steps != [] && Apply(s, steps[0]).Some? ==>
      var next, y := Apply(s, steps[0]).value, Hear(x, steps[0]);
      && (var call := CallOf(s, steps[0], next); call.Some? && call.value.Unpause? ==> Explains(call.value.ok, y))
      && ResultsAreExplained(next, steps[1..], y)
  }

  predicate Claims(answers: seq<Answer>, n: nat) { |answers| == n && forall i :: 0 <= i < n ==> answers[i] == ClaimsDone }

  /** A goroutine knows what was heard of its pause. */
  predicate Knows(g: Goroutine, answers: seq<Answer>) {
    match g
    case Waiting => answers == []
    case Pausing(retries) => Claims(answers, retries)
    case Paused(failed) => answers != [] && (failed <==> GaveUp(answers))
    case Answering(isPaused, failed) => (isPaused <==> answers != []) && (failed <==> GaveUp(answers))
  }

  /** So does the owner once it unpauses. */
  predicate HeardFits(s: State, x: Heard) {
    && (s.owner in {Scheduled, Stopping, Awaiting} ==> x.unpause == [] && forall g :: g in s.goroutines ==> Knows(s.goroutines[g], x.pause))
    && (s.owner.Unpausing? ==> x.pause != [] && !GaveUp(x.pause) && Claims(x.unpause, s.owner.retries))
  }

  lemma OneMoreAnswer(answers: seq<Answer>, retries: nat, answer: Answer)
    requires Claims(answers, retries) && retries <= 10
    ensures answer == ClaimsDone && retries < 10 ==> Claims(answers + [answer], retries + 1)
    ensures answer == Fine ==> !GaveUp(answers + [answer])
    ensures answer == Fails || (answer == ClaimsDone && retries == 10) ==> GaveUp(answers + [answer])
  {
    assert (answers + [answer])[|answers|] == answer;
  }

  lemma PauseIsHeard(s: State, step: Step, after: State, x: Heard, g: nat)
    requires step.PauseAttempt? && step.g == g && s.goroutines.Keys == {g} && Fits(s.owner, s.goroutines[g], s.frozen)
    requires HeardFits(s, x) && s.owner in {Scheduled, Stopping, Awaiting} && Apply(s, step) == Some(after)
    ensures HeardFits(after, Hear(x, step))
  {
    OneMoreAnswer(x.pause, s.goroutines[g].retries, step.answer);
    assert after.goroutines.Keys == {g};
  }

  lemma PendingIsHeard(s: State, step: Step, after: State, x: Heard, g: nat)
    requires s.goroutines.Keys == {g} && Fits(s.owner, s.goroutines[g], s.frozen) && s.owner in {Scheduled, Stopping, Awaiting}
    requires HeardFits(s, x) && Apply(s, step) == Some(after) && !step.PauseEventually? && !step.PauseAttempt?
    ensures HeardFits(after, Hear(x, step))
    ensures var call := CallOf(s, step, after); call.Some? && call.value.Unpause? ==> Explains(call.value.ok, Hear(x, step))
  {
    hide DoPauseAttempt;
  }

  lemma UnpausingIsHeard(s: State, step: Step, after: State, x: Heard)
    requires Inv(s) && s.owner.Unpausing? && HeardFits(s, x) && Apply(s, step) == Some(after) && !step.PauseEventually?
    ensures HeardFits(after, Hear(x, step))
    ensures var call := CallOf(s, step, after); call.Some? && call.value.Unpause? ==> Explains(call.value.ok, Hear(x, step))
  {
    OneMoreAnswer(x.unpause, s.owner.retries, step.answer);
  }

  lemma StepIsHeard(s: State, step: Step, after: State, x: Heard)
    requires Inv(s) && HeardFits(s, x) && Apply(s, step) == Some(after) && (step.PauseEventually? ==> s.owner == InUse)
    ensures HeardFits(after, Hear(x, step))
    ensures var call := CallOf(s, step, after); call.Some? && call.value.Unpause? ==> Explains(call.value.ok, Hear(x, step))
  {
    hide Fits, GaveUp, Claims, DoPauseAttempt, DoStop, DoRespond, DoUnpauseAttempt;
    if s.owner in {Scheduled, Stopping, Awaiting} {
      var g :| s.goroutines.Keys == {g} && Fits(s.owner, s.goroutines[g], s.frozen);
      if step.PauseAttempt? { PauseIsHeard(s, step, after, x, g); AttemptsAreNoCalls(s, step, after); }
      else { PendingIsHeard(s, step, after, x, g); }
    } else if s.owner.Unpausing? {
      UnpausingIsHeard(s, step, after, x);
    } else {
      NothingIsHeard(s, step, after, x);
    }
  }

  lemma AttemptsAreNoCalls(s: State, step: Step, after: State)
    requires step.PauseAttempt? && Apply(s, step) == Some(after)
    ensures CallOf(s, step, after).None?
  {
  }

  /** Only a new pause can come next. */
  lemma NothingIsHeard(s: State, step: Step, after: State, x: Heard)
    requires Inv(s) && s.owner in {InUse, Failed} && Apply(s, step) == Some(after)
    ensures step.PauseEventually? && HeardFits(after, Hear(x, step)) && CallOf(s, step, after) == Some(Schedule)
  {
    hide Fits, GaveUp, Claims;
  }

  lemma {:induction false} RunIsExplained(s: State, steps: seq<Step>, x: Heard)
    requires Inv(s) && HeardFits(s, x) && Paired(s, steps)
    ensures ResultsAreExplained(s, steps, x)
    decreases |steps|
  {
    hide Inv, HeardFits, Apply, CallOf, Explains, Hear;
    if steps != [] && Apply(s, steps[0]).Some? {
      var next := Apply(s, steps[0]).value;
      StepKeeps(s, steps[0], next);
      StepIsHeard(s, steps[0], next, x);
      RunIsExplained(next, steps[1..], Hear(x, steps[0]));
    }
  }

  /** Every result of every paired run is explained: it is an error if and only if docker gave up pausing or
      unpausing since the last `PauseEventually`. */
  lemma ErrorsTellWhatDockerDid(steps: seq<Step>)
    requires Paired(Initial, steps)
    ensures ResultsAreExplained(Initial, steps, Heard([], []))
  {
    hide Apply;
    RunIsExplained(Initial, steps, Heard([], []));
  }

  /** Nothing is taken for granted about docker and the timer: a waiting goroutine's timer can fire, and every
      attempt can end in any way. */
  lemma AnyAnswerCanCome(s: State, g: nat)
    ensures g in s.goroutines && s.goroutines[g].Waiting? ==> Apply(s, TimerFires(g)).Some?
    ensures g in s.goroutines && s.goroutines[g].Pausing? ==> forall answer, frozen :: Apply(s, PauseAttempt(g, answer, frozen)).Some?
    ensures s.owner.Unpausing? ==> forall answer, frozen :: Apply(s, UnpauseAttempt(answer, frozen)).Some?
    ensures s.owner == Scheduled ==> Apply(s, UnpauseIfNeeded).Some?
    ensures s.owner == InUse && g !in s.goroutines ==> Apply(s, PauseEventually(g)).Some?
  {
  }

  // ---------------------------------------------------------------- progress

  predicate InCall(s: State) { s.owner.Stopping? || s.owner.Awaiting? || s.owner.Unpausing? }

  /** No deadlock: as long as UnpauseIfNeeded has not returned, something can happen, and only the
      call and the goroutine it waits for can act. */
  lemma NoDeadlock(s: State) returns (step: Step)
    requires Reachable(s) && InCall(s)
    ensures Apply(s, step).Some?
    ensures forall other :: Apply(s, other).Some? ==> !other.PauseEventually? && !other.UnpauseIfNeeded?
  {
    ReachableHolds(s);
    if s.owner.Unpausing? {
      step := UnpauseAttempt(Fine, false);
    } else {
      var g :| s.goroutines.Keys == {g} && Fits(s.owner, s.goroutines[g], s.frozen);
      match s.goroutines[g]
      case Waiting => step := Stop(g);
      case Pausing(_) => step := PauseAttempt(g, Fine, true);
      case Paused(_) => step := Stop(g);
      case Answering(_, _) => step := Respond(g);
    }
  }

  function GoroutineRank(x: Goroutine): nat {
    match x
    case Waiting => RETRIES + 5
    case Pausing(retries) => if retries <= RETRIES then RETRIES + 4 - retries else 3
    case Paused(_) => 2
    case Answering(_, _) => 1
  }

  ghost function GoroutineRanks(gs: map<nat, Goroutine>): map<nat, nat> { map g | g in gs :: GoroutineRank(gs[g]) }

  /** How many steps can still happen before UnpauseIfNeeded returns. */
  ghost function Rank(s: State): nat {
    Sum(GoroutineRanks(s.goroutines)) +
      match s.owner
      case Stopping => RETRIES + 3
      case Awaiting => RETRIES + 2
      case Unpausing(retries) => if retries <= RETRIES then RETRIES + 1 - retries else 0
      case _ => 0
  }

  lemma SetRank(s: State, g: nat, x: Goroutine)
    requires g in s.goroutines
    ensures Sum(GoroutineRanks(s.goroutines[g := x]))
         == Sum(GoroutineRanks(s.goroutines)) - GoroutineRank(s.goroutines[g]) + GoroutineRank(x)
    ensures Sum(GoroutineRanks(s.goroutines - {g})) == Sum(GoroutineRanks(s.goroutines)) - GoroutineRank(s.goroutines[g])
  {
    SumUpdate(GoroutineRanks(s.goroutines), g, GoroutineRank(x));
    assert GoroutineRanks(s.goroutines[g := x]) == GoroutineRanks(s.goroutines)[g := GoroutineRank(x)];
    SumRemove(GoroutineRanks(s.goroutines), g);
    assert GoroutineRanks(s.goroutines - {g}) == GoroutineRanks(s.goroutines) - {g};
  }

  predicate Bounded(s: State) {
    && (s.owner.Unpausing? ==> s.owner.retries <= RETRIES)
    && forall g :: g in s.goroutines && s.goroutines[g].Pausing? ==> s.goroutines[g].retries <= RETRIES
  }

  lemma StepGetsCloser(s: State, step: Step, after: State)
    requires Bounded(s) && InCall(s) && Apply(s, step) == Some(after)
    ensures Rank(after) < Rank(s) && Bounded(after)
  {
    hide GoroutineRanks, DoStop, DoRespond, DoPauseAttempt;
    match step
    case TimerFires(g) => SetRank(s, g, Pausing(0));
    case PauseAttempt(g, answer, frozen) => PauseAttemptGetsCloser(s, g, answer, frozen, after);
    case Stop(g) => StopGetsCloser(s, g, after);
    case Respond(g) => RespondGetsCloser(s, g, after);
    case _ =>
  }

  lemma PauseAttemptGetsCloser(s: State, g: nat, answer: Answer, frozen: bool, after: State)
    requires Bounded(s) && g in s.goroutines && DoPauseAttempt(s, g, answer, frozen) == Some(after)
    ensures Rank(after) < Rank(s) && Bounded(after)
  {
    hide GoroutineRanks;
    SetRank(s, g, after.goroutines[g]);
  }

  lemma StopGetsCloser(s: State, g: nat, after: State)
    requires Bounded(s) && g in s.goroutines && DoStop(s, g) == Some(after)
    ensures Rank(after) < Rank(s) && Bounded(after)
  {
    hide GoroutineRanks;
    SetRank(s, g, after.goroutines[g]);
  }

  lemma RespondGetsCloser(s: State, g: nat, after: State)
    requires Bounded(s) && g in s.goroutines && DoRespond(s, g) == Some(after)
    ensures Rank(after) < Rank(s) && Bounded(after)
  {
    hide GoroutineRanks;
    SetRank(s, g, Waiting);
  }

  /** UnpauseIfNeeded has not returned at any point of the run. */
  predicate InCallThroughout(s: State, steps: seq<Step>)
    decreases |steps|
  {
    InCall(s) && (steps != [] ==> Apply(s, steps[0]).Some? && InCallThroughout(Apply(s, steps[0]).value, steps[1..]))
  }

  lemma {:induction false} RankBoundsRuns(s: State, steps: seq<Step>)
    requires Bounded(s) && InCallThroughout(s, steps)
    ensures |steps| <= Rank(s)
    decreases |steps|
  {
    hide Rank, Apply, InCall, Bounded;
    if steps != [] {
      var next := Apply(s, steps[0]).value;
      StepGetsCloser(s, steps[0], next);
      RankBoundsRuns(next, steps[1..]);
    }
  }

  /** Every UnpauseIfNeeded gets its answer: with docker calls that return, it takes part in at most 28
      steps of any run, whoever the scheduler prefers. */
  lemma AnswerArrives(s: State, steps: seq<Step>)
    requires Reachable(s) && InCallThroughout(s, steps)
    ensures |steps| <= 28
  {
    ReachableHolds(s);
    RankBoundsRuns(s, steps);
    if s.owner.Unpausing? {
      SumOfZeroes(GoroutineRanks(s.goroutines));
    } else {
      var g :| s.goroutines.Keys == {g} && Fits(s.owner, s.goroutines[g], s.frozen);
      SetRank(s, g, Waiting);
      assert s.goroutines - {g} == map[];
      SumOfZeroes(GoroutineRanks(s.goroutines - {g}));
    }
  }

  // ---------------------------------------------------------------- what the discipline is for

  /** Scheduling a second pause before the first is answered breaks it: the owner gets a nil result
      and uses the container, and then docker freezes it. */
  lemma UnpairedPausesFreezeAContainerInUse() returns (steps: seq<Step>, after: State)
    ensures RunAll(Initial, steps) == Some(after) && !Paired(Initial, steps)
    ensures after.owner == InUse && after.frozen
  {
    hide Apply, Paired;
    steps := [PauseEventually(0), PauseEventually(1), UnpauseIfNeeded, Stop(0), Respond(0),
              TimerFires(1), PauseAttempt(1, Fine, true)];
    var s1 := State(Scheduled, map[0 := Waiting], false);
    var s2 := State(Scheduled, map[0 := Waiting, 1 := Waiting], false);
    var s3 := s2.(owner := Stopping);
    var s4 := State(Awaiting, map[0 := Answering(false, false), 1 := Waiting], false);
    var s5 := State(InUse, map[1 := Waiting], false);
    var s6 := State(InUse, map[1 := Pausing(0)], false);
    after := State(InUse, map[1 := Paused(false)], true);
    SchedulesTwice(s1, s2);
    GetsNil(s3, s4, s5);
    FreezesLater(s5, s6, after);
    RunFrom(s6, steps, 6, after, after);
    RunFrom(s5, steps, 5, s6, after);
    RunFrom(s4, steps, 4, s5, after);
    RunFrom(s3, steps, 3, s4, after);
    assert Apply(s2, steps[2]) == Some(s3) by { Calls(s2); }
    RunFrom(s2, steps, 2, s3, after);
    RunFrom(s1, steps, 1, s2, after);
    RunFrom(Initial, steps, 0, s1, after);
    assert steps[0..] == steps;
    NotPaired(steps, s1);
  }

  lemma NotPaired(steps: seq<Step>, s1: State)
    requires |steps| >= 2 && steps[0].PauseEventually? && steps[1].PauseEventually?
    requires Apply(Initial, steps[0]) == Some(s1) && s1.owner != InUse
    ensures !Paired(Initial, steps)
  {
    hide Apply;
    assert steps[1..][0] == steps[1];
    assert !Paired(s1, steps[1..]);
  }

  lemma SchedulesTwice(s1: State, s2: State)
    requires s1 == State(Scheduled, map[0 := Waiting], false)
    requires s2 == State(Scheduled, map[0 := Waiting, 1 := Waiting], false)
    ensures Apply(Initial, PauseEventually(0)) == Some(s1) && Apply(s1, PauseEventually(1)) == Some(s2)
  {
  }

  lemma Calls(s: State)
    requires s.owner == Scheduled
    ensures Apply(s, UnpauseIfNeeded) == Some(s.(owner := Stopping))
  {
  }

  lemma GetsNil(s3: State, s4: State, s5: State)
    requires s3 == State(Stopping, map[0 := Waiting, 1 := Waiting], false)
    requires s4 == State(Awaiting, map[0 := Answering(false, false), 1 := Waiting], false)
    requires s5 == State(InUse, map[1 := Waiting], false)
    ensures Apply(s3, Stop(0)) == Some(s4) && Apply(s4, Respond(0)) == Some(s5)
  {
    assert s3.goroutines[0 := Answering(false, false)] == s4.goroutines;
    assert s4.goroutines - {0} == s5.goroutines;
  }

  lemma FreezesLater(s5: State, s6: State, after: State)
    requires s5 == State(InUse, map[1 := Waiting], false)
    requires s6 == State(InUse, map[1 := Pausing(0)], false)
    requires after == State(InUse, map[1 := Paused(false)], true)
    ensures Apply(s5, TimerFires(1)) == Some(s6) && Apply(s6, PauseAttempt(1, Fine, true)) == Some(after)
  {
    assert s5.goroutines[1 := Pausing(0)] == s6.goroutines;
    assert s6.goroutines[1 := Paused(false)] == after.goroutines;
  }

  lemma RunFrom(s: State, steps: seq<Step>, k: nat, next: State, after: State)
    requires k < |steps| && Apply(s, steps[k]) == Some(next)
    requires RunAll(next, steps[k + 1..]) == Some(after) || (k + 1 == |steps| && next == after)
    ensures RunAll(s, steps[k..]) == Some(after)
  {
    hide Apply;
    assert steps[k..][0] == steps[k] && steps[k..][1..] == steps[k + 1..];
  }
}
