/** One invocation, from the message to the activation record. */
module Runner {
  import opened Common
  import opened Text
  import opened LogCollection
  import Client

  // ---------------------------------------------------------------- messages

  const FUNCTION_FETCH := "Function could not be fetched."
  const FUNCTION_NOT_FOUND := "Function could not be found or may have been deleted."
  const PROVISION := "Failed to provision resources to run the function."
  const ABNORMAL_INIT := "The function did not initialize and exited unexpectedly."
  const ABNORMAL_RUN := "The function did not produce a valid response and exited unexpectedly."
  const MEMORY_EXHAUSTED := "The function exhausted its memory and was aborted."
  const LOG_COLLECTION := "There was an issue while collecting your logs. Logs might be missing."

  function InitTimeoutMessage(milliseconds: nat): string {
    "The function exceeded its time limits of " + Decimal(milliseconds) + " milliseconds during initialization."
  }

  function TimeoutMessage(milliseconds: nat): string {
    "The function exceeded its time limits of " + Decimal(milliseconds) + " milliseconds."
  }

  function TruncatedResponseMessage(response: string, length: nat): string {
    "The function produced a response that exceeded the allowed length: " + Decimal(length) + " > " + Decimal(|response|)
      + " bytes. The truncated response was: " + response
  }

  function InvalidResponseMessage(response: string): string {
    "The function did not produce a valid JSON response: " + response
  }

  function Punctuate(message: string): string {
    if message != "" && message[|message| - 1] == '.' then message else message + "."
  }

  // ---------------------------------------------------------------- the world around one invocation

  datatype Message = Message(isBlocking: bool, storeActivations: bool, causedBy: string)

  /** Times in nanoseconds. */
  const MILLISECOND: nat := 1_000_000
  const MIN_INIT_DURATION: nat := 10_000 * MILLISECOND

  datatype Function = Function(entrypoint: string, timeout: nat, logLimit: nat)

  datatype Fetched = Found(fn: Function) | NotFound | FetchFailed

  datatype ContainerState = Unknown | OutOfMemory | Exited | Other

  datatype Got = Obtained(reused: bool) | BrokenOnReuse(state: ContainerState) | GetFailed

  datatype CallError = LimitExceeded(length: nat) | DeadlineExceeded | OtherError

  /** How a call into the container ends, when it starts and ends, and the state found afterwards. */
  datatype Call = Call(response: string, error: Option<CallError>, begin: int, end: int, state: ContainerState)

  datatype Parsed = Invalid | Null | Object(hasError: bool)

  /** What the container writes to its log, and how many lines arrive in time. */
  datatype Output = Output(lines: seq<LogLine>, arrived: nat, timedOut: bool, now: string)

  datatype World = World(
    start: int,
    fetched: Fetched,
    got: Got,
    init: Call,
    run: Call,
    parseResult: string -> Parsed,
    errorField: string -> Option<string>,
    output: Output
  )

  /** An empty text is no JSON; log collection is only over in time once both sentinels arrived. */
  ghost predicate Sane(w: World) {
    && w.parseResult("") == Invalid
    && w.output.arrived <= |w.output.lines|
    && (!w.output.timedOut ==> Complete(w.output.lines[..w.output.arrived]))
  }

  // ---------------------------------------------------------------- the activation

  datatype StatusCode = Success | ApplicationError | DeveloperError | SystemError

  datatype Record = Record(
    start: int,
    end: int,
    isTimeout: bool,
    initTime: int,
    entrypoint: string,
    result: string,
    error: string,
    status: StatusCode,
    logs: seq<string>
  )

  class Activation {
    var start: int
    var end: int
    var isTimeout: bool
    var initTime: int
    var entrypoint: string
    var result: string
    var error: string
    var status: StatusCode
    var logs: seq<string>

    constructor (now: int)
      ensures Value() == Record(now, now, false, 0, "", "", "", SystemError, [])
    {
      start, end, isTimeout, initTime := now, now, false, 0;
      entrypoint, result, error, status, logs := "", "", "", SystemError, [];
    }

    function Value(): Record
      reads this
    {
      Record(start, end, isTimeout, initTime, entrypoint, result, error, status, logs)
    }
  }

  // ---------------------------------------------------------------- what a failed call means

  datatype Phase = Init | Run

  datatype Cause = TooLarge | Memory | Crash | Deadline | Reported | Abnormal

  /** Why a call failed: the first of these that applies. */
  function CauseOf(c: Call, errorField: string -> Option<string>): Cause
    requires c.error.Some?
  {
    if c.error.value.LimitExceeded? then TooLarge
    else if c.state == OutOfMemory then Memory
    else if c.state == Exited then Crash
    else if c.error.value.DeadlineExceeded? then Deadline
    else if c.response != "" && errorField(c.response).Some? && errorField(c.response).value != "" then Reported
    else Abnormal
  }

  function CauseText(phase: Phase, timeout: nat, c: Call, errorField: string -> Option<string>): (text: string)
    requires c.error.Some?
    ensures text != ""
  {
    match CauseOf(c, errorField)
    case TooLarge => TruncatedResponseMessage(c.response, c.error.value.length)
    case Memory => MEMORY_EXHAUSTED
    case Crash => ABNORMAL_RUN
    case Deadline =>
      if phase == Init then InitTimeoutMessage(timeout / MILLISECOND) else TimeoutMessage(timeout / MILLISECOND)
    case Reported => errorField(c.response).value
    case Abnormal => if phase == Init then ABNORMAL_INIT else ABNORMAL_RUN
  }

  /** At least ten seconds are granted for an initialisation. */
  function InitTimeout(fn: Function): nat {
    if fn.timeout > MIN_INIT_DURATION then fn.timeout else MIN_INIT_DURATION
  }

  // ---------------------------------------------------------------- the expected trace

  datatype Event = Fetch | Get | Use(op: Client.Op) | Write(record: Record)

  function OutcomeOf(c: Call): Client.RunOutcome {
    if c.error.None? then Client.RanFine
    else if c.error.value.LimitExceeded? then Client.ResponseTooLarge
    else Client.RunFailed
  }

  predicate InitFails(reused: bool, w: World) { !reused && w.init.error.Some? }

  /** Initialisation failed, the run failed other than by its response limit, or the logs timed out. */
  predicate Destroys(reused: bool, w: World) {
    InitFails(reused, w) || OutcomeOf(w.run) == Client.RunFailed || w.output.timedOut
  }

  function CallOps(reused: bool, w: World): seq<Client.Op> {
    (if reused then [] else [Client.Initialize(w.init.error.None?)])
      + (if InitFails(reused, w) then [] else [Client.Run(OutcomeOf(w.run))])
  }

  /** What the runner does with the container it obtained. */
  function Ops(reused: bool, w: World): seq<Client.Op> {
    CallOps(reused, w) + [Client.CollectLogs(w.output.timedOut)] + [if Destroys(reused, w) then Client.PutToDestroy else Client.Put]
  }

  function Uses(ops: seq<Client.Op>): seq<Event> {
    if ops == [] then [] else [Use(ops[0])] + Uses(ops[1..])
  }

  lemma {:induction false} UsesAppend(a: seq<Client.Op>, b: seq<Client.Op>)
    ensures Uses(a + b) == Uses(a) + Uses(b)
  {
    if a == [] {
      assert a + b == b;
    } else {
      assert (a + b)[1..] == a[1..] + b;
      UsesAppend(a[1..], b);
    }
  }

  /** The operations are exactly what a client of the pool may do, from obtaining the container to
      giving it back; whether it is destroyed is decided by what happened on the way. */
  lemma OpsKeepTheProtocol(reused: bool, w: World)
    ensures Client.NextAll(Client.Start(reused), Ops(reused, w)) == Some(Client.Finished)
  {
    var start := Client.Start(reused);
    var calls, logs := CallOps(reused, w), [Client.CollectLogs(w.output.timedOut)];
    if reused {
      assert calls == [calls[0]];
    } else if InitFails(reused, w) {
      assert calls == [calls[0]];
    } else {
      assert calls == [calls[0]] + [calls[1]];
      Client.NextAllAppend(start, [calls[0]], calls[1]);
    }
    Client.NextAllAppend(start, calls, logs[0]);
    Client.NextAllAppend(start, calls + logs, if Destroys(reused, w) then Client.PutToDestroy else Client.Put);
  }

  // ---------------------------------------------------------------- the expected record

  /** The response of an invocation that obtained a container. */
  predicate Responds(reused: bool, fn: Function, w: World, r: Record) {
    if InitFails(reused, w) then
      && r.status == DeveloperError && r.result == "" && r.error == CauseText(Init, InitTimeout(fn), w.init, w.errorField)
      && (r.isTimeout <==> CauseOf(w.init, w.errorField) == Deadline)
    else if w.run.error.Some? then
      && r.status == (if w.run.error.value.LimitExceeded? then ApplicationError else DeveloperError)
      && r.result == "" && r.error == CauseText(Run, fn.timeout, w.run, w.errorField)
      && (r.isTimeout <==> CauseOf(w.run, w.errorField) == Deadline)
    else
      && !r.isTimeout
      && match w.parseResult(w.run.response)
         case Invalid => r.status == DeveloperError && r.result == "" && r.error == InvalidResponseMessage(w.run.response)
         case Null => r.status == Success && r.result == "{}" && r.error == ""
         case Object(hasError) =>
           r.status == (if hasError then ApplicationError else Success) && r.result == w.run.response && r.error == ""
  }

  /** The time reported is the time spent in initialisation and in the run, and nothing in between. */
  predicate Timed(reused: bool, w: World, r: Record) {
    && r.initTime == (if reused then 0 else w.init.end - w.init.begin)
    && r.end == (if InitFails(reused, w) then w.init.end else w.run.end)
    && r.end - r.start == r.initTime + if InitFails(reused, w) then 0 else w.run.end - w.run.begin
  }

  /** The text added when log collection timed out. */
  function TimeoutLog(error: string, now: string): string {
    FormatLog(now, Stderr, if error == "" then LOG_COLLECTION else Punctuate(error) + " Logs might be missing.")
  }

  /** The logs are what a collection of the arrived lines gives, plus one line if it timed out. */
  ghost predicate Logged(fn: Function, o: Output, error: string, logs: seq<string>)
    requires o.arrived <= |o.lines|
  {
    exists consumed: nat, kept: nat ::
      && consumed <= o.arrived
      && (if Complete(o.lines[..o.arrived]) then IsSegment(o.lines[..consumed]) else consumed == o.arrived)
      && var formatted := Formatted(o.lines[..consumed]);
      && LongestPrefix(formatted, fn.logLimit, kept)
      && logs == formatted[..kept] + (if kept < |formatted| then [TruncationNotice(o.now, fn.logLimit)] else [])
                 + (if o.timedOut then [TimeoutLog(error, o.now)] else [])
  }

  /** The entry point of a function that was found; `main` unless it names another. */
  function Entrypoint(w: World): string {
    match w.fetched
    case Found(fn) => if fn.entrypoint == "" then "main" else fn.entrypoint
    case _ => ""
  }

  /** A container was obtained. */
  predicate Obtains(w: World) { w.fetched.Found? && w.got.Obtained? }

  /** The response of an invocation that obtained none. */
  predicate Refuses(w: World, r: Record) {
    && r.result == "" && !r.isTimeout && r.initTime == 0 && r.start == r.end == w.start && r.logs == []
    && if w.fetched.NotFound? then r.status == ApplicationError && r.error == FUNCTION_NOT_FOUND
       else if w.fetched.FetchFailed? then r.status == SystemError && r.error == FUNCTION_FETCH
       else if w.got.BrokenOnReuse? && w.got.state == OutOfMemory then r.status == DeveloperError && r.error == MEMORY_EXHAUSTED
       else if w.got.BrokenOnReuse? && w.got.state == Exited then r.status == DeveloperError && r.error == ABNORMAL_RUN
       else r.status == SystemError && r.error == PROVISION
  }

  // ---------------------------------------------------------------- the runner

  class Runner {
    var events: seq<Event>

    constructor ()
      ensures events == []
    {
      events := [];
    }

    /** What a failed call other than by its response limit puts into the activation. */
    method Diagnose(phase: Phase, timeout: nat, c: Call, errorField: string -> Option<string>, activation: Activation)
      requires c.error.Some? && !c.error.value.LimitExceeded? && !activation.isTimeout
      modifies activation`error, activation`isTimeout
      ensures activation.error == CauseText(phase, timeout, c, errorField)
      ensures activation.isTimeout <==> CauseOf(c, errorField) == Deadline
      ensures c.state == OutOfMemory ==> activation.error == MEMORY_EXHAUSTED && !activation.isTimeout
      ensures c.state == Exited ==> activation.error == ABNORMAL_RUN && !activation.isTimeout
      ensures activation.isTimeout <==> c.error.value == DeadlineExceeded && c.state != OutOfMemory && c.state != Exited
      ensures activation.isTimeout ==>
        activation.error == if phase == Init then InitTimeoutMessage(timeout / 1_000_000) else TimeoutMessage(timeout / 1_000_000)
      ensures !activation.isTimeout && c.state != OutOfMemory && c.state != Exited ==>
        activation.error ==
          if c.response != "" && errorField(c.response).Some? && errorField(c.response).value != "" then errorField(c.response).value
          else if phase == Init then ABNORMAL_INIT
          else ABNORMAL_RUN
    {
      hide InitTimeoutMessage, TimeoutMessage, TruncatedResponseMessage;
      if c.state == OutOfMemory {
        activation.error := MEMORY_EXHAUSTED;
        return;
      } else if c.state == Exited {
        activation.error := ABNORMAL_RUN;
        return;
      }
      if c.error.value == DeadlineExceeded {
        activation.isTimeout := true;
        activation.error := if phase == Init then InitTimeoutMessage(timeout / MILLISECOND) else TimeoutMessage(timeout / MILLISECOND);
        return;
      }
      if |c.response| > 0 {
        var parsed := errorField(c.response);
        if parsed.Some? && parsed.value != "" {
          activation.error := parsed.value;
          return;
        }
      }
      activation.error := if phase == Init then ABNORMAL_INIT else ABNORMAL_RUN;
    }

    /** Initialises a container that was never used. */
    method Initialize(fn: Function, w: World, activation: Activation) returns (containerBroken: bool)
      requires activation.Value().(entrypoint := "") == Record(w.start, w.start, false, 0, "", "", "", SystemError, [])
      modifies this`events, activation
      ensures events == old(events) + [Use(Client.Initialize(w.init.error.None?))]
      ensures containerBroken <==> w.init.error.Some?
      ensures activation.initTime == w.init.end - w.init.begin
      ensures activation.logs == [] && activation.entrypoint == old(activation.entrypoint)
      ensures containerBroken ==> Responds(false, fn, w, activation.Value()) && Timed(false, w, activation.Value())
      ensures !containerBroken ==> activation.result == "" && activation.error == "" && !activation.isTimeout
    {
      hide CauseText, CauseOf, TruncatedResponseMessage;
      var initTimeout := MIN_INIT_DURATION;
      if fn.timeout > MIN_INIT_DURATION {
        initTimeout := fn.timeout;
      }
      events := events + [Use(Client.Initialize(w.init.error.None?))];
      activation.initTime := w.init.end - w.init.begin;
      activation.start := w.init.begin;
      activation.end := w.init.end;
      containerBroken := false;
      if w.init.error.Some? {
        containerBroken := true;
        activation.status := DeveloperError;
        if w.init.error.value.LimitExceeded? {
          activation.error := TruncatedResponseMessage(w.init.response, w.init.error.value.length);
          TooLargeText(Init, initTimeout, w.init, w.errorField);
        } else {
          Diagnose(Init, initTimeout, w.init, w.errorField, activation);
        }
      }
    }

    /** Runs the function in an initialised container. */
    method RunFunction(reused: bool, fn: Function, w: World, activation: Activation) returns (containerBroken: bool)
      requires !InitFails(reused, w) && activation.result == "" && activation.error == "" && !activation.isTimeout
      requires activation.initTime == if reused then 0 else w.init.end - w.init.begin
      modifies this`events, activation
      ensures events == old(events) + [Use(Client.Run(OutcomeOf(w.run)))]
      ensures containerBroken <==> w.run.error.Some? && !w.run.error.value.LimitExceeded?
      ensures Responds(reused, fn, w, activation.Value()) && Timed(reused, w, activation.Value())
      ensures activation.logs == old(activation.logs) && activation.entrypoint == old(activation.entrypoint)
    {
      hide CauseText, CauseOf, InvalidResponseMessage, TruncatedResponseMessage;
      containerBroken := false;
      events := events + [Use(Client.Run(OutcomeOf(w.run)))];
      activation.start := w.run.begin - activation.initTime;
      activation.end := w.run.end;
      if w.run.error.Some? {
        if w.run.error.value.LimitExceeded? {
          activation.status := ApplicationError;
          activation.error := TruncatedResponseMessage(w.run.response, w.run.error.value.length);
          TooLargeText(Run, fn.timeout, w.run, w.errorField);
          return;
        }
        containerBroken := true;
        activation.status := DeveloperError;
        Diagnose(Run, fn.timeout, w.run, w.errorField, activation);
        return;
      }

      var parsedResult := w.parseResult(w.run.response);
      if parsedResult.Invalid? {
        activation.status := DeveloperError;
        activation.error := InvalidResponseMessage(w.run.response);
        return;
      }
      activation.result := w.run.response;
      if parsedResult.Null? {
        activation.result := "{}";
      }
      activation.status := Success;
      if parsedResult.Object? && parsedResult.hasError {
        activation.status := ApplicationError;
      }
    }

    /** Initialises the container if it is not reused, and runs the function. */
    method UseContainer(reused: bool, fn: Function, w: World, activation: Activation) returns (containerBroken: bool)
      requires activation.Value().(entrypoint := "") == Record(w.start, w.start, false, 0, "", "", "", SystemError, [])
      modifies this`events, activation
      ensures events == old(events) + Uses(CallOps(reused, w))
      ensures containerBroken <==> InitFails(reused, w) || OutcomeOf(w.run) == Client.RunFailed
      ensures Responds(reused, fn, w, activation.Value()) && Timed(reused, w, activation.Value())
      ensures activation.logs == [] && activation.entrypoint == old(activation.entrypoint)
    {
      hide Responds, Timed, Uses, CallOps;
      CallEvents(reused, w);
      containerBroken := false;
      if !reused {
        containerBroken := Initialize(fn, w, activation);
        if containerBroken {
          return;
        }
      }
      containerBroken := RunFunction(reused, fn, w, activation);
    }

    /** Waits for the logs; a timeout cancels their collection. */
    method AwaitLogs(fn: Function, o: Output, activation: Activation) returns (containerBroken: bool)
      requires o.arrived <= |o.lines| && (!o.timedOut ==> Complete(o.lines[..o.arrived]))
      modifies this`events, activation`logs
      ensures events == old(events) + [Use(Client.CollectLogs(o.timedOut))]
      ensures containerBroken == o.timedOut
      ensures Logged(fn, o, activation.error, activation.logs)
    {
      hide IsSegment, Formatted, LongestPrefix, Complete, FormatLog, TruncationNotice;
      var logs, consumed, kept, complete := CollectLogs(o.lines, o.arrived, fn.logLimit, o.now);
      events := events + [Use(Client.CollectLogs(o.timedOut))];
      activation.logs := logs;
      containerBroken := false;
      if o.timedOut {
        var message := LOG_COLLECTION;
        if activation.error != "" {
          message := Punctuate(activation.error) + " Logs might be missing.";
        }
        activation.logs := activation.logs + [FormatLog(o.now, Stderr, message)];
        containerBroken := true;
      } else {
        assert logs + [] == logs;
      }
    }

    /** Uses the container, collects its logs and gives it back, in this order on every path. */
    method WithContainer(reused: bool, fn: Function, w: World, activation: Activation)
      requires Sane(w)
      requires activation.Value().(entrypoint := "") == Record(w.start, w.start, false, 0, "", "", "", SystemError, [])
      modifies this`events, activation
      ensures events == old(events) + Uses(Ops(reused, w))
      ensures Responds(reused, fn, w, activation.Value()) && Timed(reused, w, activation.Value())
      ensures Logged(fn, w.output, activation.error, activation.logs)
      ensures activation.entrypoint == old(activation.entrypoint)
    {
      hide Responds, Timed, Logged, CallOps, Uses, Ops;
      var callFailed := UseContainer(reused, fn, w, activation);
      ghost var used := activation.Value();
      var logsFailed := AwaitLogs(fn, w.output, activation);
      LogsDoNotMatter(reused, fn, w, used, activation.Value());
      var containerBroken := callFailed || logsFailed;
      if containerBroken {
        events := events + [Use(Client.PutToDestroy)];
      } else {
        events := events + [Use(Client.Put)];
      }
      AllEvents(reused, w);
    }

    /** Everything but the final write; what Go defers comes after the use of the container. */
    method Perform(w: World, activation: Activation)
      requires Sane(w) && activation.Value() == Record(w.start, w.start, false, 0, "", "", "", SystemError, [])
      modifies this`events, activation
      ensures events == old(events) + [Fetch] + (if w.fetched.Found? then [Get] else [])
                      + (if Obtains(w) then Uses(Ops(w.got.reused, w)) else [])
      ensures Obtains(w) ==>
        && Responds(w.got.reused, w.fetched.fn, w, activation.Value()) && Timed(w.got.reused, w, activation.Value())
        && Logged(w.fetched.fn, w.output, activation.error, activation.logs)
      ensures !Obtains(w) ==> Refuses(w, activation.Value())
      ensures activation.entrypoint == Entrypoint(w)
    {
      hide Responds, Timed, Logged, Uses, Ops;
      events := events + [Fetch];
      match w.fetched {
        case NotFound =>
          activation.status := ApplicationError;
          activation.error := FUNCTION_NOT_FOUND;
          return;
        case FetchFailed =>
          activation.status := SystemError;
          activation.error := FUNCTION_FETCH;
          return;
        case Found(fn) =>
          activation.entrypoint := if fn.entrypoint == "" then "main" else fn.entrypoint;
          events := events + [Get];
          match w.got {
            case BrokenOnReuse(OutOfMemory) =>
              activation.status := DeveloperError;
              activation.error := MEMORY_EXHAUSTED;
            case BrokenOnReuse(Exited) =>
              activation.status := DeveloperError;
              activation.error := ABNORMAL_RUN;
            case Obtained(reused) =>
              WithContainer(reused, fn, w, activation);
            case _ =>
              activation.status := SystemError;
              activation.error := PROVISION;
          }
      }
    }

    /** `Invoke`: always returns an activation, and writes it last, if at all. */
    method Invoke(message: Message, w: World) returns (activation: Activation)
      requires Sane(w)
      modifies this`events
      ensures fresh(activation)
      ensures events == old(events) + [Fetch] + (if w.fetched.Found? then [Get] else [])
                      + (if Obtains(w) then Uses(Ops(w.got.reused, w)) else [])
                      + (if !message.isBlocking && message.storeActivations then [Write(activation.Value())] else [])
      ensures Obtains(w) ==>
        && Responds(w.got.reused, w.fetched.fn, w, activation.Value()) && Timed(w.got.reused, w, activation.Value())
        && Logged(w.fetched.fn, w.output, activation.error, activation.logs)
      ensures !Obtains(w) ==> Refuses(w, activation.Value())
      ensures activation.entrypoint == Entrypoint(w)
      ensures (activation.error == "") != (activation.result == "")
      ensures activation.status == SystemError ==> !Obtains(w)
      ensures activation.entrypoint == if !w.fetched.Found? then "" else if w.fetched.fn.entrypoint == "" then "main" else w.fetched.fn.entrypoint
      // A failed initialisation.
      ensures Obtains(w) && !w.got.reused && w.init.error.Some? && !w.init.error.value.LimitExceeded? ==>
        var c, fn := w.init, w.fetched.fn;
        var granted := if fn.timeout > 10_000_000_000 then fn.timeout else 10_000_000_000;
        && activation.status == DeveloperError
        && (c.state == OutOfMemory ==> activation.error == MEMORY_EXHAUSTED && !activation.isTimeout)
        && (c.state == Exited ==> activation.error == ABNORMAL_RUN && !activation.isTimeout)
        && (activation.isTimeout <==> c.error.value == DeadlineExceeded && c.state != OutOfMemory && c.state != Exited)
        && (activation.isTimeout ==> activation.error == InitTimeoutMessage(granted / 1_000_000))
      // A failed run.
      ensures Obtains(w) && !(!w.got.reused && w.init.error.Some?) && w.run.error.Some? && !w.run.error.value.LimitExceeded? ==>
        var c, fn := w.run, w.fetched.fn;
        && activation.status == DeveloperError
        && (c.state == OutOfMemory ==> activation.error == MEMORY_EXHAUSTED && !activation.isTimeout)
        && (c.state == Exited ==> activation.error == ABNORMAL_RUN && !activation.isTimeout)
        && (activation.isTimeout <==> c.error.value == DeadlineExceeded && c.state != OutOfMemory && c.state != Exited)
        && (activation.isTimeout ==> activation.error == TimeoutMessage(fn.timeout / 1_000_000))
      // The container is destroyed exactly if initialisation failed, the run failed other than by the size of its
      // response, or the logs timed out; otherwise it is put back.
      ensures Obtains(w) ==>
        var destroyed := (!w.got.reused && w.init.error.Some?) || (w.run.error.Some? && !w.run.error.value.LimitExceeded?) || w.output.timedOut;
        && (Use(Client.PutToDestroy) in events[|old(events)|..] <==> destroyed)
        && (Use(Client.Put) in events[|old(events)|..] <==> !destroyed)
    {
      hide Logged, Uses, Ops, Timed, Responds, CauseText, CauseOf, InitTimeoutMessage, TimeoutMessage, Destroys, Refuses;
      activation := new Activation(w.start);
      Perform(w, activation);
      ResponseIsSetOnce(w, activation.Value());
      if Obtains(w) {
        FailedInit(w.got.reused, w.fetched.fn, w, activation.Value());
        FailedRun(w.got.reused, w.fetched.fn, w, activation.Value());
        ReturnedHow(w.got.reused, w);
      }
      if !message.isBlocking && message.storeActivations {
        events := events + [Write(activation.Value())];
      }
      if Obtains(w) {
        assert events[|old(events)|..] == [Fetch] + [Get] + Uses(Ops(w.got.reused, w))
          + if !message.isBlocking && message.storeActivations then [Write(activation.Value())] else [];
      }
    }
  }

  /** What a failed initialisation leaves in the record. */
  lemma FailedInit(reused: bool, fn: Function, w: World, r: Record)
    requires Responds(reused, fn, w, r)
    ensures !reused && w.init.error.Some? && !w.init.error.value.LimitExceeded? ==>
      var c := w.init;
      var granted := if fn.timeout > 10_000_000_000 then fn.timeout else 10_000_000_000;
      && r.status == DeveloperError
      && (c.state == OutOfMemory ==> r.error == MEMORY_EXHAUSTED && !r.isTimeout)
      && (c.state == Exited ==> r.error == ABNORMAL_RUN && !r.isTimeout)
      && (r.isTimeout <==> c.error.value == DeadlineExceeded && c.state != OutOfMemory && c.state != Exited)
      && (r.isTimeout ==> r.error == InitTimeoutMessage(granted / 1_000_000))
  {
    hide InitTimeoutMessage, TimeoutMessage;
  }

  /** And a failed run. */
  lemma FailedRun(reused: bool, fn: Function, w: World, r: Record)
    requires Responds(reused, fn, w, r)
    ensures !(!reused && w.init.error.Some?) && w.run.error.Some? && !w.run.error.value.LimitExceeded? ==>
      var c := w.run;
      && r.status == DeveloperError
      && (c.state == OutOfMemory ==> r.error == MEMORY_EXHAUSTED && !r.isTimeout)
      && (c.state == Exited ==> r.error == ABNORMAL_RUN && !r.isTimeout)
      && (r.isTimeout <==> c.error.value == DeadlineExceeded && c.state != OutOfMemory && c.state != Exited)
      && (r.isTimeout ==> r.error == TimeoutMessage(fn.timeout / 1_000_000))
  {
    hide InitTimeoutMessage, TimeoutMessage;
  }

  /** How the container is given back. */
  lemma ReturnedHow(reused: bool, w: World)
    ensures var destroyed := (!reused && w.init.error.Some?) || (w.run.error.Some? && !w.run.error.value.LimitExceeded?) || w.output.timedOut;
      && (Use(Client.PutToDestroy) in Uses(Ops(reused, w)) <==> destroyed)
      && (Use(Client.Put) in Uses(Ops(reused, w)) <==> !destroyed)
  {
    hide Uses, Ops, CallOps;
    AllEvents(reused, w);
    CallEvents(reused, w);
  }

  lemma TooLargeText(phase: Phase, timeout: nat, c: Call, errorField: string -> Option<string>)
    requires c.error.Some? && c.error.value.LimitExceeded?
    ensures CauseText(phase, timeout, c, errorField) == TruncatedResponseMessage(c.response, c.error.value.length)
    ensures CauseOf(c, errorField) != Deadline
  {
  }

  lemma UsesOf(op: Client.Op)
    ensures Uses([op]) == [Use(op)]
  {
    assert [op][1..] == [];
  }

  /** The events of the calls. */
  lemma CallEvents(reused: bool, w: World)
    ensures Uses(CallOps(reused, w))
         == (if reused then [] else [Use(Client.Initialize(w.init.error.None?))])
          + (if InitFails(reused, w) then [] else [Use(Client.Run(OutcomeOf(w.run)))])
  {
    var init, run := Client.Initialize(w.init.error.None?), Client.Run(OutcomeOf(w.run));
    UsesOf(run);
    UsesOf(init);
    UsesAppend(if reused then [] else [init], if InitFails(reused, w) then [] else [run]);
  }

  lemma AllEvents(reused: bool, w: World)
    ensures Uses(Ops(reused, w)) == Uses(CallOps(reused, w)) + [Use(Client.CollectLogs(w.output.timedOut))]
                                  + [Use(if Destroys(reused, w) then Client.PutToDestroy else Client.Put)]
  {
    var last := if Destroys(reused, w) then Client.PutToDestroy else Client.Put;
    UsesAppend(CallOps(reused, w) + [Client.CollectLogs(w.output.timedOut)], [last]);
    UsesAppend(CallOps(reused, w), [Client.CollectLogs(w.output.timedOut)]);
    UsesOf(last);
    UsesOf(Client.CollectLogs(w.output.timedOut));
  }

  lemma LogsDoNotMatter(reused: bool, fn: Function, w: World, before: Record, after: Record)
    requires Responds(reused, fn, w, before) && Timed(reused, w, before)
    requires after == before.(logs := after.logs)
    ensures Responds(reused, fn, w, after) && Timed(reused, w, after)
  {
  }

  /** Exactly one of result and error is set, and a system error means that no container was obtained. */
  lemma ResponseIsSetOnce(w: World, r: Record)
    requires Sane(w)
    requires Obtains(w) ==> Responds(w.got.reused, w.fetched.fn, w, r)
    requires !Obtains(w) ==> Refuses(w, r)
    ensures (r.error == "") != (r.result == "")
    ensures r.status == SystemError ==> !Obtains(w)
  {
    assert InvalidResponseMessage(w.run.response) != "";
  }

  /** A run's times are ordered when the clock does not run backwards. */
  lemma TimesAreOrdered(reused: bool, w: World, r: Record)
    requires Timed(reused, w, r)
    requires w.run.begin <= w.run.end && (!reused ==> w.init.begin <= w.init.end <= w.run.begin)
    ensures r.start <= r.end && r.initTime >= 0
    ensures !reused && !InitFails(reused, w) ==> r.start >= w.init.begin
  {
  }

  // ---------------------------------------------------------------- the record in full

  /** The response of a run that ended without an error, and of calls whose response is too large. */
  lemma ResponseInFull(reused: bool, fn: Function, w: World, r: Record)
    requires Responds(reused, fn, w, r)
    ensures !(!reused && w.init.error.Some?) && w.run.error.None? ==>
      && !r.isTimeout
      && (w.parseResult(w.run.response).Invalid? ==>
            r.status == DeveloperError && r.result == "" && r.error == "The function did not produce a valid JSON response: " + w.run.response)
      && (w.parseResult(w.run.response).Null? ==> r.status == Success && r.result == "{}" && r.error == "")
      && (w.parseResult(w.run.response) == Object(false) ==> r.status == Success && r.result == w.run.response && r.error == "")
      && (w.parseResult(w.run.response) == Object(true) ==> r.status == ApplicationError && r.result == w.run.response && r.error == "")
    ensures !reused && w.init.error.Some? && w.init.error.value.LimitExceeded? ==>
      r.status == DeveloperError && r.result == "" && !r.isTimeout && IsTruncated(r.error, w.init.response, w.init.error.value.length)
    ensures !(!reused && w.init.error.Some?) && w.run.error.Some? && w.run.error.value.LimitExceeded? ==>
      r.status == ApplicationError && r.result == "" && !r.isTimeout && IsTruncated(r.error, w.run.response, w.run.error.value.length)
  {
    hide InitTimeoutMessage, TimeoutMessage, IsTruncated;
    TruncatedText(w.init.response, if w.init.error.Some? && w.init.error.value.LimitExceeded? then w.init.error.value.length else 0);
    TruncatedText(w.run.response, if w.run.error.Some? && w.run.error.value.LimitExceeded? then w.run.error.value.length else 0);
  }

  predicate IsTruncated(text: string, response: string, length: nat) {
    text == "The function produced a response that exceeded the allowed length: " + Decimal(length) + " > " + Decimal(|response|)
            + " bytes. The truncated response was: " + response
  }

  lemma TruncatedText(response: string, length: nat)
    ensures IsTruncated(TruncatedResponseMessage(response, length), response, length)
  {
    hide Decimal;
  }

  /** The other texts an activation can end with. */
  lemma MessagesInFull(milliseconds: nat, error: string, now: string)
    ensures InitTimeoutMessage(milliseconds)
         == "The function exceeded its time limits of " + Decimal(milliseconds) + " milliseconds during initialization."
    ensures TimeoutMessage(milliseconds) == "The function exceeded its time limits of " + Decimal(milliseconds) + " milliseconds."
    ensures MEMORY_EXHAUSTED == "The function exhausted its memory and was aborted."
    ensures ABNORMAL_INIT == "The function did not initialize and exited unexpectedly."
    ensures ABNORMAL_RUN == "The function did not produce a valid response and exited unexpectedly."
    ensures TimeoutLog("", now) == FormatLog(now, Stderr, "There was an issue while collecting your logs. Logs might be missing.")
    ensures error != "" && error[|error| - 1] == '.' ==> TimeoutLog(error, now) == FormatLog(now, Stderr, error + " Logs might be missing.")
    ensures error != "" && error[|error| - 1] != '.' ==> TimeoutLog(error, now) == FormatLog(now, Stderr, error + "." + " Logs might be missing.")
  {
    hide Decimal, FormatLog;
  }

  /** What happens to a container, in order. */
  lemma UseInFull(reused: bool, w: World)
    ensures var initFailed := !reused && w.init.error.Some?;
      var runFailed := !initFailed && w.run.error.Some? && !w.run.error.value.LimitExceeded?;
      Uses(Ops(reused, w)) ==
        (if reused then [] else [Use(Client.Initialize(w.init.error.None?))])
        + (if initFailed then []
           else if w.run.error.None? then [Use(Client.Run(Client.RanFine))]
           else if w.run.error.value.LimitExceeded? then [Use(Client.Run(Client.ResponseTooLarge))]
           else [Use(Client.Run(Client.RunFailed))])
        + [Use(Client.CollectLogs(w.output.timedOut))]
        + [if initFailed || runFailed || w.output.timedOut then Use(Client.PutToDestroy) else Use(Client.Put)]
  {
    hide Uses, Ops, CallOps;
    AllEvents(reused, w);
    CallEvents(reused, w);
  }

  /** The times of every record that comes from a container. */
  lemma TimesInFull(reused: bool, w: World, r: Record)
    requires Timed(reused, w, r)
    ensures reused ==> r.initTime == 0 && r.start == w.run.begin && r.end == w.run.end
    ensures !reused ==> r.initTime == w.init.end - w.init.begin
    ensures !reused && w.init.error.Some? ==> r.start == w.init.begin && r.end == w.init.end
    ensures !reused && w.init.error.None? ==> r.start == w.run.begin - r.initTime && r.end == w.run.end
  {
  }

  /** The record of an invocation that got no container. */
  lemma RefusalInFull(w: World, r: Record)
    requires Refuses(w, r)
    ensures r.result == "" && !r.isTimeout && r.initTime == 0 && r.start == w.start && r.end == w.start && r.logs == []
    ensures w.fetched == NotFound ==>
      r.status == ApplicationError && r.error == "Function could not be found or may have been deleted."
    ensures w.fetched == FetchFailed ==> r.status == SystemError && r.error == "Function could not be fetched."
    ensures w.fetched.Found? && w.got == BrokenOnReuse(OutOfMemory) ==>
      r.status == DeveloperError && r.error == "The function exhausted its memory and was aborted."
    ensures w.fetched.Found? && w.got == BrokenOnReuse(Exited) ==>
      r.status == DeveloperError && r.error == "The function did not produce a valid response and exited unexpectedly."
    ensures w.fetched.Found? && w.got in {GetFailed, BrokenOnReuse(Unknown), BrokenOnReuse(Other)} ==>
      r.status == SystemError && r.error == "Failed to provision resources to run the function."
  {
  }
}
