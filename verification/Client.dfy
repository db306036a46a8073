/** How a caller uses the container it was handed: the order of operations that `Runner.Invoke`
    performs between a successful `Get` and the return to the pool. */
module Client {
  import opened Common

  /** Outcome of running the function: fine, response too large, or failed. */
  datatype RunOutcome = RanFine | ResponseTooLarge | RunFailed

  datatype Op =
    | Initialize(ok: bool)
    | Run(outcome: RunOutcome)
    | CollectLogs(timedOut: bool)
    | Put
    | PutToDestroy

  /** Where the caller stands. */
  datatype Stage =
    | Fresh       // must be initialised first
    | Ready       // initialised, may run
    | Served      // has run and can be reused
    | Broken      // initialisation or run failed
    | Returning   // logs collected, to be put back
    | Destroying  // logs collected, to be destroyed
    | Finished

  function Start(reused: bool): Stage { if reused then Ready else Fresh }

  function Next(stage: Stage, op: Op): Option<Stage> {
    match (stage, op)
    case (Fresh, Initialize(ok)) => Some(if ok then Ready else Broken)
    case (Ready, Run(outcome)) => Some(if outcome == RunFailed then Broken else Served)
    case (Served, CollectLogs(timedOut)) => Some(if timedOut then Destroying else Returning)
    case (Broken, CollectLogs(_)) => Some(Destroying)
    case (Returning, Put) => Some(Finished)
    case (Destroying, PutToDestroy) => Some(Finished)
    case _ => None
  }

  function NextAll(stage: Stage, ops: seq<Op>): Option<Stage>
    decreases |ops|
  {
    if ops == [] then Some(stage)
    else
      match Next(stage, ops[0])
      case None => None
      case Some(after) => NextAll(after, ops[1..])
  }

  lemma {:induction false} NextAllAppend(stage: Stage, ops: seq<Op>, op: Op)
    requires NextAll(stage, ops).Some?
    ensures NextAll(stage, ops + [op]) == Next(NextAll(stage, ops).value, op)
    decreases |ops|
  {
    if ops == [] {
      assert ops + [op] == [op];
      assert Next(stage, op).Some? ==> NextAll(Next(stage, op).value, [op][1..]) == Next(stage, op);
    } else {
      assert (ops + [op])[1..] == ops[1..] + [op];
      NextAllAppend(Next(stage, ops[0]).value, ops[1..], op);
    }
  }

  /** How the use of a container that is ready can go: it runs, its logs are collected, and it is put back
      unless the run failed or the logs timed out. */
  lemma ReadyRunsIff(ops: seq<Op>)
    ensures NextAll(Ready, ops) == Some(Finished) <==>
      exists outcome: RunOutcome, timedOut: bool ::
        ops == [Run(outcome), CollectLogs(timedOut), if outcome == RunFailed || timedOut then PutToDestroy else Put]
  {
    if NextAll(Ready, ops) == Some(Finished) {
      CollectsIff(ops[0].outcome == RunFailed, ops[1..]);
      var timedOut: bool :| ops[1..] == [CollectLogs(timedOut), if ops[0].outcome == RunFailed || timedOut then PutToDestroy else Put];
      assert ops == [ops[0]] + ops[1..];
      assert ops == [Run(ops[0].outcome), CollectLogs(timedOut), if ops[0].outcome == RunFailed || timedOut then PutToDestroy else Put];
    }
    forall outcome: RunOutcome, timedOut: bool
      | ops == [Run(outcome), CollectLogs(timedOut), if outcome == RunFailed || timedOut then PutToDestroy else Put]
      ensures NextAll(Ready, ops) == Some(Finished)
    {
      assert ops[1..] == [CollectLogs(timedOut), if outcome == RunFailed || timedOut then PutToDestroy else Put];
      CollectsIff(outcome == RunFailed, ops[1..]);
    }
  }

  /** After the calls. */
  lemma CollectsIff(failed: bool, ops: seq<Op>)
    ensures NextAll(if failed then Broken else Served, ops) == Some(Finished) <==>
      exists timedOut: bool :: ops == [CollectLogs(timedOut), if failed || timedOut then PutToDestroy else Put]
  {
    var stage := if failed then Broken else Served;
    if NextAll(stage, ops) == Some(Finished) {
      var timedOut := ops[0].timedOut;
      ReturnsIff(failed || timedOut, ops[1..]);
      assert ops == [ops[0]] + ops[1..];
      assert ops == [CollectLogs(timedOut), if failed || timedOut then PutToDestroy else Put];
    }
    forall timedOut: bool | ops == [CollectLogs(timedOut), if failed || timedOut then PutToDestroy else Put]
      ensures NextAll(stage, ops) == Some(Finished)
    {
      assert ops[1..] == [if failed || timedOut then PutToDestroy else Put];
      ReturnsIff(failed || timedOut, ops[1..]);
    }
  }

  lemma ReturnsIff(destroyed: bool, ops: seq<Op>)
    ensures NextAll(if destroyed then Destroying else Returning, ops) == Some(Finished) <==> ops == [if destroyed then PutToDestroy else Put]
  {
    if ops != [] {
      assert ops == [ops[0]] + ops[1..];
      if |ops| > 1 { assert NextAll(Finished, ops[1..]).None?; }
    }
  }

  /** How the use of a container that must be initialised can go: it is initialised first, and destroyed if
      that fails; otherwise it is used like a ready one. */
  lemma FreshRunsIff(ops: seq<Op>)
    ensures NextAll(Fresh, ops) == Some(Finished) <==>
      || (exists timedOut: bool :: ops == [Initialize(false), CollectLogs(timedOut), PutToDestroy])
      || (ops != [] && ops[0] == Initialize(true) && NextAll(Ready, ops[1..]) == Some(Finished))
  {
    if ops != [] && ops[0].Initialize? && !ops[0].ok {
      CollectsIff(true, ops[1..]);
      assert ops == [ops[0]] + ops[1..];
      forall timedOut: bool ensures ops == [Initialize(false), CollectLogs(timedOut), PutToDestroy]
        <==> ops[1..] == [CollectLogs(timedOut), PutToDestroy]
      {
        assert [Initialize(false), CollectLogs(timedOut), PutToDestroy][1..] == [CollectLogs(timedOut), PutToDestroy];
      }
    }
  }
}
