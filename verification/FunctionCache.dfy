/** The single-flight function cache, for any number of concurrent calls. Every action on shared
    state is one step of one call; the reader's answers and the cache's evictions are left open. */
module FunctionCache {
  import opened Common

  datatype CacheKey = CacheKey(name: string, revision: string)

  /** The reader's answer: a function, or an error. */
  type Answer = Option<string>

  /** A once-only read. `Failing` is between the reader's error and the removal from the cache. */
  datatype Status = Fresh | Reading(reader: nat) | Failing(reader: nat) | Done(answer: Answer)

  datatype Entry = Entry(key: CacheKey, status: Status)

  datatype Pc =
    | Looking                    // the first lookup, without the lock
    | Missed                     // wants the lock
    | Locked                     // the second lookup
    | Adding                     // missed again
    | Unlocking(e: nat)
    | Attached(e: nat)           // about to call the entry
    | Running(e: nat)            // in the reader
    | Removing(e: nat)           // the reader failed
    | Returned(answer: Answer)

  datatype Call = Call(key: CacheKey, pc: Pc)

  /** One call of the reader that has returned. */
  datatype Read = Read(e: nat, key: CacheKey, answer: Answer)

  datatype State = State(
    cache: map<CacheKey, nat>,
    entries: map<nat, Entry>,
    holder: Option<nat>,         // of the mutex
    calls: map<nat, Call>,
    readLog: seq<Read>
  )

  const Initial := State(map[], map[], None, map[], [])

  datatype Step =
    | Arrive(t: nat, key: CacheKey)
    | Lookup(t: nat)
    | Lock(t: nat)
    | Recheck(t: nat)
    | Add(t: nat, e: nat, evicted: Option<CacheKey>)
    | Unlock(t: nat)
    | Enter(t: nat)
    | ReaderReturns(t: nat, answer: Answer)
    | Remove(t: nat)

  function Goto(s: State, t: nat, pc: Pc): State
    requires t in s.calls
  {
    s.(calls := s.calls[t := s.calls[t].(pc := pc)])
  }

  function SetStatus(s: State, e: nat, status: Status): State
    requires e in s.entries
  {
    s.(entries := s.entries[e := s.entries[e].(status := status)])
  }

  /** Adding may push out any one other key, but only when the cache is full. */
  predicate MayEvict(cache: map<CacheKey, nat>, size: nat, key: CacheKey, evicted: Option<CacheKey>) {
    match evicted
    case None => |cache| <= size
    case Some(k) => size < |cache| && k in cache && k != key
  }

  function DoAdd(s: State, size: nat, t: nat, e: nat, evicted: Option<CacheKey>): Option<State>
    requires t in s.calls
  {
    var key := s.calls[t].key;
    if s.calls[t].pc != Adding || e in s.entries || !MayEvict(s.cache[key := e], size, key, evicted) then None
    else
      var added := s.cache[key := e];
      var cache := if evicted.None? then added else added - {evicted.value};
      Some(Goto(s.(cache := cache, entries := s.entries[e := Entry(key, Fresh)]), t, Unlocking(e)))
  }

  /** Calling an entry: the first caller reads, later ones get its answer once it is there. */
  function DoEnter(s: State, t: nat): Option<State>
    requires t in s.calls
  {
    if !s.calls[t].pc.Attached? || s.calls[t].pc.e !in s.entries then None
    else
      var e := s.calls[t].pc.e;
      match s.entries[e].status
      case Fresh => Some(Goto(SetStatus(s, e, Reading(t)), t, Running(e)))
      case Done(answer) => Some(Goto(s, t, Returned(answer)))
      case _ => None
  }

  function DoReaderReturns(s: State, t: nat, answer: Answer): Option<State>
    requires t in s.calls
  {
    if !s.calls[t].pc.Running? || s.calls[t].pc.e !in s.entries then None
    else
      var e := s.calls[t].pc.e;
      var s := s.(readLog := s.readLog + [Read(e, s.entries[e].key, answer)]);
      Some(if answer.Some? then Goto(SetStatus(s, e, Done(answer)), t, Returned(answer))
           else Goto(SetStatus(s, e, Failing(t)), t, Removing(e)))
  }

  function DoRemove(s: State, t: nat): Option<State>
    requires t in s.calls
  {
    if !s.calls[t].pc.Removing? || s.calls[t].pc.e !in s.entries then None
    else
      var e := s.calls[t].pc.e;
      Some(Goto(SetStatus(s, e, Done(None)).(cache := s.cache - {s.entries[e].key}), t, Returned(None)))
  }

  function DoLookups(s: State, step: Step): Option<State>
    requires step.t in s.calls
  {
    var t := step.t;
    var key, pc := s.calls[t].key, s.calls[t].pc;
    match step
    case Lookup(_) =>
      if pc != Looking then None
      else Some(Goto(s, t, if key in s.cache then Attached(s.cache[key]) else Missed))
    case Lock(_) =>
      if pc != Missed || s.holder.Some? then None else Some(Goto(s, t, Locked).(holder := Some(t)))
    case Recheck(_) =>
      if pc != Locked then None
      else if key in s.cache then Some(Goto(s, t, Attached(s.cache[key])).(holder := None))
      else Some(Goto(s, t, Adding))
    case Unlock(_) =>
      if !pc.Unlocking? then None else Some(Goto(s, t, Attached(pc.e)).(holder := None))
    case _ => None
  }

  function Apply(s: State, size: nat, step: Step): Option<State> {
    if step.Arrive? then
      if step.t in s.calls then None else Some(s.(calls := s.calls[step.t := Call(step.key, Looking)]))
    else if step.t !in s.calls then None
    else
      match step
      case Add(t, e, evicted) => DoAdd(s, size, t, e, evicted)
      case Enter(t) => DoEnter(s, t)
      case ReaderReturns(t, answer) => DoReaderReturns(s, t, answer)
      case Remove(t) => DoRemove(s, t)
      case _ => DoLookups(s, step)
  }

  function RunAll(s: State, size: nat, steps: seq<Step>): Option<State>
    decreases |steps|
  {
    if steps == [] then Some(s)
    else
      match Apply(s, size, steps[0])
      case None => None
      case Some(next) => RunAll(next, size, steps[1..])
  }

  ghost predicate Reachable(size: nat, s: State) {
    exists steps :: RunAll(Initial, size, steps) == Some(s)
  }

  // ---------------------------------------------------------------- the invariant

  /** A cached entry is filed under its key and is no completed failure. */
  predicate CacheInv(cache: map<CacheKey, nat>, entries: map<nat, Entry>) {
    forall k :: k in cache ==> cache[k] in entries && entries[cache[k]].key == k && entries[cache[k]].status != Done(None)
  }

  predicate HasRead(readLog: seq<Read>, e: nat) { exists i :: 0 <= i < |readLog| && readLog[i].e == e }

  predicate Answered(readLog: seq<Read>, key: CacheKey, answer: Answer) {
    exists i :: 0 <= i < |readLog| && readLog[i].key == key && readLog[i].answer == answer
  }

  predicate ReadOnce(readLog: seq<Read>) {
    forall i, j :: 0 <= i < j < |readLog| ==> readLog[i].e != readLog[j].e
  }

  /** Answers come from a read of the entry's key, recorded when it returned. */
  predicate EntryOk(readLog: seq<Read>, e: nat, x: Entry) {
    match x.status
    case Fresh => !HasRead(readLog, e)
    case Reading(_) => !HasRead(readLog, e)
    case Failing(_) => Answered(readLog, x.key, None)
    case Done(answer) => Answered(readLog, x.key, answer)
  }

  ghost predicate ReadInv(entries: map<nat, Entry>, readLog: seq<Read>) {
    && ReadOnce(readLog)
    && (forall e :: HasRead(readLog, e) ==> e in entries)
    && (forall e :: e in entries ==> EntryOk(readLog, e, entries[e]))
  }

  predicate CallOk(entries: map<nat, Entry>, readLog: seq<Read>, t: nat, call: Call) {
    match call.pc
    case Unlocking(e) => e in entries && entries[e].key == call.key
    case Attached(e) => e in entries && entries[e].key == call.key
    case Running(e) => e in entries && entries[e] == Entry(call.key, Reading(t))
    case Removing(e) => e in entries && entries[e] == Entry(call.key, Failing(t))
    case Returned(answer) => Answered(readLog, call.key, answer)
    case _ => true
  }

  predicate CallsInv(entries: map<nat, Entry>, readLog: seq<Read>, calls: map<nat, Call>) {
    forall t :: t in calls ==> CallOk(entries, readLog, t, calls[t])
  }

  /** Whoever is reading an entry is a call that does. */
  predicate ReaderOk(calls: map<nat, Call>, e: nat, status: Status) {
    match status
    case Reading(t) => t in calls && calls[t].pc == Running(e)
    case Failing(t) => t in calls && calls[t].pc == Removing(e)
    case _ => true
  }

  predicate ReadersInv(entries: map<nat, Entry>, calls: map<nat, Call>) {
    forall e :: e in entries ==> ReaderOk(calls, e, entries[e].status)
  }

  predicate InSection(pc: Pc) { pc == Locked || pc == Adding || pc.Unlocking? }

  /** The mutex is held by exactly the call in the critical section; no key is added twice. */
  predicate LockInv(cache: map<CacheKey, nat>, holder: Option<nat>, calls: map<nat, Call>) {
    && (forall t :: t in calls && InSection(calls[t].pc) ==> holder == Some(t))
    && (holder.Some? ==> holder.value in calls && InSection(calls[holder.value].pc))
    && (forall t :: t in calls && calls[t].pc == Adding ==> calls[t].key !in cache)
  }

  ghost predicate Inv(s: State) {
    && CacheInv(s.cache, s.entries)
    && ReadInv(s.entries, s.readLog)
    && CallsInv(s.entries, s.readLog, s.calls)
    && ReadersInv(s.entries, s.calls)
    && LockInv(s.cache, s.holder, s.calls)
  }

  lemma ReadsGrow(readLog: seq<Read>, r: Read)
    ensures forall e :: HasRead(readLog + [r], e) <==> HasRead(readLog, e) || r.e == e
    ensures forall key, answer ::
      (Answered(readLog + [r], key, answer) <==> Answered(readLog, key, answer) || (r.key == key && r.answer == answer))
    ensures ReadOnce(readLog) && !HasRead(readLog, r.e) ==> ReadOnce(readLog + [r])
  {
    var more := readLog + [r];
    assert more[|readLog|] == r;
    forall e | HasRead(readLog, e) ensures HasRead(more, e) {
      var i :| 0 <= i < |readLog| && readLog[i].e == e;
      assert more[i].e == e;
    }
    forall key, answer | Answered(readLog, key, answer) ensures Answered(more, key, answer) {
      var i :| 0 <= i < |readLog| && readLog[i].key == key && readLog[i].answer == answer;
      assert more[i] == readLog[i];
    }
  }

  /** Moving one call that is neither in a read before nor after, or whose entry goes with it. */
  lemma ReadersAfterMove(entries: map<nat, Entry>, calls: map<nat, Call>, t: nat, call: Call)
    requires ReadersInv(entries, calls)
    requires t in calls ==> !calls[t].pc.Running? && !calls[t].pc.Removing?
    ensures ReadersInv(entries, calls[t := call])
  {
  }

  /** Changing an entry matters only to the call that reads it. */
  lemma CallsAfterStatus(entries: map<nat, Entry>, readLog: seq<Read>, calls: map<nat, Call>, t: nat, e: nat, status: Status, call: Call)
    requires CallsInv(entries, readLog, calls) && e in entries
    requires entries[e].status == Fresh || entries[e].status == Reading(t) || entries[e].status == Failing(t)
    requires CallOk(entries[e := Entry(entries[e].key, status)], readLog, t, call)
    ensures CallsInv(entries[e := Entry(entries[e].key, status)], readLog, calls[t := call])
  {
    hide Answered;
  }

  lemma ReadersAfterStatus(entries: map<nat, Entry>, calls: map<nat, Call>, t: nat, e: nat, status: Status, call: Call)
    requires ReadersInv(entries, calls) && e in entries && t in calls
    requires calls[t].pc in {Attached(e), Running(e), Removing(e)}
    requires ReaderOk(calls[t := call], e, status)
    ensures ReadersInv(entries[e := Entry(entries[e].key, status)], calls[t := call])
  {
  }

  lemma LockAfterMove(cache: map<CacheKey, nat>, holder: Option<nat>, calls: map<nat, Call>, t: nat, call: Call)
    requires LockInv(cache, holder, calls) && !InSection(call.pc) && (t in calls ==> !InSection(calls[t].pc))
    ensures LockInv(cache, holder, calls[t := call])
  {
  }

  lemma CallsAfterMove(entries: map<nat, Entry>, readLog: seq<Read>, calls: map<nat, Call>, t: nat, call: Call)
    requires CallsInv(entries, readLog, calls) && CallOk(entries, readLog, t, call)
    ensures CallsInv(entries, readLog, calls[t := call])
  {
    hide Answered;
  }

  lemma AddKeeps(s: State, size: nat, t: nat, e: nat, evicted: Option<CacheKey>, after: State)
    requires Inv(s) && t in s.calls && DoAdd(s, size, t, e, evicted) == Some(after)
    ensures Inv(after)
  {
    hide HasRead, Answered, ReadOnce, CallsInv, ReadersInv, MayEvict;
    var call := s.calls[t].(pc := Unlocking(e));
    AddedCalls(s, t, e, call);
    assert LockInv(after.cache, s.holder, after.calls);
    assert forall x :: x in after.entries ==> x == e || x in s.entries;
  }

  lemma AddedCalls(s: State, t: nat, e: nat, call: Call)
    requires CallsInv(s.entries, s.readLog, s.calls) && ReadersInv(s.entries, s.calls)
    requires t in s.calls && s.calls[t].pc == Adding && e !in s.entries && call == s.calls[t].(pc := Unlocking(e))
    ensures CallsInv(s.entries[e := Entry(call.key, Fresh)], s.readLog, s.calls[t := call])
    ensures ReadersInv(s.entries[e := Entry(call.key, Fresh)], s.calls[t := call])
  {
    hide Answered;
  }

  lemma EnterKeeps(s: State, t: nat, after: State)
    requires Inv(s) && t in s.calls && DoEnter(s, t) == Some(after)
    ensures Inv(after)
  {
    hide HasRead, Answered, CallsInv, ReadersInv, LockInv, ReadOnce;
    var e := s.calls[t].pc.e;
    AttachedFacts(s, t);
    LockAfterMove(s.cache, s.holder, s.calls, t, after.calls[t]);
    if s.entries[e].status == Fresh {
      CallsAfterStatus(s.entries, s.readLog, s.calls, t, e, Reading(t), after.calls[t]);
      ReadersAfterStatus(s.entries, s.calls, t, e, Reading(t), after.calls[t]);
    } else {
      CallsAfterMove(s.entries, s.readLog, s.calls, t, after.calls[t]);
      ReadersAfterMove(s.entries, s.calls, t, after.calls[t]);
    }
  }

  lemma AttachedFacts(s: State, t: nat)
    requires CallsInv(s.entries, s.readLog, s.calls) && t in s.calls
    ensures CallOk(s.entries, s.readLog, t, s.calls[t])
  {
  }

  lemma ReaderReturnsKeeps(s: State, t: nat, answer: Answer, after: State)
    requires Inv(s) && t in s.calls && DoReaderReturns(s, t, answer) == Some(after)
    ensures Inv(after)
  {
    hide HasRead, Answered, CallsInv, ReadersInv, LockInv, ReadOnce;
    var e := s.calls[t].pc.e;
    var r := Read(e, s.entries[e].key, answer);
    AttachedFacts(s, t);
    ReadsGrow(s.readLog, r);
    CallsAfterRead(s.entries, s.readLog, s.calls, r);
    LockAfterMove(s.cache, s.holder, s.calls, t, after.calls[t]);
    var status := if answer.Some? then Done(answer) else Failing(t);
    CallsAfterStatus(s.entries, after.readLog, s.calls, t, e, status, after.calls[t]);
    ReadersAfterStatus(s.entries, s.calls, t, e, status, after.calls[t]);
  }

  lemma CallsAfterRead(entries: map<nat, Entry>, readLog: seq<Read>, calls: map<nat, Call>, r: Read)
    requires CallsInv(entries, readLog, calls)
    ensures CallsInv(entries, readLog + [r], calls)
  {
    hide Answered;
    ReadsGrow(readLog, r);
  }

  lemma RemoveKeeps(s: State, t: nat, after: State)
    requires Inv(s) && t in s.calls && DoRemove(s, t) == Some(after)
    ensures Inv(after)
  {
    hide HasRead, Answered, CallsInv, ReadersInv, LockInv, ReadOnce;
    var e := s.calls[t].pc.e;
    AttachedFacts(s, t);
    EntryIsOk(s, e);
    LockAfterMove(s.cache, s.holder, s.calls, t, after.calls[t]);
    LockAfterRemove(s.cache, s.holder, after.calls, s.entries[e].key);
    CallsAfterStatus(s.entries, s.readLog, s.calls, t, e, Done(None), after.calls[t]);
    ReadersAfterStatus(s.entries, s.calls, t, e, Done(None), after.calls[t]);
  }

  lemma EntryIsOk(s: State, e: nat)
    requires ReadInv(s.entries, s.readLog) && e in s.entries
    ensures EntryOk(s.readLog, e, s.entries[e])
  {
  }

  lemma LockAfterRemove(cache: map<CacheKey, nat>, holder: Option<nat>, calls: map<nat, Call>, key: CacheKey)
    requires LockInv(cache, holder, calls)
    ensures LockInv(cache - {key}, holder, calls)
  {
  }

  lemma LookupsKeep(s: State, step: Step, after: State)
    requires Inv(s) && step.t in s.calls && DoLookups(s, step) == Some(after)
    ensures Inv(after)
  {
    hide HasRead, Answered, CallsInv, ReadersInv, ReadInv;
    AttachedFacts(s, step.t);
    CallsAfterMove(s.entries, s.readLog, s.calls, step.t, after.calls[step.t]);
    ReadersAfterMove(s.entries, s.calls, step.t, after.calls[step.t]);
  }

  lemma StepKeeps(s: State, size: nat, step: Step, after: State)
    requires Inv(s) && Apply(s, size, step) == Some(after)
    ensures Inv(after)
  {
    hide Inv, DoAdd, DoEnter, DoReaderReturns, DoRemove, DoLookups;
    match step
    case Arrive(t, key) => ArriveKeeps(s, t, key, after);
    case Add(t, e, evicted) => AddKeeps(s, size, t, e, evicted, after);
    case Enter(t) => EnterKeeps(s, t, after);
    case ReaderReturns(t, answer) => ReaderReturnsKeeps(s, t, answer, after);
    case Remove(t) => RemoveKeeps(s, t, after);
    case _ => LookupsKeep(s, step, after);
  }

  lemma ArriveKeeps(s: State, t: nat, key: CacheKey, after: State)
    requires Inv(s) && t !in s.calls && after == s.(calls := s.calls[t := Call(key, Looking)])
    ensures Inv(after)
  {
    hide CacheInv, ReadInv, CallsInv, ReadersInv, LockInv;
    CallsAfterMove(s.entries, s.readLog, s.calls, t, Call(key, Looking));
    ReadersAfterMove(s.entries, s.calls, t, Call(key, Looking));
    LockAfterMove(s.cache, s.holder, s.calls, t, Call(key, Looking));
  }

  lemma {:induction false} RunKeeps(s: State, size: nat, steps: seq<Step>, after: State)
    requires Inv(s) && RunAll(s, size, steps) == Some(after)
    ensures Inv(after)
    decreases |steps|
  {
    hide Inv, Apply;
    if steps != [] {
      var next := Apply(s, size, steps[0]).value;
      StepKeeps(s, size, steps[0], next);
      RunKeeps(next, size, steps[1..], after);
    }
  }

  lemma ReachableHolds(size: nat, s: State)
    requires Reachable(size, s)
    ensures Inv(s)
  {
    var steps :| RunAll(Initial, size, steps) == Some(s);
    InitialHolds();
    RunKeeps(Initial, size, steps, s);
  }

  lemma InitialHolds()
    ensures Inv(Initial)
  {
  }

  // ---------------------------------------------------------------- what always holds

  /** Each entry's reader call runs at most once: no entry has two reads, and none is read while it
      has one already or while another call reads it. */
  lemma EachEntryIsReadOnce(size: nat, s: State, t: nat, u: nat)
    requires Reachable(size, s)
    ensures ReadOnce(s.readLog)
    ensures t in s.calls && s.calls[t].pc.Running? ==> !HasRead(s.readLog, s.calls[t].pc.e)
    ensures t in s.calls && u in s.calls && s.calls[t].pc.Running? && s.calls[u].pc == s.calls[t].pc ==> t == u
  {
    hide HasRead, Answered, ReadOnce;
    ReachableHolds(size, s);
    if t in s.calls { AttachedFacts(s, t); }
    if u in s.calls { AttachedFacts(s, u); }
  }

  /** No completed failure stays in the cache, and a hit leads to an entry of the key asked for. */
  lemma NoFailureStaysCached(size: nat, s: State, key: CacheKey)
    requires Reachable(size, s) && key in s.cache
    ensures s.cache[key] in s.entries && s.entries[s.cache[key]].key == key && s.entries[s.cache[key]].status != Done(None)
  {
    ReachableHolds(size, s);
  }

  /** Whoever finds an entry attaches to it and starts no read; only who finds none with the lock held adds
      one. */
  lemma HitsAttach(size: nat, s: State, step: Step, after: State)
    requires step.t in s.calls && s.calls[step.t].pc in {Looking, Locked} && Apply(s, size, step) == Some(after)
    ensures var call := s.calls[step.t];
      && after.cache == s.cache && after.entries == s.entries && after.readLog == s.readLog
      && after.calls == s.calls[step.t := Call(call.key,
           if call.key in s.cache then Attached(s.cache[call.key]) else if call.pc == Looking then Missed else Adding)]
  {
    hide MayEvict;
  }

  /** All who are attached to an entry get its one answer, success or error; the first of them reads it. */
  lemma AttachedShareTheAnswer(size: nat, s: State, step: Step, after: State, e: nat)
    requires step.t in s.calls && s.calls[step.t].pc == Attached(e) && Apply(s, size, step) == Some(after)
    ensures e in s.entries && after.cache == s.cache && after.readLog == s.readLog
    ensures var key := s.calls[step.t].key;
      match s.entries[e].status
      case Fresh =>
        && after.calls == s.calls[step.t := Call(key, Running(e))]
        && after.entries == s.entries[e := Entry(s.entries[e].key, Reading(step.t))]
      case Done(answer) => after.calls == s.calls[step.t := Call(key, Returned(answer))] && after.entries == s.entries
      case _ => false
  {
    hide MayEvict;
  }

  /** The reader's answer is recorded and returned; after an error the key is gone from the cache first. */
  lemma ReadersAnswerIsReturned(size: nat, s: State, step: Step, after: State, e: nat)
    requires step.t in s.calls && s.calls[step.t].pc in {Running(e), Removing(e)} && Apply(s, size, step) == Some(after)
    ensures e in s.entries
    ensures var key, of := s.calls[step.t].key, s.entries[e].key;
      if s.calls[step.t].pc == Removing(e) then
        && after.cache == s.cache - {of} && after.readLog == s.readLog && after.entries == s.entries[e := Entry(of, Done(None))]
        && after.calls == s.calls[step.t := Call(key, Returned(None))]
      else
        && step.ReaderReturns? && after.cache == s.cache && after.readLog == s.readLog + [Read(e, of, step.answer)]
        && after.calls == s.calls[step.t := Call(key, if step.answer.Some? then Returned(step.answer) else Removing(e))]
        && after.entries == s.entries[e := Entry(of, if step.answer.Some? then Done(step.answer) else Failing(step.t))]
  {
    hide MayEvict;
  }

  /** Nothing is taken for granted about the reader and the cache: any call can arrive, every read can end in
      any way, and a full cache can push out any other key. */
  lemma AnyAnswerCanCome(size: nat, s: State, step: Step)
    requires Reachable(size, s)
    requires if step.Arrive? then step.t !in s.calls else step.t in s.calls
    requires match step
      case Arrive(_, _) => true
      case ReaderReturns(t, _) => s.calls[t].pc.Running?
      case Add(t, e, None) => s.calls[t].pc == Adding && e !in s.entries && |s.cache| < size
      case Add(t, e, Some(k)) => s.calls[t].pc == Adding && e !in s.entries && size <= |s.cache| && k in s.cache
      case _ => false
    ensures Apply(s, size, step).Some?
  {
    hide HasRead, Answered, CacheInv, ReadInv, ReadersInv;
    ReachableHolds(size, s);
    if !step.Arrive? {
      AttachedFacts(s, step.t);
      if step.Add? {
        var key := s.calls[step.t].key;
        assert s.cache[key := step.e].Keys == s.cache.Keys + {key} && |s.cache[key := step.e]| == |s.cache| + 1;
      }
    }
  }

  /** A key leaves the cache in two ways only: an added entry pushes it out of a full cache, or a read of it
      failed. As long as it stays, so does its entry. */
  lemma KeysLeaveWhenEvictedOrFailed(size: nat, s: State, step: Step, after: State, key: CacheKey)
    requires Reachable(size, s) && Apply(s, size, step) == Some(after) && key in s.cache
    ensures key in after.cache ==> after.cache[key] == s.cache[key]
    ensures key !in after.cache ==>
      || (step.Add? && step.evicted == Some(key) && size <= |s.cache|)
      || (step.Remove? && exists i :: 0 <= i < |s.readLog| && s.readLog[i].key == key && s.readLog[i].answer == None)
  {
    hide HasRead, DoAdd, DoEnter, DoReaderReturns, DoLookups, Answered;
    ReachableHolds(size, s);
    if step.t in s.calls { AttachedFacts(s, step.t); }
    match step
    case Add(t, e, evicted) => AddingEvicts(size, s, t, e, evicted, after, key);
    case Remove(t) => FailingIsAnswered(s, s.calls[t].pc.e);
    case _ => OthersKeepCache(s, size, step, after);
  }

  lemma AddingEvicts(size: nat, s: State, t: nat, e: nat, evicted: Option<CacheKey>, after: State, key: CacheKey)
    requires LockInv(s.cache, s.holder, s.calls) && t in s.calls && DoAdd(s, size, t, e, evicted) == Some(after) && key in s.cache
    ensures key in after.cache ==> after.cache[key] == s.cache[key]
    ensures key !in after.cache ==> evicted == Some(key) && size <= |s.cache|
  {
    var added := s.cache[s.calls[t].key := e];
    assert |added| == |s.cache| + 1;
  }

  lemma FailingIsAnswered(s: State, e: nat)
    requires ReadInv(s.entries, s.readLog) && e in s.entries && s.entries[e].status.Failing?
    ensures exists i :: 0 <= i < |s.readLog| && s.readLog[i].key == s.entries[e].key && s.readLog[i].answer == None
  {
    hide HasRead, ReadOnce;
    EntryIsOk(s, e);
  }

  lemma OthersKeepCache(s: State, size: nat, step: Step, after: State)
    requires Apply(s, size, step) == Some(after) && !step.Add? && !step.Remove?
    ensures after.cache == s.cache
  {
    hide DoAdd, DoRemove;
  }

  /** Every answer, success or error, is one the reader gave for exactly this name and revision. */
  lemma AnswersAreTheReaders(size: nat, s: State, t: nat)
    requires Reachable(size, s) && t in s.calls && s.calls[t].pc.Returned?
    ensures Answered(s.readLog, s.calls[t].key, s.calls[t].pc.answer)
  {
    ReachableHolds(size, s);
    AttachedFacts(s, t);
  }

  /** The critical section can always go on: when the cache is full there is something to evict. */
  lemma SectionGoesOn(size: nat, s: State, h: nat) returns (step: Step)
    requires Inv(s) && size > 0 && h in s.calls && InSection(s.calls[h].pc)
    ensures !step.Arrive? && Apply(s, size, step).Some?
  {
    hide Answered, CacheInv, ReadInv, CallsInv, ReadersInv;
    if s.calls[h].pc == Locked {
      step := Recheck(h);
    } else if s.calls[h].pc == Adding {
      var e := Unused(s.entries.Keys);
      var key := s.calls[h].key;
      var added := s.cache[key := e];
      if |added| <= size {
        step := Add(h, e, None);
      } else {
        assert |added.Keys - {key}| == |added.Keys| - 1 && |added| == |added.Keys|;
        var k :| k in added.Keys - {key};
        step := Add(h, e, Some(k));
      }
    } else {
      step := Unlock(h);
    }
  }

  /** As long as a call has not returned, some call can go on. */
  lemma NoDeadlock(size: nat, s: State, t: nat) returns (step: Step)
    requires Reachable(size, s) && size > 0 && t in s.calls && !s.calls[t].pc.Returned?
    ensures !step.Arrive? && Apply(s, size, step).Some?
  {
    hide HasRead, Answered, CacheInv, ReadInv, DoAdd;
    ReachableHolds(size, s);
    AttachedFacts(s, t);
    match s.calls[t].pc
    case Looking => step := Lookup(t);
    case Missed =>
      if s.holder.None? {
        step := Lock(t);
      } else {
        step := SectionGoesOn(size, s, s.holder.value);
      }
    case Locked => step := SectionGoesOn(size, s, t);
    case Adding => step := SectionGoesOn(size, s, t);
    case Unlocking(_) => step := SectionGoesOn(size, s, t);
    case Attached(e) =>
      match s.entries[e].status {
        case Fresh => step := Enter(t);
        case Done(_) => step := Enter(t);
        case Reading(r) => AttachedFacts(s, r); step := ReaderReturns(r, None);
        case Failing(r) => AttachedFacts(s, r); step := Remove(r);
      }
    case Running(_) => step := ReaderReturns(t, None);
    case Removing(_) => step := Remove(t);
  }

  // ---------------------------------------------------------------- when all keys fit

  predicate Unsettled(status: Status) { !status.Done? }

  /** The keys in use fit, and every read that is not over is the cached one of its key. */
  predicate FitInv(s: State, keys: set<CacheKey>) {
    && s.cache.Keys <= keys
    && (forall t :: t in s.calls ==> s.calls[t].key in keys)
    && (forall e :: e in s.entries && Unsettled(s.entries[e].status) ==> s.entries[e].key in s.cache && s.cache[s.entries[e].key] == e)
  }

  predicate Asks(steps: seq<Step>, keys: set<CacheKey>) {
    forall i :: 0 <= i < |steps| && steps[i].Arrive? ==> steps[i].key in keys
  }

  lemma SmallSet(small: set<CacheKey>, big: set<CacheKey>)
    requires small <= big
    ensures |small| <= |big|
  {
    if small != {} {
      var k :| k in small;
      SmallSet(small - {k}, big - {k});
    }
  }

  lemma AddFits(s: State, size: nat, t: nat, e: nat, evicted: Option<CacheKey>, after: State, keys: set<CacheKey>)
    requires Inv(s) && FitInv(s, keys) && |keys| <= size
    requires t in s.calls && DoAdd(s, size, t, e, evicted) == Some(after)
    ensures FitInv(after, keys)
  {
    hide CacheInv, ReadInv, CallsInv, ReadersInv;
    var added := s.cache[s.calls[t].key := e];
    assert added.Keys <= keys;
    SmallSet(added.Keys, keys);
    assert |added| == |added.Keys|;
  }

  lemma StepFits(s: State, size: nat, step: Step, after: State, keys: set<CacheKey>)
    requires Inv(s) && FitInv(s, keys) && |keys| <= size && Apply(s, size, step) == Some(after)
    requires step.Arrive? ==> step.key in keys
    ensures FitInv(after, keys)
  {
    hide CacheInv, ReadInv, CallsInv, ReadersInv, LockInv, DoAdd, Answered;
    if step.t in s.calls { AttachedFacts(s, step.t); }
    if step.Add? {
      AddFits(s, size, step.t, step.e, step.evicted, after, keys);
    }
  }

  lemma {:induction false} RunFits(s: State, size: nat, steps: seq<Step>, after: State, keys: set<CacheKey>)
    requires Inv(s) && FitInv(s, keys) && |keys| <= size && Asks(steps, keys)
    requires RunAll(s, size, steps) == Some(after)
    ensures Inv(after) && FitInv(after, keys)
    decreases |steps|
  {
    hide Inv, FitInv, Apply;
    if steps != [] {
      var next := Apply(s, size, steps[0]).value;
      StepKeeps(s, size, steps[0], next);
      StepFits(s, size, steps[0], next, keys);
      assert Asks(steps[1..], keys);
      RunFits(next, size, steps[1..], after, keys);
    }
  }

  /** Single flight: when the distinct keys fit the cache, at most one read per key is in progress. */
  lemma OneReadPerKey(size: nat, steps: seq<Step>, s: State, keys: set<CacheKey>, t: nat, u: nat)
    requires |keys| <= size && Asks(steps, keys) && RunAll(Initial, size, steps) == Some(s)
    requires t in s.calls && u in s.calls && s.calls[t].pc.Running? && s.calls[u].pc.Running?
    requires s.calls[t].key == s.calls[u].key
    ensures t == u
  {
    hide Apply, CacheInv, ReadInv, LockInv;
    InitialHolds();
    RunFits(Initial, size, steps, s, keys);
    AttachedFacts(s, t);
    AttachedFacts(s, u);
  }

  /** A successful read is the cached one of its key, and it was the last. */
  predicate KeptInv(cache: map<CacheKey, nat>, entries: map<nat, Entry>, readLog: seq<Read>) {
    && (forall i :: 0 <= i < |readLog| && readLog[i].answer.Some? ==> Kept(cache, entries, readLog[i]))
    && (forall i, j :: 0 <= i < j < |readLog| && readLog[i].key == readLog[j].key ==> readLog[i].answer == None)
  }

  predicate Kept(cache: map<CacheKey, nat>, entries: map<nat, Entry>, r: Read) {
    r.key in cache && cache[r.key] == r.e && r.e in entries && entries[r.e].status == Done(r.answer)
  }

  lemma ReadIsKept(s: State, t: nat, answer: Answer, after: State, keys: set<CacheKey>)
    requires Inv(s) && FitInv(s, keys) && KeptInv(s.cache, s.entries, s.readLog)
    requires t in s.calls && DoReaderReturns(s, t, answer) == Some(after)
    ensures KeptInv(after.cache, after.entries, after.readLog)
  {
    hide CacheInv, ReadInv, CallsInv, ReadersInv, LockInv, HasRead, Answered;
    AttachedFacts(s, t);
    var e := s.calls[t].pc.e;
    var r := Read(e, s.entries[e].key, answer);
    assert after.readLog == s.readLog + [r];
    forall i | 0 <= i < |s.readLog| && s.readLog[i].key == r.key ensures s.readLog[i].answer == None {
      assert s.readLog[i].answer.Some? ==> Kept(s.cache, s.entries, s.readLog[i]);
    }
    forall i | 0 <= i < |after.readLog| && after.readLog[i].answer.Some? ensures Kept(after.cache, after.entries, after.readLog[i]) {
      if i < |s.readLog| { assert Kept(s.cache, s.entries, s.readLog[i]); }
    }
  }

  lemma AddIsKept(s: State, size: nat, t: nat, e: nat, evicted: Option<CacheKey>, after: State, keys: set<CacheKey>)
    requires Inv(s) && FitInv(s, keys) && |keys| <= size && KeptInv(s.cache, s.entries, s.readLog)
    requires t in s.calls && DoAdd(s, size, t, e, evicted) == Some(after)
    ensures KeptInv(after.cache, after.entries, after.readLog)
  {
    hide CacheInv, ReadInv, CallsInv, ReadersInv;
    var added := s.cache[s.calls[t].key := e];
    SmallSet(added.Keys, keys);
    assert |added| == |added.Keys|;
  }

  lemma StepIsKept(s: State, size: nat, step: Step, after: State, keys: set<CacheKey>)
    requires Inv(s) && FitInv(s, keys) && |keys| <= size && KeptInv(s.cache, s.entries, s.readLog)
    requires Apply(s, size, step) == Some(after)
    ensures KeptInv(after.cache, after.entries, after.readLog)
  {
    hide CacheInv, ReadInv, CallsInv, ReadersInv, LockInv, Answered, HasRead, DoAdd, DoReaderReturns;
    if step.t in s.calls { AttachedFacts(s, step.t); }
    match step
    case Add(t, e, evicted) => AddIsKept(s, size, t, e, evicted, after, keys);
    case ReaderReturns(t, answer) => ReadIsKept(s, t, answer, after, keys);
    case _ =>
  }

  lemma {:induction false} RunIsKept(s: State, size: nat, steps: seq<Step>, after: State, keys: set<CacheKey>)
    requires Inv(s) && FitInv(s, keys) && |keys| <= size && Asks(steps, keys) && KeptInv(s.cache, s.entries, s.readLog)
    requires RunAll(s, size, steps) == Some(after)
    ensures Inv(after) && FitInv(after, keys) && KeptInv(after.cache, after.entries, after.readLog)
    decreases |steps|
  {
    hide Inv, FitInv, KeptInv, Apply;
    if steps != [] {
      var next := Apply(s, size, steps[0]).value;
      StepKeeps(s, size, steps[0], next);
      StepFits(s, size, steps[0], next, keys);
      StepIsKept(s, size, steps[0], next, keys);
      assert Asks(steps[1..], keys);
      RunIsKept(next, size, steps[1..], after, keys);
    }
  }

  /** What the cache is for: in every run over keys that fit, a function that was read successfully stays in
      the cache with this answer and is never read again. So each key is read successfully at most once. */
  lemma SuccessIsReadOnce(size: nat, steps: seq<Step>, s: State, keys: set<CacheKey>, i: nat)
    requires |keys| <= size && (forall k :: 0 <= k < |steps| && steps[k].Arrive? ==> steps[k].key in keys)
    requires RunAll(Initial, size, steps) == Some(s)
    requires i < |s.readLog| && s.readLog[i].answer.Some?
    ensures var key := s.readLog[i].key;
      && key in s.cache && s.cache[key] in s.entries && s.entries[s.cache[key]] == Entry(key, Done(s.readLog[i].answer))
      && (forall j :: 0 <= j < |s.readLog| && s.readLog[j].key == key && s.readLog[j].answer.Some? ==> j == i)
      && (forall j :: i < j < |s.readLog| ==> s.readLog[j].key != key)
      && (forall t :: t in s.calls && s.calls[t].pc.Running? ==> s.calls[t].key != key)
  {
    hide Apply, RunAll, ReadInv, LockInv, ReadersInv;
    InitialHolds();
    RunIsKept(Initial, size, steps, s, keys);
    assert Kept(s.cache, s.entries, s.readLog[i]);
    forall t | t in s.calls && s.calls[t].pc.Running? ensures s.calls[t].key != s.readLog[i].key {
      AttachedFacts(s, t);
    }
  }

  // ---------------------------------------------------------------- evicting what was not used for longest

  /** A state and the cached keys in the order of their last use. */
  datatype Traced = Traced(state: State, order: seq<CacheKey>)

  function Without(order: seq<CacheKey>, key: CacheKey): seq<CacheKey> { Filter((k: CacheKey) => k != key, order) }

  function Touched(order: seq<CacheKey>, key: CacheKey): seq<CacheKey> { Without(order, key) + [key] }

  /** The order after an entry was added. */
  function AfterAdd(order: seq<CacheKey>, key: CacheKey, evicted: Option<CacheKey>): seq<CacheKey> {
    if evicted.Some? then Without(Touched(order, key), evicted.value) else Touched(order, key)
  }

  /** Looking up a cached key counts as a use, and so does adding it. */
  function NextOrder(order: seq<CacheKey>, s: State, step: Step): seq<CacheKey> {
    if step.t !in s.calls then order
    else
      var key := s.calls[step.t].key;
      match step
      case Lookup(_) => if key in s.cache then Touched(order, key) else order
      case Recheck(_) => if key in s.cache then Touched(order, key) else order
      case Add(_, _, evicted) => AfterAdd(order, key, evicted)
      case Remove(_) => Without(order, key)
      case _ => order
  }

  /** What adding pushes out is the key not used for longest. */
  predicate EvictsOldest(order: seq<CacheKey>, s: State, step: Step) {
    step.Add? && step.evicted.Some? && step.t in s.calls ==> Touched(order, s.calls[step.t].key)[0] == step.evicted.value
  }

  function LruApply(x: Traced, size: nat, step: Step): Option<Traced> {
    if !EvictsOldest(x.order, x.state, step) then None
    else
      match Apply(x.state, size, step)
      case None => None
      case Some(next) => Some(Traced(next, NextOrder(x.order, x.state, step)))
  }

  /** The runs of the actual cache, which evicts what was not used for longest. */
  function RunLru(x: Traced, size: nat, steps: seq<Step>): Option<Traced>
    decreases |steps|
  {
    if steps == [] then Some(x)
    else
      match LruApply(x, size, steps[0])
      case None => None
      case Some(next) => RunLru(next, size, steps[1..])
  }

  const LruInitial := Traced(Initial, [])

  lemma {:induction false} LruIsARun(x: Traced, size: nat, steps: seq<Step>, after: Traced)
    requires RunLru(x, size, steps) == Some(after)
    ensures RunAll(x.state, size, steps) == Some(after.state)
    decreases |steps|
  {
    hide Apply, EvictsOldest, NextOrder;
    if steps != [] {
      LruIsARun(LruApply(x, size, steps[0]).value, size, steps[1..], after);
    }
  }

  /** Finding a key moves it to the end of the order, adding one does too and pushes out the first, and a
      failed read takes its key out. */
  lemma UsesMoveToTheEnd(x: Traced, size: nat, step: Step, after: Traced)
    requires LruApply(x, size, step) == Some(after) && step.t in x.state.calls
    ensures var call := x.state.calls[step.t];
      var touched := Without(x.order, call.key) + [call.key];
      && (call.pc in {Looking, Locked} && call.key in x.state.cache ==> after.order == touched)
      && (step.Add? && step.evicted.None? ==> after.order == touched)
      && (step.Add? && step.evicted.Some? ==> touched[0] == step.evicted.value && after.order == Without(touched, touched[0]))
      && (step.Remove? ==> after.order == Without(x.order, call.key))
  {
    hide MayEvict, Without;
  }

  /** Taking out a key keeps all others in order. */
  lemma {:induction false} WithoutInFull(order: seq<CacheKey>, key: CacheKey, other: CacheKey -> bool)
    requires forall k :: other(k) <==> k != key
    ensures Without(order, key) == Filter(other, order)
  {
    if order != [] {
      WithoutInFull(order[1..], key, other);
    }
  }

  /** The order lists exactly the cached keys. */
  ghost predicate Lists(order: seq<CacheKey>, cache: map<CacheKey, nat>) {
    forall k :: k in order <==> k in cache
  }

  lemma StepLists(x: Traced, size: nat, step: Step, after: Traced)
    requires Inv(x.state) && Lists(x.order, x.state.cache) && LruApply(x, size, step) == Some(after)
    ensures Lists(after.order, after.state.cache)
  {
    hide CacheInv, ReadInv, ReadersInv, LockInv, Answered, DoEnter, DoReaderReturns, MayEvict;
    if step.t in x.state.calls {
      AttachedFacts(x.state, step.t);
      var key := x.state.calls[step.t].key;
      FilterMember((k: CacheKey) => k != key, x.order);
      if step.Add? && step.evicted.Some? { FilterMember((k: CacheKey) => k != step.evicted.value, Touched(x.order, key)); }
      if !step.Add? && !step.Remove? && !step.Arrive? { OthersKeepCache(x.state, size, step, after.state); }
    }
  }

  lemma {:induction false} OrderListsTheCache(x: Traced, size: nat, steps: seq<Step>, after: Traced)
    requires Inv(x.state) && Lists(x.order, x.state.cache) && RunLru(x, size, steps) == Some(after)
    ensures forall k :: k in after.order <==> k in after.state.cache
    decreases |steps|
  {
    hide Inv, LruApply, Apply;
    if steps != [] {
      var next := LruApply(x, size, steps[0]).value;
      LruIsStep(x, size, steps[0], next);
      StepKeeps(x.state, size, steps[0], next.state);
      StepLists(x, size, steps[0], next);
      OrderListsTheCache(next, size, steps[1..], after);
    }
  }

  lemma LruIsStep(x: Traced, size: nat, step: Step, after: Traced)
    requires LruApply(x, size, step) == Some(after)
    ensures Apply(x.state, size, step) == Some(after.state)
  {
    hide Apply;
  }

  // ---------------------------------------------------------------- when they do not fit

  lemma {:induction false} RunAppend(x: Traced, size: nat, a: seq<Step>, mid: Traced, b: seq<Step>)
    requires RunLru(x, size, a) == Some(mid)
    ensures RunLru(x, size, a + b) == RunLru(mid, size, b)
    decreases |a|
  {
    hide LruApply;
    if a == [] {
      assert a + b == b;
    } else {
      assert (a + b)[1..] == a[1..] + b;
      RunAppend(LruApply(x, size, a[0]).value, size, a[1..], mid, b);
    }
  }

  lemma RunOne(x: Traced, size: nat, step: Step)
    ensures RunLru(x, size, [step]) == LruApply(x, size, step)
  {
    hide LruApply;
    assert [step][1..] == [];
  }

  lemma RunMore(x: Traced, size: nat, a: seq<Step>, mid: Traced, step: Step)
    requires RunLru(x, size, a) == Some(mid)
    ensures RunLru(x, size, a + [step]) == LruApply(mid, size, step)
  {
    RunAppend(x, size, a, mid, [step]);
    RunOne(mid, size, step);
  }

  /** A step other than adding by a call for a key that is not cached leaves the order alone. */
  lemma MissKeepsOrder(s: State, size: nat, step: Step, next: State, order: seq<CacheKey>, key: CacheKey)
    requires Apply(s, size, step) == Some(next) && !step.Add? && !step.Remove?
    requires step.Lookup? || step.Recheck? ==> step.t in s.calls && s.calls[step.t].key == key && key !in s.cache
    ensures LruApply(Traced(s, order), size, step) == Some(Traced(next, order))
  {
    hide Apply;
  }

  lemma AddTouches(s: State, size: nat, t: nat, e: nat, evicted: Option<CacheKey>, next: State, order: seq<CacheKey>, key: CacheKey)
    requires Apply(s, size, Add(t, e, evicted)) == Some(next) && t in s.calls && s.calls[t].key == key
    requires evicted.Some? ==> Touched(order, key)[0] == evicted.value
    ensures LruApply(Traced(s, order), size, Add(t, e, evicted)) == Some(Traced(next, AfterAdd(order, key, evicted)))
  {
    hide Apply, Touched, AfterAdd;
  }

  /** A call that misses, adds an entry and starts to read it. */
  lemma MissRun(s: State, size: nat, t: nat, key: CacheKey, e: nat, evicted: Option<CacheKey>, order: seq<CacheKey>)
      returns (steps: seq<Step>, after: State)
    requires s.holder.None? && t !in s.calls && key !in s.cache && e !in s.entries
    requires MayEvict(s.cache[key := e], size, key, evicted)
    requires evicted.Some? ==> Touched(order, key)[0] == evicted.value
    ensures RunLru(Traced(s, order), size, steps) == Some(Traced(after, AfterAdd(order, key, evicted))) && Asks(steps, {key})
    ensures after.holder.None? && after.calls == s.calls[t := Call(key, Running(e))]
    ensures after.cache == (if evicted.None? then s.cache[key := e] else s.cache[key := e] - {evicted.value})
    ensures after.entries.Keys == s.entries.Keys + {e}
  {
    hide RunLru, LruApply, MayEvict, Apply, AfterAdd, Touched, Asks;
    var cache := if evicted.None? then s.cache[key := e] else s.cache[key := e] - {evicted.value};
    var s1 := s.(calls := s.calls[t := Call(key, Looking)]);
    var s2 := s.(calls := s.calls[t := Call(key, Missed)]);
    var s3 := s.(calls := s.calls[t := Call(key, Locked)], holder := Some(t));
    var s4 := s.(calls := s.calls[t := Call(key, Adding)], holder := Some(t));
    var s5 := s.(calls := s.calls[t := Call(key, Unlocking(e))], holder := Some(t), cache := cache,
                 entries := s.entries[e := Entry(key, Fresh)]);
    var s6 := s5.(calls := s.calls[t := Call(key, Attached(e))], holder := None);
    after := s6.(calls := s.calls[t := Call(key, Running(e))], entries := s.entries[e := Entry(key, Reading(t))]);
    MissStarts(s, s1, s2, s3, s4, size, t, key);
    MissAdds(s, s4, s5, s6, after, size, t, key, e, evicted);
    var added := AfterAdd(order, key, evicted);
    MissKeepsOrder(s, size, Arrive(t, key), s1, order, key);
    MissKeepsOrder(s1, size, Lookup(t), s2, order, key);
    MissKeepsOrder(s2, size, Lock(t), s3, order, key);
    MissKeepsOrder(s3, size, Recheck(t), s4, order, key);
    AddTouches(s4, size, t, e, evicted, s5, order, key);
    MissKeepsOrder(s5, size, Unlock(t), s6, added, key);
    MissKeepsOrder(s6, size, Enter(t), after, added, key);
    var x := Traced(s, order);
    steps := [Arrive(t, key)];
    RunOne(x, size, Arrive(t, key));
    RunMore(x, size, steps, Traced(s1, order), Lookup(t));
    steps := steps + [Lookup(t)];
    RunMore(x, size, steps, Traced(s2, order), Lock(t));
    steps := steps + [Lock(t)];
    RunMore(x, size, steps, Traced(s3, order), Recheck(t));
    steps := steps + [Recheck(t)];
    RunMore(x, size, steps, Traced(s4, order), Add(t, e, evicted));
    steps := steps + [Add(t, e, evicted)];
    RunMore(x, size, steps, Traced(s5, added), Unlock(t));
    steps := steps + [Unlock(t)];
    RunMore(x, size, steps, Traced(s6, added), Enter(t));
    steps := steps + [Enter(t)];
    MissAsks(t, key, e, evicted);
  }

  lemma MissAsks(t: nat, key: CacheKey, e: nat, evicted: Option<CacheKey>)
    ensures Asks([Arrive(t, key)] + [Lookup(t)] + [Lock(t)] + [Recheck(t)] + [Add(t, e, evicted)] + [Unlock(t)] + [Enter(t)], {key})
  {
  }

  lemma MissStarts(s: State, s1: State, s2: State, s3: State, s4: State, size: nat, t: nat, key: CacheKey)
    requires s.holder.None? && t !in s.calls && key !in s.cache
    requires s1 == s.(calls := s.calls[t := Call(key, Looking)])
    requires s2 == s.(calls := s.calls[t := Call(key, Missed)])
    requires s3 == s.(calls := s.calls[t := Call(key, Locked)], holder := Some(t))
    requires s4 == s.(calls := s.calls[t := Call(key, Adding)], holder := Some(t))
    ensures Apply(s, size, Arrive(t, key)) == Some(s1) && Apply(s1, size, Lookup(t)) == Some(s2)
    ensures Apply(s2, size, Lock(t)) == Some(s3) && Apply(s3, size, Recheck(t)) == Some(s4)
  {
    assert s1.calls[t := Call(key, Missed)] == s2.calls;
    assert s2.calls[t := Call(key, Locked)] == s3.calls;
    assert s3.calls[t := Call(key, Adding)] == s4.calls;
  }

  lemma MissAdds(s: State, s4: State, s5: State, s6: State, after: State, size: nat, t: nat, key: CacheKey, e: nat, evicted: Option<CacheKey>)
    requires t !in s.calls && e !in s.entries && MayEvict(s.cache[key := e], size, key, evicted)
    requires s4 == s.(calls := s.calls[t := Call(key, Adding)], holder := Some(t))
    requires s5 == s.(calls := s.calls[t := Call(key, Unlocking(e))], holder := Some(t),
                      cache := if evicted.None? then s.cache[key := e] else s.cache[key := e] - {evicted.value},
                      entries := s.entries[e := Entry(key, Fresh)])
    requires s6 == s5.(calls := s.calls[t := Call(key, Attached(e))], holder := None)
    requires after == s6.(calls := s.calls[t := Call(key, Running(e))], entries := s.entries[e := Entry(key, Reading(t))])
    ensures Apply(s4, size, Add(t, e, evicted)) == Some(s5)
    ensures Apply(s5, size, Unlock(t)) == Some(s6) && Apply(s6, size, Enter(t)) == Some(after)
  {
    hide MayEvict;
    assert s4.calls[t := Call(key, Unlocking(e))] == s5.calls;
    MissEnters(s5, s6, after, size, t, key, e);
  }

  lemma MissEnters(s5: State, s6: State, after: State, size: nat, t: nat, key: CacheKey, e: nat)
    requires t in s5.calls && s5.calls[t] == Call(key, Unlocking(e)) && e in s5.entries && s5.entries[e] == Entry(key, Fresh)
    requires s6.calls == s5.calls[t := Call(key, Attached(e))] && s6 == s5.(calls := s6.calls, holder := None)
    requires after.calls == s5.calls[t := Call(key, Running(e))] && after.entries == s5.entries[e := Entry(key, Reading(t))]
    requires after == s6.(calls := after.calls, entries := after.entries)
    ensures Apply(s5, size, Unlock(t)) == Some(s6) && Apply(s6, size, Enter(t)) == Some(after)
  {
    assert s6.calls[t := Call(key, Running(e))] == after.calls;
  }

  predicate Distinct(keys: seq<CacheKey>) { forall i, j :: 0 <= i < j < |keys| ==> keys[i] != keys[j] }

  predicate AllIn(keys: seq<CacheKey>, all: set<CacheKey>) { forall i :: 0 <= i < |keys| ==> keys[i] in all }

  lemma KeyIsIn(keys: seq<CacheKey>, i: nat, all: set<CacheKey>)
    requires AllIn(keys, all) && i < |keys|
    ensures {keys[i]} <= all
  {
  }

  lemma AsksMore(a: seq<Step>, b: seq<Step>, few: set<CacheKey>, all: set<CacheKey>)
    requires Asks(a, all) && Asks(b, few) && few <= all
    ensures Asks(a + b, all)
  {
  }

  /** The cache holds exactly the first keys. */
  predicate Holds(cache: map<CacheKey, nat>, keys: seq<CacheKey>, n: nat) {
    && n <= |keys| && |cache| == n
    && (forall k :: k in cache ==> k in keys[..n])
    && (forall i :: 0 <= i < n ==> keys[i] in cache)
  }

  lemma HoldsOneMore(cache: map<CacheKey, nat>, keys: seq<CacheKey>, n: nat, e: nat)
    requires Holds(cache, keys, n) && n < |keys| && keys[n] !in keys[..n]
    ensures Holds(cache[keys[n] := e], keys, n + 1)
  {
    assert keys[..n + 1] == keys[..n] + [keys[n]];
    assert keys[n] !in cache && |cache[keys[n] := e]| == |cache| + 1;
  }

  /** The state after one call for each of the first keys, all still reading. */
  predicate Filled(s: State, keys: seq<CacheKey>, n: nat) {
    && s.holder.None? && Holds(s.cache, keys, n)
    && (forall e :: e in s.entries ==> e < n)
    && (forall t :: t in s.calls ==> t < n)
    && (n > 0 ==> 0 in s.calls && s.calls[0] == Call(keys[0], Running(0)))
  }

  lemma FilledByOneMore(s: State, keys: seq<CacheKey>, n: nat, after: State)
    requires Filled(s, keys, n) && n < |keys| && Distinct(keys)
    requires after.holder.None? && after.calls == s.calls[n := Call(keys[n], Running(n))]
    requires after.cache == s.cache[keys[n] := n] && after.entries.Keys == s.entries.Keys + {n}
    ensures Filled(after, keys, n + 1)
  {
    hide Distinct, Holds;
    NextIsDistinct(keys, n);
    HoldsOneMore(s.cache, keys, n, n);
    forall e | e in after.entries ensures e < n + 1 {
      assert e in after.entries.Keys;
    }
  }

  lemma NextIsDistinct(keys: seq<CacheKey>, n: nat)
    requires Distinct(keys) && n < |keys|
    ensures keys[n] !in keys[..n] && keys[..n + 1] == keys[..n] + [keys[n]]
  {
  }

  /** As long as the cache has room, every new key gets a read of its own. */
  lemma {:induction false} FillRun(size: nat, keys: seq<CacheKey>, n: nat, all: set<CacheKey>) returns (steps: seq<Step>, s: State)
    requires n <= size && n <= |keys| && Distinct(keys) && AllIn(keys, all)
    ensures RunLru(LruInitial, size, steps) == Some(Traced(s, keys[..n])) && Asks(steps, all) && Filled(s, keys, n)
    decreases n
  {
    hide RunLru, Asks, Filled, MayEvict, AllIn, Distinct;
    if n == 0 {
      steps, s := [], Initial;
      NothingFilled(keys, size, all);
    } else {
      var before, mid := FillRun(size, keys, n - 1, all);
      NextIsNew(mid, keys, n - 1, size);
      var more;
      more, s := MissRun(mid, size, n - 1, keys[n - 1], n - 1, None, keys[..n - 1]);
      NextIsLast(keys, n - 1);
      RunAppend(LruInitial, size, before, Traced(mid, keys[..n - 1]), more);
      KeyIsIn(keys, n - 1, all);
      AsksMore(before, more, {keys[n - 1]}, all);
      FilledByOneMore(mid, keys, n - 1, s);
      steps := before + more;
    }
  }

  lemma NothingFilled(keys: seq<CacheKey>, size: nat, all: set<CacheKey>)
    ensures RunLru(LruInitial, size, []) == Some(Traced(Initial, keys[..0])) && Asks([], all) && Filled(Initial, keys, 0)
  {
    assert keys[..0] == [];
  }

  lemma NextIsLast(keys: seq<CacheKey>, n: nat)
    requires Distinct(keys) && n < |keys|
    ensures Touched(keys[..n], keys[n]) == keys[..n + 1] && AfterAdd(keys[..n], keys[n], None) == keys[..n + 1]
  {
    FilterAll((k: CacheKey) => k != keys[n], keys[..n]);
    assert keys[..n + 1] == keys[..n] + [keys[n]];
  }

  lemma NextIsNew(s: State, keys: seq<CacheKey>, n: nat, size: nat)
    requires Filled(s, keys, n) && n < |keys| && n < size && Distinct(keys)
    ensures s.holder.None? && n !in s.calls && keys[n] !in s.cache && n !in s.entries
    ensures MayEvict(s.cache[keys[n] := n], size, keys[n], None)
  {
  }

  lemma MapWithout<K, V>(m: map<K, V>, k: K)
    requires k in m
    ensures |m - {k}| == |m| - 1
  {
    assert (m - {k}).Keys == m.Keys - {k};
    assert |m.Keys| == |m| && |(m - {k}).Keys| == |m - {k}|;
  }

  /** The key of the first call is pushed out, and another call for it reads it once more. */
  lemma AsksAgain(size: nat, keys: seq<CacheKey>, s: State, all: set<CacheKey>) returns (steps: seq<Step>, after: Traced)
    requires size > 0 && |keys| == size + 1 && Distinct(keys) && AllIn(keys, all) && Filled(s, keys, size)
    ensures RunLru(Traced(s, keys[..size]), size, steps) == Some(after) && Asks(steps, all)
    ensures 0 in after.state.calls && after.state.calls[0] == Call(keys[0], Running(0))
    ensures size + 1 in after.state.calls && after.state.calls[size + 1] == Call(keys[0], Running(size + 1))
  {
    hide RunLru, Asks, MayEvict, AllIn, Distinct, Filled, AfterAdd, Touched;
    var a, b, c := keys[0], keys[size], keys[1];
    KeyIsIn(keys, 0, all);
    KeyIsIn(keys, size, all);
    PushesOut(s, size, keys);
    OldestGoes(keys, size);
    var first, mid := MissRun(s, size, size, b, size, Some(a), keys[..size]);
    PushesBack(s, mid, size, keys);
    var second, last := MissRun(mid, size, size + 1, a, size + 1, Some(c), keys[1..]);
    after := Traced(last, AfterAdd(keys[1..], a, Some(c)));
    RunAppend(Traced(s, keys[..size]), size, first, Traced(mid, keys[1..]), second);
    steps := first + second;
    AsksMore([], first, {b}, all) by { AsksNothing(all); }
    assert [] + first == first;
    AsksMore(first, second, {a}, all);
  }

  /** With all keys but one in order, adding the last pushes out the first, and adding that one again the
      next. */
  lemma OldestGoes(keys: seq<CacheKey>, size: nat)
    requires size > 0 && |keys| == size + 1 && Distinct(keys)
    ensures Touched(keys[..size], keys[size])[0] == keys[0]
    ensures AfterAdd(keys[..size], keys[size], Some(keys[0])) == keys[1..]
    ensures Touched(keys[1..], keys[0])[0] == keys[1]
  {
    NextIsLast(keys, size);
    assert keys[..size + 1] == keys == [keys[0]] + keys[1..];
    FilterAppend((k: CacheKey) => k != keys[0], [keys[0]], keys[1..]);
    FilterAll((k: CacheKey) => k != keys[0], keys[1..]);
  }

  lemma AsksNothing(all: set<CacheKey>)
    ensures Asks([], all)
  {
  }

  lemma PushesOut(s: State, size: nat, keys: seq<CacheKey>)
    requires size > 0 && |keys| == size + 1 && Distinct(keys) && Filled(s, keys, size)
    ensures s.holder.None? && size !in s.calls && size !in s.entries && keys[size] !in s.cache
    ensures MayEvict(s.cache[keys[size] := size], size, keys[size], Some(keys[0]))
    ensures |s.cache| == size && keys[0] in s.cache && keys[0] != keys[size]
    ensures 0 in s.calls && s.calls[0] == Call(keys[0], Running(0))
  {
    assert keys[0] in s.cache;
    assert |s.cache[keys[size] := size]| == |s.cache| + 1;
  }

  lemma PushesBack(s: State, mid: State, size: nat, keys: seq<CacheKey>)
    requires size > 0 && |keys| == size + 1 && Distinct(keys) && Filled(s, keys, size)
    requires mid.cache == s.cache[keys[size] := size] - {keys[0]} && mid.calls == s.calls[size := Call(keys[size], Running(size))]
    requires mid.entries.Keys == s.entries.Keys + {size} && mid.holder.None?
    ensures size + 1 !in mid.calls && size + 1 !in mid.entries && keys[0] !in mid.cache
    ensures MayEvict(mid.cache[keys[0] := size + 1], size, keys[0], Some(keys[1]))
  {
    hide Distinct, Holds;
    PushesOut(s, size, keys);
    SecondIsCached(s.cache, keys, size);
    MapWithout(s.cache[keys[size] := size], keys[0]);
    assert |s.cache[keys[size] := size]| == size + 1;
    assert |mid.cache[keys[0] := size + 1]| == |mid.cache| + 1;
    assert size + 1 !in mid.entries.Keys;
  }

  lemma SecondIsCached(cache: map<CacheKey, nat>, keys: seq<CacheKey>, size: nat)
    requires size > 0 && |keys| == size + 1 && Distinct(keys) && Holds(cache, keys, size)
    ensures keys[1] != keys[0] && (keys[1] == keys[size] || keys[1] in cache)
  {
  }

  /** The first elements of a set that is large enough. */
  lemma {:induction false} SomeOf(keys: set<CacheKey>, n: nat) returns (some: seq<CacheKey>)
    requires n <= |keys|
    ensures |some| == n && Distinct(some) && AllIn(some, keys)
    decreases n
  {
    if n == 0 {
      some := [];
    } else {
      var k :| k in keys;
      var rest := SomeOf(keys - {k}, n - 1);
      some := [k] + rest;
      assert forall i :: 0 < i < n ==> some[i] == rest[i - 1] && rest[i - 1] in keys - {k};
    }
  }

  /** At most one read of each key is in progress. */
  predicate SingleFlight(s: State) {
    forall t, u :: t in s.calls && u in s.calls && BothRead(s.calls[t], s.calls[u]) ==> t == u
  }

  predicate BothRead(a: Call, b: Call) { a.pc.Running? && b.pc.Running? && a.key == b.key }

  /** Without room for all keys, evictions can put two reads of one key in progress, even those of a
      cache that always evicts the key not used for longest. */
  lemma EvictionCanDoubleARead(size: nat, keys: set<CacheKey>) returns (steps: seq<Step>, x: Traced)
    requires 0 < size < |keys|
    ensures Asks(steps, keys) && RunLru(LruInitial, size, steps) == Some(x) && !SingleFlight(x.state)
    ensures RunAll(Initial, size, steps) == Some(x.state)
  {
    hide RunAll, RunLru, Asks, Filled;
    var some := SomeOf(keys, size + 1);
    var first, mid := FillRun(size, some, size, keys);
    var second;
    second, x := AsksAgain(size, some, mid, keys);
    RunAppend(LruInitial, size, first, Traced(mid, some[..size]), second);
    AsksMore(first, second, keys, keys);
    steps := first + second;
    LruIsARun(LruInitial, size, steps, x);
    assert BothRead(x.state.calls[0], x.state.calls[size + 1]);
  }

  /** Single flight, exactly: whatever is asked for among the keys, at most one read per key is in
      progress, if and only if all keys fit the cache. It does not matter whether the cache evicts any
      key or the one not used for longest. */
  lemma SingleFlightIff(size: nat, keys: set<CacheKey>)
    requires size > 0
    ensures (forall steps, s :: Asks(steps, keys) && RunAll(Initial, size, steps) == Some(s) ==> SingleFlight(s))
       <==> |keys| <= size
    ensures (forall steps, x :: Asks(steps, keys) && RunLru(LruInitial, size, steps) == Some(x) ==> SingleFlight(x.state))
       <==> |keys| <= size
  {
    hide RunAll, RunLru, Asks, SingleFlight;
    if |keys| <= size {
      forall steps, s | Asks(steps, keys) && RunAll(Initial, size, steps) == Some(s) ensures SingleFlight(s) {
        FittingIsSingleFlight(size, keys, steps, s);
      }
      forall steps, x | Asks(steps, keys) && RunLru(LruInitial, size, steps) == Some(x) ensures SingleFlight(x.state) {
        LruIsARun(LruInitial, size, steps, x);
        FittingIsSingleFlight(size, keys, steps, x.state);
      }
    } else {
      var steps, x := EvictionCanDoubleARead(size, keys);
    }
  }

  lemma FittingIsSingleFlight(size: nat, keys: set<CacheKey>, steps: seq<Step>, s: State)
    requires |keys| <= size && Asks(steps, keys) && RunAll(Initial, size, steps) == Some(s)
    ensures SingleFlight(s)
  {
    hide RunAll, Asks;
    forall t, u | t in s.calls && u in s.calls && BothRead(s.calls[t], s.calls[u]) ensures t == u {
      OneReadPerKey(size, steps, s, keys, t, u);
    }
  }
}
