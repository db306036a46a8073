/** Writing activations in batches: one worker, its channel, and the ticks that flush it in between. */
module Batcher {
  import opened Common
  import opened Text

  const FLUSH_BYTES: nat := 5 * 1024 * 1024

  /** What happens to a worker, one at a time under its mutex. */
  datatype Event = Arrival(activation: string) | Tick

  function Arrivals(events: seq<Event>): seq<string> {
    if events == [] then []
    else (if events[0].Arrival? then [events[0].activation] else []) + Arrivals(events[1..])
  }

  predicate NoTicks(events: seq<Event>) { forall i :: 0 <= i < |events| ==> events[i].Arrival? }

  /** Never empty, and within the limit unless it is a single activation. */
  predicate ProperBatch(batch: seq<string>) {
    batch != [] && (|batch| > 1 ==> Bytes(batch) <= FLUSH_BYTES)
  }

  predicate ProperBatches(batches: seq<seq<string>>) {
    forall i :: 0 <= i < |batches| ==> ProperBatch(batches[i])
  }

  /** A batch that had to be written before the next one was begun. */
  predicate NoRoomFor(batch: seq<string>, next: seq<string>) {
    next != [] && FLUSH_BYTES < Bytes(batch) + |next[0]|
  }

  /** No batch could have taken the first activation of the next one. */
  predicate Greedy(batches: seq<seq<string>>) {
    |batches| >= 2 ==> NoRoomFor(batches[0], batches[1]) && Greedy(batches[1..])
  }

  lemma {:induction false} GreedyOneMore(batches: seq<seq<string>>, batch: seq<string>)
    requires Greedy(batches) && (batches != [] ==> NoRoomFor(batches[|batches| - 1], batch))
    ensures Greedy(batches + [batch])
  {
    hide NoRoomFor;
    if batches != [] {
      GreedyOneMore(batches[1..], batch);
      assert (batches + [batch])[1..] == batches[1..] + [batch];
    }
  }

  /** A worker that was never flushed by a tick: all it wrote was written for want of room. */
  predicate Undisturbed(flushed: seq<seq<string>>, batch: seq<string>) {
    && Greedy(flushed)
    && (batch == [] ==> flushed == [])
    && (flushed != [] ==> NoRoomFor(flushed[|flushed| - 1], batch))
  }

  lemma CollectUndisturbed(flushed: seq<seq<string>>, batch: seq<string>, activation: string)
    requires Undisturbed(flushed, batch)
    ensures Undisturbed(flushed, batch + [activation])
    ensures batch != [] && Bytes(batch) + |activation| > FLUSH_BYTES ==> Undisturbed(flushed + [batch], [activation])
  {
    GreedyOneMore(flushed, batch);
  }

  lemma FlushUndisturbed(flushed: seq<seq<string>>, batch: seq<string>)
    requires Undisturbed(flushed, batch)
    ensures Greedy(flushed + if batch == [] then [] else [batch])
  {
    if batch == [] {
      assert flushed + [] == flushed;
    } else {
      GreedyOneMore(flushed, batch);
    }
  }

  lemma BytesOfOneMore(batch: seq<string>, x: string)
    ensures Bytes(batch + [x]) == Bytes(batch) + |x|
  {
    assert (batch + [x])[..|batch|] == batch;
  }

  lemma NoBytes()
    ensures Bytes([]) == 0
  {
  }

  lemma {:induction false} BytesOfBoth(a: seq<string>, b: seq<string>)
    ensures Bytes(a + b) == Bytes(a) + Bytes(b)
  {
    if b == [] {
      assert a + b == a;
    } else {
      assert (a + b)[..|a + b| - 1] == a + b[..|b| - 1];
      BytesOfBoth(a, b[..|b| - 1]);
    }
  }

  lemma BytesOfFirst(batch: seq<string>)
    requires batch != []
    ensures |batch[0]| <= Bytes(batch)
  {
    BytesOfBoth([batch[0]], batch[1..]);
    assert batch == [batch[0]] + batch[1..];
    BytesOfOneMore([], batch[0]);
    assert [] + [batch[0]] == [batch[0]];
  }

  lemma {:induction false} FlattenOneMore(batches: seq<seq<string>>, batch: seq<string>)
    ensures Flatten(batches + [batch]) == Flatten(batches) + batch
  {
    if batches == [] {
      assert batches + [batch] == [batch] && [batch][1..] == [];
      assert Flatten([batch]) == batch + [];
    } else {
      assert (batches + [batch])[1..] == batches[1..] + [batch];
      FlattenOneMore(batches[1..], batch);
    }
  }

  /** The batches that reach the database: those whose write succeeds, in order. */
  function Written(batches: seq<seq<string>>, writeOk: nat -> bool): seq<seq<string>> {
    if batches == [] then []
    else
      var last := |batches| - 1;
      Written(batches[..last], writeOk) + if writeOk(last) then [batches[last]] else []
  }

  lemma WrittenOneMore(batches: seq<seq<string>>, batch: seq<string>, writeOk: nat -> bool)
    ensures Written(batches + [batch], writeOk) == Written(batches, writeOk) + if writeOk(|batches|) then [batch] else []
  {
    assert (batches + [batch])[..|batches|] == batches;
  }

  /** A batch whose write fails is dropped: everything reaches the database if and only if no write
      fails. */
  lemma {:induction false} NothingIsDroppedIff(batches: seq<seq<string>>, writeOk: nat -> bool)
    requires ProperBatches(batches)
    ensures |Flatten(Written(batches, writeOk))| <= |Flatten(batches)|
    ensures Flatten(Written(batches, writeOk)) == Flatten(batches) <==> forall i :: 0 <= i < |batches| ==> writeOk(i)
    decreases |batches|
  {
    hide Flatten, Bytes;
    if batches != [] {
      var front, last := batches[..|batches| - 1], batches[|batches| - 1];
      NothingIsDroppedIff(front, writeOk);
      assert batches == front + [last];
      FlattenOneMore(front, last);
      FlattenOneMore(Written(front, writeOk), last);
      assert Written(front, writeOk) + [] == Written(front, writeOk);
      assert last != [];
      if writeOk(|front|) && Flatten(Written(front, writeOk)) + last == Flatten(front) + last {
        assert |Flatten(Written(front, writeOk))| == |Flatten(front)|;
        assert Flatten(Written(front, writeOk)) == (Flatten(front) + last)[..|Flatten(front)|];
      }
    }
  }

  class Worker {
    const writeOk: nat -> bool        // how the database answers the writes, one after the other
    var batch: seq<string>
    var batchSize: nat
    var flushed: seq<seq<string>>     // the batches written or tried to, in order
    var stored: seq<seq<string>>      // the batches that arrived
    ghost var received: seq<string>

    /** Nothing is lost, repeated or reordered between the channel and the writes, and what a write
        that succeeds is given arrives. */
    ghost predicate Valid()
      reads this
    {
      && Flatten(flushed) + batch == received
      && batchSize == Bytes(batch)
      && ProperBatches(flushed)
      && (batch != [] ==> ProperBatch(batch))
      && stored == Written(flushed, writeOk)
    }

    constructor (writeOk: nat -> bool)
      ensures Valid() && received == [] && flushed == [] && batch == [] && this.writeOk == writeOk
    {
      this.writeOk := writeOk;
      batch, batchSize, flushed, stored, received := [], 0, [], [], [];
    }

    /** `flush`: writes the batch unless it is empty. A failing write is logged only. */
    method Flush()
      requires Valid()
      modifies this`batch, this`batchSize, this`flushed, this`stored
      ensures Valid() && batch == []
      ensures flushed == old(flushed) + if old(batch) == [] then [] else [old(batch)]
    {
      if |batch| == 0 {
        return;
      }
      FlattenOneMore(flushed, batch);
      WrittenOneMore(flushed, batch, writeOk);
      if writeOk(|flushed|) {
        stored := stored + [batch];
      }
      flushed := flushed + [batch];
      batch := [];
      batchSize := 0;
    }

    /** One activation off the channel. */
    method Collect(activation: string)
      requires Valid()
      modifies this
      ensures Valid() && received == old(received) + [activation]
      ensures if Bytes(old(batch)) + |activation| > 5_242_880 && old(batch) != []
              then flushed == old(flushed) + [old(batch)] && batch == [activation]
              else flushed == old(flushed) && batch == old(batch) + [activation]
    {
      hide Flatten, Bytes, Written, ProperBatches;
      var bytesInActivation := |activation|;
      if batchSize + bytesInActivation > FLUSH_BYTES {
        Flush();
      }
      BytesOfOneMore(batch, activation);
      NoBytes();
      assert [] + [activation] == [activation];
      batch := batch + [activation];
      batchSize := batchSize + bytesInActivation;
      received := received + [activation];
      assert Flatten(flushed) + batch == received;
    }

    /** `run`, with the ticks in between: collects until the channel is closed, then flushes the rest.
        What was received is given to the writes exactly once, in order, in proper batches, and nothing
        is left; it is all in the database if and only if no write failed. */
    method Run(events: seq<Event>)
      requires Valid()
      modifies this
      ensures Valid() && batch == []
      ensures received == old(received) + Arrivals(events)
      ensures Flatten(flushed) == old(Flatten(flushed) + batch) + Arrivals(events)
      ensures ProperBatches(flushed)
      ensures Flatten(stored) == received <==> forall i :: 0 <= i < |flushed| ==> writeOk(i)
      ensures forall i :: 0 <= i < |flushed| ==> flushed[i] != [] && (|flushed[i]| == 1 || Bytes(flushed[i]) <= 5_242_880)
      ensures old(flushed) == [] && old(batch) == [] && NoTicks(events) ==> Greedy(flushed)
      ensures old(flushed) == [] && old(batch) == [] && NoTicks(events) ==>
        forall i :: 0 < i < |flushed| ==> flushed[i] != [] && Bytes(flushed[i - 1]) + |flushed[i][0]| > 5_242_880
    {
      hide Written, ProperBatch, ProperBatches, Bytes, Flatten, Greedy, Undisturbed, NoRoomFor;
      ghost var undisturbed := old(flushed) == [] && old(batch) == [] && NoTicks(events);
      NewIsUndisturbed();
      for i := 0 to |events|
        invariant Valid()
        invariant received + Arrivals(events[i..]) == old(received) + Arrivals(events)
        invariant undisturbed ==> Undisturbed(flushed, batch)
      {
        assert events[i..] == [events[i]] + events[i + 1..];
        match events[i]
        case Arrival(activation) =>
          if undisturbed { CollectUndisturbed(flushed, batch, activation); }
          Collect(activation);
          assert received + Arrivals(events[i + 1..]) == old(received) + Arrivals(events);
        case Tick => Flush();
      }
      assert events[|events|..] == [];
      if undisturbed { FlushUndisturbed(flushed, batch); }
      Flush();
      assert Flatten(flushed) + [] == Flatten(flushed);
      NothingIsDroppedIff(flushed, writeOk);
      ProperInFull(flushed);
      if undisturbed { GreedyInFull(flushed); }
    }
  }

  lemma ProperInFull(batches: seq<seq<string>>)
    requires ProperBatches(batches)
    ensures forall i :: 0 <= i < |batches| ==> batches[i] != [] && (|batches[i]| == 1 || Bytes(batches[i]) <= 5_242_880)
  {
    hide Bytes;
  }

  lemma {:induction false} GreedyInFull(batches: seq<seq<string>>)
    requires Greedy(batches)
    ensures forall i :: 0 < i < |batches| ==> batches[i] != [] && Bytes(batches[i - 1]) + |batches[i][0]| > 5_242_880
    decreases |batches|
  {
    hide Bytes;
    if |batches| >= 2 {
      GreedyInFull(batches[1..]);
      forall i | 0 < i < |batches| ensures batches[i] != [] && Bytes(batches[i - 1]) + |batches[i][0]| > 5_242_880 {
        if i > 1 { assert batches[1..][i - 1] == batches[i] && batches[1..][i - 2] == batches[i - 1]; }
      }
    }
  }

  lemma NewIsUndisturbed()
    ensures Undisturbed([], [])
  {
  }

  /** The sizes of two batches in a row exceed the limit together. */
  lemma {:induction false} PairsExceedTheLimit(batches: seq<seq<string>>)
    requires Greedy(batches)
    ensures (|batches| / 2) * FLUSH_BYTES <= Bytes(Flatten(batches))
    decreases |batches|
  {
    hide Bytes, Flatten, NoRoomFor;
    if |batches| >= 2 {
      var rest := batches[2..];
      FlattenTwo(batches);
      PairsExceedTheLimit(rest);
      PairIsLarge(batches[0], batches[1], Flatten(rest));
      assert |batches| / 2 == |rest| / 2 + 1;
      assert (|rest| / 2 + 1) * FLUSH_BYTES == (|rest| / 2) * FLUSH_BYTES + FLUSH_BYTES;
    }
  }

  lemma FlattenTwo(batches: seq<seq<string>>)
    requires |batches| >= 2
    ensures batches[1..][1..] == batches[2..]
    ensures Flatten(batches) == batches[0] + (batches[1] + Flatten(batches[2..]))
  {
    assert batches[1..][1..] == batches[2..];
  }

  lemma PairIsLarge(a: seq<string>, b: seq<string>, rest: seq<string>)
    requires NoRoomFor(a, b)
    ensures FLUSH_BYTES + Bytes(rest) < Bytes(a + (b + rest))
  {
    BytesOfFirst(b);
    BytesOfBoth(a, b + rest);
    BytesOfBoth(b, rest);
  }

  lemma QuotientBound(n: nat, divisor: nat, total: nat)
    requires divisor > 0 && n * divisor <= total
    ensures n <= total / divisor
  {
    var q := total / divisor;
    assert total < q * divisor + divisor == (q + 1) * divisor;
    assert n > q ==> n * divisor >= (q + 1) * divisor;
  }

  /** Without ticks the number of writes is within one of twice the least possible. */
  lemma FewWrites(batches: seq<seq<string>>)
    requires Greedy(batches)
    ensures |batches| <= 2 * (Bytes(Flatten(batches)) / 5_242_880) + 1
  {
    hide Greedy, Bytes, Flatten;
    PairsExceedTheLimit(batches);
    QuotientBound(|batches| / 2, FLUSH_BYTES, Bytes(Flatten(batches)));
  }

  /** Any way to cut the same activations into batches within the limit needs this many. */
  lemma {:induction false} LeastWrites(batches: seq<seq<string>>)
    requires forall i :: 0 <= i < |batches| ==> Bytes(batches[i]) <= 5_242_880
    ensures Bytes(Flatten(batches)) <= |batches| * 5_242_880
  {
    if batches != [] {
      LeastWrites(batches[1..]);
      BytesOfBoth(batches[0], Flatten(batches[1..]));
    }
  }

  /** The tick of the batcher: every worker is flushed, one after the other. */
  class ActivationBatcher {
    const workers: seq<Worker>

    constructor (workers: seq<Worker>)
      ensures this.workers == workers
    {
      this.workers := workers;
    }

    method OnTick()
      requires forall i, j :: 0 <= i < j < |workers| ==> workers[i] != workers[j]
      requires forall i :: 0 <= i < |workers| ==> workers[i].Valid()
      modifies set w | w in workers
      ensures forall i :: 0 <= i < |workers| ==> workers[i].Valid() && workers[i].batch == []
      ensures forall i :: 0 <= i < |workers| ==> workers[i].received == old(workers[i].received)
      ensures forall i :: 0 <= i < |workers| ==>
        workers[i].flushed == old(workers[i].flushed) + if old(workers[i].batch) == [] then [] else [old(workers[i].batch)]
    {
      hide Flatten, Bytes, Written, ProperBatches, ProperBatch;
      for k := 0 to |workers|
        invariant forall i :: 0 <= i < k ==> workers[i].Valid() && workers[i].batch == []
        invariant forall i :: 0 <= i < k ==> workers[i].received == old(workers[i].received)
        invariant forall i :: 0 <= i < k ==>
          workers[i].flushed == old(workers[i].flushed) + if old(workers[i].batch) == [] then [] else [old(workers[i].batch)]
        invariant forall i :: k <= i < |workers| ==> unchanged(workers[i])
      {
        workers[k].Flush();
      }
    }
  }
}
