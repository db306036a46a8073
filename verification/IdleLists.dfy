/** The idle containers of the pool as values: per-key lists, least-recently-used eviction and
    reaping by age. The order in which the lists are visited is left open throughout. */
module IdleLists {
  import opened Common

  /** The function part of a warm key (protocol.ActivationMessageFunction). */
  datatype FunctionMeta = FunctionMeta(namespace: string, name: string, version: string, revision: string, binding: string)

  datatype WarmKey = WarmKey(namespace: string, fn: FunctionMeta)

  datatype PrewarmKey = PrewarmKey(kind: string, memory: nat)

  /** A container as the idle lists see it. Its identity is `id`. */
  datatype Pooled = Pooled(id: nat, key: WarmKey, memory: nat, lastUsed: int)

  type Idles = map<WarmKey, seq<Pooled>>

  /** Reading an absent key yields an empty list. */
  function ListOf(idles: Idles, k: WarmKey): seq<Pooled> {
    if k in idles then idles[k] else []
  }

  // ---------------------------------------------------------------- measures

  /** What is added up over lists: bytes of memory, or occurrences of one container. */
  datatype Measure = Bytes | Copies(id: nat)

  function Weigh(w: Measure, p: Pooled): nat {
    match w
    case Bytes => p.memory
    case Copies(id) => if p.id == id then 1 else 0
  }

  function Amount(w: Measure, l: seq<Pooled>): nat {
    if l == [] then 0 else Weigh(w, l[0]) + Amount(w, l[1..])
  }

  lemma {:induction false} AmountConcat(w: Measure, a: seq<Pooled>, b: seq<Pooled>)
    ensures Amount(w, a + b) == Amount(w, a) + Amount(w, b)
  {
    if a == [] {
      assert a + b == b;
    } else {
      assert (a + b)[1..] == a[1..] + b;
      AmountConcat(w, a[1..], b);
    }
  }

  lemma AmountSplit(w: Measure, l: seq<Pooled>, n: nat)
    requires n <= |l|
    ensures Amount(w, l) == Amount(w, l[..n]) + Amount(w, l[n..])
  {
    AmountConcat(w, l[..n], l[n..]);
    assert l[..n] + l[n..] == l;
  }

  lemma AmountAt(w: Measure, l: seq<Pooled>, i: nat)
    requires i < |l|
    ensures Amount(w, l) == Amount(w, l[..i]) + Weigh(w, l[i]) + Amount(w, l[i + 1..])
  {
    AmountSplit(w, l, i);
    assert l[i..][0] == l[i] && l[i..][1..] == l[i + 1..];
  }

  function Memory(l: seq<Pooled>): nat { Amount(Bytes, l) }

  ghost function Weights(w: Measure, idles: Idles): map<WarmKey, nat> {
    map k | k in idles :: Amount(w, idles[k])
  }

  /** The measure of all idle containers together. */
  ghost function Total(w: Measure, idles: Idles): nat {
    Sum(Weights(w, idles))
  }

  lemma TotalUpdate(w: Measure, idles: Idles, k: WarmKey, l: seq<Pooled>)
    ensures Total(w, idles[k := l]) == Total(w, idles) - Amount(w, ListOf(idles, k)) + Amount(w, l)
    ensures Amount(w, ListOf(idles, k)) <= Total(w, idles)
  {
    SumUpdate(Weights(w, idles), k, Amount(w, l));
    assert Weights(w, idles[k := l]) == Weights(w, idles)[k := Amount(w, l)];
  }

  lemma TotalRemove(w: Measure, idles: Idles, k: WarmKey)
    requires k in idles
    ensures Total(w, idles - {k}) == Total(w, idles) - Amount(w, idles[k])
  {
    SumRemove(Weights(w, idles), k);
    assert Weights(w, idles - {k}) == Weights(w, idles) - {k};
  }

  lemma TotalOfEmptyLists(w: Measure, idles: Idles)
    requires forall k :: k in idles ==> idles[k] == []
    ensures Total(w, idles) == 0
  {
    SumOfZeroes(Weights(w, idles));
  }

  /** An idle container is counted. */
  lemma Counted(w: Measure, idles: Idles, k: WarmKey, i: nat)
    requires k in idles && i < |idles[k]|
    ensures Weigh(w, idles[k][i]) <= Total(w, idles)
  {
    AmountAt(w, idles[k], i);
    TotalUpdate(w, idles, k, []);
  }

  // ---------------------------------------------------------------- shape of the lists

  /** Every container is filed under the key it was initialised for. */
  ghost predicate Filed(idles: Idles) {
    forall k, i :: k in idles && 0 <= i < |idles[k]| ==> idles[k][i].key == k
  }

  ghost predicate Ascending(l: seq<Pooled>) {
    forall i, j :: 0 <= i < j < |l| ==> l[i].lastUsed <= l[j].lastUsed
  }

  /** Every list is ordered by last use, the least recently used container first. */
  ghost predicate Ordered(idles: Idles) {
    forall k :: k in idles ==> Ascending(idles[k])
  }

  ghost predicate IsIdle(idles: Idles, p: Pooled) {
    exists k :: k in idles && p in idles[k]
  }

  // ---------------------------------------------------------------- eviction

  predicate IsHead(idles: Idles, p: Pooled) {
    p.key in idles && idles[p.key] != [] && idles[p.key][0] == p
  }

  /** What one sweep over the list heads finds, whichever order the lists are visited in. */
  ghost predicate OldestHead(idles: Idles, p: Pooled) {
    && IsHead(idles, p)
    && forall k :: k in idles && idles[k] != [] ==> p.lastUsed <= idles[k][0].lastUsed
  }

  function DropHead(idles: Idles, k: WarmKey): Idles
    requires k in idles && idles[k] != []
  {
    idles[k := idles[k][1..]]
  }

  /** `out` lists containers removed one sweep after the other, leaving `rest`. */
  ghost predicate Evicts(idles: Idles, out: seq<Pooled>, rest: Idles)
    decreases |out|
  {
    if out == [] then rest == idles
    else OldestHead(idles, out[0]) && Evicts(DropHead(idles, out[0].key), out[1..], rest)
  }

  /** The evictions that make room for `inFlight` bytes: they go on exactly while the room is missing. */
  ghost predicate MakesRoom(idles: Idles, inFlight: nat, max: nat, out: seq<Pooled>, rest: Idles) {
    && Evicts(idles, out, rest)
    && Total(Bytes, rest) + inFlight <= max
    && forall part :: part < out ==> max < Total(Bytes, idles) - Memory(part) + inFlight
  }

  /** A list head that is oldest among the heads is oldest among all idle containers, and conversely. */
  lemma HeadsSuffice(idles: Idles, p: Pooled)
    requires Ordered(idles) && IsHead(idles, p)
    ensures OldestHead(idles, p) <==> forall q :: IsIdle(idles, q) ==> p.lastUsed <= q.lastUsed
  {
    if OldestHead(idles, p) {
      forall q | IsIdle(idles, q) ensures p.lastUsed <= q.lastUsed {
        var k :| k in idles && q in idles[k];
        var i :| 0 <= i < |idles[k]| && idles[k][i] == q;
        assert idles[k][0].lastUsed <= q.lastUsed;
      }
    }
    if forall q :: IsIdle(idles, q) ==> p.lastUsed <= q.lastUsed {
      forall k | k in idles && idles[k] != [] ensures p.lastUsed <= idles[k][0].lastUsed {
        assert idles[k][0] in idles[k];
        assert IsIdle(idles, idles[k][0]);
      }
    }
  }

  lemma DropHeadFacts(idles: Idles, p: Pooled)
    requires IsHead(idles, p)
    ensures forall w :: Total(w, idles) == Weigh(w, p) + Total(w, DropHead(idles, p.key))
    ensures Filed(idles) ==> Filed(DropHead(idles, p.key))
    ensures Ordered(idles) ==> Ordered(DropHead(idles, p.key))
    ensures forall q :: IsIdle(DropHead(idles, p.key), q) ==> IsIdle(idles, q)
  {
    forall w ensures Total(w, idles) == Weigh(w, p) + Total(w, DropHead(idles, p.key)) {
      TotalUpdate(w, idles, p.key, idles[p.key][1..]);
    }
    var rest := DropHead(idles, p.key);
    forall q | IsIdle(rest, q) ensures IsIdle(idles, q) {
      var k :| k in rest && q in rest[k];
      assert q in idles[k];
    }
  }

  /** Evicting one more container extends a run of evictions. */
  lemma {:induction false} EvictsAppend(idles: Idles, out: seq<Pooled>, mid: Idles, p: Pooled)
    requires Evicts(idles, out, mid) && OldestHead(mid, p)
    ensures Evicts(idles, out + [p], DropHead(mid, p.key))
    decreases |out|
  {
    if out == [] {
      assert out + [p] == [p];
      assert Evicts(DropHead(mid, p.key), [], DropHead(mid, p.key));
    } else {
      assert (out + [p])[1..] == out[1..] + [p];
      EvictsAppend(DropHead(idles, out[0].key), out[1..], mid, p);
    }
  }

  /** Evictions conserve memory and every single container. */
  lemma {:induction false} EvictsConserves(idles: Idles, out: seq<Pooled>, rest: Idles)
    requires Evicts(idles, out, rest)
    ensures forall w :: Total(w, idles) == Amount(w, out) + Total(w, rest)
    decreases |out|
  {
    if out != [] {
      DropHeadFacts(idles, out[0]);
      EvictsConserves(DropHead(idles, out[0].key), out[1..], rest);
    }
  }

  ghost predicate SuffixOf(l: seq<Pooled>, whole: seq<Pooled>) {
    |l| <= |whole| && l == whole[|whole| - |l|..]
  }

  /** Evictions only shorten lists from the front. */
  lemma {:induction false} EvictsShortens(idles: Idles, out: seq<Pooled>, rest: Idles)
    requires Evicts(idles, out, rest)
    ensures rest.Keys == idles.Keys
    ensures forall k :: k in idles ==> SuffixOf(rest[k], idles[k])
    decreases |out|
  {
    if out != [] {
      var mid := DropHead(idles, out[0].key);
      EvictsShortens(mid, out[1..], rest);
      forall k | k in idles ensures SuffixOf(rest[k], idles[k]) {
        assert SuffixOf(rest[k], mid[k]);
      }
    }
  }

  lemma {:induction false} EvictsKeepsShape(idles: Idles, out: seq<Pooled>, rest: Idles)
    requires Evicts(idles, out, rest)
    ensures Filed(idles) ==> Filed(rest)
    ensures Ordered(idles) ==> Ordered(rest)
    decreases |out|
  {
    if out != [] {
      DropHeadFacts(idles, out[0]);
      EvictsKeepsShape(DropHead(idles, out[0].key), out[1..], rest);
    }
  }

  /** Every idle container is either evicted or survives, and nothing else appears. */
  lemma {:induction false} EvictsPartitions(idles: Idles, out: seq<Pooled>, rest: Idles)
    requires Evicts(idles, out, rest)
    ensures forall q :: IsIdle(idles, q) <==> q in out || IsIdle(rest, q)
    decreases |out|
  {
    if out != [] {
      var p := out[0];
      var mid := DropHead(idles, p.key);
      EvictsPartitions(mid, out[1..], rest);
      DropHeadFacts(idles, p);
      assert p in idles[p.key];
      forall q | IsIdle(idles, q) ensures q == p || IsIdle(mid, q) {
        var k :| k in idles && q in idles[k];
        assert q == p || q in mid[k];
      }
      assert forall q :: q in out <==> q == p || q in out[1..];
    }
  }

  /** Least-recently-used eviction is exact: evictions come in order of last use, and every evicted
      container is no more recently used than every survivor. */
  lemma {:induction false} EvictionIsLru(idles: Idles, out: seq<Pooled>, rest: Idles)
    requires Ordered(idles) && Evicts(idles, out, rest)
    ensures Ascending(out)
    ensures forall i, q :: 0 <= i < |out| && IsIdle(rest, q) ==> out[i].lastUsed <= q.lastUsed
    decreases |out|
  {
    hide Ordered, DropHead, IsIdle, Ascending;
    if out != [] {
      var mid := DropHead(idles, out[0].key);
      DropHeadFacts(idles, out[0]);
      HeadsSuffice(idles, out[0]);
      EvictsPartitions(mid, out[1..], rest);
      EvictionIsLru(mid, out[1..], rest);
      assert out == [out[0]] + out[1..];
      AscendingCons(out[0], out[1..]);
      assert forall i :: 1 <= i < |out| ==> out[i] == out[1..][i - 1];
    } else {
      NothingAscends();
    }
  }

  lemma AscendingCons(p: Pooled, l: seq<Pooled>)
    requires Ascending(l) && forall q :: q in l ==> p.lastUsed <= q.lastUsed
    ensures Ascending([p] + l)
  {
  }

  lemma NothingAscends()
    ensures Ascending([])
  {
  }

  /** No two idle containers were used last at the same instant. */
  ghost predicate DistinctStamps(idles: Idles) {
    forall p, q :: IsIdle(idles, p) && IsIdle(idles, q) && p.lastUsed == q.lastUsed ==> p == q
  }

  lemma PrefixCons(a: seq<Pooled>, b: seq<Pooled>)
    requires a != [] && b != [] && a[0] == b[0]
    requires a[1..] <= b[1..] || b[1..] <= a[1..]
    ensures a <= b || b <= a
  {
    assert a == [a[0]] + a[1..] && b == [b[0]] + b[1..];
  }

  /** With distinct stamps the order of the map does not matter: one run extends the other. */
  lemma {:induction false} EvictionsAgree(idles: Idles, a: seq<Pooled>, restA: Idles, b: seq<Pooled>, restB: Idles)
    requires DistinctStamps(idles)
    requires Evicts(idles, a, restA) && Evicts(idles, b, restB)
    ensures a <= b || b <= a
    decreases |a|
  {
    if a != [] && b != [] {
      assert a[0] in idles[a[0].key] && b[0] in idles[b[0].key];
      assert a[0] == b[0];
      var mid := DropHead(idles, a[0].key);
      assert DistinctStamps(mid) by { DropHeadFacts(idles, a[0]); }
      EvictionsAgree(mid, a[1..], restA, b[1..], restB);
      PrefixCons(a, b);
    }
  }

  /** Eviction is minimal: it evicts something exactly when room is missing, and every run of
      evictions that makes the room starts with the same containers. */
  lemma EvictionIsMinimal(idles: Idles, inFlight: nat, max: nat, out: seq<Pooled>, rest: Idles,
                          other: seq<Pooled>, left: Idles)
    requires DistinctStamps(idles)
    requires MakesRoom(idles, inFlight, max, out, rest)
    requires Evicts(idles, other, left) && Total(Bytes, left) + inFlight <= max
    ensures out == [] <==> Total(Bytes, idles) + inFlight <= max
    ensures out <= other
  {
    EvictsConserves(idles, out, rest);
    EvictsConserves(idles, other, left);
    EvictionsAgree(idles, out, rest, other, left);
    var none: seq<Pooled> := [];
    assert Memory(none) == 0 && (out != [] ==> none < out);
    assert Memory(other) == Amount(Bytes, other);
  }

  /** Room can be made exactly when the in-flight memory alone fits. */
  lemma {:induction false} RoomCanBeMade(idles: Idles, inFlight: nat, max: nat) returns (out: seq<Pooled>, rest: Idles)
    requires Filed(idles) && inFlight <= max
    ensures MakesRoom(idles, inFlight, max, out, rest)
    decreases Count(idles)
  {
    if Total(Bytes, idles) + inFlight <= max {
      out, rest := [], idles;
    } else {
      if forall k :: k in idles ==> idles[k] == [] {
        TotalOfEmptyLists(Bytes, idles);
        assert false;
      }
      var p := AnOldestHead(idles);
      DropHeadFacts(idles, p);
      CountDrop(idles, p.key);
      var mid := DropHead(idles, p.key);
      var more;
      more, rest := RoomCanBeMade(mid, inFlight, max);
      out := [p] + more;
      assert out[1..] == more;
      forall part | part < out ensures max < Total(Bytes, idles) - Memory(part) + inFlight {
        if part != [] {
          assert part[0] == p && part[1..] < more;
          assert Memory(part) == p.memory + Memory(part[1..]);
        }
      }
    }
  }

  ghost function Lengths(idles: Idles): map<WarmKey, nat> {
    map k | k in idles :: |idles[k]|
  }

  ghost function Count(idles: Idles): nat { Sum(Lengths(idles)) }

  lemma CountDrop(idles: Idles, k: WarmKey)
    requires k in idles && idles[k] != []
    ensures Count(DropHead(idles, k)) < Count(idles)
  {
    SumUpdate(Lengths(idles), k, |idles[k]| - 1);
    assert Lengths(DropHead(idles, k)) == Lengths(idles)[k := |idles[k]| - 1];
  }

  lemma {:induction false} AnOldestHead(idles: Idles) returns (p: Pooled)
    requires Filed(idles)
    requires exists k :: k in idles && idles[k] != []
    ensures OldestHead(idles, p)
    decreases |idles|
  {
    var k :| k in idles && idles[k] != [];
    var others := idles - {k};
    if exists j :: j in others && others[j] != [] {
      p := AnOldestHead(others);
      if idles[k][0].lastUsed < p.lastUsed {
        p := idles[k][0];
      }
      forall j | j in idles && idles[j] != [] ensures p.lastUsed <= idles[j][0].lastUsed {
        if j != k { assert j in others; }
      }
    } else {
      p := idles[k][0];
      assert forall j :: j in idles && j != k ==> j in others;
    }
  }

  // ---------------------------------------------------------------- reaping

  /** How many containers at the front of a list were last used no later than the cutoff. */
  function OldPrefix(l: seq<Pooled>, cutoff: int): (n: nat)
    ensures n <= |l|
    ensures forall i :: 0 <= i < n ==> l[i].lastUsed <= cutoff
    ensures n < |l| ==> cutoff < l[n].lastUsed
  {
    if l == [] || cutoff < l[0].lastUsed then 0 else 1 + OldPrefix(l[1..], cutoff)
  }

  /** The containers of a list last used after the cutoff, in order. */
  function Young(l: seq<Pooled>, cutoff: int): seq<Pooled> {
    if l == [] then []
    else if cutoff < l[0].lastUsed then [l[0]] + Young(l[1..], cutoff)
    else Young(l[1..], cutoff)
  }

  /** The containers of a list last used no later than the cutoff, in order. */
  function Old(l: seq<Pooled>, cutoff: int): seq<Pooled> {
    if l == [] then []
    else if cutoff < l[0].lastUsed then Old(l[1..], cutoff)
    else [l[0]] + Old(l[1..], cutoff)
  }

  lemma {:induction false} AllYoung(l: seq<Pooled>, cutoff: int)
    requires forall i :: 0 <= i < |l| ==> cutoff < l[i].lastUsed
    ensures Young(l, cutoff) == l && Old(l, cutoff) == []
  {
    if l != [] {
      AllYoung(l[1..], cutoff);
      assert l == [l[0]] + l[1..];
    }
  }

  /** On an ordered list the prefix scan is a filter. */
  lemma {:induction false} PrefixScanIsFilter(l: seq<Pooled>, cutoff: int)
    requires Ascending(l)
    ensures l[..OldPrefix(l, cutoff)] == Old(l, cutoff)
    ensures l[OldPrefix(l, cutoff)..] == Young(l, cutoff)
  {
    if l == [] || cutoff < l[0].lastUsed {
      AllYoung(l, cutoff);
    } else {
      var n := OldPrefix(l[1..], cutoff);
      PrefixScanIsFilter(l[1..], cutoff);
      assert l[..n + 1] == [l[0]] + l[1..][..n];
      assert l[n + 1..] == l[1..][n..];
    }
  }

  lemma {:induction false} OldSplits(l: seq<Pooled>, cutoff: int)
    ensures Old(l, cutoff) == l[..OldPrefix(l, cutoff)] + Old(l[OldPrefix(l, cutoff)..], cutoff)
  {
    if l != [] && l[0].lastUsed <= cutoff {
      var n := OldPrefix(l[1..], cutoff);
      OldSplits(l[1..], cutoff);
      assert l[..n + 1] == [l[0]] + l[1..][..n];
      assert l[n + 1..] == l[1..][n..];
    } else {
      assert l[0..] == l;
    }
  }

  /** Being ordered is exactly what the prefix scan needs: on any other list some cutoff leaves an old
      container behind. */
  lemma PrefixScanIsFilterIff(l: seq<Pooled>)
    ensures (forall cutoff :: l[..OldPrefix(l, cutoff)] == Old(l, cutoff)) <==> Ascending(l)
  {
    if Ascending(l) {
      forall cutoff ensures l[..OldPrefix(l, cutoff)] == Old(l, cutoff) {
        PrefixScanIsFilter(l, cutoff);
      }
    } else {
      var i, j :| 0 <= i < j < |l| && l[j].lastUsed < l[i].lastUsed;
      var cutoff := l[j].lastUsed;
      var n := OldPrefix(l, cutoff);
      OldSplits(l, cutoff);
      OldIsByAge(l[n..], cutoff, l[j]);
      assert l[j] == l[n..][j - n];
      assert |l[..n]| < |Old(l, cutoff)|;
    }
  }

  /** One key's list after reaping it: shortened, or gone with its key when nothing is left. */
  function ReapKey(idles: Idles, k: WarmKey, cutoff: int): Idles
    requires k in idles
  {
    var keep := idles[k][OldPrefix(idles[k], cutoff)..];
    if keep == [] then idles - {k} else idles[k := keep]
  }

  /** Reaping the keys of `order` one after the other removes `out` and leaves `rest`. */
  ghost predicate Reaps(idles: Idles, cutoff: int, order: seq<WarmKey>, out: seq<Pooled>, rest: Idles)
    decreases |order|
  {
    if order == [] then out == [] && rest == idles
    else
      var k := order[0];
      && k in idles
      && var n := OldPrefix(idles[k], cutoff);
      && n <= |out|
      && out[..n] == idles[k][..n]
      && Reaps(ReapKey(idles, k, cutoff), cutoff, order[1..], out[n..], rest)
  }

  lemma ReapKeyConserves(idles: Idles, k: WarmKey, cutoff: int)
    requires k in idles
    ensures forall w :: Total(w, idles)
                     == Amount(w, idles[k][..OldPrefix(idles[k], cutoff)]) + Total(w, ReapKey(idles, k, cutoff))
    ensures Filed(idles) ==> Filed(ReapKey(idles, k, cutoff))
    ensures Ordered(idles) ==> Ordered(ReapKey(idles, k, cutoff))
  {
    var n := OldPrefix(idles[k], cutoff);
    forall w ensures Total(w, idles) == Amount(w, idles[k][..n]) + Total(w, ReapKey(idles, k, cutoff)) {
      AmountSplit(w, idles[k], n);
      TotalUpdate(w, idles, k, idles[k][n..]);
      TotalRemove(w, idles, k);
    }
  }

  /** Reaping one more key extends a reaping. */
  lemma {:induction false} ReapsAppend(idles: Idles, cutoff: int, order: seq<WarmKey>, out: seq<Pooled>, mid: Idles, k: WarmKey)
    requires Reaps(idles, cutoff, order, out, mid) && k in mid
    ensures Reaps(idles, cutoff, order + [k], out + mid[k][..OldPrefix(mid[k], cutoff)], ReapKey(mid, k, cutoff))
    decreases |order|
  {
    var more := mid[k][..OldPrefix(mid[k], cutoff)];
    if order == [] {
      assert order + [k] == [k] && out + more == more && [k][1..] == [];
      assert more[|more|..] == [] && more[..|more|] == more;
      assert Reaps(ReapKey(mid, k, cutoff), cutoff, [], [], ReapKey(mid, k, cutoff));
    } else {
      var n := OldPrefix(idles[order[0]], cutoff);
      ReapsAppend(ReapKey(idles, order[0], cutoff), cutoff, order[1..], out[n..], mid, k);
      assert (order + [k])[1..] == order[1..] + [k];
      assert (out + more)[n..] == out[n..] + more && (out + more)[..n] == out[..n];
    }
  }

  /** Reaping conserves memory and every single container. */
  lemma {:induction false} ReapsConserves(idles: Idles, cutoff: int, order: seq<WarmKey>, out: seq<Pooled>, rest: Idles)
    requires Reaps(idles, cutoff, order, out, rest)
    ensures forall w :: Total(w, idles) == Amount(w, out) + Total(w, rest)
    ensures Filed(idles) ==> Filed(rest)
    ensures Ordered(idles) ==> Ordered(rest)
    decreases |order|
  {
    if order != [] {
      var k := order[0];
      var n := OldPrefix(idles[k], cutoff);
      ReapKeyConserves(idles, k, cutoff);
      ReapsConserves(ReapKey(idles, k, cutoff), cutoff, order[1..], out[n..], rest);
      forall w ensures Amount(w, out) == Amount(w, out[..n]) + Amount(w, out[n..]) {
        AmountSplit(w, out, n);
      }
    }
  }

  /** What reaping everything should leave: the young containers of every key that has some. */
  function Kept(idles: Idles, cutoff: int): Idles {
    map k | k in idles && Young(idles[k], cutoff) != [] :: Young(idles[k], cutoff)
  }

  ghost predicate Enumerates(order: seq<WarmKey>, keys: set<WarmKey>) {
    && (forall k :: k in order <==> k in keys)
    && (forall i, j :: 0 <= i < j < |order| ==> order[i] != order[j])
  }

  /** Whatever the order of the keys, reaping ordered lists keeps the young containers of each
      visited key, and drops the keys left empty. */
  lemma {:induction false} ReapsKeeps(idles: Idles, cutoff: int, order: seq<WarmKey>, out: seq<Pooled>, rest: Idles)
    requires Ordered(idles) && Reaps(idles, cutoff, order, out, rest)
    requires forall i, j :: 0 <= i < j < |order| ==> order[i] != order[j]
    ensures forall k :: k in rest <==> k in idles && (k in order ==> Young(idles[k], cutoff) != [])
    ensures forall k :: k in rest ==> rest[k] == if k in order then Young(idles[k], cutoff) else idles[k]
    decreases |order|
  {
    hide Ordered, ReapKey, Young, OldPrefix;
    if order != [] {
      var k := order[0];
      var mid := ReapKey(idles, k, cutoff);
      ReapKeyConserves(idles, k, cutoff);
      ReapKeyKeeps(idles, k, cutoff);
      assert k !in order[1..];
      ReapsKeeps(mid, cutoff, order[1..], out[OldPrefix(idles[k], cutoff)..], rest);
      assert forall j :: j in order <==> j == k || j in order[1..];
    }
  }

  lemma ReapKeyKeeps(idles: Idles, k: WarmKey, cutoff: int)
    requires Ordered(idles) && k in idles
    ensures var mid := ReapKey(idles, k, cutoff);
      && (k in mid <==> Young(idles[k], cutoff) != []) && (k in mid ==> mid[k] == Young(idles[k], cutoff))
      && forall j :: j != k ==> (j in mid <==> j in idles) && (j in mid ==> mid[j] == idles[j])
  {
    hide Young, OldPrefix;
    PrefixScanIsFilter(idles[k], cutoff);
  }

  /** Whatever the order of the keys, reaping ordered lists removes the old containers of each
      visited key and nothing else. */
  lemma {:induction false} ReapsRemoves(idles: Idles, cutoff: int, order: seq<WarmKey>, out: seq<Pooled>, rest: Idles, p: Pooled)
    requires Ordered(idles) && Reaps(idles, cutoff, order, out, rest)
    requires forall i, j :: 0 <= i < j < |order| ==> order[i] != order[j]
    ensures p in out <==> exists k :: k in order && k in idles && p in Old(idles[k], cutoff)
    decreases |order|
  {
    if order != [] {
      var k := order[0];
      var n := OldPrefix(idles[k], cutoff);
      var mid := ReapKey(idles, k, cutoff);
      PrefixScanIsFilter(idles[k], cutoff);
      ReapKeyConserves(idles, k, cutoff);
      assert k !in order[1..];
      ReapsRemoves(mid, cutoff, order[1..], out[n..], rest, p);
      assert out == out[..n] + out[n..];
      assert forall j :: j in order <==> j == k || j in order[1..];
      assert forall j :: j in order[1..] ==> (j in mid <==> j in idles) && (j in mid ==> mid[j] == idles[j]);
    }
  }

  /** Reaping refines a filter over all idle containers. */
  lemma ReapIsFilter(idles: Idles, cutoff: int, order: seq<WarmKey>, out: seq<Pooled>, rest: Idles)
    requires Ordered(idles) && Enumerates(order, idles.Keys)
    requires Reaps(idles, cutoff, order, out, rest)
    ensures rest == Kept(idles, cutoff)
    ensures forall p :: p in out <==> IsIdle(idles, p) && p.lastUsed <= cutoff
    ensures forall w :: Total(w, idles) == Amount(w, out) + Total(w, rest)
  {
    hide Ordered, Total, Amount, IsIdle, Reaps;
    ReapsConserves(idles, cutoff, order, out, rest);
    ReapsKeeps(idles, cutoff, order, out, rest);
    forall p ensures p in out <==> IsIdle(idles, p) && p.lastUsed <= cutoff {
      ReapedByAge(idles, cutoff, order, out, rest, p);
    }
  }

  lemma ReapedByAge(idles: Idles, cutoff: int, order: seq<WarmKey>, out: seq<Pooled>, rest: Idles, p: Pooled)
    requires Ordered(idles) && Enumerates(order, idles.Keys)
    requires Reaps(idles, cutoff, order, out, rest)
    ensures p in out <==> IsIdle(idles, p) && p.lastUsed <= cutoff
  {
    hide Ordered, Reaps, Old;
    ReapsRemoves(idles, cutoff, order, out, rest, p);
    forall k | k in idles ensures p in Old(idles[k], cutoff) <==> p in idles[k] && p.lastUsed <= cutoff {
      OldIsByAge(idles[k], cutoff, p);
    }
  }

  lemma {:induction false} OldIsByAge(l: seq<Pooled>, cutoff: int, p: Pooled)
    ensures p in Old(l, cutoff) <==> p in l && p.lastUsed <= cutoff
  {
    if l != [] {
      OldIsByAge(l[1..], cutoff, p);
    }
  }

  lemma {:induction false} YoungIsPart(l: seq<Pooled>, cutoff: int)
    ensures forall p :: p in Young(l, cutoff) <==> p in l && cutoff < p.lastUsed
  {
    if l != [] {
      YoungIsPart(l[1..], cutoff);
    }
  }
}
