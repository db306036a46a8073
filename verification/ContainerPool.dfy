/** The pool with each of its operations as one step: reservation and critical section together, and
    clients that keep to the contract of `Get`. At this level the memory limit is strict. */
module ContainerPool {
  import opened Common
  import opened IdleLists
  import opened Lifecycle
  import opened LifecycleInvariant
  import ListSteps = LifecycleListSteps

  /** What the outside world answers during one `Get`. */
  datatype Env = Env(
    canceled: bool,       // the context ends before the semaphore admits the request
    unpauseOk: bool,
    stateOk: bool,
    firewallOk: bool,
    removeOk: bool,
    createOk: bool
  )

  datatype GetError =
    | NotAcquired
    | UnpauseFailed(stateFetched: bool)
    | BrokenDuringReuse
    | FirewallFailed
    | NoSpace
    | CreateFailed

  /** What the outside world answers while one old container is removed. `broken` is what its state says
      about who broke it, if it can be fetched. */
  datatype Removal = Removal(unpauseOk: bool, broken: Option<bool>, removeOk: bool)

  /** A container that could not be unpaused, or else not removed. */
  datatype ReapError = ReapError(id: nat, unpausing: bool)

  /** The container does not answer, and its function is not to blame. */
  predicate Stuck(answer: Removal) { !answer.unpauseOk && answer.broken != Some(true) }

  function Reported(errors: seq<ReapError>): seq<nat> {
    if errors == [] then [] else Reported(errors[..|errors| - 1]) + [errors[|errors| - 1].id]
  }

  datatype Handed = Handed(container: Pooled, reused: bool)

  /** One sweep over the list heads. */
  method OldestOfHeads(idles: Idles) returns (oldest: Option<Pooled>)
    requires Filed(idles)
    ensures oldest.None? <==> forall k :: k in idles ==> idles[k] == []
    ensures oldest.Some? ==> OldestHead(idles, oldest.value)
  {
    oldest := None;
    var keys := idles.Keys;
    while keys != {}
      invariant keys <= idles.Keys
      invariant oldest.None? ==> forall k :: k in idles && k !in keys ==> idles[k] == []
      invariant oldest.Some? ==> IsHead(idles, oldest.value)
      invariant oldest.Some? ==>
        forall k :: k in idles && k !in keys && idles[k] != [] ==> oldest.value.lastUsed <= idles[k][0].lastUsed
      decreases |keys|
    {
      var k :| k in keys;
      keys := keys - {k};
      if idles[k] != [] && (oldest.None? || idles[k][0].lastUsed < oldest.value.lastUsed) {
        oldest := Some(idles[k][0]);
      }
    }
  }

  // ---------------------------------------------------------------- prewarm configuration

  datatype Stemcell = Stemcell(memory: nat, count: int)

  datatype Runtime = Runtime(kind: string, stemcells: seq<Stemcell>)

  /** Runtimes are listed under their kind, and default ones once more under their family. */
  predicate IsDefault(family: string) {
    |family| >= 8 && family[|family| - 8..] == ":default"
  }

  predicate ByKind(manifests: map<string, Runtime>) {
    forall family :: family in manifests && !IsDefault(family) ==> manifests[family].kind == family
  }

  /** The count that counts when a memory is configured more than once. */
  function LastCount(stemcells: seq<Stemcell>, memory: nat): Option<int> {
    if stemcells == [] then None
    else
      var last := stemcells[|stemcells| - 1];
      if last.memory == memory then Some(last.count) else LastCount(stemcells[..|stemcells| - 1], memory)
  }

  function Wanted(manifests: map<string, Runtime>, pk: PrewarmKey): Option<int> {
    if pk.kind in manifests && !IsDefault(pk.kind) then LastCount(manifests[pk.kind].stemcells, pk.memory) else None
  }

  /** Which runtimes are skipped. */
  lemma DefaultsInFull(family: string)
    ensures IsDefault(family) <==> exists kind: string :: family == kind + ":default"
  {
    if IsDefault(family) {
      assert family == family[..|family| - 8] + ":default";
    }
  }

  /** Of the counts configured for one memory the last one counts, and others are not wanted at all. */
  lemma {:induction false} LastCountIff(stemcells: seq<Stemcell>, memory: nat, count: int)
    ensures LastCount(stemcells, memory) == Some(count) <==>
      exists i :: 0 <= i < |stemcells| && stemcells[i] == Stemcell(memory, count) && IsLast(stemcells, i)
    decreases |stemcells|
  {
    if stemcells != [] {
      var front, last := stemcells[..|stemcells| - 1], stemcells[|stemcells| - 1];
      LastCountIff(front, memory, count);
      if last.memory == memory {
        assert IsLast(stemcells, |stemcells| - 1);
      } else {
        forall i | 0 <= i < |front| && front[i].memory == memory ensures IsLast(front, i) <==> IsLast(stemcells, i) {
          assert forall j :: i < j < |front| ==> front[j] == stemcells[j];
        }
        assert forall i :: 0 <= i < |front| ==> front[i] == stemcells[i];
      }
    }
  }

  /** No later entry has this memory. */
  predicate IsLast(stemcells: seq<Stemcell>, i: nat)
    requires i < |stemcells|
  {
    forall j :: i < j < |stemcells| ==> stemcells[j].memory != stemcells[i].memory
  }

  /** With distinct memories every configured count is the wanted one. */
  lemma {:induction false} DistinctMemoriesAreWanted(stemcells: seq<Stemcell>, i: nat)
    requires i < |stemcells|
    requires forall j :: i < j < |stemcells| ==> stemcells[j].memory != stemcells[i].memory
    ensures LastCount(stemcells, stemcells[i].memory) == Some(stemcells[i].count)
    decreases |stemcells|
  {
    if i < |stemcells| - 1 {
      DistinctMemoriesAreWanted(stemcells[..|stemcells| - 1], i);
    }
  }

  function Length(prewarmed: map<PrewarmKey, seq<nat>>, pk: PrewarmKey): nat { |PrewarmList(prewarmed, pk)| }

  function Max(a: int, b: int): int { if a < b then b else a }

  /** How many containers a wanted count lacks. */
  function Lacking(manifests: map<string, Runtime>, prewarmed: map<PrewarmKey, seq<nat>>, pk: PrewarmKey): nat {
    if Wanted(manifests, pk).Some? then Max(0, Wanted(manifests, pk).value - Length(prewarmed, pk)) else 0
  }

  // ---------------------------------------------------------------- prewarm lists over time

  /** A list to whose end `added` containers were added while `taken` were taken from its front. */
  ghost predicate ListFlows(before: seq<nat>, after: seq<nat>, added: nat, taken: nat) {
    exists news: seq<nat> :: |news| == added && taken <= |before| + added && after == (before + news)[taken..]
  }

  /** Every list is first in, first out; what is added and taken meanwhile, by key. */
  ghost predicate Flows(before: map<PrewarmKey, seq<nat>>, after: map<PrewarmKey, seq<nat>>,
                        added: multiset<PrewarmKey>, taken: multiset<PrewarmKey>) {
    forall pk :: ListFlows(PrewarmList(before, pk), PrewarmList(after, pk), added[pk], taken[pk])
  }

  lemma FlowLengths(before: map<PrewarmKey, seq<nat>>, after: map<PrewarmKey, seq<nat>>,
                    added: multiset<PrewarmKey>, taken: multiset<PrewarmKey>)
    requires Flows(before, after, added, taken)
    ensures forall pk :: Length(after, pk) == Length(before, pk) + added[pk] - taken[pk]
  {
    forall pk ensures Length(after, pk) == Length(before, pk) + added[pk] - taken[pk] {
      assert ListFlows(PrewarmList(before, pk), PrewarmList(after, pk), added[pk], taken[pk]);
    }
  }

  lemma NothingFlows(prewarmed: map<PrewarmKey, seq<nat>>)
    ensures Flows(prewarmed, prewarmed, multiset{}, multiset{})
  {
    var none: seq<nat> := [];
    forall pk ensures ListFlows(PrewarmList(prewarmed, pk), PrewarmList(prewarmed, pk), 0, 0) {
      assert PrewarmList(prewarmed, pk) == (PrewarmList(prewarmed, pk) + none)[0..];
    }
  }

  lemma ListFlowsFurther(before: seq<nat>, mid: seq<nat>, added: nat, taken: nat, after: seq<nat>, more: nat, gone: nat)
    requires ListFlows(before, mid, added, taken) && ListFlows(mid, after, more, gone)
    ensures ListFlows(before, after, added + more, taken + gone)
  {
    var a: seq<nat> :| |a| == added && taken <= |before| + added && mid == (before + a)[taken..];
    var b: seq<nat> :| |b| == more && gone <= |mid| + more && after == (mid + b)[gone..];
    assert (before + (a + b))[taken..] == mid + b;
    assert after == (before + (a + b))[taken + gone..];
    assert |a + b| == added + more;
  }

  /** One stretch of adding and taking after another. */
  lemma FlowsFurther(before: map<PrewarmKey, seq<nat>>, mid: map<PrewarmKey, seq<nat>>,
                     added: multiset<PrewarmKey>, taken: multiset<PrewarmKey>,
                     after: map<PrewarmKey, seq<nat>>, more: multiset<PrewarmKey>, gone: multiset<PrewarmKey>)
    requires Flows(before, mid, added, taken) && Flows(mid, after, more, gone)
    ensures Flows(before, after, added + more, taken + gone)
  {
    hide ListFlows;
    forall pk ensures ListFlows(PrewarmList(before, pk), PrewarmList(after, pk), (added + more)[pk], (taken + gone)[pk]) {
      ListFlowsFurther(PrewarmList(before, pk), PrewarmList(mid, pk), added[pk], taken[pk], PrewarmList(after, pk), more[pk], gone[pk]);
    }
  }

  lemma OneMoreTaken(before: map<PrewarmKey, seq<nat>>, mid: map<PrewarmKey, seq<nat>>,
                     added: multiset<PrewarmKey>, taken: multiset<PrewarmKey>, pk: PrewarmKey)
    requires Flows(before, mid, added, taken) && PrewarmList(mid, pk) != []
    ensures Flows(before, mid[pk := mid[pk][1..]], added, taken + multiset{pk})
  {
    hide ListFlows;
    forall other
      ensures ListFlows(PrewarmList(before, other), PrewarmList(mid[pk := mid[pk][1..]], other), added[other], (taken + multiset{pk})[other])
    {
      assert ListFlows(PrewarmList(before, other), PrewarmList(mid, other), added[other], taken[other]);
      if other == pk { OneOffTheFront(PrewarmList(before, pk), mid[pk], added[pk], taken[pk]); }
    }
  }

  lemma OneOffTheFront(before: seq<nat>, mid: seq<nat>, added: nat, taken: nat)
    requires ListFlows(before, mid, added, taken) && mid != []
    ensures ListFlows(before, mid[1..], added, taken + 1)
  {
    var a: seq<nat> :| |a| == added && taken <= |before| + added && mid == (before + a)[taken..];
    assert mid[1..] == (before + a)[taken + 1..];
  }

  lemma OneMoreAdded(before: map<PrewarmKey, seq<nat>>, mid: map<PrewarmKey, seq<nat>>,
                     added: multiset<PrewarmKey>, taken: multiset<PrewarmKey>, pk: PrewarmKey, id: nat)
    requires Flows(before, mid, added, taken)
    ensures Flows(before, mid[pk := PrewarmList(mid, pk) + [id]], added + multiset{pk}, taken)
  {
    hide ListFlows;
    forall other
      ensures ListFlows(PrewarmList(before, other), PrewarmList(mid[pk := PrewarmList(mid, pk) + [id]], other),
                        (added + multiset{pk})[other], taken[other])
    {
      assert ListFlows(PrewarmList(before, other), PrewarmList(mid, other), added[other], taken[other]);
      if other == pk { OneAtTheEnd(PrewarmList(before, pk), PrewarmList(mid, pk), added[pk], taken[pk], id); }
    }
  }

  lemma OneAtTheEnd(before: seq<nat>, mid: seq<nat>, added: nat, taken: nat, id: nat)
    requires ListFlows(before, mid, added, taken)
    ensures ListFlows(before, mid + [id], added + 1, taken)
  {
    var a: seq<nat> :| |a| == added && taken <= |before| + added && mid == (before + a)[taken..];
    assert mid + [id] == (before + (a + [id]))[taken..];
    assert |a + [id]| == added + 1;
  }

  // ---------------------------------------------------------------- who has which container

  datatype Books = Books(
    idles: Idles,
    prewarmed: map<PrewarmKey, seq<nat>>,
    handedOut: map<nat, nat>,
    created: nat,
    clock: int
  )

  /** In how many places a container is. */
  ghost function Owners(b: Books, id: nat): nat {
    Total(Copies(id), b.idles) + Prewarms(b.prewarmed, id) + (if id in b.handedOut then 1 else 0)
  }

  /** Nobody shares a container. */
  ghost predicate Census(b: Books) {
    forall id: nat :: Owners(b, id) <= if id < b.created then 1 else 0
  }

  /** The lists are sorted by last use and hold what was initialised for their key. */
  ghost predicate Listed(memoryOf: WarmKey -> nat, idles: Idles, clock: int) {
    && Filed(idles) && Ordered(idles)
    && forall k, i :: k in idles && 0 <= i < |idles[k]| ==>
         idles[k][i].memory == memoryOf(k) && idles[k][i].lastUsed <= clock
  }

  ghost predicate Good(memoryOf: WarmKey -> nat, b: Books) {
    Listed(memoryOf, b.idles, b.clock) && Census(b)
  }

  lemma GoodIsFiled(memoryOf: WarmKey -> nat, b: Books)
    requires Good(memoryOf, b)
    ensures Filed(b.idles) && Ordered(b.idles)
  {
  }

  /** Taking containers away, all but one of which are accounted for elsewhere. */
  lemma CensusAfterTaking(b: Books, after: Books, id: nat)
    requires Census(b) && after.created >= b.created
    requires forall other: nat :: Owners(after, other) <= Owners(b, other)
    requires Owners(after, id) < Owners(b, id)
    ensures Census(after) && Owners(after, id) == 0 && id < b.created
  {
    hide Owners;
    assert Owners(b, id) <= 1;
  }

  lemma CensusAfterAdding(b: Books, after: Books, id: nat)
    requires Census(b) && after.created == b.created && Owners(b, id) == 0 && id < b.created
    requires forall other: nat :: Owners(after, other) == Owners(b, other) + if other == id then 1 else 0
    ensures Census(after)
  {
    hide Owners;
  }

  lemma WarmTaken(memoryOf: WarmKey -> nat, b: Books, key: WarmKey)
    requires Good(memoryOf, b) && ListOf(b.idles, key) != []
    ensures var l := b.idles[key];
            var p, rest := l[|l| - 1], b.idles[key := l[..|l| - 1]];
      && p.key == key && p.memory == memoryOf(key) && p.id < b.created
      && Total(Bytes, b.idles) == Total(Bytes, rest) + p.memory
      && Good(memoryOf, b.(idles := rest)) && Owners(b.(idles := rest), p.id) == 0
  {
    hide Census, Prewarms, Total;
    var l := b.idles[key];
    var p, rest := l[|l| - 1], b.idles[key := l[..|l| - 1]];
    ListSteps.TakeLast(Bytes, b.idles, key);
    forall id: nat ensures Owners(b, id) == Owners(b.(idles := rest), id) + if id == p.id then 1 else 0 {
      ListSteps.TakeLast(Copies(id), b.idles, key);
    }
    CensusAfterTaking(b, b.(idles := rest), p.id);
  }

  lemma PrewarmedTaken(memoryOf: WarmKey -> nat, b: Books, pk: PrewarmKey)
    requires Good(memoryOf, b) && PrewarmList(b.prewarmed, pk) != []
    ensures var l := b.prewarmed[pk];
            var rest := b.prewarmed[pk := l[1..]];
      && l[0] < b.created && Good(memoryOf, b.(prewarmed := rest)) && Owners(b.(prewarmed := rest), l[0]) == 0
  {
    hide Census, Listed, Total, Prewarms;
    var l := b.prewarmed[pk];
    var rest := b.prewarmed[pk := l[1..]];
    PrewarmMoves(b.prewarmed, pk, l[1..]);
    ListSteps.PopFront(l);
    forall id: nat ensures Owners(b, id) == Owners(b.(prewarmed := rest), id) + if id == l[0] then 1 else 0 {
      assert Prewarms(rest, id) == Prewarms(b.prewarmed, id) - multiset(l)[id] + multiset(l[1..])[id];
    }
    CensusAfterTaking(b, b.(prewarmed := rest), l[0]);
  }

  lemma HandingOut(memoryOf: WarmKey -> nat, b: Books, id: nat, memory: nat)
    requires Good(memoryOf, b) && Owners(b, id) == 0 && id < b.created
    ensures id !in b.handedOut && Good(memoryOf, b.(handedOut := b.handedOut[id := memory]))
    ensures Sum(b.handedOut[id := memory]) == Sum(b.handedOut) + memory
  {
    hide Census, Listed, Total, Prewarms, Sum;
    SumUpdate(b.handedOut, id, memory);
    CensusAfterAdding(b, b.(handedOut := b.handedOut[id := memory]), id);
  }

  lemma RoomIsMade(memoryOf: WarmKey -> nat, b: Books, inFlight: nat, max: nat, out: seq<Pooled>, rest: Idles)
    requires Good(memoryOf, b) && MakesRoom(b.idles, inFlight, max, out, rest)
    ensures Good(memoryOf, b.(idles := rest)) && Total(Bytes, rest) + inFlight <= max
  {
    hide Good, Total, Evicts;
    Evicting(memoryOf, b, out, rest);
  }

  lemma Evicting(memoryOf: WarmKey -> nat, b: Books, out: seq<Pooled>, rest: Idles)
    requires Good(memoryOf, b) && Evicts(b.idles, out, rest)
    ensures Good(memoryOf, b.(idles := rest))
  {
    EvictedLists(memoryOf, b, out, rest);
    EvictedCensus(b, out, rest);
  }

  lemma EvictedLists(memoryOf: WarmKey -> nat, b: Books, out: seq<Pooled>, rest: Idles)
    requires Listed(memoryOf, b.idles, b.clock) && Evicts(b.idles, out, rest)
    ensures Listed(memoryOf, rest, b.clock)
  {
    hide Evicts, Filed, Ordered;
    EvictsKeepsShape(b.idles, out, rest);
    EvictsShortens(b.idles, out, rest);
    forall k, i | k in rest && 0 <= i < |rest[k]| ensures rest[k][i].memory == memoryOf(k) && rest[k][i].lastUsed <= b.clock {
      assert SuffixOf(rest[k], b.idles[k]);
      assert rest[k][i] == b.idles[k][|b.idles[k]| - |rest[k]| + i];
    }
  }

  lemma EvictedCensus(b: Books, out: seq<Pooled>, rest: Idles)
    requires Census(b) && Evicts(b.idles, out, rest)
    ensures Census(b.(idles := rest))
  {
    hide Total, Prewarms, Evicts;
    EvictsConserves(b.idles, out, rest);
    forall id: nat ensures Owners(b.(idles := rest), id) <= Owners(b, id) {
      assert Total(Copies(id), b.idles) == Amount(Copies(id), out) + Total(Copies(id), rest);
    }
    hide Owners;
  }

  lemma CreatingOne(memoryOf: WarmKey -> nat, b: Books)
    requires Good(memoryOf, b)
    ensures Good(memoryOf, b.(created := b.created + 1)) && Owners(b.(created := b.created + 1), b.created) == 0
  {
    hide Total, Prewarms, Listed;
    var after := b.(created := b.created + 1);
    forall id: nat ensures Owners(after, id) == Owners(b, id) <= if id < b.created then 1 else 0 {}
    assert Owners(after, b.created) == 0;
  }

  lemma Returning(memoryOf: WarmKey -> nat, b: Books, id: nat)
    requires Good(memoryOf, b) && id in b.handedOut
    ensures Good(memoryOf, b.(handedOut := b.handedOut - {id})) && Owners(b.(handedOut := b.handedOut - {id}), id) == 0
    ensures id < b.created && Sum(b.handedOut) == Sum(b.handedOut - {id}) + b.handedOut[id]
  {
    hide Total, Prewarms, Listed, Census, Sum;
    SumRemove(b.handedOut, id);
    CensusAfterTaking(b, b.(handedOut := b.handedOut - {id}), id);
  }

  lemma PuttingBack(memoryOf: WarmKey -> nat, b: Books, p: Pooled)
    requires Good(memoryOf, b) && Owners(b, p.id) == 0 && p.id < b.created
    requires p.memory == memoryOf(p.key) && b.clock <= p.lastUsed
    ensures var rest := b.idles[p.key := ListOf(b.idles, p.key) + [p]];
      Good(memoryOf, b.(idles := rest, clock := p.lastUsed)) && Total(Bytes, rest) == Total(Bytes, b.idles) + p.memory
  {
    hide Total, Prewarms, Census;
    var l := ListOf(b.idles, p.key) + [p];
    var rest := b.idles[p.key := l];
    ListSteps.AddLast(Bytes, b.idles, p.key, p);
    forall id: nat ensures Owners(b.(idles := rest, clock := p.lastUsed), id) == Owners(b, id) + if id == p.id then 1 else 0 {
      ListSteps.AddLast(Copies(id), b.idles, p.key, p);
    }
    CensusAfterAdding(b, b.(idles := rest, clock := p.lastUsed), p.id);
    assert forall i :: 0 <= i < |l| ==> l[i] == p || l[i] == b.idles[p.key][i];
  }

  lemma Prewarming(memoryOf: WarmKey -> nat, b: Books, pk: PrewarmKey, id: nat)
    requires Good(memoryOf, b) && Owners(b, id) == 0 && id < b.created
    ensures Good(memoryOf, b.(prewarmed := b.prewarmed[pk := PrewarmList(b.prewarmed, pk) + [id]]))
  {
    hide Census, Listed, Total, Prewarms;
    var l: seq<nat> := PrewarmList(b.prewarmed, pk);
    var more: seq<nat> := l + [id];
    PrewarmMoves(b.prewarmed, pk, more);
    var after := b.(prewarmed := b.prewarmed[pk := more]);
    forall other: nat ensures Owners(after, other) == Owners(b, other) + if other == id then 1 else 0 {
      assert Prewarms(after.prewarmed, other) == Prewarms(b.prewarmed, other) - multiset(l)[other] + multiset(more)[other];
    }
    CensusAfterAdding(b, after, id);
  }

  class ContainerPool {
    const maxMemory: nat
    const memoryOf: WarmKey -> nat

    var held: nat                                // weight held of the semaphore
    var inFlightMemory: nat
    var idlesLocked: bool
    var idlesMemory: nat
    var idles: Idles
    var prewarmed: map<PrewarmKey, seq<nat>>
    var prewarmPoke: bool
    var containersToDeleteForSpace: seq<Pooled>  // everything sent so far
    var containersCreated: nat
    var clock: int                               // the last stamp

    /** Containers handed out and not returned yet, with their memory. */
    ghost var handedOut: map<nat, nat>

    ghost function Account(): Books
      reads this
    {
      Books(idles, prewarmed, handedOut, containersCreated, clock)
    }

    /** The pool while a request for `reserved` bytes has no container yet. */
    ghost predicate ValidWith(reserved: nat)
      reads this
    {
      && !idlesLocked
      && held == inFlightMemory == Sum(handedOut) + reserved <= maxMemory
      && idlesMemory == Total(Bytes, idles)
      && idlesMemory + inFlightMemory <= maxMemory + reserved
      && Good(memoryOf, Account())
    }

    /** Memory is conserved exactly, the limit is never exceeded, nothing has two owners, and every
        list is sorted by last use and holds what was initialised for its key. */
    ghost predicate Valid()
      reads this
    {
      ValidWith(0)
    }

    constructor (maxMemory: nat, memoryOf: WarmKey -> nat)
      ensures Valid() && this.maxMemory == maxMemory && this.memoryOf == memoryOf
      ensures idles == map[] && prewarmed == map[] && handedOut == map[] && prewarmPoke
    {
      this.maxMemory, this.memoryOf := maxMemory, memoryOf;
      held, inFlightMemory, idlesLocked, idlesMemory := 0, 0, false, 0;
      idles, prewarmed, prewarmPoke := map[], map[], true;
      containersToDeleteForSpace, containersCreated, clock, handedOut := [], 0, 0, map[];
    }

    /** Evicts until the space suffices; the last resort leaves the mutex locked. */
    method MakeSpace(inFlight: nat) returns (ok: bool, out: seq<Pooled>)
      requires !idlesLocked && Filed(idles) && idlesMemory == Total(Bytes, idles)
      modifies this`idles, this`idlesMemory, this`idlesLocked
      ensures ok == !idlesLocked == (inFlight <= maxMemory)
      ensures ok ==> MakesRoom(old(idles), inFlight, maxMemory, out, idles)
      ensures idlesMemory == Total(Bytes, idles)
    {
      hide Evicts, OldestHead, DropHead, Filed, Total, Count;
      ok, out := true, [];
      NothingEvicted(idles, inFlight, maxMemory);
      if idlesMemory + inFlight > maxMemory {
        ghost var before := idles;
        while true
          invariant !idlesLocked && Filed(idles) && idlesMemory == Total(Bytes, idles)
          invariant SpaceIsMissing(before, inFlight, maxMemory, out, idles)
          decreases Count(idles)
        {
          var longestUnused := OldestOfHeads(idles);
          if longestUnused.None? {
            TotalOfEmptyLists(Bytes, idles);
            idlesLocked := true;
            return false, out;
          }
          var p := longestUnused.value;
          OneMoreEviction(before, inFlight, maxMemory, out, idles, p);
          out := out + [p];
          idles := idles[p.key := idles[p.key][1..]];
          idlesMemory := idlesMemory - p.memory;
          if idlesMemory + inFlight <= maxMemory {
            return true, out;
          }
        }
      }
    }

    /** A warm container, if there is one: the most recently used. */
    method TakeWarm(key: WarmKey, memory: nat, env: Env) returns (r: Result<Handed, GetError>)
      requires ValidWith(memory) && memory == memoryOf(key) && ListOf(idles, key) != []
      modifies this`idles, this`idlesMemory, this`handedOut
      ensures var l := old(idles[key]); idles == old(idles)[key := l[..|l| - 1]]
      ensures r.Ok? ==> ValidWith(0)
      ensures r.Err? ==> ValidWith(memory) && handedOut == old(handedOut)
      ensures r.Ok? ==> var l := old(idles[key]);
        r.value == Handed(l[|l| - 1], true) && HandedTo(old(handedOut), handedOut, r.value, key, memory)
      ensures r.Ok? <==> env.unpauseOk && env.firewallOk
      ensures !env.unpauseOk ==>
        r == Err(if env.stateOk && env.removeOk then BrokenDuringReuse else UnpauseFailed(env.stateOk))
      ensures env.unpauseOk && !env.firewallOk ==> r == Err(FirewallFailed)
    {
      hide Listed, Census, Owners, Total;
      WarmTaken(memoryOf, Account(), key);
      var containers := idles[key];
      var container := containers[|containers| - 1];
      idles := idles[key := containers[..|containers| - 1]];
      idlesMemory := idlesMemory - container.memory;
      if !env.unpauseOk {
        if !env.stateOk {
          return Err(UnpauseFailed(false));
        }
        if !env.removeOk {
          return Err(UnpauseFailed(true));
        }
        return Err(BrokenDuringReuse);
      }
      if !env.firewallOk {
        return Err(FirewallFailed);
      }
      HandingOut(memoryOf, Account(), container.id, memory);
      handedOut := handedOut[container.id := memory];
      return Ok(Handed(container, true));
    }

    /** The first prewarmed container of the kind and memory. */
    method TakePrewarmed(key: WarmKey, pk: PrewarmKey, env: Env) returns (r: Result<Handed, GetError>)
      requires ValidWith(pk.memory) && pk.memory == memoryOf(key) && PrewarmList(prewarmed, pk) != []
      requires idlesMemory + inFlightMemory <= maxMemory
      modifies this`prewarmed, this`prewarmPoke, this`handedOut
      ensures prewarmed == old(prewarmed)[pk := old(prewarmed[pk])[1..]] && prewarmPoke
      ensures r.Ok? ==> ValidWith(0)
      ensures r.Err? ==> ValidWith(pk.memory) && handedOut == old(handedOut)
      ensures r.Ok? ==> !r.value.reused && r.value.container.id == old(prewarmed[pk])[0]
      ensures r.Ok? ==> HandedTo(old(handedOut), handedOut, r.value, key, pk.memory)
      ensures r == Err(FirewallFailed) || r.Ok?
      ensures r.Ok? <==> env.firewallOk
    {
      hide Listed, Census, Owners, Total;
      PrewarmedTaken(memoryOf, Account(), pk);
      var id := prewarmed[pk][0];
      prewarmed := prewarmed[pk := prewarmed[pk][1..]];
      prewarmPoke := true;
      if !env.firewallOk {
        return Err(FirewallFailed);
      }
      HandingOut(memoryOf, Account(), id, pk.memory);
      handedOut := handedOut[id := pk.memory];
      return Ok(Handed(Pooled(id, key, pk.memory, 0), false));
    }

    method CreateCold(key: WarmKey, memory: nat, env: Env) returns (r: Result<Handed, GetError>)
      requires ValidWith(memory) && memory == memoryOf(key) && idlesMemory + inFlightMemory <= maxMemory
      modifies this`containersCreated, this`handedOut
      ensures containersCreated == old(containersCreated) + 1
      ensures r.Ok? ==> ValidWith(0)
      ensures r.Err? ==> ValidWith(memory) && handedOut == old(handedOut)
      ensures r.Ok? ==> !r.value.reused && r.value.container.id == old(containersCreated)
      ensures r.Ok? ==> HandedTo(old(handedOut), handedOut, r.value, key, memory)
      ensures r.Ok? <==> env.createOk && env.firewallOk
      ensures r.Err? ==> r.error == if env.createOk then FirewallFailed else CreateFailed
    {
      hide Listed, Census, Owners, Total;
      CreatingOne(memoryOf, Account());
      var id := containersCreated;
      containersCreated := containersCreated + 1;
      if !env.createOk {
        return Err(CreateFailed);
      }
      if !env.firewallOk {
        return Err(FirewallFailed);
      }
      HandingOut(memoryOf, Account(), id, memory);
      handedOut := handedOut[id := memory];
      return Ok(Handed(Pooled(id, key, memory, 0), false));
    }

    /** `getContainer`, for a request whose memory is reserved already. */
    method GetContainer(key: WarmKey, kind: string, memory: nat, inFlight: nat, env: Env) returns (r: Result<Handed, GetError>)
      requires ValidWith(memory) && memory == memoryOf(key) && inFlight == inFlightMemory
      modifies this`idles, this`idlesMemory, this`idlesLocked, this`prewarmed, this`prewarmPoke,
               this`containersToDeleteForSpace, this`containersCreated, this`handedOut
      ensures r.Ok? ==> ValidWith(0)
      ensures r.Err? ==> ValidWith(memory) && handedOut == old(handedOut)
      ensures r.Ok? ==> HandedTo(old(handedOut), handedOut, r.value, key, memory)
      ensures r != Err(NotAcquired) && r != Err(NoSpace)
      ensures ListOf(old(idles), key) != [] ==>
        && idles == old(idles)[key := old(idles[key])[..|old(idles[key])| - 1]]
        && prewarmed == old(prewarmed) && containersCreated == old(containersCreated)
        && containersToDeleteForSpace == old(containersToDeleteForSpace)
        && (r.Ok? ==> r.value == Handed(old(idles[key])[|old(idles[key])| - 1], true))
      ensures ListOf(old(idles), key) == [] ==>
        && (exists out :: MakesRoom(old(idles), inFlight, maxMemory, out, idles)
              && containersToDeleteForSpace == old(containersToDeleteForSpace) + out)
        && TakenOrCreated(old(prewarmed), prewarmed, old(containersCreated), containersCreated, PrewarmKey(kind, memory), r)
      ensures ListOf(old(idles), key) != [] ==>
        && (r.Ok? <==> env.unpauseOk && env.firewallOk) && prewarmPoke == old(prewarmPoke)
        && (!env.unpauseOk ==> r == Err(if env.stateOk && env.removeOk then BrokenDuringReuse else UnpauseFailed(env.stateOk)))
        && (env.unpauseOk && !env.firewallOk ==> r == Err(FirewallFailed))
      ensures ListOf(old(idles), key) == [] && PrewarmList(old(prewarmed), PrewarmKey(kind, memory)) != [] ==>
        var pk := PrewarmKey(kind, memory);
        var l := old(prewarmed)[pk];
        && prewarmed == old(prewarmed)[pk := l[1..]] && prewarmPoke && containersCreated == old(containersCreated)
        && (if env.firewallOk then r.Ok? && !r.value.reused && r.value.container.id == l[0] else r == Err(FirewallFailed))
      ensures ListOf(old(idles), key) == [] && PrewarmList(old(prewarmed), PrewarmKey(kind, memory)) == [] ==>
        && prewarmed == old(prewarmed) && prewarmPoke == old(prewarmPoke) && containersCreated == old(containersCreated) + 1
        && (if !env.createOk then r == Err(CreateFailed)
            else if !env.firewallOk then r == Err(FirewallFailed)
            else r.Ok? && !r.value.reused && r.value.container.id == old(containersCreated))
    {
      hide Good, Total, Evicts, HandedTo, MakesRoom;
      if ListOf(idles, key) != [] {
        r := TakeWarm(key, memory, env);
        return;
      }
      ghost var before := Account();
      GoodIsFiled(memoryOf, before);
      var ok, containersToDelete := MakeSpace(inFlight);
      if !ok {
        return Err(NoSpace);
      }
      RoomIsMade(memoryOf, before, inFlight, maxMemory, containersToDelete, idles);
      for i := 0 to |containersToDelete|
        invariant containersToDeleteForSpace == old(containersToDeleteForSpace) + containersToDelete[..i]
        modifies this`containersToDeleteForSpace
      {
        containersToDeleteForSpace := containersToDeleteForSpace + [containersToDelete[i]];
        assert containersToDelete[..i + 1] == containersToDelete[..i] + [containersToDelete[i]];
      }
      assert containersToDelete[..|containersToDelete|] == containersToDelete;
      var prewarmData := PrewarmKey(kind, memory);
      if PrewarmList(prewarmed, prewarmData) != [] {
        r := TakePrewarmed(key, prewarmData, env);
      } else {
        r := CreateCold(key, memory, env);
      }
    }

    /** `Get`, at the moment the wait for the semaphore ends: either the request fits and is admitted,
        or its context ended. */
    method Get(key: WarmKey, kind: string, memory: nat, env: Env) returns (r: Result<Handed, GetError>)
      requires Valid() && memory == memoryOf(key)
      modifies this
      ensures Valid() && clock == old(clock)
      ensures r == Err(NotAcquired) <==> env.canceled || old(held) + memory > maxMemory
      ensures r == Err(NotAcquired) ==> unchanged(this)
      ensures r != Err(NoSpace)
      ensures r.Ok? ==> inFlightMemory == old(inFlightMemory) + memory && HandedTo(old(handedOut), handedOut, r.value, key, memory)
      ensures r.Err? ==> inFlightMemory == old(inFlightMemory) && handedOut == old(handedOut)
      ensures r != Err(NotAcquired) && ListOf(old(idles), key) != [] ==>
        && idles == old(idles)[key := old(idles[key])[..|old(idles[key])| - 1]]
        && prewarmed == old(prewarmed) && containersCreated == old(containersCreated)
        && containersToDeleteForSpace == old(containersToDeleteForSpace)
        && (r.Ok? ==> r.value == Handed(old(idles[key])[|old(idles[key])| - 1], true))
      ensures r != Err(NotAcquired) && ListOf(old(idles), key) == [] ==>
        && (exists out :: MakesRoom(old(idles), old(inFlightMemory) + memory, maxMemory, out, idles)
              && containersToDeleteForSpace == old(containersToDeleteForSpace) + out)
        && TakenOrCreated(old(prewarmed), prewarmed, old(containersCreated), containersCreated, PrewarmKey(kind, memory), r)
      ensures r != Err(NotAcquired) && ListOf(old(idles), key) != [] ==>
        && (r.Ok? <==> env.unpauseOk && env.firewallOk) && prewarmPoke == old(prewarmPoke)
        && (!env.unpauseOk ==> r == Err(if env.stateOk && env.removeOk then BrokenDuringReuse else UnpauseFailed(env.stateOk)))
        && (env.unpauseOk && !env.firewallOk ==> r == Err(FirewallFailed))
      ensures r != Err(NotAcquired) && ListOf(old(idles), key) == [] && PrewarmList(old(prewarmed), PrewarmKey(kind, memory)) != [] ==>
        var pk := PrewarmKey(kind, memory);
        var l := old(prewarmed)[pk];
        && prewarmed == old(prewarmed)[pk := l[1..]] && prewarmPoke && containersCreated == old(containersCreated)
        && (if env.firewallOk then r.Ok? && !r.value.reused && r.value.container.id == l[0] else r == Err(FirewallFailed))
      ensures r != Err(NotAcquired) && ListOf(old(idles), key) == [] && PrewarmList(old(prewarmed), PrewarmKey(kind, memory)) == [] ==>
        && prewarmed == old(prewarmed) && prewarmPoke == old(prewarmPoke) && containersCreated == old(containersCreated) + 1
        && (if !env.createOk then r == Err(CreateFailed)
            else if !env.firewallOk then r == Err(FirewallFailed)
            else r.Ok? && !r.value.reused && r.value.container.id == old(containersCreated))
    {
      hide Good, Total, MakesRoom;
      if env.canceled || held + memory > maxMemory {
        return Err(NotAcquired);
      }
      held := held + memory;
      inFlightMemory := inFlightMemory + memory;
      r := GetContainer(key, kind, memory, inFlightMemory, env);
      if r.Err? {
        inFlightMemory := inFlightMemory - memory;
        held := held - memory;
      }
    }

    /** `Put`, by the owner of a container, at time `now`. */
    method Put(container: Pooled, now: int)
      requires Valid() && container.id in handedOut && container.memory == memoryOf(container.key)
      requires handedOut[container.id] == container.memory && clock <= now
      modifies this
      ensures Valid() && clock == now
      ensures handedOut == old(handedOut) - {container.id}
      ensures idles == old(idles)[container.key := ListOf(old(idles), container.key) + [container.(lastUsed := now)]]
      ensures idlesMemory == old(idlesMemory) + container.memory && inFlightMemory == old(inFlightMemory) - container.memory
      ensures prewarmed == old(prewarmed) && containersCreated == old(containersCreated)
      ensures containersToDeleteForSpace == old(containersToDeleteForSpace)
    {
      hide Listed, Census, Owners, Total;
      Returning(memoryOf, Account(), container.id);
      handedOut := handedOut - {container.id};
      var stamped := container.(lastUsed := now);
      PuttingBack(memoryOf, Account(), stamped);
      clock := now;
      idlesMemory := idlesMemory + container.memory;
      idles := idles[container.key := ListOf(idles, container.key) + [stamped]];
      inFlightMemory := inFlightMemory - container.memory;
      held := held - container.memory;
    }

    /** `PutToDestroy`, by the owner of a container: its memory is released even if it cannot be removed. */
    method PutToDestroy(container: Pooled, removeOk: bool) returns (ok: bool)
      requires Valid() && container.id in handedOut && handedOut[container.id] == container.memory
      modifies this`handedOut, this`inFlightMemory, this`held
      ensures Valid() && ok == removeOk
      ensures handedOut == old(handedOut) - {container.id} && inFlightMemory == old(inFlightMemory) - container.memory
    {
      hide Listed, Census, Owners, Total;
      Returning(memoryOf, Account(), container.id);
      handedOut := handedOut - {container.id};
      inFlightMemory := inFlightMemory - container.memory;
      held := held - container.memory;
      ok := removeOk;
    }

    /** Which creations are necessary now; negative numbers are kept and mean nothing. */
    method PlanPrewarm(manifests: map<string, Runtime>) returns (necessaryCreations: map<PrewarmKey, int>)
      requires ByKind(manifests)
      ensures forall pk :: pk in necessaryCreations <==> Wanted(manifests, pk).Some?
      ensures forall pk :: pk in necessaryCreations ==>
        necessaryCreations[pk] == Wanted(manifests, pk).value - Length(prewarmed, pk)
    {
      necessaryCreations := map[];
      var families := manifests.Keys;
      while families != {}
        invariant families <= manifests.Keys
        invariant forall pk :: pk in necessaryCreations <==> pk.kind !in families && Wanted(manifests, pk).Some?
        invariant forall pk :: pk in necessaryCreations ==>
          necessaryCreations[pk] == Wanted(manifests, pk).value - Length(prewarmed, pk)
        decreases |families|
      {
        var family :| family in families;
        families := families - {family};
        if IsDefault(family) {
          continue;
        }
        var runtime := manifests[family];
        ghost var before := necessaryCreations;
        for i := 0 to |runtime.stemcells|
          invariant forall pk :: pk in necessaryCreations <==>
            if pk.kind == family then LastCount(runtime.stemcells[..i], pk.memory).Some? else pk in before
          invariant forall pk :: pk in necessaryCreations && pk.kind != family ==> necessaryCreations[pk] == before[pk]
          invariant forall pk :: pk in necessaryCreations && pk.kind == family ==>
            necessaryCreations[pk] == LastCount(runtime.stemcells[..i], pk.memory).value - Length(prewarmed, pk)
        {
          var stemcell := runtime.stemcells[i];
          assert runtime.stemcells[..i + 1][..i] == runtime.stemcells[..i];
          var prewarmData := PrewarmKey(runtime.kind, stemcell.memory);
          necessaryCreations := necessaryCreations[prewarmData := stemcell.count - Length(prewarmed, prewarmData)];
        }
        assert runtime.stemcells[..|runtime.stemcells|] == runtime.stemcells;
      }
    }

    /** Invocations that take prewarm containers while others are being created. */
    method OthersTake(requests: seq<PrewarmKey>) returns (taken: multiset<PrewarmKey>)
      requires Valid()
      modifies this`prewarmed, this`prewarmPoke
      ensures Valid()
      ensures Flows(old(prewarmed), prewarmed, multiset{}, taken)
      ensures prewarmPoke == (old(prewarmPoke) || taken != multiset{})
    {
      hide Good, Total, Sum, Flows, ListFlows;
      taken := multiset{};
      NothingFlows(prewarmed);
      for i := 0 to |requests|
        invariant Valid() && Flows(old(prewarmed), prewarmed, multiset{}, taken)
        invariant prewarmPoke == (old(prewarmPoke) || taken != multiset{})
      {
        var pk := requests[i];
        if PrewarmList(prewarmed, pk) != [] {
          PrewarmedTaken(memoryOf, Account(), pk);
          OneMoreTaken(old(prewarmed), prewarmed, multiset{}, taken, pk);
          prewarmed := prewarmed[pk := prewarmed[pk][1..]];
          prewarmPoke := true;
          taken := taken + multiset{pk};
        }
      }
    }

    /** Creates prewarm containers for one key, up to the first failure. `createOk` answers for each
        container by its number, and `requests` are what is asked for before it is listed. */
    method CreatePrewarm(pk: PrewarmKey, toCreate: int, createOk: nat -> bool, requests: nat -> seq<PrewarmKey>)
      returns (ok: bool, created: multiset<PrewarmKey>, taken: multiset<PrewarmKey>)
      requires Valid()
      modifies this`prewarmed, this`prewarmPoke, this`containersCreated
      ensures Valid() && Flows(old(prewarmed), prewarmed, created, taken)
      ensures forall other :: other != pk ==> created[other] == 0
      ensures if ok then created[pk] == Max(0, toCreate) else created[pk] < toCreate
      ensures prewarmPoke == (old(prewarmPoke) || taken != multiset{})
    {
      hide Good, Total, Sum, Owners, Flows, ListFlows;
      created, taken := multiset{}, multiset{};
      NothingFlows(prewarmed);
      for i := 0 to Max(0, toCreate)
        invariant Valid() && Flows(old(prewarmed), prewarmed, created, taken)
        invariant created[pk] == i && forall other :: other != pk ==> created[other] == 0
        invariant prewarmPoke == (old(prewarmPoke) || taken != multiset{})
      {
        var id := containersCreated;
        ghost var mid := prewarmed;
        var more := OthersTake(requests(id));
        FlowsFurther(old(prewarmed), mid, created, taken, prewarmed, multiset{}, more);
        assert created + multiset{} == created;
        taken := taken + more;
        CreatingOne(memoryOf, Account());
        containersCreated := containersCreated + 1;
        if !createOk(id) {
          return false, created, taken;
        }
        Prewarming(memoryOf, Account(), pk, id);
        OneMoreAdded(old(prewarmed), prewarmed, created, taken, pk, id);
        prewarmed := prewarmed[pk := PrewarmList(prewarmed, pk) + [id]];
        created := created + multiset{pk};
      }
      ok := true;
    }

    /** `reconcilePrewarm`, with invocations taking prewarm containers meanwhile: unless a creation
        fails, exactly what was missing when the plan was made is added at the end of every list, and
        then every wanted count is reached or another reconciliation is due. */
    method ReconcilePrewarm(manifests: map<string, Runtime>, createOk: nat -> bool, requests: nat -> seq<PrewarmKey>)
      returns (ok: bool, created: multiset<PrewarmKey>, taken: multiset<PrewarmKey>)
      requires Valid() && ByKind(manifests)
      modifies this`prewarmed, this`prewarmPoke, this`containersCreated
      ensures Valid() && Flows(old(prewarmed), prewarmed, created, taken)
      ensures forall pk :: created[pk] <= Lacking(manifests, old(prewarmed), pk)
      ensures ok ==> forall pk :: created[pk] == Lacking(manifests, old(prewarmed), pk)
      ensures prewarmPoke == (old(prewarmPoke) || taken != multiset{})
      ensures ok ==> prewarmPoke || forall pk :: Wanted(manifests, pk).Some? ==>
        Length(prewarmed, pk) == Max(Length(old(prewarmed), pk), Wanted(manifests, pk).value)
    {
      hide Wanted, ValidWith, Flows, ListFlows;
      var necessaryCreations := PlanPrewarm(manifests);
      var keys := necessaryCreations.Keys;
      ok, created, taken := true, multiset{}, multiset{};
      NothingFlows(prewarmed);
      while keys != {}
        invariant ok && Valid() && keys <= necessaryCreations.Keys
        invariant Flows(old(prewarmed), prewarmed, created, taken)
        invariant forall pk :: created[pk] == if pk in necessaryCreations && pk !in keys then Max(0, necessaryCreations[pk]) else 0
        invariant prewarmPoke == (old(prewarmPoke) || taken != multiset{})
        decreases |keys|
      {
        var pk :| pk in keys;
        keys := keys - {pk};
        ghost var mid := prewarmed;
        var some, more;
        ok, some, more := CreatePrewarm(pk, necessaryCreations[pk], createOk, requests);
        FlowsFurther(old(prewarmed), mid, created, taken, prewarmed, some, more);
        created, taken := created + some, taken + more;
        if !ok {
          return;
        }
      }
      FlowLengths(old(prewarmed), prewarmed, created, taken);
    }

    /** How many containers at the front of one list are old; their memory is taken off the books. */
    method CountOld(containers: seq<Pooled>, olderThan: int) returns (deleteUntil: nat)
      requires Memory(containers) <= idlesMemory
      modifies this`idlesMemory
      ensures deleteUntil == OldPrefix(containers, olderThan)
      ensures idlesMemory == old(idlesMemory) - Memory(containers[..deleteUntil])
    {
      hide OldPrefix;
      deleteUntil := 0;
      while deleteUntil < |containers|
        invariant deleteUntil <= OldPrefix(containers, olderThan) <= |containers|
        invariant idlesMemory == old(idlesMemory) - Memory(containers[..deleteUntil])
      {
        var container := containers[deleteUntil];
        PrefixMemory(containers, deleteUntil, olderThan);
        if container.lastUsed > olderThan {
          return;
        }
        AmountSplit(Bytes, containers, deleteUntil + 1);
        idlesMemory := idlesMemory - container.memory;
        deleteUntil := deleteUntil + 1;
      }
    }

    /** The critical section of `reap`: collects and takes out what was last used no later than the cutoff. */
    method CollectOld(olderThan: int) returns (toDelete: seq<Pooled>)
      requires Valid()
      modifies this`idles, this`idlesMemory
      ensures Valid()
      ensures idles == Kept(old(idles), olderThan)
      ensures forall p :: p in toDelete <==> IsIdle(old(idles), p) && p.lastUsed <= olderThan
      ensures idlesMemory == old(idlesMemory) - Memory(toDelete)
      ensures exists order :: Enumerates(order, old(idles).Keys) && Reaps(old(idles), olderThan, order, toDelete, idles)
    {
      hide Good, Reaps, Total, OldPrefix, Amount, ReapedSoFar, Enumerates, Kept, IsIdle;
      ghost var before := Account();
      ghost var order: seq<WarmKey> := [];
      toDelete := [];
      var keys := idles.Keys;
      ReapsNothing(idles, olderThan);
      while keys != {}
        invariant ReapedSoFar(before.idles, olderThan, order, toDelete, idles, keys)
        invariant idlesMemory == Total(Bytes, idles)
        decreases |keys|
      {
        var data :| data in keys;
        ReapsOneKey(before.idles, olderThan, order, toDelete, idles, keys, data);
        keys := keys - {data};
        var containers := idles[data];
        var deleteUntil := CountOld(containers, olderThan);
        toDelete := toDelete + containers[..deleteUntil];
        var toKeep := containers[deleteUntil..];
        if |toKeep| > 0 {
          idles := idles[data := toKeep];
        } else {
          idles := idles - {data};
        }
        order := order + [data];
      }
      ReapsAll(before.idles, olderThan, order, toDelete, idles);
      Reaped(memoryOf, before, olderThan, order, toDelete, idles);
    }

    /** `reap`: takes out what is old, then tries to remove each such container exactly once, whatever
        went wrong before, and reports those that could not be unpaused or removed. */
    method Reap(olderThan: int, answers: nat -> Removal) returns (removals: seq<nat>, errs: seq<ReapError>)
      requires Valid()
      modifies this`idles, this`idlesMemory
      ensures Valid()
      ensures idles == Kept(old(idles), olderThan)
      ensures forall id :: id in removals <==> exists p :: IsIdle(old(idles), p) && p.lastUsed <= olderThan && p.id == id
      ensures forall i, j :: 0 <= i < j < |removals| ==> removals[i] != removals[j]
      ensures Reported(errs) == Filter((id: nat) => Stuck(answers(id)) || !answers(id).removeOk, removals)
      ensures forall e :: e in errs ==> (e.unpausing <==> Stuck(answers(e.id)))
      ensures forall e :: e in errs ==> (e.unpausing <==> !answers(e.id).unpauseOk && answers(e.id).broken != Some(true))
      ensures forall id :: id in Reported(errs) <==>
        id in removals && ((!answers(id).unpauseOk && answers(id).broken != Some(true)) || !answers(id).removeOk)
    {
      hide Good, Kept, IsIdle, Total, Reaps, Enumerates, Stuck;
      ghost var before := Account();
      var toDelete := CollectOld(olderThan);
      GoodIsCensus(memoryOf, before);
      NobodyTwice(before, olderThan, toDelete, idles);
      removals, errs := RemoveOld(toDelete, answers);
      RemovalsAreReaped(old(idles), olderThan, toDelete, removals);
      StuckInFull(answers);
      FilterMember((id: nat) => Stuck(answers(id)) || !answers(id).removeOk, removals);
    }
  }

  /** Whoever broke a container by its own doing is not reported as unable to be unpaused. */
  lemma StuckInFull(answers: nat -> Removal)
    ensures forall id :: Stuck(answers(id)) <==> !answers(id).unpauseOk && answers(id).broken != Some(true)
  {
  }

  lemma GoodIsCensus(memoryOf: WarmKey -> nat, b: Books)
    requires Good(memoryOf, b)
    ensures Census(b)
  {
  }

  /** The removals of `reap`, outside of the lock. */
  method RemoveOld(toDelete: seq<Pooled>, answers: nat -> Removal) returns (removals: seq<nat>, errs: seq<ReapError>)
    ensures |removals| == |toDelete| && forall i :: 0 <= i < |toDelete| ==> removals[i] == toDelete[i].id
    ensures Reported(errs) == Filter((id: nat) => Stuck(answers(id)) || !answers(id).removeOk, removals)
    ensures forall e :: e in errs ==> (e.unpausing <==> Stuck(answers(e.id)))
  {
    hide Stuck;
    ghost var reports := (id: nat) => Stuck(answers(id)) || !answers(id).removeOk;
    removals, errs := [], [];
    for i := 0 to |toDelete|
      invariant |removals| == i && forall j :: 0 <= j < i ==> removals[j] == toDelete[j].id
      invariant Reported(errs) == Filter(reports, removals)
      invariant forall e :: e in errs ==> (e.unpausing <==> Stuck(answers(e.id)))
    {
      var id := toDelete[i].id;
      var answer := answers(id);
      FilterAppend(reports, removals, [id]);
      assert Filter(reports, [id]) == if reports(id) then [id] else [];
      removals := removals + [id];
      if Stuck(answer) {
        ReportedOneMore(errs, ReapError(id, true));
        errs := errs + [ReapError(id, true)];
        continue;
      }
      if !answer.removeOk {
        ReportedOneMore(errs, ReapError(id, false));
        errs := errs + [ReapError(id, false)];
      }
    }
  }

  lemma ReportedOneMore(errors: seq<ReapError>, e: ReapError)
    ensures Reported(errors + [e]) == Reported(errors) + [e.id]
  {
    assert (errors + [e])[..|errors|] == errors;
  }

  /** No container is reaped twice: it was in one place only. */
  lemma NobodyTwice(b: Books, cutoff: int, out: seq<Pooled>, rest: Idles)
    requires Census(b) && exists order :: Enumerates(order, b.idles.Keys) && Reaps(b.idles, cutoff, order, out, rest)
    ensures forall i, j :: 0 <= i < j < |out| ==> out[i].id != out[j].id
  {
    hide Total, Prewarms, Reaps, Enumerates;
    var order :| Enumerates(order, b.idles.Keys) && Reaps(b.idles, cutoff, order, out, rest);
    ReapsConserves(b.idles, cutoff, order, out, rest);
    forall i, j | 0 <= i < j < |out| ensures out[i].id != out[j].id {
      var id := out[i].id;
      assert Total(Copies(id), b.idles) == Amount(Copies(id), out) + Total(Copies(id), rest);
      assert Owners(b, id) <= 1;
      AmountAt(Copies(id), out, i);
      AmountAt(Copies(id), out[i + 1..], j - i - 1);
    }
  }

  lemma RemovalsAreReaped(idles: Idles, cutoff: int, out: seq<Pooled>, removals: seq<nat>)
    requires forall p :: p in out <==> IsIdle(idles, p) && p.lastUsed <= cutoff
    requires |removals| == |out| && forall i :: 0 <= i < |out| ==> removals[i] == out[i].id
    ensures forall id :: id in removals <==> exists p :: IsIdle(idles, p) && p.lastUsed <= cutoff && p.id == id
  {
    hide IsIdle;
    forall id | id in removals ensures exists p :: IsIdle(idles, p) && p.lastUsed <= cutoff && p.id == id {
      var i :| 0 <= i < |removals| && removals[i] == id;
      assert out[i] in out;
    }
    forall p | IsIdle(idles, p) && p.lastUsed <= cutoff ensures p.id in removals {
      var i :| 0 <= i < |out| && out[i] == p;
      assert removals[i] == p.id;
    }
  }

  /** The keys of `order` are reaped, those of `keys` are still to come. */
  ghost predicate ReapedSoFar(before: Idles, cutoff: int, order: seq<WarmKey>, out: seq<Pooled>, idles: Idles, keys: set<WarmKey>) {
    && Reaps(before, cutoff, order, out, idles)
    && keys <= before.Keys && Enumerates(order, before.Keys - keys)
    && forall k :: k in keys ==> k in idles && idles[k] == before[k]
  }

  lemma ReapsNothing(idles: Idles, cutoff: int)
    ensures ReapedSoFar(idles, cutoff, [], [], idles, idles.Keys)
  {
  }

  lemma ReapsAll(before: Idles, cutoff: int, order: seq<WarmKey>, out: seq<Pooled>, idles: Idles)
    requires ReapedSoFar(before, cutoff, order, out, idles, {})
    ensures Enumerates(order, before.Keys) && Reaps(before, cutoff, order, out, idles)
  {
    assert before.Keys - {} == before.Keys;
  }

  lemma EnumeratesOneMore(order: seq<WarmKey>, keys: set<WarmKey>, k: WarmKey)
    requires Enumerates(order, keys) && k !in keys
    ensures Enumerates(order + [k], keys + {k})
  {
    assert forall j :: j in order + [k] <==> j in order || j == k;
  }

  lemma ReapsOneKey(before: Idles, cutoff: int, order: seq<WarmKey>, out: seq<Pooled>, idles: Idles, keys: set<WarmKey>, k: WarmKey)
    requires ReapedSoFar(before, cutoff, order, out, idles, keys) && k in keys
    ensures k in idles && Memory(idles[k]) <= Total(Bytes, idles)
    ensures var n := OldPrefix(idles[k], cutoff);
            var rest := if |idles[k][n..]| > 0 then idles[k := idles[k][n..]] else idles - {k};
      && n <= |idles[k]|
      && ReapedSoFar(before, cutoff, order + [k], out + idles[k][..n], rest, keys - {k})
      && Total(Bytes, idles) == Memory(idles[k][..n]) + Total(Bytes, rest)
  {
    hide Reaps, Total, Enumerates, OldPrefix;
    var n := OldPrefix(idles[k], cutoff);
    ReapsAppend(before, cutoff, order, out, idles, k);
    ReapKeyConserves(idles, k, cutoff);
    TotalUpdate(Bytes, idles, k, []);
    assert Total(Bytes, idles) == Amount(Bytes, idles[k][..n]) + Total(Bytes, ReapKey(idles, k, cutoff));
    EnumeratesOneMore(order, before.Keys - keys, k);
    assert before.Keys - (keys - {k}) == before.Keys - keys + {k};
  }

  lemma PrefixMemory(l: seq<Pooled>, n: nat, cutoff: int)
    requires n < |l| && n <= OldPrefix(l, cutoff)
    ensures Memory(l[..n + 1]) == Memory(l[..n]) + l[n].memory
    ensures l[n].lastUsed > cutoff <==> n == OldPrefix(l, cutoff)
  {
    assert l[..n + 1] == l[..n] + [l[n]];
    AmountConcat(Bytes, l[..n], [l[n]]);
    assert Amount(Bytes, [l[n]]) == l[n].memory + Amount(Bytes, [l[n]][1..]);
  }

  lemma Reaped(memoryOf: WarmKey -> nat, b: Books, cutoff: int, order: seq<WarmKey>, out: seq<Pooled>, rest: Idles)
    requires Good(memoryOf, b) && Enumerates(order, b.idles.Keys) && Reaps(b.idles, cutoff, order, out, rest)
    ensures Good(memoryOf, b.(idles := rest))
    ensures rest == Kept(b.idles, cutoff)
    ensures forall p :: p in out <==> IsIdle(b.idles, p) && p.lastUsed <= cutoff
    ensures Total(Bytes, b.idles) == Memory(out) + Total(Bytes, rest)
  {
    ReapIsFilter(b.idles, cutoff, order, out, rest);
    ReapedLists(memoryOf, b, cutoff, order, out, rest);
    ReapedCensus(b, cutoff, order, out, rest);
  }

  lemma ReapedLists(memoryOf: WarmKey -> nat, b: Books, cutoff: int, order: seq<WarmKey>, out: seq<Pooled>, rest: Idles)
    requires Listed(memoryOf, b.idles, b.clock) && Reaps(b.idles, cutoff, order, out, rest) && rest == Kept(b.idles, cutoff)
    ensures Listed(memoryOf, rest, b.clock)
  {
    hide Reaps, Filed, Ordered;
    ReapsConserves(b.idles, cutoff, order, out, rest);
    forall k, i | k in rest && 0 <= i < |rest[k]| ensures rest[k][i].memory == memoryOf(k) && rest[k][i].lastUsed <= b.clock {
      YoungIsPart(b.idles[k], cutoff);
      assert rest[k][i] in Young(b.idles[k], cutoff);
      var j :| 0 <= j < |b.idles[k]| && b.idles[k][j] == rest[k][i];
    }
  }

  lemma ReapedCensus(b: Books, cutoff: int, order: seq<WarmKey>, out: seq<Pooled>, rest: Idles)
    requires Census(b) && Reaps(b.idles, cutoff, order, out, rest)
    ensures Census(b.(idles := rest))
  {
    hide Total, Prewarms, Reaps;
    ReapsConserves(b.idles, cutoff, order, out, rest);
    forall id: nat ensures Owners(b.(idles := rest), id) <= Owners(b, id) {
      assert Total(Copies(id), b.idles) == Amount(Copies(id), out) + Total(Copies(id), rest);
    }
    hide Owners;
  }

  /** Without a warm container, the first prewarmed one of the right kind and memory is handed out;
      only when there is none is a container created. */
  predicate TakenOrCreated(before: map<PrewarmKey, seq<nat>>, after: map<PrewarmKey, seq<nat>>, created: nat, createdAfter: nat,
                           pk: PrewarmKey, r: Result<Handed, GetError>) {
    if PrewarmList(before, pk) != [] then
      && after == before[pk := before[pk][1..]] && createdAfter == created
      && (r.Ok? ==> !r.value.reused && r.value.container.id == before[pk][0])
    else
      && after == before && createdAfter == created + 1
      && (r.Ok? ==> !r.value.reused && r.value.container.id == created)
  }

  /** A container nobody had is now in a caller's hands, for its key and charged with its memory. */
  ghost predicate HandedTo(before: map<nat, nat>, after: map<nat, nat>, h: Handed, key: WarmKey, memory: nat) {
    && h.container.id !in before && after == before[h.container.id := memory]
    && h.container.key == key && h.container.memory == memory
  }

  /** The evictions so far were all necessary, and more are. */
  ghost predicate SpaceIsMissing(before: Idles, inFlight: nat, max: nat, out: seq<Pooled>, idles: Idles) {
    && Evicts(before, out, idles)
    && max < Total(Bytes, idles) + inFlight
    && forall part :: part < out ==> max < Total(Bytes, before) - Memory(part) + inFlight
  }

  lemma NothingEvicted(idles: Idles, inFlight: nat, max: nat)
    ensures Total(Bytes, idles) + inFlight > max ==> SpaceIsMissing(idles, inFlight, max, [], idles)
    ensures Total(Bytes, idles) + inFlight <= max ==> MakesRoom(idles, inFlight, max, [], idles)
  {
    var none: seq<Pooled> := [];
    assert Evicts(idles, none, idles) && Memory(none) == 0;
  }

  lemma PartsOfOneMore(out: seq<Pooled>, p: Pooled, part: seq<Pooled>)
    requires part < out + [p]
    ensures part <= out
  {
    var whole := out + [p];
    assert |part| < |whole| && part == whole[..|part|];
    assert whole[..|part|] == out[..|part|];
  }

  lemma OneMoreEviction(before: Idles, inFlight: nat, max: nat, out: seq<Pooled>, idles: Idles, p: Pooled)
    requires SpaceIsMissing(before, inFlight, max, out, idles) && OldestHead(idles, p) && Filed(idles)
    ensures p.key in idles && idles[p.key] != []
    ensures Evicts(before, out + [p], DropHead(idles, p.key))
    ensures forall part :: part < out + [p] ==> max < Total(Bytes, before) - Memory(part) + inFlight
    ensures DropHead(idles, p.key) == idles[p.key := idles[p.key][1..]] && Filed(DropHead(idles, p.key))
    ensures Total(Bytes, DropHead(idles, p.key)) == Total(Bytes, idles) - p.memory && p.memory <= Total(Bytes, idles)
    ensures Count(DropHead(idles, p.key)) < Count(idles)
    ensures Total(Bytes, DropHead(idles, p.key)) + inFlight > max ==>
      SpaceIsMissing(before, inFlight, max, out + [p], DropHead(idles, p.key))
    ensures Total(Bytes, DropHead(idles, p.key)) + inFlight <= max ==>
      MakesRoom(before, inFlight, max, out + [p], DropHead(idles, p.key))
  {
    EvictsAppend(before, out, idles, p);
    DropHeadFacts(idles, p);
    assert Weigh(Bytes, p) == p.memory;
    CountDrop(idles, p.key);
    EvictsConserves(before, out, idles);
    assert Total(Bytes, before) == Memory(out) + Total(Bytes, idles);
    forall part | part < out + [p] ensures max < Total(Bytes, before) - Memory(part) + inFlight {
      PartsOfOneMore(out, p, part);
      assert part == out || part < out;
    }
  }
}
