/** What reconciling does to the kernel's filter table: saving a table, rewriting the text and
    restoring it gives a table that is described here without any text. */
module FirewallTheorems {
  import opened Common
  import opened Text
  import opened Iptables
  import opened Firewall

  // ---------------------------------------------------------------- the table aimed at

  predicate RuleStays(n: string, rule: string) { !Renewed(Show(Append(n, rule))) }

  function KeptRules(n: string, rules: seq<string>): seq<string> {
    if rules == [] then []
    else (if RuleStays(n, rules[0]) then [rules[0]] else []) + KeptRules(n, rules[1..])
  }

  /** The jumps at the front of a chain. */
  function Leading(n: string): seq<string> {
    if n == "FORWARD" then [TO_PER_CONTAINER, TO_WHISK]
    else if n == "INPUT" then [TO_WHISK]
    else []
  }

  function Canonical(canon: string -> string, rules: seq<string>): (r: seq<string>)
    ensures |r| == |rules| && forall i :: 0 <= i < |rules| ==> r[i] == canon(rules[i])
  {
    if rules == [] then [] else [canon(rules[0])] + Canonical(canon, rules[1..])
  }

  function RulesOf(t: Table, n: string): seq<string> { if n in t then t[n].rules else [] }

  function PolicyOf(t: Table, n: string): string { if n in t then t[n].policy else NO_POLICY }

  function Closing(canon: string -> string, cl: Cluster, n: string): seq<string> {
    if n == WHISK then Canonical(canon, WhiskRules(cl)) else []
  }

  function TargetChain(canon: string -> string, cl: Cluster, t: Table, n: string): Chain {
    Chain(PolicyOf(t, n), Leading(n) + KeptRules(n, RulesOf(t, n)) + Closing(canon, cl, n))
  }

  /** Both chains exist, the jumps lead FORWARD and INPUT, WHISK-FIREWALL holds exactly the wanted
      rules, and every chain keeps its policy and the rules that stay. */
  function Target(canon: string -> string, cl: Cluster, t: Table): Table {
    map n | n in t.Keys + {WHISK, PER_CONTAINER} :: TargetChain(canon, cl, t, n)
  }

  /** How the kernel stores rules: storing is done once, it leaves the plain jumps alone, and what it
      makes of the wanted rules fits a line. The inputs contain no line breaks. */
  ghost predicate Kernel(canon: string -> string, cl: Cluster) {
    && (forall r :: canon(canon(r)) == canon(r))
    && canon(TO_WHISK) == TO_WHISK && canon(TO_PER_CONTAINER) == TO_PER_CONTAINER
    && forall i :: 0 <= i < |WhiskRules(cl)| ==>
         && RuleText(WhiskRules(cl)[i]) && '\n' !in WhiskRules(cl)[i]
         && StoredRule(canon, WHISK, canon(WhiskRules(cl)[i]))
  }

  // ---------------------------------------------------------------- from the text to commands

  lemma ScanOfSave(canon: string -> string, t: Table, l: Layout)
    requires WellFormed(canon, t) && Scannable(t, l)
    ensures ScanLines(Save(t, l)) == ShowAll(Saved(t, l))
  {
    hide ScanLines, Lines, Clean, Show, Saved, WellFormed;
    SavedShape(canon, t, l);
    var cs := Saved(t, l);
    SavedIsNotEmpty(t, l);
    forall i | 0 <= i < |cs| ensures Clean(ShowAll(cs)[i]) {
      assert Presentable(cs[i]);
    }
    ScanOfLines(ShowAll(cs));
  }

  lemma SavedIsNotEmpty(t: Table, l: Layout)
    requires Enumerates(l.order, t)
    ensures Saved(t, l) != []
  {
  }

  predicate StaysCommand(c: Command) { Stays(Show(c)) }

  lemma {:induction false} FilterShown(cs: seq<Command>)
    ensures Filter(Stays, ShowAll(cs)) == ShowAll(Filter(StaysCommand, cs))
  {
    hide Stays, Show;
    if cs != [] {
      FilterShown(cs[1..]);
      assert ShowAll(cs)[1..] == ShowAll(cs[1..]);
    }
  }

  lemma WhichStay(c: Command)
    ensures c.Comment? || c.Commit? ==> !StaysCommand(c)
    ensures c.Begin? || c.Declare? || c.Insert? ==> StaysCommand(c)
    ensures c.Append? ==> (StaysCommand(c) <==> RuleStays(c.chain, c.rule))
  {
    var line := Show(c);
    if Renewed(line) { RenewedIsRule(line); }
    match c
    case Comment(_) => assert line[0] == '#';
    case Commit => assert line[0] == 'C';
    case Begin(_) => assert line[0] == '*';
    case Declare(_, _, _) => assert line[0] == ':';
    case Append(_, _) => assert line[0] == '-';
    case Insert(_, _) => assert line[0] == '-' && line[1] == 'I';
    case _ =>
  }

  lemma {:induction false} FilterAppends(n: string, rules: seq<string>)
    ensures Filter(StaysCommand, Appends(n, rules)) == Appends(n, KeptRules(n, rules))
  {
    hide StaysCommand, RuleStays;
    if rules != [] {
      WhichStay(Append(n, rules[0]));
      FilterAppends(n, rules[1..]);
      assert Appends(n, rules)[1..] == Appends(n, rules[1..]);
    }
  }

  function KeptAppends(t: Table, order: seq<string>): seq<Command>
    requires forall n :: n in order ==> n in t
  {
    if order == [] then [] else Appends(order[0], KeptRules(order[0], t[order[0]].rules)) + KeptAppends(t, order[1..])
  }

  lemma {:induction false} FilterAllAppends(t: Table, order: seq<string>)
    requires forall n :: n in order ==> n in t
    ensures Filter(StaysCommand, AllAppends(t, order)) == KeptAppends(t, order)
  {
    hide StaysCommand, Appends, KeptRules;
    if order != [] {
      FilterAppend(StaysCommand, Appends(order[0], t[order[0]].rules), AllAppends(t, order[1..]));
      FilterAppends(order[0], t[order[0]].rules);
      FilterAllAppends(t, order[1..]);
    }
  }

  /** The commands that stay of a saved table. */
  ghost function KeptCommands(t: Table, l: Layout): seq<Command>
    requires Enumerates(l.order, t)
  {
    [Begin("filter")] + Declarations(t, l.order, l.counters) + KeptAppends(t, l.order)
  }

  lemma CommentsGo(texts: seq<string>)
    ensures Filter(StaysCommand, Comments(texts)) == []
  {
    hide StaysCommand, Filter;
    forall i | 0 <= i < |texts| ensures !StaysCommand(Comment(texts[i])) { WhichStay(Comment(texts[i])); }
    FilterNone(StaysCommand, Comments(texts));
  }

  lemma DeclarationsStay(t: Table, order: seq<string>, counters: string -> string)
    requires forall n :: n in order ==> n in t
    ensures Filter(StaysCommand, Declarations(t, order, counters)) == Declarations(t, order, counters)
  {
    hide StaysCommand, Filter;
    var decls := Declarations(t, order, counters);
    forall i | 0 <= i < |decls| ensures StaysCommand(decls[i]) { WhichStay(decls[i]); }
    FilterAll(StaysCommand, decls);
  }

  lemma FilterOne(c: Command)
    ensures Filter(StaysCommand, [c]) == if StaysCommand(c) then [c] else []
  {
    hide StaysCommand;
    assert [c][1..] == [];
  }

  lemma FilterParts<T>(keep: T -> bool, a: seq<T>, b: seq<T>, c: seq<T>, d: seq<T>, e: seq<T>, f: seq<T>)
    ensures Filter(keep, a + b + c + d + e + f)
         == Filter(keep, a) + Filter(keep, b) + Filter(keep, c) + Filter(keep, d) + Filter(keep, e) + Filter(keep, f)
  {
    hide Filter;
    FilterAppend(keep, a + b + c + d + e, f);
    FilterAppend(keep, a + b + c + d, e);
    FilterAppend(keep, a + b + c, d);
    FilterAppend(keep, a + b, c);
    FilterAppend(keep, a, b);
  }

  lemma FilterSaved(t: Table, l: Layout)
    requires Enumerates(l.order, t)
    ensures Filter(StaysCommand, Saved(t, l)) == KeptCommands(t, l)
  {
    hide StaysCommand, Filter, AllAppends, KeptAppends, Declarations, Comments;
    var header, begin, decls := Comments(l.header), [Begin("filter")], Declarations(t, l.order, l.counters);
    var rules, commit, trailer := AllAppends(t, l.order), [Commit], Comments(l.trailer);
    FilterParts(StaysCommand, header, begin, decls, rules, commit, trailer);
    CommentsGo(l.header);
    CommentsGo(l.trailer);
    DeclarationsStay(t, l.order, l.counters);
    WhichStay(Begin("filter"));
    WhichStay(Commit);
    FilterOne(Begin("filter"));
    FilterOne(Commit);
    FilterAllAppends(t, l.order);
    EmptyParts(begin, decls, KeptAppends(t, l.order));
  }

  lemma EmptyParts<T>(a: seq<T>, b: seq<T>, c: seq<T>)
    ensures [] + a + b + c + [] + [] == a + b + c
  {
    assert [] + a == a;
    assert a + b + c + [] == a + b + c;
  }

  /** Different plain commands are shown differently. */
  lemma ShownOnce(cs: seq<Command>, c: Command)
    requires Plain(c) && forall d :: d in cs ==> Plain(d)
    ensures Show(c) in ShowAll(cs) <==> c in cs
  {
    hide Show, Parse, Plain;
    ParseOfShow(c);
    if Show(c) in ShowAll(cs) {
      var i :| 0 <= i < |cs| && ShowAll(cs)[i] == Show(c);
      ParseOfShow(cs[i]);
    }
    if c in cs {
      var i :| 0 <= i < |cs| && cs[i] == c;
      assert ShowAll(cs)[i] == Show(c);
    }
  }

  lemma SavedMembers(t: Table, l: Layout, c: Command)
    requires Enumerates(l.order, t) && c.Declare?
    ensures c in Saved(t, l) <==> c in Declarations(t, l.order, l.counters)
  {
    hide AllAppends, Declarations;
    AllAppendsShape(t, l.order);
    assert c !in Comments(l.header) && c !in Comments(l.trailer) && c !in AllAppends(t, l.order);
    hide Comments;
  }

  lemma SavedDeclares(canon: string -> string, t: Table, l: Layout, n: string)
    requires WellFormed(canon, t) && Enumerates(l.order, t) && n !in BUILT_IN
    ensures Declare(n, NO_POLICY, NO_COUNTERS) in Saved(t, l) <==> n in t
  {
    hide Saved, WellFormed, Enumerates;
    SavedMembers(t, l, Declare(n, NO_POLICY, NO_COUNTERS));
    if n in t { OwnChainPolicy(canon, t, n); }
    DeclaresMembers(t, l, n);
  }

  lemma OwnChainPolicy(canon: string -> string, t: Table, n: string)
    requires WellFormed(canon, t) && n in t && n !in BUILT_IN
    ensures t[n].policy == NO_POLICY
  {
    hide StoredRule, Word;
  }

  lemma DeclaresMembers(t: Table, l: Layout, n: string)
    requires Enumerates(l.order, t) && n !in BUILT_IN && (n in t ==> t[n].policy == NO_POLICY)
    ensures Declare(n, NO_POLICY, NO_COUNTERS) in Declarations(t, l.order, l.counters) <==> n in t
  {
    if n in t {
      var j :| 0 <= j < |l.order| && l.order[j] == n;
      assert Declarations(t, l.order, l.counters)[j] == Declare(n, NO_POLICY, NO_COUNTERS);
    }
  }

  /** A chain's declaration is found in the saved text exactly when the table has the chain. */
  lemma DeclarationIsFound(canon: string -> string, t: Table, l: Layout, n: string)
    requires WellFormed(canon, t) && Scannable(t, l) && Word(n) && n !in BUILT_IN
    ensures Show(Declare(n, NO_POLICY, NO_COUNTERS)) in ShowAll(Saved(t, l)) <==> n in t
  {
    hide Show, Saved, Clean, WellFormed;
    SavedShape(canon, t, l);
    SavedDeclares(canon, t, l, n);
    ShownOnce(Saved(t, l), Declare(n, NO_POLICY, NO_COUNTERS));
  }

  function MissingChains(t: Table): seq<Command> {
    (if WHISK in t then [] else [Declare(WHISK, NO_POLICY, NO_COUNTERS)])
      + (if PER_CONTAINER in t then [] else [Declare(PER_CONTAINER, NO_POLICY, NO_COUNTERS)])
  }

  /** The commands the reconciled text of a saved table consists of. */
  ghost function Rewritten(cl: Cluster, t: Table, l: Layout): seq<Command>
    requires Enumerates(l.order, t)
  {
    KeptCommands(t, l) + MissingChains(t) + JUMPS + Appends(WHISK, WhiskRules(cl)) + [Commit]
  }

  lemma ChainNames()
    ensures Word(WHISK) && Word(PER_CONTAINER) && WHISK !in BUILT_IN && PER_CONTAINER !in BUILT_IN && WHISK != PER_CONTAINER
    ensures Word("FORWARD") && Word("INPUT") && WHISK != "FORWARD" && WHISK != "INPUT" && "FORWARD" != "INPUT"
    ensures PER_CONTAINER != "FORWARD" && PER_CONTAINER != "INPUT"
  {
    assert |WHISK| == 14 && |PER_CONTAINER| == 22;
    assert "FORWARD"[0] == 'F' && "INPUT"[0] == 'I';
  }

  lemma ReconciledIsShown(canon: string -> string, cl: Cluster, t: Table, l: Layout)
    requires WellFormed(canon, t) && Scannable(t, l)
    ensures Reconciled(cl, ScanLines(Save(t, l))) == ShowAll(Rewritten(cl, t, l))
  {
    hide ScanLines, Save, Show, Filter, Stays, WhiskRules, KeptCommands, Saved, WellFormed;
    ScanOfSave(canon, t, l);
    FilterShown(Saved(t, l));
    FilterSaved(t, l);
    ChainNames();
    DeclarationIsFound(canon, t, l, WHISK);
    DeclarationIsFound(canon, t, l, PER_CONTAINER);
    ShownChains();
    assert Missing(ShowAll(Saved(t, l))) == MissingChains(t);
    var a, b, c, d, e := KeptCommands(t, l), MissingChains(t), JUMPS, Appends(WHISK, WhiskRules(cl)), [Commit];
    ShowAllAppend(a + b + c + d, e);
    ShowAllAppend(a + b + c, d);
    ShowAllAppend(a + b, c);
    ShowAllAppend(a, b);
  }

  /** A command on a line of its own. */
  predicate OneLine(c: Command) { Plain(c) && '\n' !in Show(c) }

  /** Restoring shown commands runs them. */
  lemma RestoreOfShown(canon: string -> string, cs: seq<Command>)
    requires cs != [] && forall c :: c in cs ==> OneLine(c)
    ensures Restore(canon, Lines(ShowAll(cs)))
         == match ExecAll(canon, Outside, cs) case Committed(t) => Some(t) case _ => None
  {
    hide Show, Lines, Split, ExecAll, Plain;
    forall i | 0 <= i < |cs| ensures '\n' !in ShowAll(cs)[i] && Plain(cs[i]) {
      assert OneLine(cs[i]);
    }
    SplitOfLines(ShowAll(cs));
    ParseAllOfShowAll(cs);
  }

  lemma {:induction false} KeptAppendsMembers(t: Table, order: seq<string>)
    requires forall n :: n in order ==> n in t
    ensures forall c :: c in KeptAppends(t, order) ==> c in AllAppends(t, order)
  {
    FilterAllAppends(t, order);
    FilterMember(StaysCommand, AllAppends(t, order));
  }

  lemma RewrittenIsOneLine(canon: string -> string, cl: Cluster, t: Table, l: Layout)
    requires WellFormed(canon, t) && Scannable(t, l) && Kernel(canon, cl)
    ensures forall c :: c in Rewritten(cl, t, l) ==> OneLine(c)
  {
    hide OneLine, WellFormed, Declarations, KeptAppends, WhiskRules, Clean;
    KeptIsOneLine(canon, t, l);
    AddedIsOneLine(canon, cl);
    MissingIsOneLine(t);
  }

  lemma KeptIsOneLine(canon: string -> string, t: Table, l: Layout)
    requires WellFormed(canon, t) && Scannable(t, l)
    ensures forall c :: c in KeptCommands(t, l) ==> OneLine(c)
  {
    hide WellFormed, Declarations, KeptAppends, AllAppends, Show;
    KeptAppendsMembers(t, l.order);
    DeclarationsShape(canon, t, l);
    RulesShape(canon, t, l);
    MarkersShape();
  }

  lemma AddedIsOneLine(canon: string -> string, cl: Cluster)
    requires Kernel(canon, cl)
    ensures forall c :: c in JUMPS + Appends(WHISK, WhiskRules(cl)) + [Commit] ==> OneLine(c)
  {
    hide WhiskRules, StoredRule, OneLine;
    JumpsAreOneLine();
    forall i | 0 <= i < |WhiskRules(cl)| ensures OneLine(Append(WHISK, WhiskRules(cl)[i])) {
      WhiskRuleIsOneLine(WhiskRules(cl)[i]);
    }
  }

  lemma WhiskRuleIsOneLine(rule: string)
    requires RuleText(rule) && '\n' !in rule
    ensures OneLine(Append(WHISK, rule))
  {
    ChainNames();
    assert Show(Append(WHISK, rule)) == "-A " + WHISK + rule;
  }

  lemma JumpsAreOneLine()
    ensures forall c :: c in JUMPS + [Commit] ==> OneLine(c)
  {
    hide Show;
    ChainNames();
    ShownForwardToWhisk();
    ShownForwardToPerContainer();
    ShownInputToWhisk();
    MarkersShape();
  }

  lemma MissingIsOneLine(t: Table)
    ensures forall c :: c in MissingChains(t) ==> OneLine(c)
  {
    hide Show;
    ChainNames();
    ShownChains();
  }

  // ---------------------------------------------------------------- running the commands

  ghost function Emptied(t: Table, order: seq<string>): Table
    requires forall n :: n in order ==> n in t
  {
    map n | n in order :: Chain(t[n].policy, [])
  }

  lemma EmptiedFirst(u: Table, t: Table, order: seq<string>)
    requires order != [] && forall n :: n in order ==> n in t
    ensures u + Emptied(t, order) == u[order[0] := Chain(t[order[0]].policy, [])] + Emptied(t, order[1..])
  {
    assert forall n :: n in order <==> n == order[0] || n in order[1..];
  }

  lemma {:induction false} RunDeclarations(canon: string -> string, u: Table, t: Table, order: seq<string>, counters: string -> string)
    requires forall n :: n in order ==> n in t
    ensures ExecAll(canon, Inside(u), Declarations(t, order, counters)) == Inside(u + Emptied(t, order))
    decreases |order|
  {
    hide Emptied;
    if order == [] {
      NoneEmptied(u, t);
    } else {
      EmptiedFirst(u, t, order);
      RunDeclarations(canon, u[order[0] := Chain(t[order[0]].policy, [])], t, order[1..], counters);
      assert Declarations(t, order, counters)[1..] == Declarations(t, order[1..], counters);
    }
  }

  lemma NoneEmptied(u: Table, t: Table)
    ensures u + Emptied(t, []) == u
  {
  }

  function Extended(u: Table, n: string, rules: seq<string>): Table
    requires n in u
  {
    u[n := Chain(u[n].policy, u[n].rules + rules)]
  }

  lemma ExtendedTwice(u: Table, n: string, a: seq<string>, b: seq<string>)
    requires n in u
    ensures Extended(Extended(u, n, a), n, b) == Extended(u, n, a + b)
    ensures Extended(u, n, []) == u
  {
    assert u[n].rules + a + b == u[n].rules + (a + b) && u[n].rules + [] == u[n].rules;
  }

  lemma {:induction false} RunAppends(canon: string -> string, u: Table, n: string, rules: seq<string>)
    requires n in u
    ensures ExecAll(canon, Inside(u), Appends(n, rules)) == Inside(Extended(u, n, Canonical(canon, rules)))
    decreases |rules|
  {
    if rules == [] {
      ExtendedTwice(u, n, [], []);
    } else {
      var first := [canon(rules[0])];
      ExtendedTwice(u, n, first, Canonical(canon, rules[1..]));
      RunAppends(canon, Extended(u, n, first), n, rules[1..]);
      assert Appends(n, rules)[1..] == Appends(n, rules[1..]);
    }
  }

  lemma {:induction false} KeptRulesMembers(n: string, rules: seq<string>)
    ensures forall r :: r in KeptRules(n, rules) <==> r in rules && RuleStays(n, r)
    ensures |KeptRules(n, rules)| <= |rules|
    ensures |KeptRules(n, rules)| == |rules| ==> KeptRules(n, rules) == rules
  {
    hide RuleStays;
    if rules != [] {
      KeptRulesMembers(n, rules[1..]);
      assert rules == [rules[0]] + rules[1..];
    }
  }

  lemma CanonicalOfStored(canon: string -> string, rules: seq<string>)
    requires forall r :: r in rules ==> canon(r) == r
    ensures Canonical(canon, rules) == rules
  {
  }

  /** The chains of `order` once the rules that stay are appended. */
  ghost function Filled(u: Table, t: Table, order: seq<string>): Table
    requires forall n :: n in order ==> n in t && n in u
  {
    map n | n in u ::
      if n in order then Chain(u[n].policy, u[n].rules + KeptRules(n, t[n].rules)) else u[n]
  }

  lemma FilledFirst(u: Table, t: Table, order: seq<string>)
    requires order != [] && forall n :: n in order ==> n in t && n in u
    requires order[0] !in order[1..]
    ensures Filled(Extended(u, order[0], KeptRules(order[0], t[order[0]].rules)), t, order[1..]) == Filled(u, t, order)
  {
    hide KeptRules;
    assert forall n :: n in order <==> n == order[0] || n in order[1..];
  }

  lemma {:induction false} RunKept(canon: string -> string, u: Table, t: Table, order: seq<string>)
    requires forall n :: n in order ==> n in t && n in u
    requires forall i, j :: 0 <= i < j < |order| ==> order[i] != order[j]
    requires forall n, r :: n in order && r in t[n].rules ==> canon(r) == r
    ensures ExecAll(canon, Inside(u), KeptAppends(t, order)) == Inside(Filled(u, t, order))
    decreases |order|
  {
    hide ExecAll, Filled, KeptRules, Extended;
    if order == [] {
      NothingFilled(canon, u, t);
    } else {
      var n := order[0];
      var kept := KeptRules(n, t[n].rules);
      KeptRulesMembers(n, t[n].rules);
      CanonicalOfStored(canon, kept);
      RunAppends(canon, u, n, kept);
      ExecAllAppend(canon, Inside(u), Appends(n, kept), KeptAppends(t, order[1..]));
      ExtendedKeys(u, n, kept);
      RunKept(canon, Extended(u, n, kept), t, order[1..]);
      FilledFirst(u, t, order);
    }
  }

  lemma ExtendedKeys(u: Table, n: string, rules: seq<string>)
    requires n in u
    ensures Extended(u, n, rules).Keys == u.Keys
  {
  }

  lemma NothingFilled(canon: string -> string, u: Table, t: Table)
    ensures Filled(u, t, []) == u && ExecAll(canon, Inside(u), []) == Inside(u)
  {
  }

  /** The table without the rules that are written anew. */
  ghost function Stripped(t: Table): Table {
    map n | n in t :: Chain(t[n].policy, KeptRules(n, t[n].rules))
  }

  lemma StrippedIsFilled(t: Table, order: seq<string>)
    requires Enumerates(order, t)
    ensures Filled(map[] + Emptied(t, order), t, order) == Stripped(t)
  {
    hide KeptRules;
    forall n | n in t ensures [] + KeptRules(n, t[n].rules) == KeptRules(n, t[n].rules) {}
  }

  lemma RunKeptCommands(canon: string -> string, t: Table, l: Layout)
    requires WellFormed(canon, t) && Enumerates(l.order, t)
    ensures ExecAll(canon, Outside, KeptCommands(t, l)) == Inside(Stripped(t))
  {
    hide Declarations, KeptAppends, Filled, Stripped, ExecAll;
    var decls := Declarations(t, l.order, l.counters);
    var u := map[] + Emptied(t, l.order);
    assert ExecAll(canon, Outside, [Begin("filter")]) == Inside(map[]) by { RunBegin(canon); }
    ExecAllAppend(canon, Outside, [Begin("filter")] + decls, KeptAppends(t, l.order));
    ExecAllAppend(canon, Outside, [Begin("filter")], decls);
    RunDeclarations(canon, map[], t, l.order, l.counters);
    forall n, r | n in l.order && r in t[n].rules ensures canon(r) == r {
      var i :| 0 <= i < |t[n].rules| && t[n].rules[i] == r;
      assert StoredRule(canon, n, t[n].rules[i]);
    }
    RunKept(canon, u, t, l.order);
    StrippedIsFilled(t, l.order);
  }

  lemma RunBegin(canon: string -> string)
    ensures ExecAll(canon, Outside, [Begin("filter")]) == Inside(map[])
  {
    assert ExecAll(canon, Inside(map[]), [Begin("filter")][1..]) == Inside(map[]);
  }

  /** Both chains exist. */
  ghost function Completed(t: Table): Table {
    map n | n in t.Keys + {WHISK, PER_CONTAINER} :: Chain(PolicyOf(t, n), KeptRules(n, RulesOf(t, n)))
  }

  lemma RunOne(canon: string -> string, st: Progress, c: Command)
    ensures ExecAll(canon, st, [c]) == Exec(canon, st, c)
    ensures ExecAll(canon, st, []) == st
  {
    assert ExecAll(canon, Exec(canon, st, c), [c][1..]) == Exec(canon, st, c);
  }

  lemma RunMissing(canon: string -> string, t: Table)
    ensures ExecAll(canon, Inside(Stripped(t)), MissingChains(t)) == Inside(Completed(t))
  {
    hide ExecAll, Stripped, Completed;
    ChainNames();
    CompletedStep(t);
    var first := if WHISK in t then [] else [Declare(WHISK, NO_POLICY, NO_COUNTERS)];
    var second := if PER_CONTAINER in t then [] else [Declare(PER_CONTAINER, NO_POLICY, NO_COUNTERS)];
    var s := Stripped(t);
    var mid := if WHISK in t then s else s[WHISK := Chain(NO_POLICY, [])];
    RunOne(canon, Inside(s), Declare(WHISK, NO_POLICY, NO_COUNTERS));
    RunOne(canon, Inside(mid), Declare(PER_CONTAINER, NO_POLICY, NO_COUNTERS));
    ExecAllAppend(canon, Inside(s), first, second);
  }

  lemma CompletedStep(t: Table)
    ensures var s := Stripped(t); var mid := if WHISK in t then s else s[WHISK := Chain(NO_POLICY, [])];
      (if PER_CONTAINER in t then mid else mid[PER_CONTAINER := Chain(NO_POLICY, [])]) == Completed(t)
  {
    ChainNames();
  }

  ghost function WithJumps(u: Table): Table {
    map n | n in u :: Chain(u[n].policy, Leading(n) + u[n].rules)
  }

  lemma RunJumps(canon: string -> string, u: Table)
    requires "FORWARD" in u && "INPUT" in u
    requires canon(TO_WHISK) == TO_WHISK && canon(TO_PER_CONTAINER) == TO_PER_CONTAINER
    ensures ExecAll(canon, Inside(u), JUMPS) == Inside(WithJumps(u))
  {
    hide ExecAll;
    ChainNames();
    var f := u["FORWARD"];
    var u1 := u["FORWARD" := Chain(f.policy, [TO_WHISK] + f.rules)];
    var u2 := u["FORWARD" := Chain(f.policy, [TO_PER_CONTAINER] + ([TO_WHISK] + f.rules))];
    var u3 := u2["INPUT" := Chain(u["INPUT"].policy, [TO_WHISK] + u["INPUT"].rules)];
    RunOne(canon, Inside(u), JUMPS[0]);
    RunOne(canon, Inside(u1), JUMPS[1]);
    RunOne(canon, Inside(u2), JUMPS[2]);
    assert u1["FORWARD" := Chain(f.policy, [TO_PER_CONTAINER] + ([TO_WHISK] + f.rules))] == u2;
    ExecAllAppend(canon, Inside(u), [JUMPS[0]], [JUMPS[1]]);
    ExecAllAppend(canon, Inside(u), [JUMPS[0]] + [JUMPS[1]], [JUMPS[2]]);
    assert JUMPS == [JUMPS[0]] + [JUMPS[1]] + [JUMPS[2]];
    assert u3 == WithJumps(u) by { JumpsAre(u, u3); }
  }

  lemma JumpsAre(u: Table, v: Table)
    requires "FORWARD" in u && "INPUT" in u
    requires v == u["FORWARD" := Chain(u["FORWARD"].policy, [TO_PER_CONTAINER] + ([TO_WHISK] + u["FORWARD"].rules))]
                   ["INPUT" := Chain(u["INPUT"].policy, [TO_WHISK] + u["INPUT"].rules)]
    ensures v == WithJumps(u)
  {
    ChainNames();
    assert [TO_PER_CONTAINER] + ([TO_WHISK] + u["FORWARD"].rules) == Leading("FORWARD") + u["FORWARD"].rules;
    forall n | n in u && n != "FORWARD" && n != "INPUT" ensures u[n] == Chain(u[n].policy, Leading(n) + u[n].rules) {
      assert [] + u[n].rules == u[n].rules;
    }
  }

  lemma RunClosing(canon: string -> string, cl: Cluster, t: Table)
    requires "FORWARD" in t && "INPUT" in t
    requires canon(TO_WHISK) == TO_WHISK && canon(TO_PER_CONTAINER) == TO_PER_CONTAINER
    ensures ExecAll(canon, Inside(Completed(t)), JUMPS + Appends(WHISK, WhiskRules(cl)) + [Commit])
         == Committed(Target(canon, cl, t))
  {
    hide ExecAll, WhiskRules, Appends, KeptRules;
    var u := WithJumps(Completed(t));
    var rules := Appends(WHISK, WhiskRules(cl));
    RunJumps(canon, Completed(t));
    ExecAllAppend(canon, Inside(Completed(t)), JUMPS, rules);
    RunAppends(canon, u, WHISK, WhiskRules(cl));
    ExecAllAppend(canon, Inside(Completed(t)), JUMPS + rules, [Commit]);
    var final := Extended(u, WHISK, Canonical(canon, WhiskRules(cl)));
    RunOne(canon, Inside(final), Commit);
    TargetIs(canon, cl, t);
  }

  lemma TargetIs(canon: string -> string, cl: Cluster, t: Table)
    ensures Extended(WithJumps(Completed(t)), WHISK, Canonical(canon, WhiskRules(cl))) == Target(canon, cl, t)
  {
    hide WhiskRules, KeptRules, Leading, Canonical;
    var u := Extended(WithJumps(Completed(t)), WHISK, Canonical(canon, WhiskRules(cl)));
    forall n | n in u ensures u[n] == TargetChain(canon, cl, t, n) {
      var before := Leading(n) + KeptRules(n, RulesOf(t, n));
      assert before + [] == before;
    }
  }

  lemma RunRewritten(canon: string -> string, cl: Cluster, t: Table, l: Layout)
    requires WellFormed(canon, t) && Enumerates(l.order, t)
    requires canon(TO_WHISK) == TO_WHISK && canon(TO_PER_CONTAINER) == TO_PER_CONTAINER
    ensures ExecAll(canon, Outside, Rewritten(cl, t, l)) == Committed(Target(canon, cl, t))
  {
    hide ExecAll, WhiskRules, Target, StoredRule, KeptCommands, MissingChains, Appends, Stripped, Completed;
    var kept, missing, jumps, closing := KeptCommands(t, l), MissingChains(t), JUMPS, Appends(WHISK, WhiskRules(cl));
    assert kept + missing + jumps + closing + [Commit] == kept + (missing + (jumps + closing + [Commit]));
    ExecAllAppend(canon, Outside, kept, missing + (jumps + closing + [Commit]));
    RunKeptCommands(canon, t, l);
    ExecAllAppend(canon, Inside(Stripped(t)), missing, jumps + closing + [Commit]);
    RunMissing(canon, t);
    RunClosing(canon, cl, t);
  }

  // ---------------------------------------------------------------- what reconciling does

  /** Saving the kernel's table in any layout, reconciling the text and restoring it succeeds and
      leaves the kernel with the target table. */
  lemma ReconcilingRestoresTarget(canon: string -> string, cl: Cluster, t: Table, l: Layout)
    requires WellFormed(canon, t) && Scannable(t, l) && Kernel(canon, cl)
    ensures Restore(canon, Lines(Reconciled(cl, ScanLines(Save(t, l))))) == Some(Target(canon, cl, t))
  {
    hide ExecAll, Restore, Reconciled, Save, WhiskRules, Target, StoredRule, Rewritten, WellFormed, ScanLines, Lines;
    ReconciledIsShown(canon, cl, t, l);
    RewrittenIsOneLine(canon, cl, t, l);
    RewrittenIsNotEmpty(cl, t, l);
    RestoreOfShown(canon, Rewritten(cl, t, l));
    RunRewritten(canon, cl, t, l);
  }

  lemma RewrittenIsNotEmpty(cl: Cluster, t: Table, l: Layout)
    requires Enumerates(l.order, t)
    ensures Rewritten(cl, t, l) != []
  {
  }

  // ---------------------------------------------------------------- idempotence

  lemma {:induction false} KeptAppend(n: string, a: seq<string>, b: seq<string>)
    ensures KeptRules(n, a + b) == KeptRules(n, a) + KeptRules(n, b)
  {
    hide RuleStays;
    if a == [] {
      assert a + b == b;
    } else {
      assert (a + b)[1..] == a[1..] + b;
      KeptAppend(n, a[1..], b);
    }
  }

  lemma {:induction false} KeptTwice(n: string, rules: seq<string>)
    ensures KeptRules(n, KeptRules(n, rules)) == KeptRules(n, rules)
  {
    hide RuleStays;
    if rules != [] {
      var first := if RuleStays(n, rules[0]) then [rules[0]] else [];
      KeptTwice(n, rules[1..]);
      KeptAppend(n, first, KeptRules(n, rules[1..]));
      assert first != [] ==> first[1..] == [];
    }
  }

  lemma {:induction false} KeptNone(n: string, rules: seq<string>)
    requires forall r :: r in rules ==> !RuleStays(n, r)
    ensures KeptRules(n, rules) == []
  {
    hide RuleStays;
    if rules != [] {
      KeptNone(n, rules[1..]);
    }
  }

  /** Every rule of WHISK-FIREWALL is written anew, and so are the jumps at the front. */
  lemma AddedAreRenewed(n: string)
    ensures forall r :: !RuleStays(WHISK, r)
    ensures forall r :: r in Leading(n) ==> !RuleStays(n, r)
  {
    hide Show;
    forall r ensures !RuleStays(WHISK, r) {
      WhiskLine(r);
      assert HasPrefix(FIREWALL_RULE + r, FIREWALL_RULE);
    }
    ForwardToWhisk();
    ForwardToPerContainer();
    InputToWhisk();
  }

  lemma ForwardToWhisk()
    ensures Show(Append("FORWARD", TO_WHISK)) == FIREWALL_FORWARD_RULE
  {
    assert "-A " + "FORWARD" == "-A FORWARD";
  }

  lemma ForwardToPerContainer()
    ensures Show(Append("FORWARD", TO_PER_CONTAINER)) == PER_CONTAINER_FORWARD_RULE
  {
    assert "-A " + "FORWARD" == "-A FORWARD";
  }

  lemma InputToWhisk()
    ensures Show(Append("INPUT", TO_WHISK)) == FIREWALL_INPUT_RULE
  {
    assert "-A " + "INPUT" == "-A INPUT";
  }

  lemma RenewedJumpsAreClean()
    ensures Clean(FIREWALL_FORWARD_RULE) && Clean(PER_CONTAINER_FORWARD_RULE) && Clean(FIREWALL_INPUT_RULE)
  {
    assert FIREWALL_FORWARD_RULE[|FIREWALL_FORWARD_RULE| - 1] == 'L';
    assert PER_CONTAINER_FORWARD_RULE[|PER_CONTAINER_FORWARD_RULE| - 1] == 'L';
    assert FIREWALL_INPUT_RULE[|FIREWALL_INPUT_RULE| - 1] == 'L';
  }

  /** Rewriting a rewritten chain changes nothing. */
  lemma TargetChainTwice(canon: string -> string, cl: Cluster, t: Table, n: string)
    requires n in t.Keys + {WHISK, PER_CONTAINER}
    ensures TargetChain(canon, cl, Target(canon, cl, t), n) == TargetChain(canon, cl, t, n)
  {
    hide WhiskRules, Leading, KeptRules, RuleStays;
    AddedAreRenewed(n);
    var leading, kept, closing := Leading(n), KeptRules(n, RulesOf(t, n)), Closing(canon, cl, n);
    KeptAppend(n, leading + kept, closing);
    KeptAppend(n, leading, kept);
    KeptNone(n, leading);
    KeptNone(n, closing);
    KeptTwice(n, RulesOf(t, n));
    assert [] + kept + [] == kept;
  }

  lemma TargetTwice(canon: string -> string, cl: Cluster, t: Table)
    ensures Target(canon, cl, Target(canon, cl, t)) == Target(canon, cl, t)
  {
    hide TargetChain;
    var once := Target(canon, cl, t);
    assert once.Keys == t.Keys + {WHISK, PER_CONTAINER};
    forall n | n in once ensures TargetChain(canon, cl, once, n) == once[n] {
      TargetChainTwice(canon, cl, t, n);
    }
  }

  /** The target is again a table as the kernel holds it. */
  lemma TargetIsWellFormed(canon: string -> string, cl: Cluster, t: Table)
    requires WellFormed(canon, t) && Kernel(canon, cl)
    ensures WellFormed(canon, Target(canon, cl, t))
  {
    hide WhiskRules, KeptRules, Leading, StoredRule, TargetChain;
    ChainNames();
    var after := Target(canon, cl, t);
    forall n, i | n in after && 0 <= i < |after[n].rules| ensures StoredRule(canon, n, after[n].rules[i]) {
      TargetChainIsStored(canon, cl, t, n, i);
    }
    forall n | n in after { TargetPolicy(canon, cl, t, n); }
  }

  lemma TargetPolicy(canon: string -> string, cl: Cluster, t: Table, n: string)
    requires n in t.Keys + {WHISK, PER_CONTAINER}
    ensures TargetChain(canon, cl, t, n).policy == if n in t then t[n].policy else NO_POLICY
  {
  }

  lemma TargetChainIsStored(canon: string -> string, cl: Cluster, t: Table, n: string, i: nat)
    requires WellFormed(canon, t) && Kernel(canon, cl) && n in t.Keys + {WHISK, PER_CONTAINER}
    requires i < |TargetChain(canon, cl, t, n).rules|
    ensures StoredRule(canon, n, TargetChain(canon, cl, t, n).rules[i])
  {
    hide WhiskRules, KeptRules, Leading, StoredRule;
    var r := TargetChain(canon, cl, t, n).rules[i];
    assert r in Leading(n) || r in KeptRules(n, RulesOf(t, n)) || r in Closing(canon, cl, n);
    LeadingIsStored(canon, n);
    KeptRulesMembers(n, RulesOf(t, n));
  }

  lemma LeadingIsStored(canon: string -> string, n: string)
    requires canon(TO_WHISK) == TO_WHISK && canon(TO_PER_CONTAINER) == TO_PER_CONTAINER
    ensures forall r :: r in Leading(n) ==> StoredRule(canon, n, r)
  {
    hide Clean, Show;
    ForwardToWhisk();
    ForwardToPerContainer();
    InputToWhisk();
    RenewedJumpsAreClean();
    forall r | r in Leading(n) ensures Show(Append(n, r)) == "-A " + n + r { ShowsAppend(n, r); }
  }

  lemma ShowsAppend(n: string, r: string)
    ensures Show(Append(n, r)) == "-A " + n + r
  {
  }

  /** Idempotence: reconciling what was reconciled and restored, with the same cluster, leaves every
      chain as it is, whatever the layout of the second save. */
  lemma ReconcilingIsIdempotent(canon: string -> string, cl: Cluster, t: Table, l: Layout, again: Layout)
    requires WellFormed(canon, t) && Scannable(t, l) && Kernel(canon, cl)
    requires Scannable(Target(canon, cl, t), again)
    ensures var once := Restore(canon, Lines(Reconciled(cl, ScanLines(Save(t, l)))));
            once.Some? && Enumerates(again.order, once.value)
            && Restore(canon, Lines(Reconciled(cl, ScanLines(Save(once.value, again))))) == once
  {
    hide Restore, Reconciled, Save, Target, ScanLines, Lines, WellFormed, Kernel;
    ReconcilingRestoresTarget(canon, cl, t, l);
    TargetIsWellFormed(canon, cl, t);
    ReconcilingRestoresTarget(canon, cl, Target(canon, cl, t), again);
    TargetTwice(canon, cl, t);
  }

  // ---------------------------------------------------------------- foreign rules

  /** A rule that is none of the reconciler's own. */
  predicate Foreign(n: string, rule: string) { n != WHISK && rule !in Leading(n) }

  function ForeignRules(n: string, rules: seq<string>): seq<string> {
    if rules == [] then []
    else (if Foreign(n, rules[0]) then [rules[0]] else []) + ForeignRules(n, rules[1..])
  }

  lemma {:induction false} ForeignAppend(n: string, a: seq<string>, b: seq<string>)
    ensures ForeignRules(n, a + b) == ForeignRules(n, a) + ForeignRules(n, b)
  {
    hide Foreign;
    if a == [] {
      assert a + b == b && [] + ForeignRules(n, b) == ForeignRules(n, b);
    } else {
      var first := if Foreign(n, a[0]) then [a[0]] else [];
      assert (a + b)[0] == a[0] && (a + b)[1..] == a[1..] + b;
      ForeignAppend(n, a[1..], b);
      assert ForeignRules(n, a) == first + ForeignRules(n, a[1..]);
      assert first + (ForeignRules(n, a[1..]) + ForeignRules(n, b)) == first + ForeignRules(n, a[1..]) + ForeignRules(n, b);
    }
  }

  lemma {:induction false} ForeignNone(n: string, rules: seq<string>)
    requires forall r :: r in rules ==> !Foreign(n, r)
    ensures ForeignRules(n, rules) == []
  {
    hide Foreign;
    if rules != [] {
      ForeignNone(n, rules[1..]);
    }
  }

  /** Dropping the renewed rules keeps the foreign ones exactly when none of them looks renewed. */
  lemma {:induction false} KeptForeign(n: string, rules: seq<string>)
    ensures |ForeignRules(n, KeptRules(n, rules))| <= |ForeignRules(n, rules)|
    ensures ForeignRules(n, KeptRules(n, rules)) == ForeignRules(n, rules)
       <==> forall r :: r in rules && Foreign(n, r) ==> RuleStays(n, r)
  {
    hide RuleStays, Foreign;
    if rules != [] {
      var first := if RuleStays(n, rules[0]) then [rules[0]] else [];
      KeptForeign(n, rules[1..]);
      ForeignAppend(n, first, KeptRules(n, rules[1..]));
      assert first != [] ==> first[1..] == [];
      var kept, all := ForeignRules(n, KeptRules(n, rules[1..])), ForeignRules(n, rules[1..]);
      assert ([rules[0]] + kept)[1..] == kept && ([rules[0]] + all)[1..] == all;
      assert [] + kept == kept && [] + all == all;
      assert ForeignRules(n, KeptRules(n, rules)) == ForeignRules(n, first) + kept;
      assert ForeignRules(n, first) == if first != [] && Foreign(n, rules[0]) then [rules[0]] else [];
    }
  }

  lemma TargetForeign(canon: string -> string, cl: Cluster, t: Table, n: string)
    requires n in t
    ensures ForeignRules(n, Target(canon, cl, t)[n].rules) == ForeignRules(n, KeptRules(n, t[n].rules))
  {
    hide WhiskRules, KeptRules, Leading;
    var leading, kept, closing := Leading(n), KeptRules(n, t[n].rules), Closing(canon, cl, n);
    ForeignAppend(n, leading + kept, closing);
    ForeignAppend(n, leading, kept);
    ForeignNone(n, leading);
    ForeignNone(n, closing);
  }

  /** All rules that are not the reconciler's own keep their content and order, in every chain,
      if and only if none of their saved lines begins like a line that is written anew. */
  lemma ForeignRulesArePreserved(canon: string -> string, cl: Cluster, t: Table)
    ensures (forall n :: n in t ==> ForeignRules(n, Target(canon, cl, t)[n].rules) == ForeignRules(n, t[n].rules))
       <==> (forall n, r :: n in t && r in t[n].rules && Foreign(n, r) ==> RuleStays(n, r))
  {
    hide TargetChain, KeptRules, ForeignRules, Foreign, RuleStays;
    forall n | n in t
      ensures ForeignRules(n, Target(canon, cl, t)[n].rules) == ForeignRules(n, t[n].rules)
         <==> forall r :: r in t[n].rules && Foreign(n, r) ==> RuleStays(n, r)
    {
      TargetForeign(canon, cl, t, n);
      KeptForeign(n, t[n].rules);
    }
  }

  /** A rule that cannot be told from the reconciler's own by the beginning of its line. */
  predicate LooksOurs(n: string, rule: string) {
    || HasPrefix(n, WHISK)
    || (n == "FORWARD" && (HasPrefix(rule, TO_WHISK) || HasPrefix(rule, TO_PER_CONTAINER)))
    || (n == "INPUT" && HasPrefix(rule, TO_WHISK))
  }

  /** Which rules look renewed: those of chains whose name begins with WHISK-FIREWALL, and those of
      FORWARD and INPUT that begin with a jump to one of the two chains. */
  lemma LooksRenewed(n: string, rule: string)
    requires Word(n) && RuleText(rule)
    ensures !RuleStays(n, rule) <==> LooksOurs(n, rule)
  {
    hide Show;
    ChainNames();
    ForwardToWhisk();
    ForwardToPerContainer();
    InputToWhisk();
    LooksLikeJump(n, rule, "FORWARD", TO_WHISK);
    LooksLikeJump(n, rule, "FORWARD", TO_PER_CONTAINER);
    LooksLikeJump(n, rule, "INPUT", TO_WHISK);
    LooksLikeChain(n, rule);
  }

  lemma LooksLikeJump(n: string, rule: string, chain: string, jump: string)
    requires Word(n) && RuleText(rule) && Word(chain) && jump != "" && jump[0] == ' '
    ensures HasPrefix(Show(Append(n, rule)), Show(Append(chain, jump))) <==> n == chain && HasPrefix(rule, jump)
  {
    hide Plain, Parse;
    var line, start := Show(Append(n, rule)), Show(Append(chain, jump));
    if n == chain && HasPrefix(rule, jump) {
      assert line == start + rule[|jump|..];
    }
    if start <= line {
      var rest := line[|start|..];
      assert line == start + rest;
      assert line == Show(Append(chain, jump + rest));
      PlainRule(n, rule);
      PlainRule(chain, jump + rest);
      ParseOfShow(Append(n, rule));
      ParseOfShow(Append(chain, jump + rest));
    }
  }

  lemma PlainRule(n: string, rule: string)
    requires Word(n) && RuleText(rule)
    ensures Plain(Append(n, rule))
  {
  }

  lemma LooksLikeChain(n: string, rule: string)
    requires Word(n) && RuleText(rule)
    ensures HasPrefix(Show(Append(n, rule)), FIREWALL_RULE) <==> HasPrefix(n, WHISK)
  {
    var line := Show(Append(n, rule));
    ShowsAppend(n, rule);
    WhiskPrefix();
    assert line[3..] == n + rule && line[..3] == "-A ";
    PrefixAfter("-A ", WHISK, n + rule);
    WordPrefix(WHISK, n, rule);
    assert FIREWALL_RULE == "-A " + WHISK && line == "-A " + (n + rule);
  }

  lemma WhiskPrefix()
    ensures FIREWALL_RULE == "-A " + WHISK && ' ' !in WHISK
  {
  }

  lemma PrefixAfter(start: string, a: string, b: string)
    ensures start + a <= start + b <==> a <= b
  {
    assert (start + a)[|start|..] == a && (start + b)[|start|..] == b;
    if start + a <= start + b {
      assert start + b == (start + a) + (start + b)[|start + a|..];
      assert b == a + (start + b)[|start + a|..];
    }
  }

  /** What has no space is a prefix of a word and its rule only if it is one of the word. */
  lemma WordPrefix(prefix: string, word: string, rule: string)
    requires ' ' !in prefix && ' ' !in word && RuleText(rule)
    ensures prefix <= word + rule <==> prefix <= word
  {
    IndexAfter(word, rule, ' ');
    if prefix <= word + rule {
      assert forall i :: 0 <= i < |prefix| ==> (word + rule)[i] == prefix[i] != ' ';
      assert prefix == (word + rule)[..|prefix|];
    }
  }

  /** The restored table at a glance: the jumps come first in FORWARD and INPUT, WHISK-FIREWALL holds
      exactly the wanted rules, PER-CONTAINER-FIREWALL exists, and no policy changes. */
  lemma WhatReconcilingDoes(canon: string -> string, cl: Cluster, t: Table, l: Layout) returns (after: Table)
    requires WellFormed(canon, t) && Scannable(t, l) && Kernel(canon, cl)
    ensures Restore(canon, Lines(Reconciled(cl, ScanLines(Save(t, l))))) == Some(after)
    ensures after == Target(canon, cl, t)
    ensures after.Keys == t.Keys + {WHISK, PER_CONTAINER}
    ensures after["FORWARD"].rules == [TO_PER_CONTAINER, TO_WHISK] + KeptRules("FORWARD", t["FORWARD"].rules)
    ensures after["INPUT"].rules == [TO_WHISK] + KeptRules("INPUT", t["INPUT"].rules)
    ensures after[WHISK].rules == Canonical(canon, WhiskRules(cl))
    ensures forall n :: n in t ==> after[n].policy == t[n].policy
    ensures forall n :: n in t && n !in {"FORWARD", "INPUT", WHISK} ==> after[n].rules == KeptRules(n, t[n].rules)
  {
    hide Restore, Reconciled, Save, ScanLines, Lines, WhiskRules, KeptRules, StoredRule, Canonical, Target;
    ReconcilingRestoresTarget(canon, cl, t, l);
    after := Target(canon, cl, t);
    TargetRules(canon, cl, t);
  }

  lemma TargetRules(canon: string -> string, cl: Cluster, t: Table)
    requires BUILT_IN <= t.Keys
    ensures var after := Target(canon, cl, t);
      && after.Keys == t.Keys + {WHISK, PER_CONTAINER}
      && after["FORWARD"].rules == [TO_PER_CONTAINER, TO_WHISK] + KeptRules("FORWARD", t["FORWARD"].rules)
      && after["INPUT"].rules == [TO_WHISK] + KeptRules("INPUT", t["INPUT"].rules)
      && after[WHISK].rules == Canonical(canon, WhiskRules(cl))
      && (forall n :: n in t ==> after[n].policy == t[n].policy)
      && (forall n :: n in t && n !in {"FORWARD", "INPUT", WHISK} ==> after[n].rules == KeptRules(n, t[n].rules))
  {
    hide WhiskRules, KeptRules, Canonical, RuleStays;
    ChainNames();
    AddedAreRenewed(WHISK);
    KeptNone(WHISK, RulesOf(t, WHISK));
    forall a: seq<string> ensures [] + a + [] == a && [] + [] + a == a && a + [] == a {}
  }

  /** In the table restored from the reconciled text, all rules that are not the reconciler's own keep
      their content and order if and only if none of them looks like one of its own. */
  lemma ForeignRulesSurviveIff(canon: string -> string, cl: Cluster, t: Table, l: Layout) returns (after: Table)
    requires WellFormed(canon, t) && Scannable(t, l) && Kernel(canon, cl)
    ensures Restore(canon, Lines(Reconciled(cl, ScanLines(Save(t, l))))) == Some(after)
    ensures (forall n :: n in t ==> n in after && ForeignRules(n, after[n].rules) == ForeignRules(n, t[n].rules))
       <==> (forall n, r :: n in t && r in t[n].rules && Foreign(n, r) ==> !LooksOurs(n, r))
  {
    hide Restore, Lines, Reconciled, ScanLines, Save, Kernel, TargetChain, ForeignRules, Foreign, RuleStays, LooksOurs, Clean;
    ReconcilingRestoresTarget(canon, cl, t, l);
    after := Target(canon, cl, t);
    ForeignRulesArePreserved(canon, cl, t);
    forall n, r | n in t && r in t[n].rules ensures RuleStays(n, r) <==> !LooksOurs(n, r) {
      var i :| 0 <= i < |t[n].rules| && t[n].rules[i] == r;
      assert StoredRule(canon, n, t[n].rules[i]);
      LooksRenewed(n, r);
    }
  }

  /** What is lost: a foreign chain whose name extends WHISK-FIREWALL keeps none of its rules. */
  lemma LookAlikeChainIsEmptied(canon: string -> string, cl: Cluster, t: Table, l: Layout, n: string) returns (after: Table)
    requires WellFormed(canon, t) && Scannable(t, l) && Kernel(canon, cl)
    requires n in t && n !in {WHISK, "FORWARD", "INPUT"} && HasPrefix(n, WHISK)
    ensures Restore(canon, Lines(Reconciled(cl, ScanLines(Save(t, l))))) == Some(after)
    ensures n in after && after[n].rules == []
  {
    hide Restore, Lines, Reconciled, ScanLines, Save, Kernel, Clean, RuleStays;
    after := WhatReconcilingDoes(canon, cl, t, l);
    forall r | r in t[n].rules ensures !RuleStays(n, r) {
      var i :| 0 <= i < |t[n].rules| && t[n].rules[i] == r;
      assert StoredRule(canon, n, t[n].rules[i]);
      LooksRenewed(n, r);
    }
    KeptNone(n, t[n].rules);
  }

  // ---------------------------------------------------------------- the text alone

  lemma ChainsAreFound(cl: Cluster, lines: seq<string>)
    ensures Missing(Reconciled(cl, lines)) == []
  {
    hide Stays, WhiskRules, Appends, Show;
    FilterMember(Stays, lines);
    ShownChains();
    ShownMissing(lines);
    WhichStay(Declare(WHISK, NO_POLICY, NO_COUNTERS));
    WhichStay(Declare(PER_CONTAINER, NO_POLICY, NO_COUNTERS));
  }

  lemma StaysOfReconciled(cl: Cluster, lines: seq<string>)
    ensures Filter(Stays, Reconciled(cl, lines)) == Filter(Stays, lines) + ShowAll(Missing(lines)) + ShowAll(JUMPS)
  {
    hide Stays, WhiskRules, Appends, Show, Missing, Filter, ShowAll;
    var a, b, c, d := Filter(Stays, lines), ShowAll(Missing(lines)), ShowAll(JUMPS), ShowAll(Appends(WHISK, WhiskRules(cl)));
    FilterAppend(Stays, a + b + c + d, ShowAll([Commit]));
    FilterAppend(Stays, a + b + c, d);
    FilterAppend(Stays, a + b, c);
    FilterAppend(Stays, a, b);
    FilterMember(Stays, lines);
    FilterAll(Stays, a);
    AllStay(Missing(lines), lines);
    AllStay(JUMPS, lines);
    NoneStay(WhiskRules(cl));
  }

  lemma AllStay(cs: seq<Command>, lines: seq<string>)
    requires cs == Missing(lines) || cs == JUMPS
    ensures Filter(Stays, ShowAll(cs)) == ShowAll(cs)
  {
    hide Stays, Show, Filter;
    forall i | 0 <= i < |cs| ensures Stays(ShowAll(cs)[i]) {
      assert cs[i].Declare? || cs[i].Insert?;
      WhichStay(cs[i]);
    }
    FilterAll(Stays, ShowAll(cs));
  }

  lemma NoneStay(rules: seq<string>)
    ensures Filter(Stays, ShowAll(Appends(WHISK, rules))) == [] && Filter(Stays, ShowAll([Commit])) == []
  {
    hide Stays, Show, Filter, Renewed;
    AddedAreRenewed(WHISK);
    var cs := Appends(WHISK, rules);
    forall i | 0 <= i < |cs| ensures !Stays(ShowAll(cs)[i]) {
      WhichStay(cs[i]);
    }
    WhichStay(Commit);
    FilterNone(Stays, ShowAll(cs));
    FilterNone(Stays, ShowAll([Commit]));
  }

  /** The text is idempotent only through the kernel: reconciling the reconciled text again, without
      restoring and saving in between, always leaves three more jumps in it. */
  lemma RawTextIsNotAFixedPoint(cl: Cluster, lines: seq<string>)
    ensures |Reconciled(cl, Reconciled(cl, lines))| == |Reconciled(cl, lines)| + 3
  {
    hide Stays, WhiskRules, Missing, Filter;
    ChainsAreFound(cl, lines);
    StaysOfReconciled(cl, lines);
  }
}
