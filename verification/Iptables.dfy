/** What the text exchanged with `iptables-save` and `iptables-restore` means: a filter table, the
    commands that build it, their one-line form, and running them. */
module Iptables {
  import opened Common
  import opened Text

  // ---------------------------------------------------------------- commands and their text

  /** One line. A rule is everything after the chain name, with its leading space. */
  datatype Command =
    | Begin(table: string)
    | Declare(chain: string, policy: string, counters: string)
    | Append(chain: string, rule: string)
    | Insert(chain: string, rule: string)
    | Commit
    | Comment(text: string)
    | Unknown(text: string)

  function Show(c: Command): string {
    match c
    case Begin(table) => "*" + table
    case Declare(chain, policy, counters) => ":" + chain + " " + policy + " " + counters
    case Append(chain, rule) => "-A " + chain + rule
    case Insert(chain, rule) => "-I " + chain + rule
    case Commit => "COMMIT"
    case Comment(text) => "#" + text
    case Unknown(text) => text
  }

  function ParseDeclaration(s: string): Command {
    var i := IndexOf(s, ' ');
    if i == |s| then Unknown(":" + s)
    else
      var rest := s[i + 1..];
      var j := IndexOf(rest, ' ');
      Declare(s[..i], rest[..j], if j < |rest| then rest[j + 1..] else "")
  }

  function ParseRule(s: string, atFront: bool): Command {
    var i := IndexOf(s, ' ');
    if atFront then Insert(s[..i], s[i..]) else Append(s[..i], s[i..])
  }

  function Parse(line: string): Command {
    if line == "" then Unknown(line)
    else if line[0] == '*' then Begin(line[1..])
    else if line[0] == ':' then ParseDeclaration(line[1..])
    else if line[0] == '#' then Comment(line[1..])
    else if HasPrefix(line, "-A ") then ParseRule(line[3..], false)
    else if HasPrefix(line, "-I ") then ParseRule(line[3..], true)
    else if line == "COMMIT" then Commit
    else Unknown(line)
  }

  predicate Word(s: string) { s != "" && ' ' !in s && '\n' !in s }

  predicate RuleText(rule: string) { rule == "" || rule[0] == ' ' }

  predicate Plain(c: Command) {
    match c
    case Declare(chain, policy, _) => Word(chain) && Word(policy)
    case Append(chain, rule) => Word(chain) && RuleText(rule)
    case Insert(chain, rule) => Word(chain) && RuleText(rule)
    case Unknown(_) => false
    case _ => true
  }

  lemma ParseOfDeclare(chain: string, policy: string, counters: string)
    requires Word(chain) && Word(policy)
    ensures ParseDeclaration(chain + " " + policy + " " + counters) == Declare(chain, policy, counters)
  {
    hide IndexOf;
    var rest := policy + (" " + counters);
    DeclarationInParts(chain, " ", policy, counters);
    FirstWord(chain, rest);
    FirstWord(policy, counters);
  }

  lemma DeclarationInParts(chain: string, space: string, policy: string, counters: string)
    ensures chain + space + policy + space + counters == chain + (space + (policy + (space + counters)))
  {
    var last := space + counters;
    assert chain + space + policy + space + counters == chain + space + policy + last;
    assert chain + space + policy + last == chain + space + (policy + last);
    assert chain + space + (policy + last) == chain + (space + (policy + last));
  }

  /** Cutting a text at its first space. */
  lemma FirstWord(word: string, rest: string)
    requires ' ' !in word
    ensures var s := word + (" " + rest); var i := IndexOf(s, ' ');
      i == |word| < |s| && s[..i] == word && s[i + 1..] == rest
  {
    IndexAfter(word, " " + rest, ' ');
  }

  lemma ParseOfRule(chain: string, rule: string, atFront: bool)
    requires Word(chain) && RuleText(rule)
    ensures ParseRule(chain + rule, atFront) == if atFront then Insert(chain, rule) else Append(chain, rule)
  {
    IndexAfter(chain, rule, ' ');
  }

  /** Every plain command is read back from the line it is shown as. */
  lemma ParseOfShow(c: Command)
    requires Plain(c)
    ensures Parse(Show(c)) == c
  {
    hide ParseDeclaration, ParseRule;
    match c
    case Begin(table) => assert ("*" + table)[1..] == table;
    case Declare(chain, policy, counters) => ParseOfShownDeclare(chain, policy, counters);
    case Append(chain, rule) => ParseOfShownRule(chain, rule, "-A ", false);
    case Insert(chain, rule) => ParseOfShownRule(chain, rule, "-I ", true);
    case Comment(text) => assert ("#" + text)[1..] == text;
    case _ =>
  }

  lemma ParseOfShownDeclare(chain: string, policy: string, counters: string)
    requires Word(chain) && Word(policy)
    ensures Parse(":" + chain + " " + policy + " " + counters) == Declare(chain, policy, counters)
  {
    hide ParseDeclaration, ParseRule;
    var line := ":" + chain + " " + policy + " " + counters;
    assert line[0] == ':' && line[1..] == chain + " " + policy + " " + counters;
    ParseOfDeclare(chain, policy, counters);
  }

  lemma ParseOfShownRule(chain: string, rule: string, verb: string, atFront: bool)
    requires Word(chain) && RuleText(rule)
    requires verb == if atFront then "-I " else "-A "
    ensures Parse(verb + chain + rule) == if atFront then Insert(chain, rule) else Append(chain, rule)
  {
    hide ParseDeclaration, ParseRule;
    var line := verb + chain + rule;
    assert line[0] == '-' && line[1] == if atFront then 'I' else 'A';
    assert line[..3] == verb && line[3..] == chain + rule;
    ParseOfRule(chain, rule, atFront);
  }

  function ShowAll(cs: seq<Command>): (lines: seq<string>)
    ensures |lines| == |cs| && forall i :: 0 <= i < |cs| ==> lines[i] == Show(cs[i])
  {
    if cs == [] then [] else [Show(cs[0])] + ShowAll(cs[1..])
  }

  function ParseAll(lines: seq<string>): (cs: seq<Command>)
    ensures |cs| == |lines| && forall i :: 0 <= i < |lines| ==> cs[i] == Parse(lines[i])
  {
    if lines == [] then [] else [Parse(lines[0])] + ParseAll(lines[1..])
  }

  lemma ParseAllOfShowAll(cs: seq<Command>)
    requires forall i :: 0 <= i < |cs| ==> Plain(cs[i])
    ensures ParseAll(ShowAll(cs)) == cs
  {
    forall i | 0 <= i < |cs| ensures Parse(ShowAll(cs)[i]) == cs[i] {
      ParseOfShow(cs[i]);
    }
  }

  // ---------------------------------------------------------------- tables and restoring them

  datatype Chain = Chain(policy: string, rules: seq<string>)

  type Table = map<string, Chain>

  datatype Progress = Outside | Inside(table: Table) | Committed(table: Table) | Failed

  /** One line of a restore. `canon` is how the kernel stores a rule. */
  function Exec(canon: string -> string, st: Progress, c: Command): Progress {
    match st
    case Outside => if c == Begin("filter") then Inside(map[]) else if c.Comment? then st else Failed
    case Inside(t) => (
      match c
      case Declare(chain, policy, _) => Inside(t[chain := Chain(policy, [])])
      case Append(chain, rule) =>
        if chain in t then Inside(t[chain := t[chain].(rules := t[chain].rules + [canon(rule)])]) else Failed
      case Insert(chain, rule) =>
        if chain in t then Inside(t[chain := t[chain].(rules := [canon(rule)] + t[chain].rules)]) else Failed
      case Commit => Committed(t)
      case Comment(_) => st
      case _ => Failed)
    case Committed(_) => if c.Comment? then st else Failed
    case Failed => Failed
  }

  function ExecAll(canon: string -> string, st: Progress, cs: seq<Command>): Progress
    decreases |cs|
  {
    if cs == [] then st else ExecAll(canon, Exec(canon, st, cs[0]), cs[1..])
  }

  lemma {:induction false} ExecAllAppend(canon: string -> string, st: Progress, a: seq<Command>, b: seq<Command>)
    ensures ExecAll(canon, st, a + b) == ExecAll(canon, ExecAll(canon, st, a), b)
    decreases |a|
  {
    if a == [] {
      assert a + b == b;
    } else {
      assert (a + b)[1..] == a[1..] + b;
      ExecAllAppend(canon, Exec(canon, st, a[0]), a[1..], b);
    }
  }

  /** The table a restore of this text commits, if it succeeds. */
  function Restore(canon: string -> string, text: string): Option<Table> {
    match Split(text)
    case None => None
    case Some(lines) =>
      match ExecAll(canon, Outside, ParseAll(lines))
      case Committed(t) => Some(t)
      case _ => None
  }

  // ---------------------------------------------------------------- saving a table

  const BUILT_IN: set<string> := {"INPUT", "FORWARD", "OUTPUT"}

  /** Choices a save makes: the order of the chains, packet counters, and the comments around it. */
  datatype Layout = Layout(order: seq<string>, counters: string -> string, header: seq<string>, trailer: seq<string>)

  function Comments(texts: seq<string>): (cs: seq<Command>)
    ensures |cs| == |texts| && forall i :: 0 <= i < |texts| ==> cs[i] == Comment(texts[i])
  {
    if texts == [] then [] else [Comment(texts[0])] + Comments(texts[1..])
  }

  /** Chains made by users have no policy and no counters. */
  const NO_POLICY := "-"
  const NO_COUNTERS := "[0:0]"

  function Declaration(t: Table, n: string, counters: string -> string): Command
    requires n in t
  {
    Declare(n, t[n].policy, if t[n].policy == NO_POLICY then NO_COUNTERS else counters(n))
  }

  function Declarations(t: Table, order: seq<string>, counters: string -> string): (cs: seq<Command>)
    requires forall n :: n in order ==> n in t
    ensures |cs| == |order| && forall i :: 0 <= i < |order| ==> cs[i] == Declaration(t, order[i], counters)
  {
    if order == [] then [] else [Declaration(t, order[0], counters)] + Declarations(t, order[1..], counters)
  }

  function Appends(n: string, rules: seq<string>): (cs: seq<Command>)
    ensures |cs| == |rules| && forall i :: 0 <= i < |rules| ==> cs[i] == Append(n, rules[i])
  {
    if rules == [] then [] else [Append(n, rules[0])] + Appends(n, rules[1..])
  }

  lemma AppendsSplit(n: string, a: seq<string>, b: seq<string>)
    ensures Appends(n, a + b) == Appends(n, a) + Appends(n, b)
  {
  }

  function AllAppends(t: Table, order: seq<string>): seq<Command>
    requires forall n :: n in order ==> n in t
  {
    if order == [] then [] else Appends(order[0], t[order[0]].rules) + AllAppends(t, order[1..])
  }

  ghost predicate Enumerates(order: seq<string>, t: Table) {
    && (forall n :: n in order <==> n in t)
    && (forall i, j :: 0 <= i < j < |order| ==> order[i] != order[j])
  }

  ghost function Saved(t: Table, l: Layout): seq<Command>
    requires Enumerates(l.order, t)
  {
    Comments(l.header) + [Begin("filter")] + Declarations(t, l.order, l.counters) + AllAppends(t, l.order)
      + [Commit] + Comments(l.trailer)
  }

  ghost function Save(t: Table, l: Layout): string
    requires Enumerates(l.order, t)
  {
    Lines(ShowAll(Saved(t, l)))
  }

  /** A rule as the kernel stores it, that fits a line of its chain. */
  predicate StoredRule(canon: string -> string, n: string, rule: string) {
    canon(rule) == rule && RuleText(rule) && Clean("-A " + n + rule)
  }

  /** A filter table as the kernel holds it. */
  ghost predicate WellFormed(canon: string -> string, t: Table) {
    && BUILT_IN <= t.Keys
    && forall n :: n in t ==>
         && Word(n) && Word(t[n].policy)
         && (n !in BUILT_IN ==> t[n].policy == NO_POLICY)
         && (n in BUILT_IN ==> t[n].policy != NO_POLICY)
         && forall i :: 0 <= i < |t[n].rules| ==> StoredRule(canon, n, t[n].rules[i])
  }

  /** A save whose lines can all be scanned. */
  ghost predicate Scannable(t: Table, l: Layout) {
    && Enumerates(l.order, t)
    && (forall i :: 0 <= i < |l.header| ==> Clean("#" + l.header[i]))
    && (forall i :: 0 <= i < |l.trailer| ==> Clean("#" + l.trailer[i]))
    && (forall n :: n in t ==> Clean(Show(Declaration(t, n, l.counters))))
  }

  lemma {:induction false} AllAppendsShape(t: Table, order: seq<string>)
    requires forall n :: n in order ==> n in t
    ensures forall c :: c in AllAppends(t, order) ==> c.Append? && c.chain in order && c.rule in t[c.chain].rules
  {
    if order != [] {
      AllAppendsShape(t, order[1..]);
    }
  }

  /** A command on a line that can be scanned and read back. */
  predicate Presentable(c: Command) { Plain(c) && Clean(Show(c)) }

  lemma SavedShape(canon: string -> string, t: Table, l: Layout)
    requires WellFormed(canon, t) && Scannable(t, l)
    ensures forall c :: c in Saved(t, l) ==> Presentable(c)
  {
    hide Presentable, WellFormed, Clean, Declarations, AllAppends, Comments;
    DeclarationsShape(canon, t, l);
    RulesShape(canon, t, l);
    CommentsShape(l.header);
    CommentsShape(l.trailer);
    MarkersShape();
  }

  lemma DeclarationsShape(canon: string -> string, t: Table, l: Layout)
    requires WellFormed(canon, t) && Scannable(t, l)
    ensures forall c :: c in Declarations(t, l.order, l.counters) ==> Presentable(c)
  {
    hide Clean, Show;
  }

  lemma RulesShape(canon: string -> string, t: Table, l: Layout)
    requires WellFormed(canon, t) && Enumerates(l.order, t)
    ensures forall c :: c in AllAppends(t, l.order) ==> Presentable(c)
  {
    hide Clean;
    AllAppendsShape(t, l.order);
    forall c | c in AllAppends(t, l.order) ensures Presentable(c) {
      assert StoredRule(canon, c.chain, c.rule);
    }
  }

  lemma CommentsShape(texts: seq<string>)
    requires forall i :: 0 <= i < |texts| ==> Clean("#" + texts[i])
    ensures forall c :: c in Comments(texts) ==> Presentable(c)
  {
    hide Clean;
  }

  lemma MarkersShape()
    ensures Presentable(Begin("filter")) && Presentable(Commit)
  {
    assert Show(Begin("filter")) == "*filter";
  }
}
