/** What the rules of WHISK-FIREWALL do to a packet: reading rule texts the way iptables does, the
    first matching rule decides, and the decision is the intended one for address lists of any length. */
module FirewallMeaning {
  import opened Common
  import opened Text
  import opened Iptables
  import opened Firewall
  import opened FirewallTheorems

  // ---------------------------------------------------------------- reading a rule

  /** The words of a rule. A quoted word may contain spaces. */
  function Tokens(s: string): Option<seq<string>>
    decreases |s|
  {
    if s == "" then Some([])
    else if s[0] == ' ' then Tokens(s[1..])
    else if s[0] == '"' then
      var i := IndexOf(s[1..], '"');
      if i == |s| - 1 then None
      else Prepend(s[1..][..i], Tokens(s[i + 2..]))
    else
      var i := IndexOf(s, ' ');
      Prepend(s[..i], Tokens(s[i..]))
  }

  function Prepend<T>(x: T, rest: Option<seq<T>>): Option<seq<T>> {
    if rest.None? then None else Some([x] + rest.value)
  }

  datatype Keyword = Not | InBridge | OutBridge | Source | Destination | CtState | Jump | Ignored | Unsupported

  function KeywordOf(token: string): Keyword {
    if token == "!" then Not
    else if token == "-i" then InBridge
    else if token == "-o" then OutBridge
    else if token == "-s" then Source
    else if token == "-d" then Destination
    else if token == "-j" then Jump
    else if token == "--ctstate" then CtState
    else if token in ["-m", "--comment", "--reject-with"] then Ignored
    else Unsupported
  }

  datatype Test = Test(keyword: Keyword, negated: bool, value: string)

  datatype Rule = Rule(tests: seq<Test>, target: Option<string>)

  /** Options may come in any order; a `!` negates the next one. */
  function ParseOptions(tokens: seq<string>, negated: bool): Option<Rule>
    decreases |tokens|
  {
    if tokens == [] then if negated then None else Some(Rule([], None))
    else
      var keyword := KeywordOf(tokens[0]);
      if keyword == Not then if negated then None else ParseOptions(tokens[1..], true)
      else if keyword == Unsupported || |tokens| == 1 then None
      else WithOption(keyword, negated, tokens[1], ParseOptions(tokens[2..], false))
  }

  function WithOption(keyword: Keyword, negated: bool, value: string, rest: Option<Rule>): Option<Rule> {
    if rest.None? then None
    else if keyword == Ignored then rest
    else if keyword == Jump then
      if negated || rest.value.target.Some? then None else Some(rest.value.(target := Some(value)))
    else Some(rest.value.(tests := [Test(keyword, negated, value)] + rest.value.tests))
  }

  // ---------------------------------------------------------------- what a rule means

  datatype Packet = Packet(source: nat, destination: nat, inBridge: string, outBridge: string, state: string)

  /** Whether an address or a network, as text, covers an address. */
  type Covers = (string, nat) -> bool

  predicate Passes(covers: Covers, test: Test, p: Packet) {
    test.negated !=
      match test.keyword
      case InBridge => p.inBridge == test.value
      case OutBridge => p.outBridge == test.value
      case Source => covers(test.value, p.source)
      case Destination => covers(test.value, p.destination)
      case CtState => p.state == test.value
      case _ => false
  }

  predicate PassesAll(covers: Covers, tests: seq<Test>, p: Packet) {
    forall i :: 0 <= i < |tests| ==> Passes(covers, tests[i], p)
  }

  function Parsed(rule: string): Option<Rule> {
    var tokens := Tokens(rule);
    if tokens.None? then None else ParseOptions(tokens.value, false)
  }

  /** The target a rule sends the packet to, if the rule applies and has one. */
  function Verdict(covers: Covers, rule: string, p: Packet): Option<string> {
    var r := Parsed(rule);
    if r.Some? && PassesAll(covers, r.value.tests, p) then r.value.target else None
  }

  function FirstMatch(covers: Covers, rules: seq<string>, p: Packet): Option<string> {
    if rules == [] then None
    else if Verdict(covers, rules[0], p).Some? then Verdict(covers, rules[0], p)
    else FirstMatch(covers, rules[1..], p)
  }

  lemma {:induction false} FirstMatchAppend(covers: Covers, a: seq<string>, b: seq<string>, p: Packet)
    ensures FirstMatch(covers, a + b, p)
         == if FirstMatch(covers, a, p).Some? then FirstMatch(covers, a, p) else FirstMatch(covers, b, p)
  {
    hide Verdict;
    if a == [] {
      assert a + b == b;
    } else {
      assert (a + b)[1..] == a[1..] + b;
      FirstMatchAppend(covers, a[1..], b, p);
    }
  }

  // ---------------------------------------------------------------- the intended decision

  function ExternalAddresses(nodes: seq<Node>): seq<string> {
    if nodes == [] then [] else External(nodes[0].addresses) + ExternalAddresses(nodes[1..])
  }

  function External(addresses: seq<NodeAddress>): seq<string> {
    if addresses == [] then []
    else (if addresses[0].kind == ExternalIP then [addresses[0].address] else []) + External(addresses[1..])
  }

  predicate AnyCovers(covers: Covers, addresses: seq<string>, destination: nat) {
    exists i :: 0 <= i < |addresses| && covers(addresses[i], destination)
  }

  /** Answers may always flow back. Of what leaves the bridge network, nodes and the cluster's API are
      rejected, then DNS is accepted, then everything else inside the cluster, the bridge network
      itself and link-local addresses are rejected. The rest is left to later chains. */
  function Intended(covers: Covers, cl: Cluster, p: Packet): string {
    if p.state == "ESTABLISHED" then "ACCEPT"
    else if p.inBridge != cl.bridge || p.outBridge == cl.bridge then "RETURN"
    else if AnyCovers(covers, ExternalAddresses(cl.nodes) + Flatten(cl.apiSubsets), p.destination) then "REJECT"
    else if AnyCovers(covers, [cl.dnsService] + Flatten(cl.dnsSubsets), p.destination) then "ACCEPT"
    else if AnyCovers(covers, ["10.0.0.0/8", cl.subnet], p.destination) then "REJECT"
    else if covers(cl.subnet, p.source) && covers("169.254.0.0/16", p.destination) then "REJECT"
    else "RETURN"
  }

  // ---------------------------------------------------------------- reading the rules back

  /** A word that needs no quotes. */
  predicate Bare(w: string) { Word(w) && '"' !in w }

  predicate SpaceFirst(rest: string) { rest == "" || rest[0] == ' ' }

  lemma TokensOfWord(w: string, rest: string)
    requires Bare(w) && SpaceFirst(rest)
    ensures Tokens(" " + w + rest) == Prepend(w, Tokens(rest))
  {
    var s := " " + w + rest;
    assert s[1..] == w + rest;
    IndexAfter(w, rest, ' ');
    assert (w + rest)[..|w|] == w && (w + rest)[|w|..] == rest;
    assert (w + rest)[0] == w[0];
  }

  lemma TokensOfQuoted(text: string)
    requires '"' !in text
    ensures Tokens(" \"" + text + "\"") == Some([text])
  {
    var s := "\"" + text + "\"";
    assert (" \"" + text + "\"")[1..] == s;
    assert s[1..] == text + "\"";
    IndexAfter(text, "\"", '"');
    assert (text + "\"")[..|text|] == text && s[|text| + 2..] == "";
    assert Tokens("") == Some([]);
    assert s[0] == '"' && IndexOf(s[1..], '"') == |text| && s[1..][..|text|] == text;
    assert [text] + [] == [text];
    assert Tokens(s) == Some([text]);
  }

  /** Words with a space before each. */
  function Spaced(words: seq<string>): string {
    if words == [] then "" else " " + words[0] + Spaced(words[1..])
  }

  lemma {:induction false} TokensOfSpaced(words: seq<string>, rest: string)
    requires SpaceFirst(rest) && Tokens(rest).Some?
    requires forall i :: 0 <= i < |words| ==> Bare(words[i])
    ensures SpaceFirst(Spaced(words) + rest)
    ensures Tokens(Spaced(words) + rest) == Some(words + Tokens(rest).value)
    decreases |words|
  {
    hide Tokens, Bare, Spaced, SpaceFirst;
    NothingSpaced(rest);
    if words == [] {
      assert words + Tokens(rest).value == Tokens(rest).value;
    } else {
      SpacedFrom(words, rest);
      TokensOfSpaced(words[1..], rest);
      TokensOfWord(words[0], Spaced(words[1..]) + rest);
      assert words + Tokens(rest).value == [words[0]] + (words[1..] + Tokens(rest).value);
    }
  }

  lemma NothingSpaced(rest: string)
    ensures Spaced([]) + rest == rest
  {
    assert "" + rest == rest;
  }

  lemma SpacedFrom(words: seq<string>, rest: string)
    requires words != []
    ensures Spaced(words) + rest == " " + words[0] + (Spaced(words[1..]) + rest) && SpaceFirst(Spaced(words) + rest)
  {
    var w, tail := words[0], Spaced(words[1..]);
    assert Spaced(words) == " " + w + tail;
    hide Spaced;
    assert (" " + w + tail) + rest == " " + w + (tail + rest);
    assert (" " + w + (tail + rest))[0] == ' ';
  }

  lemma {:induction false} SpacedAppend(a: seq<string>, b: seq<string>)
    ensures Spaced(a + b) == Spaced(a) + Spaced(b)
  {
    if a == [] {
      assert a + b == b && "" + Spaced(b) == Spaced(b);
    } else {
      assert (a + b)[1..] == a[1..] + b;
      SpacedAppend(a[1..], b);
    }
  }

  /** One option with its value. */
  lemma SpacedPair(a: string, b: string)
    ensures Spaced([a, b]) == " " + a + " " + b
  {
    assert [a, b][1..] == [b] && [b][1..] == [];
    assert Spaced([b]) == " " + b + "";
  }

  function BridgeWords(cl: Cluster): seq<string> { ["-i", cl.bridge] + ["!"] + ["-o", cl.bridge] }

  lemma SpacedBridge(cl: Cluster)
    ensures Spaced(BridgeWords(cl)) == " -i " + cl.bridge + " ! -o " + cl.bridge
  {
    SpacedAppend(["-i", cl.bridge] + ["!"], ["-o", cl.bridge]);
    SpacedAppend(["-i", cl.bridge], ["!"]);
    SpacedPair("-i", cl.bridge);
    SpacedPair("-o", cl.bridge);
    assert ["!"][1..] == [];
    assert Spaced(["!"]) == " !";
    assert " " + "-i" + " " == " -i " && " !" + " " + "-o" + " " == " ! -o ";
  }

  const COMMENT_WORDS := ["-m", "comment"] + ["--comment"]

  lemma SpacedComment()
    ensures Spaced(COMMENT_WORDS) == " -m comment --comment"
  {
    SpacedAppend(["-m", "comment"], ["--comment"]);
    SpacedPair("-m", "comment");
    assert ["--comment"][1..] == [];
    assert Spaced(["--comment"]) == " " + "--comment" + "";
    assert " " + "-m" + " " + "comment" + (" " + "--comment") == " -m comment --comment";
  }

  lemma CommentKeywordsAreBare()
    ensures Bare("-m") && Bare("comment") && Bare("--comment")
  {
  }

  lemma KeywordsAreBare()
    ensures Bare("-i") && Bare("!") && Bare("-o") && Bare("-s") && Bare("-d") && Bare("-j")
  {
  }

  lemma ServiceRuleInWords(cl: Cluster, destination: string, action: string, comment: string)
    ensures ServiceRule(cl, destination, action, comment)
         == Spaced(BridgeWords(cl) + ["-d", destination] + ["-j", action] + COMMENT_WORDS) + (" \"" + comment + "\"")
  {
    hide Spaced;
    var b, d, j, c := BridgeWords(cl), ["-d", destination], ["-j", action], COMMENT_WORDS;
    SpacedAppend(b + d + j, c);
    SpacedAppend(b + d, j);
    SpacedAppend(b, d);
    SpacedBridge(cl);
    SpacedPair("-d", destination);
    SpacedPair("-j", action);
    SpacedComment();
    DestinationGap();
    CommentGap();
  }

  lemma DestinationGap()
    ensures " " + "-d" + " " == " -d " && " " + "-j" + " " == " -j " && " " + "-s" + " " == " -s "
  {
  }

  lemma CommentGap()
    ensures " -m comment --comment" + " \"" == " -m comment --comment \""
  {
  }

  // ---------------------------------------------------------------- what each rule means

  lemma Keywords()
    ensures KeywordOf("-i") == InBridge && KeywordOf("-o") == OutBridge && KeywordOf("!") == Not
    ensures KeywordOf("-s") == Source && KeywordOf("-d") == Destination && KeywordOf("-j") == Jump
  {
  }

  lemma IgnoredKeywords()
    ensures KeywordOf("-m") == Ignored && KeywordOf("--comment") == Ignored && KeywordOf("--ctstate") == CtState
  {
    assert |"--comment"| == 9 && |"--ctstate"| == 9 && |"-m"| == 2;
    assert "-m"[1] == 'm' && "--comment"[3] == 'o' && "--ctstate"[3] == 't';
  }

  /** One option with a value is read on its own. */
  lemma ParsePair(keyword: string, negated: bool, value: string, rest: seq<string>)
    requires KeywordOf(keyword) != Not && KeywordOf(keyword) != Unsupported
    ensures ParseOptions([keyword, value] + rest, negated)
         == WithOption(KeywordOf(keyword), negated, value, ParseOptions(rest, false))
  {
    hide KeywordOf;
    var tokens := [keyword, value] + rest;
    assert tokens[2..] == rest;
  }

  lemma ParseNot(rest: seq<string>)
    ensures ParseOptions(["!"] + rest, false) == ParseOptions(rest, true)
  {
    Keywords();
    assert (["!"] + rest)[1..] == rest;
  }

  function BridgeTests(cl: Cluster): seq<Test> {
    [Test(InBridge, false, cl.bridge), Test(OutBridge, true, cl.bridge)]
  }

  lemma ParseBridge(cl: Cluster, rest: seq<string>)
    requires ParseOptions(rest, false).Some?
    ensures ParseOptions(BridgeWords(cl) + rest, false)
         == Some(ParseOptions(rest, false).value.(tests := BridgeTests(cl) + ParseOptions(rest, false).value.tests))
  {
    hide KeywordOf, ParseOptions;
    Keywords();
    var b := cl.bridge;
    assert BridgeWords(cl) + rest == ["-i", b] + (["!"] + (["-o", b] + rest));
    ParsePair("-i", false, b, ["!"] + (["-o", b] + rest));
    ParseNot(["-o", b] + rest);
    ParsePair("-o", true, b, rest);
    var tests := ParseOptions(rest, false).value.tests;
    assert [Test(InBridge, false, b)] + ([Test(OutBridge, true, b)] + tests) == BridgeTests(cl) + tests;
  }

  lemma ParseNothing()
    ensures ParseOptions([], false) == Some(Rule([], None))
  {
  }

  /** The action followed by the comment. */
  lemma ParseAction(action: string, comment: string)
    ensures ParseOptions(["-j", action] + COMMENT_WORDS + [comment], false) == Some(Rule([], Some(action)))
  {
    hide KeywordOf, ParseOptions;
    Keywords();
    IgnoredKeywords();
    ParseNothing();
    assert ["-j", action] + COMMENT_WORDS + [comment] == ["-j", action] + (["-m", "comment"] + (["--comment", comment] + []));
    ParsePair("-j", false, action, ["-m", "comment"] + (["--comment", comment] + []));
    ParsePair("-m", false, "comment", ["--comment", comment] + []);
    ParsePair("--comment", false, comment, []);
  }

  lemma ServiceRuleParsed(cl: Cluster, destination: string, action: string, comment: string)
    requires Bare(cl.bridge) && Bare(destination) && Bare(action) && '"' !in comment
    ensures Parsed(ServiceRule(cl, destination, action, comment))
         == Some(Rule(BridgeTests(cl) + [Test(Destination, false, destination)], Some(action)))
  {
    hide Tokens, ParseOptions, ServiceRule, Spaced, KeywordOf, Bare;
    ServiceRuleInWords(cl, destination, action, comment);
    var end := ["-j", action] + COMMENT_WORDS;
    var words := BridgeWords(cl) + ["-d", destination] + ["-j", action] + COMMENT_WORDS;
    KeywordsAreBare();
    CommentKeywordsAreBare();
    TokensOfQuoted(comment);
    TokensOfSpaced(words, " \"" + comment + "\"");
    assert words + [comment] == BridgeWords(cl) + (["-d", destination] + (end + [comment]));
    ParseAction(action, comment);
    Keywords();
    ParsePair("-d", false, destination, end + [comment]);
    ParseBridge(cl, ["-d", destination] + (end + [comment]));
    assert [Test(Destination, false, destination)] + [] == [Test(Destination, false, destination)];
  }

  predicate Leaves(cl: Cluster, p: Packet) { p.inBridge == cl.bridge && p.outBridge != cl.bridge }

  lemma ServiceVerdict(covers: Covers, cl: Cluster, destination: string, action: string, comment: string, p: Packet)
    requires Bare(cl.bridge) && Bare(destination) && Bare(action) && '"' !in comment
    ensures Verdict(covers, ServiceRule(cl, destination, action, comment), p)
         == if Leaves(cl, p) && covers(destination, p.destination) then Some(action) else None
  {
    hide Parsed, ServiceRule, Bare;
    ServiceRuleParsed(cl, destination, action, comment);
    var tests := BridgeTests(cl) + [Test(Destination, false, destination)];
    assert PassesAll(covers, tests, p) <==>
      Passes(covers, tests[0], p) && Passes(covers, tests[1], p) && Passes(covers, tests[2], p);
  }

  lemma TokensOfBare(words: seq<string>)
    requires forall i :: 0 <= i < |words| ==> Bare(words[i])
    ensures Tokens(Spaced(words)) == Some(words)
  {
    hide Bare;
    TokensOfSpaced(words, "");
    assert Spaced(words) + "" == Spaced(words) && words + [] == words;
  }

  lemma ReturnVerdict(covers: Covers, p: Packet)
    ensures Verdict(covers, RETURN, p) == Some("RETURN")
  {
    hide Tokens, ParseOptions, KeywordOf, Spaced;
    SpacedPair("-j", "RETURN");
    assert " " + "-j" + " " + "RETURN" == RETURN;
    KeywordsAreBare();
    assert Bare("RETURN");
    TokensOfBare(["-j", "RETURN"]);
    Keywords();
    ParseNothing();
    assert ["-j", "RETURN"] + [] == ["-j", "RETURN"];
    ParsePair("-j", false, "RETURN", []);
  }

  lemma EstablishedInWords()
    ensures ALLOW_ESTABLISHED == Spaced(["-m", "conntrack"] + ["--ctstate", "ESTABLISHED"] + ["-j", "ACCEPT"])
  {
    hide Spaced;
    SpacedAppend(["-m", "conntrack"] + ["--ctstate", "ESTABLISHED"], ["-j", "ACCEPT"]);
    SpacedAppend(["-m", "conntrack"], ["--ctstate", "ESTABLISHED"]);
    SpacedPair("-m", "conntrack");
    SpacedPair("--ctstate", "ESTABLISHED");
    SpacedPair("-j", "ACCEPT");
    assert " " + "-m" + " " + "conntrack" == " -m conntrack" by { ConntrackText(); }
    assert " " + "--ctstate" + " " + "ESTABLISHED" == " --ctstate ESTABLISHED" by { StateText(); }
    assert " " + "-j" + " " + "ACCEPT" == " -j ACCEPT" by { AcceptText(); }
  }

  lemma ConntrackText()
    ensures " " + "-m" + " " + "conntrack" == " -m conntrack"
  {
  }

  lemma StateText()
    ensures " " + "--ctstate" + " " + "ESTABLISHED" == " --ctstate ESTABLISHED"
  {
  }

  lemma AcceptText()
    ensures " " + "-j" + " " + "ACCEPT" == " -j ACCEPT"
  {
  }

  lemma EstablishedWordsAreBare()
    ensures Bare("-m") && Bare("conntrack") && Bare("--ctstate") && Bare("-j") && Bare("ACCEPT")
  {
  }

  lemma EstablishedIsBare()
    ensures Bare("ESTABLISHED")
  {
  }

  lemma EstablishedVerdict(covers: Covers, p: Packet)
    ensures Verdict(covers, ALLOW_ESTABLISHED, p) == if p.state == "ESTABLISHED" then Some("ACCEPT") else None
  {
    hide Tokens, ParseOptions, KeywordOf, Spaced, Bare;
    var words := ["-m", "conntrack"] + ["--ctstate", "ESTABLISHED"] + ["-j", "ACCEPT"];
    EstablishedInWords();
    EstablishedWordsAreBare();
    EstablishedIsBare();
    TokensOfBare(words);
    Keywords();
    IgnoredKeywords();
    ParseNothing();
    assert words == ["-m", "conntrack"] + (["--ctstate", "ESTABLISHED"] + (["-j", "ACCEPT"] + []));
    ParsePair("-j", false, "ACCEPT", []);
    ParsePair("--ctstate", false, "ESTABLISHED", ["-j", "ACCEPT"] + []);
    ParsePair("-m", false, "conntrack", ["--ctstate", "ESTABLISHED"] + (["-j", "ACCEPT"] + []));
    var test := Test(CtState, false, "ESTABLISHED");
    assert PassesAll(covers, [test] + [], p) <==> Passes(covers, ([test] + [])[0], p);
  }

  const LINK_LOCAL_COMMENT := "link local subnet"

  lemma LinkLocalInWords(cl: Cluster)
    ensures LinkLocalRule(cl)
         == Spaced(BridgeWords(cl) + ["-s", cl.subnet] + ["-d", LINK_LOCAL] + ["-j", "REJECT"] + COMMENT_WORDS)
              + (" \"" + LINK_LOCAL_COMMENT + "\"")
  {
    hide Spaced, BridgeWords;
    var b, s, d, j, c := BridgeWords(cl), ["-s", cl.subnet], ["-d", LINK_LOCAL], ["-j", "REJECT"], COMMENT_WORDS;
    SpacedAppend(b + s + d + j, c);
    SpacedAppend(b + s + d, j);
    SpacedAppend(b + s, d);
    SpacedAppend(b, s);
    SpacedBridge(cl);
    SpacedPair("-s", cl.subnet);
    SpacedPair("-d", LINK_LOCAL);
    SpacedPair("-j", "REJECT");
    SpacedComment();
    LinkLocalText(cl.bridge, cl.subnet, LINK_LOCAL);
  }

  lemma LinkLocalText(bridge: string, subnet: string, destination: string)
    ensures " -i " + bridge + " ! -o " + bridge + (" " + "-s" + " " + subnet) + (" " + "-d" + " " + destination)
              + (" " + "-j" + " " + "REJECT") + " -m comment --comment" + (" \"" + LINK_LOCAL_COMMENT + "\"")
         == " -i " + bridge + " ! -o " + bridge + " -s " + subnet + " -d " + destination + " -j REJECT"
              + " -m comment --comment \"" + "link local subnet" + "\""
  {
    DestinationGap();
    CommentGap();
    assert " " + "-j" + " " + "REJECT" == " -j REJECT";
    var a, c, e := " -i " + bridge + " ! -o " + bridge, " -m comment --comment", LINK_LOCAL_COMMENT + "\"";
    assert c + (" \"" + e) == c + " \"" + e;
  }

  lemma LinkLocalWordsAreBare()
    ensures Bare(LINK_LOCAL) && Bare("REJECT") && '"' !in LINK_LOCAL_COMMENT
  {
  }

  lemma LinkLocalParsed(cl: Cluster)
    requires Bare(cl.bridge) && Bare(cl.subnet)
    ensures Parsed(LinkLocalRule(cl))
         == Some(Rule(BridgeTests(cl) + [Test(Source, false, cl.subnet), Test(Destination, false, LINK_LOCAL)], Some("REJECT")))
  {
    hide Tokens, ParseOptions, LinkLocalRule, Spaced, KeywordOf, Bare;
    LinkLocalInWords(cl);
    var c := LINK_LOCAL_COMMENT;
    var words := BridgeWords(cl) + ["-s", cl.subnet] + ["-d", LINK_LOCAL] + ["-j", "REJECT"] + COMMENT_WORDS;
    KeywordsAreBare();
    CommentKeywordsAreBare();
    LinkLocalWordsAreBare();
    TokensOfQuoted(c);
    TokensOfSpaced(words, " \"" + c + "\"");
    var end := ["-j", "REJECT"] + COMMENT_WORDS + [c];
    assert words + [c] == BridgeWords(cl) + (["-s", cl.subnet] + (["-d", LINK_LOCAL] + end));
    ParseAction("REJECT", c);
    Keywords();
    ParsePair("-d", false, LINK_LOCAL, end);
    ParsePair("-s", false, cl.subnet, ["-d", LINK_LOCAL] + end);
    ParseBridge(cl, ["-s", cl.subnet] + (["-d", LINK_LOCAL] + end));
    var source, destination := Test(Source, false, cl.subnet), Test(Destination, false, LINK_LOCAL);
    assert [source] + ([destination] + []) == [source, destination];
  }

  lemma LinkLocalVerdict(covers: Covers, cl: Cluster, p: Packet)
    requires Bare(cl.bridge) && Bare(cl.subnet)
    ensures Verdict(covers, LinkLocalRule(cl), p)
         == if Leaves(cl, p) && covers(cl.subnet, p.source) && covers("169.254.0.0/16", p.destination) then Some("REJECT") else None
  {
    hide Parsed, LinkLocalRule, Bare;
    LinkLocalParsed(cl);
    var tests := BridgeTests(cl) + [Test(Source, false, cl.subnet), Test(Destination, false, LINK_LOCAL)];
    assert PassesAll(covers, tests, p) <==>
      && Passes(covers, tests[0], p) && Passes(covers, tests[1], p)
      && Passes(covers, tests[2], p) && Passes(covers, tests[3], p);
  }

  // ---------------------------------------------------------------- lists of any length

  predicate AllBare(words: seq<string>) { forall i :: 0 <= i < |words| ==> Bare(words[i]) }

  /** What the code takes for granted about its inputs: addresses and interfaces are single words,
      and node names contain no quotes. */
  predicate CleanCluster(cl: Cluster) {
    && Bare(cl.bridge) && Bare(cl.subnet) && Bare(cl.dnsService)
    && AllBare(Flatten(cl.apiSubsets)) && AllBare(Flatten(cl.dnsSubsets)) && AllBare(ExternalAddresses(cl.nodes))
    && forall i :: 0 <= i < |cl.nodes| ==> '"' !in cl.nodes[i].name
  }

  function When(b: bool, action: string): Option<string> { if b then Some(action) else None }

  lemma AnyCoversFirst(covers: Covers, addresses: seq<string>, destination: nat)
    requires addresses != []
    ensures AnyCovers(covers, addresses, destination)
       <==> covers(addresses[0], destination) || AnyCovers(covers, addresses[1..], destination)
  {
    if AnyCovers(covers, addresses, destination) {
      var i :| 0 <= i < |addresses| && covers(addresses[i], destination);
      assert i > 0 ==> addresses[1..][i - 1] == addresses[i];
    }
    if AnyCovers(covers, addresses[1..], destination) {
      var i :| 0 <= i < |addresses[1..]| && covers(addresses[1..][i], destination);
      assert addresses[i + 1] == addresses[1..][i];
    }
  }

  lemma AnyCoversAppend(covers: Covers, a: seq<string>, b: seq<string>, destination: nat)
    ensures AnyCovers(covers, a + b, destination) <==> AnyCovers(covers, a, destination) || AnyCovers(covers, b, destination)
  {
    if AnyCovers(covers, a, destination) {
      var i :| 0 <= i < |a| && covers(a[i], destination);
      assert (a + b)[i] == a[i];
    }
    if AnyCovers(covers, b, destination) {
      var i :| 0 <= i < |b| && covers(b[i], destination);
      assert (a + b)[|a| + i] == b[i];
    }
  }

  lemma {:induction false} ServicesVerdict(covers: Covers, cl: Cluster, addresses: seq<string>, action: string, comment: string, p: Packet)
    requires Bare(cl.bridge) && AllBare(addresses) && Bare(action) && '"' !in comment
    ensures FirstMatch(covers, ServiceRules(cl, addresses, action, comment), p)
         == When(Leaves(cl, p) && AnyCovers(covers, addresses, p.destination), action)
    decreases |addresses|
  {
    hide Verdict, ServiceRule, AnyCovers, Bare;
    if addresses == [] {
      NothingCovers(covers, p.destination);
    } else {
      ServiceVerdict(covers, cl, addresses[0], action, comment, p);
      AnyCoversFirst(covers, addresses, p.destination);
      ServicesVerdict(covers, cl, addresses[1..], action, comment, p);
    }
  }

  lemma NothingCovers(covers: Covers, destination: nat)
    ensures !AnyCovers(covers, [], destination)
  {
  }

  lemma {:induction false} AddressesVerdict(covers: Covers, cl: Cluster, name: string, addresses: seq<NodeAddress>, p: Packet)
    requires Bare(cl.bridge) && AllBare(External(addresses)) && '"' !in name
    ensures FirstMatch(covers, AddressRules(cl, name, addresses), p)
         == When(Leaves(cl, p) && AnyCovers(covers, External(addresses), p.destination), "REJECT")
    decreases |addresses|
  {
    hide Verdict, ServiceRule, AnyCovers, Bare;
    if addresses == [] {
      NothingCovers(covers, p.destination);
    } else {
      var more := External(addresses[1..]);
      assert AllBare(more) by {
        forall i | 0 <= i < |more| ensures Bare(more[i]) {
          assert more[i] == External(addresses)[|External(addresses)| - |more| + i];
        }
      }
      AddressesVerdict(covers, cl, name, addresses[1..], p);
      RejectIsBare(name);
      if addresses[0].kind == ExternalIP {
        assert External(addresses)[0] == addresses[0].address && External(addresses)[1..] == more;
        ServiceVerdict(covers, cl, addresses[0].address, "REJECT", "node: " + name, p);
        AnyCoversFirst(covers, External(addresses), p.destination);
        var rule := ServiceRule(cl, addresses[0].address, "REJECT", "node: " + name);
        assert ([rule] + AddressRules(cl, name, addresses[1..]))[1..] == AddressRules(cl, name, addresses[1..]);
      } else {
        assert [] + more == more;
        assert [] + AddressRules(cl, name, addresses[1..]) == AddressRules(cl, name, addresses[1..]);
      }
    }
  }

  lemma RejectIsBare(name: string)
    requires '"' !in name
    ensures Bare("REJECT") && Bare("ACCEPT") && '"' !in "node: " + name
  {
  }

  lemma AllBareParts(a: seq<string>, b: seq<string>)
    requires AllBare(a + b)
    ensures AllBare(a) && AllBare(b)
  {
    hide Bare;
    forall i | 0 <= i < |a| ensures Bare(a[i]) { assert (a + b)[i] == a[i]; }
    forall i | 0 <= i < |b| ensures Bare(b[i]) { assert (a + b)[|a| + i] == b[i]; }
  }

  lemma {:induction false} NodesVerdict(covers: Covers, cl: Cluster, nodes: seq<Node>, p: Packet)
    requires Bare(cl.bridge) && AllBare(ExternalAddresses(nodes))
    requires forall i :: 0 <= i < |nodes| ==> '"' !in nodes[i].name
    ensures FirstMatch(covers, NodeRules(cl, nodes), p)
         == When(Leaves(cl, p) && AnyCovers(covers, ExternalAddresses(nodes), p.destination), "REJECT")
    decreases |nodes|
  {
    hide FirstMatch, AnyCovers, Bare, AddressRules, External, AllBare;
    if nodes == [] {
      NothingCovers(covers, p.destination);
      NothingMatches(covers, p);
    } else {
      var here, later := External(nodes[0].addresses), ExternalAddresses(nodes[1..]);
      AllBareParts(here, later);
      AddressesVerdict(covers, cl, nodes[0].name, nodes[0].addresses, p);
      NodesVerdict(covers, cl, nodes[1..], p);
      AnyCoversAppend(covers, here, later, p.destination);
      FirstMatchAppend(covers, AddressRules(cl, nodes[0].name, nodes[0].addresses), NodeRules(cl, nodes[1..]), p);
    }
  }

  lemma NothingMatches(covers: Covers, p: Packet)
    ensures FirstMatch(covers, [], p) == None
  {
  }

  lemma OneMatches(covers: Covers, rule: string, p: Packet)
    ensures FirstMatch(covers, [rule], p) == Verdict(covers, rule, p)
  {
    hide Verdict;
    assert [rule][1..] == [];
  }

  lemma ClosingVerdict(covers: Covers, cl: Cluster, p: Packet)
    requires Bare(cl.bridge) && Bare(cl.subnet)
    ensures FirstMatch(covers, ClosingRules(cl), p) == Some(
      if Leaves(cl, p) && AnyCovers(covers, ["10.0.0.0/8", cl.subnet], p.destination) then "REJECT"
      else if Leaves(cl, p) && covers(cl.subnet, p.source) && covers(LINK_LOCAL, p.destination) then "REJECT"
      else "RETURN")
  {
    hide Verdict, FirstMatch, ServiceRule, LinkLocalRule, Bare;
    var ten := ServiceRule(cl, "10.0.0.0/8", "REJECT", "cluster services");
    var gateway := ServiceRule(cl, cl.subnet, "REJECT", "bridge gateway");
    ClosingWordsAreBare();
    ServiceVerdict(covers, cl, "10.0.0.0/8", "REJECT", "cluster services", p);
    ServiceVerdict(covers, cl, cl.subnet, "REJECT", "bridge gateway", p);
    LinkLocalVerdict(covers, cl, p);
    ReturnVerdict(covers, p);
    assert ClosingRules(cl) == [ten] + [gateway] + [LinkLocalRule(cl)] + [RETURN];
    FirstMatchAppend(covers, [ten] + [gateway] + [LinkLocalRule(cl)], [RETURN], p);
    FirstMatchAppend(covers, [ten] + [gateway], [LinkLocalRule(cl)], p);
    FirstMatchAppend(covers, [ten], [gateway], p);
    OneMatches(covers, ten, p);
    OneMatches(covers, gateway, p);
    OneMatches(covers, LinkLocalRule(cl), p);
    OneMatches(covers, RETURN, p);
    var nets := ["10.0.0.0/8", cl.subnet];
    assert AnyCovers(covers, nets, p.destination) <==> covers(nets[0], p.destination) || covers(nets[1], p.destination);
  }

  lemma ClosingWordsAreBare()
    ensures Bare("10.0.0.0/8") && Bare("REJECT") && '"' !in "cluster services" && '"' !in "bridge gateway"
  {
  }

  lemma CommentsAreQuotable()
    ensures '"' !in "kube api service" && '"' !in "CoreDNS service" && '"' !in "CoreDNS pod"
  {
  }

  /** The rules as written decide as intended. */
  lemma WhiskVerdict(covers: Covers, cl: Cluster, p: Packet)
    requires CleanCluster(cl)
    ensures FirstMatch(covers, WhiskRules(cl), p) == Some(Intended(covers, cl, p))
  {
    hide Verdict, FirstMatch, AnyCovers, ServiceRule, ServiceRules, NodeRules, ClosingRules, ExternalAddresses, Flatten, Bare, AllBare;
    var e, n, a := [ALLOW_ESTABLISHED], NodeRules(cl, cl.nodes), ServiceRules(cl, Flatten(cl.apiSubsets), "REJECT", "kube api service");
    var dns := ServiceRule(cl, cl.dnsService, "ACCEPT", "CoreDNS service");
    var pods := ServiceRules(cl, Flatten(cl.dnsSubsets), "ACCEPT", "CoreDNS pod");
    FirstMatchAppend(covers, e + n + a + [dns] + pods, ClosingRules(cl), p);
    FirstMatchAppend(covers, e + n + a + [dns], pods, p);
    FirstMatchAppend(covers, e + n + a, [dns], p);
    FirstMatchAppend(covers, e + n, a, p);
    FirstMatchAppend(covers, e, n, p);
    RejectIsBare("");
    CommentsAreQuotable();
    EstablishedVerdict(covers, p);
    OneMatches(covers, ALLOW_ESTABLISHED, p);
    NodesVerdict(covers, cl, cl.nodes, p);
    ServicesVerdict(covers, cl, Flatten(cl.apiSubsets), "REJECT", "kube api service", p);
    ServiceVerdict(covers, cl, cl.dnsService, "ACCEPT", "CoreDNS service", p);
    OneMatches(covers, dns, p);
    ServicesVerdict(covers, cl, Flatten(cl.dnsSubsets), "ACCEPT", "CoreDNS pod", p);
    ClosingVerdict(covers, cl, p);
    AnyCoversAppend(covers, ExternalAddresses(cl.nodes), Flatten(cl.apiSubsets), p.destination);
    DnsCovers(covers, cl.dnsService, Flatten(cl.dnsSubsets), p.destination);
  }

  lemma DnsCovers(covers: Covers, service: string, pods: seq<string>, destination: nat)
    ensures AnyCovers(covers, [service] + pods, destination) <==> covers(service, destination) || AnyCovers(covers, pods, destination)
  {
    hide AnyCovers;
    AnyCoversFirst(covers, [service] + pods, destination);
    assert ([service] + pods)[1..] == pods;
  }

  /** The kernel stores rules without changing what they mean. */
  ghost predicate KeepsMeaning(canon: string -> string, covers: Covers, rules: seq<string>) {
    forall i, p: Packet :: 0 <= i < |rules| ==> Verdict(covers, canon(rules[i]), p) == Verdict(covers, rules[i], p)
  }

  lemma {:induction false} CanonicalVerdict(canon: string -> string, covers: Covers, rules: seq<string>, p: Packet)
    requires KeepsMeaning(canon, covers, rules)
    ensures FirstMatch(covers, Canonical(canon, rules), p) == FirstMatch(covers, rules, p)
    decreases |rules|
  {
    hide Verdict;
    if rules != [] {
      assert KeepsMeaning(canon, covers, rules[1..]) by {
        forall i, q: Packet | 0 <= i < |rules[1..]|
          ensures Verdict(covers, canon(rules[1..][i]), q) == Verdict(covers, rules[1..][i], q)
        {
          assert rules[1..][i] == rules[i + 1];
        }
      }
      CanonicalVerdict(canon, covers, rules[1..], p);
      assert Canonical(canon, rules)[0] == canon(rules[0]);
      assert Canonical(canon, rules)[1..] == Canonical(canon, rules[1..]);
    }
  }

  /** Once the reconciled text of a saved table is restored, the first matching rule of
      WHISK-FIREWALL takes the intended decision on every packet. */
  lemma ReconciledFirewallDecides(canon: string -> string, covers: Covers, cl: Cluster, t: Table, l: Layout, p: Packet)
    requires WellFormed(canon, t) && Scannable(t, l) && Kernel(canon, cl) && CleanCluster(cl)
    requires KeepsMeaning(canon, covers, WhiskRules(cl))
    ensures var after := Restore(canon, Lines(Reconciled(cl, ScanLines(Save(t, l)))));
            after.Some? && WHISK in after.value
            && FirstMatch(covers, after.value[WHISK].rules, p) == Some(Intended(covers, cl, p))
  {
    hide Restore, Lines, Reconciled, ScanLines, Save, WellFormed, Kernel, WhiskRules, FirstMatch, Intended, CleanCluster;
    BuiltInsExist(canon, t);
    ghost var after := WhatReconcilingDoes(canon, cl, t, l);
    CanonicalVerdict(canon, covers, WhiskRules(cl), p);
    WhiskVerdict(covers, cl, p);
  }

  lemma BuiltInsExist(canon: string -> string, t: Table)
    requires WellFormed(canon, t)
    ensures BUILT_IN <= t.Keys
  {
  }

  // ---------------------------------------------------------------- the assumptions can be met

  /** A kernel that stores every rule as it is written. */
  function Verbatim(rule: string): string { rule }

  predicate Printable(s: string) { '\n' !in s && '\r' !in s }

  predicate PrintableRule(rule: string) { RuleText(rule) && Printable(rule) }

  predicate PrintableRules(rules: seq<string>) { forall i :: 0 <= i < |rules| ==> PrintableRule(rules[i]) }

  predicate AllPrintable(texts: seq<string>) { forall i :: 0 <= i < |texts| ==> Printable(texts[i]) }

  predicate PrintableCluster(cl: Cluster) {
    && Printable(cl.bridge) && Printable(cl.subnet) && Printable(cl.dnsService)
    && AllPrintable(Flatten(cl.apiSubsets)) && AllPrintable(Flatten(cl.dnsSubsets))
    && forall i :: 0 <= i < |cl.nodes| ==>
         Printable(cl.nodes[i].name) && forall j :: 0 <= j < |cl.nodes[i].addresses| ==> Printable(cl.nodes[i].addresses[j].address)
  }

  lemma FragmentsArePrintable()
    ensures Printable(" -i ") && Printable(" ! -o ") && Printable(" -d ") && Printable(" -j ") && Printable(" -s ") && Printable("\"")
  {
  }

  lemma CommentIsPrintable()
    ensures Printable(" -m comment --comment \"")
  {
  }

  lemma ServiceRuleIsPrintable(cl: Cluster, destination: string, action: string, comment: string)
    requires Printable(cl.bridge) && Printable(destination) && Printable(action) && Printable(comment)
    ensures PrintableRule(ServiceRule(cl, destination, action, comment))
  {
    FragmentsArePrintable();
    CommentIsPrintable();
    assert ServiceRule(cl, destination, action, comment)[0] == " -i "[0];
  }

  lemma LinkLocalIsPrintable(cl: Cluster)
    requires Printable(cl.bridge) && Printable(cl.subnet)
    ensures PrintableRule(LinkLocalRule(cl))
  {
    FragmentsArePrintable();
    CommentIsPrintable();
    LinkLocalTextIsPrintable();
    assert LinkLocalRule(cl)[0] == " -i "[0];
  }

  lemma LinkLocalTextIsPrintable()
    ensures Printable(LINK_LOCAL) && Printable(" -j REJECT") && Printable("link local subnet")
  {
  }

  lemma ActionsArePrintable()
    ensures Printable("REJECT") && Printable("ACCEPT") && Printable("node: ") && Printable("10.0.0.0/8")
  {
  }

  lemma CommentTextsArePrintable()
    ensures Printable("kube api service") && Printable("CoreDNS service") && Printable("CoreDNS pod")
    ensures Printable("cluster services") && Printable("bridge gateway")
  {
    hide Printable;
    ServiceTextsArePrintable();
    ClosingTextsArePrintable();
  }

  lemma ServiceTextsArePrintable()
    ensures Printable("kube api service") && Printable("CoreDNS service") && Printable("CoreDNS pod")
  {
  }

  lemma ClosingTextsArePrintable()
    ensures Printable("cluster services") && Printable("bridge gateway")
  {
  }

  lemma FixedRulesArePrintable()
    ensures PrintableRule(ALLOW_ESTABLISHED) && PrintableRule(RETURN)
  {
  }

  lemma {:induction false} ServiceRulesArePrintable(cl: Cluster, addresses: seq<string>, action: string, comment: string)
    requires Printable(cl.bridge) && AllPrintable(addresses) && Printable(action) && Printable(comment)
    ensures PrintableRules(ServiceRules(cl, addresses, action, comment))
  {
    hide Printable, PrintableRule, ServiceRule;
    if addresses != [] {
      ServiceRuleIsPrintable(cl, addresses[0], action, comment);
      ServiceRulesArePrintable(cl, addresses[1..], action, comment);
    }
  }

  lemma {:induction false} AddressRulesArePrintable(cl: Cluster, name: string, addresses: seq<NodeAddress>)
    requires Printable(cl.bridge) && Printable("node: " + name)
    requires forall j :: 0 <= j < |addresses| ==> Printable(addresses[j].address)
    ensures PrintableRules(AddressRules(cl, name, addresses))
  {
    hide Printable, PrintableRule, ServiceRule;
    ActionsArePrintable();
    if addresses != [] {
      ServiceRuleIsPrintable(cl, addresses[0].address, "REJECT", "node: " + name);
      AddressRulesArePrintable(cl, name, addresses[1..]);
    }
  }

  lemma {:induction false} NodeRulesArePrintable(cl: Cluster, nodes: seq<Node>)
    requires Printable(cl.bridge)
    requires forall i :: 0 <= i < |nodes| ==>
      Printable(nodes[i].name) && forall j :: 0 <= j < |nodes[i].addresses| ==> Printable(nodes[i].addresses[j].address)
    ensures PrintableRules(NodeRules(cl, nodes))
  {
    hide PrintableRule, AddressRules;
    ActionsArePrintable();
    if nodes != [] {
      AddressRulesArePrintable(cl, nodes[0].name, nodes[0].addresses);
      NodeRulesArePrintable(cl, nodes[1..]);
    }
  }

  lemma ClosingRulesArePrintable(cl: Cluster)
    requires Printable(cl.bridge) && Printable(cl.subnet)
    ensures PrintableRules(ClosingRules(cl))
  {
    hide Printable, PrintableRule, ServiceRule, LinkLocalRule;
    ActionsArePrintable();
    CommentTextsArePrintable();
    FixedRulesArePrintable();
    LinkLocalIsPrintable(cl);
    ServiceRuleIsPrintable(cl, "10.0.0.0/8", "REJECT", "cluster services");
    ServiceRuleIsPrintable(cl, cl.subnet, "REJECT", "bridge gateway");
  }

  lemma WhiskRulesArePrintable(cl: Cluster)
    requires PrintableCluster(cl)
    ensures PrintableRules(WhiskRules(cl))
  {
    hide Printable, PrintableRule, ServiceRule, ServiceRules, NodeRules, ClosingRules, Flatten;
    ActionsArePrintable();
    CommentTextsArePrintable();
    FixedRulesArePrintable();
    NodeRulesArePrintable(cl, cl.nodes);
    ServiceRulesArePrintable(cl, Flatten(cl.apiSubsets), "REJECT", "kube api service");
    ServiceRuleIsPrintable(cl, cl.dnsService, "ACCEPT", "CoreDNS service");
    ServiceRulesArePrintable(cl, Flatten(cl.dnsSubsets), "ACCEPT", "CoreDNS pod");
    ClosingRulesArePrintable(cl);
  }

  /** What is assumed of the kernel holds of one that stores rules verbatim, for every cluster whose
      texts have no line breaks and whose rules fit a line. */
  lemma VerbatimKernel(covers: Covers, cl: Cluster)
    requires PrintableCluster(cl) && forall i :: 0 <= i < |WhiskRules(cl)| ==> |WhiskRules(cl)[i]| < MAX_LINE - 17
    ensures Kernel(Verbatim, cl) && KeepsMeaning(Verbatim, covers, WhiskRules(cl))
  {
    hide WhiskRules, PrintableCluster;
    WhiskRulesArePrintable(cl);
    forall i | 0 <= i < |WhiskRules(cl)| ensures StoredRule(Verbatim, WHISK, WhiskRules(cl)[i]) && '\n' !in WhiskRules(cl)[i] {
      assert PrintableRule(WhiskRules(cl)[i]);
      WhiskLineIsClean(WhiskRules(cl)[i]);
    }
  }

  lemma WhiskLineIsClean(rule: string)
    requires Printable(rule) && |rule| < MAX_LINE - 17
    ensures Clean("-A " + WHISK + rule)
  {
    var line := "-A " + WHISK + rule;
    assert Printable("-A ") && Printable(WHISK);
    assert line[|line| - 1] in line;
  }

  /** A fresh filter table, and one way to save it. */
  function FreshTable(): Table {
    map["INPUT" := Chain("ACCEPT", []), "FORWARD" := Chain("DROP", []), "OUTPUT" := Chain("ACCEPT", [])]
  }

  function PlainLayout(): Layout { Layout(["INPUT", "FORWARD", "OUTPUT"], (n: string) => NO_COUNTERS, [], []) }

  lemma BuiltInNames()
    ensures Word("INPUT") && Word("FORWARD") && Word("OUTPUT")
    ensures "INPUT" != "FORWARD" && "INPUT" != "OUTPUT" && "FORWARD" != "OUTPUT"
  {
    assert "INPUT"[0] == 'I' && "FORWARD"[0] == 'F' && "OUTPUT"[0] == 'O';
  }

  lemma Policies()
    ensures Word("ACCEPT") && Word("DROP") && "ACCEPT" != NO_POLICY && "DROP" != NO_POLICY
  {
    assert |"ACCEPT"| == 6 && |"DROP"| == 4 && |NO_POLICY| == 1;
  }

  lemma FreshTableIsWellFormed()
    ensures WellFormed(Verbatim, FreshTable())
  {
    hide StoredRule, Word;
    BuiltInNames();
    Policies();
  }

  /** Any declaration of a short chain without line breaks can be scanned. */
  lemma DeclarationIsClean(n: string, policy: string)
    requires Printable(n) && Printable(policy) && |n| <= 100 && |policy| <= 100
    ensures Clean(Show(Declare(n, policy, NO_COUNTERS)))
  {
    var line := Show(Declare(n, policy, NO_COUNTERS));
    assert Printable(NO_COUNTERS) && |NO_COUNTERS| == 5;
    assert line == (":" + n + " " + policy + " ") + NO_COUNTERS;
    assert line[|line| - 1] == NO_COUNTERS[4];
  }

  lemma NamesArePrintable()
    ensures Printable("INPUT") && Printable("FORWARD") && Printable("OUTPUT") && Printable("ACCEPT") && Printable("DROP")
    ensures |"INPUT"| == 5 && |"FORWARD"| == 7 && |"OUTPUT"| == 6 && |"ACCEPT"| == 6 && |"DROP"| == 4
  {
  }

  lemma PlainLayoutEnumerates()
    ensures Enumerates(PlainLayout().order, FreshTable())
  {
    BuiltInNames();
    var order := PlainLayout().order;
    assert order[0] == "INPUT" && order[1] == "FORWARD" && order[2] == "OUTPUT";
  }

  lemma FreshTableIsScannable()
    ensures Scannable(FreshTable(), PlainLayout())
  {
    hide Clean, Show, Printable, Enumerates;
    NamesArePrintable();
    PlainLayoutEnumerates();
    DeclarationIsClean("INPUT", "ACCEPT");
    DeclarationIsClean("FORWARD", "DROP");
    DeclarationIsClean("OUTPUT", "ACCEPT");
    forall n | n in FreshTable() ensures Clean(Show(Declaration(FreshTable(), n, PlainLayout().counters))) {
      FreshDeclaration(n);
    }
  }

  lemma FreshDeclaration(n: string)
    requires n in FreshTable()
    ensures n == "INPUT" || n == "FORWARD" || n == "OUTPUT"
    ensures Declaration(FreshTable(), n, PlainLayout().counters)
         == Declare(n, if n == "FORWARD" then "DROP" else "ACCEPT", NO_COUNTERS)
  {
    BuiltInNames();
  }

  /** On a fresh host whose kernel stores rules verbatim, for every cluster whose names and addresses
      are plain words that fit a line, the restored firewall takes the intended decision on every
      packet: all that is assumed can be met at once. */
  lemma FreshHostDecides(covers: Covers, cl: Cluster, p: Packet)
    requires CleanCluster(cl) && PrintableCluster(cl)
    requires forall i :: 0 <= i < |WhiskRules(cl)| ==> |WhiskRules(cl)[i]| < MAX_LINE - 17
    ensures var after := Restore(Verbatim, Lines(Reconciled(cl, ScanLines(Save(FreshTable(), PlainLayout())))));
            after.Some? && WHISK in after.value
            && FirstMatch(covers, after.value[WHISK].rules, p) == Some(Intended(covers, cl, p))
  {
    hide Restore, Lines, Reconciled, ScanLines, Save, WellFormed, Kernel, WhiskRules, FirstMatch, Intended,
         CleanCluster, PrintableCluster, Scannable, KeepsMeaning, FreshTable, PlainLayout;
    VerbatimKernel(covers, cl);
    FreshTableIsWellFormed();
    FreshTableIsScannable();
    PlainLayoutEnumerates();
    ReconciledFirewallDecides(Verbatim, covers, cl, FreshTable(), PlainLayout(), p);
  }

  // ---------------------------------------------------------------- foreign rules that are lost

  const LOG_CHAIN := "WHISK-FIREWALL-LOG"
  const TO_OTHER := " -j WHISK-FIREWALL2"

  /** A fresh table with two foreign rules that look like the reconciler's own. */
  function LookAlikeTable(): Table {
    FreshTable()["FORWARD" := Chain("DROP", [TO_OTHER])][LOG_CHAIN := Chain(NO_POLICY, [RETURN])]
  }

  function LookAlikeLayout(): Layout { PlainLayout().(order := PlainLayout().order + [LOG_CHAIN]) }

  lemma LookAlikeNames()
    ensures Word(LOG_CHAIN) && LOG_CHAIN !in BUILT_IN && HasPrefix(LOG_CHAIN, WHISK) && LOG_CHAIN != WHISK
    ensures Printable(LOG_CHAIN) && |LOG_CHAIN| == 18
  {
    assert |"INPUT"| == 5 && |"FORWARD"| == 7 && |"OUTPUT"| == 6;
    assert LOG_CHAIN[..14] == WHISK;
  }

  lemma LookAlikeRulesAreStored()
    ensures StoredRule(Verbatim, "FORWARD", TO_OTHER) && StoredRule(Verbatim, LOG_CHAIN, RETURN)
    ensures HasPrefix(TO_OTHER, TO_WHISK)
  {
    hide Clean;
    assert TO_OTHER[..|TO_WHISK|] == TO_WHISK;
    RuleLineIsClean("FORWARD", TO_OTHER);
    RuleLineIsClean(LOG_CHAIN, RETURN);
  }

  lemma RuleLineIsClean(n: string, rule: string)
    requires (n == "FORWARD" && rule == TO_OTHER) || (n == LOG_CHAIN && rule == RETURN)
    ensures Clean("-A " + n + rule)
  {
    var line := "-A " + n + rule;
    assert Printable("-A ") && Printable(n) && Printable(rule);
    assert |n| <= 18 && |rule| <= 19;
    assert line[|line| - 1] == rule[|rule| - 1];
  }

  lemma LookAlikeEntry(n: string)
    requires n in LookAlikeTable()
    ensures n == "INPUT" || n == "FORWARD" || n == "OUTPUT" || n == LOG_CHAIN
    ensures LookAlikeTable()[n].policy == if n == "FORWARD" then "DROP" else if n == LOG_CHAIN then NO_POLICY else "ACCEPT"
    ensures LookAlikeTable()[n].rules == if n == "FORWARD" then [TO_OTHER] else if n == LOG_CHAIN then [RETURN] else []
  {
    hide Word, Printable, HasPrefix;
    BuiltInNames();
    LookAlikeNames();
  }

  lemma LookAlikeTableIsWellFormed()
    ensures WellFormed(Verbatim, LookAlikeTable())
  {
    hide StoredRule, Word, Printable, HasPrefix;
    var t := LookAlikeTable();
    BuiltInNames();
    Policies();
    LookAlikeNames();
    LookAlikeRulesAreStored();
    NoPolicyIsPrintable();
    assert BUILT_IN <= t.Keys;
    hide LookAlikeTable;
    forall n | n in t
      ensures Word(n) && Word(t[n].policy) && (n in BUILT_IN <==> t[n].policy != NO_POLICY)
      ensures forall i :: 0 <= i < |t[n].rules| ==> StoredRule(Verbatim, n, t[n].rules[i])
    {
      LookAlikeEntry(n);
    }
  }

  lemma LookAlikeTableIsScannable()
    ensures Scannable(LookAlikeTable(), LookAlikeLayout())
  {
    hide Clean, Show, Printable, Enumerates, LookAlikeTable;
    LookAlikeOrder();
    forall n | n in LookAlikeTable() ensures Clean(Show(Declaration(LookAlikeTable(), n, LookAlikeLayout().counters))) {
      LookAlikeDeclaration(n);
    }
  }

  lemma LookAlikeDeclaration(n: string)
    requires n in LookAlikeTable()
    ensures Clean(Show(Declaration(LookAlikeTable(), n, LookAlikeLayout().counters)))
  {
    hide Clean, Show, Printable, LookAlikeTable;
    LookAlikeEntry(n);
    LookAlikeNames();
    NamesArePrintable();
    NoPolicyIsPrintable();
    DeclarationIsClean(n, LookAlikeTable()[n].policy);
  }

  lemma NoPolicyIsPrintable()
    ensures Printable(NO_POLICY) && |NO_POLICY| == 1 && Word(NO_POLICY)
  {
  }

  lemma LookAlikeOrder()
    ensures Enumerates(LookAlikeLayout().order, LookAlikeTable())
  {
    BuiltInNames();
    LookAlikeNames();
    var order := LookAlikeLayout().order;
    assert order[0] == "INPUT" && order[1] == "FORWARD" && order[2] == "OUTPUT" && order[3] == LOG_CHAIN;
  }

  predicate HasRules(t: Table, n: string, rules: seq<string>) { n in t && t[n].rules == rules }

  lemma LookAlikeRules()
    ensures HasRules(LookAlikeTable(), LOG_CHAIN, [RETURN]) && HasRules(LookAlikeTable(), "FORWARD", [TO_OTHER])
  {
    LookAlikeNames();
    BuiltInNames();
  }

  /** None of them stays, and the chains keep what is put in front. */
  lemma LookAlikeRulesGo()
    ensures KeptRules("FORWARD", [TO_OTHER]) == [] && KeptRules(LOG_CHAIN, [RETURN]) == []
  {
    hide RuleStays;
    LookAlikeIsForeign();
    LookAlikeRulesAreStored();
    LooksRenewed("FORWARD", TO_OTHER);
    LooksRenewed(LOG_CHAIN, RETURN);
    KeptNone("FORWARD", [TO_OTHER]);
    KeptNone(LOG_CHAIN, [RETURN]);
  }

  /** Two foreign rules are lost: one in a chain WHISK-FIREWALL-LOG, one in FORWARD that jumps to a
      chain WHISK-FIREWALL2. */
  lemma LookAlikeRulesAreLost(cl: Cluster) returns (after: Table)
    requires PrintableCluster(cl) && forall i :: 0 <= i < |WhiskRules(cl)| ==> |WhiskRules(cl)[i]| < MAX_LINE - 17
    ensures Restore(Verbatim, Lines(Reconciled(cl, ScanLines(Save(LookAlikeTable(), LookAlikeLayout()))))) == Some(after)
    ensures HasRules(LookAlikeTable(), LOG_CHAIN, [RETURN]) && HasRules(after, LOG_CHAIN, [])
    ensures HasRules(LookAlikeTable(), "FORWARD", [TO_OTHER]) && HasRules(after, "FORWARD", [TO_PER_CONTAINER, TO_WHISK])
    ensures Foreign(LOG_CHAIN, RETURN) && Foreign("FORWARD", TO_OTHER)
  {
    hide Restore, Lines, Reconciled, ScanLines, Save, Kernel, WhiskRules, PrintableCluster, RuleStays, WellFormed, Scannable,
         StoredRule, KeepsMeaning, FreshTable, LookAlikeTable, LookAlikeLayout, KeptRules;
    VerbatimKernel((net: string, address: nat) => false, cl);
    LookAlikeTableIsWellFormed();
    LookAlikeTableIsScannable();
    LookAlikeRules();
    LookAlikeRulesGo();
    LookAlikeIsForeign();
    var t := LookAlikeTable();
    after := WhatReconcilingDoes(Verbatim, cl, t, LookAlikeLayout());
    var jumps := [TO_PER_CONTAINER, TO_WHISK];
    assert jumps + [] == jumps;
  }

  lemma LookAlikeIsForeign()
    ensures Foreign(LOG_CHAIN, RETURN) && Foreign("FORWARD", TO_OTHER)
    ensures RuleText(TO_OTHER) && RuleText(RETURN)
    ensures LOG_CHAIN !in {"FORWARD", "INPUT", WHISK}
  {
    assert |LOG_CHAIN| == 18 && |WHISK| == 14 && |"FORWARD"| == 7 && |"INPUT"| == 5;
    assert |TO_OTHER| == 19 && |TO_WHISK| == 18 && |TO_PER_CONTAINER| == 26;
  }
}
