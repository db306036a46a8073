/** Reconciling the host firewall: rewriting a saved filter table so that the function containers'
    chains are in place again. */
module Firewall {
  import opened Common
  import opened Text
  import opened Iptables

  // ---------------------------------------------------------------- inputs

  datatype AddressType = ExternalIP | OtherType

  datatype NodeAddress = NodeAddress(kind: AddressType, address: string)

  datatype Node = Node(name: string, addresses: seq<NodeAddress>)

  /** The bridge network of the containers and what the cluster looks like. */
  datatype Cluster = Cluster(
    subnet: string,
    bridge: string,
    nodes: seq<Node>,
    apiSubsets: seq<seq<string>>,
    dnsService: string,
    dnsSubsets: seq<seq<string>>
  )

  // ---------------------------------------------------------------- which lines stay

  const WHISK := "WHISK-FIREWALL"
  const PER_CONTAINER := "PER-CONTAINER-FIREWALL"

  const FIREWALL_CHAIN := ":" + WHISK + " " + "-" + " " + "[0:0]"
  const PER_CONTAINER_CHAIN := ":" + PER_CONTAINER + " " + "-" + " " + "[0:0]"
  const PER_CONTAINER_FORWARD_RULE := "-A FORWARD" + TO_PER_CONTAINER
  const FIREWALL_FORWARD_RULE := "-A FORWARD" + TO_WHISK
  const FIREWALL_INPUT_RULE := "-A INPUT" + TO_WHISK
  const FIREWALL_RULE := "-A " + WHISK

  predicate Relevant(line: string) {
    HasPrefix(line, "*") || HasPrefix(line, ":") || HasPrefix(line, "-")
  }

  /** The rule lines that are written anew. */
  predicate Renewed(line: string) {
    || HasPrefix(line, FIREWALL_RULE)
    || HasPrefix(line, FIREWALL_FORWARD_RULE)
    || HasPrefix(line, PER_CONTAINER_FORWARD_RULE)
    || HasPrefix(line, FIREWALL_INPUT_RULE)
  }

  predicate Stays(line: string) { Relevant(line) && !Renewed(line) }

  // ---------------------------------------------------------------- what is added

  const TO_WHISK := " -j " + WHISK
  const TO_PER_CONTAINER := " -j " + PER_CONTAINER
  const ALLOW_ESTABLISHED := " -m conntrack" + " --ctstate ESTABLISHED" + " -j ACCEPT"
  const RETURN := " -j RETURN"
  const LINK_LOCAL := "169.254.0.0/16"

  /** A rule for packets leaving the bridge network towards a destination. */
  function ServiceRule(cl: Cluster, destination: string, action: string, comment: string): string {
    " -i " + cl.bridge + " ! -o " + cl.bridge + " -d " + destination + " -j " + action
      + " -m comment --comment \"" + comment + "\""
  }

  function LinkLocalRule(cl: Cluster): string {
    " -i " + cl.bridge + " ! -o " + cl.bridge + " -s " + cl.subnet + " -d " + LINK_LOCAL + " -j REJECT"
      + " -m comment --comment \"" + "link local subnet" + "\""
  }

  function AddressRules(cl: Cluster, name: string, addresses: seq<NodeAddress>): seq<string> {
    if addresses == [] then []
    else
      (if addresses[0].kind == ExternalIP
       then [ServiceRule(cl, addresses[0].address, "REJECT", "node: " + name)] else [])
        + AddressRules(cl, name, addresses[1..])
  }

  function NodeRules(cl: Cluster, nodes: seq<Node>): seq<string> {
    if nodes == [] then [] else AddressRules(cl, nodes[0].name, nodes[0].addresses) + NodeRules(cl, nodes[1..])
  }

  function ServiceRules(cl: Cluster, addresses: seq<string>, action: string, comment: string): seq<string> {
    if addresses == [] then []
    else [ServiceRule(cl, addresses[0], action, comment)] + ServiceRules(cl, addresses[1..], action, comment)
  }

  function ClosingRules(cl: Cluster): seq<string> {
    [ServiceRule(cl, "10.0.0.0/8", "REJECT", "cluster services"),
     ServiceRule(cl, cl.subnet, "REJECT", "bridge gateway"),
     LinkLocalRule(cl),
     RETURN]
  }

  /** The rules of the WHISK-FIREWALL chain. */
  function WhiskRules(cl: Cluster): seq<string> {
    [ALLOW_ESTABLISHED]
      + NodeRules(cl, cl.nodes)
      + ServiceRules(cl, Flatten(cl.apiSubsets), "REJECT", "kube api service")
      + [ServiceRule(cl, cl.dnsService, "ACCEPT", "CoreDNS service")]
      + ServiceRules(cl, Flatten(cl.dnsSubsets), "ACCEPT", "CoreDNS pod")
      + ClosingRules(cl)
  }

  function Missing(lines: seq<string>): seq<Command> {
    (if FIREWALL_CHAIN in lines then [] else [Declare(WHISK, NO_POLICY, NO_COUNTERS)])
      + (if PER_CONTAINER_CHAIN in lines then [] else [Declare(PER_CONTAINER, NO_POLICY, NO_COUNTERS)])
  }

  const JUMPS := [Insert("FORWARD", TO_WHISK), Insert("FORWARD", TO_PER_CONTAINER), Insert("INPUT", TO_WHISK)]

  /** The lines of the reconciled text: what stays, then the missing chains, the jumps to the front
      of FORWARD and INPUT, the rules of WHISK-FIREWALL, and the commit. */
  function Reconciled(cl: Cluster, lines: seq<string>): seq<string> {
    Filter(Stays, lines) + ShowAll(Missing(lines)) + ShowAll(JUMPS) + ShowAll(Appends(WHISK, WhiskRules(cl)))
      + ShowAll([Commit])
  }

  // ---------------------------------------------------------------- the reconciler

  /** `serviceRule`. */
  function ServiceLine(cl: Cluster, destination: string, action: string, comment: string): (line: string)
    ensures line == Show(Append(WHISK, ServiceRule(cl, destination, action, comment)))
  {
    WhiskLine(ServiceRule(cl, destination, action, comment));
    FIREWALL_RULE + ServiceRule(cl, destination, action, comment)
  }

  lemma WhiskLine(rule: string)
    ensures FIREWALL_RULE + rule == Show(Append(WHISK, rule))
  {
    assert FIREWALL_RULE == "-A " + WHISK;
  }

  const FORWARD_TO_WHISK := "-I FORWARD" + TO_WHISK
  const FORWARD_TO_PER_CONTAINER := "-I FORWARD" + TO_PER_CONTAINER
  const INPUT_TO_WHISK := "-I INPUT" + TO_WHISK

  lemma ShownForwardToWhisk()
    ensures Show(JUMPS[0]) == FORWARD_TO_WHISK
  {
    assert "-I " + "FORWARD" == "-I FORWARD";
  }

  lemma ShownForwardToPerContainer()
    ensures Show(JUMPS[1]) == FORWARD_TO_PER_CONTAINER
  {
    assert "-I " + "FORWARD" == "-I FORWARD";
  }

  lemma ShownInputToWhisk()
    ensures Show(JUMPS[2]) == INPUT_TO_WHISK
  {
    assert "-I " + "INPUT" == "-I INPUT";
  }

  lemma ShownJumps()
    ensures ShowAll(JUMPS) == [FORWARD_TO_WHISK, FORWARD_TO_PER_CONTAINER, INPUT_TO_WHISK]
  {
    hide Show;
    ShownForwardToWhisk();
    ShownForwardToPerContainer();
    ShownInputToWhisk();
  }

  lemma ShownChains()
    ensures FIREWALL_CHAIN == Show(Declare(WHISK, NO_POLICY, NO_COUNTERS))
    ensures PER_CONTAINER_CHAIN == Show(Declare(PER_CONTAINER, NO_POLICY, NO_COUNTERS))
  {
    assert FIREWALL_CHAIN == ":" + WHISK + " " + NO_POLICY + " " + NO_COUNTERS;
    assert PER_CONTAINER_CHAIN == ":" + PER_CONTAINER + " " + NO_POLICY + " " + NO_COUNTERS;
  }

  lemma {:induction false} ShowAllAppend(a: seq<Command>, b: seq<Command>)
    ensures ShowAll(a + b) == ShowAll(a) + ShowAll(b)
  {
  }

  /** Showing the rules of WHISK-FIREWALL one by one. */
  function WhiskLines(rules: seq<string>): seq<string> { ShowAll(Appends(WHISK, rules)) }

  lemma WhiskLinesSplit(a: seq<string>, b: seq<string>)
    ensures WhiskLines(a + b) == WhiskLines(a) + WhiskLines(b)
  {
    hide Show, ShowAll, Appends;
    AppendsSplit(WHISK, a, b);
    ShowAllAppend(Appends(WHISK, a), Appends(WHISK, b));
  }

  lemma WhiskLinesOne(rule: string)
    ensures WhiskLines([rule]) == [FIREWALL_RULE + rule]
  {
    WhiskLine(rule);
  }

  lemma RenewedIsRule(line: string)
    requires Renewed(line)
    ensures HasPrefix(line, "-A") && line[0] == '-' && line[1] == 'A'
  {
    var two := line[..2];
    assert two[0] == '-' && two[1] == 'A';
  }

  /** The scan: drops what is not needed and what is written anew, and looks for the chains. */
  method ScanRules(lines: seq<string>) returns (rules: seq<string>, containsFirewallChain: bool, containsPerContainerChain: bool)
    ensures rules == Filter(Stays, lines)
    ensures containsFirewallChain <==> FIREWALL_CHAIN in lines
    ensures containsPerContainerChain <==> PER_CONTAINER_CHAIN in lines
  {
    hide Filter, HasPrefix;
    rules, containsFirewallChain, containsPerContainerChain := [], false, false;
    assert lines[0..] == lines;
    for i := 0 to |lines|
      invariant rules + Filter(Stays, lines[i..]) == Filter(Stays, lines)
      invariant containsFirewallChain <==> FIREWALL_CHAIN in lines[..i]
      invariant containsPerContainerChain <==> PER_CONTAINER_CHAIN in lines[..i]
    {
      var line := lines[i];
      assert lines[..i + 1] == lines[..i] + [line];
      StaysFrom(lines, i);
      KindsOfLines(line);
      if !HasPrefix(line, "*") && !HasPrefix(line, ":") && !HasPrefix(line, "-") {
        continue;
      }
      if line == FIREWALL_CHAIN {
        containsFirewallChain := true;
      } else if line == PER_CONTAINER_CHAIN {
        containsPerContainerChain := true;
      } else if HasPrefix(line, "-A") {
        if HasPrefix(line, FIREWALL_RULE) || HasPrefix(line, FIREWALL_FORWARD_RULE)
           || HasPrefix(line, PER_CONTAINER_FORWARD_RULE) || HasPrefix(line, FIREWALL_INPUT_RULE) {
          continue;
        }
      }
      rules := rules + [line];
    }
    assert lines[..|lines|] == lines && rules + Filter(Stays, lines[|lines|..]) == rules by { NothingStays(lines[|lines|..]); }
  }

  lemma StaysFrom(lines: seq<string>, i: nat)
    requires i < |lines|
    ensures Filter(Stays, lines[i..]) == (if Stays(lines[i]) then [lines[i]] else []) + Filter(Stays, lines[i + 1..])
  {
    hide Stays;
    assert lines[i..][0] == lines[i] && lines[i..][1..] == lines[i + 1..];
  }

  lemma NothingStays(none: seq<string>)
    requires none == []
    ensures Filter(Stays, none) == []
  {
  }

  /** A declaration is no rule, and what is written anew are rules. */
  lemma KindsOfLines(line: string)
    ensures Renewed(line) ==> HasPrefix(line, "-A") && line != FIREWALL_CHAIN && line != PER_CONTAINER_CHAIN
    ensures line == FIREWALL_CHAIN || line == PER_CONTAINER_CHAIN ==> HasPrefix(line, ":")
  {
    if Renewed(line) { RenewedIsRule(line); }
    assert FIREWALL_CHAIN[0] == ':' && PER_CONTAINER_CHAIN[0] == ':';
  }

  /** Appends the rules that reject the external addresses of all nodes. Only external addresses are
      picked: internal ones fall under the blanket rule for the 10 dot network. */
  method AddNodes(cl: Cluster, before: seq<string>) returns (rules: seq<string>)
    ensures rules == before + WhiskLines(NodeRules(cl, cl.nodes))
  {
    hide WhiskLines, AddressRules, ServiceRule, ServiceLine;
    ghost var goal := before + WhiskLines(NodeRules(cl, cl.nodes));
    rules := before;
    for i := 0 to |cl.nodes|
      invariant rules + WhiskLines(NodeRules(cl, cl.nodes[i..])) == goal
    {
      var node := cl.nodes[i];
      ghost var later := WhiskLines(NodeRules(cl, cl.nodes[i + 1..]));
      assert cl.nodes[i..] == [node] + cl.nodes[i + 1..];
      WhiskLinesSplit(AddressRules(cl, node.name, node.addresses), NodeRules(cl, cl.nodes[i + 1..]));
      for j := 0 to |node.addresses|
        invariant rules + WhiskLines(AddressRules(cl, node.name, node.addresses[j..])) + later == goal
      {
        var address := node.addresses[j];
        FirstAddress(cl, node.name, node.addresses[j..]);
        assert node.addresses[j..][1..] == node.addresses[j + 1..];
        if address.kind != ExternalIP {
          continue;
        }
        rules := rules + [ServiceLine(cl, address.address, "REJECT", "node: " + node.name)];
      }
      NoAddresses(cl, node.name, node.addresses[|node.addresses|..]);
    }
    NoAddresses(cl, "", []);
  }

  lemma FirstAddress(cl: Cluster, name: string, addresses: seq<NodeAddress>)
    requires addresses != []
    ensures WhiskLines(AddressRules(cl, name, addresses))
         == (if addresses[0].kind == ExternalIP then [ServiceLine(cl, addresses[0].address, "REJECT", "node: " + name)] else [])
          + WhiskLines(AddressRules(cl, name, addresses[1..]))
  {
    hide WhiskLines, ServiceRule, ServiceLine;
    var rest := AddressRules(cl, name, addresses[1..]);
    assert [] + rest == rest && [] + WhiskLines(rest) == WhiskLines(rest);
    if addresses[0].kind == ExternalIP {
      WhiskLinesSplit([ServiceRule(cl, addresses[0].address, "REJECT", "node: " + name)],
                      AddressRules(cl, name, addresses[1..]));
      ServiceLineIsWhiskLine(cl, addresses[0].address, "REJECT", "node: " + name);
    }
  }

  lemma NoAddresses(cl: Cluster, name: string, addresses: seq<NodeAddress>)
    requires addresses == []
    ensures WhiskLines(AddressRules(cl, name, addresses)) == [] && WhiskLines([]) == []
  {
  }

  /** The lines of one address and of those after it. */
  lemma ServiceLinesFrom(cl: Cluster, addresses: seq<string>, later: seq<string>, j: nat, action: string, comment: string)
    requires j < |addresses|
    ensures WhiskLines(ServiceRules(cl, addresses[j..] + later, action, comment))
         == [ServiceLine(cl, addresses[j], action, comment)] + WhiskLines(ServiceRules(cl, addresses[j + 1..] + later, action, comment))
  {
    hide WhiskLines, ServiceRule, ServiceLine;
    var rest := addresses[j + 1..] + later;
    assert addresses[j..] + later == [addresses[j]] + rest;
    WhiskLinesSplit([ServiceRule(cl, addresses[j], action, comment)], ServiceRules(cl, rest, action, comment));
    ServiceLineIsWhiskLine(cl, addresses[j], action, comment);
  }

  lemma FlattenFrom(subsets: seq<seq<string>>, i: nat)
    requires i < |subsets|
    ensures Flatten(subsets[i..]) == subsets[i] + Flatten(subsets[i + 1..])
  {
    assert subsets[i..] == [subsets[i]] + subsets[i + 1..];
  }

  /** Appends one rule for every address of every subset. */
  method AddServices(cl: Cluster, before: seq<string>, subsets: seq<seq<string>>, action: string, comment: string)
      returns (rules: seq<string>)
    ensures rules == before + WhiskLines(ServiceRules(cl, Flatten(subsets), action, comment))
  {
    hide WhiskLines, ServiceRules, ServiceLine, Flatten;
    ghost var goal := before + WhiskLines(ServiceRules(cl, Flatten(subsets), action, comment));
    rules := before;
    for i := 0 to |subsets|
      invariant rules + WhiskLines(ServiceRules(cl, Flatten(subsets[i..]), action, comment)) == goal
    {
      var subset := subsets[i];
      ghost var later := Flatten(subsets[i + 1..]);
      FlattenFrom(subsets, i);
      for j := 0 to |subset|
        invariant rules + WhiskLines(ServiceRules(cl, subset[j..] + later, action, comment)) == goal
      {
        var address := subset[j];
        ServiceLinesFrom(cl, subset, later, j, action, comment);
        rules := rules + [ServiceLine(cl, address, action, comment)];
      }
      assert subset[|subset|..] + later == later;
    }
    NoServiceLines(cl, subsets, action, comment);
  }

  lemma NoServiceLines(cl: Cluster, subsets: seq<seq<string>>, action: string, comment: string)
    ensures WhiskLines(ServiceRules(cl, Flatten(subsets[|subsets|..]), action, comment)) == []
  {
  }

  lemma ShownMissing(lines: seq<string>)
    ensures ShowAll(Missing(lines))
         == (if FIREWALL_CHAIN in lines then [] else [FIREWALL_CHAIN])
          + (if PER_CONTAINER_CHAIN in lines then [] else [PER_CONTAINER_CHAIN])
  {
    hide Show;
    ShownChains();
  }

  /** Appends all rules of WHISK-FIREWALL. */
  method AddWhiskRules(cl: Cluster, before: seq<string>) returns (rules: seq<string>)
    ensures rules == before + WhiskLines(WhiskRules(cl))
  {
    hide WhiskLines, WhiskRules, NodeRules, ServiceRules, ServiceRule, LinkLocalRule, ServiceLine;
    ghost var added := [FIREWALL_RULE + ALLOW_ESTABLISHED];
    rules := before + [FIREWALL_RULE + ALLOW_ESTABLISHED];
    rules := AddNodes(cl, rules);
    added := Grow(before, added, WhiskLines(NodeRules(cl, cl.nodes)));
    rules := AddServices(cl, rules, cl.apiSubsets, "REJECT", "kube api service");
    added := Grow(before, added, WhiskLines(ServiceRules(cl, Flatten(cl.apiSubsets), "REJECT", "kube api service")));
    rules := rules + [ServiceLine(cl, cl.dnsService, "ACCEPT", "CoreDNS service")];
    added := Grow(before, added, [ServiceLine(cl, cl.dnsService, "ACCEPT", "CoreDNS service")]);
    rules := AddServices(cl, rules, cl.dnsSubsets, "ACCEPT", "CoreDNS pod");
    added := Grow(before, added, WhiskLines(ServiceRules(cl, Flatten(cl.dnsSubsets), "ACCEPT", "CoreDNS pod")));
    rules := rules + [ServiceLine(cl, "10.0.0.0/8", "REJECT", "cluster services")];
    added := Grow(before, added, [ServiceLine(cl, "10.0.0.0/8", "REJECT", "cluster services")]);
    rules := rules + [ServiceLine(cl, cl.subnet, "REJECT", "bridge gateway")];
    added := Grow(before, added, [ServiceLine(cl, cl.subnet, "REJECT", "bridge gateway")]);
    rules := rules + [FIREWALL_RULE + LinkLocalRule(cl)];
    added := Grow(before, added, [FIREWALL_RULE + LinkLocalRule(cl)]);
    rules := rules + [FIREWALL_RULE + RETURN];
    added := Grow(before, added, [FIREWALL_RULE + RETURN]);
    WhiskLinesOfWhiskRules(cl);
  }

  lemma Grow(before: seq<string>, added: seq<string>, more: seq<string>) returns (all: seq<string>)
    ensures all == added + more && before + added + more == before + all
  {
    all := added + more;
  }

  /** `reconcile`: from the saved text to the text to restore. */
  method Reconcile(current: string, cl: Cluster) returns (text: string)
    ensures text == Lines(Reconciled(cl, ScanLines(current)))
  {
    hide WhiskLines, WhiskRules, NodeRules, ServiceRules, ServiceRule, LinkLocalRule, ServiceLine, Missing, Filter, Lines, ShowAll;
    var lines := ScanLines(current);
    var rules, containsFirewallChain, containsPerContainerChain := ScanRules(lines);

    if !containsFirewallChain {
      rules := rules + [FIREWALL_CHAIN];
    }
    if !containsPerContainerChain {
      rules := rules + [PER_CONTAINER_CHAIN];
    }
    assert rules == Filter(Stays, lines) + ShowAll(Missing(lines)) by { ShownMissing(lines); }

    // The two jumps in FORWARD are flipped because each is inserted at the front.
    rules := rules + [FORWARD_TO_WHISK];
    rules := rules + [FORWARD_TO_PER_CONTAINER];
    rules := rules + [INPUT_TO_WHISK];
    ghost var jumped := Filter(Stays, lines) + ShowAll(Missing(lines)) + ShowAll(JUMPS);
    assert rules == jumped by { ShownJumps(); }

    rules := AddWhiskRules(cl, rules);
    rules := rules + ["COMMIT"];
    assert rules == Reconciled(cl, lines) by { ShownCommit(cl); }
    text := Lines(rules);
  }

  lemma ShownCommit(cl: Cluster)
    ensures ShowAll([Commit]) == ["COMMIT"]
    ensures WhiskLines(WhiskRules(cl)) == ShowAll(Appends(WHISK, WhiskRules(cl)))
  {
  }

  lemma WhiskLinesOfWhiskRules(cl: Cluster)
    ensures WhiskLines(WhiskRules(cl))
         == [FIREWALL_RULE + ALLOW_ESTABLISHED]
          + WhiskLines(NodeRules(cl, cl.nodes))
          + WhiskLines(ServiceRules(cl, Flatten(cl.apiSubsets), "REJECT", "kube api service"))
          + [ServiceLine(cl, cl.dnsService, "ACCEPT", "CoreDNS service")]
          + WhiskLines(ServiceRules(cl, Flatten(cl.dnsSubsets), "ACCEPT", "CoreDNS pod"))
          + [ServiceLine(cl, "10.0.0.0/8", "REJECT", "cluster services")]
          + [ServiceLine(cl, cl.subnet, "REJECT", "bridge gateway")]
          + [FIREWALL_RULE + LinkLocalRule(cl)]
          + [FIREWALL_RULE + RETURN]
  {
    hide WhiskLines, NodeRules, ServiceRules, ServiceRule, LinkLocalRule, ServiceLine;
    var a := [ALLOW_ESTABLISHED];
    var b := NodeRules(cl, cl.nodes);
    var c := ServiceRules(cl, Flatten(cl.apiSubsets), "REJECT", "kube api service");
    var d := [ServiceRule(cl, cl.dnsService, "ACCEPT", "CoreDNS service")];
    var e := ServiceRules(cl, Flatten(cl.dnsSubsets), "ACCEPT", "CoreDNS pod");
    WhiskLinesSplit(a, b);
    WhiskLinesSplit(a + b, c);
    WhiskLinesSplit(a + b + c, d);
    WhiskLinesSplit(a + b + c + d, e);
    WhiskLinesSplit(a + b + c + d + e, ClosingRules(cl));
    WhiskLinesOne(ALLOW_ESTABLISHED);
    ServiceLineIsWhiskLine(cl, cl.dnsService, "ACCEPT", "CoreDNS service");
    WhiskLinesOfClosing(cl);
  }

  lemma ServiceLineIsWhiskLine(cl: Cluster, destination: string, action: string, comment: string)
    ensures WhiskLines([ServiceRule(cl, destination, action, comment)]) == [ServiceLine(cl, destination, action, comment)]
  {
    hide ServiceRule;
    WhiskLinesOne(ServiceRule(cl, destination, action, comment));
  }

  lemma WhiskLinesOfClosing(cl: Cluster)
    ensures WhiskLines(ClosingRules(cl))
         == [ServiceLine(cl, "10.0.0.0/8", "REJECT", "cluster services")]
          + [ServiceLine(cl, cl.subnet, "REJECT", "bridge gateway")]
          + [FIREWALL_RULE + LinkLocalRule(cl)]
          + [FIREWALL_RULE + RETURN]
  {
    hide WhiskLines, ServiceRule, LinkLocalRule, ServiceLine;
    var a := ServiceRule(cl, "10.0.0.0/8", "REJECT", "cluster services");
    var b := ServiceRule(cl, cl.subnet, "REJECT", "bridge gateway");
    assert ClosingRules(cl) == [a] + [b] + [LinkLocalRule(cl)] + [RETURN];
    WhiskLinesSplit([a], [b]);
    WhiskLinesSplit([a] + [b], [LinkLocalRule(cl)]);
    WhiskLinesSplit([a] + [b] + [LinkLocalRule(cl)], [RETURN]);
    ServiceLineIsWhiskLine(cl, "10.0.0.0/8", "REJECT", "cluster services");
    ServiceLineIsWhiskLine(cl, cl.subnet, "REJECT", "bridge gateway");
    WhiskLinesOne(LinkLocalRule(cl));
    WhiskLinesOne(RETURN);
  }
}
