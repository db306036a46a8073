/** The decision of the reconciled firewall in numbers: texts of addresses and networks are read as
    iptables reads them, and every packet is decided by its interfaces, its state and its numbers alone. */
module FirewallNumbers {
  import opened Common
  import opened Text
  import opened Iptables
  import opened Firewall
  import opened FirewallTheorems
  import opened FirewallMeaning
  import Addresses

  // ---------------------------------------------------------------- lists of addresses, written out

  lemma {:induction false} ExternalIff(covers: Covers, addresses: seq<NodeAddress>, d: nat)
    ensures AnyCovers(covers, External(addresses), d)
       <==> exists j :: 0 <= j < |addresses| && addresses[j].kind == ExternalIP && covers(addresses[j].address, d)
  {
    hide AnyCovers;
    if addresses == [] {
      NothingCovers(covers, d);
    } else {
      var first, rest := addresses[0], addresses[1..];
      ExternalIff(covers, rest, d);
      NothingCovers(covers, d);
      OneCovers(covers, first.address, d);
      AnyCoversAppend(covers, if first.kind == ExternalIP then [first.address] else [], External(rest), d);
      assert forall j :: 0 <= j < |rest| ==> rest[j] == addresses[j + 1];
      if AnyCovers(covers, External(rest), d) {
        var j :| 0 <= j < |rest| && rest[j].kind == ExternalIP && covers(rest[j].address, d);
        assert addresses[j + 1].kind == ExternalIP && covers(addresses[j + 1].address, d);
      }
      forall j | 0 <= j < |addresses| && addresses[j].kind == ExternalIP && covers(addresses[j].address, d)
        ensures (first.kind == ExternalIP && covers(first.address, d)) || AnyCovers(covers, External(rest), d)
      {
        if j > 0 { assert rest[j - 1] == addresses[j]; }
      }
    }
  }

  lemma OneCovers(covers: Covers, address: string, d: nat)
    ensures AnyCovers(covers, [address], d) <==> covers(address, d)
  {
    if covers(address, d) { assert covers([address][0], d); }
  }

  /** Some node has an external address that covers it. */
  predicate OnNode(covers: Covers, nodes: seq<Node>, d: nat) {
    exists i, j :: 0 <= i < |nodes| && 0 <= j < |nodes[i].addresses|
      && nodes[i].addresses[j].kind == ExternalIP && covers(nodes[i].addresses[j].address, d)
  }

  /** Some address of some subset covers it. */
  predicate InSubset(covers: Covers, subsets: seq<seq<string>>, d: nat) {
    exists i, j :: 0 <= i < |subsets| && 0 <= j < |subsets[i]| && covers(subsets[i][j], d)
  }

  lemma {:induction false} NodesIff(covers: Covers, nodes: seq<Node>, d: nat)
    ensures AnyCovers(covers, ExternalAddresses(nodes), d) <==> OnNode(covers, nodes, d)
  {
    hide AnyCovers;
    if nodes == [] {
      NothingCovers(covers, d);
    } else {
      NodesIff(covers, nodes[1..], d);
      ExternalIff(covers, nodes[0].addresses, d);
      AnyCoversAppend(covers, External(nodes[0].addresses), ExternalAddresses(nodes[1..]), d);
      OnFirstNode(covers, nodes, d);
    }
  }

  lemma OnFirstNode(covers: Covers, nodes: seq<Node>, d: nat)
    requires nodes != []
    ensures OnNode(covers, nodes, d) <==>
      || OnNode(covers, nodes[1..], d)
      || exists j :: 0 <= j < |nodes[0].addresses| && nodes[0].addresses[j].kind == ExternalIP && covers(nodes[0].addresses[j].address, d)
  {
    assert forall i :: 0 <= i < |nodes| - 1 ==> nodes[1..][i] == nodes[i + 1];
    if OnNode(covers, nodes[1..], d) {
      var i, j :| 0 <= i < |nodes[1..]| && 0 <= j < |nodes[1..][i].addresses|
        && nodes[1..][i].addresses[j].kind == ExternalIP && covers(nodes[1..][i].addresses[j].address, d);
      assert nodes[i + 1].addresses[j].kind == ExternalIP;
    }
    if OnNode(covers, nodes, d) {
      var i, j :| 0 <= i < |nodes| && 0 <= j < |nodes[i].addresses|
        && nodes[i].addresses[j].kind == ExternalIP && covers(nodes[i].addresses[j].address, d);
      if i > 0 { assert nodes[1..][i - 1].addresses[j].kind == ExternalIP; }
    }
  }

  lemma {:induction false} SubsetsIff(covers: Covers, subsets: seq<seq<string>>, d: nat)
    ensures AnyCovers(covers, Flatten(subsets), d) <==> InSubset(covers, subsets, d)
  {
    hide AnyCovers;
    if subsets == [] {
      NothingCovers(covers, d);
    } else {
      SubsetsIff(covers, subsets[1..], d);
      AnyCoversAppend(covers, subsets[0], Flatten(subsets[1..]), d);
      InFirstSubset(covers, subsets, d);
    }
  }

  lemma InFirstSubset(covers: Covers, subsets: seq<seq<string>>, d: nat)
    requires subsets != []
    ensures InSubset(covers, subsets, d) <==> InSubset(covers, subsets[1..], d) || AnyCovers(covers, subsets[0], d)
  {
    assert forall i :: 0 <= i < |subsets| - 1 ==> subsets[1..][i] == subsets[i + 1];
    if InSubset(covers, subsets[1..], d) {
      var i, j :| 0 <= i < |subsets[1..]| && 0 <= j < |subsets[1..][i]| && covers(subsets[1..][i][j], d);
      assert covers(subsets[i + 1][j], d);
    }
    if AnyCovers(covers, subsets[0], d) {
      var j :| 0 <= j < |subsets[0]| && covers(subsets[0][j], d);
    }
    if InSubset(covers, subsets, d) {
      var i, j :| 0 <= i < |subsets| && 0 <= j < |subsets[i]| && covers(subsets[i][j], d);
      if i > 0 { assert covers(subsets[1..][i - 1][j], d); }
    }
  }

  /** The decision, written out in numbers. */
  lemma DecisionInNumbers(cl: Cluster, p: Packet)
    ensures var read: Covers := Addresses.Covers;
      Intended(read, cl, p) ==
        if p.state == "ESTABLISHED" then "ACCEPT"
        else if p.inBridge != cl.bridge || p.outBridge == cl.bridge then "RETURN"
        else if OnNode(read, cl.nodes, p.destination) || InSubset(read, cl.apiSubsets, p.destination) then "REJECT"
        else if read(cl.dnsService, p.destination) || InSubset(read, cl.dnsSubsets, p.destination) then "ACCEPT"
        else if 167_772_160 <= p.destination <= 184_549_375 || read(cl.subnet, p.destination) then "REJECT"
        else if read(cl.subnet, p.source) && 2_851_995_648 <= p.destination <= 2_852_061_183 then "REJECT"
        else "RETURN"
  {
    hide AnyCovers, Addresses.Covers, OnNode, InSubset;
    var read: Covers := Addresses.Covers;
    var d := p.destination;
    AnyCoversAppend(read, ExternalAddresses(cl.nodes), Flatten(cl.apiSubsets), d);
    NodesIff(read, cl.nodes, d);
    SubsetsIff(read, cl.apiSubsets, d);
    SubsetsIff(read, cl.dnsSubsets, d);
    DnsCovers(read, cl.dnsService, Flatten(cl.dnsSubsets), d);
    TwoCover(read, "10.0.0.0/8", cl.subnet, d);
    Addresses.TenNetwork(d);
    Addresses.LinkLocalNetwork(d);
  }

  lemma TwoCover(covers: Covers, a: string, b: string, d: nat)
    ensures AnyCovers(covers, [a, b], d) <==> covers(a, d) || covers(b, d)
  {
    if covers(a, d) { assert covers([a, b][0], d); }
    if covers(b, d) { assert covers([a, b][1], d); }
  }

  // ---------------------------------------------------------------- the decision of the restored firewall

  /** The firewall in numbers. In the table restored from the reconciled text, for every packet: answers
      may flow back; what does not leave the bridge is left to later chains; external addresses of nodes and
      addresses of the cluster's API are rejected; then DNS is accepted; then 10.0.0.0 to 10.255.255.255 and
      the bridge network are rejected, and 169.254.0.0 to 169.254.255.255 for what comes from the bridge
      network; everything else is left to later chains. */
  lemma FirewallDecidesInNumbers(canon: string -> string, cl: Cluster, t: Table, l: Layout, p: Packet)
    requires WellFormed(canon, t) && Scannable(t, l) && Kernel(canon, cl) && CleanCluster(cl)
    requires KeepsMeaning(canon, Addresses.Covers, WhiskRules(cl))
    ensures var after := Restore(canon, Lines(Reconciled(cl, ScanLines(Save(t, l)))));
      after.Some? && "WHISK-FIREWALL" in after.value &&
      FirstMatch(Addresses.Covers, after.value["WHISK-FIREWALL"].rules, p) == Some(
        if p.state == "ESTABLISHED" then "ACCEPT"
        else if p.inBridge != cl.bridge || p.outBridge == cl.bridge then "RETURN"
        else if exists i, j :: 0 <= i < |cl.nodes| && 0 <= j < |cl.nodes[i].addresses|
                  && cl.nodes[i].addresses[j].kind == ExternalIP
                  && Addresses.Covers(cl.nodes[i].addresses[j].address, p.destination) then "REJECT"
        else if exists i, j :: 0 <= i < |cl.apiSubsets| && 0 <= j < |cl.apiSubsets[i]|
                  && Addresses.Covers(cl.apiSubsets[i][j], p.destination) then "REJECT"
        else if Addresses.Covers(cl.dnsService, p.destination) then "ACCEPT"
        else if exists i, j :: 0 <= i < |cl.dnsSubsets| && 0 <= j < |cl.dnsSubsets[i]|
                  && Addresses.Covers(cl.dnsSubsets[i][j], p.destination) then "ACCEPT"
        else if 167_772_160 <= p.destination <= 184_549_375 then "REJECT"
        else if Addresses.Covers(cl.subnet, p.destination) then "REJECT"
        else if Addresses.Covers(cl.subnet, p.source) && 2_851_995_648 <= p.destination <= 2_852_061_183 then "REJECT"
        else "RETURN")
  {
    hide Restore, Lines, Reconciled, ScanLines, Save, WellFormed, Scannable, Kernel, WhiskRules, FirstMatch, Intended, CleanCluster,
         KeepsMeaning, Addresses.Covers;
    ReconciledFirewallDecides(canon, Addresses.Covers, cl, t, l, p);
    DecisionInNumbers(cl, p);
  }

  /** So nothing inside the cluster and nothing link-local is reached from the bridge network: no packet to
      10.0.0.0-10.255.255.255 or 169.254.0.0-169.254.255.255 is let through, and only DNS is accepted. */
  lemma InsideIsRejected(canon: string -> string, cl: Cluster, t: Table, l: Layout, p: Packet)
    requires WellFormed(canon, t) && Scannable(t, l) && Kernel(canon, cl) && CleanCluster(cl)
    requires KeepsMeaning(canon, Addresses.Covers, WhiskRules(cl))
    requires p.inBridge == cl.bridge && p.outBridge != cl.bridge && p.state != "ESTABLISHED"
    requires Addresses.Covers(cl.subnet, p.source)
    requires 167_772_160 <= p.destination <= 184_549_375 || 2_851_995_648 <= p.destination <= 2_852_061_183
    ensures var after := Restore(canon, Lines(Reconciled(cl, ScanLines(Save(t, l)))));
      after.Some? && "WHISK-FIREWALL" in after.value &&
      var verdict := FirstMatch(Addresses.Covers, after.value["WHISK-FIREWALL"].rules, p);
      && (verdict == Some("REJECT") || verdict == Some("ACCEPT"))
      && (verdict == Some("ACCEPT") ==>
            || Addresses.Covers(cl.dnsService, p.destination)
            || exists i, j :: 0 <= i < |cl.dnsSubsets| && 0 <= j < |cl.dnsSubsets[i]| && Addresses.Covers(cl.dnsSubsets[i][j], p.destination))
  {
    hide Restore, Lines, Reconciled, ScanLines, Save, WellFormed, Scannable, Kernel, WhiskRules, FirstMatch, CleanCluster,
         KeepsMeaning, Addresses.Covers;
    FirewallDecidesInNumbers(canon, cl, t, l, p);
  }

  /** The jumps lead: FORWARD first goes to the rules of single containers and then to the common ones, and
      INPUT first to the common ones. */
  lemma JumpsLead(canon: string -> string, cl: Cluster, t: Table, l: Layout)
    requires WellFormed(canon, t) && Scannable(t, l) && Kernel(canon, cl)
    ensures var after := Restore(canon, Lines(Reconciled(cl, ScanLines(Save(t, l)))));
      && after.Some? && "FORWARD" in after.value && "INPUT" in after.value && "PER-CONTAINER-FIREWALL" in after.value
      && [" -j PER-CONTAINER-FIREWALL", " -j WHISK-FIREWALL"] <= after.value["FORWARD"].rules
      && [" -j WHISK-FIREWALL"] <= after.value["INPUT"].rules
  {
    hide Restore, Lines, Reconciled, ScanLines, Save, WellFormed, Scannable, Kernel, WhiskRules, KeptRules;
    BuiltInsExist(canon, t);
    var after := WhatReconcilingDoes(canon, cl, t, l);
    JumpTexts();
    var jumps := [" -j PER-CONTAINER-FIREWALL", " -j WHISK-FIREWALL"];
    assert [TO_PER_CONTAINER, TO_WHISK] == jumps;
    assert jumps <= jumps + KeptRules("FORWARD", t["FORWARD"].rules);
  }

  lemma JumpTexts()
    ensures TO_WHISK == " -j WHISK-FIREWALL" && TO_PER_CONTAINER == " -j PER-CONTAINER-FIREWALL"
  {
    ToWhiskText();
    ToPerContainerText();
  }

  lemma ToWhiskText()
    ensures TO_WHISK == " -j WHISK-FIREWALL"
  {
  }

  lemma ToPerContainerText()
    ensures TO_PER_CONTAINER == " -j PER-CONTAINER-FIREWALL"
  {
  }

  // ---------------------------------------------------------------- the lines in full

  /** The line of a service rule. */
  lemma ServiceLineInFull(cl: Cluster, destination: string, action: string, comment: string)
    ensures ServiceLine(cl, destination, action, comment)
         == "-A WHISK-FIREWALL -i " + cl.bridge + " ! -o " + cl.bridge + " -d " + destination + " -j " + action
            + " -m comment --comment \"" + comment + "\""
  {
    WhiskStart();
    InOneLine(FIREWALL_RULE, [" -i ", cl.bridge, " ! -o ", cl.bridge, " -d ", destination, " -j ", action,
                              " -m comment --comment \"", comment, "\""]);
  }

  /** Texts joined from the left, with another before the first. */
  lemma InOneLine(x: string, p: seq<string>)
    requires |p| == 11
    ensures x + (p[0] + p[1] + p[2] + p[3] + p[4] + p[5] + p[6] + p[7] + p[8] + p[9] + p[10])
         == (x + p[0]) + p[1] + p[2] + p[3] + p[4] + p[5] + p[6] + p[7] + p[8] + p[9] + p[10]
  {
    var p2 := p[0] + p[1] + p[2];
    var p5 := p2 + p[3] + p[4] + p[5];
    var p8 := p5 + p[6] + p[7] + p[8];
    assert x + p2 == (x + p[0]) + p[1] + p[2];
    assert x + p5 == (x + p2) + p[3] + p[4] + p[5];
    assert x + p8 == (x + p5) + p[6] + p[7] + p[8];
    assert x + (p8 + p[9] + p[10]) == (x + p8) + p[9] + p[10];
  }

  lemma WhiskStart()
    ensures FIREWALL_RULE + " -i " == "-A WHISK-FIREWALL -i "
  {
  }

  /** The declarations of the two chains, and the jumps in the order in which they are inserted. */
  lemma FixedLinesInFull()
    ensures FIREWALL_CHAIN == ":WHISK-FIREWALL - [0:0]"
    ensures PER_CONTAINER_CHAIN == ":PER-CONTAINER-FIREWALL - [0:0]"
    ensures ShowAll(JUMPS) == ["-I FORWARD -j WHISK-FIREWALL", "-I FORWARD -j PER-CONTAINER-FIREWALL", "-I INPUT -j WHISK-FIREWALL"]
  {
    hide ShowAll;
    WhiskChainText();
    PerContainerChainText();
    ShownJumps();
    JumpLines();
  }

  lemma WhiskChainText()
    ensures FIREWALL_CHAIN == ":WHISK-FIREWALL - [0:0]"
  {
  }

  lemma PerContainerChainText()
    ensures PER_CONTAINER_CHAIN == ":PER-CONTAINER-FIREWALL - [0:0]"
  {
  }

  lemma JumpLines()
    ensures FORWARD_TO_WHISK == "-I FORWARD -j WHISK-FIREWALL" && FORWARD_TO_PER_CONTAINER == "-I FORWARD -j PER-CONTAINER-FIREWALL"
    ensures INPUT_TO_WHISK == "-I INPUT -j WHISK-FIREWALL"
  {
    ForwardToWhiskText();
    ForwardToPerContainerText();
    InputToWhiskText();
  }

  lemma ForwardToWhiskText()
    ensures FORWARD_TO_WHISK == "-I FORWARD -j WHISK-FIREWALL"
  {
  }

  lemma ForwardToPerContainerText()
    ensures FORWARD_TO_PER_CONTAINER == "-I FORWARD -j PER-CONTAINER-FIREWALL"
  {
  }

  lemma InputToWhiskText()
    ensures INPUT_TO_WHISK == "-I INPUT -j WHISK-FIREWALL"
  {
  }
}
