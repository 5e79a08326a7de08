/** The generated NetworkPolicy and what it allows. */
module Egress {
  import opened Prelude
  import opened Api
  import opened Sorting

  datatype Protocol = TCP | UDP
  datatype PolicyPort = PolicyPort(protocol: Protocol, port: int)
  datatype IPBlock = IPBlock(cidr: string, except: seq<string>)
  datatype PolicyPeer = PolicyPeer(
    ipBlock: Option<IPBlock>, namespaceSelector: Option<LabelSelector>, podSelector: Option<LabelSelector>)
  datatype EgressRule = EgressRule(to: seq<PolicyPeer>, ports: seq<PolicyPort>)
  datatype PolicySpec = PolicySpec(podSelector: map<string, string>, egress: seq<EgressRule>)

  const DNS := 53
  const HTTP := 80
  const HTTPS := 443
  const SSH := 22

  // ---- compilation ------------------------------------------------------------------------

  /** First occurrences only. */
  function Dedup(ports: seq<int>): seq<int> {
    if ports == [] then []
    else
      var rest, last := Dedup(ports[..|ports| - 1]), ports[|ports| - 1];
      if last in rest then rest else rest + [last]
  }

  function Without(ports: seq<int>, existing: set<int>): seq<int> {
    FlatMap((p: int) => if p in existing then [] else [p], ports)
  }

  function AdditionalPorts(ports: seq<int>, existing: set<int>): seq<int> {
    Sort(IntLe, Dedup(Without(ports, existing)))
  }

  function PortsOf(protocol: Protocol, ports: seq<int>): seq<PolicyPort> {
    seq(|ports|, i requires 0 <= i < |ports| => PolicyPort(protocol, ports[i]))
  }

  function ToPeer(d: Destination): PolicyPeer {
    PolicyPeer(if d.cidr == "" then None else Some(IPBlock(d.cidr, d.except)), d.namespaceSelector, d.podSelector)
  }

  function ToPeers(destinations: seq<Destination>): seq<PolicyPeer> {
    seq(|destinations|, i requires 0 <= i < |destinations| => ToPeer(destinations[i]))
  }

  function OptionalRule(to: seq<PolicyPeer>, ports: seq<PolicyPort>): seq<EgressRule> {
    if ports == [] then [] else [EgressRule(to, ports)]
  }

  function ReservedTCP(ssh: bool): set<int> {
    {DNS, HTTP, HTTPS} + (if ssh then {SSH} else {})
  }

  function EgressRules(options: EgressOptions, backend: string): seq<EgressRule> {
    var to, ssh := ToPeers(options.destinations), backend == "ssh";
    [EgressRule([], [PolicyPort(UDP, DNS), PolicyPort(TCP, DNS)]),
     EgressRule(to, [PolicyPort(TCP, HTTP), PolicyPort(TCP, HTTPS)])]
    + (if ssh then [EgressRule(to, [PolicyPort(TCP, SSH)])] else [])
    + OptionalRule(to, PortsOf(TCP, AdditionalPorts(options.additionalTCPPorts, ReservedTCP(ssh))))
    + OptionalRule(to, PortsOf(UDP, AdditionalPorts(options.additionalUDPPorts, {DNS})))
  }

  function BuildNetworkPolicy(agent: string, spec: AgentSpec, backend: string): PolicySpec {
    PolicySpec(ResourceLabels(agent), EgressRules(spec.networkPolicy, backend))
  }

  // ---- ports: a set in any order, sorted -----------------------------------------------------

  ghost predicate NoRepeats(s: seq<int>) {
    forall i, j :: 0 <= i < j < |s| ==> s[i] != s[j]
  }

  /** The strictly increasing sequence of exactly these ports. */
  ghost predicate Lists(s: seq<int>, ports: set<int>) {
    Sorted(IntLe, s) && NoRepeats(s) && forall p :: p in s <==> p in ports
  }

  lemma {:induction false} NoRepeatsMultiset(s: seq<int>, p: int)
    requires NoRepeats(s)
    ensures multiset(s)[p] == if p in s then 1 else 0
  {
    if s != [] {
      assert s == [s[0]] + s[1..];
      NoRepeatsMultiset(s[1..], p);
      assert s[0] !in s[1..];
    }
  }

  lemma ListsUnique(s: seq<int>, t: seq<int>, ports: set<int>)
    requires Lists(s, ports) && Lists(t, ports)
    ensures s == t
  {
    IntLeTotal();
    forall p ensures multiset(s)[p] == multiset(t)[p] {
      NoRepeatsMultiset(s, p);
      NoRepeatsMultiset(t, p);
    }
    SortedUnique(IntLe, s, t);
  }

  lemma {:induction false} DedupExact(ports: seq<int>)
    ensures NoRepeats(Dedup(ports)) && forall p :: p in Dedup(ports) <==> p in ports
  {
    if ports != [] {
      var front := ports[..|ports| - 1];
      DedupExact(front);
      assert ports == front + [ports[|ports| - 1]];
    }
  }

  lemma SortLists(s: seq<int>)
    requires NoRepeats(s)
    ensures Lists(Sort(IntLe, s), set p | p in s)
  {
    IntLeTotal();
    SortSorts(IntLe, s);
    var t := Sort(IntLe, s);
    forall p ensures p in t <==> p in s {
      assert p in t <==> p in multiset(t);
      assert p in s <==> p in multiset(s);
    }
    forall i, j | 0 <= i < j < |t| ensures t[i] != t[j] {
      if t[i] == t[j] {
        var a, b := t[..j], t[j..];
        assert t == a + b && a[i] == t[i] && b[0] == t[j];
        assert multiset(t)[t[i]] == multiset(a)[t[i]] + multiset(b)[t[i]] >= 2;
        NoRepeatsMultiset(s, t[i]);
      }
    }
  }

  lemma WithoutExact(ports: seq<int>, existing: set<int>)
    ensures forall p :: p in Without(ports, existing) <==> p in ports && p !in existing
  {
    FlatMapMembers((p: int) => if p in existing then [] else [p], ports);
    forall p | p in ports && p !in existing ensures p in Without(ports, existing) {
      var i :| 0 <= i < |ports| && ports[i] == p;
    }
  }

  lemma AdditionalPortsExact(ports: seq<int>, existing: set<int>)
    ensures Lists(AdditionalPorts(ports, existing), (set p | p in ports) - existing)
  {
    WithoutExact(ports, existing);
    DedupExact(Without(ports, existing));
    SortLists(Dedup(Without(ports, existing)));
  }

  /** Ranging over a Go map: the keys in whatever order the map yields them. */
  method RangeOver(ports: set<int>) returns (ordered: seq<int>)
    ensures NoRepeats(ordered) && forall p :: p in ordered <==> p in ports
  {
    ordered := [];
    var remaining := ports;
    while remaining != {}
      invariant remaining <= ports
      invariant NoRepeats(ordered)
      invariant forall p :: p in ordered <==> p in ports && p !in remaining
      decreases |remaining|
    {
      assert exists p :: p in remaining by {
        if forall p :: p !in remaining { assert false; }
      }
      var port :| port in remaining;
      assert port !in ordered;
      ordered := ordered + [port];
      remaining := remaining - {port};
    }
  }

  method AdditionalNetworkPolicyPorts(ports: seq<int>, existing: set<int>) returns (ordered: seq<int>)
    ensures ordered == AdditionalPorts(ports, existing)
  {
    var unique: set<int> := {};
    for i := 0 to |ports|
      invariant unique == (set p | p in ports[..i]) - existing
    {
      assert ports[..i + 1] == ports[..i] + [ports[i]];
      if ports[i] in existing { continue; }
      unique := unique + {ports[i]};
    }
    assert ports[..|ports|] == ports;
    ordered := RangeOver(unique);
    SortLists(ordered);
    assert (set p | p in ordered) == unique;
    ordered := Sort(IntLe, ordered);
    AdditionalPortsExact(ports, existing);
    ListsUnique(ordered, AdditionalPorts(ports, existing), unique);
  }

  // ---- meaning -----------------------------------------------------------------------------------

  /** Address containment and label matching, which the cluster network implements. */
  datatype Matcher = Matcher(
    contains: (string, string) -> bool, selects: (LabelSelector, map<string, string>) -> bool)

  /** Where traffic goes: a pod, in the namespace of the policy or in another, or an address outside the cluster. */
  datatype Target =
    | Outside(address: string)
    | Pod(address: string, sameNamespace: bool, namespaceLabels: map<string, string>, podLabels: map<string, string>)

  ghost predicate InBlock(m: Matcher, cidr: string, except: seq<string>, t: Target) {
    m.contains(cidr, t.address) && forall e | e in except :: !m.contains(e, t.address)
  }

  /** A selector selects pods only; without a namespace selector, those of the policy's own namespace. */
  ghost predicate SelectorsMatch(m: Matcher, namespaces: Option<LabelSelector>, pods: Option<LabelSelector>,
        t: Target) {
    namespaces.Some? || pods.Some? ==>
      && t.Pod?
      && (if namespaces.Some? then m.selects(namespaces.value, t.namespaceLabels) else t.sameNamespace)
      && (pods.Some? ==> m.selects(pods.value, t.podLabels))
  }

  ghost predicate PeerAllows(m: Matcher, peer: PolicyPeer, t: Target) {
    && (peer.ipBlock.Some? ==> InBlock(m, peer.ipBlock.value.cidr, peer.ipBlock.value.except, t))
    && SelectorsMatch(m, peer.namespaceSelector, peer.podSelector, t)
  }

  /** NetworkPolicy semantics: an empty peer list means everywhere, an empty port list every port. */
  ghost predicate RuleAllows(m: Matcher, rule: EgressRule, port: PolicyPort, t: Target) {
    && (rule.to == [] || exists i :: 0 <= i < |rule.to| && PeerAllows(m, rule.to[i], t))
    && (rule.ports == [] || port in rule.ports)
  }

  ghost predicate PolicyAllows(m: Matcher, egress: seq<EgressRule>, port: PolicyPort, t: Target) {
    exists i :: 0 <= i < |egress| && RuleAllows(m, egress[i], port, t)
  }

  /** The allowlist as the spec declares it. */
  ghost predicate DestinationAllows(m: Matcher, d: Destination, t: Target) {
    && (d.cidr != "" ==> InBlock(m, d.cidr, d.except, t))
    && SelectorsMatch(m, d.namespaceSelector, d.podSelector, t)
  }

  ghost predicate DestinationListed(m: Matcher, destinations: seq<Destination>, t: Target) {
    destinations == [] || exists i :: 0 <= i < |destinations| && DestinationAllows(m, destinations[i], t)
  }

  predicate PortListed(options: EgressOptions, backend: string, port: PolicyPort) {
    match port.protocol
    case TCP => port.port == 80 || port.port == 443 || (backend == "ssh" && port.port == 22)
      || port.port in options.additionalTCPPorts
    case UDP => port.port in options.additionalUDPPorts
  }

  ghost predicate Declared(m: Matcher, options: EgressOptions, backend: string, port: PolicyPort, t: Target) {
    port.port == 53 || (DestinationListed(m, options.destinations, t) && PortListed(options, backend, port))
  }

  lemma PeersMean(m: Matcher, destinations: seq<Destination>, t: Target)
    ensures (ToPeers(destinations) == [] || exists i ::
      0 <= i < |destinations| && PeerAllows(m, ToPeers(destinations)[i], t))
      <==> DestinationListed(m, destinations, t)
  {
    forall i | 0 <= i < |destinations|
      ensures PeerAllows(m, ToPeers(destinations)[i], t) <==> DestinationAllows(m, destinations[i], t) {}
  }

  lemma PortsMean(protocol: Protocol, ports: seq<int>, port: PolicyPort)
    ensures port in PortsOf(protocol, ports) <==> port.protocol == protocol && port.port in ports
  {
    if port.protocol == protocol && port.port in ports {
      var i :| 0 <= i < |ports| && ports[i] == port.port;
      assert PortsOf(protocol, ports)[i] == port;
    }
  }

  lemma AppendAllows(m: Matcher, a: seq<EgressRule>, b: seq<EgressRule>, port: PolicyPort, t: Target)
    ensures PolicyAllows(m, a + b, port, t) <==> PolicyAllows(m, a, port, t) || PolicyAllows(m, b, port, t)
  {
    var all := a + b;
    assert forall i :: 0 <= i < |a| ==> all[i] == a[i];
    forall i | 0 <= i < |b| ensures all[|a| + i] == b[i] {}
    if i :| 0 <= i < |b| && RuleAllows(m, b[i], port, t) { assert RuleAllows(m, all[|a| + i], port, t); }
    if i :| 0 <= i < |all| && RuleAllows(m, all[i], port, t) {
      if i >= |a| { assert RuleAllows(m, b[i - |a|], port, t); }
    }
  }

  lemma OneRuleAllows(m: Matcher, rule: EgressRule, port: PolicyPort, t: Target)
    ensures PolicyAllows(m, [rule], port, t) <==> RuleAllows(m, rule, port, t)
  {
    assert [rule][0] == rule;
  }

  /** A rule restricted to the destinations, for a non-empty list of ports. */
  lemma ListedRule(m: Matcher, options: EgressOptions, ports: seq<PolicyPort>, port: PolicyPort, t: Target)
    ensures PolicyAllows(m, OptionalRule(ToPeers(options.destinations), ports), port, t) <==>
      DestinationListed(m, options.destinations, t) && port in ports
  {
    PeersMean(m, options.destinations, t);
    if ports != [] { OneRuleAllows(m, EgressRule(ToPeers(options.destinations), ports), port, t); }
  }

  lemma AnyRuleAllows(m: Matcher, rule: EgressRule, a: seq<EgressRule>, b: seq<EgressRule>, c: seq<EgressRule>,
        d: seq<EgressRule>, port: PolicyPort, t: Target)
    ensures PolicyAllows(m, [rule] + a + b + c + d, port, t) <==>
      RuleAllows(m, rule, port, t) || PolicyAllows(m, a, port, t) || PolicyAllows(m, b, port, t)
        || PolicyAllows(m, c, port, t) || PolicyAllows(m, d, port, t)
  {
    hide PolicyAllows, RuleAllows;
    OneRuleAllows(m, rule, port, t);
    AppendAllows(m, [rule], a, port, t);
    AppendAllows(m, [rule] + a, b, port, t);
    AppendAllows(m, [rule] + a + b, c, port, t);
    AppendAllows(m, [rule] + a + b + c, d, port, t);
  }

  function ShellPorts(ssh: bool): seq<PolicyPort> {
    if ssh then [PolicyPort(TCP, SSH)] else []
  }

  /** The rules one by one, each from the ports it lists. */
  lemma RulesShape(options: EgressOptions, backend: string)
    ensures var to, ssh := ToPeers(options.destinations), backend == "ssh";
      EgressRules(options, backend) ==
        [EgressRule([], [PolicyPort(UDP, DNS), PolicyPort(TCP, DNS)])]
        + OptionalRule(to, [PolicyPort(TCP, HTTP), PolicyPort(TCP, HTTPS)])
        + OptionalRule(to, ShellPorts(ssh))
        + OptionalRule(to, PortsOf(TCP, AdditionalPorts(options.additionalTCPPorts, ReservedTCP(ssh))))
        + OptionalRule(to, PortsOf(UDP, AdditionalPorts(options.additionalUDPPorts, {DNS})))
  {
    hide ToPeers, PortsOf, AdditionalPorts;
  }

  /** The compiled policy allows exactly the declared allowlist. */
  lemma PolicyMeaning(m: Matcher, options: EgressOptions, backend: string, port: PolicyPort, t: Target)
    ensures PolicyAllows(m, EgressRules(options, backend), port, t) <==> Declared(m, options, backend, port, t)
  {
    var to, ssh := ToPeers(options.destinations), backend == "ssh";
    var dns := EgressRule([], [PolicyPort(UDP, DNS), PolicyPort(TCP, DNS)]);
    var web := [PolicyPort(TCP, HTTP), PolicyPort(TCP, HTTPS)];
    var shell := ShellPorts(ssh);
    var tcp := AdditionalPorts(options.additionalTCPPorts, ReservedTCP(ssh));
    var udp := AdditionalPorts(options.additionalUDPPorts, {DNS});
    var a, b, c, d := OptionalRule(to, web), OptionalRule(to, shell), OptionalRule(to, PortsOf(TCP, tcp)),
      OptionalRule(to, PortsOf(UDP, udp));
    RulesShape(options, backend);
    AdditionalPortsExact(options.additionalTCPPorts, ReservedTCP(ssh));
    AdditionalPortsExact(options.additionalUDPPorts, {DNS});
    assert RuleAllows(m, dns, port, t) <==> port in dns.ports;
    hide EgressRules, PolicyAllows, RuleAllows, DestinationListed, OptionalRule, AdditionalPorts, PortsOf, ToPeers;
    AnyRuleAllows(m, dns, a, b, c, d, port, t);
    ListedRule(m, options, web, port, t);
    ListedRule(m, options, shell, port, t);
    ListedRule(m, options, PortsOf(TCP, tcp), port, t);
    ListedRule(m, options, PortsOf(UDP, udp), port, t);
    PortsMean(TCP, tcp, port);
    PortsMean(UDP, udp, port);
  }

  // ---- shape ----------------------------------------------------------------------------------------

  function PortsIn(rule: EgressRule): seq<PolicyPort> { rule.ports }

  ghost predicate DistinctPorts(ports: seq<PolicyPort>) {
    forall i, j :: 0 <= i < j < |ports| ==> ports[i] != ports[j]
  }

  lemma JoinPorts(a: seq<PolicyPort>, b: seq<PolicyPort>)
    requires DistinctPorts(a) && DistinctPorts(b) && forall p :: p in a ==> p !in b
    ensures DistinctPorts(a + b)
  {
    forall i, j | 0 <= i < j < |a + b| ensures (a + b)[i] != (a + b)[j] {
      if i < |a| <= j { assert a[i] in a && b[j - |a|] in b; }
    }
  }

  lemma PortsOfDistinct(protocol: Protocol, ports: seq<int>)
    requires NoRepeats(ports)
    ensures DistinctPorts(PortsOf(protocol, ports))
  {
  }

  lemma OptionalPorts(to: seq<PolicyPeer>, ports: seq<PolicyPort>)
    ensures FlatMap(PortsIn, OptionalRule(to, ports)) == ports
  {
    var rules := OptionalRule(to, ports);
    if rules != [] { assert rules[..0] == []; }
  }

  lemma FivePortLists(to: seq<PolicyPeer>, z: seq<PolicyPort>, a: seq<PolicyPort>, b: seq<PolicyPort>,
        c: seq<PolicyPort>, d: seq<PolicyPort>)
    ensures FlatMap(PortsIn, OptionalRule([], z) + OptionalRule(to, a) + OptionalRule(to, b) + OptionalRule(to, c)
      + OptionalRule(to, d))
      == z + a + b + c + d
  {
    var rz, ra, rb, rc, rd := OptionalRule([], z), OptionalRule(to, a), OptionalRule(to, b), OptionalRule(to, c),
      OptionalRule(to, d);
    FlatMapAppend(PortsIn, rz, ra);
    FlatMapAppend(PortsIn, rz + ra, rb);
    FlatMapAppend(PortsIn, rz + ra + rb, rc);
    FlatMapAppend(PortsIn, rz + ra + rb + rc, rd);
    OptionalPorts([], z);
    OptionalPorts(to, a);
    OptionalPorts(to, b);
    OptionalPorts(to, c);
    OptionalPorts(to, d);
  }

  lemma RulesByPorts(options: EgressOptions, backend: string, t: seq<PolicyPort>, u: seq<PolicyPort>)
    requires t == PortsOf(TCP, AdditionalPorts(options.additionalTCPPorts, ReservedTCP(backend == "ssh")))
    requires u == PortsOf(UDP, AdditionalPorts(options.additionalUDPPorts, {DNS}))
    ensures FlatMap(PortsIn, EgressRules(options, backend)) == FixedPorts(backend == "ssh") + t + u
  {
    RulesShape(options, backend);
    var dns := [PolicyPort(UDP, DNS), PolicyPort(TCP, DNS)];
    assert OptionalRule([], dns) == [EgressRule([], dns)];
    hide EgressRules, OptionalRule, PortsOf, AdditionalPorts, ToPeers;
    FivePortLists(ToPeers(options.destinations), [PolicyPort(UDP, DNS), PolicyPort(TCP, DNS)],
      [PolicyPort(TCP, HTTP), PolicyPort(TCP, HTTPS)], ShellPorts(backend == "ssh"), t, u);
  }

  function FixedPorts(ssh: bool): seq<PolicyPort> {
    [PolicyPort(UDP, DNS), PolicyPort(TCP, DNS)] + [PolicyPort(TCP, HTTP), PolicyPort(TCP, HTTPS)] + ShellPorts(ssh)
  }

  lemma FixedPortsApart(ssh: bool)
    ensures DistinctPorts(FixedPorts(ssh))
    ensures forall p :: p in FixedPorts(ssh) ==> p.port in (if p.protocol == TCP then ReservedTCP(ssh) else {DNS})
  {
  }

  /** No rule has an empty port list, which would open every port. */
  lemma PolicyNeverOpen(options: EgressOptions, backend: string)
    ensures forall i :: 0 <= i < |EgressRules(options, backend)| ==> EgressRules(options, backend)[i].ports != []
  {
    RulesShape(options, backend);
    hide PortsOf, AdditionalPorts, ToPeers;
  }

  /** No port is listed twice, within a rule or across rules. */
  lemma PolicyPortsDistinct(options: EgressOptions, backend: string)
    ensures DistinctPorts(FlatMap(PortsIn, EgressRules(options, backend)))
  {
    var ssh := backend == "ssh";
    var tcp := AdditionalPorts(options.additionalTCPPorts, ReservedTCP(ssh));
    var udp := AdditionalPorts(options.additionalUDPPorts, {DNS});
    AdditionalPortsExact(options.additionalTCPPorts, ReservedTCP(ssh));
    AdditionalPortsExact(options.additionalUDPPorts, {DNS});
    RulesByPorts(options, backend, PortsOf(TCP, tcp), PortsOf(UDP, udp));
    JoinAdditional(ssh, tcp, udp);
  }

  lemma JoinAdditional(ssh: bool, tcp: seq<int>, udp: seq<int>)
    requires NoRepeats(tcp) && forall p :: p in tcp ==> p !in ReservedTCP(ssh)
    requires NoRepeats(udp) && DNS !in udp
    ensures DistinctPorts(FixedPorts(ssh) + PortsOf(TCP, tcp) + PortsOf(UDP, udp))
  {
    FixedPortsApart(ssh);
    PortsOfDistinct(TCP, tcp);
    PortsOfDistinct(UDP, udp);
    forall p: PolicyPort ensures p in PortsOf(TCP, tcp) <==>
      p.protocol == TCP && p.port in tcp { PortsMean(TCP, tcp, p); }
    forall p: PolicyPort ensures p in PortsOf(UDP, udp) <==>
      p.protocol == UDP && p.port in udp { PortsMean(UDP, udp, p); }
    JoinPorts(FixedPorts(ssh), PortsOf(TCP, tcp));
    JoinPorts(FixedPorts(ssh) + PortsOf(TCP, tcp), PortsOf(UDP, udp));
  }

  /** Order and repetition of the additional ports do not matter. */
  lemma PolicyOrderIndependent(options: EgressOptions, other: EgressOptions, backend: string)
    requires options.destinations == other.destinations
    requires forall p :: p in options.additionalTCPPorts <==> p in other.additionalTCPPorts
    requires forall p :: p in options.additionalUDPPorts <==> p in other.additionalUDPPorts
    ensures EgressRules(options, backend) == EgressRules(other, backend)
  {
    SamePorts(options.additionalTCPPorts, other.additionalTCPPorts, ReservedTCP(backend == "ssh"));
    SamePorts(options.additionalUDPPorts, other.additionalUDPPorts, {DNS});
  }

  lemma SamePorts(a: seq<int>, b: seq<int>, existing: set<int>)
    requires forall p :: p in a <==> p in b
    ensures AdditionalPorts(a, existing) == AdditionalPorts(b, existing)
  {
    AdditionalPortsExact(a, existing);
    AdditionalPortsExact(b, existing);
    var x, y := (set p | p in a) - existing, (set p | p in b) - existing;
    assert forall p :: p in x <==> p in y;
    ListsUnique(AdditionalPorts(a, existing), AdditionalPorts(b, existing), x);
  }
}
