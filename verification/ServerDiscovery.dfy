/** The address agents are told to dial, and the names the principal's certificate is issued for. */
module ServerDiscovery {
  import opened Kube

  datatype Ingress = Ingress(hostname: string, ip: string)
  datatype Port = Port(name: string, port: int, nodePort: int)
  datatype Service = Service(name: string, kind: string, ingress: seq<Ingress>, ports: seq<Port>)
  datatype Address = Address(kind: string, address: string)
  datatype Node = Node(addresses: seq<Address>)

  const NODE_PORT := "NodePort"
  const INTERNAL_IP := "InternalIP"

  function Digits(n: nat): string {
    if n < 10 then ["0123456789"[n]] else Digits(n / 10) + ["0123456789"[n % 10]]
  }

  function Itoa(n: int): string { if n < 0 then "-" + Digits(-n) else Digits(n) }

  // ---- What the search loops look for ----

  /** The hostname of the first ingress entry that has one of the two, else its IP; "" when there is none. */
  function FirstIngress(ingress: seq<Ingress>): string {
    if ingress == [] then ""
    else if ingress[0].hostname != "" then ingress[0].hostname
    else if ingress[0].ip != "" then ingress[0].ip
    else FirstIngress(ingress[1..])
  }

  function FirstPort(ports: seq<Port>, wanted: Port -> bool): Option<Port> {
    if ports == [] then None else if wanted(ports[0]) then Some(ports[0]) else FirstPort(ports[1..], wanted)
  }

  predicate Https(p: Port) { p.name == "https" || p.port == 443 || p.port == 8443 }

  predicate HasNodePort(p: Port) { p.nodePort != 0 }

  predicate HttpsNodePort(p: Port) { HasNodePort(p) && Https(p) }

  function InternalIPsOf(addresses: seq<Address>): seq<string> {
    if addresses == [] then []
    else (if addresses[0].kind == INTERNAL_IP then [addresses[0].address] else []) + InternalIPsOf(addresses[1..])
  }

  /** All InternalIPs of all nodes, in order. */
  function InternalIPs(nodes: seq<Node>): seq<string> {
    if nodes == [] then [] else InternalIPsOf(nodes[0].addresses) + InternalIPs(nodes[1..])
  }

  function LoadBalancerPort(ports: seq<Port>): string {
    match FirstPort(ports, Https) case Some(p) => Itoa(p.port) case None => "443"
  }

  function NodePortOf(ports: seq<Port>): string {
    var matched := match FirstPort(ports, HttpsNodePort) case Some(p) => Itoa(p.nodePort) case None => "443";
    if matched != "443" then matched
    else match FirstPort(ports, HasNodePort) case Some(p) => Itoa(p.nodePort) case None => "443"
  }

  /** nodes is None when the node list cannot be read. */
  function Discover(service: Service, nodes: Option<seq<Node>>): Option<(string, string)> {
    var lb := FirstIngress(service.ingress);
    if lb != "" then Some((lb, LoadBalancerPort(service.ports)))
    else if service.kind == NODE_PORT && nodes.Some? && InternalIPs(nodes.value) != []
    then Some((InternalIPs(nodes.value)[0], NodePortOf(service.ports)))
    else None
  }

  // ---- Certificate names ----

  function NamesOf(i: Ingress): seq<string> {
    (if i.hostname != "" then [i.hostname] else []) + (if i.ip != "" then [i.ip] else [])
  }

  function IngressNames(ingress: seq<Ingress>): seq<string> {
    if ingress == [] then [] else NamesOf(ingress[0]) + IngressNames(ingress[1..])
  }

  function ServiceNames(name: string, ns: string): seq<string> {
    [name + "." + ns + ".svc", name + "." + ns + ".svc.cluster.local"]
  }

  /** The names before the advertised address is added; service is None when no principal Service is found. */
  function BaseNames(service: Option<Service>, nodes: Option<seq<Node>>, ns: string): seq<string> {
    match service
    case None => ServiceNames("argocd-agent-principal", ns)
    case Some(svc) =>
      IngressNames(svc.ingress)
      + (if svc.kind == NODE_PORT && nodes.Some? then InternalIPs(nodes.value) else [])
      + ServiceNames(svc.name, ns) + ["localhost", "127.0.0.1", "::1"]
  }

  function Distinct(s: seq<string>): seq<string> {
    if s == [] then []
    else
      var rest := Distinct(s[..|s| - 1]);
      if s[|s| - 1] in rest then rest else rest + [s[|s| - 1]]
  }

  function AppendServerAddress(names: seq<string>, address: string): seq<string> {
    if address != "" then names + [address] else names
  }

  function HostNames(service: Option<Service>, nodes: Option<seq<Node>>, ns: string, address: string): seq<string> {
    Distinct(AppendServerAddress(BaseNames(service, nodes, ns), address))
  }

  // ---- Properties of the list of names ----

  /** Position of the first occurrence of x. */
  function First(s: seq<string>, x: string): (i: nat)
    requires x in s
    ensures i < |s| && s[i] == x && x !in s[..i]
  {
    if s[0] == x then 0 else 1 + First(s[1..], x)
  }

  lemma {:induction false} DistinctIsSound(s: seq<string>)
    ensures forall x :: x in Distinct(s) <==> x in s
    ensures forall i, j | 0 <= i < j < |Distinct(s)| :: Distinct(s)[i] != Distinct(s)[j]
  {
    if s != [] {
      var init, last := s[..|s| - 1], s[|s| - 1];
      assert s == init + [last];
      DistinctIsSound(init);
    }
  }

  lemma {:induction false} FirstInPrefix(s: seq<string>, t: seq<string>, x: string)
    requires x in s
    ensures First(s + t, x) == First(s, x)
  {
    if s[0] != x {
      assert (s + t)[1..] == s[1..] + t;
      FirstInPrefix(s[1..], t, x);
    }
  }

  /** Duplicates are dropped and the rest keeps the order of first occurrence. */
  lemma {:induction false} DistinctKeepsOrder(s: seq<string>)
    ensures forall x :: x in Distinct(s) ==> x in s
    ensures forall i, j | 0 <= i < j < |Distinct(s)| :: First(s, Distinct(s)[i]) < First(s, Distinct(s)[j])
  {
    DistinctIsSound(s);
    if s != [] {
      var init, last := s[..|s| - 1], s[|s| - 1];
      assert s == init + [last];
      DistinctIsSound(init);
      DistinctKeepsOrder(init);
      forall i, j | 0 <= i < j < |Distinct(s)|
        ensures First(s, Distinct(s)[i]) < First(s, Distinct(s)[j])
      {
        FirstInPrefix(init, [last], Distinct(init)[i]);
        if j < |Distinct(init)| {
          FirstInPrefix(init, [last], Distinct(init)[j]);
        }
      }
    }
  }

  /** Adding the advertised address only ever appends it: every other name keeps its place, and the first one,
      which becomes the certificate's common name, stays the same. */
  lemma AddressIsAppended(service: Option<Service>, nodes: Option<seq<Node>>, ns: string, address: string)
    ensures var without, extended := HostNames(service, nodes, ns, ""), HostNames(service, nodes, ns, address);
            && without != [] && extended[0] == without[0]
            && extended == if address == "" || address in without then without else without + [address]
  {
    var base := BaseNames(service, nodes, ns);
    DistinctIsSound(base);
    match service {
      case None => assert base[0] in base;
      case Some(svc) => assert base[|base| - 1] == "::1"; assert "::1" in base;
    }
    if address != "" {
      assert (base + [address])[..|base|] == base;
    }
  }

  lemma {:induction false} FirstIngressIsNamed(ingress: seq<Ingress>)
    requires FirstIngress(ingress) != ""
    ensures FirstIngress(ingress) in IngressNames(ingress)
  {
    if ingress[0].hostname == "" && ingress[0].ip == "" {
      FirstIngressIsNamed(ingress[1..]);
    }
  }

  /** The certificate is valid for the address agents dial.  Whatever was read about Service and nodes, an
      advertised address is among the names; and when discovery and certificate see the same Service and nodes,
      the discovered address is there even before it is advertised. */
  lemma AdvertisedAddressIsCertified(service: Option<Service>, nodes: Option<seq<Node>>, ns: string, address: string)
    ensures address != "" ==> address in HostNames(service, nodes, ns, address)
    ensures service.Some? && Discover(service.value, nodes).Some? ==>
              Discover(service.value, nodes).value.0 in HostNames(service, nodes, ns, address)
  {
    var names := AppendServerAddress(BaseNames(service, nodes, ns), address);
    DistinctIsSound(names);
    if address != "" {
      assert names[|names| - 1] == address;
    }
    if service.Some? && Discover(service.value, nodes).Some? && FirstIngress(service.value.ingress) != "" {
      FirstIngressIsNamed(service.value.ingress);
    }
  }

  lemma {:induction false} FirstPortFinds(ports: seq<Port>, wanted: Port -> bool)
    ensures var r := FirstPort(ports, wanted);
            && (r.Some? <==> exists p :: p in ports && wanted(p))
            && (r.Some? ==> r.value in ports && wanted(r.value))
  {
    if ports != [] {
      FirstPortFinds(ports[1..], wanted);
      if !wanted(ports[0]) {
        assert forall p :: p in ports <==> p == ports[0] || p in ports[1..];
      }
    }
  }

  /** Through a NodePort Service agents are always given a port some node really listens on, if there is one. */
  lemma NodePortIsReal(ports: seq<Port>)
    ensures (exists p :: p in ports && HasNodePort(p)) ==>
              exists p :: p in ports && HasNodePort(p) && NodePortOf(ports) == Itoa(p.nodePort)
    ensures !(exists p :: p in ports && HasNodePort(p)) ==> NodePortOf(ports) == "443"
  {
    FirstPortFinds(ports, HttpsNodePort);
    FirstPortFinds(ports, HasNodePort);
  }

  // ---- What discovery finds ----

  predicate Named(i: Ingress) { i.hostname != "" || i.ip != "" }

  predicate FirstNamed(ingress: seq<Ingress>, n: nat) {
    n < |ingress| && Named(ingress[n]) && forall m | 0 <= m < n :: !Named(ingress[m])
  }

  lemma {:induction false} FirstIngressIs(ingress: seq<Ingress>)
    ensures (forall m | 0 <= m < |ingress| :: !Named(ingress[m])) ==> FirstIngress(ingress) == ""
    ensures forall n: nat | FirstNamed(ingress, n) ::
              FirstIngress(ingress) == if ingress[n].hostname != "" then ingress[n].hostname else ingress[n].ip
  {
    if ingress != [] && !Named(ingress[0]) {
      FirstIngressIs(ingress[1..]);
      forall n: nat | FirstNamed(ingress, n)
        ensures FirstIngress(ingress) == if ingress[n].hostname != "" then ingress[n].hostname else ingress[n].ip
      {
        assert n > 0 && ingress[1..][n - 1] == ingress[n];
        assert FirstNamed(ingress[1..], n - 1);
      }
    }
  }

  lemma {:induction false} FirstPortIs(ports: seq<Port>, wanted: Port -> bool, n: nat)
    requires n <= |ports| && (forall m | 0 <= m < n :: !wanted(ports[m])) && (n < |ports| ==> wanted(ports[n]))
    ensures FirstPort(ports, wanted) == if n < |ports| then Some(ports[n]) else None
  {
    if n > 0 {
      assert ports[1..][..n - 1] == ports[1..n];
      FirstPortIs(ports[1..], wanted, n - 1);
    }
  }

  /** Through a load balancer: the hostname, or else the IP, of the first ingress entry that has one, with the first port
      of the Service that is named https or has number 443 or 8443, and with 443 if there is none. */
  lemma LoadBalancerIsDiscovered(service: Service, nodes: Option<seq<Node>>, n: nat, p: nat)
    requires FirstNamed(service.ingress, n)
    requires p <= |service.ports| && forall m | 0 <= m < p :: !Https(service.ports[m])
    requires p < |service.ports| ==> service.ports[p].name == "https" || service.ports[p].port in {443, 8443}
    ensures Discover(service, nodes) ==
            Some((if service.ingress[n].hostname != "" then service.ingress[n].hostname else service.ingress[n].ip,
                  if p < |service.ports| then Itoa(service.ports[p].port) else "443"))
  {
    FirstIngressIs(service.ingress);
    FirstPortIs(service.ports, Https, p);
  }

  predicate NoInternalIP(node: Node) { forall a | a in node.addresses :: a.kind != "InternalIP" }

  lemma {:induction false} NoIPsOf(addresses: seq<Address>)
    requires forall a | a in addresses :: a.kind != "InternalIP"
    ensures InternalIPsOf(addresses) == []
  {
    if addresses != [] {
      NoIPsOf(addresses[1..]);
    }
  }

  lemma {:induction false} FirstIPOf(addresses: seq<Address>, j: nat)
    requires j < |addresses| && addresses[j].kind == "InternalIP"
    requires forall m | 0 <= m < j :: addresses[m].kind != "InternalIP"
    ensures InternalIPsOf(addresses) != [] && InternalIPsOf(addresses)[0] == addresses[j].address
  {
    if j > 0 {
      FirstIPOf(addresses[1..], j - 1);
    }
  }

  lemma {:induction false} FirstIPIs(nodes: seq<Node>, i: nat, j: nat)
    requires i < |nodes| && j < |nodes[i].addresses| && nodes[i].addresses[j].kind == "InternalIP"
    requires forall m | 0 <= m < j :: nodes[i].addresses[m].kind != "InternalIP"
    requires forall m | 0 <= m < i :: NoInternalIP(nodes[m])
    ensures InternalIPs(nodes) != [] && InternalIPs(nodes)[0] == nodes[i].addresses[j].address
  {
    if i == 0 {
      FirstIPOf(nodes[0].addresses, j);
    } else {
      assert NoInternalIP(nodes[0]);
      NoIPsOf(nodes[0].addresses);
      FirstIPIs(nodes[1..], i - 1, j);
    }
  }

  /** Without any ingress a NodePort Service is reached at the first InternalIP of the first node that has one. */
  lemma NodeIsDiscovered(service: Service, nodes: seq<Node>, i: nat, j: nat)
    requires (forall m | 0 <= m < |service.ingress| :: !Named(service.ingress[m])) && service.kind == "NodePort"
    requires i < |nodes| && j < |nodes[i].addresses| && nodes[i].addresses[j].kind == "InternalIP"
    requires forall m | 0 <= m < j :: nodes[i].addresses[m].kind != "InternalIP"
    requires forall m | 0 <= m < i :: NoInternalIP(nodes[m])
    ensures Discover(service, Some(nodes)) == Some((nodes[i].addresses[j].address, NodePortOf(service.ports)))
  {
    FirstIngressIs(service.ingress);
    FirstIPIs(nodes, i, j);
  }

  lemma {:induction false} NoNodeNoIP(nodes: seq<Node>)
    requires forall m | 0 <= m < |nodes| :: NoInternalIP(nodes[m])
    ensures InternalIPs(nodes) == []
  {
    if nodes != [] {
      assert NoInternalIP(nodes[0]);
      NoIPsOf(nodes[0].addresses);
      NoNodeNoIP(nodes[1..]);
    }
  }

  /** Without any ingress nothing is found for any other Service, nor when no node can be read that has an InternalIP. */
  lemma NothingIsDiscovered(service: Service, nodes: Option<seq<Node>>)
    requires forall m | 0 <= m < |service.ingress| :: !Named(service.ingress[m])
    requires service.kind != "NodePort" || nodes.None? || forall m | 0 <= m < |nodes.value| :: NoInternalIP(nodes.value[m])
    ensures Discover(service, nodes) == None
  {
    FirstIngressIs(service.ingress);
    if service.kind == "NodePort" && nodes.Some? {
      NoNodeNoIP(nodes.value);
    }
  }

  // ---- The imperative code ----

  method DiscoverServerAddressAndPort(service: Service, nodes: Option<seq<Node>>) returns (r: Option<(string, string)>)
    ensures r == Discover(service, nodes)
  {
    var serverAddress, serverPort := "", "443";
    for i := 0 to |service.ingress|
      invariant serverAddress == ""
      invariant FirstIngress(service.ingress) == FirstIngress(service.ingress[i..])
    {
      if service.ingress[i].hostname != "" {
        serverAddress := service.ingress[i].hostname;
        break;
      }
      if service.ingress[i].ip != "" {
        serverAddress := service.ingress[i].ip;
        break;
      }
    }
    if serverAddress != "" {
      serverPort := PortOr(service.ports, Https, (p: Port) => p.port, serverPort);
      return Some((serverAddress, serverPort));
    }
    if service.kind == NODE_PORT {
      if nodes.None? {
        return None;
      }
      var ip := GetNodeInternalIP(nodes.value);
      if ip.None? {
        return None;
      }
      serverPort := PortOr(service.ports, HttpsNodePort, (p: Port) => p.nodePort, serverPort);
      if serverPort == "443" {
        serverPort := PortOr(service.ports, HasNodePort, (p: Port) => p.nodePort, serverPort);
      }
      return Some((ip.value, serverPort));
    }
    return None;
  }

  /** The loops over the Service's ports: the first wanted port, or what was there before. */
  method PortOr(ports: seq<Port>, wanted: Port -> bool, number: Port -> int, before: string) returns (port: string)
    ensures port == match FirstPort(ports, wanted) case Some(p) => Itoa(number(p)) case None => before
  {
    port := before;
    for i := 0 to |ports|
      invariant port == before && FirstPort(ports, wanted) == FirstPort(ports[i..], wanted)
    {
      if wanted(ports[i]) {
        return Itoa(number(ports[i]));
      }
    }
  }


  method GetNodeInternalIP(nodes: seq<Node>) returns (ip: Option<string>)
    ensures ip == if InternalIPs(nodes) == [] then None else Some(InternalIPs(nodes)[0])
  {
    for i := 0 to |nodes|
      invariant InternalIPs(nodes) == InternalIPs(nodes[i..])
    {
      var addresses := nodes[i].addresses;
      for j := 0 to |addresses|
        invariant InternalIPsOf(addresses) == InternalIPsOf(addresses[j..])
      {
        if addresses[j].kind == INTERNAL_IP {
          return Some(addresses[j].address);
        }
      }
    }
    return None;
  }

  method DedupeHostNames(names: seq<string>) returns (out: seq<string>)
    ensures out == Distinct(names)
  {
    var seen: set<string> := {};
    out := [];
    for i := 0 to |names|
      invariant out == Distinct(names[..i])
      invariant forall x :: x in seen <==> x in out
    {
      assert names[..i + 1][..i] == names[..i];
      if names[i] !in seen {
        seen := seen + {names[i]};
        out := out + [names[i]];
      }
    }
    assert names[..|names|] == names;
  }

  method AppendIngressNames(before: seq<string>, ingress: seq<Ingress>) returns (names: seq<string>)
    ensures names == before + IngressNames(ingress)
  {
    names := before;
    for i := 0 to |ingress|
      invariant names + IngressNames(ingress[i..]) == before + IngressNames(ingress)
    {
      ghost var start, rest := names, IngressNames(ingress[i + 1..]);
      assert ingress[i..][1..] == ingress[i + 1..];
      assert start + (NamesOf(ingress[i]) + rest) == (start + NamesOf(ingress[i])) + rest;
      if ingress[i].hostname != "" {
        names := names + [ingress[i].hostname];
      }
      if ingress[i].ip != "" {
        names := names + [ingress[i].ip];
      }
      assert names == start + NamesOf(ingress[i]);
    }
    assert names == before + IngressNames(ingress);
  }

  method AppendInternalIPs(before: seq<string>, nodes: seq<Node>) returns (names: seq<string>)
    ensures names == before + InternalIPs(nodes)
  {
    names := before;
    for i := 0 to |nodes|
      invariant names + InternalIPs(nodes[i..]) == before + InternalIPs(nodes)
    {
      var addresses := nodes[i].addresses;
      ghost var start := names;
      for j := 0 to |addresses|
        invariant names + InternalIPsOf(addresses[j..]) == start + InternalIPsOf(addresses)
      {
        if addresses[j].kind == INTERNAL_IP {
          names := names + [addresses[j].address];
        }
      }
      assert names == start + InternalIPsOf(addresses);
    }
    assert names == before + InternalIPs(nodes);
  }

  method GetPrincipalHostNames(service: Option<Service>, nodes: Option<seq<Node>>, ns: string, address: string)
    returns (names: seq<string>)
    ensures names == HostNames(service, nodes, ns, address)
  {
    names := [];
    if service.None? {
      names := ServiceNames("argocd-agent-principal", ns);
    } else {
      var svc := service.value;
      names := AppendIngressNames(names, svc.ingress);
      if svc.kind == NODE_PORT && nodes.Some? {
        names := AppendInternalIPs(names, nodes.value);
      }
      names := names + ServiceNames(svc.name, ns);
      names := names + ["localhost", "127.0.0.1", "::1"];
    }
    assert names == BaseNames(service, nodes, ns);
    names := DedupeHostNames(AppendServerAddress(names, address));
  }

  /** The endpoint fields of a GitOpsCluster's spec. */
  class GitOpsClusterSpec {
    var address: string
    var port: string

    constructor (address: string, port: string)
      ensures this.address == address && this.port == port
    {
      this.address, this.port := address, port;
    }

    /** Discovery replaces both fields as soon as one of them is empty, a value set by the user included. */
    method EnsureServerAddressAndPort(service: Option<Service>, nodes: Option<seq<Node>>)
      returns (updated: bool, failed: bool)
      modifies this
      ensures old(address != "" && port != "") ==> !updated && !failed && address == old(address) && port == old(port)
      ensures old(address == "" || port == "") ==>
                var found := if service.Some? then Discover(service.value, nodes) else None;
                && updated == found.Some? && failed == found.None?
                && (address, port) == (if found.Some? then found.value else (old(address), old(port)))
    {
      if address != "" && port != "" {
        return false, false;
      }
      if service.None? {
        return false, true;
      }
      var found := DiscoverServerAddressAndPort(service.value, nodes);
      if found.None? {
        return false, true;
      }
      address, port := found.value.0, found.value.1;
      return true, false;
    }
  }
}
