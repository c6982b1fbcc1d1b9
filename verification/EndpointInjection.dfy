/** injectServerEndpoint: the principal's address and port are put into a user's ArgoCD manifest where it has none. */
module EndpointInjection {
  import opened Kube
  import opened Json

  const AGENT: seq<string> := ["spec", "argoCDAgent", "agent"]
  const CLIENT: seq<string> := ["spec", "argoCDAgent", "agent", "client"]
  const EXTRA: seq<string> := ["spec", "extraConfig"]

  predicate IsArgoCD(j: Json) {
    GetText(j, "apiVersion") == "argoproj.io/v1beta1" && GetText(j, "kind") == "ArgoCD"
  }

  /** All steps to names, and what is there, are objects. */
  predicate ObjectAt(j: Json, names: seq<string>)
    decreases |names|
  {
    IsObject(j) && (names != [] ==> Field(names[0]) in j.kids && ObjectAt(j.kids[Field(names[0])], names[1..]))
  }

  /** The object at names; an empty one when there is none. */
  function ObjectOrEmpty(j: Json, names: seq<string>): (o: Json)
    ensures IsObject(o)
    decreases |names|
  {
    if !IsObject(j) then Empty()
    else if names == [] then j
    else if Field(names[0]) in j.kids then ObjectOrEmpty(j.kids[Field(names[0])], names[1..])
    else Empty()
  }

  /** The user chose the structured form: spec.argoCDAgent.agent is an object. */
  predicate Structured(j: Json) { ObjectAt(j, AGENT) }

  /** Where the two values belong, and under which names. */
  function Base(j: Json): seq<string> { if Structured(j) then CLIENT else EXTRA }

  function AddressLeaf(j: Json): string {
    if Structured(j) then "principalServerAddress" else "agent.principal.server.address"
  }

  function PortLeaf(j: Json): string {
    if Structured(j) then "principalServerPort" else "agent.principal.server.port"
  }

  /** A value that is absent, empty or not a string is replaced. */
  function Fill(o: Json, leaf: string, value: string): (r: Json)
    requires IsObject(o)
    ensures IsObject(r)
  {
    if GetText(o, leaf) == "" then Put(o, leaf, Text(value)) else o
  }

  function FillBoth(j: Json, o: Json, address: string, port: string): (r: Json)
    requires IsObject(o)
    ensures IsObject(r)
  {
    Fill(Fill(o, AddressLeaf(j), address), PortLeaf(j), port)
  }

  function Inject(j: Json, address: string, port: string): Json {
    if !IsArgoCD(j) then j
    else ForceIn(j, Base(j), FillBoth(j, ObjectOrEmpty(j, Base(j)), address, port))
  }

  function AddressIn(j: Json): string { GetText(ObjectOrEmpty(j, Base(j)), AddressLeaf(j)) }

  function PortIn(j: Json): string { GetText(ObjectOrEmpty(j, Base(j)), PortLeaf(j)) }

  lemma {:induction false} ForcedObject(j: Json, names: seq<string>, v: Json)
    requires names != [] && IsObject(v)
    ensures ObjectOrEmpty(ForceIn(j, names, v), names) == v
    decreases |names|
  {
    if |names| > 1 {
      var o := if IsObject(j) then j else Empty();
      var below := if Field(names[0]) in o.kids then o.kids[Field(names[0])] else Empty();
      ForcedObject(below, names[1..], v);
    } else {
      assert names[1..] == [];
    }
  }

  lemma {:induction false} ForcedWay(j: Json, names: seq<string>, v: Json, n: nat)
    requires n < |names|
    ensures ObjectAt(ForceIn(j, names, v), names[..n])
    decreases n
  {
    if n > 0 {
      var o := if IsObject(j) then j else Empty();
      var below := if Field(names[0]) in o.kids then o.kids[Field(names[0])] else Empty();
      ForcedWay(below, names[1..], v, n - 1);
      assert names[..n][1..] == names[1..][..n - 1];
    }
  }

  lemma OtherTextKept(j: Json, names: seq<string>, v: Json, name: string)
    requires IsObject(j) && names != [] && names[0] != name
    ensures GetText(ForceIn(j, names, v), name) == GetText(j, name)
  {
  }

  /** Two ways that part after their first step. */
  lemma OtherWayKept(j: Json, a: string, b: string, v: Json, c: string, d: string)
    requires b != c && IsObject(j)
    ensures ObjectAt(ForceIn(j, [a, b], v), [a, c, d]) == ObjectAt(j, [a, c, d])
  {
    var below := if Field(a) in j.kids then j.kids[Field(a)] else Empty();
    assert [a, b][1..] == [b] && [a, c, d][1..] == [c, d];
    assert ForceIn(j, [a, b], v).kids[Field(a)] == Put(if IsObject(below) then below else Empty(), b, v);
  }

  /** Injection changes neither the kind of the manifest nor the form the user chose. */
  lemma SameForm(j: Json, address: string, port: string)
    ensures var r := Inject(j, address, port);
            IsArgoCD(r) == IsArgoCD(j) && Structured(r) == Structured(j) && Base(r) == Base(j)
  {
    if IsArgoCD(j) {
      var v := FillBoth(j, ObjectOrEmpty(j, Base(j)), address, port);
      OtherTextKept(j, Base(j), v, "apiVersion");
      OtherTextKept(j, Base(j), v, "kind");
      if Structured(j) {
        ForcedWay(j, CLIENT, v, 3);
        assert CLIENT[..3] == AGENT;
      } else {
        OtherWayKept(j, "spec", "extraConfig", v, "argoCDAgent", "agent");
      }
    }
  }

  /** A non-empty value of the user is kept, anything else becomes the controller's. */
  lemma LeavesAfter(j: Json, address: string, port: string)
    requires IsArgoCD(j)
    ensures var r := Inject(j, address, port);
            && AddressIn(r) == (if AddressIn(j) != "" then AddressIn(j) else address)
            && PortIn(r) == (if PortIn(j) != "" then PortIn(j) else port)
  {
    SameForm(j, address, port);
    ForcedObject(j, Base(j), FillBoth(j, ObjectOrEmpty(j, Base(j)), address, port));
  }

  /** Once both values are there, injecting any other endpoint does nothing. */
  lemma ReinjectionIsNoOp(j: Json, address: string, port: string, address': string, port': string)
    requires address != "" && port != ""
    ensures var r := Inject(j, address, port); Inject(r, address', port') == r
  {
    if IsArgoCD(j) {
      SameForm(j, address, port);
      LeavesAfter(j, address, port);
      var v := FillBoth(j, ObjectOrEmpty(j, Base(j)), address, port);
      ForcedObject(j, Base(j), v);
      ForceInOver(j, Base(j), v, v);
    }
  }

  lemma {:induction false} ObjectAtPath(j: Json, names: seq<string>)
    requires names != [] && Settable(j, names)
    ensures var k := At(j, Fields(names));
            if k.Some? && IsObject(k.value) then ObjectOrEmpty(j, names) == k.value
            else ObjectOrEmpty(j, names) == Empty()
    decreases |names|
  {
    assert Fields(names)[1..] == Fields(names[1..]);
    if |names| > 1 && Field(names[0]) in j.kids {
      ObjectAtPath(j.kids[Field(names[0])], names[1..]);
    }
  }

  lemma NextStep(base: Path, q: Path, e: Elem)
    requires q != []
    ensures base + [e] <= base + q <==> q[0] == e
  {
    assert (base + q)[|base|] == q[0];
  }

  /** Everything else in a well-typed manifest stays what it was: for every path other than the two leaves, and
      other than the objects leading to them, which may be new, the value is the user's. */
  lemma RestIsKept(j: Json, address: string, port: string, p: Path)
    requires IsArgoCD(j) && Settable(j, Base(j))
    requires var k := At(j, Fields(Base(j))); k.Some? ==> IsObject(k.value)
    requires !(p <= Fields(Base(j)))
    requires !(Fields(Base(j)) + [Field(AddressLeaf(j))] <= p) && !(Fields(Base(j)) + [Field(PortLeaf(j))] <= p)
    ensures At(Inject(j, address, port), p) == At(j, p)
  {
    var base := Fields(Base(j));
    var filled := ObjectOrEmpty(j, Base(j));
    var v := FillBoth(j, filled, address, port);
    ForceInKeeps(j, Base(j), v, p);
    if base <= p {
      var q := p[|base|..];
      assert p == base + q && q != [];
      ForceInSets(j, Base(j), v);
      AtConcat(Inject(j, address, port), base, q);
      AtConcat(j, base, q);
      ObjectAtPath(j, Base(j));
      NextStep(base, q, Field(AddressLeaf(j)));
      NextStep(base, q, Field(PortLeaf(j)));
    }
  }

  predicate HasObject(j: Json, name: string) {
    Get(j, name).Some? && IsObject(Get(j, name).value)
  }

  lemma StructuredUnfolded(j: Json)
    requires IsObject(j)
    ensures Structured(j) <==>
              && HasObject(j, "spec") && HasObject(Get(j, "spec").value, "argoCDAgent")
              && HasObject(Get(Get(j, "spec").value, "argoCDAgent").value, "agent")
  {
    assert AGENT[1..] == ["argoCDAgent", "agent"] && AGENT[1..][1..] == ["agent"] && AGENT[1..][1..][1..] == [];
  }

  // ---- Where the endpoint is found in a manifest ----

  /** The object under a name; an empty one when there is none. */
  function Below(j: Json, name: string): Json { if HasObject(j, name) then Get(j, name).value else Empty() }

  /** spec.argoCDAgent.agent is an object. */
  predicate HasAgent(j: Json) {
    HasObject(j, "spec") && HasObject(Below(j, "spec"), "argoCDAgent")
    && HasObject(Below(Below(j, "spec"), "argoCDAgent"), "agent")
  }

  function Client(j: Json): Json { Below(Below(Below(Below(j, "spec"), "argoCDAgent"), "agent"), "client") }

  function Extra(j: Json): Json { Below(Below(j, "spec"), "extraConfig") }

  function Address(j: Json): string {
    if HasAgent(j) then GetText(Client(j), "principalServerAddress") else GetText(Extra(j), "agent.principal.server.address")
  }

  function Port(j: Json): string {
    if HasAgent(j) then GetText(Client(j), "principalServerPort") else GetText(Extra(j), "agent.principal.server.port")
  }

  lemma ClientIs(j: Json)
    requires IsObject(j) && HasAgent(j)
    ensures ObjectOrEmpty(j, CLIENT) == Client(j)
  {
    var t1, t2, t3 := CLIENT[1..], CLIENT[2..], CLIENT[3..];
    assert t1 == ["argoCDAgent", "agent", "client"] && t2 == ["agent", "client"] && t3 == ["client"];
    assert t1[1..] == t2 && t2[1..] == t3 && t3[1..] == [];
    var spec := Below(j, "spec");
    var agent := Below(Below(spec, "argoCDAgent"), "agent");
    assert ObjectOrEmpty(j, CLIENT) == ObjectOrEmpty(spec, t1);
    assert ObjectOrEmpty(spec, t1) == ObjectOrEmpty(Below(spec, "argoCDAgent"), t2);
    assert ObjectOrEmpty(Below(spec, "argoCDAgent"), t2) == ObjectOrEmpty(agent, t3);
    assert ObjectOrEmpty(agent, t3) == Below(agent, "client");
  }

  lemma ExtraIs(j: Json)
    requires IsObject(j)
    ensures ObjectOrEmpty(j, EXTRA) == Extra(j)
  {
    assert EXTRA[1..] == ["extraConfig"] && EXTRA[1..][1..] == [];
  }

  lemma EndpointIs(j: Json)
    requires IsObject(j)
    ensures AddressIn(j) == Address(j) && PortIn(j) == Port(j)
  {
    StructuredUnfolded(j);
    if HasAgent(j) {
      ClientIs(j);
    } else {
      ExtraIs(j);
    }
  }

  /** The endpoint in a manifest afterwards: the user's own address and port where there are any, the given ones where
      there are none, in the form the user chose; and a manifest that is not an ArgoCD goes as it is. */
  lemma EndpointAfter(j: Json, address: string, port: string)
    ensures var r := Inject(j, address, port);
            if GetText(j, "apiVersion") == "argoproj.io/v1beta1" && GetText(j, "kind") == "ArgoCD"
            then && HasAgent(r) == HasAgent(j)
                 && Address(r) == (if Address(j) != "" then Address(j) else address)
                 && Port(r) == (if Port(j) != "" then Port(j) else port)
            else r == j
  {
    if IsArgoCD(j) {
      SameForm(j, address, port);
      LeavesAfter(j, address, port);
      var r := Inject(j, address, port);
      StructuredUnfolded(j);
      StructuredUnfolded(r);
      EndpointIs(j);
      EndpointIs(r);
    }
  }

  // ---- The imperative code ----

  /** The edits of the unmarshalled maps, innermost map first when they are put back. */
  method InjectServerEndpoint(manifest: Json, address: string, port: string) returns (r: Json)
    ensures r == Inject(manifest, address, port)
    ensures GetText(manifest, "apiVersion") != "argoproj.io/v1beta1" || GetText(manifest, "kind") != "ArgoCD" ==>
              r == manifest
  {
    if !IsArgoCD(manifest) {
      return manifest;
    }
    var found := Get(manifest, "spec");
    var spec := if found.Some? && IsObject(found.value) then found.value else Empty();
    var argoCDAgent := Get(spec, "argoCDAgent");
    if argoCDAgent.Some? && IsObject(argoCDAgent.value) {
      var agent := Get(argoCDAgent.value, "agent");
      if agent.Some? && IsObject(agent.value) {
        StructuredUnfolded(manifest);
        var client := Get(agent.value, "client");
        var o := if client.Some? && IsObject(client.value) then client.value else Empty();
        if GetText(o, "principalServerAddress") == "" {
          o := Put(o, "principalServerAddress", Text(address));
        }
        if GetText(o, "principalServerPort") == "" {
          o := Put(o, "principalServerPort", Text(port));
        }
        ClientUnfolded(manifest, o);
        return Put(manifest, "spec", Put(spec, "argoCDAgent", Put(argoCDAgent.value, "agent",
                                         Put(agent.value, "client", o))));
      }
    }
    StructuredUnfolded(manifest);
    var extra := Get(spec, "extraConfig");
    var o := if extra.Some? && IsObject(extra.value) then extra.value else Empty();
    if GetText(o, "agent.principal.server.address") == "" {
      o := Put(o, "agent.principal.server.address", Text(address));
    }
    if GetText(o, "agent.principal.server.port") == "" {
      o := Put(o, "agent.principal.server.port", Text(port));
    }
    assert EXTRA[1..] == ["extraConfig"] && EXTRA[1..][1..] == [];
    r := Put(manifest, "spec", Put(spec, "extraConfig", o));
    assert ForceIn(manifest, EXTRA, o) == r;
  }

  lemma ClientUnfolded(j: Json, o: Json)
    requires IsObject(j) && Structured(j) && HasObject(j, "spec")
    requires HasObject(Get(j, "spec").value, "argoCDAgent")
    requires HasObject(Get(Get(j, "spec").value, "argoCDAgent").value, "agent")
    ensures var spec := Get(j, "spec").value;
            var argoCDAgent := Get(spec, "argoCDAgent").value;
            var agent := Get(argoCDAgent, "agent").value;
            && ForceIn(j, CLIENT, o) == Put(j, "spec", Put(spec, "argoCDAgent", Put(argoCDAgent, "agent", Put(agent, "client", o))))
            && ObjectOrEmpty(j, CLIENT) == (if HasObject(agent, "client") then Get(agent, "client").value else Empty())
  {
    var t1, t2, t3 := CLIENT[1..], CLIENT[2..], CLIENT[3..];
    assert t1 == ["argoCDAgent", "agent", "client"] && t2 == ["agent", "client"] && t3 == ["client"];
    assert t1[1..] == t2 && t2[1..] == t3 && t3[1..] == [];
    var spec := Get(j, "spec").value;
    var argoCDAgent := Get(spec, "argoCDAgent").value;
    var agent := Get(argoCDAgent, "agent").value;
    assert ForceIn(agent, t3, o) == Put(agent, "client", o);
    assert ForceIn(argoCDAgent, t2, o) == Put(argoCDAgent, "agent", Put(agent, "client", o));
    assert ForceIn(spec, t1, o) == Put(spec, "argoCDAgent", ForceIn(argoCDAgent, t2, o));
    assert ObjectOrEmpty(j, CLIENT) == ObjectOrEmpty(spec, t1) == ObjectOrEmpty(argoCDAgent, t2) == ObjectOrEmpty(agent, t3);
  }
}
