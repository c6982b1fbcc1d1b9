/** The stages a reconcile has to get through before it turns to the clusters, and the conditions they set. */
module FleetGates {
  import opened Kube
  import opened RegistrationUrl
  import opened AppendMissing
  import opened FleetStatus
  import ServerDiscovery

  /** Aborts: the reconcile ends with an error and no condition is set. */
  datatype Verdict = Passes(message: Message) | Fails | Aborts

  /** before: conditions set while the stage is evaluated. */
  datatype Gate = Gate(kind: ConditionType, before: seq<Condition>, verdict: Verdict)

  datatype Toleration = Toleration(key: string, op: string, value: string)

  /** The address and port of a GitOpsCluster's spec. */
  datatype Endpoint = Endpoint(address: string, port: string)
  {
    predicate IsSet() { address != "" && port != "" }
  }

  /** What discovery gets to read, and the update of the spec if discovery changed it. */
  datatype Discovery = Discovery(service: Option<ServerDiscovery.Service>, nodes: Option<seq<ServerDiscovery.Node>>,
                                 saved: Outcome)

  /** The calls made to evaluate the placement; decisions are the cluster names of all listed PlacementDecisions. */
  datatype Placing = Placing(kindOk: bool, get: Outcome, update: Outcome, list: Outcome, decisions: seq<ByteString>,
                             read: nat -> Outcome)

  /** What happens before the clusters are reached.  The stages given by a bool are not modelled here. */
  datatype Before = Before(rbac: bool, discovery: Discovery, jwt: bool, ca: bool, principal: bool, proxy: bool,
                           template: bool, placing: Placing)

  function Basic(ok: bool): Verdict { if ok then Passes(Text) else Fails }

  /** The endpoint the run goes on with: the one in the spec, or what is discovered when it is not complete. */
  function EndpointFor(spec: Endpoint, d: Discovery): Option<Endpoint> {
    if spec.IsSet() then Some(spec)
    else if d.service.None? then None
    else match ServerDiscovery.Discover(d.service.value, d.nodes)
      case None => None
      case Some((address, port)) => Some(Endpoint(address, port))
  }

  function Discovered(spec: Endpoint, d: Discovery): Verdict {
    if EndpointFor(spec, d).None? then Fails
    else if !spec.IsSet() && !d.saved.Accepted? then Aborts
    else Basic(EndpointFor(spec, d).value.IsSet())
  }

  /** The spec afterwards. */
  function Saved(spec: Endpoint, d: Discovery): Endpoint {
    if EndpointFor(spec, d).None? || (!spec.IsSet() && d.saved.Rejected?) then spec else EndpointFor(spec, d).value
  }

  // ---- The placement ----

  const EXISTS := "Exists"

  function RequiredTolerations(): seq<Toleration> {
    [Toleration("cluster.open-cluster-management.io/unreachable", EXISTS, ""),
     Toleration("cluster.open-cluster-management.io/unavailable", EXISTS, "")]
  }

  function SameToleration(a: Toleration, b: Toleration): bool { a.key == b.key && a.op == b.op }

  function Tolerating(tolerations: seq<Toleration>): seq<Toleration> {
    AddAll(tolerations, RequiredTolerations(), SameToleration)
  }

  predicate PlacementRead(p: Placing, placement: Option<seq<Toleration>>) {
    p.kindOk && p.get.Accepted? && placement.Some?
  }

  /** The placement afterwards, and whether its tolerations could be ensured. */
  function PlacementAfter(p: Placing, placement: Option<seq<Toleration>>): (Option<seq<Toleration>>, bool) {
    if !PlacementRead(p, placement) || Tolerating(placement.value) == placement.value then (placement, true)
    else (if p.update.Rejected? then placement else Some(Tolerating(placement.value)), p.update.Accepted?)
  }

  /** A decision counts when its ManagedCluster can be read. */
  function Selected(decisions: seq<ByteString>, known: set<string>, read: nat -> Outcome, n: nat): seq<ByteString>
    requires n <= |decisions|
  {
    if n == 0 then []
    else if read(n - 1).Accepted? && decisions[n - 1] in known
    then Selected(decisions, known, read, n - 1) + [decisions[n - 1]]
    else Selected(decisions, known, read, n - 1)
  }

  function Placed(p: Placing, known: set<string>, placement: Option<seq<Toleration>>): Option<seq<ByteString>> {
    if !PlacementRead(p, placement) || !p.list.Accepted? then None
    else Some(Selected(p.decisions, known, p.read, |p.decisions|))
  }

  function PlacementGate(p: Placing, known: set<string>, placement: Option<seq<Toleration>>): Gate {
    Gate(PlacementEvaluated,
         if !PlacementRead(p, placement) then []
         else [Condition(PlacementTolerationConfigured, if PlacementAfter(p, placement).1 then True else False, Text)],
         match Placed(p, known, placement)
         case None => Fails
         case Some(clusters) => Passes(if clusters == [] then NoClusters else Counted(|clusters|)))
  }

  // ---- The gates ----

  function Gates(spec: Endpoint, b: Before, known: set<string>, placement: Option<seq<Toleration>>): seq<Gate> {
    [Gate(RBACReady, [], Basic(b.rbac)), Gate(ServerDiscovered, [], Discovered(spec, b.discovery)),
     Gate(JWTSecretReady, [], Basic(b.jwt)), Gate(CACertificateReady, [], Basic(b.ca)),
     Gate(PrincipalCertificateReady, [], Basic(b.principal)),
     Gate(ResourceProxyCertificateReady, [], Basic(b.proxy)), Gate(AddOnTemplateReady, [], Basic(b.template)),
     PlacementGate(b.placing, known, placement)]
  }

  function Reported(t: ConditionType, v: Verdict): seq<Condition> {
    match v
    case Passes(message) => [Condition(t, True, message)]
    case Fails => [Condition(t, False, Text)]
    case Aborts => []
  }

  function GateLog(gates: seq<Gate>): seq<Condition> {
    if gates == [] then []
    else gates[0].before + Reported(gates[0].kind, gates[0].verdict)
         + if gates[0].verdict.Passes? then GateLog(gates[1..]) else []
  }

  /** How many gates are passed before one is not. */
  function PassedGates(gates: seq<Gate>): (n: nat)
    ensures n <= |gates|
  {
    if gates == [] || !gates[0].verdict.Passes? then 0 else 1 + PassedGates(gates[1..])
  }

  predicate Gating(t: ConditionType) {
    t in {RBACReady, ServerDiscovered, JWTSecretReady, CACertificateReady, PrincipalCertificateReady,
          ResourceProxyCertificateReady, AddOnTemplateReady, PlacementEvaluated}
  }

  /** Type and status of the gating conditions in a log. */
  function Verdicts(log: seq<Condition>): seq<(ConditionType, Status)> {
    if log == [] then []
    else (if Gating(log[0].kind) then [(log[0].kind, log[0].status)] else []) + Verdicts(log[1..])
  }

  lemma {:induction false} VerdictsConcat(a: seq<Condition>, b: seq<Condition>)
    ensures Verdicts(a + b) == Verdicts(a) + Verdicts(b)
  {
    if a == [] {
      assert a + b == b;
    } else {
      var first := if Gating(a[0].kind) then [(a[0].kind, a[0].status)] else [];
      assert (a + b)[1..] == a[1..] + b;
      VerdictsConcat(a[1..], b);
      assert first + (Verdicts(a[1..]) + Verdicts(b)) == first + Verdicts(a[1..]) + Verdicts(b);
    }
  }

  predicate WellFormed(g: Gate) {
    Gating(g.kind) && forall i | 0 <= i < |g.before| :: !Gating(g.before[i].kind)
  }

  lemma {:induction false} NoVerdicts(log: seq<Condition>)
    requires forall i | 0 <= i < |log| :: !Gating(log[i].kind)
    ensures Verdicts(log) == []
  {
    if log != [] {
      NoVerdicts(log[1..]);
    }
  }

  /** The gating conditions are set in order; all are True up to at most one False, which ends the reconcile: the gate
      after the last one passed is the last one attempted. */
  lemma {:induction false} VerdictsAreGated(gates: seq<Gate>)
    requires forall i | 0 <= i < |gates| :: WellFormed(gates[i])
    ensures var n, verdicts := PassedGates(gates), Verdicts(GateLog(gates));
            && |verdicts| == n + (if n < |gates| && gates[n].verdict.Fails? then 1 else 0)
            && (forall i | 0 <= i < n :: gates[i].verdict.Passes? && verdicts[i] == (gates[i].kind, True))
            && (n < |gates| ==> !gates[n].verdict.Passes?)
            && (n < |verdicts| ==> verdicts[n] == (gates[n].kind, False))
  {
    if gates != [] {
      var g := gates[0];
      assert WellFormed(g);
      FirstVerdict(gates);
      if g.verdict.Passes? {
        VerdictsAreGated(gates[1..]);
      }
    }
  }

  lemma FirstVerdict(gates: seq<Gate>)
    requires gates != [] && WellFormed(gates[0])
    ensures var g := gates[0];
            Verdicts(GateLog(gates)) == match g.verdict
              case Passes(_) => [(g.kind, True)] + Verdicts(GateLog(gates[1..]))
              case Fails => [(g.kind, False)]
              case Aborts => []
  {
    var g, rest := gates[0], if gates[0].verdict.Passes? then GateLog(gates[1..]) else [];
    NoVerdicts(g.before);
    VerdictsConcat(g.before + Reported(g.kind, g.verdict), rest);
    VerdictsConcat(g.before, Reported(g.kind, g.verdict));
    OneVerdict(g);
  }

  lemma OneVerdict(g: Gate)
    requires Gating(g.kind)
    ensures Verdicts(Reported(g.kind, g.verdict)) ==
            match g.verdict case Passes(_) => [(g.kind, True)] case Fails => [(g.kind, False)] case Aborts => []
  {
    var w := Reported(g.kind, g.verdict);
    if w != [] {
      assert w[1..] == [];
    }
  }
}
