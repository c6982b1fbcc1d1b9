/** What the conditions of a GitOpsCluster tell, and what a failed read of a ManagedCluster does. */
module FleetReports {
  import opened Kube
  import opened RegistrationUrl
  import opened AppendMissing
  import opened FleetView
  import opened FleetContent
  import opened FleetStore
  import opened FleetRun
  import opened FleetLaws
  import opened FleetStatus
  import opened FleetGates
  import opened FleetController
  import EndpointInjection
  import ServerDiscovery
  import Json

  // ---- Gating ----

  lemma GatesAreWellFormed(spec: Endpoint, b: Before, known: set<string>, placement: Option<seq<Toleration>>)
    ensures var gates := Gates(spec, b, known, placement);
            |gates| == 8 && forall i | 0 <= i < 8 :: WellFormed(gates[i])
  {
  }

  /** The stages, in the order in which they are evaluated, and what each of them waits for. */
  lemma GatesAre(spec: Endpoint, b: Before, known: set<string>, placement: Option<seq<Toleration>>)
    ensures var gates := Gates(spec, b, known, placement);
            && |gates| == 8
            && [gates[0].kind, gates[1].kind, gates[2].kind, gates[3].kind] ==
               [RBACReady, ServerDiscovered, JWTSecretReady, CACertificateReady]
            && [gates[4].kind, gates[5].kind, gates[6].kind, gates[7].kind] ==
               [PrincipalCertificateReady, ResourceProxyCertificateReady, AddOnTemplateReady, PlacementEvaluated]
            && (gates[0].verdict.Passes? <==> b.rbac) && (gates[2].verdict.Passes? <==> b.jwt)
            && (gates[3].verdict.Passes? <==> b.ca) && (gates[4].verdict.Passes? <==> b.principal)
            && (gates[5].verdict.Passes? <==> b.proxy) && (gates[6].verdict.Passes? <==> b.template)
  {
  }

  lemma {:induction false} AllPassed(gates: seq<Gate>)
    ensures PassedGates(gates) == |gates| <==> forall i | 0 <= i < |gates| :: gates[i].verdict.Passes?
  {
    if gates != [] && gates[0].verdict.Passes? {
      AllPassed(gates[1..]);
      assert forall i | 0 < i < |gates| :: gates[i] == gates[1..][i - 1];
    }
  }

  predicate ServerPasses(spec: Endpoint, d: Discovery) {
    var found := EndpointFor(spec, d);
    found.Some? && found.value.IsSet() && (spec.IsSet() || d.saved.Accepted?)
  }

  /** A run gets through to the clusters exactly when every stage before them has worked: RBAC, an endpoint that is
      complete and saved where it was discovered, JWT key, CA, both certificates, template, and a placement of the right
      kind that can be read together with its decisions. */
  lemma GetsThroughIff(cfg: Config, image: Option<string>, b: Before, known: set<string>,
                       placement: Option<seq<Toleration>>)
    ensures FleetOf(cfg, image, b, known, placement).Some? <==>
            && b.rbac && ServerPasses(EndpointOf(cfg), b.discovery) && b.jwt && b.ca && b.principal && b.proxy && b.template
            && b.placing.kindOk && b.placing.get.Accepted? && placement.Some? && b.placing.list.Accepted?
  {
    var gates := Gates(EndpointOf(cfg), b, known, placement);
    GatesAre(EndpointOf(cfg), b, known, placement);
    LastGate(EndpointOf(cfg), b, known, placement);
    AllPassed(gates);
    assert gates[1].verdict == Discovered(EndpointOf(cfg), b.discovery);
    var p := [gates[0], gates[1], gates[2], gates[3], gates[4], gates[5], gates[6], gates[7]];
    assert gates == p;
  }

  lemma LastGate(spec: Endpoint, b: Before, known: set<string>, placement: Option<seq<Toleration>>)
    ensures Gates(spec, b, known, placement)[7].verdict.Passes? <==> Placed(b.placing, known, placement).Some?
  {
  }

  lemma FleetLogHasNoVerdicts(fl: Fleet, run: Run, st: Store)
    ensures Verdicts(FleetLog(fl, run, st)) == []
  {
    var s1, s2 := AfterStage(fl, Importing, run, st), Delivered(fl, run, st);
    NoStageVerdict(ClustersImported, fl.clusters, FailedIn(fl, Importing, run, st));
    NoStageVerdict(ManifestWorkCreated, fl.clusters, FailedIn(fl, DeliveringCA, run, s1));
    var a := StageLog(ClustersImported, fl.clusters, FailedIn(fl, Importing, run, st));
    var b := StageLog(ManifestWorkCreated, fl.clusters, FailedIn(fl, DeliveringCA, run, s1));
    VerdictsConcat(a, b);
    VerdictsConcat(a + b, [Condition(ArgoCDCRDelivered, False, Text)]);
    VerdictsConcat(a + b, InstallLog(fl, run, s2));
    NoInstallVerdicts(fl, run, s2);
    NoVerdicts([Condition(ArgoCDCRDelivered, False, Text)]);
  }

  lemma NoStageVerdict(t: ConditionType, names: seq<string>, failed: seq<string>)
    requires !Gating(t)
    ensures Verdicts(StageLog(t, names, failed)) == []
  {
    NoVerdicts(StageLog(t, names, failed));
  }

  lemma NoInstallVerdicts(fl: Fleet, run: Run, st: Store)
    ensures Verdicts(InstallLog(fl, run, st)) == []
  {
    var cleaned := AfterCleanup(fl, run, AfterStage(fl, DeliveringCR, run, st));
    var removed := RemovedBy(fl, run, AfterStage(fl, DeliveringCR, run, st));
    var failed := FailedIn(fl, Installing, run, cleaned);
    NoStageVerdict(AddonConfigured, fl.clusters, failed);
    VerdictsConcat(RemovalLog(fl, run, st), StageLog(AddonConfigured, fl.clusters, failed));
    NoVerdicts(RemovalLog(fl, run, st));
  }

  /** In every run the gating conditions are set in order, all True up to at most one False; a gate that is not passed
      ends the reconcile before any cluster is touched. */
  lemma ReconcileIsGated(cfg: Config, image: Option<string>, b: Before, known: set<string>,
                         placement: Option<seq<Toleration>>, run: Run, st: Store)
    ensures var gates, fl := Gates(EndpointOf(cfg), b, known, placement), FleetOf(cfg, image, b, known, placement);
            var n, verdicts := PassedGates(gates), Verdicts(RunLog(fl, GateLog(gates), run, st));
            && |gates| == 8 && (fl.Some? <==> n == 8) && n <= |verdicts|
            && (forall i | 0 <= i < n :: verdicts[i] == (gates[i].kind, True))
            && verdicts[n..] == if n < 8 && gates[n].verdict.Fails? then [(gates[n].kind, False)] else []
  {
    var gates, fl := Gates(EndpointOf(cfg), b, known, placement), FleetOf(cfg, image, b, known, placement);
    GatesAreWellFormed(EndpointOf(cfg), b, known, placement);
    LastGate(EndpointOf(cfg), b, known, placement);
    VerdictsAreGated(gates);
    VerdictsOfRun(fl, gates, run, st);
  }

  lemma VerdictsOfRun(fl: Option<Fleet>, gates: seq<Gate>, run: Run, st: Store)
    ensures Verdicts(RunLog(fl, GateLog(gates), run, st)) == Verdicts(GateLog(gates))
  {
    if fl.Some? {
      VerdictsConcat(GateLog(gates), FleetLog(fl.value, run, st));
      FleetLogHasNoVerdicts(fl.value, run, st);
    } else {
      assert GateLog(gates) + [] == GateLog(gates);
    }
  }

  // ---- Failure accounting ----

  function FailedTurns(ok: nat -> bool, n: nat): seq<nat> {
    if n == 0 then [] else if ok(n - 1) then FailedTurns(ok, n - 1) else FailedTurns(ok, n - 1) + [n - 1]
  }

  lemma {:induction false} FailedTurnsExact(ok: nat -> bool, n: nat)
    ensures forall i | 0 <= i < n :: i in FailedTurns(ok, n) <==> !ok(i)
    ensures forall i | 0 <= i < |FailedTurns(ok, n)| :: FailedTurns(ok, n)[i] < n
    ensures forall i, j | 0 <= i < j < |FailedTurns(ok, n)| :: FailedTurns(ok, n)[i] < FailedTurns(ok, n)[j]
  {
    if n > 0 {
      FailedTurnsExact(ok, n - 1);
    }
  }

  /** The reported names are exactly those of the failed turns, in the order of the turns. */
  lemma {:induction false} FailingInOrder(names: seq<string>, ok: nat -> bool, n: nat)
    requires n <= |names|
    ensures |Failing(names, ok, n)| == |FailedTurns(ok, n)|
    ensures forall i | 0 <= i < |FailedTurns(ok, n)| ::
              FailedTurns(ok, n)[i] < n && Failing(names, ok, n)[i] == names[FailedTurns(ok, n)[i]]
  {
    if n > 0 {
      FailingInOrder(names, ok, n - 1);
    }
  }

  lemma ReportedIff(names: seq<string>, ok: nat -> bool)
    ensures var failed := Failing(names, ok, |names|);
            (failed != [] <==> exists i: nat :: i < |names| && !ok(i)) && |failed| == |FailedTurns(ok, |names|)|
  {
    FailingInOrder(names, ok, |names|);
    FailedTurnsExact(ok, |names|);
    var turns := FailedTurns(ok, |names|);
    if i: nat :| i < |names| && !ok(i) {
      assert i in turns;
    }
    if turns != [] {
      assert turns[0] in turns;
    }
  }

  /** A stage's condition is False exactly when some turn of it failed; it then tells how many, and names up to three
      of them in order. */
  lemma ConditionIsExact(t: ConditionType, names: seq<string>, ok: nat -> bool)
    requires names != []
    ensures var failed := Failing(names, ok, |names|); var log := StageLog(t, names, failed);
            && |log| == 1 && log[0].kind == t
            && log[0].status == (if exists i: nat :: i < |names| && !ok(i) then False else True)
            && (log[0].status == False ==>
                  log[0].message == Clusters(failed[..if |failed| < 3 then |failed| else 3], |FailedTurns(ok, |names|)|))
  {
    ReportedIff(names, ok);
  }

  /** The local cluster's turn never fails, so the failed ones are among the others. */
  lemma {:induction false} FailingIsNonLocal(names: seq<string>, ok: nat -> bool, n: nat)
    requires n <= |names| && forall i | 0 <= i < n && names[i] == LOCAL :: ok(i)
    ensures |Failing(names, ok, n)| <= NonLocal(names, n) && LOCAL !in Failing(names, ok, n)
  {
    if n > 0 {
      FailingIsNonLocal(names, ok, n - 1);
    }
  }

  lemma DeliveryIsExact(names: seq<string>, ok: nat -> bool)
    requires forall i | 0 <= i < |names| && names[i] == LOCAL :: ok(i)
    ensures var failed := Failing(names, ok, |names|);
            var condition := DeliveryCondition(DeliveredCount(names, failed), failed);
            && LOCAL !in failed && DeliveredCount(names, failed) + |failed| == NonLocal(names, |names|)
            && condition.kind == ArgoCDCRDelivered
            && condition.status == (if exists i: nat :: i < |names| && !ok(i) then False else True)
            && condition.message ==
               (if condition.status == False
                then Clusters(failed[..if |failed| < 3 then |failed| else 3], |FailedTurns(ok, |names|)|)
                else if NonLocal(names, |names|) > 0 then Counted(NonLocal(names, |names|)) else NoClusters)
  {
    FailingIsNonLocal(names, ok, |names|);
    ReportedIff(names, ok);
  }

  /** The condition about the ArgoCD works is False exactly when some delivery failed, and then tells how many and which;
      otherwise it counts all non-local clusters, if there are any. */
  lemma CRConditionIsExact(fl: Fleet, run: Run, st: Store)
    ensures var ok, n, condition := Oks(fl, DeliveringCR, run, st), |fl.clusters|, CRCondition(fl, run, st);
            var failed := FailedIn(fl, DeliveringCR, run, st);
            && LOCAL !in failed && condition.kind == ArgoCDCRDelivered
            && condition.status == (if exists i: nat :: i < n && !ok(i) then False else True)
            && condition.message ==
               (if condition.status == False
                then Clusters(failed[..if |failed| < 3 then |failed| else 3], |FailedTurns(ok, n)|)
                else if NonLocal(fl.clusters, n) > 0 then Counted(NonLocal(fl.clusters, n)) else NoClusters)
  {
    var ok := Oks(fl, DeliveringCR, run, st);
    forall i | 0 <= i < |fl.clusters| && fl.clusters[i] == LOCAL
      ensures ok(i)
    {
      LocalIsSkipped(fl, run, st, i);
    }
    DeliveryIsExact(fl.clusters, ok);
  }

  /** Without faults no servable cluster is reported. */
  lemma NobodyFails(fl: Fleet, stage: Stage, run: Run, st: Store)
    requires NoFaults(run) && AllServable(fl, SharedOf(st, fl.cfg, fl.image))
    ensures FailedIn(fl, stage, run, st) == []
  {
    var ok := Oks(fl, stage, run, st);
    FailingInOrder(fl.clusters, ok, |fl.clusters|);
    FailedTurnsExact(ok, |fl.clusters|);
    var turns := FailedTurns(ok, |fl.clusters|);
    if turns != [] {
      assert turns[0] in turns;
      SucceedsAt(fl, stage, run, st, turns[0]);
    }
  }

  lemma SucceedsAt(fl: Fleet, stage: Stage, run: Run, st: Store, i: nat)
    requires i < |fl.clusters| && NoFaults(run) && AllServable(fl, SharedOf(st, fl.cfg, fl.image))
    ensures Oks(fl, stage, run, st)(i)
  {
    var sh, c := SharedOf(st, fl.cfg, fl.image), fl.clusters[i];
    OkByView(fl, stage, run, st, i);
    assert FaultFree(run.turn(stage, i));
    TurnSettles(fl.cfg, stage, sh, StageView(fl, stage, run, sh, View(st, fl.cfg, c), c, i), c, run.turn(stage, i));
  }

  // ---- The placement ----

  /** An update that is not refused leaves a placement with both tolerations, and the next run does not update it. */
  lemma TolerationsStay(p: Placing, q: Placing, placement: Option<seq<Toleration>>)
    requires PlacementRead(p, placement) && !p.update.Rejected?
    ensures var after := PlacementAfter(p, placement).0;
            && after.Some? && placement.value <= after.value
            && (forall t | t in RequiredTolerations() :: Has(after.value, t, SameToleration))
            && (exists t :: t in after.value && t.op == "Exists" && t.key == "cluster.open-cluster-management.io/unreachable")
            && (exists t :: t in after.value && t.op == "Exists" && t.key == "cluster.open-cluster-management.io/unavailable")
            && PlacementAfter(q, after) == (after, true)
  {
    var required := RequiredTolerations();
    var merged := Tolerating(placement.value);
    forall i | 0 <= i < 2
      ensures exists t :: t in merged && t.op == "Exists" && t.key == required[i].key
    {
      AddAllComplete(placement.value, required, SameToleration);
      assert Has(merged, required[i], SameToleration);
      var j :| 0 <= j < |merged| && SameToleration(merged[j], required[i]);
      assert merged[j] in merged;
    }
    AddAllComplete(placement.value, required, SameToleration);
    AddAllTwice(placement.value, required, required, SameToleration);
  }

  lemma {:induction false} SelectedIff(decisions: seq<ByteString>, known: set<string>, read: nat -> Outcome, n: nat,
                                       c: string)
    requires n <= |decisions|
    ensures c in Selected(decisions, known, read, n) <==>
            c in known && exists i: nat :: i < n && decisions[i] == c && read(i).Accepted?
  {
    if n > 0 {
      SelectedIff(decisions, known, read, n - 1, c);
      if decisions[n - 1] == c && read(n - 1).Accepted? {
        assert n - 1 < n;
      }
    }
  }

  lemma {:induction false} AddOnStays(fl: Fleet, stage: Stage, run: Run, sh: Shared, v: ClusterView, c: string, n: nat)
    requires n <= |fl.clusters| && v.addOn.Some?
    ensures StageView(fl, stage, run, sh, v, c, n).addOn.Some?
    ensures HasLabelledAddOn(v) ==> HasLabelledAddOn(StageView(fl, stage, run, sh, v, c, n))
  {
    if n > 0 {
      AddOnStays(fl, stage, run, sh, v, c, n - 1);
      AddOnStaysInTurn(fl.cfg, stage, sh, StageView(fl, stage, run, sh, v, c, n - 1), fl.clusters[n - 1],
                       run.turn(stage, n - 1));
    }
  }

  lemma AddOnStaysInTurn(cfg: Config, stage: Stage, sh: Shared, v: ClusterView, c: ByteString, f: Faults)
    requires v.addOn.Some?
    ensures var v' := Turn(cfg, stage, sh, v, c, f).0; v'.addOn.Some? && v'.addOn.value.labels == v.addOn.value.labels
  {
    if stage != Installing {
      TurnIsLocal(cfg, stage, sh, v, c, f, Installing);
    }
  }

  /** A cluster that is still placed keeps its add-on through a reconcile exactly when its ManagedCluster could be
      read: otherwise it is taken down like a removed one. */
  lemma PlacedClusterKeptIff(cfg: Config, image: Option<string>, p: Placing, known: set<string>, run: Run, st: Store,
                             c: string)
    requires Lists(run) && run.listed.Accepted? && run.removal(c).o(DeleteAddOn).Accepted? && ValidUser(cfg.user)
    requires c in p.decisions && c in known && HasLabelledAddOn(View(st, cfg, c))
    ensures var fl := Fleet(cfg, image, Selected(p.decisions, known, p.read, |p.decisions|));
            View(Pass(fl, run, st), cfg, c).addOn.Some? <==>
            exists i: nat :: i < |p.decisions| && p.decisions[i] == c && p.read(i).Accepted?
  {
    var fl := Fleet(cfg, image, Selected(p.decisions, known, p.read, |p.decisions|));
    var sh, v, n := SharedOf(st, cfg, image), View(st, cfg, c), |fl.clusters|;
    SelectedIff(p.decisions, known, p.read, |p.decisions|, c);
    PassViews(fl, run, st, c);
    if c in fl.clusters {
      AddOnStays(fl, Importing, run, sh, v, c, n);
      var v1 := StageOf(fl, Importing, run, sh, v, c);
      AddOnStays(fl, DeliveringCA, run, sh, v1, c, n);
      var v2 := StageOf(fl, DeliveringCA, run, sh, v1, c);
      AddOnStays(fl, DeliveringCR, run, sh, v2, c, n);
      var v3 := StageOf(fl, DeliveringCR, run, sh, v2, c);
      AddOnStays(fl, Installing, run, sh, v3, c, n);
    } else {
      UnplacedPass(fl, run, sh, v, c);
    }
  }

  // ---- The endpoint ----

  /** A run that gets through goes on with a complete endpoint: the spec's own if that was complete, else the discovered
      one.  Its address is among the names of a principal certificate made for it, whatever that certificate's
      maker sees of Service and nodes; and a discovered one is so even before it is advertised. */
  lemma EndpointIsCertified(cfg: Config, image: Option<string>, b: Before, known: set<string>,
                            placement: Option<seq<Toleration>>, service: Option<ServerDiscovery.Service>,
                            nodes: Option<seq<ServerDiscovery.Node>>)
    requires FleetOf(cfg, image, b, known, placement).Some?
    ensures var fl, spec, d := FleetOf(cfg, image, b, known, placement).value, EndpointOf(cfg), b.discovery;
            && EndpointOf(fl.cfg).IsSet()
            && (if spec.IsSet() then EndpointOf(fl.cfg) == spec
                else d.service.Some? && ServerDiscovery.Discover(d.service.value, d.nodes)
                                        == Some((fl.cfg.address, fl.cfg.port)))
            && fl.cfg.address in ServerDiscovery.HostNames(service, nodes, cfg.ns, fl.cfg.address)
            && (!spec.IsSet() ==> fl.cfg.address in ServerDiscovery.HostNames(d.service, d.nodes, cfg.ns, ""))
  {
    var fl, spec, d := FleetOf(cfg, image, b, known, placement).value, EndpointOf(cfg), b.discovery;
    SecondGate(spec, b, known, placement);
    ServerDiscovery.AdvertisedAddressIsCertified(service, nodes, cfg.ns, fl.cfg.address);
    if !spec.IsSet() {
      ServerDiscovery.AdvertisedAddressIsCertified(d.service, d.nodes, cfg.ns, "");
    }
  }

  lemma SecondGate(spec: Endpoint, b: Before, known: set<string>, placement: Option<seq<Toleration>>)
    requires PassedGates(Gates(spec, b, known, placement)) >= 8
    ensures Discovered(spec, b.discovery).Passes?
  {
    GatesAreWellFormed(spec, b, known, placement);
    var gates := Gates(spec, b, known, placement);
    VerdictsAreGated(gates);
    assert gates[1].verdict == Discovered(spec, b.discovery);
  }

  /** What reaches the clusters: at its index each manifest of the user's, an ArgoCD with the user's own address and port
      where there are any and the run's where there are none, everything else as it is. */
  lemma ManifestIsDelivered(fl: Fleet, run: Run, st: Store, c: ByteString, i: nat)
    requires Lists(run) && NoFaults(run) && ValidUser(fl.cfg.user) && AllServable(fl, SharedOf(st, fl.cfg, fl.image))
    requires c in fl.clusters && c != "local-cluster"
    requires fl.cfg.user.Some? && i < |fl.cfg.user.value|
    ensures var work := View(Pass(fl, run, st), fl.cfg, c).crWork;
            work.Some? && |work.value.manifests| == |fl.cfg.user.value|
            && DeliveredAs(fl.cfg, fl.cfg.user.value[i], work.value.manifests[i])
  {
    FleetConverges(fl, run, st);
    assert Complete(fl.cfg, SharedOf(st, fl.cfg, fl.image), View(Pass(fl, run, st), fl.cfg, c), c, View(st, fl.cfg, c));
  }

  /** That endpoint is in every ArgoCD... */
  lemma EndpointIsDelivered(fl: Fleet, run: Run, st: Store, c: ByteString, i: nat)
    requires Lists(run) && NoFaults(run) && ValidUser(fl.cfg.user) && AllServable(fl, SharedOf(st, fl.cfg, fl.image))
    requires c in fl.clusters && c != "local-cluster"
    requires fl.cfg.user.Some? && i < |fl.cfg.user.value| && fl.cfg.user.value[i].Some?
    requires var doc := fl.cfg.user.value[i].value;
             Json.GetText(doc, "apiVersion") == "argoproj.io/v1beta1" && Json.GetText(doc, "kind") == "ArgoCD"
    ensures var work, doc := View(Pass(fl, run, st), fl.cfg, c).crWork, fl.cfg.user.value[i].value;
            && work.Some? && i < |work.value.manifests| && work.value.manifests[i].Document?
            && var delivered := work.value.manifests[i].doc;
               && EndpointInjection.Address(delivered) ==
                  (if EndpointInjection.Address(doc) != "" then EndpointInjection.Address(doc) else fl.cfg.address)
               && EndpointInjection.Port(delivered) ==
                  (if EndpointInjection.Port(doc) != "" then EndpointInjection.Port(doc) else fl.cfg.port)
  {
    ManifestIsDelivered(fl, run, st, c, i);
  }

  /** ... and every document that is not an ArgoCD is delivered as the user wrote it. */
  lemma OthersAreDeliveredAsTheyAre(fl: Fleet, run: Run, st: Store, c: ByteString, i: nat)
    requires Lists(run) && NoFaults(run) && ValidUser(fl.cfg.user) && AllServable(fl, SharedOf(st, fl.cfg, fl.image))
    requires c in fl.clusters && c != "local-cluster"
    requires fl.cfg.user.Some? && i < |fl.cfg.user.value| && fl.cfg.user.value[i].Some?
    requires var doc := fl.cfg.user.value[i].value;
             Json.GetText(doc, "apiVersion") != "argoproj.io/v1beta1" || Json.GetText(doc, "kind") != "ArgoCD"
    ensures var work := View(Pass(fl, run, st), fl.cfg, c).crWork;
            work.Some? && i < |work.value.manifests|
            && work.value.manifests[i] == Document(fl.cfg.user.value[i].value)
  {
    ManifestIsDelivered(fl, run, st, c, i);
  }

  // ---- What a specification that is not acceptable stops ----

  lemma {:induction false} StageTouchesOwnPart(fl: Fleet, stage: Stage, run: Run, sh: Shared, v: ClusterView, c: string)
    requires stage == Importing || stage == DeliveringCA
    ensures var w := StageOf(fl, stage, run, sh, v, c); w.crWork == v.crWork && w.addOn == v.addOn && w.config == v.config
  {
    StageIsLocal(fl, stage, run, sh, v, c, DeliveringCR, |fl.clusters|);
    StageIsLocal(fl, stage, run, sh, v, c, Installing, |fl.clusters|);
  }

  /** A user's list that is empty, cannot be read, or holds no ArgoCD, stops the pass before anything is removed or
      installed: no cluster's ArgoCD work, add-on or configuration changes, whatever fails. */
  lemma UnacceptableStops(fl: Fleet, run: Run, st: Store, c: string)
    requires Lists(run) && fl.cfg.user.Some?
    requires var docs := fl.cfg.user.value;
             || (exists i :: 0 <= i < |docs| && docs[i].None?)
             || (forall i | 0 <= i < |docs| :: docs[i].Some? ==>
                   Json.GetText(docs[i].value, "apiVersion") != "argoproj.io/v1beta1"
                   || Json.GetText(docs[i].value, "kind") != "ArgoCD")
    ensures var v, w := View(st, fl.cfg, c), View(Pass(fl, run, st), fl.cfg, c);
            w.crWork == v.crWork && w.addOn == v.addOn && w.config == v.config
  {
    var sh, v := SharedOf(st, fl.cfg, fl.image), View(st, fl.cfg, c);
    assert !ValidUser(fl.cfg.user);
    PassViews(fl, run, st, c);
    StageTouchesOwnPart(fl, Importing, run, sh, v, c);
    StageTouchesOwnPart(fl, DeliveringCA, run, sh, StageOf(fl, Importing, run, sh, v, c), c);
  }

  // ---- Which condition tells about which stage ----

  lemma {:induction false} LastOfConcat(a: seq<Condition>, b: seq<Condition>, t: ConditionType)
    ensures Last(a + b, t) == if Last(b, t).Some? then Last(b, t) else Last(a, t)
    decreases |b|
  {
    if b == [] {
      assert a + b == a;
    } else {
      assert (a + b)[..|a + b| - 1] == a + b[..|b| - 1];
      LastOfConcat(a, b[..|b| - 1], t);
    }
  }

  predicate SomeTurnFails(fl: Fleet, stage: Stage, run: Run, st: Store) {
    exists i: nat :: i < |fl.clusters| && !Oks(fl, stage, run, st)(i)
  }

  lemma LastOfStage(t: ConditionType, u: ConditionType, fl: Fleet, stage: Stage, run: Run, st: Store)
    requires fl.clusters != []
    ensures var last := Last(StageLog(t, fl.clusters, FailedIn(fl, stage, run, st)), u);
            if t == u then last.Some? && (last.value.status == False <==> SomeTurnFails(fl, stage, run, st)) else last.None?
  {
    var log := StageLog(t, fl.clusters, FailedIn(fl, stage, run, st));
    ConditionIsExact(t, fl.clusters, Oks(fl, stage, run, st));
    assert log[..|log| - 1] == [];
  }

  predicate Tells(last: Option<Condition>, fl: Fleet, stage: Stage, run: Run, st: Store) {
    last.Some? && (last.value.status == False <==> SomeTurnFails(fl, stage, run, st))
  }

  /** ClustersImported tells about the imports, ManifestWorkCreated about the CA works. */
  lemma LastInDelivery(fl: Fleet, run: Run, st: Store, t: ConditionType)
    requires fl.clusters != []
    ensures var last := Last(DeliveryLog(fl, run, st), t);
            if t == ClustersImported then Tells(last, fl, Importing, run, st)
            else if t == ManifestWorkCreated then Tells(last, fl, DeliveringCA, run, AfterStage(fl, Importing, run, st))
            else last.None?
  {
    var s1 := AfterStage(fl, Importing, run, st);
    LastOfStage(ClustersImported, t, fl, Importing, run, st);
    LastOfStage(ManifestWorkCreated, t, fl, DeliveringCA, run, s1);
    LastOfConcat(StageLog(ClustersImported, fl.clusters, FailedIn(fl, Importing, run, st)),
                 StageLog(ManifestWorkCreated, fl.clusters, FailedIn(fl, DeliveringCA, run, s1)), t);
  }

  lemma LastInRemoval(fl: Fleet, run: Run, st: Store, t: ConditionType)
    requires t != RemovedClustersCleanedUp
    ensures var last := Last(RemovalLog(fl, run, st), t);
            if t == ArgoCDCRDelivered then Tells(last, fl, DeliveringCR, run, st) else last.None?
  {
    var removed := RemovedBy(fl, run, AfterStage(fl, DeliveringCR, run, st));
    var a := [CRCondition(fl, run, st)];
    CRConditionIsExact(fl, run, st);
    CleanupSaysNothingElse(run.listed.Accepted?, removed, t);
    LastOfConcat(a, CleanupLog(run.listed.Accepted?, removed), t);
    assert a[..0] == [];
  }

  /** ArgoCDCRDelivered tells about the ArgoCD works, AddonConfigured about the add-ons. */
  lemma LastInInstall(fl: Fleet, run: Run, st: Store, t: ConditionType)
    requires fl.clusters != [] && t != RemovedClustersCleanedUp
    ensures var last := Last(InstallLog(fl, run, st), t);
            var cleaned := AfterCleanup(fl, run, AfterStage(fl, DeliveringCR, run, st));
            if t == ArgoCDCRDelivered then Tells(last, fl, DeliveringCR, run, st)
            else if t == AddonConfigured then Tells(last, fl, Installing, run, cleaned)
            else last.None?
  {
    var cleaned := AfterCleanup(fl, run, AfterStage(fl, DeliveringCR, run, st));
    LastInRemoval(fl, run, st, t);
    LastOfStage(AddonConfigured, t, fl, Installing, run, cleaned);
    LastOfConcat(RemovalLog(fl, run, st), StageLog(AddonConfigured, fl.clusters, FailedIn(fl, Installing, run, cleaned)), t);
  }

  lemma CleanupSaysNothingElse(listed: bool, removed: nat, t: ConditionType)
    requires t != RemovedClustersCleanedUp
    ensures Last(CleanupLog(listed, removed), t).None?
  {
    var log := CleanupLog(listed, removed);
    if log != [] {
      assert log[..|log| - 1] == [];
    }
  }

  lemma LastInFleet(fl: Fleet, run: Run, st: Store, t: ConditionType)
    requires ValidUser(fl.cfg.user)
    ensures var a, b := Last(DeliveryLog(fl, run, st), t), Last(InstallLog(fl, run, Delivered(fl, run, st)), t);
            Last(FleetLog(fl, run, st), t) == if b.Some? then b else a
  {
    LastOfConcat(DeliveryLog(fl, run, st), InstallLog(fl, run, Delivered(fl, run, st)), t);
  }

  /** Each of the four conditions a run through the clusters sets is False exactly when some turn of its own stage failed,
      on the store that stage began with. */
  lemma EachStageIsReported(fl: Fleet, run: Run, st: Store, t: ConditionType)
    requires fl.clusters != [] && ValidUser(fl.cfg.user)
    ensures var last, s1, s2 := Last(FleetLog(fl, run, st), t), AfterStage(fl, Importing, run, st), Delivered(fl, run, st);
            var cleaned := AfterCleanup(fl, run, AfterStage(fl, DeliveringCR, run, s2));
            && (t == ClustersImported ==> Tells(last, fl, Importing, run, st))
            && (t == ManifestWorkCreated ==> Tells(last, fl, DeliveringCA, run, s1))
            && (t == ArgoCDCRDelivered ==> Tells(last, fl, DeliveringCR, run, s2))
            && (t == AddonConfigured ==> Tells(last, fl, Installing, run, cleaned))
  {
    if t != RemovedClustersCleanedUp {
      LastInDelivery(fl, run, st, t);
      LastInInstall(fl, run, Delivered(fl, run, st), t);
      LastInFleet(fl, run, st, t);
    }
  }

  // ---- How many clusters were removed ----

  function Removals(fl: Fleet, run: Run, items: seq<Key>): set<Key> {
    set k | k in items && k.name == ADDON && k.ns !in fl.clusters && run.removal(k.ns).o(DeleteAddOn).Accepted?
  }

  lemma {:induction false} RemovedIsCounted(fl: Fleet, run: Run, items: seq<Key>, n: nat)
    requires n <= |items| && forall i, j | 0 <= i < j < |items| :: items[i] != items[j]
    ensures RemovedUpTo(fl, run, items, n) == |Removals(fl, run, items[..n])|
  {
    if n > 0 {
      RemovedIsCounted(fl, run, items, n - 1);
      var k := items[n - 1];
      assert items[..n] == items[..n - 1] + [k];
      assert k !in items[..n - 1];
      var more := if k.name == ADDON && k.ns !in fl.clusters && run.removal(k.ns).o(DeleteAddOn).Accepted? then {k} else {};
      assert Removals(fl, run, items[..n]) == Removals(fl, run, items[..n - 1]) + more;
    }
  }

  /** The number reported is that of the labelled add-ons outside the placement whose deletion was accepted. */
  lemma RemovedIsExact(fl: Fleet, run: Run, st: Store)
    requires Lists(run) && run.listed.Accepted?
    ensures RemovedBy(fl, run, st) ==
            |set k | k in st.addOns && k.kind == "ManagedClusterAddOn" && Labelled(st.addOns[k])
                     && k.name == "argocd-agent-addon" && k.ns !in fl.clusters
                     && run.removal(k.ns).o(DeleteAddOn).Accepted?|
  {
    var items := run.order(Listed(st.addOns));
    assert Enumeration(items, Listed(st.addOns));
    RemovedIsCounted(fl, run, items, |items|);
    assert items[..|items|] == items;
    assert Removals(fl, run, items) ==
           set k | k in st.addOns && k.kind == "ManagedClusterAddOn" && Labelled(st.addOns[k])
                   && k.name == "argocd-agent-addon" && k.ns !in fl.clusters && run.removal(k.ns).o(DeleteAddOn).Accepted?;
  }
}
