/** The reconcile of a GitOpsCluster: gates first, then every stage over all placed clusters. */
module FleetController {
  import opened Kube
  import opened RegistrationUrl
  import opened AppendMissing
  import opened FleetView
  import opened FleetStore
  import opened FleetRun
  import opened FleetClusters
  import opened FleetStatus
  import opened FleetGates
  import Json
  import ServerDiscovery
  import EndpointInjection

  // ---- The conditions set for the clusters ----

  function StageLog(t: ConditionType, names: seq<string>, failed: seq<string>): seq<Condition> {
    if names == [] then []
    else [if failed != [] then Condition(t, False, JoinClusterNames(failed)) else Condition(t, True, Counted(|names|))]
  }

  function NonLocal(names: seq<string>, n: nat): nat
    requires n <= |names|
  {
    if n == 0 then 0 else NonLocal(names, n - 1) + if names[n - 1] == LOCAL then 0 else 1
  }

  function DeliveryCondition(delivered: nat, failed: seq<string>): Condition {
    if failed != [] then Condition(ArgoCDCRDelivered, False, JoinClusterNames(failed))
    else if delivered > 0 then Condition(ArgoCDCRDelivered, True, Counted(delivered))
    else Condition(ArgoCDCRDelivered, True, NoClusters)
  }

  function CleanupLog(listed: bool, removed: nat): seq<Condition> {
    if !listed then [Condition(RemovedClustersCleanedUp, False, Text)]
    else if removed > 0 then [Condition(RemovedClustersCleanedUp, True, Counted(removed))]
    else []
  }

  function RemovedBy(fl: Fleet, run: Run, st: Store): nat {
    if !run.listed.Accepted? then 0
    else var items := run.order(Listed(st.addOns)); RemovedUpTo(fl, run, items, |items|)
  }

  function DeliveryLog(fl: Fleet, run: Run, st: Store): seq<Condition> {
    var s1 := AfterStage(fl, Importing, run, st);
    StageLog(ClustersImported, fl.clusters, FailedIn(fl, Importing, run, st))
    + StageLog(ManifestWorkCreated, fl.clusters, FailedIn(fl, DeliveringCA, run, s1))
  }

  function DeliveredCount(names: seq<string>, failed: seq<string>): nat {
    var n := NonLocal(names, |names|);
    if n >= |failed| then n - |failed| else 0
  }

  function CRCondition(fl: Fleet, run: Run, st: Store): Condition {
    var failed := FailedIn(fl, DeliveringCR, run, st);
    DeliveryCondition(DeliveredCount(fl.clusters, failed), failed)
  }

  function RemovalLog(fl: Fleet, run: Run, st: Store): seq<Condition> {
    [CRCondition(fl, run, st)]
    + CleanupLog(run.listed.Accepted?, RemovedBy(fl, run, AfterStage(fl, DeliveringCR, run, st)))
  }

  function InstallLog(fl: Fleet, run: Run, st: Store): seq<Condition> {
    var cleaned := AfterCleanup(fl, run, AfterStage(fl, DeliveringCR, run, st));
    RemovalLog(fl, run, st) + StageLog(AddonConfigured, fl.clusters, FailedIn(fl, Installing, run, cleaned))
  }

  function FleetLog(fl: Fleet, run: Run, st: Store): seq<Condition> {
    DeliveryLog(fl, run, st) +
    if !ValidUser(fl.cfg.user) then [Condition(ArgoCDCRDelivered, False, Text)]
    else InstallLog(fl, run, Delivered(fl, run, st))
  }

  // ---- A whole reconcile ----

  function EndpointOf(cfg: Config): Endpoint { Endpoint(cfg.address, cfg.port) }

  /** The GitOpsCluster with the endpoint its spec has after discovery. */
  function Served(cfg: Config, d: Discovery): Config {
    var spec := Saved(EndpointOf(cfg), d);
    cfg.(address := spec.address, port := spec.port)
  }

  /** Discovery is reached when the stage before it is passed. */
  function ConfigThen(cfg: Config, b: Before): Config { if b.rbac then Served(cfg, b.discovery) else cfg }

  function FleetOf(cfg: Config, image: Option<string>, b: Before, known: set<string>, placement: Option<seq<Toleration>>)
    : Option<Fleet>
  {
    if PassedGates(Gates(EndpointOf(cfg), b, known, placement)) < 8 || Placed(b.placing, known, placement).None? then None
    else Some(Fleet(Served(cfg, b.discovery), image, Placed(b.placing, known, placement).value))
  }

  /** The placement is reached when the seven stages before it are passed. */
  function PlacementThen(spec: Endpoint, b: Before, known: set<string>, placement: Option<seq<Toleration>>)
    : Option<seq<Toleration>>
  {
    if PassedGates(Gates(spec, b, known, placement)) < 7 then placement else PlacementAfter(b.placing, placement).0
  }

  function StoreAfter(fl: Option<Fleet>, run: Run, st: Store): Store {
    if fl.None? then st else Pass(fl.value, run, st)
  }

  function RunLog(fl: Option<Fleet>, gateLog: seq<Condition>, run: Run, st: Store): seq<Condition> {
    gateLog + if fl.None? then [] else FleetLog(fl.value, run, st)
  }

  lemma LocalTurn(fl: Fleet, run: Run, st: Store, i: nat)
    requires i < |fl.clusters| && fl.clusters[i] == LOCAL
    ensures TurnIn(fl, DeliveringCR, run, st, i) == (View(st, fl.cfg, LOCAL), true)
  {
  }

  lemma LocalIsSkipped(fl: Fleet, run: Run, st: Store, i: nat)
    requires i < |fl.clusters| && fl.clusters[i] == LOCAL
    ensures StageUpTo(fl, DeliveringCR, run, st, i + 1) == StageUpTo(fl, DeliveringCR, run, st, i)
    ensures Oks(fl, DeliveringCR, run, st)(i)
  {
    var st' := StageUpTo(fl, DeliveringCR, run, st, i);
    LocalTurn(fl, run, st', i);
    PutSame(st', fl.cfg, LOCAL);
  }

  lemma Regrouped(a: seq<Condition>, b: seq<Condition>, c: seq<Condition>)
    ensures (a + b) + c == a + (b + c)
  {
  }

  // ---- The imperative code ----

  class GitOpsClusterReconciler {
    const hub: Clusters
    const status: StatusWriter
    const known: set<string>
    var placement: Option<seq<Toleration>>

    constructor (hub: Clusters, status: StatusWriter, known: set<string>, placement: Option<seq<Toleration>>)
      ensures this.hub == hub && this.status == status && this.known == known && this.placement == placement
    {
      this.hub, this.status, this.known, this.placement := hub, status, known, placement;
    }

    // ---- The gates ----

    method Check(t: ConditionType, v: Verdict) returns (go: bool)
      requires status.Valid()
      modifies status
      ensures status.Valid() && status.start == old(status.start) && go == v.Passes?
      ensures status.log == old(status.log) + Reported(t, v)
    {
      match v {
        case Passes(message) => status.SetCondition(Condition(t, True, message));
        case Fails => status.SetCondition(Condition(t, False, Text));
        case Aborts =>
      }
      go := v.Passes?;
    }

    method EnsurePlacementTolerations(tolerations: seq<Toleration>, o: Outcome) returns (ok: bool)
      requires placement == Some(tolerations)
      modifies this`placement
      ensures var merged := Tolerating(tolerations);
              && ok == (merged == tolerations || o.Accepted?)
              && placement == if merged == tolerations || o.Rejected? then old(placement) else Some(merged)
    {
      var merged, needsUpdate := EnsureAll(tolerations, RequiredTolerations(), SameToleration);
      if !needsUpdate {
        return true;
      }
      if o != Rejected {
        placement := Some(merged);
      }
      ok := o == Accepted;
    }

    method ConfigureTolerations(p: Placing)
      requires status.Valid() && PlacementRead(p, placement)
      modifies this`placement, status
      ensures status.Valid() && status.start == old(status.start)
      ensures var (after, ok) := PlacementAfter(p, old(placement));
              && placement == after
              && status.log == old(status.log)
                               + [Condition(PlacementTolerationConfigured, if ok then True else False, Text)]
    {
      var ok := EnsurePlacementTolerations(placement.value, p.update);
      status.SetCondition(Condition(PlacementTolerationConfigured, if ok then True else False, Text));
    }

    method GetManagedClustersFromPlacement(p: Placing) returns (r: Option<seq<ByteString>>)
      requires status.Valid()
      modifies this`placement, status
      ensures status.Valid() && status.start == old(status.start)
      ensures r == Placed(p, known, old(placement)) && placement == PlacementAfter(p, old(placement)).0
      ensures status.log == old(status.log) + PlacementGate(p, known, old(placement)).before
    {
      if !p.kindOk {
        return None;
      }
      if p.get != Accepted || placement.None? {
        return None;
      }
      ConfigureTolerations(p);
      if p.list != Accepted {
        return None;
      }
      var clusters := ReadManagedClusters(p);
      return Some(clusters);
    }

    method ReadManagedClusters(p: Placing) returns (clusters: seq<ByteString>)
      ensures clusters == Selected(p.decisions, known, p.read, |p.decisions|)
    {
      clusters := [];
      for i := 0 to |p.decisions|
        invariant clusters == Selected(p.decisions, known, p.read, i)
      {
        if p.read(i) == Accepted && p.decisions[i] in known {
          clusters := clusters + [p.decisions[i]];
        }
      }
    }

    /** One gate that sets no condition on its way; i counts the gates passed so far. */
    method PassGate(t: ConditionType, v: Verdict, ghost gates: seq<Gate>, ghost i: nat) returns (go: bool)
      requires status.Valid() && i < |gates| && gates[i] == Gate(t, [], v)
      modifies status
      ensures status.Valid() && status.start == old(status.start)
      ensures old(status.log) + GateLog(gates[i..]) == status.log + if go then GateLog(gates[i + 1..]) else []
      ensures PassedGates(gates[i..]) == if go then 1 + PassedGates(gates[i + 1..]) else 0
    {
      assert gates[i..][1..] == gates[i + 1..];
      go := Check(t, v);
    }

    /** The JWT key, the CA and the certificates made from it. */
    method EnsureCredentials(b: Before, ghost gates: seq<Gate>) returns (go: bool)
      requires status.Valid() && |gates| == 8
      requires gates[2] == Gate(JWTSecretReady, [], Basic(b.jwt))
      requires gates[3] == Gate(CACertificateReady, [], Basic(b.ca))
      requires gates[4] == Gate(PrincipalCertificateReady, [], Basic(b.principal))
      requires gates[5] == Gate(ResourceProxyCertificateReady, [], Basic(b.proxy))
      modifies status
      ensures status.Valid() && status.start == old(status.start)
      ensures old(status.log) + GateLog(gates[2..]) == status.log + if go then GateLog(gates[6..]) else []
      ensures if go then PassedGates(gates[2..]) == 4 + PassedGates(gates[6..]) else PassedGates(gates[2..]) < 4
    {
      go := PassGate(JWTSecretReady, Basic(b.jwt), gates, 2);
      if !go {
        return false;
      }
      go := PassGate(CACertificateReady, Basic(b.ca), gates, 3);
      if !go {
        return false;
      }
      go := PassGate(PrincipalCertificateReady, Basic(b.principal), gates, 4);
      if !go {
        return false;
      }
      go := PassGate(ResourceProxyCertificateReady, Basic(b.proxy), gates, 5);
    }

    /** Discovery into the spec, its update, and the check that both values are there. */
    method EnsureServer(d: Discovery) returns (v: Verdict)
      modifies hub`cfg
      ensures v == Discovered(EndpointOf(old(hub.cfg)), d) && hub.cfg == Served(old(hub.cfg), d)
    {
      var spec := new ServerDiscovery.GitOpsClusterSpec(hub.cfg.address, hub.cfg.port);
      var updated, failed := spec.EnsureServerAddressAndPort(d.service, d.nodes);
      if failed {
        return Fails;
      }
      if !updated || d.saved != Rejected {
        hub.cfg := hub.cfg.(address := spec.address, port := spec.port);
      }
      if updated && d.saved != Accepted {
        return Aborts;
      }
      return Basic(spec.address != "" && spec.port != "");
    }

    method EnsureHub(b: Before, ghost gates: seq<Gate>) returns (go: bool)
      requires status.Valid() && |gates| == 8
      requires gates[0] == Gate(RBACReady, [], Basic(b.rbac))
      requires gates[1] == Gate(ServerDiscovered, [], Discovered(EndpointOf(hub.cfg), b.discovery))
      requires gates[2] == Gate(JWTSecretReady, [], Basic(b.jwt))
      requires gates[3] == Gate(CACertificateReady, [], Basic(b.ca))
      requires gates[4] == Gate(PrincipalCertificateReady, [], Basic(b.principal))
      requires gates[5] == Gate(ResourceProxyCertificateReady, [], Basic(b.proxy))
      modifies status, hub`cfg
      ensures hub.cfg == ConfigThen(old(hub.cfg), b)
      ensures status.Valid() && status.start == old(status.start)
      ensures old(status.log) + GateLog(gates) == status.log + if go then GateLog(gates[6..]) else []
      ensures if go then PassedGates(gates) == 6 + PassedGates(gates[6..]) else PassedGates(gates) < 6
    {
      assert gates[0..] == gates;
      go := PassGate(RBACReady, Basic(b.rbac), gates, 0);
      if !go {
        return false;
      }
      var verdict := EnsureServer(b.discovery);
      go := PassGate(ServerDiscovered, verdict, gates, 1);
      if !go {
        return false;
      }
      go := EnsureCredentials(b, gates);
    }

    method RunGates(b: Before) returns (clusters: Option<seq<ByteString>>)
      requires status.Valid()
      modifies this`placement, status, hub`cfg
      ensures hub.cfg == ConfigThen(old(hub.cfg), b)
      ensures status.Valid() && status.start == old(status.start)
      ensures var gates := Gates(EndpointOf(old(hub.cfg)), b, known, old(placement));
              && status.log == old(status.log) + GateLog(gates)
              && clusters == (if PassedGates(gates) == 8 then Placed(b.placing, known, old(placement)) else None)
              && placement == (if PassedGates(gates) < 7 then old(placement)
                               else PlacementAfter(b.placing, old(placement)).0)
    {
      ghost var gates := Gates(EndpointOf(hub.cfg), b, known, placement);
      var go := EnsureHub(b, gates);
      if !go {
        return None;
      }
      go := PassGate(AddOnTemplateReady, Basic(b.template), gates, 6);
      if !go {
        return None;
      }
      assert gates[7..] == [PlacementGate(b.placing, known, placement)];
      clusters := EvaluatePlacement(b.placing);
    }

    method EvaluatePlacement(p: Placing) returns (clusters: Option<seq<ByteString>>)
      requires status.Valid()
      modifies this`placement, status
      ensures status.Valid() && status.start == old(status.start)
      ensures var last := [PlacementGate(p, known, old(placement))];
              && status.log == old(status.log) + GateLog(last)
              && clusters == Placed(p, known, old(placement))
              && PassedGates(last) == (if clusters.Some? then 1 else 0)
              && placement == PlacementAfter(p, old(placement)).0
    {
      ghost var last := [PlacementGate(p, known, placement)];
      assert last[1..] == [];
      clusters := GetManagedClustersFromPlacement(p);
      var _ := Check(PlacementEvaluated,
                     match clusters
                     case None => Fails
                     case Some(names) => Passes(if names == [] then NoClusters else Counted(|names|)));
    }

    // ---- The loops over the clusters ----

    method TakeTurn(stage: Stage, c: ByteString, f: Faults) returns (ok: bool)
      modifies hub.secrets, hub.works, hub.addOns, hub.configs
      ensures (hub.Objects(), ok) ==
              var (v, ok') := Turn(hub.cfg, stage, old(hub.Sh()), View(old(hub.Objects()), hub.cfg, c), c, f);
              (Put(old(hub.Objects()), hub.cfg, c, v), ok')
    {
      match stage {
        case Importing => ok := hub.ImportManagedCluster(c, f);
        case DeliveringCA => ok := hub.CreateArgoCDAgentManifestWork(c, f);
        case DeliveringCR => ok := hub.CreateArgoCDCRManifestWork(c, f);
        case Installing => ok := InstallAddOn(c, f);
      }
    }

    method InstallAddOn(c: string, f: Faults) returns (ok: bool)
      modifies hub.addOns, hub.configs
      ensures (hub.Objects(), ok) == var (v, ok') := Install(hub.cfg, View(old(hub.Objects()), hub.cfg, c), c, f);
                                     (Put(old(hub.Objects()), hub.cfg, c, v), ok')
    {
      ghost var st, v := hub.Objects(), EnsureConfig(hub.cfg, View(hub.Objects(), hub.cfg, c), f).0;
      PutView(st, hub.cfg, c, v, hub.image);
      PutTwice(st, hub.cfg, c, v, EnsureAddOn(hub.cfg, v, c, f).0);
      ok := hub.EnsureAddOnDeploymentConfig(c, f);
      if !ok {
        return false;
      }
      ok := hub.EnsureManagedClusterAddon(c, f);
    }

    /** The i-th turn of a loop over the clusters of fl; st is the store the loop began with. */
    method TakeTurnOf(ghost fl: Fleet, stage: Stage, run: Run, ghost st: Store, i: nat, c: ByteString)
      returns (ok: bool)
      requires fl.cfg == hub.cfg && fl.image == hub.image && i < |fl.clusters| && fl.clusters[i] == c
      requires hub.Objects() == StageUpTo(fl, stage, run, st, i)
      modifies hub.secrets, hub.works, hub.addOns, hub.configs
      ensures hub.Objects() == StageUpTo(fl, stage, run, st, i + 1)
      ensures ok == Oks(fl, stage, run, st)(i)
    {
      ok := TakeTurn(stage, c, run.turn(stage, i));
    }

    /** A loop that goes on after a failure and remembers who failed. */
    method RunStage(stage: Stage, clusters: seq<ByteString>, run: Run) returns (failed: seq<string>)
      modifies hub.secrets, hub.works, hub.addOns, hub.configs
      ensures var fl := Fleet(hub.cfg, hub.image, clusters);
              && hub.Objects() == AfterStage(fl, stage, run, old(hub.Objects()))
              && failed == FailedIn(fl, stage, run, old(hub.Objects()))
    {
      ghost var fl, st := Fleet(hub.cfg, hub.image, clusters), hub.Objects();
      failed := [];
      for i := 0 to |clusters|
        invariant hub.Objects() == StageUpTo(fl, stage, run, st, i)
        invariant failed == Failing(clusters, Oks(fl, stage, run, st), i)
      {
        var ok := TakeTurnOf(fl, stage, run, st, i, clusters[i]);
        if !ok {
          failed := failed + [clusters[i]];
        }
      }
    }

    method DeliverNext(ghost fl: Fleet, run: Run, ghost st: Store, i: nat, c: ByteString)
      returns (skipped: bool, ok: bool)
      requires fl.cfg == hub.cfg && fl.image == hub.image && i < |fl.clusters| && fl.clusters[i] == c
      requires hub.Objects() == StageUpTo(fl, DeliveringCR, run, st, i)
      modifies hub.secrets, hub.works, hub.addOns, hub.configs
      ensures hub.Objects() == StageUpTo(fl, DeliveringCR, run, st, i + 1)
      ensures ok == Oks(fl, DeliveringCR, run, st)(i) && skipped == (c == LOCAL) && (skipped ==> ok)
    {
      if c == LOCAL {
        LocalIsSkipped(fl, run, st, i);
        return true, true;
      }
      skipped := false;
      ok := TakeTurnOf(fl, DeliveringCR, run, st, i, c);
    }

    /** The same for the ArgoCD works: the local cluster is skipped, successes are counted, and every other cluster is
        either counted or remembered. */
    method DeliverArgoCDs(clusters: seq<ByteString>, run: Run) returns (failed: seq<string>, delivered: nat)
      modifies hub.secrets, hub.works, hub.addOns, hub.configs
      ensures var fl := Fleet(hub.cfg, hub.image, clusters);
              && hub.Objects() == AfterStage(fl, DeliveringCR, run, old(hub.Objects()))
              && failed == FailedIn(fl, DeliveringCR, run, old(hub.Objects()))
              && delivered + |failed| == NonLocal(clusters, |clusters|)
              && delivered == DeliveredCount(clusters, failed)
    {
      ghost var fl, st := Fleet(hub.cfg, hub.image, clusters), hub.Objects();
      failed, delivered := [], 0;
      for i := 0 to |clusters|
        invariant hub.Objects() == StageUpTo(fl, DeliveringCR, run, st, i)
        invariant failed == Failing(clusters, Oks(fl, DeliveringCR, run, st), i)
        invariant delivered + |failed| == NonLocal(clusters, i)
      {
        var skipped, ok := DeliverNext(fl, run, st, i, clusters[i]);
        if skipped {
          continue;
        }
        if ok {
          delivered := delivered + 1;
        } else {
          failed := failed + [clusters[i]];
        }
      }
    }

    method CleanupRemovedClusters(clusters: seq<ByteString>, run: Run) returns (ok: bool, removed: nat)
      requires Lists(run)
      modifies hub.secrets, hub.works, hub.addOns
      ensures var fl := Fleet(hub.cfg, hub.image, clusters);
              && hub.Objects() == AfterCleanup(fl, run, old(hub.Objects()))
              && ok == run.listed.Accepted? && removed == RemovedBy(fl, run, old(hub.Objects()))
    {
      ghost var fl, st := Fleet(hub.cfg, hub.image, clusters), hub.Objects();
      if run.listed != Accepted {
        return false, 0;
      }
      var items := run.order(Listed(hub.addOns.store));
      removed := 0;
      for i := 0 to |items|
        invariant hub.cfg == fl.cfg && hub.Objects() == CleanUpTo(fl, run, st, items, i)
        invariant removed == RemovedUpTo(fl, run, items, i)
      {
        var k := items[i];
        if k.name == ADDON && k.ns !in clusters {
          var gone := hub.RemoveManagedCluster(k.ns, run.removal(k.ns));
          if gone {
            removed := removed + 1;
          }
        }
      }
      ok := true;
    }

    // ---- The whole reconcile ----

    method SetStageCondition(t: ConditionType, clusters: seq<ByteString>, failed: seq<string>)
      requires status.Valid()
      modifies status
      ensures status.Valid() && status.start == old(status.start)
      ensures status.log == old(status.log) + StageLog(t, clusters, failed)
    {
      if |clusters| > 0 {
        if |failed| > 0 {
          status.SetCondition(Condition(t, False, JoinClusterNames(failed)));
        } else {
          status.SetCondition(Condition(t, True, Counted(|clusters|)));
        }
      }
    }

    method ImportAndDeliver(clusters: seq<ByteString>, run: Run)
      requires status.Valid()
      modifies status, hub.secrets, hub.works, hub.addOns, hub.configs
      ensures status.Valid() && status.start == old(status.start)
      ensures var fl := Fleet(hub.cfg, hub.image, clusters);
              && hub.Objects() == Delivered(fl, run, old(hub.Objects()))
              && status.log == old(status.log) + DeliveryLog(fl, run, old(hub.Objects()))
    {
      ghost var fl, st, log := Fleet(hub.cfg, hub.image, clusters), hub.Objects(), status.log;
      Regrouped(log, StageLog(ClustersImported, clusters, FailedIn(fl, Importing, run, st)),
                StageLog(ManifestWorkCreated, clusters, FailedIn(fl, DeliveringCA, run, AfterStage(fl, Importing, run, st))));
      var failed := RunStage(Importing, clusters, run);
      SetStageCondition(ClustersImported, clusters, failed);
      failed := RunStage(DeliveringCA, clusters, run);
      SetStageCondition(ManifestWorkCreated, clusters, failed);
    }

    method DeliverAndReport(clusters: seq<ByteString>, run: Run)
      requires status.Valid()
      modifies status, hub.secrets, hub.works, hub.addOns, hub.configs
      ensures status.Valid() && status.start == old(status.start)
      ensures var fl := Fleet(hub.cfg, hub.image, clusters);
              && hub.Objects() == AfterStage(fl, DeliveringCR, run, old(hub.Objects()))
              && status.log == old(status.log) + [CRCondition(fl, run, old(hub.Objects()))]
    {
      var failed, delivered := DeliverArgoCDs(clusters, run);
      status.SetCondition(DeliveryCondition(delivered, failed));
    }

    method CleanUpAndReport(clusters: seq<ByteString>, run: Run)
      requires status.Valid() && Lists(run)
      modifies status, hub.secrets, hub.works, hub.addOns
      ensures status.Valid() && status.start == old(status.start)
      ensures var fl := Fleet(hub.cfg, hub.image, clusters);
              && hub.Objects() == AfterCleanup(fl, run, old(hub.Objects()))
              && status.log == old(status.log) + CleanupLog(run.listed.Accepted?, RemovedBy(fl, run, old(hub.Objects())))
    {
      var listed, removed := CleanupRemovedClusters(clusters, run);
      SetCleanupCondition(listed, removed);
    }

    method DeliverAndCleanUp(clusters: seq<ByteString>, run: Run)
      requires status.Valid() && Lists(run)
      modifies status, hub.secrets, hub.works, hub.addOns, hub.configs
      ensures status.Valid() && status.start == old(status.start)
      ensures var fl := Fleet(hub.cfg, hub.image, clusters);
              && hub.Objects() == AfterCleanup(fl, run, AfterStage(fl, DeliveringCR, run, old(hub.Objects())))
              && status.log == old(status.log) + RemovalLog(fl, run, old(hub.Objects()))
    {
      ghost var fl, st, log := Fleet(hub.cfg, hub.image, clusters), hub.Objects(), status.log;
      ghost var removed := RemovedBy(fl, run, AfterStage(fl, DeliveringCR, run, st));
      Regrouped(log, [CRCondition(fl, run, st)], CleanupLog(run.listed.Accepted?, removed));
      DeliverAndReport(clusters, run);
      CleanUpAndReport(clusters, run);
    }

    method SetCleanupCondition(listed: bool, removed: nat)
      requires status.Valid()
      modifies status
      ensures status.Valid() && status.start == old(status.start)
      ensures status.log == old(status.log) + CleanupLog(listed, removed)
    {
      if !listed {
        status.SetCondition(Condition(RemovedClustersCleanedUp, False, Text));
      } else if removed > 0 {
        status.SetCondition(Condition(RemovedClustersCleanedUp, True, Counted(removed)));
      }
    }

    method CleanUpAndInstall(clusters: seq<ByteString>, run: Run)
      requires status.Valid() && Lists(run)
      modifies status, hub.secrets, hub.works, hub.addOns, hub.configs
      ensures status.Valid() && status.start == old(status.start)
      ensures var fl := Fleet(hub.cfg, hub.image, clusters);
              && hub.Objects() == Installed(fl, run, old(hub.Objects()))
              && status.log == old(status.log) + InstallLog(fl, run, old(hub.Objects()))
    {
      ghost var log := status.log;
      DeliverAndCleanUp(clusters, run);
      ghost var first := status.log[|log|..];
      assert status.log == log + first;
      var failed := RunStage(Installing, clusters, run);
      SetStageCondition(AddonConfigured, clusters, failed);
      Regrouped(log, first, StageLog(AddonConfigured, clusters, failed));
    }

    method ReconcileClusters(clusters: seq<ByteString>, run: Run)
      requires status.Valid() && Lists(run)
      modifies status, hub.secrets, hub.works, hub.addOns, hub.configs
      ensures status.Valid() && status.start == old(status.start)
      ensures var fl := Fleet(hub.cfg, hub.image, clusters);
              && hub.Objects() == Pass(fl, run, old(hub.Objects()))
              && status.log == old(status.log) + FleetLog(fl, run, old(hub.Objects()))
    {
      ghost var fl, st, log := Fleet(hub.cfg, hub.image, clusters), hub.Objects(), status.log;
      ghost var tail := if ValidUser(hub.cfg.user) then InstallLog(fl, run, Delivered(fl, run, st))
                        else [Condition(ArgoCDCRDelivered, False, Text)];
      Regrouped(log, DeliveryLog(fl, run, st), tail);
      ImportAndDeliver(clusters, run);
      var valid := true;
      if hub.cfg.user.Some? {
        valid := ValidateArgoCDCRManifestWork(hub.cfg.user.value);
      }
      if !valid {
        status.SetCondition(Condition(ArgoCDCRDelivered, False, Text));
        return;
      }
      CleanUpAndInstall(clusters, run);
    }

    method Prepare(b: Before, init: Outcome) returns (clusters: Option<seq<ByteString>>)
      modifies this`placement, status, hub`cfg
      ensures status.Valid() && status.start == AddAll(old(status.conditions), Unknowns(), SameType)
      ensures status.log == GateLog(Gates(EndpointOf(old(hub.cfg)), b, known, old(placement)))
      ensures hub.cfg == ConfigThen(old(hub.cfg), b)
      ensures FleetOf(old(hub.cfg), hub.image, b, known, old(placement)) ==
              if clusters.None? then None else Some(Fleet(hub.cfg, hub.image, clusters.value))
      ensures placement == PlacementThen(EndpointOf(old(hub.cfg)), b, known, old(placement))
    {
      ghost var log := GateLog(Gates(EndpointOf(hub.cfg), b, known, placement));
      status.InitializeConditions(init);
      assert status.log + log == log;
      clusters := RunGates(b);
    }

    method Continue(clusters: Option<seq<ByteString>>, ghost fl: Option<Fleet>, run: Run)
      requires status.Valid() && Lists(run)
      requires fl == if clusters.None? then None else Some(Fleet(hub.cfg, hub.image, clusters.value))
      modifies status, hub.secrets, hub.works, hub.addOns, hub.configs
      ensures status.Valid() && status.start == old(status.start)
      ensures hub.Objects() == StoreAfter(fl, run, old(hub.Objects()))
      ensures status.log == RunLog(fl, old(status.log), run, old(hub.Objects()))
    {
      if clusters.None? {
        assert status.log + [] == status.log;
        return;
      }
      ReconcileClusters(clusters.value, run);
    }

    /** init is the outcome of the status update that adds missing conditions. */
    method Reconcile(b: Before, run: Run, init: Outcome) returns (ok: bool)
      requires Lists(run)
      modifies this`placement, status, hub`cfg, hub.secrets, hub.works, hub.addOns, hub.configs
      ensures status.Valid() && status.start == AddAll(old(status.conditions), Unknowns(), SameType)
      ensures hub.cfg == ConfigThen(old(hub.cfg), b)
      ensures var fl := FleetOf(old(hub.cfg), hub.image, b, known, old(placement));
              var spec := EndpointOf(old(hub.cfg));
              && ok == fl.Some?
              && hub.Objects() == StoreAfter(fl, run, old(hub.Objects()))
              && status.log == RunLog(fl, GateLog(Gates(spec, b, known, old(placement))), run, old(hub.Objects()))
              && placement == PlacementThen(spec, b, known, old(placement))
    {
      ghost var fl := FleetOf(hub.cfg, hub.image, b, known, placement);
      var clusters := Prepare(b, init);
      Continue(clusters, fl, run);
      ok := clusters.Some?;
    }
  }

  method ValidateArgoCDCRManifestWork(docs: seq<Option<Json.Json>>) returns (valid: bool)
    ensures valid == ValidUser(Some(docs))
  {
    if |docs| == 0 {
      return false;
    }
    var found := false;
    for i := 0 to |docs|
      invariant forall j | 0 <= j < i :: docs[j].Some?
      invariant found <==> exists j | 0 <= j < i :: docs[j].Some? && EndpointInjection.IsArgoCD(docs[j].value)
    {
      if docs[i].None? {
        return false;
      }
      if EndpointInjection.IsArgoCD(docs[i].value) {
        found := true;
      }
    }
    return found;
  }
}
