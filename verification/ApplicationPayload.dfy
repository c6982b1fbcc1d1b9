/** What a hub Application becomes inside a ManifestWork. */
module ApplicationPayload {
  import opened Kube
  import opened Json

  datatype OwnerRef = OwnerRef(apiVersion: string, kind: string, name: string)

  /** body is the object without its metadata: spec, operation, status. */
  datatype Application = Application(ns: string, name: string, uid: string, labels: map<string, string>,
                                     annos: map<string, string>, finalizers: seq<string>, owners: seq<OwnerRef>,
                                     deleting: bool, body: Json)

  datatype Payload = Payload(ns: string, name: string, finalizers: seq<string>, labels: map<string, string>,
                             annos: map<string, string>, body: Json)

  datatype FeedbackRule = FeedbackRule(name: string, path: seq<string>)

  datatype WorkSpec = WorkSpec(payload: Payload, targetNs: string, targetName: string, rules: seq<FeedbackRule>)

  datatype Generated = Generated(labels: map<string, string>, annos: map<string, string>, spec: WorkSpec)

  const PULL := "apps.open-cluster-management.io/pull-to-ocm-managed-cluster"
  const MANAGED_CLUSTER := "apps.open-cluster-management.io/ocm-managed-cluster"
  const APP_NAMESPACE := "apps.open-cluster-management.io/ocm-managed-cluster-app-namespace"
  const DESTINATION_NAME := "apps.open-cluster-management.io/destination-name"
  const DESTINATION_SERVER := "apps.open-cluster-management.io/destination-server"
  const APP_SET := "apps.open-cluster-management.io/hosting-applicationset"
  const SKIP_RECONCILE := "argocd.argoproj.io/skip-reconcile"
  const HUB_NAMESPACE := "apps.open-cluster-management.io/hub-application-namespace"
  const HUB_NAME := "apps.open-cluster-management.io/hub-application-name"
  const LABEL_APP_SET := "apps.open-cluster-management.io/application-set"
  const IN_CLUSTER := "https://kubernetes.default.svc"

  // ---- Who qualifies ----

  /** strconv.ParseBool yields true. */
  predicate ParsesTrue(s: string) { s in ["1", "t", "T", "true", "TRUE", "True"] }

  predicate ValidPullLabel(labels: map<string, string>) { PULL in labels && ParsesTrue(labels[PULL]) }

  predicate ValidPullAnnotation(annos: map<string, string>) { Entry(annos, MANAGED_CLUSTER) != "" }

  predicate ValidHubAnnotations(annos: map<string, string>) {
    Entry(annos, HUB_NAMESPACE) != "" && Entry(annos, HUB_NAME) != ""
  }

  // ---- The payload ----

  function AppNamespace(ns: string, annos: map<string, string>): string {
    if Entry(annos, APP_NAMESPACE) != "" then annos[APP_NAMESPACE] else if ns != "" then ns else "argocd"
  }

  /** The application's name and the first five characters of its UID; shorter UIDs make the program panic. */
  function WorkName(name: string, uid: string): string
    requires |uid| >= 5
  {
    name + "-" + uid[..5]
  }

  /** Case folding of the characters that can equal an ASCII letter: the Kelvin sign and the long s fold too. */
  function Fold(c: char): char {
    if 'A' <= c <= 'Z' then c - 'A' + 'a'
    else if c == '\U{17F}' then 's'
    else if c == '\U{212A}' then 'k'
    else c
  }

  predicate EqualFold(a: string, b: string) { |a| == |b| && forall i | 0 <= i < |a| :: Fold(a[i]) == Fold(b[i]) }

  predicate IsAppSet(o: OwnerRef) {
    EqualFold(o.apiVersion, "argoproj.io/v1alpha1") && EqualFold(o.kind, "ApplicationSet")
  }

  function AppSetOwner(owners: seq<OwnerRef>): string {
    if owners == [] then "" else if IsAppSet(owners[0]) then owners[0].name else AppSetOwner(owners[1..])
  }

  /** Destination name and server as the annotations demand. */
  function DestinationName(annos: map<string, string>): string { Entry(annos, DESTINATION_NAME) }

  function DestinationServer(annos: map<string, string>): string {
    if DESTINATION_NAME in annos || DESTINATION_SERVER in annos then Entry(annos, DESTINATION_SERVER) else IN_CLUSTER
  }

  function Redirect(destination: Json, annos: map<string, string>): Json
    requires IsObject(destination)
  {
    Put(Put(destination, "name", Text(DestinationName(annos))), "server", Text(DestinationServer(annos)))
  }

  function PayloadSpec(spec: Json, annos: map<string, string>): Json
    requires IsObject(spec)
  {
    var d := Get(spec, "destination");
    if d.Some? && IsObject(d.value) then Put(spec, "destination", Redirect(d.value, annos)) else spec
  }

  function PayloadBody(body: Json, annos: map<string, string>): (r: Json)
    ensures IsObject(r)
  {
    var operation, spec := Get(body, "operation"), Get(body, "spec");
    var b0 := if operation.Some? && IsObject(operation.value) then Put(Empty(), "operation", operation.value) else Empty();
    if spec.Some? && IsObject(spec.value) then Put(b0, "spec", PayloadSpec(spec.value, annos)) else b0
  }

  function HubOnly(): set<string> {
    {MANAGED_CLUSTER, APP_NAMESPACE, SKIP_RECONCILE, DESTINATION_NAME, DESTINATION_SERVER}
  }

  function PayloadLabels(app: Application): map<string, string> {
    var kept := app.labels - {PULL};
    if AppSetOwner(app.owners) != "" then kept[LABEL_APP_SET := "true"] else kept
  }

  function PayloadAnnos(app: Application): map<string, string> {
    var kept := app.annos - HubOnly();
    if AppSetOwner(app.owners) != "" then kept[APP_SET := app.ns + "/" + AppSetOwner(app.owners)] else kept
  }

  function PayloadOf(app: Application): Payload {
    Payload(AppNamespace(app.ns, app.annos), app.name, app.finalizers, PayloadLabels(app), PayloadAnnos(app),
            PayloadBody(app.body, app.annos))
  }

  const HEALTH: seq<string> := ["status", "health", "status"]
  const SYNC: seq<string> := ["status", "sync", "status"]
  const STARTED_AT: seq<string> := ["status", "operationState", "startedAt"]
  const PHASE: seq<string> := ["status", "operationState", "phase"]
  const REVISION: seq<string> := ["status", "sync", "revision"]

  function Rules(): seq<FeedbackRule> {
    [FeedbackRule("healthStatus", HEALTH), FeedbackRule("syncStatus", SYNC),
     FeedbackRule("operationStateStartedAt", STARTED_AT), FeedbackRule("operationStatePhase", PHASE),
     FeedbackRule("syncRevision", REVISION)]
  }

  function GenerateWork(app: Application): Generated {
    var owner := AppSetOwner(app.owners);
    var annos := map[HUB_NAMESPACE := app.ns, HUB_NAME := app.name];
    var p := PayloadOf(app);
    Generated(if owner != "" then map[PULL := "true", LABEL_APP_SET := "true"] else map[PULL := "true"],
              if owner != "" then annos[APP_SET := app.ns + "/" + owner] else annos,
              WorkSpec(p, p.ns, p.name, Rules()))
  }

  // ---- Properties ----

  lemma HubOnlyNames()
    ensures MANAGED_CLUSTER in HubOnly() && APP_SET !in HubOnly() && MANAGED_CLUSTER != APP_SET
    ensures PULL != LABEL_APP_SET && HUB_NAMESPACE != HUB_NAME && APP_SET !in {HUB_NAMESPACE, HUB_NAME}
  {
    assert |APP_SET| == 54 && |MANAGED_CLUSTER| == 51 && |APP_NAMESPACE| == 65 && |SKIP_RECONCILE| == 33
           && |DESTINATION_NAME| == 48 && |DESTINATION_SERVER| == 50;
    assert |PULL| == 59 && |LABEL_APP_SET| == 47 && |HUB_NAMESPACE| == 57 && |HUB_NAME| == 52;
  }

  /** No payload can itself qualify for being pulled, whatever the hub Application looks like. */
  lemma PayloadNeverPulled(app: Application)
    ensures !ValidPullLabel(PayloadOf(app).labels) && !ValidPullAnnotation(PayloadOf(app).annos)
  {
    HubOnlyNames();
  }

  /** A work carries the selector label and names the Application it was made from. */
  lemma WorkNamesItsApplication(app: Application)
    requires app.ns != "" && app.name != ""
    ensures var w := GenerateWork(app);
            && Entry(w.labels, PULL) == "true" && ValidPullLabel(w.labels) && ValidHubAnnotations(w.annos)
            && w.annos[HUB_NAMESPACE] == app.ns && w.annos[HUB_NAME] == app.name
  {
    HubOnlyNames();
    assert "true" in ["1", "t", "T", "true", "TRUE", "True"] by {
      assert ["1", "t", "T", "true", "TRUE", "True"][3] == "true";
    }
  }

  /** The work depends on spec and operation only, not on the status the other controller writes. */
  lemma WorkIgnoresStatus(app: Application, body: Json)
    requires Get(body, "spec") == Get(app.body, "spec") && Get(body, "operation") == Get(app.body, "operation")
    ensures GenerateWork(app.(body := body)) == GenerateWork(app)
  {
  }

  /** The payload's spec is the hub's at every path except destination.name and destination.server... */
  lemma SpecElsewhereIsTheHubs(spec: Json, annos: map<string, string>, p: Path)
    requires IsObject(spec)
    requires !([Field("destination"), Field("name")] <= p) && !([Field("destination"), Field("server")] <= p)
    ensures ShapeAt(PayloadSpec(spec, annos), p) == ShapeAt(spec, p)
  {
    var d := Get(spec, "destination");
    if d.Some? && IsObject(d.value) && |p| >= 2 && p[0] == Field("destination") {
      assert p == [p[0], p[1]] + p[2..];
      assert p[1] != Field("name") && p[1] != Field("server");
      var q := p[1..];
      assert At(PayloadSpec(spec, annos), p) == At(Redirect(d.value, annos), q) == At(d.value, q);
    } else if d.Some? && IsObject(d.value) && |p| == 1 && p[0] == Field("destination") {
      assert p[1..] == [];
      assert At(spec, p) == Some(d.value) && At(PayloadSpec(spec, annos), p) == Some(Redirect(d.value, annos));
    }
  }

  /** ... and those two follow the annotations: the given values when there is either annotation, otherwise the
      cluster the Application lands on. */
  lemma DestinationFollowsAnnotations(spec: Json, annos: map<string, string>)
    requires IsObject(spec) && Get(spec, "destination").Some? && IsObject(Get(spec, "destination").value)
    ensures var d := Get(PayloadSpec(spec, annos), "destination").value;
            && GetText(d, "name") == Entry(annos, DESTINATION_NAME)
            && GetText(d, "server") == (if DESTINATION_NAME !in annos && DESTINATION_SERVER !in annos
                                        then "https://kubernetes.default.svc" else Entry(annos, DESTINATION_SERVER))
  {
  }

  function ObjectUnder(j: Json, name: string): Option<Json> {
    if Get(j, name).Some? && IsObject(Get(j, name).value) then Get(j, name) else None
  }

  /** What the payload in a work takes over from the hub Application: name and finalizers; the namespace, unless an
      annotation names another; operation and spec if they are objects, the spec with its destination redirected and
      nothing else changed; and nothing else of the body. */
  lemma PayloadCarries(app: Application)
    ensures var g := GenerateWork(app); var p := g.spec.payload;
            var wanted := Entry(app.annos, "apps.open-cluster-management.io/ocm-managed-cluster-app-namespace");
            && g.spec.targetName == p.name == app.name && g.spec.targetNs == p.ns && p.finalizers == app.finalizers
            && p.ns == (if wanted != "" then wanted else if app.ns != "" then app.ns else "argocd")
            && IsObject(p.body) && (forall e | e in p.body.kids :: e == Field("operation") || e == Field("spec"))
            && Get(p.body, "operation") == ObjectUnder(app.body, "operation")
            && Get(p.body, "spec").Some? == ObjectUnder(app.body, "spec").Some?
  {
    assert |"operation"| == 9 && |"spec"| == 4;
  }

  /** Labels and annotations are the hub Application's but for those that are the hub's own business, and those that tell
      of an owning ApplicationSet. */
  lemma PayloadMetaIs(app: Application, k: string)
    ensures var p := GenerateWork(app).spec.payload;
            && (k != "apps.open-cluster-management.io/pull-to-ocm-managed-cluster" && k != LABEL_APP_SET ==>
                  (k in p.labels <==> k in app.labels) && (k in p.labels ==> p.labels[k] == app.labels[k]))
            && (k !in HubOnly() && k != APP_SET ==>
                  (k in p.annos <==> k in app.annos) && (k in p.annos ==> p.annos[k] == app.annos[k]))
            && (k in HubOnly() ==> k !in p.annos)
            && (AppSetOwner(app.owners) != "" ==>
                  Entry(p.labels, LABEL_APP_SET) == "true"
                  && Entry(p.annos, APP_SET) == app.ns + "/" + AppSetOwner(app.owners))
  {
    HubOnlyNames();
  }

  lemma PayloadSpecIs(app: Application)
    requires ObjectUnder(app.body, "spec").Some?
    ensures Get(GenerateWork(app).spec.payload.body, "spec") ==
            Some(PayloadSpec(ObjectUnder(app.body, "spec").value, app.annos))
  {
  }

  /** At every path of the spec but the two of the destination. */
  lemma PayloadSpecElsewhere(app: Application, p: Path)
    requires ObjectUnder(app.body, "spec").Some?
    requires !([Field("destination"), Field("name")] <= p) && !([Field("destination"), Field("server")] <= p)
    ensures var spec := Get(GenerateWork(app).spec.payload.body, "spec");
            spec.Some? && ShapeAt(spec.value, p) == ShapeAt(Get(app.body, "spec").value, p)
  {
    PayloadSpecIs(app);
    SpecElsewhereIsTheHubs(Get(app.body, "spec").value, app.annos, p);
  }

  /** And at those two, when there is a destination. */
  lemma PayloadDestination(app: Application)
    requires ObjectUnder(app.body, "spec").Some? && ObjectUnder(Get(app.body, "spec").value, "destination").Some?
    ensures var spec := Get(GenerateWork(app).spec.payload.body, "spec");
            && spec.Some? && ObjectUnder(spec.value, "destination").Some?
            && var d := Get(spec.value, "destination").value;
               var asked := DESTINATION_NAME in app.annos || DESTINATION_SERVER in app.annos;
               && Get(d, "name") == Some(Text(Entry(app.annos, DESTINATION_NAME)))
               && Get(d, "server") ==
                  Some(Text(if asked then Entry(app.annos, DESTINATION_SERVER) else "https://kubernetes.default.svc"))
  {
    PayloadSpecIs(app);
    assert |"name"| == 4 && |"server"| == 6;
  }

  // ---- The imperative code ----

  /** The spec on the heap: copied, then redirected in place.  Nothing is modified, so no node of the hub's spec
      changes, and every node of the result is new. */
  method PreparePayloadSpec(spec: Node, annos: map<string, string>, ghost d: nat, ghost s: set<Node>)
    returns (newSpec: Node, ghost t: set<Node>)
    requires IsTree(Ref(spec), d, s) && !spec.isArray
    ensures fresh(t) && IsTree(Ref(newSpec), d, t)
    ensures View(Ref(newSpec), d, t) == PayloadSpec(View(Ref(spec), d, s), annos)
  {
    newSpec, t := CopyNode(spec, d - 1, s);
    assert View(Ref(newSpec), d, t) == View(Ref(spec), d, s);
    RedirectDestination(newSpec, annos, d, t);
  }

  /** An object under that name. */
  predicate HoldsObject(n: Node, name: string)
    reads n
  {
    Field(name) in n.kids && n.kids[Field(name)].Ref? && !n.kids[Field(name)].node.isArray
  }

  /** Spec and operation of the payload.  The spec is made of new nodes only; the operation is the hub Application's own
      node, not a copy.  Nothing is modified. */
  method PreparePayloadBody(app: Node, annos: map<string, string>, ghost d: nat, ghost s: set<Node>)
    returns (body: map<Elem, Value>, ghost t: set<Node>)
    requires d > 0 && IsTree(Ref(app), d, s)
    ensures fresh(t) && body.Keys <= {Field("spec"), Field("operation")}
    ensures Field("operation") in body <==> HoldsObject(app, "operation")
    ensures HoldsObject(app, "operation") ==> body[Field("operation")] == app.kids[Field("operation")]
    ensures Field("spec") in body <==> HoldsObject(app, "spec")
    ensures HoldsObject(app, "spec") ==>
              var k := Field("spec");
              && IsTree(body[k], d - 1, t)
              && View(body[k], d - 1, t) == PayloadSpec(View(app.kids[k], d - 1, app.parts[k]), annos)
  {
    body, t := map[], {};
    if Field("operation") in app.kids && app.kids[Field("operation")].Ref? && !app.kids[Field("operation")].node.isArray {
      body := body[Field("operation") := app.kids[Field("operation")]];
    }
    if Field("spec") in app.kids && app.kids[Field("spec")].Ref? && !app.kids[Field("spec")].node.isArray {
      var newSpec;
      newSpec, t := PreparePayloadSpec(app.kids[Field("spec")].node, annos, d - 1, app.parts[Field("spec")]);
      body := body[Field("spec") := Ref(newSpec)];
    }
  }

  method RedirectDestination(root: Node, annos: map<string, string>, ghost d: nat, ghost t: set<Node>)
    requires IsTree(Ref(root), d, t) && !root.isArray
    modifies t
    ensures IsTree(Ref(root), d, t)
    ensures View(Ref(root), d, t) == PayloadSpec(old(View(Ref(root), d, t)), annos)
  {
    var at := Field("destination");
    if at !in root.kids || root.kids[at].Plain? || root.kids[at].node.isArray {
      return;
    }
    var destination := root.kids[at].node;
    ghost var hub := View(Ref(root), d, t);
    ghost var below := Views(destination, d - 2, root.parts[at]);
    ViewOfNode(root, d - 1, t);
    ViewOfNode(destination, d - 2, root.parts[at]);
    assert Get(hub, "destination") == Some(Tree(false, below));
    var newName, newServer := "", "";
    if DESTINATION_NAME in annos || DESTINATION_SERVER in annos {
      newName := if DESTINATION_NAME in annos then annos[DESTINATION_NAME] else "";
      newServer := if DESTINATION_SERVER in annos then annos[DESTINATION_SERVER] else "";
    } else {
      newServer := IN_CLUSTER;
    }
    SetUnder(root, at, destination, Field("name"), newName, Field("server"), newServer, d, t);
    assert Redirect(Tree(false, below), annos) ==
           Tree(false, below[Field("name") := Text(newName)][Field("server") := Text(newServer)]);
  }

  /** A node is as its children look. */
  lemma ViewFromKids(root: Node, d: nat, t: set<Node>, views: map<Elem, Json>)
    requires root in t && root.parts.Keys == root.kids.Keys == views.Keys
    requires forall k | k in root.kids ::
               root.parts[k] <= t - {root} && IsTree(root.kids[k], d, root.parts[k])
               && View(root.kids[k], d, root.parts[k]) == views[k]
    requires forall k, l | k in root.kids && l in root.kids && k != l :: root.parts[k] !! root.parts[l]
    ensures IsTree(Ref(root), d + 1, t) && View(Ref(root), d + 1, t) == Tree(root.isArray, views)
  {
    ViewOfNode(root, d, t);
    assert Views(root, d, t) == views;
  }

  /** Two leaves of the object at one child of root are overwritten; the rest of root's tree stays as it is. */
  method SetUnder(root: Node, at: Elem, n: Node, a: Elem, x: string, b: Elem, y: string, ghost d: nat,
                  ghost t: set<Node>)
    requires IsTree(Ref(root), d, t) && at in root.kids && root.kids[at] == Ref(n) && a != b
    requires d >= 2 && IsTree(Ref(n), d - 1, root.parts[at])
    modifies n
    ensures IsTree(Ref(root), d, t)
    ensures View(Ref(root), d, t) == Tree(root.isArray, old(Views(root, d - 1, t)[
              at := Tree(n.isArray, Views(n, d - 2, root.parts[at])[a := Text(x)][b := Text(y)])]))
  {
    ghost var before := Views(root, d - 1, t);
    SetBelow(root, at, n, a, x, b, y, d, t);
    ViewOfNode(n, d - 2, root.parts[at]);
    ViewFromKids(root, d - 1, t, before[at := View(Ref(n), d - 1, root.parts[at])]);
  }

  /** The other children of root do not see it. */
  method SetBelow(root: Node, at: Elem, n: Node, a: Elem, x: string, b: Elem, y: string, ghost d: nat,
                  ghost t: set<Node>)
    requires IsTree(Ref(root), d, t) && at in root.kids && root.kids[at] == Ref(n) && a != b
    requires d >= 2 && IsTree(Ref(n), d - 1, root.parts[at])
    modifies n
    ensures root.kids == old(root.kids) && root.parts == old(root.parts) && IsTree(Ref(n), d - 1, root.parts[at])
    ensures Views(n, d - 2, root.parts[at]) == old(Views(n, d - 2, root.parts[at]))[a := Text(x)][b := Text(y)]
    ensures forall k | k in root.kids && k != at ::
              && IsTree(root.kids[k], d - 1, root.parts[k])
              && View(root.kids[k], d - 1, root.parts[k]) == old(View(root.kids[k], d - 1, root.parts[k]))
  {
    SetTwo(n, a, x, b, y, d - 2, root.parts[at]);
    forall k | k in root.kids && k != at
      ensures IsTree(root.kids[k], d - 1, root.parts[k])
      ensures View(root.kids[k], d - 1, root.parts[k]) == old(View(root.kids[k], d - 1, root.parts[k]))
    {
      assert root.parts[k] !! root.parts[at];
    }
  }

  method SetTwo(n: Node, a: Elem, x: string, b: Elem, y: string, ghost d: nat, ghost s: set<Node>)
    requires IsTree(Ref(n), d + 1, s) && a != b
    modifies n
    ensures IsTree(Ref(n), d + 1, s)
    ensures Views(n, d, s) == old(Views(n, d, s))[a := Text(x)][b := Text(y)]
    ensures unchanged(s - {n})
  {
    SetLeaf(n, a, x, d, s);
    SetLeaf(n, b, y, d, s);
  }

  method SetLeaf(n: Node, a: Elem, x: string, ghost d: nat, ghost s: set<Node>)
    requires IsTree(Ref(n), d + 1, s)
    modifies n
    ensures IsTree(Ref(n), d + 1, s)
    ensures Views(n, d, s) == old(Views(n, d, s))[a := Text(x)]
    ensures unchanged(s - {n})
  {
    n.kids := n.kids[a := Plain(Str(x))];
    n.parts := n.parts[a := {}];
  }

  /** The loops that copy labels and annotations. */
  method Without(m: map<string, string>, dropped: set<string>) returns (r: map<string, string>)
    ensures r == m - dropped
  {
    r := map[];
    var todo := m.Keys;
    while todo != {}
      invariant todo <= m.Keys
      invariant r.Keys == m.Keys - todo - dropped
      invariant forall k | k in r :: r[k] == m[k]
      decreases |todo|
    {
      var k :| k in todo;
      if k !in dropped {
        r := r[k := m[k]];
      }
      todo := todo - {k};
    }
  }

  method GetAppSetOwnerName(owners: seq<OwnerRef>) returns (name: string)
    ensures name == AppSetOwner(owners)
  {
    for i := 0 to |owners|
      invariant AppSetOwner(owners) == AppSetOwner(owners[i..])
    {
      if IsAppSet(owners[i]) {
        return owners[i].name;
      }
    }
    return "";
  }

  /** Labels and annotations of the payload. */
  method PreparePayloadMeta(app: Application) returns (labels: map<string, string>, annos: map<string, string>)
    ensures labels == PayloadLabels(app) && annos == PayloadAnnos(app)
  {
    labels := Without(app.labels, {PULL});
    annos := Without(app.annos, HubOnly());
    var owner := GetAppSetOwnerName(app.owners);
    if owner != "" {
      labels := labels[LABEL_APP_SET := "true"];
      annos := annos[APP_SET := app.ns + "/" + owner];
    }
  }
}
