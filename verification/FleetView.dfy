/** What the hub keeps for one managed cluster, and what the stages of a reconcile do to it. */
module FleetView {
  import opened Kube
  import ClientCertificate
  import opened Json
  import opened EndpointInjection
  import opened RegistrationUrl
  import opened AppendMissing

  /** PEM data, the connection settings as marshalled into the cluster secret, or any other value. */
  datatype Datum =
    | Raw(s: string)
    | CrtPem(crt: ClientCertificate.CertPem)
    | PrivatePem(key: ClientCertificate.KeyPem)
    | Connection(username: string, password: string, serverName: string, certData: Datum, keyData: Datum, caData: Datum)

  datatype Secret = Secret(labels: map<string, string>, data: map<string, Datum>)

  /** One manifest of a work: a Secret with its namespace and ca.crt ("" if it has none), any other document, or
      something that is absent or does not parse. */
  datatype Manifest = SecretDoc(ns: string, crt: Datum) | Document(doc: Json) | Unreadable

  datatype Work = Work(labels: map<string, string>, annos: map<string, string>, manifests: seq<Manifest>)

  datatype ConfigRef = ConfigRef(group: string, resource: string, name: string, ns: string)

  datatype AddOn = AddOn(labels: map<string, string>, configs: seq<ConfigRef>)

  datatype Variable = Variable(name: string, value: string)

  datatype AddOnConfig = AddOnConfig(labels: map<string, string>, variables: seq<Variable>)

  datatype ClusterView = ClusterView(secret: Option<Secret>, client: Option<Secret>, caWork: Option<Work>,
                                     crWork: Option<Work>, addOn: Option<AddOn>, config: Option<AddOnConfig>)

  /** What all clusters share: the CA secret and the image in the hub's ArgoCD object. */
  datatype Shared = Shared(ca: Option<Secret>, image: Option<string>)

  /** The GitOpsCluster, the controller's settings and the certificate library.  valid and issue stand for the
      checks and the signing of module ClientCertificate under the current CA. */
  datatype Config = Config(ns: string, name: string, hash: string -> string, placement: string, agentNs: string, operatorNs: string,
                           address: string, port: string, user: Option<seq<Option<Json>>>,
                           syncImage: bool, defaultCR: Option<string> -> Json,
                           proxy: Option<ParsedOrigin>, proxyTLSName: string,
                           valid: (Secret, string) -> bool, issue: string -> Option<(Datum, Datum)>)

  const COMPONENT := "app.kubernetes.io/component"
  const INTEGRATION := "argocd-pull-integration"
  const GITOPS := "apps.open-cluster-management.io/gitopscluster"
  const PROPAGATE := "apps.open-cluster-management.io/propagate-argocd-agent-ca"
  const LOCAL := "local-cluster"
  const ADDON_GROUP := "addon.open-cluster-management.io"
  const ADDON_CONFIG := "argocd-agent-addon-config"

  // ---- Faults ----

  datatype Call =
    | LoadCA | ListClient | GetClient | WriteClient | ReadClient | ReadCA | GetSecret | WriteSecret
    | GetWork | WriteWork | ReadImage | GetConfig | WriteConfig | GetAddOn | WriteAddOn
    | DeleteAddOn | GetCAWork | DeleteCAWork | GetCRWork | DeleteCRWork | GetOldSecret | DeleteSecret

  /** The outcomes of one turn of a loop; swap is the iteration order of the map of variables. */
  datatype Faults = Faults(o: Call -> Outcome, swap: bool)

  ghost predicate FaultFree(f: Faults) { forall c :: f.o(c) == Accepted }

  /** A Get on something that is there or not. */
  function Read<T>(x: Option<T>, o: Outcome): Reply<T> {
    if !o.Accepted? then Missing(Failed) else if x.Some? then Found(x.value) else Missing(NotFound)
  }

  /** A Create where nothing was, or an Update of what was there. */
  function Written<T>(before: Option<T>, after: T, o: Outcome): Option<T> { if o.Rejected? then before else Some(after) }

  function Erased<T>(before: Option<T>, o: Outcome): Option<T> { if o.Rejected? then before else None }

  predicate Within(small: map<string, string>, big: map<string, string>) {
    forall k | k in small :: k in big && big[k] == small[k]
  }

  // ---- Import: client certificate and cluster secret ----

  function EnsureClient(cfg: Config, sh: Shared, client: Option<Secret>, c: string, f: Faults): (Option<Secret>, bool) {
    if !f.o(LoadCA).Accepted? || sh.ca.None? || !f.o(ListClient).Accepted? then (client, false)
    else if client.Some? && cfg.valid(client.value, c) then (client, true)
    else
      match cfg.issue(c)
      case None => (client, false)
      case Some(pair) =>
        if !f.o(GetClient).Accepted? then (client, false)
        else (Written(client, Issued(client, pair), f.o(WriteClient)), f.o(WriteClient).Accepted?)
  }

  function Issued(client: Option<Secret>, pair: (Datum, Datum)): Secret {
    Secret(if client.Some? then client.value.labels else map[], map["tls.crt" := pair.0, "tls.key" := pair.1])
  }

  function Connect(cfg: Config, c: ByteString, crt: Datum, key: Datum, ca: Datum): Option<map<string, Datum>>
  {
    match ServerUrl(cfg.proxy, c)
    case None => None
    case Some(url) =>
      Some(map["name" := Raw(c), "server" := Raw(url),
               "config" := Connection(c, c, if cfg.proxy.Some? then cfg.proxyTLSName else "", crt, key, ca)])
  }

  /** The settings for a cluster with this client certificate, if both secrets have what is needed. */
  function ConnectionFrom(cfg: Config, sh: Shared, client: Option<Secret>, c: ByteString): Option<map<string, Datum>>
  {
    if client.Some? && "tls.crt" in client.value.data && "tls.key" in client.value.data
       && sh.ca.Some? && "tls.crt" in sh.ca.value.data
    then Connect(cfg, c, client.value.data["tls.crt"], client.value.data["tls.key"], sh.ca.value.data["tls.crt"])
    else None
  }

  function SecretLabels(cfg: Config, c: string): map<string, string> {
    map["argocd.argoproj.io/secret-type" := "cluster", "apps.open-cluster-management.io/cluster-name" := c,
        "argocd-agent.argoproj-labs.io/agent-name" := c, "placement-name" := cfg.placement]
  }

  /** The client certificate is ensured on the way. */
  function BuildData(cfg: Config, sh: Shared, client: Option<Secret>, c: ByteString, f: Faults)
    : (Option<Secret>, Option<map<string, Datum>>)
  {
    var (client', ensured) := EnsureClient(cfg, sh, client, c, f);
    (client', if ensured && f.o(ReadClient).Accepted? && f.o(ReadCA).Accepted? then ConnectionFrom(cfg, sh, client', c)
              else None)
  }

  function Labels(cfg: Config, before: Option<Secret>, c: string): map<string, string> {
    (if before.Some? then before.value.labels else map[]) + SecretLabels(cfg, c)
  }

  function Import(cfg: Config, sh: Shared, v: ClusterView, c: ByteString, f: Faults): (ClusterView, bool) {
    if !f.o(GetSecret).Accepted? then (v, false)
    else
      var (client, data) := BuildData(cfg, sh, v.client, c, f);
      if data.None? then (v.(client := client), false)
      else (v.(client := client,
               secret := Written(v.secret, Secret(Labels(cfg, v.secret, c), data.value), f.o(WriteSecret))),
            f.o(WriteSecret).Accepted?)
  }

  // ---- The CA work ----

  /** The certificate an existing work delivers; None when its first manifest cannot be read. */
  function DeliveredCA(w: Work): Option<Datum> {
    if w.manifests == [] then None
    else match w.manifests[0]
      case SecretDoc(_, crt) => Some(crt)
      case Document(_) => Some(Raw(""))
      case Unreadable => None
  }

  function SpokeNs(cfg: Config): string { if cfg.agentNs != "" then cfg.agentNs else "argocd" }

  function AfterCAWork(cfg: Config, crt: Datum, work: Option<Work>, f: Faults): (Option<Work>, bool) {
    match Read(work, f.o(GetWork))
    case Missing(NotFound) =>
      (Written(None, Work(map[GITOPS := "true"], map[PROPAGATE := "true"], [SecretDoc(SpokeNs(cfg), crt)]),
               f.o(WriteWork)), f.o(WriteWork).Accepted?)
    case Missing(_) => (work, false)
    case Found(w) =>
      if DeliveredCA(w).Some? && DeliveredCA(w).value != crt
      then (Written(work, Work(w.labels, w.annos[PROPAGATE := "true"], [SecretDoc(SpokeNs(cfg), crt)]),
                    f.o(WriteWork)), f.o(WriteWork).Accepted?)
      else (work, true)
  }

  function DeliverCA(cfg: Config, sh: Shared, v: ClusterView, c: string, f: Faults): (ClusterView, bool) {
    if c == LOCAL then (v, true)
    else if !f.o(ReadCA).Accepted? || sh.ca.None? || "tls.crt" !in sh.ca.value.data then (v, false)
    else var (work, ok) := AfterCAWork(cfg, sh.ca.value.data["tls.crt"], v.caWork, f); (v.(caWork := work), ok)
  }

  // ---- The ArgoCD work ----

  function CRLabels(): map<string, string> {
    map[GITOPS := "true", MANAGED_BY := INTEGRATION, COMPONENT := "argocd-cr"]
  }

  function Injected(cfg: Config, doc: Option<Json>): Manifest {
    if doc.None? then Unreadable else Document(Inject(doc.value, cfg.address, cfg.port))
  }

  /** The user's manifests are acceptable when all of them can be read and one is an ArgoCD. */
  predicate ValidUser(user: Option<seq<Option<Json>>>) {
    user.Some? ==> (forall i | 0 <= i < |user.value| :: user.value[i].Some?)
                   && exists i | 0 <= i < |user.value| :: user.value[i].Some? && IsArgoCD(user.value[i].value)
  }

  /** The user's manifests with the endpoint filled in, or the default one with the hub's image if it can be read. */
  function CRManifests(cfg: Config, sh: Shared, image: Outcome): seq<Manifest> {
    match cfg.user
    case Some(docs) => seq(|docs|, i requires 0 <= i < |docs| => Injected(cfg, docs[i]))
    case None => [Document(cfg.defaultCR(if cfg.syncImage && image.Accepted? then sh.image else None))]
  }

  function AfterCRWork(manifests: seq<Manifest>, work: Option<Work>, f: Faults): (Option<Work>, bool) {
    match Read(work, f.o(GetWork))
    case Missing(NotFound) => (Written(None, Work(CRLabels(), map[], manifests), f.o(WriteWork)), f.o(WriteWork).Accepted?)
    case Missing(_) => (work, false)
    case Found(w) =>
      if w.manifests != manifests || !Within(CRLabels(), w.labels)
      then (Written(work, Work(w.labels + CRLabels(), w.annos, manifests), f.o(WriteWork)), f.o(WriteWork).Accepted?)
      else (work, true)
  }

  function DeliverCR(cfg: Config, sh: Shared, v: ClusterView, c: string, f: Faults): (ClusterView, bool) {
    if c == LOCAL then (v, true)
    else var (work, ok) := AfterCRWork(CRManifests(cfg, sh, f.o(ReadImage)), v.crWork, f); (v.(crWork := work), ok)
  }

  // ---- The add-on and its configuration ----

  /** The variables to be set, in the order in which the map happens to be traversed. */
  function Variables(cfg: Config, swap: bool): seq<Variable> {
    var agent := if cfg.agentNs != "" then [Variable("ARGOCD_NAMESPACE", cfg.agentNs)] else [];
    var operator := if cfg.operatorNs != "" then [Variable("ARGOCD_OPERATOR_NAMESPACE", cfg.operatorNs)] else [];
    if swap then operator + agent else agent + operator
  }

  function SameVariable(a: Variable, b: Variable): bool { a.name == b.name }

  /** A reference matches when group, resource, name and, where one is expected, namespace agree. */
  function SameRef(a: ConfigRef, b: ConfigRef): bool {
    a.group == b.group && a.resource == b.resource && a.name == b.name && (b.ns == "" || a.ns == b.ns)
  }

  function TemplateName(cfg: Config): string { "argocd-agent-addon-" + cfg.ns + "-" + cfg.name }

  function Refs(cfg: Config, c: string): seq<ConfigRef> {
    [ConfigRef(ADDON_GROUP, "addontemplates", TemplateName(cfg), ""),
     ConfigRef(ADDON_GROUP, "addondeploymentconfigs", ADDON_CONFIG, c)]
  }

  function AddOnLabels(): map<string, string> { map[MANAGED_BY := INTEGRATION, COMPONENT := "addon"] }

  function AfterConfig(cfg: Config, config: Option<AddOnConfig>, f: Faults): (Option<AddOnConfig>, bool) {
    var vars := Variables(cfg, f.swap);
    match Read(config, f.o(GetConfig))
    case Missing(NotFound) =>
      (Written(None, AddOnConfig(map[MANAGED_BY := INTEGRATION, COMPONENT := "addon-config"], vars), f.o(WriteConfig)),
       f.o(WriteConfig).Accepted?)
    case Missing(_) => (config, false)
    case Found(existing) =>
      var merged := AddAll(existing.variables, vars, SameVariable);
      if merged == existing.variables then (config, true)
      else (Written(config, existing.(variables := merged), f.o(WriteConfig)), f.o(WriteConfig).Accepted?)
  }

  function AfterAddOn(cfg: Config, addOn: Option<AddOn>, c: string, f: Faults): (Option<AddOn>, bool) {
    match Read(addOn, f.o(GetAddOn))
    case Missing(NotFound) => (Written(None, AddOn(AddOnLabels(), Refs(cfg, c)), f.o(WriteAddOn)), f.o(WriteAddOn).Accepted?)
    case Missing(_) => (addOn, false)
    case Found(existing) =>
      var merged := AddAll(existing.configs, Refs(cfg, c), SameRef);
      if merged == existing.configs then (addOn, true)
      else (Written(addOn, existing.(configs := merged), f.o(WriteAddOn)), f.o(WriteAddOn).Accepted?)
  }

  function EnsureConfig(cfg: Config, v: ClusterView, f: Faults): (ClusterView, bool) {
    var (config, ok) := AfterConfig(cfg, v.config, f); (v.(config := config), ok)
  }

  function EnsureAddOn(cfg: Config, v: ClusterView, c: string, f: Faults): (ClusterView, bool) {
    var (addOn, ok) := AfterAddOn(cfg, v.addOn, c, f); (v.(addOn := addOn), ok)
  }

  function Install(cfg: Config, v: ClusterView, c: string, f: Faults): (ClusterView, bool) {
    var (v', ok) := EnsureConfig(cfg, v, f);
    if ok then EnsureAddOn(cfg, v', c, f) else (v', false)
  }

  // ---- Removal ----

  predicate Labelled(a: AddOn) { MANAGED_BY in a.labels && a.labels[MANAGED_BY] == INTEGRATION }

  /** A cluster that left the placement: the add-on first, and if that worked everything else but the client
      certificate and the add-on's configuration. */
  function RemoveCluster(v: ClusterView, f: Faults): (ClusterView, bool) {
    var v' := v.(addOn := Erased(v.addOn, f.o(DeleteAddOn)));
    if !f.o(DeleteAddOn).Accepted? then (v', false)
    else
      (v'.(caWork := if f.o(GetCAWork).Accepted? then Erased(v.caWork, f.o(DeleteCAWork)) else v.caWork,
           crWork := if f.o(GetCRWork).Accepted? then Erased(v.crWork, f.o(DeleteCRWork)) else v.crWork,
           secret := if f.o(GetOldSecret).Accepted? then Erased(v.secret, f.o(DeleteSecret)) else v.secret), true)
  }

  // ---- The stages ----

  datatype Stage = Importing | DeliveringCA | DeliveringCR | Installing

  function Turn(cfg: Config, stage: Stage, sh: Shared, v: ClusterView, c: ByteString, f: Faults): (ClusterView, bool)
  {
    match stage
    case Importing => Import(cfg, sh, v, c, f)
    case DeliveringCA => DeliverCA(cfg, sh, v, c, f)
    case DeliveringCR => DeliverCR(cfg, sh, v, c, f)
    case Installing => Install(cfg, v, c, f)
  }

  // ---- What a fault-free turn achieves ----

  /** A cluster that can be served: the CA has a certificate, the proxy origin is accepted, and
      a certificate can be issued that passes the next check. */
  ghost predicate Servable(cfg: Config, sh: Shared, c: ByteString) {
    && (cfg.proxy.Some? ==> IsAcceptedOrigin(cfg.proxy.value))
    && sh.ca.Some? && "tls.crt" in sh.ca.value.data
    && cfg.issue(c).Some?
    && (forall before :: cfg.valid(Issued(before, cfg.issue(c).value), c))
    && (forall s :: cfg.valid(s, c) ==> "tls.crt" in s.data && "tls.key" in s.data)
  }

  predicate Done(cfg: Config, stage: Stage, sh: Shared, v: ClusterView, c: ByteString)
  {
    match stage
    case Importing =>
      && v.client.Some? && cfg.valid(v.client.value, c)
      && ConnectionFrom(cfg, sh, v.client, c).Some?
      && v.secret.Some? && v.secret.value.data == ConnectionFrom(cfg, sh, v.client, c).value
      && Within(SecretLabels(cfg, c), v.secret.value.labels)
    case DeliveringCA =>
      c == LOCAL || (v.caWork.Some? && sh.ca.Some? && "tls.crt" in sh.ca.value.data
                     && DeliveredCA(v.caWork.value) == Some(sh.ca.value.data["tls.crt"]))
    case DeliveringCR =>
      c == LOCAL || (v.crWork.Some? && v.crWork.value.manifests == CRManifests(cfg, sh, Outcome.Accepted)
                     && Within(CRLabels(), v.crWork.value.labels))
    case Installing =>
      && v.config.Some? && (forall x | x in Variables(cfg, false) :: Has(v.config.value.variables, x, SameVariable))
      && v.addOn.Some? && (forall r | r in Refs(cfg, c) :: Has(v.addOn.value.configs, r, SameRef))
  }

  /** The one state in which a turn does not help: an existing CA work whose manifest cannot be read is left alone. */
  predicate Repairable(stage: Stage, v: ClusterView, c: string) {
    stage == DeliveringCA && c != LOCAL && v.caWork.Some? ==> DeliveredCA(v.caWork.value).Some?
  }

  lemma ImportDone(cfg: Config, sh: Shared, v: ClusterView, c: ByteString, f: Faults)
    requires Servable(cfg, sh, c) && FaultFree(f)
    ensures var (v', ok) := Import(cfg, sh, v, c, f); ok && Done(cfg, Importing, sh, v', c)
  {
  }

  lemma WorksDone(cfg: Config, stage: Stage, sh: Shared, v: ClusterView, c: ByteString, f: Faults)
    requires Servable(cfg, sh, c) && FaultFree(f) && stage in {DeliveringCA, DeliveringCR}
    ensures var (v', ok) := Turn(cfg, stage, sh, v, c, f); ok && (Done(cfg, stage, sh, v', c) <==> Repairable(stage, v, c))
  {
    assert f.o(ReadImage) == Outcome.Accepted;
  }

  lemma SameMembers(cfg: Config, swap: bool)
    ensures forall x :: x in Variables(cfg, swap) <==> x in Variables(cfg, !swap)
  {
  }

  lemma ConfigDone(cfg: Config, v: ClusterView, f: Faults)
    requires FaultFree(f)
    ensures var (v', ok) := EnsureConfig(cfg, v, f);
            && ok && v' == v.(config := v'.config) && v'.config.Some?
            && forall x | x in Variables(cfg, f.swap) :: Has(v'.config.value.variables, x, SameVariable)
  {
    MergedHasAll(if v.config.Some? then Some(v.config.value.variables) else None, Variables(cfg, f.swap), SameVariable);
  }

  lemma AddOnDone(cfg: Config, v: ClusterView, c: string, f: Faults)
    requires FaultFree(f)
    ensures var (v', ok) := EnsureAddOn(cfg, v, c, f);
            && ok && v' == v.(addOn := v'.addOn) && v'.addOn.Some?
            && forall r | r in Refs(cfg, c) :: Has(v'.addOn.value.configs, r, SameRef)
  {
    MergedHasAll(if v.addOn.Some? then Some(v.addOn.value.configs) else None, Refs(cfg, c), SameRef);
  }

  lemma InstallDone(cfg: Config, sh: Shared, v: ClusterView, c: ByteString, f: Faults)
    requires FaultFree(f)
    ensures var (v', ok) := Install(cfg, v, c, f); ok && Done(cfg, Installing, sh, v', c)
  {
    var vars := Variables(cfg, f.swap);
    ConfigDone(cfg, v, f);
    AddOnDone(cfg, EnsureConfig(cfg, v, f).0, c, f);
    SameMembers(cfg, f.swap);
  }

  // ---- A fault-free turn is not repeated ----

  /** What a stage works on. */
  predicate SamePart(stage: Stage, v: ClusterView, w: ClusterView) {
    match stage
    case Importing => v.client == w.client && v.secret == w.secret
    case DeliveringCA => v.caWork == w.caWork
    case DeliveringCR => v.crWork == w.crWork
    case Installing => v.config == w.config && v.addOn == w.addOn
  }

  /** Any later fault-free turn leaves everything as it is. */
  ghost predicate Settled(cfg: Config, stage: Stage, sh: Shared, v: ClusterView, c: ByteString) {
    forall f | FaultFree(f) :: Turn(cfg, stage, sh, v, c, f) == (v, true)
  }

  /** Stages do not touch each other's part. */
  lemma TurnIsLocal(cfg: Config, stage: Stage, sh: Shared, v: ClusterView, c: ByteString, f: Faults, other: Stage)
    requires other != stage
    ensures SamePart(other, Turn(cfg, stage, sh, v, c, f).0, v)
  {
  }

  lemma SettledByPart(cfg: Config, stage: Stage, sh: Shared, v: ClusterView, w: ClusterView, c: ByteString)
    requires SamePart(stage, v, w) && Settled(cfg, stage, sh, v, c)
    ensures Settled(cfg, stage, sh, w, c)
  {
    forall f | FaultFree(f)
      ensures Turn(cfg, stage, sh, w, c, f) == (w, true)
    {
      assert Turn(cfg, stage, sh, v, c, f) == (v, true);
      SameTurn(cfg, stage, sh, v, w, c, f);
    }
  }

  lemma SameTurn(cfg: Config, stage: Stage, sh: Shared, v: ClusterView, w: ClusterView, c: ByteString, f: Faults)
    requires SamePart(stage, v, w)
    ensures Turn(cfg, stage, sh, v, c, f).1 == Turn(cfg, stage, sh, w, c, f).1
    ensures SamePart(stage, Turn(cfg, stage, sh, v, c, f).0, Turn(cfg, stage, sh, w, c, f).0)
    ensures Turn(cfg, stage, sh, v, c, f).0 == v ==> Turn(cfg, stage, sh, w, c, f).0 == w
  {
  }

  lemma DoneByPart(cfg: Config, stage: Stage, sh: Shared, v: ClusterView, w: ClusterView, c: ByteString)
    requires SamePart(stage, v, w)
    ensures Done(cfg, stage, sh, v, c) == Done(cfg, stage, sh, w, c)
  {
  }

  lemma WithinIdle(small: map<string, string>, big: map<string, string>)
    requires Within(small, big)
    ensures big + small == big
  {
  }

  lemma ImportIsIdle(cfg: Config, sh: Shared, v: ClusterView, c: ByteString, f: Faults)
    requires Done(cfg, Importing, sh, v, c) && FaultFree(f)
    ensures Import(cfg, sh, v, c, f) == (v, true)
  {
    WithinIdle(SecretLabels(cfg, c), v.secret.value.labels);
  }

  lemma WorksAreIdle(cfg: Config, stage: Stage, sh: Shared, v: ClusterView, c: ByteString, f: Faults)
    requires Servable(cfg, sh, c) && FaultFree(f) && stage in {DeliveringCA, DeliveringCR}
    requires Done(cfg, stage, sh, v, c) || !Repairable(stage, v, c)
    ensures Turn(cfg, stage, sh, v, c, f) == (v, true)
  {
    assert f.o(ReadImage) == Outcome.Accepted;
  }

  lemma ConfigIsIdle(cfg: Config, v: ClusterView, f: Faults)
    requires FaultFree(f) && v.config.Some?
    requires forall x | x in Variables(cfg, false) :: Has(v.config.value.variables, x, SameVariable)
    ensures EnsureConfig(cfg, v, f) == (v, true)
  {
    SameMembers(cfg, false);
    AddAllIdle(v.config.value.variables, Variables(cfg, f.swap), SameVariable) by {
      var vars := Variables(cfg, f.swap);
      forall i | 0 <= i < |vars|
        ensures Has(v.config.value.variables, vars[i], SameVariable)
      {
        assert vars[i] in Variables(cfg, f.swap);
      }
    }
  }

  lemma AddOnIsIdle(cfg: Config, v: ClusterView, c: string, f: Faults)
    requires FaultFree(f) && v.addOn.Some?
    requires forall r | r in Refs(cfg, c) :: Has(v.addOn.value.configs, r, SameRef)
    ensures EnsureAddOn(cfg, v, c, f) == (v, true)
  {
    var refs := Refs(cfg, c);
    forall i | 0 <= i < |refs|
      ensures Has(v.addOn.value.configs, refs[i], SameRef)
    {
      assert refs[i] in refs;
    }
    AddAllIdle(v.addOn.value.configs, refs, SameRef);
  }

  lemma DoneIsIdle(cfg: Config, stage: Stage, sh: Shared, v: ClusterView, c: ByteString)
    requires Servable(cfg, sh, c) && (Done(cfg, stage, sh, v, c) || !Repairable(stage, v, c))
    ensures Settled(cfg, stage, sh, v, c)
  {
    forall f | FaultFree(f)
      ensures Turn(cfg, stage, sh, v, c, f) == (v, true)
    {
      match stage {
        case Importing => ImportIsIdle(cfg, sh, v, c, f);
        case DeliveringCA => WorksAreIdle(cfg, stage, sh, v, c, f);
        case DeliveringCR => WorksAreIdle(cfg, stage, sh, v, c, f);
        case Installing =>
          ConfigIsIdle(cfg, v, f);
          AddOnIsIdle(cfg, v, c, f);
      }
    }
  }

  /** A fault-free turn does its stage's work for the cluster and need not be repeated. */
  lemma TurnSettles(cfg: Config, stage: Stage, sh: Shared, v: ClusterView, c: ByteString, f: Faults)
    requires Servable(cfg, sh, c) && FaultFree(f)
    ensures var v' := Turn(cfg, stage, sh, v, c, f).0;
            && Turn(cfg, stage, sh, v, c, f).1 && Settled(cfg, stage, sh, v', c)
            && (Done(cfg, stage, sh, v', c) <==> Repairable(stage, v, c))
            && (Repairable(stage, v', c) <==> Repairable(stage, v, c))
  {
    match stage {
      case Importing => ImportDone(cfg, sh, v, c, f);
      case DeliveringCA => WorksDone(cfg, stage, sh, v, c, f);
      case DeliveringCR => WorksDone(cfg, stage, sh, v, c, f);
      case Installing => InstallDone(cfg, sh, v, c, f);
    }
    var v' := Turn(cfg, stage, sh, v, c, f).0;
    if !Done(cfg, stage, sh, v', c) {
      WorksAreIdle(cfg, stage, sh, v, c, f);
    }
    DoneIsIdle(cfg, stage, sh, v', c);
  }

  // ---- What belongs to others is kept ----

  ghost predicate SameOutside(a: map<string, string>, b: map<string, string>, ours: set<string>) {
    forall k | k !in ours :: (k in a <==> k in b) && (k in a ==> a[k] == b[k])
  }

  ghost predicate SecretKept(cfg: Config, c: string, a: Option<Secret>, b: Option<Secret>) {
    a.Some? ==> b.Some? && SameOutside(a.value.labels, b.value.labels, SecretLabels(cfg, c).Keys)
  }

  ghost predicate WorkKept(a: Option<Work>, b: Option<Work>, labels: set<string>, annos: set<string>) {
    a.Some? ==> b.Some? && SameOutside(a.value.labels, b.value.labels, labels)
                && SameOutside(a.value.annos, b.value.annos, annos)
  }

  /** Other labels and annotations, and all entries of lists that were there, in their place. */
  ghost predicate ForeignKept(cfg: Config, c: string, v: ClusterView, w: ClusterView) {
    && SecretKept(cfg, c, v.secret, w.secret)
    && (v.client.Some? ==> w.client.Some? && w.client.value.labels == v.client.value.labels)
    && WorkKept(v.caWork, w.caWork, {}, {PROPAGATE})
    && WorkKept(v.crWork, w.crWork, CRLabels().Keys, {})
    && AddOnKept(v.addOn, w.addOn) && ConfigKept(v.config, w.config)
  }

  lemma Merged(a: map<string, string>, ours: map<string, string>)
    ensures SameOutside(a, a + ours, ours.Keys)
  {
  }

  lemma AddAllPrefix<T>(s: seq<T>, required: seq<T>, same: (T, T) -> bool)
    ensures s <= AddAll(s, required, same)
    decreases |required|
  {
    if required != [] {
      AddAllPrefix(Add(s, required[0], same), required[1..], same);
    }
  }

  lemma SameKept(cfg: Config, c: string, v: ClusterView)
    ensures ForeignKept(cfg, c, v, v)
  {
  }

  lemma SecretIsKept(cfg: Config, before: Option<Secret>, c: string, data: map<string, Datum>, o: Outcome)
    ensures SecretKept(cfg, c, before, Written(before, Secret(Labels(cfg, before, c), data), o))
  {
    if before.Some? {
      Merged(before.value.labels, SecretLabels(cfg, c));
    }
  }

  lemma CAWorkIsKept(cfg: Config, crt: Datum, work: Option<Work>, f: Faults)
    ensures WorkKept(work, AfterCAWork(cfg, crt, work, f).0, {}, {PROPAGATE})
  {
  }

  lemma CRWorkIsKept(manifests: seq<Manifest>, work: Option<Work>, f: Faults)
    ensures WorkKept(work, AfterCRWork(manifests, work, f).0, CRLabels().Keys, {})
  {
    if work.Some? {
      Merged(work.value.labels, CRLabels());
    }
  }

  ghost predicate ConfigKept(a: Option<AddOnConfig>, b: Option<AddOnConfig>) {
    a.Some? ==> b.Some? && b.value.labels == a.value.labels && a.value.variables <= b.value.variables
  }

  ghost predicate AddOnKept(a: Option<AddOn>, b: Option<AddOn>) {
    a.Some? ==> b.Some? && b.value.labels == a.value.labels && a.value.configs <= b.value.configs
  }

  lemma ConfigIsKept(cfg: Config, config: Option<AddOnConfig>, f: Faults)
    ensures ConfigKept(config, AfterConfig(cfg, config, f).0)
  {
    if config.Some? {
      AddAllPrefix(config.value.variables, Variables(cfg, f.swap), SameVariable);
    }
  }

  lemma AddOnIsKept(cfg: Config, addOn: Option<AddOn>, c: string, f: Faults)
    ensures AddOnKept(addOn, AfterAddOn(cfg, addOn, c, f).0)
  {
    if addOn.Some? {
      AddAllPrefix(addOn.value.configs, Refs(cfg, c), SameRef);
    }
  }

  lemma ImportKeeps(cfg: Config, sh: Shared, v: ClusterView, c: ByteString, f: Faults)
    ensures ForeignKept(cfg, c, v, Import(cfg, sh, v, c, f).0)
  {
    SameKept(cfg, c, v);
    var (_, data) := BuildData(cfg, sh, v.client, c, f);
    if data.Some? {
      SecretIsKept(cfg, v.secret, c, data.value, f.o(WriteSecret));
    }
  }

  lemma WorksKeep(cfg: Config, stage: Stage, sh: Shared, v: ClusterView, c: ByteString, f: Faults)
    requires stage in {DeliveringCA, DeliveringCR}
    ensures ForeignKept(cfg, c, v, Turn(cfg, stage, sh, v, c, f).0)
  {
    SameKept(cfg, c, v);
    if stage == DeliveringCR {
      CRWorkIsKept(CRManifests(cfg, sh, f.o(ReadImage)), v.crWork, f);
    } else if sh.ca.Some? && "tls.crt" in sh.ca.value.data {
      CAWorkIsKept(cfg, sh.ca.value.data["tls.crt"], v.caWork, f);
    }
  }

  /** No turn of any stage, whatever fails, removes an object or touches what others have put on one. */
  lemma TurnKeepsForeign(cfg: Config, stage: Stage, sh: Shared, v: ClusterView, c: ByteString, f: Faults)
    ensures ForeignKept(cfg, c, v, Turn(cfg, stage, sh, v, c, f).0)
  {
    match stage {
      case Importing => ImportKeeps(cfg, sh, v, c, f);
      case DeliveringCA => WorksKeep(cfg, stage, sh, v, c, f);
      case DeliveringCR => WorksKeep(cfg, stage, sh, v, c, f);
      case Installing =>
        SameKept(cfg, c, v);
        ConfigIsKept(cfg, v.config, f);
        AddOnIsKept(cfg, v.addOn, c, f);
    }
  }
}
