/** What the objects of a placed cluster hold, told without the programs that write them. */
module FleetContent {
  import opened Kube
  import opened Json
  import opened EndpointInjection
  import opened RegistrationUrl
  import opened AppendMissing
  import opened FleetView

  // ---- The cluster secret ----

  /** Behind a proxy the URL starts with its origin and carries the cluster's name; without one it is made of the name. */
  predicate ServerFor(cfg: Config, c: ByteString, url: string) {
    match cfg.proxy
    case None => url == "https://" + c + "-control-plane"
    case Some(o) => o.scheme == "https" && o.scheme + "://" + o.authority + o.path + "?" <= url && AgentName(url) == Some(c)
  }

  /** Argo CD reaches the cluster under its name, with the cluster's client certificate and key, trusting the CA. */
  predicate Connected(cfg: Config, sh: Shared, v: ClusterView, c: ByteString) {
    && v.client.Some? && cfg.valid(v.client.value, c) && "tls.crt" in v.client.value.data && "tls.key" in v.client.value.data
    && sh.ca.Some? && "tls.crt" in sh.ca.value.data && v.secret.Some?
    && var data, labels := v.secret.value.data, v.secret.value.labels;
       && data.Keys == {"name", "server", "config"}
       && data["name"] == Raw(c) && data["server"].Raw? && ServerFor(cfg, c, data["server"].s)
       && data["config"].Connection?
       && data["config"].username == c && data["config"].password == c
       && data["config"].certData == v.client.value.data["tls.crt"]
       && data["config"].keyData == v.client.value.data["tls.key"]
       && data["config"].caData == sh.ca.value.data["tls.crt"]
       && data["config"].serverName == (if cfg.proxy.Some? then cfg.proxyTLSName else "")
       && Entry(labels, "argocd.argoproj.io/secret-type") == "cluster"
       && Entry(labels, "apps.open-cluster-management.io/cluster-name") == c
       && Entry(labels, "argocd-agent.argoproj-labs.io/agent-name") == c
       && Entry(labels, "placement-name") == cfg.placement
  }

  lemma UrlIsServer(cfg: Config, c: ByteString)
    requires ServerUrl(cfg.proxy, c).Some?
    ensures ServerFor(cfg, c, ServerUrl(cfg.proxy, c).value)
  {
    if cfg.proxy.Some? {
      var o := cfg.proxy.value;
      NameRoundTrip(o, c);
      var origin := o.scheme + "://" + o.authority + o.path + "?";
      assert ServerUrl(cfg.proxy, c).value == origin + (AGENT_NAME + "=" + Escape(c)) by {
        assert "https" + "://" == "https://";
      }
    }
  }

  lemma DataIsConnected(cfg: Config, c: ByteString, crt: Datum, key: Datum, ca: Datum)
    requires Connect(cfg, c, crt, key, ca).Some?
    ensures var data := Connect(cfg, c, crt, key, ca).value;
            && data.Keys == {"name", "server", "config"}
            && data["name"] == Raw(c) && data["server"].Raw? && ServerFor(cfg, c, data["server"].s)
            && data["config"] == Connection(c, c, if cfg.proxy.Some? then cfg.proxyTLSName else "", crt, key, ca)
  {
    UrlIsServer(cfg, c);
  }

  lemma LabelsAreThere(cfg: Config, c: string, labels: map<string, string>)
    requires Within(SecretLabels(cfg, c), labels)
    ensures Entry(labels, "argocd.argoproj.io/secret-type") == "cluster"
    ensures Entry(labels, "apps.open-cluster-management.io/cluster-name") == c
    ensures Entry(labels, "argocd-agent.argoproj-labs.io/agent-name") == c
    ensures Entry(labels, "placement-name") == cfg.placement
  {
    var ours := SecretLabels(cfg, c);
    assert "argocd.argoproj.io/secret-type" in ours && "apps.open-cluster-management.io/cluster-name" in ours;
    assert "argocd-agent.argoproj-labs.io/agent-name" in ours && "placement-name" in ours;
  }

  lemma ImportedIsConnected(cfg: Config, sh: Shared, v: ClusterView, c: ByteString)
    requires Done(cfg, Importing, sh, v, c)
    ensures Connected(cfg, sh, v, c)
  {
    LabelsAreThere(cfg, c, v.secret.value.labels);
    DataIsConnected(cfg, c, v.client.value.data["tls.crt"], v.client.value.data["tls.key"], sh.ca.value.data["tls.crt"]);
  }

  /** A fault-free import of a servable cluster connects it. */
  lemma ImportConnects(cfg: Config, sh: Shared, v: ClusterView, c: ByteString, f: Faults)
    requires Servable(cfg, sh, c) && FaultFree(f)
    ensures var (w, ok) := Turn(cfg, Importing, sh, v, c, f); ok && Connected(cfg, sh, w, c)
  {
    ImportDone(cfg, sh, v, c, f);
    ImportedIsConnected(cfg, sh, Import(cfg, sh, v, c, f).0, c);
  }

  // ---- The works ----

  /** The CA work as it is written: one Secret for the namespace of the spoke's Argo CD, with the CA's certificate. */
  predicate CAWorkFor(cfg: Config, sh: Shared, w: Work) {
    && sh.ca.Some? && "tls.crt" in sh.ca.value.data
    && w.manifests == [SecretDoc(if cfg.agentNs == "" then "argocd" else cfg.agentNs, sh.ca.value.data["tls.crt"])]
    && Entry(w.annos, "apps.open-cluster-management.io/propagate-argocd-agent-ca") == "true"
  }

  /** Whatever fails, a turn of the CA stage leaves the work alone, or writes it in full; the local cluster gets none. */
  lemma CAWorkIsWritten(cfg: Config, sh: Shared, v: ClusterView, c: ByteString, f: Faults)
    ensures var w := Turn(cfg, DeliveringCA, sh, v, c, f).0;
            w.caWork != v.caWork ==>
              && c != "local-cluster" && w.caWork.Some? && CAWorkFor(cfg, sh, w.caWork.value)
              && (v.caWork.None? ==> w.caWork.value.labels == map["apps.open-cluster-management.io/gitopscluster" := "true"])
  {
  }

  /** What becomes of a manifest of the user's: an ArgoCD gets the endpoint, everything else goes as it is. */
  predicate DeliveredAs(cfg: Config, doc: Option<Json>, m: Manifest) {
    match doc
    case None => m == Unreadable
    case Some(d) =>
      if GetText(d, "apiVersion") == "argoproj.io/v1beta1" && GetText(d, "kind") == "ArgoCD"
      then && m.Document?
           && Address(m.doc) == (if Address(d) != "" then Address(d) else cfg.address)
           && Port(m.doc) == (if Port(d) != "" then Port(d) else cfg.port)
      else m == Document(d)
  }

  /** The ArgoCD work: the user's manifests in order, or the default one, with the hub's image unless that is disabled. */
  predicate CRWorkFor(cfg: Config, sh: Shared, w: Work) {
    && (match cfg.user
        case Some(docs) =>
          |w.manifests| == |docs| && forall i | 0 <= i < |docs| :: DeliveredAs(cfg, docs[i], w.manifests[i])
        case None => w.manifests == [Document(cfg.defaultCR(if cfg.syncImage then sh.image else None))])
    && Entry(w.labels, "apps.open-cluster-management.io/gitopscluster") == "true"
    && Entry(w.labels, "app.kubernetes.io/managed-by") == "argocd-pull-integration"
    && Entry(w.labels, "app.kubernetes.io/component") == "argocd-cr"
  }

  lemma InjectedIsDelivered(cfg: Config, doc: Option<Json>)
    ensures DeliveredAs(cfg, doc, Injected(cfg, doc))
  {
    if doc.Some? {
      EndpointAfter(doc.value, cfg.address, cfg.port);
    }
  }

  lemma CRLabelsAreThere(labels: map<string, string>)
    requires Within(CRLabels(), labels)
    ensures Entry(labels, "apps.open-cluster-management.io/gitopscluster") == "true"
    ensures Entry(labels, "app.kubernetes.io/managed-by") == "argocd-pull-integration"
    ensures Entry(labels, "app.kubernetes.io/component") == "argocd-cr"
  {
    assert GITOPS in CRLabels() && MANAGED_BY in CRLabels() && COMPONENT in CRLabels();
  }

  lemma DeliveredIsComplete(cfg: Config, sh: Shared, v: ClusterView, c: ByteString)
    requires Done(cfg, DeliveringCR, sh, v, c) && c != "local-cluster"
    ensures v.crWork.Some? && CRWorkFor(cfg, sh, v.crWork.value)
  {
    CRLabelsAreThere(v.crWork.value.labels);
    if cfg.user.Some? {
      var docs := cfg.user.value;
      forall i | 0 <= i < |docs|
        ensures DeliveredAs(cfg, docs[i], v.crWork.value.manifests[i])
      {
        InjectedIsDelivered(cfg, docs[i]);
      }
    }
  }

  // ---- The add-on ----

  predicate TemplateRef(cfg: Config, r: ConfigRef) {
    && r.group == "addon.open-cluster-management.io" && r.resource == "addontemplates"
    && r.name == "argocd-agent-addon-" + cfg.ns + "-" + cfg.name
  }

  predicate DeploymentRef(c: string, r: ConfigRef) {
    && r.group == "addon.open-cluster-management.io" && r.resource == "addondeploymentconfigs"
    && r.name == "argocd-agent-addon-config" && r.ns == c
  }

  /** The add-on points to the template and to the cluster's configuration, and that one has the namespaces. */
  ghost predicate AddOnReady(cfg: Config, v: ClusterView, c: string) {
    && v.addOn.Some? && v.config.Some?
    && (exists r :: r in v.addOn.value.configs && TemplateRef(cfg, r))
    && (exists r :: r in v.addOn.value.configs && DeploymentRef(c, r))
    && (cfg.agentNs != "" ==> exists x :: x in v.config.value.variables && x.name == "ARGOCD_NAMESPACE")
    && (cfg.operatorNs != "" ==> exists x :: x in v.config.value.variables && x.name == "ARGOCD_OPERATOR_NAMESPACE")
  }

  lemma RefIsThere(s: seq<ConfigRef>, r: ConfigRef)
    requires Has(s, r, SameRef)
    ensures exists q :: q in s && q.group == r.group && q.resource == r.resource && q.name == r.name
                        && (r.ns != "" ==> q.ns == r.ns)
  {
    var i :| 0 <= i < |s| && SameRef(s[i], r);
    assert s[i] in s;
  }

  lemma VariableIsThere(s: seq<Variable>, x: Variable)
    requires Has(s, x, SameVariable)
    ensures exists y :: y in s && y.name == x.name
  {
    var i :| 0 <= i < |s| && SameVariable(s[i], x);
    assert s[i] in s;
  }

  /** A reference without a namespace would match any; but c is the name of a cluster, and not empty. */
  lemma InstalledIsReady(cfg: Config, sh: Shared, v: ClusterView, c: ByteString)
    requires Done(cfg, Installing, sh, v, c) && c != ""
    ensures AddOnReady(cfg, v, c)
  {
    var refs, vars := Refs(cfg, c), Variables(cfg, false);
    assert refs[0] in refs && refs[1] in refs;
    RefIsThere(v.addOn.value.configs, refs[0]);
    RefIsThere(v.addOn.value.configs, refs[1]);
    if cfg.agentNs != "" {
      assert vars[0] == Variable("ARGOCD_NAMESPACE", cfg.agentNs) && vars[0] in vars;
      VariableIsThere(v.config.value.variables, vars[0]);
    }
    if cfg.operatorNs != "" {
      var last := vars[|vars| - 1];
      assert last == Variable("ARGOCD_OPERATOR_NAMESPACE", cfg.operatorNs) && last in vars;
      VariableIsThere(v.config.value.variables, last);
    }
  }

  lemma {:induction false} AddAllOnlyAdds<T>(s: seq<T>, required: seq<T>, same: (T, T) -> bool)
    ensures forall x | x in AddAll(s, required, same) :: x in s || x in required
    decreases |required|
  {
    if required != [] {
      AddAllOnlyAdds(Add(s, required[0], same), required[1..], same);
    }
  }

  /** Whatever fails, an install puts nothing on an add-on but the two references, and nothing into its configuration but
      the two namespaces with their values; a new add-on is labelled so that the cleanup finds it. */
  lemma InstallAddsOnly(cfg: Config, sh: Shared, v: ClusterView, c: ByteString, f: Faults)
    ensures var w := Turn(cfg, Installing, sh, v, c, f).0;
            && (w.config.Some? ==> forall x | x in w.config.value.variables ::
                  || (v.config.Some? && x in v.config.value.variables)
                  || (cfg.agentNs != "" && x == Variable("ARGOCD_NAMESPACE", cfg.agentNs))
                  || (cfg.operatorNs != "" && x == Variable("ARGOCD_OPERATOR_NAMESPACE", cfg.operatorNs)))
            && (w.addOn.Some? ==> forall r | r in w.addOn.value.configs ::
                  || (v.addOn.Some? && r in v.addOn.value.configs)
                  || (TemplateRef(cfg, r) && r.ns == "") || DeploymentRef(c, r))
            && (v.addOn.None? && w.addOn.Some? ==>
                  Entry(w.addOn.value.labels, "app.kubernetes.io/managed-by") == "argocd-pull-integration")
  {
    ConfigAddsOnly(cfg, v.config, f);
    AddOnAddsOnly(cfg, v.addOn, c, f);
  }

  lemma ConfigAddsOnly(cfg: Config, config: Option<AddOnConfig>, f: Faults)
    ensures var w := AfterConfig(cfg, config, f).0;
            w.Some? ==> forall x | x in w.value.variables ::
              || (config.Some? && x in config.value.variables)
              || (cfg.agentNs != "" && x == Variable("ARGOCD_NAMESPACE", cfg.agentNs))
              || (cfg.operatorNs != "" && x == Variable("ARGOCD_OPERATOR_NAMESPACE", cfg.operatorNs))
  {
    if config.Some? {
      AddAllOnlyAdds(config.value.variables, Variables(cfg, f.swap), SameVariable);
    }
  }

  lemma AddOnAddsOnly(cfg: Config, addOn: Option<AddOn>, c: string, f: Faults)
    ensures var w := AfterAddOn(cfg, addOn, c, f).0;
            && (w.Some? ==> forall r | r in w.value.configs ::
                  || (addOn.Some? && r in addOn.value.configs)
                  || (TemplateRef(cfg, r) && r.ns == "") || DeploymentRef(c, r))
            && (addOn.None? && w.Some? ==> Entry(w.value.labels, "app.kubernetes.io/managed-by") == "argocd-pull-integration")
  {
    if addOn.Some? {
      AddAllOnlyAdds(addOn.value.configs, Refs(cfg, c), SameRef);
    }
  }

  // ---- Removal ----

  /** Whatever fails, a removal touches works and secret only after the add-on is gone and its deletion was accepted, and
      never the client certificate or the add-on's configuration; and it makes nothing. */
  lemma AddOnGoesFirst(v: ClusterView, f: Faults)
    ensures var (w, ok) := RemoveCluster(v, f);
            && w.client == v.client && w.config == v.config
            && (w.addOn != v.addOn ==> w.addOn.None?) && (w.caWork != v.caWork ==> w.caWork.None?)
            && (w.crWork != v.crWork ==> w.crWork.None?) && (w.secret != v.secret ==> w.secret.None?)
            && (w.caWork != v.caWork || w.crWork != v.crWork || w.secret != v.secret || ok ==>
                  w.addOn.None? && f.o(DeleteAddOn).Accepted?)
  {
  }

  // ---- A placed cluster ----

  /** Everything a placed cluster is to have; a CA work that could not be read is left as it was. */
  ghost predicate Complete(cfg: Config, sh: Shared, v: ClusterView, c: ByteString, was: ClusterView) {
    && Connected(cfg, sh, v, c)
    && (c != "local-cluster" ==>
          && v.crWork.Some? && CRWorkFor(cfg, sh, v.crWork.value)
          && (Repairable(DeliveringCA, was, c) ==>
                v.caWork.Some? && sh.ca.Some? && "tls.crt" in sh.ca.value.data
                && DeliveredCA(v.caWork.value) == Some(sh.ca.value.data["tls.crt"])))
    && (c != "" ==> AddOnReady(cfg, v, c))
  }
}
