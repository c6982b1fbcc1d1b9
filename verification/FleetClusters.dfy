/** The imperative code that works on one managed cluster, proved against the programs of module FleetView. */
module FleetClusters {
  import opened Kube
  import opened EndpointInjection
  import opened RegistrationUrl
  import opened AppendMissing
  import opened FleetView
  import opened FleetStore

  lemma PutSecrets(st: Store, cfg: Config, c: string, secret: Option<Secret>, client: Option<Secret>)
    ensures Put(st, cfg, c, View(st, cfg, c).(secret := secret, client := client)) ==
            st.(secrets := Set(Set(st.secrets, ClusterSecretKey(cfg.ns, c), secret), ClientSecretKey(cfg.ns, c), client))
  {
    SetSame(st.works, CAWorkKey(c));
    SetSame(st.works, CRWorkKey(cfg, c));
    SetSame(st.addOns, AddOnKey(c));
    SetSame(st.configs, AddOnConfigKey(c));
  }

  lemma PutCAWork(st: Store, cfg: Config, c: string, w: Option<Work>)
    ensures Put(st, cfg, c, View(st, cfg, c).(caWork := w)) == st.(works := Set(st.works, CAWorkKey(c), w))
  {
    WorkKeysApart(cfg, c);
    PutSecrets(st, cfg, c, Look(st.secrets, ClusterSecretKey(cfg.ns, c)), Look(st.secrets, ClientSecretKey(cfg.ns, c)));
    PutSame(st, cfg, c);
    SetSame(Set(st.works, CAWorkKey(c), w), CRWorkKey(cfg, c));
  }

  lemma PutCRWork(st: Store, cfg: Config, c: string, w: Option<Work>)
    ensures Put(st, cfg, c, View(st, cfg, c).(crWork := w)) == st.(works := Set(st.works, CRWorkKey(cfg, c), w))
  {
    PutSame(st, cfg, c);
    SetSame(st.works, CAWorkKey(c));
  }

  lemma PutConfig(st: Store, cfg: Config, c: string, x: Option<AddOnConfig>)
    ensures Put(st, cfg, c, View(st, cfg, c).(config := x)) == st.(configs := Set(st.configs, AddOnConfigKey(c), x))
  {
    PutSame(st, cfg, c);
  }

  lemma PutAddOn(st: Store, cfg: Config, c: string, a: Option<AddOn>)
    ensures Put(st, cfg, c, View(st, cfg, c).(addOn := a)) == st.(addOns := Set(st.addOns, AddOnKey(c), a))
  {
    PutSame(st, cfg, c);
  }

  lemma PutRemoved(st: Store, cfg: Config, c: string, a: Option<AddOn>, w: Option<Work>, x: Option<Work>, s: Option<Secret>)
    ensures Put(st, cfg, c, View(st, cfg, c).(addOn := a, caWork := w, crWork := x, secret := s)) ==
            Store(Set(st.secrets, ClusterSecretKey(cfg.ns, c), s),
                  Set(Set(st.works, CAWorkKey(c), w), CRWorkKey(cfg, c), x),
                  Set(st.addOns, AddOnKey(c), a), st.configs)
  {
    var k := ClientSecretKey(cfg.ns, c);
    SecretKeysApart(cfg.ns, c, c);
    SetOther(st.secrets, k, ClusterSecretKey(cfg.ns, c), s);
    SetSame(Set(st.secrets, ClusterSecretKey(cfg.ns, c), s), k);
    SetSame(st.configs, AddOnConfigKey(c));
  }

  function WithoutRest(st: Store, cfg: Config, c: string, f: Faults): Store {
    var v := View(st, cfg, c);
    st.(works := Set(Set(st.works, CAWorkKey(c),
                         if f.o(GetCAWork).Accepted? then Erased(v.caWork, f.o(DeleteCAWork)) else v.caWork),
                     CRWorkKey(cfg, c), if f.o(GetCRWork).Accepted? then Erased(v.crWork, f.o(DeleteCRWork)) else v.crWork),
        secrets := Set(st.secrets, ClusterSecretKey(cfg.ns, c),
                       if f.o(GetOldSecret).Accepted? then Erased(v.secret, f.o(DeleteSecret)) else v.secret))
  }

  lemma RemovalStore(st: Store, cfg: Config, c: string, f: Faults)
    ensures var (v, ok) := RemoveCluster(View(st, cfg, c), f);
            var gone := Set(st.addOns, AddOnKey(c), Erased(View(st, cfg, c).addOn, f.o(DeleteAddOn)));
            && ok == f.o(DeleteAddOn).Accepted?
            && Put(st, cfg, c, v) == if ok then WithoutRest(st, cfg, c, f).(addOns := gone) else st.(addOns := gone)
  {
    var v := RemoveCluster(View(st, cfg, c), f).0;
    PutAddOn(st, cfg, c, v.addOn);
    PutRemoved(st, cfg, c, v.addOn, v.caWork, v.crWork, v.secret);
  }

  lemma SetOther<T>(m: map<Key, T>, k: Key, l: Key, y: Option<T>)
    requires k != l
    ensures Look(Set(m, l, y), k) == Look(m, k)
    ensures Set(Set(m, k, Look(m, k)), l, y) == Set(m, l, y)
    ensures forall x :: Set(Set(m, l, y), k, x) == Set(Set(m, k, x), l, y)
  {
  }

  /** The reconciler's clients for the kinds of object it keeps per cluster. */
  class Clusters {
    var cfg: Config
    const image: Option<string>
    const secrets: ApiServer<Secret>
    const works: ApiServer<Work>
    const addOns: ApiServer<AddOn>
    const configs: ApiServer<AddOnConfig>

    constructor (cfg: Config, image: Option<string>, secrets: ApiServer<Secret>, works: ApiServer<Work>,
                 addOns: ApiServer<AddOn>, configs: ApiServer<AddOnConfig>)
      ensures this.cfg == cfg && this.image == image && this.secrets == secrets && this.works == works
      ensures this.addOns == addOns && this.configs == configs
    {
      this.cfg, this.image, this.secrets, this.works := cfg, image, secrets, works;
      this.addOns, this.configs := addOns, configs;
    }

    ghost function Objects(): Store
      reads secrets, works, addOns, configs
    {
      Store(secrets.store, works.store, addOns.store, configs.store)
    }

    ghost function Sh(): Shared
      reads this, secrets, works, addOns, configs
    {
      SharedOf(Objects(), cfg, image)
    }

    // ---- Import ----

    method EnsureClusterClientCertificate(c: ByteString, f: Faults) returns (ok: bool)
      modifies secrets
      ensures var (client, ok') := EnsureClient(cfg, old(Sh()), Look(old(secrets.store), ClientSecretKey(cfg.ns, c)), c, f);
              && ok == ok'
              && secrets.store == Set(old(secrets.store), ClientSecretKey(cfg.ns, c), client)
    {
      var key := ClientSecretKey(cfg.ns, c);
      SetSame(secrets.store, key);
      var ca := secrets.Get(CASecretKey(cfg.ns), f.o(LoadCA));
      if ca.Missing? {
        return false;
      }
      var existing := secrets.Get(key, f.o(ListClient));
      if existing.Missing? && existing.error != NotFound {
        return false;
      }
      if existing.Found? && cfg.valid(existing.obj, c) {
        return true;
      }
      var pair := cfg.issue(c);
      if pair.None? {
        return false;
      }
      ok := WriteClientCertificate(key, pair.value, f);
    }

    method WriteClientCertificate(key: Key, pair: (Datum, Datum), f: Faults) returns (ok: bool)
      modifies secrets
      ensures var before := Look(old(secrets.store), key);
              && ok == (f.o(GetClient).Accepted? && f.o(WriteClient).Accepted?)
              && secrets.store == Set(old(secrets.store), key,
                   if f.o(GetClient).Accepted? then Written(before, Issued(before, pair), f.o(WriteClient)) else before)
    {
      SetSame(secrets.store, key);
      var target := secrets.Get(key, f.o(GetClient));
      var e: Option<Error>;
      match target {
        case Missing(NotFound) => e := secrets.Create(key, Issued(None, pair), f.o(WriteClient));
        case Missing(_) => return false;
        case Found(secret) => e := secrets.Update(key, Issued(Some(secret), pair), f.o(WriteClient));
      }
      ok := e.None?;
    }

    method BuildArgoCDClusterSecretData(c: ByteString, f: Faults) returns (data: Option<map<string, Datum>>)
      modifies secrets
      ensures var key := ClientSecretKey(cfg.ns, c);
              var (client, data') := BuildData(cfg, old(Sh()), Look(old(secrets.store), key), c, f);
              data == data' && secrets.store == Set(old(secrets.store), key, client)
    {
      SecretKeysApart(cfg.ns, c, c);
      var ensured := EnsureClusterClientCertificate(c, f);
      if !ensured {
        return None;
      }
      var client := secrets.Get(ClientSecretKey(cfg.ns, c), f.o(ReadClient));
      if client.Missing? || "tls.crt" !in client.obj.data || "tls.key" !in client.obj.data {
        return None;
      }
      var ca := secrets.Get(CASecretKey(cfg.ns), f.o(ReadCA));
      if ca.Missing? || "tls.crt" !in ca.obj.data {
        return None;
      }
      return Connect(cfg, c, client.obj.data["tls.crt"], client.obj.data["tls.key"], ca.obj.data["tls.crt"]);
    }

    method ImportManagedCluster(c: ByteString, f: Faults) returns (ok: bool)
      modifies secrets
      ensures (Objects(), ok) == var (v, ok') := Import(cfg, old(Sh()), View(old(Objects()), cfg, c), c, f);
                                 (Put(old(Objects()), cfg, c, v), ok')
    {
      ghost var st, v := Objects(), Import(cfg, Sh(), View(Objects(), cfg, c), c, f).0;
      PutSecrets(st, cfg, c, v.secret, v.client);
      ok := CreateArgoCDClusterSecret(c, f);
    }

    /** Where there was no secret, one is made; labels other than the four stay on an existing one. */
    method CreateArgoCDClusterSecret(c: ByteString, f: Faults) returns (ok: bool)
      modifies secrets
      ensures var (v, ok') := Import(cfg, old(Sh()), View(old(Objects()), cfg, c), c, f);
              && ok == ok'
              && secrets.store == Set(Set(old(secrets.store), ClusterSecretKey(cfg.ns, c), v.secret),
                                      ClientSecretKey(cfg.ns, c), v.client)
    {
      ghost var before := secrets.store;
      var key := ClusterSecretKey(cfg.ns, c);
      var existing := secrets.Get(key, f.o(GetSecret));
      if existing.Missing? && existing.error != NotFound {
        SetSame(before, key);
        SetSame(before, ClientSecretKey(cfg.ns, c));
        return false;
      }
      ghost var (client, _) := BuildData(cfg, Sh(), View(Objects(), cfg, c).client, c, f);
      SetOther(before, key, ClientSecretKey(cfg.ns, c), client) by {
        SecretKeysApart(cfg.ns, c, c);
      }
      var data := BuildArgoCDClusterSecretData(c, f);
      if data.None? {
        return false;
      }
      ok := WriteClusterSecret(key, if existing.Found? then Some(existing.obj) else None, c, data.value, f.o(WriteSecret));
    }

    method WriteClusterSecret(key: Key, existing: Option<Secret>, c: string, data: map<string, Datum>, o: Outcome)
      returns (ok: bool)
      requires existing == Look(secrets.store, key)
      modifies secrets
      ensures ok == o.Accepted?
      ensures secrets.store == Set(old(secrets.store), key, Written(existing, Secret(Labels(cfg, existing, c), data), o))
    {
      SetSame(secrets.store, key);
      var e: Option<Error>;
      if existing.Some? {
        e := secrets.Update(key, Secret(existing.value.labels + SecretLabels(cfg, c), data), o);
      } else {
        assert map[] + SecretLabels(cfg, c) == SecretLabels(cfg, c);
        e := secrets.Create(key, Secret(SecretLabels(cfg, c), data), o);
        if e == Some(AlreadyExists) {
          return true;
        }
      }
      ok := e.None?;
    }

    // ---- The works ----

    method CreateArgoCDAgentManifestWork(c: ByteString, f: Faults) returns (ok: bool)
      modifies works
      ensures (Objects(), ok) == var (v, ok') := DeliverCA(cfg, old(Sh()), View(old(Objects()), cfg, c), c, f);
                                 (Put(old(Objects()), cfg, c, v), ok')
    {
      ghost var st := Objects();
      PutSame(st, cfg, c);
      if c == LOCAL {
        return true;
      }
      var ca := secrets.Get(CASecretKey(cfg.ns), f.o(ReadCA));
      if ca.Missing? || "tls.crt" !in ca.obj.data {
        return false;
      }
      ok := DeliverCertificate(c, ca.obj.data["tls.crt"], f);
    }

    method DeliverCertificate(c: string, crt: Datum, f: Faults) returns (ok: bool)
      modifies works
      ensures var v := View(old(Objects()), cfg, c);
              var (work, ok') := AfterCAWork(cfg, crt, v.caWork, f);
              ok == ok' && Objects() == Put(old(Objects()), cfg, c, v.(caWork := work))
    {
      ghost var st := Objects();
      ok := WriteCAWork(CAWorkKey(c), crt, f);
      PutCAWork(st, cfg, c, Look(works.store, CAWorkKey(c)));
    }

    method WriteCAWork(key: Key, crt: Datum, f: Faults) returns (ok: bool)
      modifies works
      ensures var (work, ok') := AfterCAWork(cfg, crt, Look(old(works.store), key), f);
              ok == ok' && works.store == Set(old(works.store), key, work)
    {
      SetSame(works.store, key);
      var existing := works.Get(key, f.o(GetWork));
      var e: Option<Error>;
      match existing {
        case Missing(NotFound) =>
          e := works.Create(key, Work(map[GITOPS := "true"], map[PROPAGATE := "true"], [SecretDoc(SpokeNs(cfg), crt)]),
                            f.o(WriteWork));
        case Missing(_) => return false;
        case Found(w) =>
          var delivered := DeliveredCA(w);
          if delivered.None? || delivered.value == crt {
            return true;
          }
          e := works.Update(key, Work(w.labels, w.annos[PROPAGATE := "true"], [SecretDoc(SpokeNs(cfg), crt)]),
                            f.o(WriteWork));
      }
      ok := e.None?;
    }

    method CreateArgoCDCRManifestWork(c: ByteString, f: Faults) returns (ok: bool)
      modifies works
      ensures (Objects(), ok) == var (v, ok') := DeliverCR(cfg, old(Sh()), View(old(Objects()), cfg, c), c, f);
                                 (Put(old(Objects()), cfg, c, v), ok')
    {
      ghost var st := Objects();
      PutSame(st, cfg, c);
      if c == LOCAL {
        return true;
      }
      var manifests := BuildManifests(f.o(ReadImage));
      ok := WriteCRWork(CRWorkKey(cfg, c), manifests, f);
      PutCRWork(st, cfg, c, Look(works.store, CRWorkKey(cfg, c)));
    }

    method BuildManifests(read: Outcome) returns (manifests: seq<Manifest>)
      ensures manifests == CRManifests(cfg, Sh(), read)
    {
      match cfg.user {
        case None => manifests := [Document(cfg.defaultCR(if cfg.syncImage && read == Accepted then image else None))];
        case Some(docs) =>
          manifests := [];
          for i := 0 to |docs|
            invariant manifests == CRManifests(cfg, Sh(), read)[..i]
          {
            manifests := manifests + [Injected(cfg, docs[i])];
          }
      }
    }

    method WriteCRWork(key: Key, manifests: seq<Manifest>, f: Faults) returns (ok: bool)
      modifies works
      ensures var (work, ok') := AfterCRWork(manifests, Look(old(works.store), key), f);
              ok == ok' && works.store == Set(old(works.store), key, work)
    {
      SetSame(works.store, key);
      var existing := works.Get(key, f.o(GetWork));
      var e: Option<Error>;
      match existing {
        case Missing(NotFound) => e := works.Create(key, Work(CRLabels(), map[], manifests), f.o(WriteWork));
        case Missing(_) => return false;
        case Found(w) =>
          if w.manifests == manifests && Within(CRLabels(), w.labels) {
            return true;
          }
          e := works.Update(key, Work(w.labels + CRLabels(), w.annos, manifests), f.o(WriteWork));
      }
      ok := e.None?;
    }

    // ---- The add-on and its configuration ----

    method EnsureAddOnDeploymentConfig(c: string, f: Faults) returns (ok: bool)
      modifies configs
      ensures (Objects(), ok) == var (v, ok') := EnsureConfig(cfg, View(old(Objects()), cfg, c), f);
                                 (Put(old(Objects()), cfg, c, v), ok')
    {
      ghost var st := Objects();
      ok := WriteConfigAt(AddOnConfigKey(c), Variables(cfg, f.swap), f);
      PutConfig(st, cfg, c, Look(configs.store, AddOnConfigKey(c)));
    }

    method WriteConfigAt(key: Key, vars: seq<Variable>, f: Faults) returns (ok: bool)
      requires vars == Variables(cfg, f.swap)
      modifies configs
      ensures var (config, ok') := AfterConfig(cfg, Look(old(configs.store), key), f);
              ok == ok' && configs.store == Set(old(configs.store), key, config)
    {
      SetSame(configs.store, key);
      var existing := configs.Get(key, f.o(GetConfig));
      var e: Option<Error>;
      match existing {
        case Missing(NotFound) =>
          e := configs.Create(key, AddOnConfig(map[MANAGED_BY := INTEGRATION, COMPONENT := "addon-config"], vars),
                              f.o(WriteConfig));
          if e == Some(AlreadyExists) {
            return true;
          }
        case Missing(_) => return false;
        case Found(config) =>
          DistinctNames(cfg, f.swap);
          var merged, needsUpdate := MergeVariables(config.variables, vars);
          if !needsUpdate {
            return true;
          }
          e := configs.Update(key, config.(variables := merged), f.o(WriteConfig));
      }
      ok := e.None?;
    }

    method EnsureManagedClusterAddon(c: string, f: Faults) returns (ok: bool)
      modifies addOns
      ensures (Objects(), ok) == var (v, ok') := EnsureAddOn(cfg, View(old(Objects()), cfg, c), c, f);
                                 (Put(old(Objects()), cfg, c, v), ok')
    {
      ghost var st := Objects();
      ok := WriteAddOnAt(AddOnKey(c), c, f);
      PutAddOn(st, cfg, c, Look(addOns.store, AddOnKey(c)));
    }

    method WriteAddOnAt(key: Key, c: string, f: Faults) returns (ok: bool)
      modifies addOns
      ensures var (addOn, ok') := AfterAddOn(cfg, Look(old(addOns.store), key), c, f);
              ok == ok' && addOns.store == Set(old(addOns.store), key, addOn)
    {
      SetSame(addOns.store, key);
      var existing := addOns.Get(key, f.o(GetAddOn));
      var e: Option<Error>;
      match existing {
        case Missing(NotFound) =>
          e := addOns.Create(key, AddOn(AddOnLabels(), Refs(cfg, c)), f.o(WriteAddOn));
          if e == Some(AlreadyExists) {
            return true;
          }
        case Missing(_) => return false;
        case Found(addOn) =>
          var merged, needsUpdate := EnsureAll(addOn.configs, Refs(cfg, c), SameRef);
          if !needsUpdate {
            return true;
          }
          e := addOns.Update(key, addOn.(configs := merged), f.o(WriteAddOn));
      }
      ok := e.None?;
    }

    // ---- Removal ----

    /** The body of the cleanup loop; it reports whether the cluster counts as removed. */
    method RemoveManagedCluster(c: string, f: Faults) returns (ok: bool)
      modifies secrets, works, addOns
      ensures (Objects(), ok) == var (v, ok') := RemoveCluster(View(old(Objects()), cfg, c), f);
                                 (Put(old(Objects()), cfg, c, v), ok')
    {
      RemovalStore(Objects(), cfg, c, f);
      ok := RemoveAddOn(c, f.o(DeleteAddOn));
      if ok {
        RemoveRest(c, f);
      }
    }

    method RemoveAddOn(c: string, o: Outcome) returns (ok: bool)
      modifies addOns
      ensures ok == o.Accepted?
      ensures addOns.store == Set(old(addOns.store), AddOnKey(c), Erased(Look(old(addOns.store), AddOnKey(c)), o))
    {
      SetSame(addOns.store, AddOnKey(c));
      var e := addOns.Delete(AddOnKey(c), o);
      ok := e.None? || e.value == NotFound;
    }

    method RemoveRest(c: string, f: Faults)
      modifies secrets, works
      ensures Objects() == WithoutRest(old(Objects()), cfg, c, f)
    {
      WorkKeysApart(cfg, c);
      DeleteIfFound(works, CAWorkKey(c), f.o(GetCAWork), f.o(DeleteCAWork));
      DeleteIfFound(works, CRWorkKey(cfg, c), f.o(GetCRWork), f.o(DeleteCRWork));
      DeleteIfFound(secrets, ClusterSecretKey(cfg.ns, c), f.o(GetOldSecret), f.o(DeleteSecret));
    }
  }

  method DeleteIfFound<T>(api: ApiServer<T>, key: Key, read: Outcome, del: Outcome)
    modifies api
    ensures var x := Look(old(api.store), key);
            api.store == Set(old(api.store), key, if read.Accepted? then Erased(x, del) else x)
  {
    SetSame(api.store, key);
    var existing := api.Get(key, read);
    if existing.Found? {
      var _ := api.Delete(key, del);
    }
  }

  lemma DistinctNames(cfg: Config, swap: bool)
    ensures var vars := Variables(cfg, swap); forall i, j | 0 <= i < j < |vars| :: vars[i].name != vars[j].name
  {
    assert |"ARGOCD_NAMESPACE"| != |"ARGOCD_OPERATOR_NAMESPACE"|;
  }

  /** Variables are added by name only; a value that differs is kept. */
  method MergeVariables(existing: seq<Variable>, vars: seq<Variable>) returns (r: seq<Variable>, needsUpdate: bool)
    requires forall i, j | 0 <= i < j < |vars| :: vars[i].name != vars[j].name
    ensures r == AddAll(existing, vars, SameVariable)
    ensures needsUpdate <==> r != existing
  {
    var known: map<string, string> := map[];
    for i := 0 to |existing|
      invariant forall n :: n in known <==> exists j | 0 <= j < i :: existing[j].name == n
    {
      known := known[existing[i].name := existing[i].value];
    }
    r, needsUpdate := existing, false;
    for i := 0 to |vars|
      invariant AddAll(r, vars[i..], SameVariable) == AddAll(existing, vars, SameVariable)
      invariant existing <= r && (needsUpdate <==> |r| > |existing|)
      invariant forall j | |existing| <= j < |r| :: exists n | 0 <= n < i :: r[j].name == vars[n].name
    {
      assert vars[i..][0] == vars[i] && vars[i..][1..] == vars[i + 1..];
      if vars[i].name !in known {
        assert !Has(r, vars[i], SameVariable);
        r := r + [vars[i]];
        needsUpdate := true;
      } else {
        var j :| 0 <= j < |existing| && existing[j].name == vars[i].name;
        assert SameVariable(r[j], vars[i]);
      }
    }
  }
}
