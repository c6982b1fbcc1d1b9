/** Where the hub keeps the objects of each managed cluster, under the names the controller generates. */
module FleetStore {
  import opened Kube
  import opened FleetView

  // ---- Names ----

  const CR_PREFIX := "argocd-agent-cr"

  /** hash is the first eight hex digits of the digest of the untruncated name. */
  function CRWorkName(hash: string -> string, ns: string, name: string): string {
    var full := FullName(ns, name);
    if |full| <= 63 then full else Truncated(hash, full)
  }

  lemma NameFits(hash: string -> string, ns: string, name: string)
    requires forall s :: |hash(s)| == 8
    ensures |CRWorkName(hash, ns, name)| <= 63
  {
  }

  function FullName(ns: string, name: string): string { CR_PREFIX + "-" + ns + "-" + name }

  /** Two GitOpsClusters have the same untruncated name exactly when one namespace continues the other with a dash and
      the names make up for it; so never within one namespace. */
  lemma FullNamesCollideIff(ns: string, name: string, ns': string, name': string)
    requires |ns| <= |ns'|
    ensures FullName(ns, name) == FullName(ns', name') <==>
            || (ns == ns' && name == name')
            || (ns + "-" <= ns' && name == ns'[|ns| + 1..] + "-" + name')
  {
    Cancel(CR_PREFIX + "-", ns + "-" + name, ns' + "-" + name');
    Regroup(ns, name, ns', name');
    assert FullName(ns, name) == CR_PREFIX + "-" + (ns + "-" + name);
    assert FullName(ns', name') == CR_PREFIX + "-" + (ns' + "-" + name');
  }

  /** What a long name is truncated to. */
  function Truncated(hash: string -> string, full: string): string
    requires |full| > 63
  {
    full[..63 - 9] + "-" + hash(full)
  }

  /** Exactly when two GitOpsClusters get the same work name, whatever their length: short names when they are equal
      untruncated, long ones when they begin alike and their hashes agree, and a short one and a long one when the
      short one happens to be what the other is truncated to. */
  lemma NamesCollideIff(hash: string -> string, ns: string, name: string, ns': string, name': string)
    requires forall s :: |hash(s)| == 8
    ensures var full, full' := FullName(ns, name), FullName(ns', name');
            CRWorkName(hash, ns, name) == CRWorkName(hash, ns', name') <==>
            if |full| <= 63 && |full'| <= 63 then full == full'
            else if |full| > 63 && |full'| > 63 then full[..54] == full'[..54] && hash(full) == hash(full')
            else if |full| <= 63 then full == Truncated(hash, full')
            else full' == Truncated(hash, full)
  {
    var full, full' := FullName(ns, name), FullName(ns', name');
    if |full| > 63 && |full'| > 63 {
      Split(full[..54], hash(full), full'[..54], hash(full'));
    }
  }

  lemma Split(a: string, x: string, b: string, y: string)
    requires |a| == |b|
    ensures a + "-" + x == b + "-" + y <==> a == b && x == y
  {
    assert (a + "-" + x)[..|a|] == a && (b + "-" + y)[..|a|] == b;
    assert (a + "-" + x)[|a| + 1..] == x && (b + "-" + y)[|a| + 1..] == y;
  }

  lemma Cancel(p: string, a: string, b: string)
    ensures p + a == p + b <==> a == b
  {
    assert (p + a)[|p|..] == a && (p + b)[|p|..] == b;
  }

  lemma Regroup(a: string, x: string, b: string, y: string)
    requires |a| <= |b|
    ensures a + "-" + x == b + "-" + y <==> (a == b && x == y) || (a + "-" <= b && x == b[|a| + 1..] + "-" + y)
  {
    if |a| == |b| {
      Split(a, x, b, y);
    } else {
      assert (a + "-" + x)[..|a| + 1] == a + "-" && (b + "-" + y)[..|a| + 1] == b[..|a| + 1];
      assert (a + "-" + x)[|a| + 1..] == x && (b + "-" + y)[|a| + 1..] == b[|a| + 1..] + "-" + y;
      assert a + "-" + x == (a + "-") + x;
      if a + "-" <= b {
        assert b + "-" + y == b[..|a| + 1] + (b[|a| + 1..] + "-" + y);
      }
    }
  }

  function ClusterSecretKey(ns: string, c: string): Key { Key("Secret", ns, "cluster-" + c) }
  function ClientSecretKey(ns: string, c: string): Key { Key("Secret", ns, "argocd-cluster-client-" + c) }
  function CASecretKey(ns: string): Key { Key("Secret", ns, "argocd-agent-ca") }
  function CAWorkKey(c: string): Key { Key("ManifestWork", c, "argocd-agent-ca-mw") }
  function CRWorkKey(cfg: Config, c: string): Key { Key("ManifestWork", c, CRWorkName(cfg.hash, cfg.ns, cfg.name)) }
  function AddOnKey(c: string): Key { Key("ManagedClusterAddOn", c, ADDON) }
  function AddOnConfigKey(c: string): Key { Key("AddOnDeploymentConfig", c, ADDON_CONFIG) }

  lemma SecretKeysApart(ns: string, c: string, d: string)
    ensures ClusterSecretKey(ns, c) != ClientSecretKey(ns, d)
    ensures CASecretKey(ns) != ClusterSecretKey(ns, c) && CASecretKey(ns) != ClientSecretKey(ns, c)
    ensures c != d ==> ClusterSecretKey(ns, c) != ClusterSecretKey(ns, d)
    ensures c != d ==> ClientSecretKey(ns, c) != ClientSecretKey(ns, d)
  {
    assert ("cluster-" + c)[0] == 'c' && ("argocd-cluster-client-" + d)[0] == 'a';
    assert ("argocd-cluster-client-" + c)[7] == 'c' && "argocd-agent-ca"[7] == 'a';
    Cancel("cluster-", c, d);
    Cancel("argocd-cluster-client-", c, d);
  }

  lemma WorkKeysApart(cfg: Config, c: string)
    ensures CAWorkKey(c) != CRWorkKey(cfg, c)
  {
    var full := FullName(cfg.ns, cfg.name);
    assert CR_PREFIX[14] == 'r' && full[14] == 'r';
    assert CRWorkName(cfg.hash, cfg.ns, cfg.name)[14] == 'r';
    assert "argocd-agent-ca-mw"[14] == 'a';
  }

  // ---- The store ----

  datatype Store = Store(secrets: map<Key, Secret>, works: map<Key, Work>, addOns: map<Key, AddOn>,
                         configs: map<Key, AddOnConfig>)

  function Look<T>(m: map<Key, T>, k: Key): Option<T> { if k in m then Some(m[k]) else None }

  function Set<T>(m: map<Key, T>, k: Key, x: Option<T>): map<Key, T> { if x.Some? then m[k := x.value] else m - {k} }

  function View(st: Store, cfg: Config, c: string): ClusterView {
    ClusterView(Look(st.secrets, ClusterSecretKey(cfg.ns, c)), Look(st.secrets, ClientSecretKey(cfg.ns, c)),
                Look(st.works, CAWorkKey(c)), Look(st.works, CRWorkKey(cfg, c)), Look(st.addOns, AddOnKey(c)),
                Look(st.configs, AddOnConfigKey(c)))
  }

  function SharedOf(st: Store, cfg: Config, image: Option<string>): Shared {
    Shared(Look(st.secrets, CASecretKey(cfg.ns)), image)
  }

  /** The store with the objects of c replaced. */
  function Put(st: Store, cfg: Config, c: string, v: ClusterView): Store {
    Store(Set(Set(st.secrets, ClusterSecretKey(cfg.ns, c), v.secret), ClientSecretKey(cfg.ns, c), v.client),
          Set(Set(st.works, CAWorkKey(c), v.caWork), CRWorkKey(cfg, c), v.crWork),
          Set(st.addOns, AddOnKey(c), v.addOn),
          Set(st.configs, AddOnConfigKey(c), v.config))
  }

  /** The objects that are not one of c's. */
  ghost predicate SameBut<T>(m: map<Key, T>, n: map<Key, T>, owned: set<Key>) {
    forall k | k !in owned :: Look(m, k) == Look(n, k)
  }

  lemma SetTwo<T>(m: map<Key, T>, k: Key, x: Option<T>, l: Key, y: Option<T>)
    requires k != l
    ensures var n := Set(Set(m, k, x), l, y); Look(n, k) == x && Look(n, l) == y && SameBut(m, n, {k, l})
  {
  }

  lemma SetSame<T>(m: map<Key, T>, k: Key)
    ensures Set(m, k, Look(m, k)) == m
  {
  }

  /** What is put can be seen, and nothing else changes: no two clusters share an object. */
  lemma PutView(st: Store, cfg: Config, c: string, v: ClusterView, image: Option<string>)
    ensures View(Put(st, cfg, c, v), cfg, c) == v
    ensures SharedOf(Put(st, cfg, c, v), cfg, image) == SharedOf(st, cfg, image)
  {
    SecretKeysApart(cfg.ns, c, c);
    WorkKeysApart(cfg, c);
    SetTwo(st.secrets, ClusterSecretKey(cfg.ns, c), v.secret, ClientSecretKey(cfg.ns, c), v.client);
    SetTwo(st.works, CAWorkKey(c), v.caWork, CRWorkKey(cfg, c), v.crWork);
  }

  lemma PutElsewhere(st: Store, cfg: Config, c: string, v: ClusterView, d: string)
    requires c != d
    ensures View(Put(st, cfg, c, v), cfg, d) == View(st, cfg, d)
  {
    SecretKeysApart(cfg.ns, c, d);
    SecretKeysApart(cfg.ns, d, c);
  }

  lemma PutSame(st: Store, cfg: Config, c: string)
    ensures Put(st, cfg, c, View(st, cfg, c)) == st
  {
    SetSame(st.secrets, ClusterSecretKey(cfg.ns, c));
    SetSame(st.secrets, ClientSecretKey(cfg.ns, c));
    SetSame(st.works, CAWorkKey(c));
    SetSame(st.works, CRWorkKey(cfg, c));
    SetSame(st.addOns, AddOnKey(c));
    SetSame(st.configs, AddOnConfigKey(c));
  }

  lemma SetAgain<T>(m: map<Key, T>, k: Key, x: Option<T>, l: Key, y: Option<T>, x': Option<T>, y': Option<T>)
    ensures Set(Set(Set(Set(m, k, x), l, y), k, x'), l, y') == Set(Set(m, k, x'), l, y')
  {
  }

  lemma PutTwice(st: Store, cfg: Config, c: string, v: ClusterView, w: ClusterView)
    ensures Put(Put(st, cfg, c, v), cfg, c, w) == Put(st, cfg, c, w)
  {
    SetAgain(st.secrets, ClusterSecretKey(cfg.ns, c), v.secret, ClientSecretKey(cfg.ns, c), v.client, w.secret, w.client);
    SetAgain(st.works, CAWorkKey(c), v.caWork, CRWorkKey(cfg, c), v.crWork, w.caWork, w.crWork);
  }
}
