/** A whole pass over the fleet: the stages one after the other, each over all placed clusters, and the cleanup of
    clusters that left the placement. */
module FleetRun {
  import opened Kube
  import opened RegistrationUrl
  import opened FleetView
  import opened FleetStore

  /** What the API does in one pass: turn is indexed by stage and position in the list of clusters, removal by
      cluster; order is the order in which the listed add-ons arrive. */
  datatype Run = Run(turn: (Stage, nat) -> Faults, listed: Outcome, order: set<Key> -> seq<Key>, removal: string -> Faults)

  ghost predicate Enumeration(items: seq<Key>, s: set<Key>) {
    && (forall k :: k in items <==> k in s)
    && (forall i, j | 0 <= i < j < |items| :: items[i] != items[j])
  }

  ghost predicate Lists(run: Run) { forall s :: Enumeration(run.order(s), s) }

  ghost predicate NoFaults(run: Run) {
    && run.listed.Accepted?
    && (forall stage, i :: FaultFree(run.turn(stage, i)))
    && (forall c :: FaultFree(run.removal(c)))
  }

  /** The GitOpsCluster being reconciled and what was read from the hub's ArgoCD object. */
  datatype Fleet = Fleet(cfg: Config, image: Option<string>, clusters: seq<ByteString>)

  // ---- One stage ----

  function StageUpTo(fl: Fleet, stage: Stage, run: Run, st: Store, n: nat): Store
    requires n <= |fl.clusters|
  {
    if n == 0 then st else Next(fl, stage, run, StageUpTo(fl, stage, run, st, n - 1), n - 1)
  }

  function Next(fl: Fleet, stage: Stage, run: Run, st: Store, n: nat): Store
    requires n < |fl.clusters|
  {
    Put(st, fl.cfg, fl.clusters[n], TurnIn(fl, stage, run, st, n).0)
  }

  /** The n-th turn of the loop, from a store. */
  function TurnIn(fl: Fleet, stage: Stage, run: Run, st: Store, n: nat): (ClusterView, bool)
    requires n < |fl.clusters|
  {
    var c := fl.clusters[n];
    Turn(fl.cfg, stage, SharedOf(st, fl.cfg, fl.image), View(st, fl.cfg, c), c, run.turn(stage, n))
  }

  function AfterStage(fl: Fleet, stage: Stage, run: Run, st: Store): Store {
    StageUpTo(fl, stage, run, st, |fl.clusters|)
  }

  /** Whether the i-th turn of the stage succeeds. */
  function Oks(fl: Fleet, stage: Stage, run: Run, st: Store): nat -> bool {
    (i: nat) => i < |fl.clusters| && TurnIn(fl, stage, run, StageUpTo(fl, stage, run, st, i), i).1
  }

  /** The names whose turn failed, in order. */
  function Failing(names: seq<string>, ok: nat -> bool, n: nat): seq<string>
    requires n <= |names|
  {
    if n == 0 then []
    else if ok(n - 1) then Failing(names, ok, n - 1)
    else Failing(names, ok, n - 1) + [names[n - 1]]
  }

  function FailedIn(fl: Fleet, stage: Stage, run: Run, st: Store): seq<string> {
    Failing(fl.clusters, Oks(fl, stage, run, st), |fl.clusters|)
  }

  // ---- Cleanup ----

  function Listed(addOns: map<Key, AddOn>): set<Key> {
    set k | k in addOns && k.kind == "ManagedClusterAddOn" && Labelled(addOns[k])
  }

  predicate Leaves(fl: Fleet, k: Key) { k.name == ADDON && k.ns !in fl.clusters }

  function CleanUpTo(fl: Fleet, run: Run, st: Store, items: seq<Key>, n: nat): Store
    requires n <= |items|
  {
    if n == 0 then st else
      var st', k := CleanUpTo(fl, run, st, items, n - 1), items[n - 1];
      if Leaves(fl, k) then Put(st', fl.cfg, k.ns, RemoveCluster(View(st', fl.cfg, k.ns), run.removal(k.ns)).0) else st'
  }

  function RemovedUpTo(fl: Fleet, run: Run, items: seq<Key>, n: nat): nat
    requires n <= |items|
  {
    if n == 0 then 0
    else RemovedUpTo(fl, run, items, n - 1)
         + if Leaves(fl, items[n - 1]) && run.removal(items[n - 1].ns).o(DeleteAddOn).Accepted? then 1 else 0
  }

  function AfterCleanup(fl: Fleet, run: Run, st: Store): Store {
    if !run.listed.Accepted? then st
    else var items := run.order(Listed(st.addOns)); CleanUpTo(fl, run, st, items, |items|)
  }

  // ---- The pass ----

  function Delivered(fl: Fleet, run: Run, st: Store): Store {
    AfterStage(fl, DeliveringCA, run, AfterStage(fl, Importing, run, st))
  }

  function Installed(fl: Fleet, run: Run, st: Store): Store {
    AfterStage(fl, Installing, run, AfterCleanup(fl, run, AfterStage(fl, DeliveringCR, run, st)))
  }

  /** An unacceptable specification of the user's stops the pass before anything is removed or installed. */
  function Pass(fl: Fleet, run: Run, st: Store): Store {
    if !ValidUser(fl.cfg.user) then Delivered(fl, run, st)
    else Installed(fl, run, Delivered(fl, run, st))
  }

  // ---- The same, seen from one cluster ----

  function StageView(fl: Fleet, stage: Stage, run: Run, sh: Shared, v: ClusterView, c: string, n: nat): ClusterView
    requires n <= |fl.clusters|
  {
    if n == 0 then v else
      var w := StageView(fl, stage, run, sh, v, c, n - 1);
      if fl.clusters[n - 1] != c then w else Turn(fl.cfg, stage, sh, w, fl.clusters[n - 1], run.turn(stage, n - 1)).0
  }

  function StageOf(fl: Fleet, stage: Stage, run: Run, sh: Shared, v: ClusterView, c: string): ClusterView {
    StageView(fl, stage, run, sh, v, c, |fl.clusters|)
  }

  function CleanupOf(fl: Fleet, run: Run, v: ClusterView, c: string): ClusterView {
    if run.listed.Accepted? && c !in fl.clusters && v.addOn.Some? && Labelled(v.addOn.value)
    then RemoveCluster(v, run.removal(c)).0 else v
  }

  function PassOf(fl: Fleet, run: Run, sh: Shared, v: ClusterView, c: string): ClusterView {
    var v := StageOf(fl, DeliveringCA, run, sh, StageOf(fl, Importing, run, sh, v, c), c);
    if !ValidUser(fl.cfg.user) then v
    else StageOf(fl, Installing, run, sh, CleanupOf(fl, run, StageOf(fl, DeliveringCR, run, sh, v, c), c), c)
  }

  lemma {:induction false} StageViews(fl: Fleet, stage: Stage, run: Run, st: Store, c: string, n: nat)
    requires n <= |fl.clusters|
    ensures var st' := StageUpTo(fl, stage, run, st, n);
            && SharedOf(st', fl.cfg, fl.image) == SharedOf(st, fl.cfg, fl.image)
            && View(st', fl.cfg, c) == StageView(fl, stage, run, SharedOf(st, fl.cfg, fl.image), View(st, fl.cfg, c), c, n)
  {
    if n > 0 {
      StageViews(fl, stage, run, st, c, n - 1);
      var st', d := StageUpTo(fl, stage, run, st, n - 1), fl.clusters[n - 1];
      var v := TurnIn(fl, stage, run, st', n - 1).0;
      PutView(st', fl.cfg, d, v, fl.image);
      if d != c {
        PutElsewhere(st', fl.cfg, d, v, c);
      }
    }
  }

  lemma {:induction false} CleanViews(fl: Fleet, run: Run, st: Store, items: seq<Key>, c: string, n: nat)
    requires n <= |items| && Enumeration(items, Listed(st.addOns))
    ensures var st' := CleanUpTo(fl, run, st, items, n);
            && SharedOf(st', fl.cfg, fl.image) == SharedOf(st, fl.cfg, fl.image)
            && View(st', fl.cfg, c) == if AddOnKey(c) in items[..n] && c !in fl.clusters
                                       then RemoveCluster(View(st, fl.cfg, c), run.removal(c)).0 else View(st, fl.cfg, c)
  {
    if n > 0 {
      CleanViews(fl, run, st, items, c, n - 1);
      var st', k := CleanUpTo(fl, run, st, items, n - 1), items[n - 1];
      assert items[..n] == items[..n - 1] + [k];
      assert k in Listed(st.addOns);
      if Leaves(fl, k) {
        assert k == AddOnKey(k.ns);
        var v := RemoveCluster(View(st', fl.cfg, k.ns), run.removal(k.ns)).0;
        PutView(st', fl.cfg, k.ns, v, fl.image);
        if k.ns != c {
          PutElsewhere(st', fl.cfg, k.ns, v, c);
        }
      }
    }
  }

  lemma CleanupViews(fl: Fleet, run: Run, st: Store, c: string)
    requires Lists(run)
    ensures var st' := AfterCleanup(fl, run, st);
            && SharedOf(st', fl.cfg, fl.image) == SharedOf(st, fl.cfg, fl.image)
            && View(st', fl.cfg, c) == CleanupOf(fl, run, View(st, fl.cfg, c), c)
  {
    var items := run.order(Listed(st.addOns));
    if run.listed.Accepted? {
      CleanViews(fl, run, st, items, c, |items|);
      assert items[..|items|] == items;
      assert AddOnKey(c) in items <==> AddOnKey(c) in Listed(st.addOns);
    }
  }

  /** What a pass does to the objects of a cluster follows from these objects, the shared CA, and the outcomes of the
      calls made for this cluster. */
  lemma PassViews(fl: Fleet, run: Run, st: Store, c: string)
    requires Lists(run)
    ensures var st', sh := Pass(fl, run, st), SharedOf(st, fl.cfg, fl.image);
            && SharedOf(st', fl.cfg, fl.image) == sh
            && View(st', fl.cfg, c) == PassOf(fl, run, sh, View(st, fl.cfg, c), c)
  {
    var n := |fl.clusters|;
    StageViews(fl, Importing, run, st, c, n);
    var s1 := AfterStage(fl, Importing, run, st);
    StageViews(fl, DeliveringCA, run, s1, c, n);
    if ValidUser(fl.cfg.user) {
      var s2 := AfterStage(fl, DeliveringCA, run, s1);
      StageViews(fl, DeliveringCR, run, s2, c, n);
      var s3 := AfterStage(fl, DeliveringCR, run, s2);
      CleanupViews(fl, run, s3, c);
      StageViews(fl, Installing, run, AfterCleanup(fl, run, s3), c, n);
    }
  }
}
