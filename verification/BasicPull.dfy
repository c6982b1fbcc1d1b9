/** The basic pull model: hub Applications, the ManifestWorks made from them, and the orphan collector. */
module BasicPull {
  import opened Kube
  import opened Json
  import opened ApplicationPayload

  datatype Feedback = Feedback(name: string, value: string)

  /** feedback is what the spoke reported for the first manifest. */
  datatype Work = Work(labels: map<string, string>, annos: map<string, string>, spec: WorkSpec, deleting: bool,
                       feedback: seq<Feedback>)

  datatype Hub = Hub(apps: map<Key, Application>, works: map<Key, Work>, clusters: set<string>)

  const FINALIZER := "resources-finalizer.argocd.argoproj.io"

  function AppKey(ns: string, name: string): Key { Key("Application", ns, name) }

  function ClusterOf(app: Application): string { Entry(app.annos, MANAGED_CLUSTER) }

  function WorkKey(app: Application): Key
    requires |app.uid| >= 5
  {
    Key("ManifestWork", ClusterOf(app), WorkName(app.name, app.uid))
  }

  /** Applications are stored under their own names and carry a UID, as the API server sees to. */
  predicate WellStored(h: Hub) {
    forall k | k in h.apps ::
      var a := h.apps[k];
      k == AppKey(a.ns, a.name) && a.ns != "" && a.name != "" && |a.uid| >= 5 && IsObject(a.body)
  }

  function Remove(fs: seq<string>, x: string): seq<string> {
    if fs == [] then [] else (if fs[0] == x then [] else [fs[0]]) + Remove(fs[1..], x)
  }

  function WithoutFinalizer(fs: seq<string>): seq<string> { Remove(fs, FINALIZER) }

  /** An Update of an Application; one that is being deleted goes away with its last finalizer. */
  function AfterAppUpdate(apps: map<Key, Application>, k: Key, app: Application, o: Outcome): map<Key, Application> {
    if o.Rejected? || k !in apps then apps
    else if app.deleting && app.finalizers == [] then apps - {k}
    else apps[k := app]
  }

  /** The outcomes of the calls of one reconcile, and the order in which List returns the works. */
  datatype Faults = Faults(getApp: Outcome, getCluster: Outcome, getWork: Outcome, writeWork: Outcome,
                           deleteWork: Key -> Outcome, updateApp: Outcome, list: Outcome, order: seq<Key>)

  function NoFaults(order: seq<Key>): Faults {
    Faults(Accepted, Accepted, Accepted, Accepted, _ => Accepted, Accepted, Accepted, order)
  }

  /** What List with the pull label returns. */
  predicate Listed(works: map<Key, Work>, wk: Key) { wk in works && Entry(works[wk].labels, PULL) == "true" }

  ghost predicate Enumerates(order: seq<Key>, works: map<Key, Work>) {
    && (forall i, j | 0 <= i < j < |order| :: order[i] != order[j])
    && (forall wk :: wk in order <==> Listed(works, wk))
  }

  predicate Names(w: Work, k: Key) {
    ValidHubAnnotations(w.annos) && k == AppKey(w.annos[HUB_NAMESPACE], w.annos[HUB_NAME])
  }

  // ---- Application reconcile ----

  function DeleteEach(works: map<Key, Work>, todo: seq<Key>, del: Key -> Outcome): (map<Key, Work>, bool)
    decreases |todo|
  {
    if todo == [] then (works, true)
    else
      var e := WriteError(works, todo[0], del(todo[0]));
      var works' := AfterDelete(works, todo[0], del(todo[0]));
      if e.Some? && e.value != NotFound then (works', false) else DeleteEach(works', todo[1..], del)
  }

  function NamedIn(works: map<Key, Work>, order: seq<Key>, k: Key): seq<Key>
    decreases |order|
  {
    if order == [] then []
    else if order[0] in works && Names(works[order[0]], k) then [order[0]] + NamedIn(works, order[1..], k)
    else NamedIn(works, order[1..], k)
  }

  function CleanupDeleted(h: Hub, k: Key, f: Faults): (Hub, bool) {
    if !f.list.Accepted? then (h, false)
    else
      var (works', ok) := DeleteEach(h.works, NamedIn(h.works, f.order, k), f.deleteWork);
      (h.(works := works'), ok)
  }

  /** Deleting an object without a name, which the code falls through to, is an error without effect. */
  function ReconcileDeleting(h: Hub, k: Key, app: Application, f: Faults): (Hub, bool)
    requires |app.uid| >= 5
  {
    var stripped := app.(finalizers := WithoutFinalizer(app.finalizers));
    var wk := WorkKey(app);
    match GetReply(h.works, wk, f.getWork)
    case Missing(NotFound) => (h.(apps := AfterAppUpdate(h.apps, k, stripped, f.updateApp)), false)
    case Missing(_) => (h, false)
    case Found(_) =>
      var h' := h.(works := AfterDelete(h.works, wk, f.deleteWork(wk)));
      if WriteError(h.works, wk, f.deleteWork(wk)).Some? then (h', false)
      else (h'.(apps := AfterAppUpdate(h.apps, k, stripped, f.updateApp)), f.updateApp.Accepted?)
  }

  function WithoutOperation(app: Application): Application
    requires IsObject(app.body)
  {
    app.(body := app.body.(kids := app.body.kids - {Field("operation")}))
  }

  function NewWork(g: Generated): Work { Work(g.labels, g.annos, g.spec, false, []) }

  function Rewritten(w: Work, g: Generated): Work { w.(labels := g.labels, annos := g.annos, spec := g.spec) }

  function AfterWorkWrite(works: map<Key, Work>, wk: Key, g: Generated, o: Outcome): map<Key, Work> {
    if wk in works then AfterUpdate(works, wk, Rewritten(works[wk], g), o) else AfterCreate(works, wk, NewWork(g), o)
  }

  function ReconcileLive(h: Hub, k: Key, app: Application, f: Faults): (Hub, bool)
    requires |app.uid| >= 5 && IsObject(app.body)
  {
    if !f.getCluster.Accepted? || ClusterOf(app) !in h.clusters || !f.getWork.Accepted? then (h, false)
    else
      var h' := h.(works := AfterWorkWrite(h.works, WorkKey(app), GenerateWork(app), f.writeWork));
      if !f.writeWork.Accepted? then (h', false)
      else if Get(app.body, "operation").Some?
      then (h'.(apps := AfterAppUpdate(h.apps, k, WithoutOperation(app), f.updateApp)), f.updateApp.Accepted?)
      else (h', true)
  }

  function Reconcile(h: Hub, k: Key, f: Faults): (Hub, bool)
    requires WellStored(h)
  {
    match GetReply(h.apps, k, f.getApp)
    case Missing(NotFound) => CleanupDeleted(h, k, f)
    case Missing(_) => (h, false)
    case Found(app) => if app.deleting then ReconcileDeleting(h, k, app, f) else ReconcileLive(h, k, app, f)
  }

  lemma AppUpdateKeepsStored(h: Hub, k: Key, app: Application, o: Outcome)
    requires WellStored(h) && k in h.apps && IsObject(app.body)
    requires app.ns == h.apps[k].ns && app.name == h.apps[k].name && app.uid == h.apps[k].uid
    ensures WellStored(h.(apps := AfterAppUpdate(h.apps, k, app, o)))
  {
  }

  lemma DeletingKeepsStored(h: Hub, k: Key, f: Faults)
    requires WellStored(h) && k in h.apps
    ensures WellStored(ReconcileDeleting(h, k, h.apps[k], f).0)
  {
    var app := h.apps[k];
    AppUpdateKeepsStored(h, k, app.(finalizers := WithoutFinalizer(app.finalizers)), f.updateApp);
  }

  lemma LiveKeepsStored(h: Hub, k: Key, f: Faults)
    requires WellStored(h) && k in h.apps
    ensures WellStored(ReconcileLive(h, k, h.apps[k], f).0)
  {
    AppUpdateKeepsStored(h, k, WithoutOperation(h.apps[k]), f.updateApp);
  }

  lemma WellStoredKept(h: Hub, k: Key, f: Faults)
    requires WellStored(h)
    ensures WellStored(Reconcile(h, k, f).0)
  {
    if k in h.apps {
      DeletingKeepsStored(h, k, f);
      LiveKeepsStored(h, k, f);
    }
  }

  // ---- Orphan safety ----

  lemma {:induction false} DeleteEachRemoves(works: map<Key, Work>, todo: seq<Key>, del: Key -> Outcome)
    ensures DeleteEach(works, todo, del).0.Keys <= works.Keys
    ensures forall wk | wk in DeleteEach(works, todo, del).0 :: DeleteEach(works, todo, del).0[wk] == works[wk]
    ensures forall wk | wk in works && wk !in todo :: wk in DeleteEach(works, todo, del).0
    ensures (forall wk :: del(wk) == Accepted) ==>
              DeleteEach(works, todo, del) == (works - (set wk | wk in todo), true)
    decreases |todo|
  {
    if todo == [] {
      assert works - (set wk | wk in todo) == works;
    } else {
      var works' := AfterDelete(works, todo[0], del(todo[0]));
      DeleteEachRemoves(works', todo[1..], del);
      assert forall wk :: wk in todo <==> wk == todo[0] || wk in todo[1..];
      if forall wk :: del(wk) == Accepted {
        assert works' - (set wk | wk in todo[1..]) == works - (set wk | wk in todo);
      }
    }
  }

  lemma {:induction false} NamedInExact(works: map<Key, Work>, order: seq<Key>, k: Key)
    ensures forall wk :: wk in NamedIn(works, order, k) <==> wk in order && wk in works && Names(works[wk], k)
    decreases |order|
  {
    if order != [] {
      NamedInExact(works, order[1..], k);
    }
  }

  lemma CleanupWritesNothing(h: Hub, k: Key, f: Faults, wk: Key)
    requires wk in CleanupDeleted(h, k, f).0.works
    ensures wk in h.works && CleanupDeleted(h, k, f).0.works[wk] == h.works[wk]
  {
    DeleteEachRemoves(h.works, NamedIn(h.works, f.order, k), f.deleteWork);
  }

  lemma DeletingWritesNothing(h: Hub, k: Key, app: Application, f: Faults, wk: Key)
    requires |app.uid| >= 5 && wk in ReconcileDeleting(h, k, app, f).0.works
    ensures wk in h.works && ReconcileDeleting(h, k, app, f).0.works[wk] == h.works[wk]
  {
  }

  lemma LiveWritesOwnWork(h: Hub, k: Key, app: Application, f: Faults, wk: Key)
    requires |app.uid| >= 5 && IsObject(app.body)
    requires var works' := ReconcileLive(h, k, app, f).0.works;
             wk in works' && (wk in h.works ==> works'[wk] != h.works[wk])
    ensures wk == WorkKey(app)
    ensures var w, g := ReconcileLive(h, k, app, f).0.works[wk], GenerateWork(app);
            w.labels == g.labels && w.annos == g.annos && w.spec == g.spec
  {
  }

  /** The one work a reconcile writes is that of its Application, and says what is generated from it. */
  lemma OnlyOwnWorkIsWritten(h: Hub, k: Key, f: Faults, wk: Key)
    requires WellStored(h)
    requires var works' := Reconcile(h, k, f).0.works;
             wk in works' && (wk in h.works ==> works'[wk] != h.works[wk])
    ensures k in h.apps && wk == WorkKey(h.apps[k])
    ensures var w, g := Reconcile(h, k, f).0.works[wk], GenerateWork(h.apps[k]);
            w.labels == g.labels && w.annos == g.annos && w.spec == g.spec
  {
    if !f.getApp.Accepted? {
    } else if k !in h.apps {
      CleanupWritesNothing(h, k, f, wk);
    } else if h.apps[k].deleting {
      DeletingWritesNothing(h, k, h.apps[k], f, wk);
    } else {
      LiveWritesOwnWork(h, k, h.apps[k], f, wk);
    }
  }

  lemma LiveStripsAfterDelivery(h: Hub, k: Key, app: Application, f: Faults)
    requires |app.uid| >= 5 && IsObject(app.body) && k in h.apps && h.apps[k] == app
    requires var h' := ReconcileLive(h, k, app, f).0; k in h'.apps && h'.apps[k] != app
    ensures f.getCluster.Accepted? && ClusterOf(app) in h.clusters && f.getWork.Accepted? && f.writeWork.Accepted?
    ensures var h', g := ReconcileLive(h, k, app, f).0, GenerateWork(app);
            && WorkKey(app) in h'.works
            && h'.works[WorkKey(app)].labels == g.labels && h'.works[WorkKey(app)].annos == g.annos
            && h'.works[WorkKey(app)].spec == g.spec
  {
  }

  lemma DeletingKeepsBody(h: Hub, k: Key, app: Application, f: Faults)
    requires |app.uid| >= 5 && k in h.apps && h.apps[k] == app
    requires k in ReconcileDeleting(h, k, app, f).0.apps
    ensures ReconcileDeleting(h, k, app, f).0.apps[k].body == app.body
  {
  }

  /** Whatever fails, an operation is stripped from a stored Application only when its cluster is known and the work with
      that operation has been accepted; so no sync request is lost. */
  lemma OperationIsDelivered(h: Hub, k: Key, f: Faults)
    requires WellStored(h) && k in h.apps && Get(h.apps[k].body, "operation").Some?
    requires var h' := Reconcile(h, k, f).0; k in h'.apps && Get(h'.apps[k].body, "operation").None?
    ensures f.getCluster.Accepted? && ClusterOf(h.apps[k]) in h.clusters && f.getWork.Accepted? && f.writeWork.Accepted?
    ensures var h', app := Reconcile(h, k, f).0, h.apps[k];
            && WorkKey(app) in h'.works
            && (IsObject(Get(app.body, "operation").value) ==>
                  Get(h'.works[WorkKey(app)].spec.payload.body, "operation") == Get(app.body, "operation"))
  {
    var app := h.apps[k];
    if app.deleting {
      DeletingKeepsBody(h, k, app, f);
    } else {
      LiveStripsAfterDelivery(h, k, app, f);
      PayloadCarries(app);
    }
  }

  /** For a cluster that is not known, or cannot be read, nothing is written. */
  lemma NoWorkWithoutCluster(h: Hub, k: Key, f: Faults)
    requires WellStored(h) && k in h.apps && !h.apps[k].deleting
    requires !f.getCluster.Accepted? || ClusterOf(h.apps[k]) !in h.clusters
    ensures Reconcile(h, k, f) == (h, false)
  {
  }

  lemma LiveSuccess(h: Hub, k: Key, app: Application, f: Faults)
    requires |app.uid| >= 5 && IsObject(app.body) && k in h.apps && h.apps[k] == app
    ensures var (h', ok) := ReconcileLive(h, k, app, f);
            ok <==> && f.getCluster.Accepted? && ClusterOf(app) in h.clusters && f.getWork.Accepted?
                    && f.writeWork.Accepted? && (Get(app.body, "operation").Some? ==> f.updateApp.Accepted?)
    ensures var (h', ok) := ReconcileLive(h, k, app, f);
            ok ==> && WorkKey(app) in h'.works && h'.works[WorkKey(app)].labels == GenerateWork(app).labels
                   && h'.works[WorkKey(app)].annos == GenerateWork(app).annos
                   && h'.works[WorkKey(app)].spec == GenerateWork(app).spec
  {
  }

  /** The reconcile of a live Application succeeds exactly when all its calls do; then its work says what is generated
      from it, and no operation is left with it. */
  lemma LiveSucceedsIff(h: Hub, k: Key, f: Faults)
    requires WellStored(h) && k in h.apps && !h.apps[k].deleting
    ensures var (h', ok) := Reconcile(h, k, f); var app := h.apps[k];
            && (ok <==> && f.getApp.Accepted? && f.getCluster.Accepted? && ClusterOf(app) in h.clusters
                        && f.getWork.Accepted? && f.writeWork.Accepted?
                        && (Get(app.body, "operation").Some? ==> f.updateApp.Accepted?))
            && (ok ==> && WorkKey(app) in h'.works && h'.works[WorkKey(app)].labels == GenerateWork(app).labels
                       && h'.works[WorkKey(app)].annos == GenerateWork(app).annos
                       && h'.works[WorkKey(app)].spec == GenerateWork(app).spec
                       && k in h'.apps && Get(h'.apps[k].body, "operation").None?)
  {
    LiveSuccess(h, k, h.apps[k], f);
  }

  /** Every work a reconcile writes is found by the collector and names the Application it was made from. */
  lemma WrittenWorkIsCollectable(h: Hub, k: Key, f: Faults, wk: Key)
    requires WellStored(h)
    requires var works' := Reconcile(h, k, f).0.works;
             wk in works' && (wk in h.works ==> works'[wk] != h.works[wk])
    ensures Listed(Reconcile(h, k, f).0.works, wk) && Names(Reconcile(h, k, f).0.works[wk], k) && k in h.apps
  {
    OnlyOwnWorkIsWritten(h, k, f, wk);
    WorkNamesItsApplication(h.apps[k]);
  }

  /** Once an Application is gone, one fault-free reconcile removes exactly the listed works that name it. */
  lemma DeletedApplicationLosesItsWorks(h: Hub, k: Key, order: seq<Key>)
    requires WellStored(h) && k !in h.apps && Enumerates(order, h.works)
    ensures var (h', ok) := Reconcile(h, k, NoFaults(order));
            && ok && h'.apps == h.apps
            && forall wk :: wk in h'.works <==> wk in h.works && !(Listed(h.works, wk) && Names(h.works[wk], k))
  {
    NamedInExact(h.works, order, k);
    DeleteEachRemoves(h.works, NamedIn(h.works, order, k), NoFaults(order).deleteWork);
  }

  /** Removing the finalizer is persisted only after the work at the computed key was reported absent or its
      deletion was accepted; either way there is no such work any more.  Nothing else of a deleting Application
      is ever written. */
  lemma FinalizerWaitsForWork(h: Hub, k: Key, f: Faults)
    requires WellStored(h) && k in h.apps && h.apps[k].deleting
    requires var h' := Reconcile(h, k, f).0; k !in h'.apps || h'.apps[k] != h.apps[k]
    ensures var app, h' := h.apps[k], Reconcile(h, k, f).0;
            && (|| (f.getWork == Accepted && WorkKey(app) !in h.works)
                || (WorkKey(app) in h.works && f.deleteWork(WorkKey(app)) == Accepted))
            && WorkKey(app) !in h'.works
            && (k in h'.apps ==> h'.apps[k] == app.(finalizers := WithoutFinalizer(app.finalizers)))
  {
  }

  /** Without faults a deleted Application is always released, but the reconcile succeeds exactly when its work was
      still there: when it is not, the code goes on to delete an object it never found. */
  lemma ReleaseReportsError(h: Hub, k: Key, order: seq<Key>)
    requires WellStored(h) && k in h.apps && h.apps[k].deleting
    ensures var (h', ok) := Reconcile(h, k, NoFaults(order));
            && (ok <==> WorkKey(h.apps[k]) in h.works)
            && h'.works == h.works - {WorkKey(h.apps[k])}
            && (k in h'.apps <==> WithoutFinalizer(h.apps[k].finalizers) != [])
            && (k in h'.apps ==> h'.apps[k].finalizers == WithoutFinalizer(h.apps[k].finalizers))
  {
  }

  /** The Application a work says it was made from. */
  function NamedApp(w: Work): Option<Key> {
    if ValidHubAnnotations(w.annos) then Some(AppKey(w.annos[HUB_NAMESPACE], w.annos[HUB_NAME])) else None
  }

  /** A listed work whose Application does not exist. */
  predicate Orphan(apps: map<Key, Application>, works: map<Key, Work>, wk: Key) {
    Listed(works, wk) && NamedApp(works[wk]).Some? && NamedApp(works[wk]).value !in apps
  }

  function Chosen(order: seq<Key>, p: Key -> bool): set<Key> { set wk | wk in order && p(wk) }

  lemma ChosenMore(order: seq<Key>, i: nat, p: Key -> bool)
    requires i < |order| && forall a, b | 0 <= a < b < |order| :: order[a] != order[b]
    ensures Chosen(order[..i + 1], p) == if p(order[i]) then Chosen(order[..i], p) + {order[i]} else Chosen(order[..i], p)
    ensures order[i] !in Chosen(order[..i], p)
  {
    assert order[..i + 1] == order[..i] + [order[i]];
  }

  /** The collector.  It deletes exactly the orphans it was able to look up and to delete: with no faults, exactly
      the orphans; with faults, never a work whose Application exists. */
  class Collector {
    var apps: map<Key, Application>
    var works: map<Key, Work>

    method Cleanup(list: Outcome, order: seq<Key>, getApp: Key -> Outcome, del: Key -> Outcome)
      returns (orphaned: nat, deleted: nat, ok: bool)
      requires Enumerates(order, works)
      modifies this`works
      ensures ok <==> list == Accepted
      ensures works == old(works) - (set wk | wk in old(works) && list == Accepted && Orphan(apps, old(works), wk)
                                              && getApp(wk) == Accepted && del(wk) != Rejected)
      ensures orphaned == |set wk | wk in old(works) && list == Accepted && Orphan(apps, old(works), wk)
                                    && getApp(wk) == Accepted|
      ensures deleted == |set wk | wk in old(works) && list == Accepted && Orphan(apps, old(works), wk)
                                   && getApp(wk) == Accepted && del(wk) == Accepted|
    {
      if list != Accepted {
        return 0, 0, false;
      }
      ghost var known, all := apps, works;
      ghost var found := wk => Orphan(known, all, wk) && getApp(wk) == Accepted;
      ghost var gone := wk => Orphan(known, all, wk) && getApp(wk) == Accepted && del(wk) == Accepted;
      ghost var removed := wk => Orphan(known, all, wk) && getApp(wk) == Accepted && del(wk) != Rejected;
      works, orphaned, deleted := CollectOrphans(apps, works, order, getApp, del, found, gone, removed);
      ghost var items := old(works);
      assert Chosen(order, found) == set wk | wk in items && list == Accepted && Orphan(apps, items, wk)
                                              && getApp(wk) == Accepted;
      assert Chosen(order, gone) == set wk | wk in items && list == Accepted && Orphan(apps, items, wk)
                                             && getApp(wk) == Accepted && del(wk) == Accepted;
      assert Chosen(order, removed) == set wk | wk in items && list == Accepted && Orphan(apps, items, wk)
                                                && getApp(wk) == Accepted && del(wk) != Rejected;
      return orphaned, deleted, true;
    }
  }

  /** One turn of the loop: look the Application up, and delete the work if there is none. */
  method CollectOne(apps: map<Key, Application>, items: map<Key, Work>, works: map<Key, Work>, wk: Key,
                    getApp: Outcome, del: Outcome) returns (orphan: bool, works': map<Key, Work>)
    requires Listed(items, wk)
    ensures orphan <==> Orphan(apps, items, wk) && getApp == Accepted
    ensures works' == if orphan && del != Rejected then works - {wk} else works
  {
    var app := NamedApp(items[wk]);
    if app.None? || GetReply(apps, app.value, getApp) != Missing(NotFound) {
      return false, works;
    }
    return true, AfterDelete(works, wk, del);
  }

  lemma MinusTwice(m: map<Key, Work>, c: set<Key>, wk: Key)
    ensures (m - c) - {wk} == m - (c + {wk})
  {
  }

  method CollectOrphans(apps: map<Key, Application>, items: map<Key, Work>, order: seq<Key>,
                        getApp: Key -> Outcome, del: Key -> Outcome,
                        ghost found: Key -> bool, ghost gone: Key -> bool, ghost removed: Key -> bool)
    returns (works: map<Key, Work>, orphaned: nat, deleted: nat)
    requires Enumerates(order, items)
    requires forall wk :: found(wk) == (Orphan(apps, items, wk) && getApp(wk) == Accepted)
    requires forall wk :: gone(wk) == (found(wk) && del(wk) == Accepted)
    requires forall wk :: removed(wk) == (found(wk) && del(wk) != Rejected)
    ensures works == items - Chosen(order, removed)
    ensures orphaned == |Chosen(order, found)| && deleted == |Chosen(order, gone)|
  {
    works, orphaned, deleted := items, 0, 0;
    ghost var dropped: set<Key> := {};
    for i := 0 to |order|
      invariant orphaned == |Chosen(order[..i], found)| && deleted == |Chosen(order[..i], gone)|
      invariant dropped == Chosen(order[..i], removed) && works == items - dropped
    {
      var wk := order[i];
      ChosenMore(order, i, found);
      ChosenMore(order, i, gone);
      ChosenMore(order, i, removed);
      assert wk in order && Listed(items, wk);
      var orphan;
      orphan, works := CollectOne(apps, items, works, wk, getApp(wk), del(wk));
      if orphan {
        orphaned := orphaned + 1;
        if del(wk) == Accepted {
          deleted := deleted + 1;
        }
      }
      if removed(wk) {
        MinusTwice(items, dropped, wk);
        dropped := dropped + {wk};
      }
    }
    assert order[..|order|] == order;
  }

  // ---- The imperative code of the Application controller ----

  lemma {:induction false} RemoveConcat(a: seq<string>, b: seq<string>, x: string)
    ensures Remove(a + b, x) == Remove(a, x) + Remove(b, x)
    ensures x !in a ==> Remove(a, x) == a
  {
    if a == [] {
      assert a + b == b;
    } else {
      assert (a + b)[1..] == a[1..] + b;
      RemoveConcat(a[1..], b, x);
      assert a == [a[0]] + a[1..];
    }
  }

  lemma RemoveOne(a: seq<string>, x: string, b: seq<string>)
    ensures Remove(a + [x] + b, x) == Remove(a + b, x)
  {
    RemoveConcat(a + [x], b, x);
    RemoveConcat(a, [x], x);
    RemoveConcat(a, b, x);
    assert Remove([x], x) == Remove([x][1..], x) == [];
  }

  /** The elements behind i move one place forward, over it. */
  method RemoveAt(f: array<string>, n: nat, i: nat)
    requires i < n <= f.Length
    modifies f
    ensures f[..n - 1] == old(f[..i]) + old(f[i + 1..n])
  {
    forall j | i <= j < n - 1 {
      f[j] := f[j + 1];
    }
  }

  /** The filter in place: each match is overwritten by the elements behind it and the index steps back. */
  method FilterInPlace(f: array<string>, x: string) returns (n: nat)
    modifies f
    ensures n <= f.Length && f[..n] == Remove(old(f[..]), x)
  {
    n := f.Length;
    var i := 0;
    assert f[..n] == f[..];
    while i < n
      invariant 0 <= i <= n <= f.Length
      invariant x !in f[..i] && Remove(f[..n], x) == Remove(old(f[..]), x)
      decreases n - i
    {
      ghost var before, after := f[..i], f[i + 1..n];
      assert f[..n] == before + [f[i]] + after;
      assert f[..i + 1] == before + [f[i]];
      if f[i] == x {
        RemoveOne(before, x, after);
        RemoveAt(f, n, i);
        n := n - 1;
        assert f[..n][..i] == before;
        i := i - 1;
      }
      i := i + 1;
    }
    RemoveConcat(f[..n], [], x);
  }

  method WorksNaming(works: map<Key, Work>, order: seq<Key>, k: Key) returns (found: seq<Key>)
    ensures found == NamedIn(works, order, k)
  {
    found := [];
    for i := 0 to |order|
      invariant found + NamedIn(works, order[i..], k) == NamedIn(works, order, k)
    {
      ghost var rest := NamedIn(works, order[i + 1..], k);
      assert order[i..][1..] == order[i + 1..];
      assert found + ([order[i]] + rest) == found + [order[i]] + rest;
      if order[i] in works && Names(works[order[i]], k) {
        found := found + [order[i]];
      }
    }
  }

  class ApplicationReconciler {
    const apps: ApiServer<Application>
    const works: ApiServer<Work>
    const clusters: set<string>

    constructor (apps: ApiServer<Application>, works: ApiServer<Work>, clusters: set<string>)
      ensures this.apps == apps && this.works == works && this.clusters == clusters
    {
      this.apps, this.works, this.clusters := apps, works, clusters;
    }

    function View(): Hub
      reads apps, works
    {
      Hub(apps.store, works.store, clusters)
    }

    method UpdateApp(k: Key, app: Application, o: Outcome) returns (ok: bool)
      modifies apps
      ensures apps.store == AfterAppUpdate(old(apps.store), k, app, o)
      ensures k in old(apps.store) ==> (ok <==> o.Accepted?)
    {
      if k !in apps.store {
        return false;
      }
      if app.deleting && app.finalizers == [] {
        if o != Rejected {
          apps.store := apps.store - {k};
        }
        return o == Accepted;
      }
      var e := apps.Update(k, app, o);
      return e.None?;
    }

    method CleanupManifestWorksForDeletedApplication(k: Key, f: Faults) returns (ok: bool)
      modifies works
      ensures (View(), ok) == CleanupDeleted(old(View()), k, f)
    {
      if f.list != Accepted {
        return false;
      }
      var worksToDelete := WorksNaming(works.store, f.order, k);
      ghost var listed := works.store;
      for i := 0 to |worksToDelete|
        invariant DeleteEach(works.store, worksToDelete[i..], f.deleteWork) ==
                  DeleteEach(listed, worksToDelete, f.deleteWork)
      {
        var e := works.Delete(worksToDelete[i], f.deleteWork(worksToDelete[i]));
        if e.Some? && e.value != NotFound {
          return false;
        }
      }
      return true;
    }

    method ReconcileApplication(k: Key, f: Faults) returns (ok: bool)
      requires WellStored(View())
      modifies apps, works
      ensures (View(), ok) == Reconcile(old(View()), k, f)
    {
      var found := apps.Get(k, f.getApp);
      if found.Missing? {
        if found.error == NotFound {
          ok := CleanupManifestWorksForDeletedApplication(k, f);
          return;
        }
        return false;
      }
      var app := found.obj;
      var wk := WorkKey(app);
      if app.deleting {
        var finalizers := new string[|app.finalizers|](i requires 0 <= i < |app.finalizers| => app.finalizers[i]);
        assert finalizers[..] == app.finalizers;
        var n := FilterInPlace(finalizers, FINALIZER);
        var stripped := app.(finalizers := finalizers[..n]);
        var work := works.Get(wk, f.getWork);
        if work == Missing(NotFound) {
          var _ := UpdateApp(k, stripped, f.updateApp);
          return false;
        }
        if work.Missing? {
          return false;
        }
        var e := works.Delete(wk, f.deleteWork(wk));
        if e.Some? {
          return false;
        }
        ok := UpdateApp(k, stripped, f.updateApp);
        return;
      }
      if f.getCluster != Accepted || ClusterOf(app) !in clusters {
        return false;
      }
      var w := GenerateWork(app);
      var mw := works.Get(wk, f.getWork);
      if mw == Missing(NotFound) {
        var e := works.Create(wk, NewWork(w), f.writeWork);
        if e.Some? {
          return false;
        }
      } else if mw.Found? {
        var e := works.Update(wk, mw.obj.(spec := w.spec, annos := w.annos, labels := w.labels), f.writeWork);
        if e.Some? {
          return false;
        }
      } else {
        return false;
      }
      if Field("operation") in app.body.kids {
        ok := UpdateApp(k, WithoutOperation(app), f.updateApp);
        return;
      }
      return true;
    }
  }
}
