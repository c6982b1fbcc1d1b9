/** What a pass over the fleet achieves: convergence, a fixpoint, isolation of clusters, and what it leaves behind. */
module FleetLaws {
  import opened Kube
  import opened RegistrationUrl
  import opened FleetView
  import opened FleetContent
  import opened FleetStore
  import opened FleetRun

  // ---- Isolation ----

  ghost predicate AgreeOn(fl: Fleet, run: Run, run': Run, c: string) {
    && run.listed == run'.listed && run.removal(c) == run'.removal(c)
    && (forall stage, i | 0 <= i < |fl.clusters| && fl.clusters[i] == c :: run.turn(stage, i) == run'.turn(stage, i))
  }

  lemma {:induction false} StageAgrees(fl: Fleet, stage: Stage, run: Run, run': Run, sh: Shared, v: ClusterView,
                                       c: string, n: nat)
    requires n <= |fl.clusters| && AgreeOn(fl, run, run', c)
    ensures StageView(fl, stage, run, sh, v, c, n) == StageView(fl, stage, run', sh, v, c, n)
  {
    if n > 0 {
      StageAgrees(fl, stage, run, run', sh, v, c, n - 1);
    }
  }

  lemma PassAgrees(fl: Fleet, run: Run, run': Run, sh: Shared, v: ClusterView, c: string)
    requires AgreeOn(fl, run, run', c)
    ensures PassOf(fl, run, sh, v, c) == PassOf(fl, run', sh, v, c)
  {
    var n := |fl.clusters|;
    StageAgrees(fl, Importing, run, run', sh, v, c, n);
    var v1 := StageOf(fl, Importing, run, sh, v, c);
    StageAgrees(fl, DeliveringCA, run, run', sh, v1, c, n);
    var v2 := StageOf(fl, DeliveringCA, run, sh, v1, c);
    StageAgrees(fl, DeliveringCR, run, run', sh, v2, c, n);
    var v3 := StageOf(fl, DeliveringCR, run, sh, v2, c);
    StageAgrees(fl, Installing, run, run', sh, CleanupOf(fl, run, v3, c), c, n);
  }

  /** Two passes that agree on the shared calls and on a cluster end with the same objects for it, whatever happens to
      the other clusters, and even if all their objects differ to begin with. */
  lemma ClustersAreIsolated(fl: Fleet, run: Run, run': Run, st: Store, st': Store, c: string)
    requires Lists(run) && Lists(run') && AgreeOn(fl, run, run', c)
    requires View(st, fl.cfg, c) == View(st', fl.cfg, c)
    requires SharedOf(st, fl.cfg, fl.image) == SharedOf(st', fl.cfg, fl.image)
    ensures View(Pass(fl, run, st), fl.cfg, c) == View(Pass(fl, run', st'), fl.cfg, c)
  {
    PassViews(fl, run, st, c);
    PassViews(fl, run', st', c);
    PassAgrees(fl, run, run', SharedOf(st, fl.cfg, fl.image), View(st, fl.cfg, c), c);
  }

  function Count(s: seq<string>, c: string): nat {
    if s == [] then 0 else Count(s[..|s| - 1], c) + if s[|s| - 1] == c then 1 else 0
  }

  lemma CountLast(s: seq<string>, d: string, c: string)
    ensures Count(s + [d], c) == Count(s, c) + if d == c then 1 else 0
  {
    assert (s + [d])[..|s|] == s;
  }

  /** How often a name is reported depends on its own turns only. */
  lemma {:induction false} FailingCount(names: seq<string>, ok: nat -> bool, ok': nat -> bool, c: string, n: nat)
    requires n <= |names| && forall i | 0 <= i < n && names[i] == c :: ok(i) == ok'(i)
    ensures Count(Failing(names, ok, n), c) == Count(Failing(names, ok', n), c)
  {
    if n > 0 {
      FailingCount(names, ok, ok', c, n - 1);
      CountLast(Failing(names, ok, n - 1), names[n - 1], c);
      CountLast(Failing(names, ok', n - 1), names[n - 1], c);
    }
  }

  lemma OkByView(fl: Fleet, stage: Stage, run: Run, st: Store, i: nat)
    requires i < |fl.clusters|
    ensures var sh, c := SharedOf(st, fl.cfg, fl.image), fl.clusters[i];
            Oks(fl, stage, run, st)(i) ==
            Turn(fl.cfg, stage, sh, StageView(fl, stage, run, sh, View(st, fl.cfg, c), c, i), c, run.turn(stage, i)).1
  {
    StageViews(fl, stage, run, st, fl.clusters[i], i);
  }

  lemma OksAgree(fl: Fleet, stage: Stage, run: Run, run': Run, st: Store, st': Store, i: nat)
    requires i < |fl.clusters| && AgreeOn(fl, run, run', fl.clusters[i])
    requires View(st, fl.cfg, fl.clusters[i]) == View(st', fl.cfg, fl.clusters[i])
    requires SharedOf(st, fl.cfg, fl.image) == SharedOf(st', fl.cfg, fl.image)
    ensures Oks(fl, stage, run, st)(i) == Oks(fl, stage, run', st')(i)
  {
    var c := fl.clusters[i];
    OkByView(fl, stage, run, st, i);
    OkByView(fl, stage, run', st', i);
    StageAgrees(fl, stage, run, run', SharedOf(st, fl.cfg, fl.image), View(st, fl.cfg, c), c, i);
  }

  /** Nor does any of this change how often the cluster is reported as failed. */
  lemma FailuresAreIsolated(fl: Fleet, stage: Stage, run: Run, run': Run, st: Store, st': Store, c: string)
    requires AgreeOn(fl, run, run', c) && View(st, fl.cfg, c) == View(st', fl.cfg, c)
    requires SharedOf(st, fl.cfg, fl.image) == SharedOf(st', fl.cfg, fl.image)
    ensures Count(FailedIn(fl, stage, run, st), c) == Count(FailedIn(fl, stage, run', st'), c)
  {
    forall i | 0 <= i < |fl.clusters| && fl.clusters[i] == c
      ensures Oks(fl, stage, run, st)(i) == Oks(fl, stage, run', st')(i)
    {
      OksAgree(fl, stage, run, run', st, st', i);
    }
    FailingCount(fl.clusters, Oks(fl, stage, run, st), Oks(fl, stage, run', st'), c, |fl.clusters|);
  }

  // ---- Convergence ----

  ghost predicate AllServable(fl: Fleet, sh: Shared) {
    forall i | 0 <= i < |fl.clusters| :: Servable(fl.cfg, sh, fl.clusters[i])
  }

  /** Everything the stages are for, but for a CA work that cannot be read. */
  ghost predicate Converged(cfg: Config, sh: Shared, v: ClusterView, c: ByteString, was: ClusterView) {
    forall stage :: Settled(cfg, stage, sh, v, c) && (Done(cfg, stage, sh, v, c) <==> Repairable(stage, was, c))
  }

  /** What holds of a cluster's part of a stage: nothing yet, or all that the stage is for. */
  ghost predicate Reached(cfg: Config, stage: Stage, sh: Shared, w: ClusterView, v: ClusterView, c: ByteString,
                          visited: bool)
  {
    && (Repairable(stage, w, c) <==> Repairable(stage, v, c))
    && (visited ==> Settled(cfg, stage, sh, w, c) && (Done(cfg, stage, sh, w, c) <==> Repairable(stage, v, c)))
  }

  lemma TurnReaches(cfg: Config, stage: Stage, sh: Shared, w: ClusterView, v: ClusterView, c: ByteString, f: Faults)
    requires Servable(cfg, sh, c) && FaultFree(f) && Reached(cfg, stage, sh, w, v, c, false)
    ensures Reached(cfg, stage, sh, Turn(cfg, stage, sh, w, c, f).0, v, c, true)
  {
    TurnSettles(cfg, stage, sh, w, c, f);
  }

  lemma {:induction false} StageReaches(fl: Fleet, stage: Stage, run: Run, sh: Shared, v: ClusterView, c: ByteString,
                                        n: nat)
    requires n <= |fl.clusters| && NoFaults(run) && Servable(fl.cfg, sh, c)
    ensures Reached(fl.cfg, stage, sh, StageView(fl, stage, run, sh, v, c, n), v, c, c in fl.clusters[..n])
  {
    if n > 0 {
      StageReaches(fl, stage, run, sh, v, c, n - 1);
      assert fl.clusters[..n] == fl.clusters[..n - 1] + [fl.clusters[n - 1]];
      if fl.clusters[n - 1] == c {
        var w := StageView(fl, stage, run, sh, v, c, n - 1);
        assert Reached(fl.cfg, stage, sh, w, v, c, false);
        TurnReaches(fl.cfg, stage, sh, w, v, c, run.turn(stage, n - 1));
      }
    }
  }

  lemma {:induction false} StageIsLocal(fl: Fleet, stage: Stage, run: Run, sh: Shared, v: ClusterView, c: string,
                                        other: Stage, n: nat)
    requires n <= |fl.clusters| && other != stage
    ensures SamePart(other, StageView(fl, stage, run, sh, v, c, n), v)
  {
    if n > 0 {
      StageIsLocal(fl, stage, run, sh, v, c, other, n - 1);
      var w := StageView(fl, stage, run, sh, v, c, n - 1);
      TurnIsLocal(fl.cfg, stage, sh, w, fl.clusters[n - 1], run.turn(stage, n - 1), other);
    }
  }

  lemma {:induction false} StageSkips(fl: Fleet, stage: Stage, run: Run, sh: Shared, v: ClusterView, c: string, n: nat)
    requires n <= |fl.clusters| && c !in fl.clusters
    ensures StageView(fl, stage, run, sh, v, c, n) == v
  {
    if n > 0 {
      StageSkips(fl, stage, run, sh, v, c, n - 1);
    }
  }

  /** A cluster that is not placed is touched by the cleanup only. */
  lemma UnplacedPass(fl: Fleet, run: Run, sh: Shared, v: ClusterView, c: string)
    requires c !in fl.clusters
    ensures PassOf(fl, run, sh, v, c) == if ValidUser(fl.cfg.user) then CleanupOf(fl, run, v, c) else v
  {
    var n := |fl.clusters|;
    StageSkips(fl, Importing, run, sh, v, c, n);
    StageSkips(fl, DeliveringCA, run, sh, v, c, n);
    StageSkips(fl, DeliveringCR, run, sh, v, c, n);
    StageSkips(fl, Installing, run, sh, CleanupOf(fl, run, v, c), c, n);
  }

  lemma Carry(cfg: Config, stage: Stage, sh: Shared, v: ClusterView, w: ClusterView, c: ByteString)
    requires SamePart(stage, v, w) && Settled(cfg, stage, sh, v, c)
    ensures Settled(cfg, stage, sh, w, c) && Done(cfg, stage, sh, w, c) == Done(cfg, stage, sh, v, c)
  {
    SettledByPart(cfg, stage, sh, v, w, c);
    DoneByPart(cfg, stage, sh, v, w, c);
  }

  lemma PlacedPass(fl: Fleet, run: Run, sh: Shared, v: ClusterView, c: ByteString)
    requires NoFaults(run) && ValidUser(fl.cfg.user) && c in fl.clusters && Servable(fl.cfg, sh, c)
    ensures Converged(fl.cfg, sh, PassOf(fl, run, sh, v, c), c, v)
  {
    var cfg, n := fl.cfg, |fl.clusters|;
    assert fl.clusters[..n] == fl.clusters;
    StageReaches(fl, Importing, run, sh, v, c, n);
    var v1 := StageOf(fl, Importing, run, sh, v, c);
    StageReaches(fl, DeliveringCA, run, sh, v1, c, n);
    var v2 := StageOf(fl, DeliveringCA, run, sh, v1, c);
    StageReaches(fl, DeliveringCR, run, sh, v2, c, n);
    var v3 := StageOf(fl, DeliveringCR, run, sh, v2, c);
    StageReaches(fl, Installing, run, sh, v3, c, n);
    var v4 := StageOf(fl, Installing, run, sh, v3, c);
    StageIsLocal(fl, Importing, run, sh, v, c, DeliveringCA, n);
    StageIsLocal(fl, DeliveringCA, run, sh, v1, c, Importing, n);
    StageIsLocal(fl, DeliveringCR, run, sh, v2, c, Importing, n);
    StageIsLocal(fl, DeliveringCR, run, sh, v2, c, DeliveringCA, n);
    StageIsLocal(fl, Installing, run, sh, v3, c, Importing, n);
    StageIsLocal(fl, Installing, run, sh, v3, c, DeliveringCA, n);
    StageIsLocal(fl, Installing, run, sh, v3, c, DeliveringCR, n);
    assert PassOf(fl, run, sh, v, c) == v4;
    Carry(cfg, Importing, sh, v1, v4, c);
    Carry(cfg, DeliveringCA, sh, v2, v4, c);
    Carry(cfg, DeliveringCR, sh, v3, v4, c);
  }

  /** What is left of a cluster that was removed from the placement. */
  function Departed(v: ClusterView): ClusterView {
    v.(addOn := None, caWork := None, crWork := None, secret := None)
  }

  predicate HasLabelledAddOn(v: ClusterView) { v.addOn.Some? && Labelled(v.addOn.value) }

  lemma ConvergedIsComplete(cfg: Config, sh: Shared, v: ClusterView, c: ByteString, was: ClusterView)
    requires Converged(cfg, sh, v, c, was)
    ensures Complete(cfg, sh, v, c, was)
  {
    assert Settled(cfg, Importing, sh, v, c) && Done(cfg, Importing, sh, v, c);
    assert Settled(cfg, DeliveringCR, sh, v, c) && Done(cfg, DeliveringCR, sh, v, c);
    assert Settled(cfg, Installing, sh, v, c) && Done(cfg, Installing, sh, v, c);
    assert Settled(cfg, DeliveringCA, sh, v, c);
    ImportedIsConnected(cfg, sh, v, c);
    if c != "local-cluster" {
      DeliveredIsComplete(cfg, sh, v, c);
    }
    if c != "" {
      InstalledIsReady(cfg, sh, v, c);
    }
  }

  lemma PlacedConverges(fl: Fleet, run: Run, st: Store, c: ByteString)
    requires Lists(run) && NoFaults(run) && ValidUser(fl.cfg.user) && AllServable(fl, SharedOf(st, fl.cfg, fl.image))
    requires c in fl.clusters
    ensures var sh, v := SharedOf(st, fl.cfg, fl.image), View(Pass(fl, run, st), fl.cfg, c);
            Converged(fl.cfg, sh, v, c, View(st, fl.cfg, c)) && Complete(fl.cfg, sh, v, c, View(st, fl.cfg, c))
  {
    var sh := SharedOf(st, fl.cfg, fl.image);
    PassViews(fl, run, st, c);
    PlacedPass(fl, run, sh, View(st, fl.cfg, c), c);
    ConvergedIsComplete(fl.cfg, sh, View(Pass(fl, run, st), fl.cfg, c), c, View(st, fl.cfg, c));
  }

  lemma UnplacedDeparts(fl: Fleet, run: Run, st: Store, c: string)
    requires Lists(run) && NoFaults(run) && ValidUser(fl.cfg.user) && c !in fl.clusters
    ensures View(Pass(fl, run, st), fl.cfg, c) ==
            if HasLabelledAddOn(View(st, fl.cfg, c)) then Departed(View(st, fl.cfg, c)) else View(st, fl.cfg, c)
  {
    PassViews(fl, run, st, c);
    UnplacedPass(fl, run, SharedOf(st, fl.cfg, fl.image), View(st, fl.cfg, c), c);
    assert FaultFree(run.removal(c));
  }

  /** One fault-free pass serves every placed cluster, takes every removed one down but for its client certificate and
      add-on configuration, and leaves all others alone. */
  lemma FleetConverges(fl: Fleet, run: Run, st: Store)
    requires Lists(run) && NoFaults(run) && ValidUser(fl.cfg.user) && AllServable(fl, SharedOf(st, fl.cfg, fl.image))
    ensures var st', sh := Pass(fl, run, st), SharedOf(st, fl.cfg, fl.image);
            && SharedOf(st', fl.cfg, fl.image) == sh
            && (forall c: ByteString | c in fl.clusters ::
                  && Converged(fl.cfg, sh, View(st', fl.cfg, c), c, View(st, fl.cfg, c))
                  && Complete(fl.cfg, sh, View(st', fl.cfg, c), c, View(st, fl.cfg, c)))
            && (forall c: string | c !in fl.clusters ::
                  View(st', fl.cfg, c) == if HasLabelledAddOn(View(st, fl.cfg, c)) then Departed(View(st, fl.cfg, c))
                                          else View(st, fl.cfg, c))
            && (forall k | k in Listed(st'.addOns) && k.name == ADDON :: k.ns in fl.clusters)
  {
    var st' := Pass(fl, run, st);
    PassViews(fl, run, st, "");
    forall c: ByteString | c in fl.clusters {
      PlacedConverges(fl, run, st, c);
    }
    forall c: string | c !in fl.clusters {
      UnplacedDeparts(fl, run, st, c);
    }
    forall k | k in Listed(st'.addOns) && k.name == ADDON
      ensures k.ns in fl.clusters
    {
      assert k == AddOnKey(k.ns);
      assert HasLabelledAddOn(View(st', fl.cfg, k.ns));
    }
  }

  // ---- The fixpoint ----

  lemma IdleTurn(fl: Fleet, stage: Stage, run: Run, st: Store, n: nat)
    requires n < |fl.clusters| && NoFaults(run)
    requires Settled(fl.cfg, stage, SharedOf(st, fl.cfg, fl.image), View(st, fl.cfg, fl.clusters[n]), fl.clusters[n])
    ensures Next(fl, stage, run, st, n) == st
  {
    PutSame(st, fl.cfg, fl.clusters[n]);
    assert FaultFree(run.turn(stage, n));
  }

  lemma {:induction false} StageIsIdle(fl: Fleet, stage: Stage, run: Run, st: Store, n: nat)
    requires n <= |fl.clusters| && forall i | 0 <= i < n :: Next(fl, stage, run, st, i) == st
    ensures StageUpTo(fl, stage, run, st, n) == st
  {
    if n > 0 {
      StageIsIdle(fl, stage, run, st, n - 1);
      assert Next(fl, stage, run, st, n - 1) == st;
    }
  }

  lemma {:induction false} CleanupIsIdle(fl: Fleet, run: Run, st: Store, items: seq<Key>, n: nat)
    requires n <= |items| && forall k | k in items :: !Leaves(fl, k)
    ensures CleanUpTo(fl, run, st, items, n) == st
  {
    if n > 0 {
      CleanupIsIdle(fl, run, st, items, n - 1);
      assert items[n - 1] in items;
    }
  }

  /** Once converged, the next pass changes nothing, in whatever order the add-ons are listed and the variables are
      traversed. */
  lemma SecondPassIsIdle(fl: Fleet, run: Run, run': Run, st: Store)
    requires Lists(run) && NoFaults(run) && Lists(run') && NoFaults(run')
    requires ValidUser(fl.cfg.user) && AllServable(fl, SharedOf(st, fl.cfg, fl.image))
    ensures Pass(fl, run', Pass(fl, run, st)) == Pass(fl, run, st)
  {
    var st', sh, n := Pass(fl, run, st), SharedOf(st, fl.cfg, fl.image), |fl.clusters|;
    FleetConverges(fl, run, st);
    forall stage, i | 0 <= i < n
      ensures Next(fl, stage, run', st', i) == st'
    {
      var c := fl.clusters[i];
      assert Converged(fl.cfg, sh, View(st', fl.cfg, c), c, View(st, fl.cfg, c));
      IdleTurn(fl, stage, run', st', i);
    }
    AllIdle(fl, run', st');
  }

  /** The same GitOpsCluster at another time: the certificate library checks and signs differently. */
  function AtTime(fl: Fleet, valid: (Secret, string) -> bool, issue: string -> Option<(Datum, Datum)>): Fleet {
    fl.(cfg := fl.cfg.(valid := valid, issue := issue))
  }

  lemma ImportLaterIsIdle(fl: Fleet, valid: (Secret, string) -> bool, issue: string -> Option<(Datum, Datum)>,
                          sh: Shared, v: ClusterView, c: ByteString, f: Faults)
    requires Done(fl.cfg, Importing, sh, v, c) && valid(v.client.value, c) && FaultFree(f)
    ensures Import(AtTime(fl, valid, issue).cfg, sh, v, c, f) == (v, true)
  {
    ImportIsIdle(AtTime(fl, valid, issue).cfg, sh, v, c, f);
  }

  lemma TurnLaterIsIdle(fl: Fleet, valid: (Secret, string) -> bool, issue: string -> Option<(Datum, Datum)>,
                        stage: Stage, sh: Shared, v: ClusterView, c: ByteString, f: Faults)
    requires Settled(fl.cfg, stage, sh, v, c) && Done(fl.cfg, Importing, sh, v, c) && FaultFree(f)
    requires valid(v.client.value, c)
    ensures Turn(AtTime(fl, valid, issue).cfg, stage, sh, v, c, f) == (v, true)
  {
    assert Turn(fl.cfg, stage, sh, v, c, f) == (v, true);
    if stage == Importing {
      ImportLaterIsIdle(fl, valid, issue, sh, v, c, f);
    }
  }

  /** What the second pass finds at the clusters is as after the first one, and their certificates still pass. */
  ghost predicate StillValid(fl: Fleet, valid: (Secret, string) -> bool, st: Store) {
    forall i | 0 <= i < |fl.clusters| ::
      var client := View(st, fl.cfg, fl.clusters[i]).client; client.Some? && valid(client.value, fl.clusters[i])
  }

  lemma NextLaterIsIdle(fl: Fleet, valid: (Secret, string) -> bool, issue: string -> Option<(Datum, Datum)>,
                        stage: Stage, run: Run, st: Store, i: nat)
    requires i < |fl.clusters| && NoFaults(run) && StillValid(fl, valid, st)
    requires var sh, c, v := SharedOf(st, fl.cfg, fl.image), fl.clusters[i], View(st, fl.cfg, fl.clusters[i]);
             Settled(fl.cfg, stage, sh, v, c) && Done(fl.cfg, Importing, sh, v, c)
    ensures Next(AtTime(fl, valid, issue), stage, run, st, i) == st
  {
    var c := fl.clusters[i];
    assert FaultFree(run.turn(stage, i));
    TurnLaterIsIdle(fl, valid, issue, stage, SharedOf(st, fl.cfg, fl.image), View(st, fl.cfg, c), c, run.turn(stage, i));
    PutSame(st, fl.cfg, c);
  }

  lemma PlacedIsSettled(fl: Fleet, run: Run, st: Store, stage: Stage, c: ByteString)
    requires Lists(run) && NoFaults(run) && ValidUser(fl.cfg.user) && AllServable(fl, SharedOf(st, fl.cfg, fl.image))
    requires c in fl.clusters
    ensures var sh, v := SharedOf(st, fl.cfg, fl.image), View(Pass(fl, run, st), fl.cfg, c);
            && SharedOf(Pass(fl, run, st), fl.cfg, fl.image) == sh
            && Settled(fl.cfg, stage, sh, v, c) && Done(fl.cfg, Importing, sh, v, c)
  {
    var sh := SharedOf(st, fl.cfg, fl.image);
    PassViews(fl, run, st, c);
    PlacedPass(fl, run, sh, View(st, fl.cfg, c), c);
    var v := PassOf(fl, run, sh, View(st, fl.cfg, c), c);
    assert Settled(fl.cfg, Importing, sh, v, c) && Done(fl.cfg, Importing, sh, v, c);
    assert Settled(fl.cfg, stage, sh, v, c);
  }

  lemma ClientIsValid(fl: Fleet, run: Run, st: Store, c: ByteString)
    requires Lists(run) && NoFaults(run) && ValidUser(fl.cfg.user) && AllServable(fl, SharedOf(st, fl.cfg, fl.image))
    requires c in fl.clusters
    ensures var client := View(Pass(fl, run, st), fl.cfg, c).client;
            client.Some? && fl.cfg.valid(client.value, c)
  {
    PlacedIsSettled(fl, run, st, Importing, c);
  }

  /** A pass at any later time changes nothing either, as long as the stored client certificates still pass the check;
      what would be issued by then does not matter. */
  lemma LaterPassIsIdle(fl: Fleet, run: Run, run': Run, st: Store, valid: (Secret, string) -> bool,
                        issue: string -> Option<(Datum, Datum)>)
    requires Lists(run) && NoFaults(run) && Lists(run') && NoFaults(run')
    requires ValidUser(fl.cfg.user) && AllServable(fl, SharedOf(st, fl.cfg, fl.image))
    requires StillValid(fl, valid, Pass(fl, run, st))
    ensures Pass(AtTime(fl, valid, issue), run', Pass(fl, run, st)) == Pass(fl, run, st)
  {
    var st', fl' := Pass(fl, run, st), AtTime(fl, valid, issue);
    FleetConverges(fl, run, st);
    forall stage, i | 0 <= i < |fl.clusters|
      ensures Next(fl', stage, run', st', i) == st'
    {
      PlacedIsSettled(fl, run, st, stage, fl.clusters[i]);
      NextLaterIsIdle(fl, valid, issue, stage, run', st', i);
    }
    AllIdle(fl', run', st');
  }

  lemma AllIdle(fl: Fleet, run: Run, st: Store)
    requires Lists(run) && ValidUser(fl.cfg.user)
    requires forall stage, i | 0 <= i < |fl.clusters| :: Next(fl, stage, run, st, i) == st
    requires forall k | k in Listed(st.addOns) :: !Leaves(fl, k)
    ensures Pass(fl, run, st) == st
  {
    var n := |fl.clusters|;
    StageIsIdle(fl, Importing, run, st, n);
    StageIsIdle(fl, DeliveringCA, run, st, n);
    StageIsIdle(fl, DeliveringCR, run, st, n);
    StageIsIdle(fl, Installing, run, st, n);
    var items := run.order(Listed(st.addOns));
    assert Enumeration(items, Listed(st.addOns));
    CleanupIsIdle(fl, run, st, items, |items|);
  }

  // ---- What a failed removal leaves behind ----

  /** Passes in sequence, as one cluster sees them. */
  function PassesOf(passes: seq<(Fleet, Run)>, sh: Shared, v: ClusterView, c: string): ClusterView {
    if passes == [] then v else PassesOf(passes[1..], sh, PassOf(passes[0].0, passes[0].1, sh, v, c), c)
  }

  /** The cleanup finds a cluster through its add-on: once that is gone, whatever else is left stays for ever. */
  lemma {:induction false} LeftBehindForEver(passes: seq<(Fleet, Run)>, sh: Shared, v: ClusterView, c: string)
    requires !HasLabelledAddOn(v) && forall p | p in passes :: c !in p.0.clusters
    ensures PassesOf(passes, sh, v, c) == v
  {
    if passes != [] {
      assert passes[0] in passes;
      UnplacedPass(passes[0].0, passes[0].1, sh, v, c);
      LeftBehindForEver(passes[1..], sh, v, c);
    }
  }

  /** A deletion that reported an error without having happened can be repaired; nothing else can. */
  predicate Removed<T>(x: Option<T>, read: Outcome, del: Outcome) { x.None? || (read.Accepted? && !del.Rejected?) }

  predicate RemovalCompletes(v: ClusterView, f: Faults) {
    match f.o(DeleteAddOn)
    case Rejected => true
    case Lost => v.caWork.None? && v.crWork.None? && v.secret.None?
    case Accepted => Removed(v.caWork, f.o(GetCAWork), f.o(DeleteCAWork))
                     && Removed(v.crWork, f.o(GetCRWork), f.o(DeleteCRWork))
                     && Removed(v.secret, f.o(GetOldSecret), f.o(DeleteSecret))
  }

  /** Whether a removed cluster is ever cleaned is decided by its first removal: however many fault-free passes
      follow it, one or more. */
  lemma RemovalCompletesIff(fl: Fleet, first: Run, later: seq<(Fleet, Run)>, sh: Shared, v: ClusterView, c: string)
    requires HasLabelledAddOn(v) && ValidUser(fl.cfg.user) && first.listed.Accepted? && c !in fl.clusters
    requires later != [] && forall p | p in later :: c !in p.0.clusters && ValidUser(p.0.cfg.user) && NoFaults(p.1)
    ensures PassesOf([(fl, first)] + later, sh, v, c) == Departed(v) <==> RemovalCompletes(v, first.removal(c))
  {
    var f := first.removal(c);
    UnplacedPass(fl, first, sh, v, c);
    var w := RemoveCluster(v, f).0;
    assert ([(fl, first)] + later)[1..] == later;
    assert PassesOf([(fl, first)] + later, sh, v, c) == PassesOf(later, sh, w, c);
    if f.o(DeleteAddOn).Rejected? {
      assert later[0] in later && FaultFree(later[0].1.removal(c));
      UnplacedPass(later[0].0, later[0].1, sh, v, c);
      LeftBehindForEver(later[1..], sh, Departed(v), c);
    } else {
      LeftBehindForEver(later, sh, w, c);
    }
  }
}
