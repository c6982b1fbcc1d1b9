/** The spoke add-on: a periodic installer and a one-shot uninstaller that share one cluster.

    The two processes, and everybody else on the cluster, are interleaved call by call: one Event is one
    API call of one of them, with the outcome the server gives it.  A run is any sequence of events. */
module PauseProtocol {
  import opened Kube

  datatype Obj = Obj(labels: map<string, string>, annotations: map<string, string>, data: map<string, string>)

  type Store = map<Key, Obj>

  datatype Manifest = Manifest(key: Key, obj: Obj)

  /** Namespaces come from the environment; waitSeconds is CLEANUP_VERIFICATION_WAIT_SECONDS. */
  datatype Config = Config(operatorNs: string, argoCDNs: string, waitSeconds: int)

  const SKIP := "argocd-addon.open-cluster-management.io/skip"
  const CR_DELETE_TIMEOUT := 120
  const CR_POLL_INTERVAL := 5
  const VERIFY_INTERVAL := 20

  const KIND_COUNT := 8
  const NAMESPACED_KINDS := 6

  /** The kinds one delete pass visits, in order; the first six inside the operator namespace only. */
  function KindAt(i: nat): string {
    match i
    case 0 => "Deployment"
    case 1 => "Service"
    case 2 => "ServiceAccount"
    case 3 => "ConfigMap"
    case 4 => "RoleBinding"
    case 5 => "Role"
    case 6 => "ClusterRoleBinding"
    case _ => "ClusterRole"
  }

  function MarkerKey(cfg: Config): Key { Key("ConfigMap", cfg.operatorNs, "argocd-agent-addon-pause") }

  function ArgoCDKey(cfg: Config): Key { Key("ArgoCD", cfg.argoCDNs, "argocd") }

  predicate Managed(o: Obj) { Entry(o.labels, MANAGED_BY) == ADDON }

  predicate SaysPaused(o: Obj) { Entry(o.data, "paused") == "true" }

  function PauseMarker(timestamp: string): Obj {
    Obj(map["app" := ADDON], map[], map["paused" := "true", "reason" := "cleanup", "timestamp" := timestamp])
  }

  /** What IsPaused answers when its read has outcome o. */
  predicate ReadsPaused(cfg: Config, store: Store, o: Outcome) {
    var r := GetReply(store, MarkerKey(cfg), o);
    r.Found? && SaysPaused(r.obj)
  }

  predicate Selected(cfg: Config, store: Store, i: nat, k: Key)
    requires i < KIND_COUNT
  {
    k in store && k.kind == KindAt(i) && (i < NAMESPACED_KINDS ==> k.ns == cfg.operatorNs) && Managed(store[k])
  }

  function Listing(cfg: Config, store: Store, i: nat): (ks: set<Key>)
    requires i < KIND_COUNT
  {
    set k | k in store && Selected(cfg, store, i, k)
  }

  /** The labelled operator Deployments: what uninstalling has to get rid of. */
  function Deployed(cfg: Config, store: Store): set<Key> { Listing(cfg, store, 0) }

  // ---- The two programs ----

  datatype InstallerPc =
    | Idle                                                     // next: read the marker
    | Apply(todo: seq<Manifest>)                               // next: Get the first manifest's object
    | Write(m: Manifest, found: bool, rest: seq<Manifest>)   // next: Create or Update it

  datatype Pass = First | Verify(elapsed: int)

  datatype UninstallerPc =
    | CreateMarker
    | GetCR
    | DeleteCR
    | PollCR(waited: int)
    | FinalCR
    | ListKind(pass: Pass, i: nat)
    | DeleteItems(pass: Pass, i: nat, items: set<Key>)
    | Sleep(elapsed: int)
    | VerifyCR(elapsed: int)
    | VerifyDeleteCR(elapsed: int)
    | VerifyList(elapsed: int)
    | EndCR
    | EndList(crExists: bool)
    | Done(ok: bool)

  datatype State = State(store: Store, installer: InstallerPc, uninstaller: UninstallerPc, markerFailed: bool)

  datatype Event =
    | Installer(o: Outcome, rendered: seq<Manifest>)   // rendered: the chart, if this call starts an install
    | InstallerStops                                   // an install ends early (chart error, crash)
    | Uninstaller(o: Outcome, pick: Key, now: string)  // pick: the next item, if this call deletes one
    | Other(key: Key, obj: Option<Obj>)                // anyone else writes or deletes an object

  function Label(o: Obj): Obj { o.(labels := o.labels[MANAGED_BY := ADDON]) }

  function InstallerStep(cfg: Config, s: State, o: Outcome, rendered: seq<Manifest>): State {
    match s.installer
    case Idle =>
      if ReadsPaused(cfg, s.store, o) then s else s.(installer := Apply(rendered))
    case Apply(todo) =>
      if todo == [] then s.(installer := Idle)
      else
        var m := todo[0];
        (match GetReply(s.store, m.key, o)
         case Found(existing) =>
           if Entry(existing.annotations, SKIP) == "true" then s.(installer := Apply(todo[1..]))
           else s.(installer := Write(m, true, todo[1..]))
         case Missing(NotFound) => s.(installer := Write(m, false, todo[1..]))
         case Missing(_) => s.(installer := Apply(todo[1..])))
    case Write(m, there, rest) =>
      var store' := if there then AfterUpdate(s.store, m.key, Label(m.obj), o)
                    else AfterCreate(s.store, m.key, Label(m.obj), o);
      s.(store := store', installer := Apply(rest))
  }

  function UninstallerStep(cfg: Config, s: State, o: Outcome, pick: Key, now: string): State {
    match s.uninstaller
    case CreateMarker =>
      var e := CreateError(s.store, MarkerKey(cfg), o);
      s.(store := AfterCreate(s.store, MarkerKey(cfg), PauseMarker(now), o),
         markerFailed := e.Some? && e.value != AlreadyExists,
         uninstaller := GetCR)
    case GetCR =>
      (match GetReply(s.store, ArgoCDKey(cfg), o)
       case Found(_) => s.(uninstaller := DeleteCR)
       case Missing(NotFound) => s.(uninstaller := ListKind(First, 0))
       case Missing(_) => s.(uninstaller := Done(false)))
    case DeleteCR =>
      var e := WriteError(s.store, ArgoCDKey(cfg), o);
      s.(store := AfterDelete(s.store, ArgoCDKey(cfg), o),
         uninstaller := if e.Some? && e.value != NotFound then Done(false) else PollCR(0))
    case PollCR(waited) =>
      if waited >= CR_DELETE_TIMEOUT then s.(uninstaller := FinalCR)
      else if GetReply(s.store, ArgoCDKey(cfg), o) == Missing(NotFound) then s.(uninstaller := FinalCR)
      else s.(uninstaller := PollCR(waited + CR_POLL_INTERVAL))
    case FinalCR =>
      if GetReply(s.store, ArgoCDKey(cfg), o) == Missing(Failed) then s.(uninstaller := Done(false))
      else s.(uninstaller := ListKind(First, 0))
    case ListKind(pass, i) =>
      if i < KIND_COUNT then
        if o.Accepted? then s.(uninstaller := DeleteItems(pass, i, Listing(cfg, s.store, i)))
        else s.(uninstaller := ListKind(pass, i + 1))
      else
        s.(uninstaller :=
          match pass
          case First => if cfg.waitSeconds > 0 then Sleep(0) else Done(!s.markerFailed)
          case Verify(elapsed) => Sleep(elapsed))
    case DeleteItems(pass, i, items) =>
      if items == {} then s.(uninstaller := ListKind(pass, i + 1))
      else if pick in items then
        s.(store := AfterDelete(s.store, pick, o), uninstaller := DeleteItems(pass, i, items - {pick}))
      else s
    case Sleep(elapsed) =>
      if elapsed < cfg.waitSeconds then s.(uninstaller := VerifyCR(elapsed + VERIFY_INTERVAL))
      else s.(uninstaller := EndCR)
    case VerifyCR(elapsed) =>
      if GetReply(s.store, ArgoCDKey(cfg), o).Found? then s.(uninstaller := VerifyDeleteCR(elapsed))
      else s.(uninstaller := VerifyList(elapsed))
    case VerifyDeleteCR(elapsed) =>
      s.(store := AfterDelete(s.store, ArgoCDKey(cfg), o), uninstaller := VerifyList(elapsed))
    case VerifyList(elapsed) =>
      if o.Accepted? && Deployed(cfg, s.store) != {} then s.(uninstaller := ListKind(Verify(elapsed), 0))
      else s.(uninstaller := Sleep(elapsed))
    case EndCR =>
      s.(uninstaller := EndList(GetReply(s.store, ArgoCDKey(cfg), o).Found?))
    case EndList(crExists) =>
      var dirty := crExists || (o.Accepted? && Deployed(cfg, s.store) != {});
      s.(uninstaller := Done(!s.markerFailed && !dirty))
    case Done(_) => s
  }

  function Step(cfg: Config, s: State, e: Event): State {
    match e
    case Installer(o, rendered) => InstallerStep(cfg, s, o, rendered)
    case InstallerStops => s.(installer := Idle)
    case Uninstaller(o, pick, now) => UninstallerStep(cfg, s, o, pick, now)
    case Other(k, obj) => s.(store := if obj.Some? then s.store[k := obj.value] else s.store - {k})
  }

  function Run(cfg: Config, s: State, events: seq<Event>): State
    decreases |events|
  {
    if events == [] then s else Run(cfg, Step(cfg, s, events[0]), events[1..])
  }

  // ---- What the rest of the system is allowed to do ----

  /** The chart does not contain the pause marker itself. */
  predicate SafeChart(cfg: Config, rendered: seq<Manifest>) {
    forall m | m in rendered :: m.key != MarkerKey(cfg)
  }

  /** Third parties leave the marker alone and do not make labelled operator Deployments of their own;
      they may rewrite those that exist and do anything else. */
  predicate Admissible(cfg: Config, s: State, e: Event) {
    match e
    case Installer(_, rendered) => SafeChart(cfg, rendered)
    case Other(k, obj) =>
      && k != MarkerKey(cfg)
      && (obj.Some? && k.kind == KindAt(0) && k.ns == cfg.operatorNs && Managed(obj.value)
          ==> k in Deployed(cfg, s.store))
    case _ => true
  }

  predicate AdmissibleRun(cfg: Config, s: State, events: seq<Event>)
    decreases |events|
  {
    events == [] || (Admissible(cfg, s, events[0]) && AdmissibleRun(cfg, Step(cfg, s, events[0]), events[1..]))
  }

  /** No install begins on a failed read of the marker. */
  predicate MarkerReadable(s: State, e: Event) {
    e.Installer? && s.installer.Idle? ==> e.o.Accepted?
  }

  predicate MarkerReadableRun(cfg: Config, s: State, events: seq<Event>)
    decreases |events|
  {
    events == [] || (MarkerReadable(s, events[0]) && MarkerReadableRun(cfg, Step(cfg, s, events[0]), events[1..]))
  }

  predicate UninstallerFaultFree(events: seq<Event>) {
    forall e | e in events && e.Uninstaller? :: e.o.Accepted?
  }

  // ---- The marker ----

  /** A marker that pauses the installer and that no delete pass selects. */
  predicate MarkerUp(cfg: Config, store: Store) {
    MarkerKey(cfg) in store && SaysPaused(store[MarkerKey(cfg)]) && !Managed(store[MarkerKey(cfg)])
  }

  /** Work already planned by either process does not touch the marker. */
  predicate PlansSpareMarker(cfg: Config, s: State) {
    && (s.installer.Apply? ==> SafeChart(cfg, s.installer.todo))
    && (s.installer.Write? ==> s.installer.m.key != MarkerKey(cfg) && SafeChart(cfg, s.installer.rest))
    && (s.uninstaller.DeleteItems? ==> MarkerKey(cfg) !in s.uninstaller.items)
  }

  predicate Held(cfg: Config, s: State) { MarkerUp(cfg, s.store) && PlansSpareMarker(cfg, s) }

  lemma HeldStep(cfg: Config, s: State, e: Event)
    requires Held(cfg, s) && Admissible(cfg, s, e)
    ensures Held(cfg, Step(cfg, s, e))
  {
  }

  /** The marker, once up, stays up through every delete pass and every interleaving. */
  lemma {:induction false} MarkerSurvives(cfg: Config, s: State, events: seq<Event>)
    requires Held(cfg, s) && AdmissibleRun(cfg, s, events)
    ensures Held(cfg, Run(cfg, s, events))
    decreases |events|
  {
    if events != [] {
      HeldStep(cfg, s, events[0]);
      MarkerSurvives(cfg, Step(cfg, s, events[0]), events[1..]);
    }
  }

  /** Creating the marker leaves an effective one exactly when there was none and the write took effect, or
      when an effective one was already there.  Any other existing ConfigMap of that name is accepted by the
      program without a complaint although it does not pause, or will be deleted by the first pass. */
  lemma CreateMarkerExact(cfg: Config, s: State, o: Outcome, pick: Key, now: string)
    requires s.uninstaller.CreateMarker? && PlansSpareMarker(cfg, s)
    ensures var s' := UninstallerStep(cfg, s, o, pick, now);
            && (Held(cfg, s') <==> (MarkerKey(cfg) !in s.store && !o.Rejected?) || MarkerUp(cfg, s.store))
            && (s'.markerFailed <==> !o.Accepted?)
  {
  }

  // ---- Installs ----

  /** The marker is up and no install is in flight. */
  predicate Quiet(cfg: Config, s: State) { Held(cfg, s) && s.installer.Idle? }

  /** An install starts at an idle installer unless the marker both says paused and could be read: a failed
      read of the marker counts as "not paused". */
  lemma InstallStartsIff(cfg: Config, s: State, o: Outcome, rendered: seq<Manifest>)
    requires s.installer.Idle?
    ensures !Step(cfg, s, Installer(o, rendered)).installer.Idle? <==>
            !(o.Accepted? && MarkerKey(cfg) in s.store && SaysPaused(s.store[MarkerKey(cfg)]))
  {
  }

  lemma QuietStep(cfg: Config, s: State, e: Event)
    requires Quiet(cfg, s) && Admissible(cfg, s, e) && MarkerReadable(s, e)
    ensures Quiet(cfg, Step(cfg, s, e))
    ensures Deployed(cfg, Step(cfg, s, e).store) <= Deployed(cfg, s.store)
  {
    HeldStep(cfg, s, e);
  }

  /** While the marker is up and readable no new install begins, so nothing brings a Deployment back. */
  lemma {:induction false} QuietRun(cfg: Config, s: State, events: seq<Event>)
    requires Quiet(cfg, s) && AdmissibleRun(cfg, s, events) && MarkerReadableRun(cfg, s, events)
    ensures Quiet(cfg, Run(cfg, s, events))
    ensures Deployed(cfg, Run(cfg, s, events).store) <= Deployed(cfg, s.store)
    decreases |events|
  {
    if events != [] {
      QuietStep(cfg, s, events[0]);
      QuietRun(cfg, Step(cfg, s, events[0]), events[1..]);
    }
  }

  // ---- Sweeping Deployments ----

  /** The uninstaller is on its way to a delete pass, or in its pass over the Deployments and every Deployment left is
      still on its list.  A verification round starts a pass only if it sees Deployments. */
  predicate Sweeping(cfg: Config, s: State, pass: Pass) {
    match s.uninstaller
    case GetCR => pass.First?
    case DeleteCR => pass.First?
    case PollCR(_) => pass.First?
    case FinalCR => pass.First?
    case VerifyCR(elapsed) => pass == Verify(elapsed)
    case VerifyDeleteCR(elapsed) => pass == Verify(elapsed)
    case VerifyList(elapsed) => pass == Verify(elapsed)
    case ListKind(p, i) => p == pass && i == 0
    case DeleteItems(p, i, items) => p == pass && i == 0 && items != {} && Deployed(cfg, s.store) <= items
    case _ => false
  }

  lemma SweepStep(cfg: Config, s: State, e: Event, pass: Pass)
    requires Quiet(cfg, s) && Admissible(cfg, s, e) && MarkerReadable(s, e)
    requires e.Uninstaller? ==> e.o.Accepted?
    requires Sweeping(cfg, s, pass) || Deployed(cfg, s.store) == {}
    ensures var s' := Step(cfg, s, e); Sweeping(cfg, s', pass) || Deployed(cfg, s'.store) == {}
  {
    QuietStep(cfg, s, e);
  }

  lemma {:induction false} SweepRun(cfg: Config, s: State, events: seq<Event>, pass: Pass)
    requires Quiet(cfg, s) && AdmissibleRun(cfg, s, events) && MarkerReadableRun(cfg, s, events)
    requires UninstallerFaultFree(events)
    requires Sweeping(cfg, s, pass) || Deployed(cfg, s.store) == {}
    ensures var s' := Run(cfg, s, events); Sweeping(cfg, s', pass) || Deployed(cfg, s'.store) == {}
    decreases |events|
  {
    if events != [] {
      SweepStep(cfg, s, events[0], pass);
      QuietStep(cfg, s, events[0]);
      SweepRun(cfg, Step(cfg, s, events[0]), events[1..], pass);
    }
  }

  /** Main safety result.  A first pass or a verification round that starts once the marker is up and no install is in
      flight, and in which the uninstaller's own calls succeed, leaves no labelled operator Deployment when it is
      over; and none exists in any later state, whatever faults the uninstaller meets from then on. */
  lemma CleanForEver(cfg: Config, s: State, pass: Pass, round: seq<Event>, later: seq<Event>)
    requires Quiet(cfg, s) && Sweeping(cfg, s, pass)
    requires AdmissibleRun(cfg, s, round) && MarkerReadableRun(cfg, s, round) && UninstallerFaultFree(round)
    requires !Sweeping(cfg, Run(cfg, s, round), pass)
    requires var s' := Run(cfg, s, round); AdmissibleRun(cfg, s', later) && MarkerReadableRun(cfg, s', later)
    ensures Deployed(cfg, Run(cfg, Run(cfg, s, round), later).store) == {}
  {
    SweepRun(cfg, s, round, pass);
    QuietRun(cfg, s, round);
    QuietRun(cfg, Run(cfg, s, round), later);
  }

  lemma {:induction false} RunConcat(cfg: Config, s: State, a: seq<Event>, b: seq<Event>)
    ensures Run(cfg, s, a + b) == Run(cfg, Run(cfg, s, a), b)
    decreases |a|
  {
    if a == [] {
      assert a + b == b;
    } else {
      assert (a + b)[1..] == a[1..] + b;
      RunConcat(cfg, Step(cfg, s, a[0]), a[1..], b);
    }
  }

  /** The whole story from the uninstaller's first call: the marker write takes effect on a cluster without a marker,
      or an effective one is there from an earlier attempt; an install may still be in flight and run to its end; then
      one pass or one verification round without faults is enough. */
  lemma UninstallIsFinal(cfg: Config, s: State, o: Outcome, pick: Key, now: string,
                         drain: seq<Event>, pass: Pass, round: seq<Event>, later: seq<Event>)
    requires s.uninstaller.CreateMarker? && PlansSpareMarker(cfg, s)
    requires (MarkerKey(cfg) !in s.store && !o.Rejected?) || MarkerUp(cfg, s.store)
    requires AdmissibleRun(cfg, UninstallerStep(cfg, s, o, pick, now), drain)
    requires var s1 := Run(cfg, UninstallerStep(cfg, s, o, pick, now), drain);
             && s1.installer.Idle? && Sweeping(cfg, s1, pass)
             && AdmissibleRun(cfg, s1, round) && MarkerReadableRun(cfg, s1, round) && UninstallerFaultFree(round)
             && !Sweeping(cfg, Run(cfg, s1, round), pass)
             && AdmissibleRun(cfg, Run(cfg, s1, round), later)
             && MarkerReadableRun(cfg, Run(cfg, s1, round), later)
    ensures var all := [Uninstaller(o, pick, now)] + drain + round + later;
            Deployed(cfg, Run(cfg, s, all).store) == {} && MarkerUp(cfg, Run(cfg, s, all).store)
  {
    var s0 := UninstallerStep(cfg, s, o, pick, now);
    CreateMarkerExact(cfg, s, o, pick, now);
    MarkerSurvives(cfg, s0, drain);
    var s1 := Run(cfg, s0, drain);
    CleanForEver(cfg, s1, pass, round, later);
    QuietRun(cfg, s1, round);
    QuietRun(cfg, Run(cfg, s1, round), later);
    var first := [Uninstaller(o, pick, now)];
    assert first[1..] == [];
    assert Run(cfg, s, first) == Run(cfg, s0, []) == s0;
    RunConcat(cfg, s, first + drain + round, later);
    RunConcat(cfg, s, first + drain, round);
    RunConcat(cfg, s, first, drain);
  }

  // ---- One delete pass over all kinds ----

  /** Nobody else makes a labelled object of a kind the pass deletes. */
  ghost predicate Tame(cfg: Config, s: State, e: Event) {
    && Admissible(cfg, s, e) && MarkerReadable(s, e)
    && (e.Other? && e.obj.Some? && Managed(e.obj.value) ==>
          e.key in s.store && Managed(s.store[e.key]))
  }

  ghost predicate TameRun(cfg: Config, s: State, events: seq<Event>)
    decreases |events|
  {
    events == [] || (Tame(cfg, s, events[0]) && TameRun(cfg, Step(cfg, s, events[0]), events[1..]))
  }

  predicate NoneOf(cfg: Config, store: Store, i: nat)
    requires i < KIND_COUNT
  {
    Listing(cfg, store, i) == {}
  }

  ghost predicate AllGone(cfg: Config, store: Store) { forall i: nat | i < KIND_COUNT :: NoneOf(cfg, store, i) }

  /** Before the pass, or in it: the kinds visited so far are gone, and what is left of the current one is still on the
      list. */
  ghost predicate Clearing(cfg: Config, s: State, pass: Pass) {
    match s.uninstaller
    case GetCR => pass.First?
    case DeleteCR => pass.First?
    case PollCR(_) => pass.First?
    case FinalCR => pass.First?
    case ListKind(p, i) => p == pass && i <= KIND_COUNT && forall j: nat | j < i :: NoneOf(cfg, s.store, j)
    case DeleteItems(p, i, items) =>
      && p == pass && i < KIND_COUNT && (forall j: nat | j < i :: NoneOf(cfg, s.store, j))
      && Listing(cfg, s.store, i) <= items
    case _ => false
  }

  lemma ListingShrinks(cfg: Config, s: State, e: Event, i: nat)
    requires Quiet(cfg, s) && Tame(cfg, s, e) && i < KIND_COUNT
    ensures Listing(cfg, Step(cfg, s, e).store, i) <= Listing(cfg, s.store, i)
  {
    var s' := Step(cfg, s, e);
    forall k | k in Listing(cfg, s'.store, i)
      ensures k in Listing(cfg, s.store, i)
    {
      ManagedWasThere(cfg, s, e, k);
    }
  }

  lemma ManagedWasThere(cfg: Config, s: State, e: Event, k: Key)
    requires Quiet(cfg, s) && Tame(cfg, s, e)
    requires k in Step(cfg, s, e).store && Managed(Step(cfg, s, e).store[k])
    ensures k in s.store && Managed(s.store[k])
  {
  }

  lemma AllShrink(cfg: Config, s: State, e: Event)
    requires Quiet(cfg, s) && Tame(cfg, s, e)
    ensures forall j: nat | j < KIND_COUNT ::
              && Listing(cfg, Step(cfg, s, e).store, j) <= Listing(cfg, s.store, j)
              && (NoneOf(cfg, s.store, j) ==> NoneOf(cfg, Step(cfg, s, e).store, j))
  {
    forall j: nat | j < KIND_COUNT
      ensures Listing(cfg, Step(cfg, s, e).store, j) <= Listing(cfg, s.store, j)
    {
      ListingShrinks(cfg, s, e, j);
    }
  }

  lemma ClearOwnStep(cfg: Config, s: State, e: Event, pass: Pass)
    requires Quiet(cfg, s) && Tame(cfg, s, e) && e.Uninstaller? && e.o.Accepted? && Clearing(cfg, s, pass)
    ensures Clearing(cfg, Step(cfg, s, e), pass) || AllGone(cfg, Step(cfg, s, e).store)
  {
    AllShrink(cfg, s, e);
    if s.uninstaller.DeleteItems? && s.uninstaller.items == {} {
      assert NoneOf(cfg, s.store, s.uninstaller.i);
    }
  }

  lemma ClearStep(cfg: Config, s: State, e: Event, pass: Pass)
    requires Quiet(cfg, s) && Tame(cfg, s, e) && (e.Uninstaller? ==> e.o.Accepted?)
    requires Clearing(cfg, s, pass) || AllGone(cfg, s.store)
    ensures Clearing(cfg, Step(cfg, s, e), pass) || AllGone(cfg, Step(cfg, s, e).store)
  {
    AllShrink(cfg, s, e);
    if AllGone(cfg, s.store) {
      assert AllGone(cfg, Step(cfg, s, e).store);
    } else if e.Uninstaller? {
      ClearOwnStep(cfg, s, e, pass);
    } else {
      assert Step(cfg, s, e).uninstaller == s.uninstaller;
    }
  }

  /** From before a fault-free pass: either it is still under way, or no labelled object of any of the eight kinds is
      left, whatever else goes on. */
  lemma {:induction false} PassClearsEveryKind(cfg: Config, s: State, events: seq<Event>, pass: Pass)
    requires Quiet(cfg, s) && TameRun(cfg, s, events) && UninstallerFaultFree(events)
    requires Clearing(cfg, s, pass) || AllGone(cfg, s.store)
    ensures var s' := Run(cfg, s, events); Quiet(cfg, s') && (Clearing(cfg, s', pass) || AllGone(cfg, s'.store))
    decreases |events|
  {
    if events != [] {
      ClearStep(cfg, s, events[0], pass);
      QuietStep(cfg, s, events[0]);
      PassClearsEveryKind(cfg, Step(cfg, s, events[0]), events[1..], pass);
    }
  }

  /** And none comes back, whatever faults the uninstaller meets later. */
  lemma {:induction false} KindStaysGone(cfg: Config, s: State, later: seq<Event>, i: nat)
    requires Quiet(cfg, s) && TameRun(cfg, s, later) && i < KIND_COUNT && NoneOf(cfg, s.store, i)
    ensures NoneOf(cfg, Run(cfg, s, later).store, i)
    decreases |later|
  {
    if later != [] {
      ListingShrinks(cfg, s, later[0], i);
      QuietStep(cfg, s, later[0]);
      KindStaysGone(cfg, Step(cfg, s, later[0]), later[1..], i);
    }
  }

  /** The default program, which ends after its first pass.  If no install is in flight once the marker is up, at the
      latest when the pass starts, and the uninstaller's calls succeed, then no labelled object of any of the eight
      kinds is left when it is through, or in any later state. */
  lemma FirstPassIsFinal(cfg: Config, s: State, events: seq<Event>, later: seq<Event>)
    requires Quiet(cfg, s) && (s.uninstaller == GetCR || s.uninstaller == ListKind(First, 0))
    requires TameRun(cfg, s, events) && UninstallerFaultFree(events)
    requires !Clearing(cfg, Run(cfg, s, events), First) || Run(cfg, s, events).uninstaller == ListKind(First, KIND_COUNT)
    requires TameRun(cfg, Run(cfg, s, events), later)
    ensures AllGone(cfg, Run(cfg, Run(cfg, s, events), later).store)
  {
    PassClearsEveryKind(cfg, s, events, First);
    var s' := Run(cfg, s, events);
    assert AllGone(cfg, s'.store);
    forall i: nat | i < KIND_COUNT
      ensures NoneOf(cfg, Run(cfg, s', later).store, i)
    {
      KindStaysGone(cfg, s', later, i);
    }
  }

  // ---- What the hypotheses are for ----

  /** The program succeeds in two places: after its first pass, when no verification is configured, and after its last
      look at the cluster, which takes a failed List for "clean". */
  lemma SuccessIff(cfg: Config, s: State, o: Outcome, pick: Key, now: string)
    requires !s.uninstaller.Done?
    ensures UninstallerStep(cfg, s, o, pick, now).uninstaller == Done(true) <==>
            && !s.markerFailed
            && (|| (EndsUnverified(cfg, s.uninstaller))
                || (s.uninstaller == EndList(false) && (o.Accepted? ==> Deployed(cfg, s.store) == {})))
  {
  }

  /** The end of the first pass, with CLEANUP_VERIFICATION_WAIT_SECONDS unset, zero or negative. */
  predicate EndsUnverified(cfg: Config, pc: UninstallerPc) {
    pc.ListKind? && pc.pass.First? && pc.i >= KIND_COUNT && cfg.waitSeconds <= 0
  }

  function OneDeployment(cfg: Config): Store {
    map[Key(KindAt(0), cfg.operatorNs, "operator") := Obj(map[MANAGED_BY := ADDON], map[], map[])]
  }

  /** A success report says that no labelled operator Deployment is there exactly when it comes from a last List that
      worked: not in the default configuration, and not when that List failed. */
  lemma SuccessMeansCleanIff(cfg: Config, pc: UninstallerPc, o: Outcome, pick: Key, now: string)
    requires !pc.Done?
    ensures (forall s: State | s.uninstaller == pc && UninstallerStep(cfg, s, o, pick, now).uninstaller == Done(true) ::
               Deployed(cfg, UninstallerStep(cfg, s, o, pick, now).store) == {}) <==>
            !EndsUnverified(cfg, pc) && (pc == EndList(false) ==> o.Accepted?)
  {
    var left := State(OneDeployment(cfg), Idle, pc, false);
    assert Key(KindAt(0), cfg.operatorNs, "operator") in Deployed(cfg, left.store);
    SuccessIff(cfg, left, o, pick, now);
    if !EndsUnverified(cfg, pc) && (pc == EndList(false) ==> o.Accepted?) {
      forall s: State | s.uninstaller == pc && UninstallerStep(cfg, s, o, pick, now).uninstaller == Done(true)
        ensures Deployed(cfg, UninstallerStep(cfg, s, o, pick, now).store) == {}
      {
        SuccessIff(cfg, s, o, pick, now);
      }
    } else {
      assert UninstallerStep(cfg, left, o, pick, now).store == left.store;
      assert UninstallerStep(cfg, left, o, pick, now).uninstaller == Done(true);
    }
  }

  // ---- The uninstaller comes to an end ----

  function Positive(n: int): nat { if n > 0 then n else 0 }

  function KindsLeft(i: nat): nat { if i <= KIND_COUNT then KIND_COUNT - i else 0 }

  function LoopAhead(cfg: Config, elapsed: int): nat { 3 + 30 * Positive(cfg.waitSeconds - elapsed) }

  /** How many program steps, at most, lie ahead of the uninstaller, not counting single deletions. */
  function StepsAhead(cfg: Config, pc: UninstallerPc): nat {
    match pc
    case CreateMarker => LoopAhead(cfg, 0) + 200
    case GetCR => LoopAhead(cfg, 0) + 199
    case DeleteCR => LoopAhead(cfg, 0) + 198
    case PollCR(waited) => LoopAhead(cfg, 0) + 22 + Positive(CR_DELETE_TIMEOUT - waited)
    case FinalCR => LoopAhead(cfg, 0) + 21
    case ListKind(pass, i) => AfterPass(cfg, pass) + 2 + 2 * KindsLeft(i)
    case DeleteItems(pass, i, _) => AfterPass(cfg, pass) + 1 + 2 * KindsLeft(i)
    case Sleep(e) => LoopAhead(cfg, e)
    case VerifyCR(e) => LoopAhead(cfg, e) + 29
    case VerifyDeleteCR(e) => LoopAhead(cfg, e) + 28
    case VerifyList(e) => LoopAhead(cfg, e) + 27
    case EndCR => 2
    case EndList(_) => 1
    case Done(_) => 0
  }

  function AfterPass(cfg: Config, pass: Pass): nat { LoopAhead(cfg, if pass.First? then 0 else pass.elapsed) }

  function ItemsAhead(pc: UninstallerPc): nat { if pc.DeleteItems? then |pc.items| else 0 }

  predicate InProgram(pc: UninstallerPc) {
    && (pc.ListKind? ==> pc.i <= KIND_COUNT)
    && (pc.DeleteItems? ==> pc.i < KIND_COUNT)
  }

  predicate Nearer(cfg: Config, pc: UninstallerPc, pc': UninstallerPc) {
    || StepsAhead(cfg, pc') < StepsAhead(cfg, pc)
    || (StepsAhead(cfg, pc') == StepsAhead(cfg, pc) && ItemsAhead(pc') < ItemsAhead(pc))
  }

  lemma PassProgress(cfg: Config, s: State, o: Outcome, pick: Key, now: string)
    requires InProgram(s.uninstaller) && (s.uninstaller.DeleteItems? || s.uninstaller.ListKind?)
    requires s.uninstaller.DeleteItems? && s.uninstaller.items != {} ==> pick in s.uninstaller.items
    ensures Nearer(cfg, s.uninstaller, UninstallerStep(cfg, s, o, pick, now).uninstaller)
  {
    if s.uninstaller.DeleteItems? && s.uninstaller.items != {} {
      assert s.uninstaller.items == (s.uninstaller.items - {pick}) + {pick};
    }
  }

  lemma PollProgress(cfg: Config, s: State, o: Outcome, pick: Key, now: string)
    requires s.uninstaller.CreateMarker? || s.uninstaller.GetCR? || s.uninstaller.DeleteCR? || s.uninstaller.PollCR?
             || s.uninstaller.FinalCR?
    ensures Nearer(cfg, s.uninstaller, UninstallerStep(cfg, s, o, pick, now).uninstaller)
  {
  }

  lemma VerifyProgress(cfg: Config, s: State, o: Outcome, pick: Key, now: string)
    requires s.uninstaller.Sleep? || s.uninstaller.VerifyCR? || s.uninstaller.VerifyDeleteCR? || s.uninstaller.VerifyList?
             || s.uninstaller.EndCR? || s.uninstaller.EndList?
    ensures Nearer(cfg, s.uninstaller, UninstallerStep(cfg, s, o, pick, now).uninstaller)
  {
  }

  /** Every call of the uninstaller brings it nearer to its end, whatever the outcomes and whatever the other
      processes do in between: both polling loops and all delete passes are finite. */
  lemma UninstallerProgress(cfg: Config, s: State, o: Outcome, pick: Key, now: string)
    requires InProgram(s.uninstaller) && !s.uninstaller.Done?
    requires s.uninstaller.DeleteItems? && s.uninstaller.items != {} ==> pick in s.uninstaller.items
    ensures Nearer(cfg, s.uninstaller, UninstallerStep(cfg, s, o, pick, now).uninstaller)
  {
    if s.uninstaller.DeleteItems? || s.uninstaller.ListKind? {
      PassProgress(cfg, s, o, pick, now);
    } else if s.uninstaller.CreateMarker? || s.uninstaller.GetCR? || s.uninstaller.DeleteCR? || s.uninstaller.PollCR?
              || s.uninstaller.FinalCR? {
      PollProgress(cfg, s, o, pick, now);
    } else {
      VerifyProgress(cfg, s, o, pick, now);
    }
  }

  lemma StaysInProgram(cfg: Config, s: State, o: Outcome, pick: Key, now: string)
    requires InProgram(s.uninstaller)
    ensures InProgram(UninstallerStep(cfg, s, o, pick, now).uninstaller)
  {
  }
}
