/** The installer as the imperative program it is: one marker check, then a loop over the chart, while everybody else
    goes on between any two of its calls.  What a reconcile does is proved to be the one run of the machine in module
    PauseProtocol that the others' events and the outcomes of its calls determine. */
module Installer {
  import opened Kube
  import opened PauseProtocol

  predicate OfOthers(events: seq<Event>) { forall e | e in events :: e.Uninstaller? || e.Other? }

  /** Others neither see nor change where the installer is. */
  lemma {:induction false} OthersRun(cfg: Config, s: State, events: seq<Event>, pc: InstallerPc)
    requires OfOthers(events)
    ensures Run(cfg, s.(installer := pc), events) == Run(cfg, s, events).(installer := pc)
    ensures Run(cfg, s, events).installer == s.installer
    decreases |events|
  {
    if events != [] {
      assert events[0] in events;
      OtherStep(cfg, s, events[0], pc);
      OthersRun(cfg, Step(cfg, s, events[0]), events[1..], pc);
    }
  }

  lemma OtherStep(cfg: Config, s: State, e: Event, pc: InstallerPc)
    requires e.Uninstaller? || e.Other?
    ensures Step(cfg, s.(installer := pc), e) == Step(cfg, s, e).(installer := pc)
    ensures Step(cfg, s, e).installer == s.installer
  {
    if e.Uninstaller? {
      StepBlind(cfg, s, e.o, e.pick, e.now, pc);
      StepBlind(cfg, s, e.o, e.pick, e.now, s.installer);
      assert s.(installer := s.installer) == s;
    }
  }

  predicate Verifying(pc: UninstallerPc) {
    pc.Sleep? || pc.VerifyCR? || pc.VerifyDeleteCR? || pc.VerifyList? || pc.EndCR? || pc.EndList? || pc.Done?
  }

  lemma StepBlind(cfg: Config, s: State, o: Outcome, pick: Key, now: string, pc: InstallerPc)
    ensures UninstallerStep(cfg, s.(installer := pc), o, pick, now) ==
            UninstallerStep(cfg, s, o, pick, now).(installer := pc)
  {
    if Verifying(s.uninstaller) {
      VerifyBlind(cfg, s, o, pick, now, pc);
    } else if s.uninstaller.ListKind? || s.uninstaller.DeleteItems? {
      PassBlind(cfg, s, o, pick, now, pc);
    } else {
      StartBlind(cfg, s, o, pick, now, pc);
    }
  }

  lemma VerifyBlind(cfg: Config, s: State, o: Outcome, pick: Key, now: string, pc: InstallerPc)
    requires Verifying(s.uninstaller)
    ensures UninstallerStep(cfg, s.(installer := pc), o, pick, now) ==
            UninstallerStep(cfg, s, o, pick, now).(installer := pc)
  {
  }

  lemma PassBlind(cfg: Config, s: State, o: Outcome, pick: Key, now: string, pc: InstallerPc)
    requires s.uninstaller.ListKind? || s.uninstaller.DeleteItems?
    ensures UninstallerStep(cfg, s.(installer := pc), o, pick, now) ==
            UninstallerStep(cfg, s, o, pick, now).(installer := pc)
  {
  }

  lemma StartBlind(cfg: Config, s: State, o: Outcome, pick: Key, now: string, pc: InstallerPc)
    requires !Verifying(s.uninstaller) && !s.uninstaller.ListKind? && !s.uninstaller.DeleteItems?
    ensures UninstallerStep(cfg, s.(installer := pc), o, pick, now) ==
            UninstallerStep(cfg, s, o, pick, now).(installer := pc)
  {
  }

  /** What the others do before the n-th call, and the outcome of that call. */
  datatype Surroundings = Surroundings(env: nat -> seq<Event>, outcome: nat -> Outcome)

  ghost predicate Proper(sur: Surroundings) { forall n :: OfOthers(sur.env(n)) }

  /** calls: how many calls the program has made. */
  datatype World = World(s: State, calls: nat)

  function AtCall(cfg: Config, sur: Surroundings, w: World): (s: State)
    requires Proper(sur)
    ensures s.installer == w.s.installer
  {
    OthersRun(cfg, w.s, sur.env(w.calls), w.s.installer);
    Run(cfg, w.s, sur.env(w.calls))
  }

  /** The end of an install takes no call; every other step is one. */
  predicate Thinking(pc: InstallerPc) { pc == Apply([]) }

  function Next(cfg: Config, sur: Surroundings, w: World, rendered: seq<Manifest>): World
    requires Proper(sur)
  {
    if Thinking(w.s.installer) then w.(s := InstallerStep(cfg, w.s, Accepted, rendered))
    else World(InstallerStep(cfg, AtCall(cfg, sur, w), sur.outcome(w.calls), rendered), w.calls + 1)
  }

  function EventsOf(sur: Surroundings, w: World, rendered: seq<Manifest>): seq<Event> {
    if Thinking(w.s.installer) then [Event.Installer(Accepted, rendered)]
    else sur.env(w.calls) + [Event.Installer(sur.outcome(w.calls), rendered)]
  }

  function StepsLeft(pc: InstallerPc): nat {
    match pc
    case Idle => 0
    case Apply(todo) => 2 * |todo| + 1
    case Write(_, _, rest) => 2 * |rest| + 2
  }

  /** An install under way, run to its end. */
  function Rest(cfg: Config, sur: Surroundings, w: World): (r: World)
    requires Proper(sur)
    ensures r.s.installer.Idle?
    decreases StepsLeft(w.s.installer)
  {
    if w.s.installer.Idle? then w else Rest(cfg, sur, Next(cfg, sur, w, []))
  }

  function RestTrace(cfg: Config, sur: Surroundings, w: World): seq<Event>
    requires Proper(sur)
    decreases StepsLeft(w.s.installer)
  {
    if w.s.installer.Idle? then [] else EventsOf(sur, w, []) + RestTrace(cfg, sur, Next(cfg, sur, w, []))
  }

  /** One reconcile: the marker is read, and unless it is read as paused the chart is applied. */
  function Whole(cfg: Config, sur: Surroundings, w: World, rendered: seq<Manifest>): World
    requires Proper(sur) && w.s.installer.Idle?
  {
    Rest(cfg, sur, Next(cfg, sur, w, rendered))
  }

  function Trace(cfg: Config, sur: Surroundings, w: World, rendered: seq<Manifest>): seq<Event>
    requires Proper(sur) && w.s.installer.Idle?
  {
    EventsOf(sur, w, rendered) + RestTrace(cfg, sur, Next(cfg, sur, w, rendered))
  }

  lemma NextIsRun(cfg: Config, sur: Surroundings, w: World, rendered: seq<Manifest>)
    requires Proper(sur)
    ensures Run(cfg, w.s, EventsOf(sur, w, rendered)) == Next(cfg, sur, w, rendered).s
  {
    var events := EventsOf(sur, w, rendered);
    var own := events[|events| - 1];
    assert [own][1..] == [];
    var at := if Thinking(w.s.installer) then w.s else AtCall(cfg, sur, w);
    assert Run(cfg, at, [own]) == Run(cfg, Step(cfg, at, own), []);
    if !Thinking(w.s.installer) {
      RunConcat(cfg, w.s, sur.env(w.calls), [own]);
    }
  }

  lemma {:induction false} RestIsRun(cfg: Config, sur: Surroundings, w: World)
    requires Proper(sur)
    ensures Run(cfg, w.s, RestTrace(cfg, sur, w)) == Rest(cfg, sur, w).s
    decreases StepsLeft(w.s.installer)
  {
    if !w.s.installer.Idle? {
      var w' := Next(cfg, sur, w, []);
      NextIsRun(cfg, sur, w, []);
      RunConcat(cfg, w.s, EventsOf(sur, w, []), RestTrace(cfg, sur, w'));
      RestIsRun(cfg, sur, w');
    }
  }

  /** A reconcile is a run of the machine. */
  lemma WholeIsRun(cfg: Config, sur: Surroundings, w: World, rendered: seq<Manifest>)
    requires Proper(sur) && w.s.installer.Idle?
    ensures Run(cfg, w.s, Trace(cfg, sur, w, rendered)) == Whole(cfg, sur, w, rendered).s
  {
    var w' := Next(cfg, sur, w, rendered);
    NextIsRun(cfg, sur, w, rendered);
    RunConcat(cfg, w.s, EventsOf(sur, w, rendered), RestTrace(cfg, sur, w'));
    RestIsRun(cfg, sur, w');
  }

  lemma {:induction false} ReadableParts(cfg: Config, s: State, a: seq<Event>, b: seq<Event>)
    ensures MarkerReadableRun(cfg, s, a + b) <==>
            MarkerReadableRun(cfg, s, a) && MarkerReadableRun(cfg, Run(cfg, s, a), b)
    decreases |a|
  {
    if a == [] {
      assert a + b == b;
    } else {
      assert (a + b)[1..] == a[1..] + b;
      ReadableParts(cfg, Step(cfg, s, a[0]), a[1..], b);
    }
  }

  lemma {:induction false} OthersReadNoMarker(cfg: Config, s: State, events: seq<Event>)
    requires OfOthers(events)
    ensures MarkerReadableRun(cfg, s, events)
    decreases |events|
  {
    if events != [] {
      assert events[0] in events;
      OthersReadNoMarker(cfg, Step(cfg, s, events[0]), events[1..]);
    }
  }

  lemma OneStepReads(cfg: Config, sur: Surroundings, w: World, rendered: seq<Manifest>)
    requires Proper(sur)
    ensures MarkerReadableRun(cfg, w.s, EventsOf(sur, w, rendered)) <==>
            (w.s.installer.Idle? ==> sur.outcome(w.calls).Accepted?)
  {
    var events := EventsOf(sur, w, rendered);
    var own := events[|events| - 1];
    assert [own][1..] == [];
    if !Thinking(w.s.installer) {
      OthersReadNoMarker(cfg, w.s, sur.env(w.calls));
      ReadableParts(cfg, w.s, sur.env(w.calls), [own]);
      var at := AtCall(cfg, sur, w);
      assert MarkerReadableRun(cfg, at, [own]) == (MarkerReadable(at, own) && MarkerReadableRun(cfg, Step(cfg, at, own), []));
    }
  }

  lemma {:induction false} RestReadsNoMarker(cfg: Config, sur: Surroundings, w: World)
    requires Proper(sur)
    ensures MarkerReadableRun(cfg, w.s, RestTrace(cfg, sur, w))
    decreases StepsLeft(w.s.installer)
  {
    if !w.s.installer.Idle? {
      var w' := Next(cfg, sur, w, []);
      OneStepReads(cfg, sur, w, []);
      NextIsRun(cfg, sur, w, []);
      ReadableParts(cfg, w.s, EventsOf(sur, w, []), RestTrace(cfg, sur, w'));
      RestReadsNoMarker(cfg, sur, w');
    }
  }

  /** The marker is read once, by the first call, and never again: whether the reconcile keeps to the hypothesis of the
      protocol's safety results is decided by that call. */
  lemma OneMarkerRead(cfg: Config, sur: Surroundings, w: World, rendered: seq<Manifest>)
    requires Proper(sur) && w.s.installer.Idle?
    ensures MarkerReadableRun(cfg, w.s, Trace(cfg, sur, w, rendered)) <==> sur.outcome(w.calls).Accepted?
  {
    var w' := Next(cfg, sur, w, rendered);
    OneStepReads(cfg, sur, w, rendered);
    NextIsRun(cfg, sur, w, rendered);
    ReadableParts(cfg, w.s, EventsOf(sur, w, rendered), RestTrace(cfg, sur, w'));
    RestReadsNoMarker(cfg, sur, w');
  }

  // ---- What an install leaves on the cluster ----

  /** The manifest's object with the add-on's label, and nothing else changed. */
  predicate Installed(o: Obj, m: Obj) {
    && o.labels == m.labels["app.kubernetes.io/managed-by" := "argocd-agent-addon"]
    && o.annotations == m.annotations && o.data == m.data
  }

  /** Whatever a step of the installer changes in the store, in any state and with any outcome, is the object of the
      manifest at hand in that form; it never removes anything. */
  lemma InstallerWritesLabelled(cfg: Config, s: State, o: Outcome, rendered: seq<Manifest>, k: Key)
    ensures var s' := Step(cfg, s, Event.Installer(o, rendered));
            && (k in s.store ==> k in s'.store)
            && (k in s'.store && (k !in s.store || s'.store[k] != s.store[k]) ==>
                  s.installer.Write? && k == s.installer.m.key && Installed(s'.store[k], s.installer.m.obj))
  {
  }

  predicate Planned(pc: InstallerPc, rendered: seq<Manifest>) {
    && (pc.Apply? ==> forall m | m in pc.todo :: m in rendered)
    && (pc.Write? ==> pc.m in rendered && forall m | m in pc.rest :: m in rendered)
  }

  /** Nothing but the chart is ever planned, over every run in which each install gets its manifests from it. */
  lemma {:induction false} OnlyTheChartIsPlanned(cfg: Config, s: State, events: seq<Event>, chart: seq<Manifest>)
    requires Planned(s.installer, chart)
    requires forall e | e in events && e.Installer? :: forall m | m in e.rendered :: m in chart
    ensures Planned(Run(cfg, s, events).installer, chart)
    decreases |events|
  {
    if events != [] {
      assert events[0] in events;
      OneStepPlans(cfg, s, events[0], chart);
      OnlyTheChartIsPlanned(cfg, Step(cfg, s, events[0]), events[1..], chart);
    }
  }

  lemma OneStepPlans(cfg: Config, s: State, e: Event, chart: seq<Manifest>)
    requires Planned(s.installer, chart) && (e.Installer? ==> forall m | m in e.rendered :: m in chart)
    ensures Planned(Step(cfg, s, e).installer, chart)
  {
    if e.Uninstaller? {
      OtherStep(cfg, s, e, s.installer);
    }
  }

  predicate DistinctKeys(ms: seq<Manifest>) { forall i, j | 0 <= i < j < |ms| :: ms[i].key != ms[j].key }

  predicate Skipped(store: Store, k: Key) {
    && k in store && "argocd-addon.open-cluster-management.io/skip" in store[k].annotations
    && store[k].annotations["argocd-addon.open-cluster-management.io/skip"] == "true"
  }

  /** The chart is on the cluster, but for objects that were marked to be skipped, which are as they were. */
  predicate ChartInstalled(before: Store, after: Store, ms: seq<Manifest>) {
    && (forall i | 0 <= i < |ms| :: ms[i].key in after
          && if Skipped(before, ms[i].key) then after[ms[i].key] == before[ms[i].key]
             else Installed(after[ms[i].key], ms[i].obj))
    && (forall k | k in before && (forall i | 0 <= i < |ms| :: ms[i].key != k) :: k in after && after[k] == before[k])
    && (forall k | k in after && (forall i | 0 <= i < |ms| :: ms[i].key != k) :: k in before)
  }

  ghost predicate Alone(sur: Surroundings) { forall n :: sur.env(n) == [] && sur.outcome(n).Accepted? }

  /** One manifest: the call that looks, and the call that writes unless the object is to be skipped. */
  function AfterManifest(store: Store, m: Manifest): Store {
    if Skipped(store, m.key) then store
    else store[m.key := m.obj.(labels := m.obj.labels["app.kubernetes.io/managed-by" := "argocd-agent-addon"])]
  }

  /** The world once the first manifest is dealt with. */
  function Past(w: World): World
    requires w.s.installer.Apply? && w.s.installer.todo != []
  {
    var m := w.s.installer.todo[0];
    World(w.s.(installer := Apply(w.s.installer.todo[1..]), store := AfterManifest(w.s.store, m)),
          w.calls + if Skipped(w.s.store, m.key) then 1 else 2)
  }

  lemma SkipAlone(cfg: Config, sur: Surroundings, w: World)
    requires Proper(sur) && Alone(sur) && w.s.installer.Apply? && w.s.installer.todo != []
    ensures var m := w.s.installer.todo[0];
            Next(cfg, sur, w, []) ==
            if Skipped(w.s.store, m.key) then Past(w)
            else World(w.s.(installer := Write(m, m.key in w.s.store, w.s.installer.todo[1..])), w.calls + 1)
  {
    assert sur.env(w.calls) == [] && sur.outcome(w.calls).Accepted?;
  }

  lemma WriteAlone(cfg: Config, sur: Surroundings, w: World)
    requires Proper(sur) && Alone(sur) && w.s.installer.Write?
    requires w.s.installer.found == (w.s.installer.m.key in w.s.store) && !Skipped(w.s.store, w.s.installer.m.key)
    ensures Next(cfg, sur, w, []) ==
            World(w.s.(installer := Apply(w.s.installer.rest), store := AfterManifest(w.s.store, w.s.installer.m)),
                  w.calls + 1)
  {
    assert sur.env(w.calls) == [] && sur.outcome(w.calls).Accepted?;
  }

  lemma ManifestAlone(cfg: Config, sur: Surroundings, w: World)
    requires Proper(sur) && Alone(sur) && w.s.installer.Apply? && w.s.installer.todo != []
    ensures Rest(cfg, sur, w) == Rest(cfg, sur, Past(w))
  {
    var w1 := Next(cfg, sur, w, []);
    SkipAlone(cfg, sur, w);
    assert Rest(cfg, sur, w) == Rest(cfg, sur, w1);
    if !Skipped(w.s.store, w.s.installer.todo[0].key) {
      WriteAlone(cfg, sur, w1);
      assert Rest(cfg, sur, w1) == Rest(cfg, sur, Next(cfg, sur, w1, []));
    }
  }

  lemma {:induction false} RestInstalls(cfg: Config, sur: Surroundings, w: World)
    requires Proper(sur) && Alone(sur) && w.s.installer.Apply? && DistinctKeys(w.s.installer.todo)
    ensures ChartInstalled(w.s.store, Rest(cfg, sur, w).s.store, w.s.installer.todo)
    decreases |w.s.installer.todo|
  {
    var todo := w.s.installer.todo;
    if todo == [] {
      assert Rest(cfg, sur, w) == Rest(cfg, sur, Next(cfg, sur, w, []));
    } else {
      ManifestAlone(cfg, sur, w);
      RestInstalls(cfg, sur, Past(w));
      OneMore(w.s.store, Past(w).s.store, Rest(cfg, sur, w).s.store, todo);
    }
  }

  lemma OneMore(before: Store, mid: Store, after: Store, todo: seq<Manifest>)
    requires todo != [] && DistinctKeys(todo) && mid == AfterManifest(before, todo[0])
    requires ChartInstalled(mid, after, todo[1..])
    ensures ChartInstalled(before, after, todo)
  {
    var rest := todo[1..];
    assert forall i | 0 <= i < |rest| :: rest[i] == todo[i + 1] && rest[i].key != todo[0].key;
    forall i | 0 <= i < |todo|
      ensures todo[i].key in after && if Skipped(before, todo[i].key) then after[todo[i].key] == before[todo[i].key]
                                      else Installed(after[todo[i].key], todo[i].obj)
    {
      if i > 0 {
        assert todo[i] == rest[i - 1];
      }
    }
    forall k | forall i | 0 <= i < |todo| :: todo[i].key != k
      ensures (k in before <==> k in after) && (k in before ==> after[k] == before[k])
    {
      assert forall i | 0 <= i < |rest| :: rest[i].key != k;
    }
  }

  /** An install that nothing disturbs, begun unless the marker pauses it, puts the whole chart on the cluster under the
      label by which the uninstaller finds it, spares what is marked to be skipped, and touches nothing else. */
  lemma ReconcileInstalls(cfg: Config, sur: Surroundings, w: World, rendered: seq<Manifest>)
    requires Proper(sur) && Alone(sur) && w.s.installer.Idle? && DistinctKeys(rendered)
    ensures var after := Whole(cfg, sur, w, rendered).s.store;
            if MarkerKey(cfg) in w.s.store && Entry(w.s.store[MarkerKey(cfg)].data, "paused") == "true"
            then after == w.s.store else ChartInstalled(w.s.store, after, rendered)
  {
    assert sur.env(w.calls) == [] && sur.outcome(w.calls).Accepted?;
    var w1 := Next(cfg, sur, w, rendered);
    if w1.s.installer.Apply? {
      RestInstalls(cfg, sur, w1);
    }
  }

  class Process {
    const cfg: Config
    const sur: Surroundings
    /** The cluster and the uninstaller; the installer field is not used. */
    var others: State
    var calls: nat
    ghost var pc: InstallerPc

    ghost function Now(): World
      reads this
    {
      World(others.(installer := pc), calls)
    }

    ghost predicate Valid()
      reads this
    {
      Proper(sur) && others.installer.Idle?
    }

    /** The world in which the install under way will end. */
    ghost function End(): World
      requires Valid()
      reads this
    {
      Rest(cfg, sur, Now())
    }

    constructor (cfg: Config, sur: Surroundings, others: State)
      requires Proper(sur) && others.installer.Idle?
      ensures Valid() && this.cfg == cfg && this.sur == sur && Now() == World(others, 0)
    {
      this.cfg, this.sur, this.others, calls := cfg, sur, others, 0;
      pc := Idle;
    }

    /** The others go on; then the server answers. */
    method Advance() returns (o: Outcome)
      requires Valid()
      modifies this
      ensures Valid() && pc == old(pc)
      ensures o == sur.outcome(old(calls)) && Now() == World(AtCall(cfg, sur, old(Now())), old(calls) + 1)
    {
      OthersRun(cfg, Now().s, sur.env(calls), Idle);
      o := sur.outcome(calls);
      others, calls := Run(cfg, others, sur.env(calls)), calls + 1;
    }

    /** The program is where the machine is after the same step. */
    ghost method Follow(w: World, rendered: seq<Manifest>)
      requires Valid()
      requires var w' := Next(cfg, sur, w, rendered); others == w'.s.(installer := Idle) && calls == w'.calls
      modifies this`pc
      ensures Valid() && Now() == Next(cfg, sur, w, rendered)
    {
      pc := Next(cfg, sur, w, rendered).s.installer;
    }

    method IsPaused(ghost rendered: seq<Manifest>) returns (paused: bool)
      requires Valid() && pc.Idle?
      modifies this
      ensures Valid() && Now() == Next(cfg, sur, old(Now()), rendered)
      ensures paused == ReadsPaused(cfg, AtCall(cfg, sur, old(Now())).store, sur.outcome(old(calls)))
    {
      ghost var w := Now();
      var o := Advance();
      var r := GetReply(others.store, MarkerKey(cfg), o);
      paused := r.Found? && Entry(r.obj.data, "paused") == "true";
      Follow(w, rendered);
    }

    method ApplyManifest(m: Manifest, ghost rest: seq<Manifest>) returns (ok: bool)
      requires Valid() && pc == Apply([m] + rest)
      modifies this
      ensures Valid() && End() == old(End()) && pc == Apply(rest)
    {
      ghost var w := Now();
      assert ([m] + rest)[1..] == rest;
      var o := Advance();
      var existing := GetReply(others.store, m.key, o);
      Follow(w, []);
      if existing.Missing? && existing.error != NotFound {
        return false;
      }
      if existing.Found? && Entry(existing.obj.annotations, SKIP) == "true" {
        return true;
      }
      ok := WriteManifest(m, existing.Found?, rest);
    }

    method WriteManifest(m: Manifest, found: bool, ghost rest: seq<Manifest>) returns (ok: bool)
      requires Valid() && pc == Write(m, found, rest)
      modifies this
      ensures Valid() && End() == old(End()) && pc == Apply(rest)
    {
      ghost var w := Now();
      var o := Advance();
      if found {
        ok := WriteError(others.store, m.key, o).None?;
        others := others.(store := AfterUpdate(others.store, m.key, Label(m.obj), o));
      } else {
        ok := CreateError(others.store, m.key, o).None?;
        others := others.(store := AfterCreate(others.store, m.key, Label(m.obj), o));
      }
      Follow(w, []);
    }

    /** One periodic reconcile; a manifest that fails does not stop the others. */
    method Reconcile(rendered: seq<Manifest>)
      requires Valid() && pc.Idle?
      modifies this
      ensures Valid() && pc.Idle? && Now() == Whole(cfg, sur, old(Now()), rendered)
      ensures Alone(sur) && DistinctKeys(rendered) && !ReadsPaused(cfg, old(others.store), Accepted) ==>
                ChartInstalled(old(others.store), others.store, rendered)
    {
      ghost var start := Now();
      if Alone(sur) && DistinctKeys(rendered) {
        ReconcileInstalls(cfg, sur, start, rendered);
      }
      var paused := IsPaused(rendered);
      if paused {
        return;
      }
      ghost var end := End();
      assert rendered[0..] == rendered;
      for i := 0 to |rendered|
        invariant Valid() && End() == end && pc == Apply(rendered[i..])
      {
        assert rendered[i..] == [rendered[i]] + rendered[i + 1..];
        var _ := ApplyManifest(rendered[i], rendered[i + 1..]);
      }
      assert rendered[|rendered|..] == [];
      ghost var last := Now();
      Follow(last, []);
      assert Rest(cfg, sur, last) == Rest(cfg, sur, Now()) == Now();
    }
  }
}
