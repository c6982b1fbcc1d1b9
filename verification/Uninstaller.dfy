/** The uninstaller as the imperative program it is, run against a cluster on which everybody else goes on between
    any two of its calls.  What the program does is proved to be the one run of the machine in module PauseProtocol that
    the others' events and the outcomes of its calls determine. */
module Uninstaller {
  import opened Kube
  import opened PauseProtocol
  import opened UninstallLaws

  predicate OfOthers(events: seq<Event>) { forall e | e in events :: !e.Uninstaller? }

  function With(s: State, pc: UninstallerPc, failed: bool): State { s.(uninstaller := pc, markerFailed := failed) }

  /** Others neither see nor change where the uninstaller is. */
  lemma {:induction false} OthersRun(cfg: Config, s: State, events: seq<Event>, pc: UninstallerPc, failed: bool)
    requires OfOthers(events)
    ensures Run(cfg, With(s, pc, failed), events) == With(Run(cfg, s, events), pc, failed)
    ensures var s' := Run(cfg, s, events); s'.uninstaller == s.uninstaller && s'.markerFailed == s.markerFailed
    decreases |events|
  {
    if events != [] {
      assert events[0] in events;
      assert Step(cfg, With(s, pc, failed), events[0]) == With(Step(cfg, s, events[0]), pc, failed);
      OthersRun(cfg, Step(cfg, s, events[0]), events[1..], pc, failed);
    }
  }

  /** A step without any call; every other step of the program is one call. */
  predicate Thinking(pc: UninstallerPc) {
    (pc.PollCR? && pc.waited >= CR_DELETE_TIMEOUT) || (pc.ListKind? && pc.i >= KIND_COUNT)
    || (pc.DeleteItems? && pc.items == {}) || pc.Sleep?
  }

  /** A call that only looks at the cluster. */
  predicate Looking(pc: UninstallerPc) {
    && !Thinking(pc)
    && (pc.GetCR? || pc.PollCR? || pc.FinalCR? || pc.VerifyCR? || pc.EndCR? || pc.ListKind? || pc.VerifyList?
        || pc.EndList?)
  }

  const NO_KEY := Key("", "", "")

  /** The cluster as the program meets it: what the others do before its n-th call, the outcome of that call, which of
      the listed objects comes next, and the time the marker is stamped with. */
  datatype Surroundings = Surroundings(env: nat -> seq<Event>, outcome: nat -> Outcome, choose: set<Key> -> Key,
                                       now: string)

  ghost predicate Proper(sur: Surroundings) {
    && (forall n :: OfOthers(sur.env(n)))
    && (forall items: set<Key> :: items != {} ==> sur.choose(items) in items)
  }

  /** calls: how many calls the program has made. */
  datatype World = World(s: State, calls: nat)

  function Pick(sur: Surroundings, pc: UninstallerPc): Key {
    if pc.DeleteItems? && pc.items != {} then sur.choose(pc.items) else NO_KEY
  }

  /** The state in which the next call is answered. */
  function AtCall(cfg: Config, sur: Surroundings, w: World): (s: State)
    requires Proper(sur)
    ensures s.uninstaller == w.s.uninstaller && s.markerFailed == w.s.markerFailed
  {
    OthersRun(cfg, w.s, sur.env(w.calls), w.s.uninstaller, false);
    Run(cfg, w.s, sur.env(w.calls))
  }

  /** The program's next step: without a call, or after the others' events and with the outcome of its call. */
  function Next(cfg: Config, sur: Surroundings, w: World): World
    requires Proper(sur)
  {
    var pick := Pick(sur, w.s.uninstaller);
    if Thinking(w.s.uninstaller) then w.(s := UninstallerStep(cfg, w.s, Accepted, pick, sur.now))
    else World(UninstallerStep(cfg, AtCall(cfg, sur, w), sur.outcome(w.calls), pick, sur.now), w.calls + 1)
  }

  function EventsOf(cfg: Config, sur: Surroundings, w: World): seq<Event> {
    var pick := Pick(sur, w.s.uninstaller);
    if Thinking(w.s.uninstaller) then [Event.Uninstaller(Accepted, pick, sur.now)]
    else sur.env(w.calls) + [Event.Uninstaller(sur.outcome(w.calls), pick, sur.now)]
  }

  lemma NextIsNearer(cfg: Config, sur: Surroundings, w: World)
    requires Proper(sur) && InProgram(w.s.uninstaller) && !w.s.uninstaller.Done?
    ensures InProgram(Next(cfg, sur, w).s.uninstaller)
    ensures Nearer(cfg, w.s.uninstaller, Next(cfg, sur, w).s.uninstaller)
  {
    var pc, pick := w.s.uninstaller, Pick(sur, w.s.uninstaller);
    var at := if Thinking(pc) then w.s else AtCall(cfg, sur, w);
    var o := if Thinking(pc) then Accepted else sur.outcome(w.calls);
    UninstallerProgress(cfg, at, o, pick, sur.now);
    StaysInProgram(cfg, at, o, pick, sur.now);
  }

  /** The program run to its end: both polling loops and all delete passes are finite, whatever the surroundings. */
  function Whole(cfg: Config, sur: Surroundings, w: World): (r: World)
    requires Proper(sur) && InProgram(w.s.uninstaller)
    ensures r.s.uninstaller.Done?
    decreases StepsAhead(cfg, w.s.uninstaller), ItemsAhead(w.s.uninstaller)
  {
    if w.s.uninstaller.Done? then w else NextIsNearer(cfg, sur, w); Whole(cfg, sur, Next(cfg, sur, w))
  }

  /** Everything that happens on the cluster meanwhile. */
  function Trace(cfg: Config, sur: Surroundings, w: World): seq<Event>
    requires Proper(sur) && InProgram(w.s.uninstaller)
    decreases StepsAhead(cfg, w.s.uninstaller), ItemsAhead(w.s.uninstaller)
  {
    if w.s.uninstaller.Done? then []
    else NextIsNearer(cfg, sur, w); EventsOf(cfg, sur, w) + Trace(cfg, sur, Next(cfg, sur, w))
  }

  lemma NextIsRun(cfg: Config, sur: Surroundings, w: World)
    requires Proper(sur)
    ensures Run(cfg, w.s, EventsOf(cfg, sur, w)) == Next(cfg, sur, w).s
  {
    var events := EventsOf(cfg, sur, w);
    var own := events[|events| - 1];
    assert [own][1..] == [];
    var at := if Thinking(w.s.uninstaller) then w.s else AtCall(cfg, sur, w);
    assert Run(cfg, at, [own]) == Run(cfg, Step(cfg, at, own), []);
    if !Thinking(w.s.uninstaller) {
      RunConcat(cfg, w.s, sur.env(w.calls), [own]);
    }
  }

  /** The program's run is a run of the machine. */
  lemma {:induction false} WholeIsRun(cfg: Config, sur: Surroundings, w: World)
    requires Proper(sur) && InProgram(w.s.uninstaller)
    ensures Run(cfg, w.s, Trace(cfg, sur, w)) == Whole(cfg, sur, w).s
    decreases StepsAhead(cfg, w.s.uninstaller), ItemsAhead(w.s.uninstaller)
  {
    if !w.s.uninstaller.Done? {
      NextIsNearer(cfg, sur, w);
      NextIsRun(cfg, sur, w);
      RunConcat(cfg, w.s, EventsOf(cfg, sur, w), Trace(cfg, sur, Next(cfg, sur, w)));
      WholeIsRun(cfg, sur, Next(cfg, sur, w));
    }
  }

  lemma {:induction false} AcceptedIsFaultFree(cfg: Config, sur: Surroundings, w: World)
    requires Proper(sur) && InProgram(w.s.uninstaller) && forall n :: sur.outcome(n).Accepted?
    ensures UninstallerFaultFree(Trace(cfg, sur, w))
    decreases StepsAhead(cfg, w.s.uninstaller), ItemsAhead(w.s.uninstaller)
  {
    if !w.s.uninstaller.Done? {
      NextIsNearer(cfg, sur, w);
      AcceptedIsFaultFree(cfg, sur, Next(cfg, sur, w));
      assert OfOthers(sur.env(w.calls));
    }
  }

  lemma {:induction false} AdmissibleParts(cfg: Config, s: State, a: seq<Event>, b: seq<Event>)
    requires AdmissibleRun(cfg, s, a + b) && MarkerReadableRun(cfg, s, a + b)
    ensures AdmissibleRun(cfg, s, a) && MarkerReadableRun(cfg, s, a)
    ensures AdmissibleRun(cfg, Run(cfg, s, a), b) && MarkerReadableRun(cfg, Run(cfg, s, a), b)
    decreases |a|
  {
    if a == [] {
      assert a + b == b;
    } else {
      assert (a + b)[1..] == a[1..] + b;
      AdmissibleParts(cfg, Step(cfg, s, a[0]), a[1..], b);
    }
  }

  // ---- End to end ----

  /** No call of the uninstaller fails, it finds no marker or an effective one, and the others keep to their part from
      then on; at some point before or in a sweep no install is in flight. */
  ghost predicate Undisturbed(cfg: Config, sur: Surroundings, w: World)
    requires Proper(sur)
  {
    && w.s.uninstaller.CreateMarker? && (forall n :: sur.outcome(n).Accepted?)
    && PlansSpareMarker(cfg, AtCall(cfg, sur, w))
    && (MarkerKey(cfg) !in AtCall(cfg, sur, w).store || MarkerUp(cfg, AtCall(cfg, sur, w).store))
    && var w' := Next(cfg, sur, w);
       NextIsNearer(cfg, sur, w);
       var rest := Trace(cfg, sur, w');
       && AdmissibleRun(cfg, w'.s, rest) && MarkerReadableRun(cfg, w'.s, rest)
       && exists n, pass :: 0 <= n <= |rest| && Run(cfg, w'.s, rest[..n]).installer.Idle?
                            && Sweeping(cfg, Run(cfg, w'.s, rest[..n]), pass)
  }

  /** Such an uninstall ends with the marker up and no labelled operator Deployment, also in the default configuration
      without verification. */
  lemma UndisturbedEndsClean(cfg: Config, sur: Surroundings, w: World)
    requires Proper(sur) && Undisturbed(cfg, sur, w)
    ensures var s := Whole(cfg, sur, w).s; Deployed(cfg, s.store) == {} && MarkerUp(cfg, s.store)
  {
    var at, w' := AtCall(cfg, sur, w), Next(cfg, sur, w);
    NextIsNearer(cfg, sur, w);
    var rest := Trace(cfg, sur, w');
    CreateMarkerExact(cfg, at, sur.outcome(w.calls), NO_KEY, sur.now);
    AcceptedIsFaultFree(cfg, sur, w');
    WholeIsRun(cfg, sur, w');
    var n, pass :| 0 <= n <= |rest| && Run(cfg, w'.s, rest[..n]).installer.Idle?
                   && Sweeping(cfg, Run(cfg, w'.s, rest[..n]), pass);
    assert rest == rest[..n] + rest[n..];
    SweptFrom(cfg, w'.s, rest[..n], rest[n..], pass);
  }

  lemma SweptFrom(cfg: Config, s: State, a: seq<Event>, b: seq<Event>, pass: Pass)
    requires Held(cfg, s) && AdmissibleRun(cfg, s, a + b) && MarkerReadableRun(cfg, s, a + b)
    requires UninstallerFaultFree(a + b) && Run(cfg, s, a + b).uninstaller.Done?
    requires Run(cfg, s, a).installer.Idle? && Sweeping(cfg, Run(cfg, s, a), pass)
    ensures Deployed(cfg, Run(cfg, s, a + b).store) == {} && MarkerUp(cfg, Run(cfg, s, a + b).store)
  {
    AdmissibleParts(cfg, s, a, b);
    RunConcat(cfg, s, a, b);
    MarkerSurvives(cfg, s, a);
    MarkerSurvives(cfg, s, a + b);
    CleanForEver(cfg, Run(cfg, s, a), pass, b, []);
  }

  /** And if no install is in flight once the marker is written and nobody else makes labelled objects, then none of any
      of the eight kinds is left. */
  lemma QuietUninstallClearsEveryKind(cfg: Config, sur: Surroundings, w: World)
    requires Proper(sur) && Undisturbed(cfg, sur, w) && Next(cfg, sur, w).s.installer.Idle?
    requires InProgram(Next(cfg, sur, w).s.uninstaller)
    requires TameRun(cfg, Next(cfg, sur, w).s, Trace(cfg, sur, Next(cfg, sur, w)))
    ensures AllGone(cfg, Whole(cfg, sur, w).s.store)
  {
    var w' := Next(cfg, sur, w);
    CreateMarkerExact(cfg, AtCall(cfg, sur, w), sur.outcome(w.calls), NO_KEY, sur.now);
    AcceptedIsFaultFree(cfg, sur, w');
    WholeIsRun(cfg, sur, w');
    PassClearsEveryKind(cfg, w'.s, Trace(cfg, sur, w'), First);
  }

  /** The uninstall proper.  If nobody else makes the ArgoCD object, it is gone whenever the program reports success, and
      at its end if none of its calls fails; and success is reported only after the object was reported absent or was
      deleted and waited for. */
  lemma UninstallRemovesArgoCD(cfg: Config, sur: Surroundings, w: World)
    requires Proper(sur) && w.s.uninstaller.CreateMarker?
    ensures var s, events := Whole(cfg, sur, w).s, Trace(cfg, sur, w);
            && (SparesRun(cfg, w.s, events) && (s.uninstaller == Done(true) || forall n :: sur.outcome(n).Accepted?) ==>
                  ArgoCDKey(cfg) !in s.store)
            && (s.uninstaller == Done(true) ==> DealtWith(WatchRun(cfg, w.s, events, NOTHING)))
  {
    var events := Trace(cfg, sur, w);
    WholeIsRun(cfg, sur, w);
    NoPassBeforeArgoCDIsDealtWith(cfg, w.s, events);
    if SparesRun(cfg, w.s, events) {
      SuccessMeansArgoCDGone(cfg, w.s, events);
    }
    if forall n :: sur.outcome(n).Accepted? {
      AcceptedIsFaultFree(cfg, sur, w);
    }
  }

  class Process {
    const cfg: Config
    const sur: Surroundings
    var store: Store
    var installer: InstallerPc
    var calls: nat
    ghost var pc: UninstallerPc
    ghost var markerFailed: bool

    ghost function Now(): World
      reads this
    {
      World(State(store, installer, pc, markerFailed), calls)
    }

    ghost predicate Valid()
      reads this
    {
      Proper(sur) && InProgram(pc)
    }

    /** The world in which the program will end. */
    ghost function End(): World
      requires Valid()
      reads this
    {
      Whole(cfg, sur, Now())
    }

    constructor (cfg: Config, sur: Surroundings, store: Store, installer: InstallerPc)
      requires Proper(sur)
      ensures Valid() && this.cfg == cfg && this.sur == sur
      ensures Now() == World(State(store, installer, CreateMarker, false), 0)
    {
      this.cfg, this.sur, this.store, this.installer, calls := cfg, sur, store, installer, 0;
      pc, markerFailed := CreateMarker, false;
    }

    // ---- The calls ----

    /** The others go on; then the server answers. */
    method Advance() returns (o: Outcome)
      requires Valid()
      modifies this
      ensures Valid() && pc == old(pc) && markerFailed == old(markerFailed)
      ensures o == sur.outcome(old(calls)) && Now() == World(AtCall(cfg, sur, old(Now())), old(calls) + 1)
    {
      OthersRun(cfg, Now().s, sur.env(calls), CreateMarker, false);
      o := sur.outcome(calls);
      var after := Run(cfg, State(store, installer, CreateMarker, false), sur.env(calls));
      store, installer, calls := after.store, after.installer, calls + 1;
    }

    /** The program is where the machine is after the same step. */
    ghost method Follow(w: World, o: Outcome)
      requires Proper(sur) && InProgram(w.s.uninstaller) && !w.s.uninstaller.Done?
      requires var w' := Next(cfg, sur, w);
               store == w'.s.store && installer == w'.s.installer && calls == w'.calls
      modifies this`pc, this`markerFailed
      ensures Valid() && Now() == Next(cfg, sur, w) && End() == Whole(cfg, sur, w)
    {
      NextIsNearer(cfg, sur, w);
      pc, markerFailed := Next(cfg, sur, w).s.uninstaller, Next(cfg, sur, w).s.markerFailed;
    }

    ghost method Think()
      requires Valid() && Thinking(pc)
      modifies this`pc, this`markerFailed
      ensures Valid() && Now() == Next(cfg, sur, old(Now())) && End() == old(End())
    {
      Follow(Now(), Accepted);
    }

    method Get(k: Key) returns (r: Reply<Obj>)
      requires Valid() && Looking(pc)
      modifies this
      ensures Valid() && Now() == Next(cfg, sur, old(Now())) && End() == old(End())
      ensures r == GetReply(AtCall(cfg, sur, old(Now())).store, k, sur.outcome(old(calls)))
    {
      ghost var w := Now();
      var o := Advance();
      r := GetReply(store, k, o);
      Follow(w, o);
    }

    method List(i: nat) returns (items: Option<set<Key>>)
      requires Valid() && Looking(pc) && i < KIND_COUNT
      modifies this
      ensures Valid() && Now() == Next(cfg, sur, old(Now())) && End() == old(End())
      ensures items == if sur.outcome(old(calls)).Accepted? then Some(Listing(cfg, AtCall(cfg, sur, old(Now())).store, i))
                       else None
    {
      ghost var w := Now();
      var o := Advance();
      items := if o == Accepted then Some(Listing(cfg, store, i)) else None;
      Follow(w, o);
    }

    method Delete(k: Key) returns (e: Option<Error>)
      requires Valid()
      requires if pc.DeleteItems? then pc.items != {} && k == sur.choose(pc.items)
               else (pc.DeleteCR? || pc.VerifyDeleteCR?) && k == ArgoCDKey(cfg)
      modifies this
      ensures Valid() && Now() == Next(cfg, sur, old(Now())) && End() == old(End())
      ensures e == WriteError(AtCall(cfg, sur, old(Now())).store, k, sur.outcome(old(calls)))
    {
      ghost var w := Now();
      var o := Advance();
      e := WriteError(store, k, o);
      store := AfterDelete(store, k, o);
      Follow(w, o);
    }

    // ---- The program ----

    method CreatePauseMarker() returns (ok: bool)
      requires Valid() && pc.CreateMarker?
      modifies this
      ensures Valid() && Now() == Next(cfg, sur, old(Now())) && End() == old(End())
      ensures pc == GetCR && ok == !markerFailed
    {
      ghost var w := Now();
      var o := Advance();
      var e := CreateError(store, MarkerKey(cfg), o);
      store := AfterCreate(store, MarkerKey(cfg), PauseMarker(sur.now), o);
      Follow(w, o);
      ok := e.None? || e.value == AlreadyExists;
    }

    method DeleteArgoCD() returns (ok: bool)
      requires Valid() && pc == GetCR
      modifies this
      ensures Valid() && End() == old(End()) && markerFailed == old(markerFailed)
      ensures pc == if ok then ListKind(First, 0) else Done(false)
    {
      var r := Get(ArgoCDKey(cfg));
      if r.Missing? {
        return r.error == NotFound;
      }
      var e := Delete(ArgoCDKey(cfg));
      if e.Some? && e.value != NotFound {
        return false;
      }
      ok := AwaitDeletion();
    }

    method AwaitDeletion() returns (ok: bool)
      requires Valid() && pc == PollCR(0)
      modifies this
      ensures Valid() && End() == old(End()) && markerFailed == old(markerFailed)
      ensures pc == if ok then ListKind(First, 0) else Done(false)
    {
      var elapsed, gone := 0, false;
      while elapsed < CR_DELETE_TIMEOUT && !gone
        invariant Valid() && End() == old(End()) && markerFailed == old(markerFailed)
        invariant pc == if gone then FinalCR else PollCR(elapsed)
        decreases CR_DELETE_TIMEOUT - elapsed, !gone
      {
        var r := Get(ArgoCDKey(cfg));
        if r == Missing(NotFound) {
          gone := true;
        } else {
          elapsed := elapsed + CR_POLL_INTERVAL;
        }
      }
      if !gone {
        Think();
      }
      var r := Get(ArgoCDKey(cfg));
      ok := r.Found? || r.error == NotFound;
    }

    method DeleteKind(ghost pass: Pass, i: nat)
      requires Valid() && i < KIND_COUNT && pc == ListKind(pass, i)
      modifies this
      ensures Valid() && End() == old(End()) && markerFailed == old(markerFailed) && pc == ListKind(pass, i + 1)
    {
      var list := List(i);
      if list.Some? {
        DeleteEach(pass, i, list.value);
      }
    }

    method DeleteEach(ghost pass: Pass, ghost i: nat, all: set<Key>)
      requires Valid() && pc == DeleteItems(pass, i, all)
      modifies this
      ensures Valid() && End() == old(End()) && markerFailed == old(markerFailed) && pc == ListKind(pass, i + 1)
    {
      var items := all;
      while items != {}
        invariant Valid() && End() == old(End()) && markerFailed == old(markerFailed)
        invariant pc == DeleteItems(pass, i, items)
        decreases |items|
      {
        var k := sur.choose(items);
        var _ := Delete(k);
        items := items - {k};
      }
      Think();
    }

    method DeleteOperatorResources(ghost pass: Pass)
      requires Valid() && pc == ListKind(pass, 0)
      modifies this
      ensures Valid() && End() == old(End()) && markerFailed == old(markerFailed) && pc == ListKind(pass, KIND_COUNT)
    {
      for i := 0 to NAMESPACED_KINDS
        invariant Valid() && End() == old(End()) && markerFailed == old(markerFailed) && pc == ListKind(pass, i)
      {
        DeleteKind(pass, i);
      }
      for i := NAMESPACED_KINDS to KIND_COUNT
        invariant Valid() && End() == old(End()) && markerFailed == old(markerFailed) && pc == ListKind(pass, i)
      {
        DeleteKind(pass, i);
      }
    }

    /** Whether Deployments are left, as far as the list call can tell. */
    method VerifyNamespaceCleanup() returns (exist: bool)
      requires Valid() && (pc.VerifyList? || pc.EndList?)
      modifies this
      ensures Valid() && Now() == Next(cfg, sur, old(Now())) && End() == old(End())
      ensures exist == (sur.outcome(old(calls)).Accepted? && Deployed(cfg, AtCall(cfg, sur, old(Now())).store) != {})
    {
      var items := List(0);
      exist := items.Some? && items.value != {};
    }

    method VerifyOnce(ghost elapsed: int)
      requires Valid() && pc == VerifyCR(elapsed)
      modifies this
      ensures Valid() && End() == old(End()) && markerFailed == old(markerFailed) && pc == Sleep(elapsed)
    {
      DeleteArgoCDAgain(elapsed);
      var exist := VerifyNamespaceCleanup();
      if exist {
        DeleteOperatorResources(Verify(elapsed));
        Think();
      }
    }

    method DeleteArgoCDAgain(ghost elapsed: int)
      requires Valid() && pc == VerifyCR(elapsed)
      modifies this
      ensures Valid() && End() == old(End()) && markerFailed == old(markerFailed) && pc == VerifyList(elapsed)
    {
      var r := Get(ArgoCDKey(cfg));
      if r.Found? {
        var _ := Delete(ArgoCDKey(cfg));
      }
    }

    method WaitAndVerifyCleanup() returns (ok: bool)
      requires Valid() && pc == Sleep(0)
      modifies this
      ensures Valid() && End() == old(End()) && markerFailed == old(markerFailed) && pc == Done(!markerFailed && ok)
    {
      var elapsed := 0;
      while elapsed < cfg.waitSeconds
        invariant Valid() && End() == old(End()) && markerFailed == old(markerFailed) && pc == Sleep(elapsed)
        decreases cfg.waitSeconds - elapsed
      {
        Think();
        elapsed := elapsed + VERIFY_INTERVAL;
        VerifyOnce(elapsed);
      }
      Think();
      var r := Get(ArgoCDKey(cfg));
      var exist := VerifyNamespaceCleanup();
      ok := !(r.Found? || exist);
    }

    /** The program as a whole: where it leaves the cluster, how many calls it makes and what it answers is what the
        machine's run gives.  Undisturbed, it leaves no labelled operator Deployment. */
    method UninstallArgoCDAgent() returns (ok: bool)
      requires Valid() && pc.CreateMarker?
      modifies this
      ensures Valid() && Now() == old(End()) && pc == Done(ok)
      ensures old(Undisturbed(cfg, sur, Now())) ==> Deployed(cfg, store) == {} && MarkerUp(cfg, store)
      ensures old(SparesRun(cfg, Now().s, Trace(cfg, sur, Now()))) && (ok || forall n :: sur.outcome(n).Accepted?) ==>
                ArgoCDKey(cfg) !in store
      ensures ok ==> old(DealtWith(WatchRun(cfg, Now().s, Trace(cfg, sur, Now()), NOTHING)))
    {
      ghost var w := Now();
      ok := Uninstall();
      UninstallRemovesArgoCD(cfg, sur, w);
      if Undisturbed(cfg, sur, w) {
        UndisturbedEndsClean(cfg, sur, w);
      }
    }

    method Uninstall() returns (ok: bool)
      requires Valid() && pc.CreateMarker?
      modifies this
      ensures Valid() && Now() == old(End()) && pc == Done(ok)
    {
      var marked := CreatePauseMarker();
      var deleted := DeleteArgoCD();
      if !deleted {
        return false;
      }
      DeleteOperatorResources(First);
      Think();
      ok := marked;
      if cfg.waitSeconds > 0 {
        var clean := WaitAndVerifyCleanup();
        ok := marked && clean;
      }
    }
  }
}
