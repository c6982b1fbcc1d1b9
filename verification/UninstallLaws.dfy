/** What an uninstall has done by the time it goes on, told from its calls and from the store alone. */
module UninstallLaws {
  import opened Kube
  import opened PauseProtocol

  // ---- What a run shows to somebody who watches its calls ----

  /** absent: the ArgoCD object was looked for and reported absent; deleted: its deletion was answered without an error
      and it was gone then; gone: a later look did not find it; polls, rounds: how often the uninstaller looked again,
      while waiting and in verification. */
  datatype Seen = Seen(absent: bool, deleted: bool, gone: bool, polls: nat, rounds: nat)

  const NOTHING := Seen(false, false, false, 0, 0)

  function Watch(cfg: Config, s: State, e: Event, seen: Seen): Seen {
    if !e.Uninstaller? then seen
    else
      var answered := e.o.Accepted?;
      match s.uninstaller
      case GetCR => seen.(absent := seen.absent || (answered && ArgoCDKey(cfg) !in s.store))
      case DeleteCR => seen.(deleted := seen.deleted || (answered && ArgoCDKey(cfg) !in Step(cfg, s, e).store))
      case PollCR(_) => seen.(gone := seen.gone || (answered && ArgoCDKey(cfg) !in s.store), polls := seen.polls + 1)
      case VerifyCR(_) => seen.(rounds := seen.rounds + 1)
      case _ => seen
  }

  function WatchRun(cfg: Config, s: State, events: seq<Event>, seen: Seen): Seen
    decreases |events|
  {
    if events == [] then seen else WatchRun(cfg, Step(cfg, s, events[0]), events[1..], Watch(cfg, s, events[0], seen))
  }

  /** The object is dealt with: it was not there, or it was deleted and then waited for until it was seen to be gone or
      for two minutes, at five seconds a look. */
  predicate DealtWith(seen: Seen) { seen.absent || (seen.deleted && (seen.gone || 5 * seen.polls >= 120)) }

  /** The seconds of verification a place in the program stands for. */
  function Elapsed(pc: UninstallerPc): int {
    match pc
    case Sleep(e) => e
    case VerifyCR(e) => e - 20
    case VerifyDeleteCR(e) => e
    case VerifyList(e) => e
    case ListKind(Verify(e), _) => e
    case DeleteItems(Verify(e), _, _) => e
    case _ => 0
  }

  predicate Accounted(cfg: Config, pc: UninstallerPc, seen: Seen) {
    && Elapsed(pc) <= 20 * seen.rounds
    && match pc
       case CreateMarker => true
       case GetCR => true
       case DeleteCR => true
       case PollCR(waited) => seen.deleted && waited <= 5 * seen.polls
       case FinalCR => DealtWith(seen)
       case Done(false) => true
       case Done(true) => DealtWith(seen) && 20 * seen.rounds >= cfg.waitSeconds
       case EndCR => DealtWith(seen) && 20 * seen.rounds >= cfg.waitSeconds
       case EndList(_) => DealtWith(seen) && 20 * seen.rounds >= cfg.waitSeconds
       case _ => DealtWith(seen)
  }

  lemma StartAccounted(cfg: Config, s: State, o: Outcome, pick: Key, now: string, seen: Seen)
    requires Accounted(cfg, s.uninstaller, seen)
    requires s.uninstaller.CreateMarker? || s.uninstaller.GetCR? || s.uninstaller.DeleteCR? || s.uninstaller.PollCR?
             || s.uninstaller.FinalCR?
    ensures var e := Uninstaller(o, pick, now);
            Accounted(cfg, Step(cfg, s, e).uninstaller, Watch(cfg, s, e, seen))
  {
  }

  lemma RestAccounted(cfg: Config, s: State, o: Outcome, pick: Key, now: string, seen: Seen)
    requires Accounted(cfg, s.uninstaller, seen)
    requires !s.uninstaller.CreateMarker? && !s.uninstaller.GetCR? && !s.uninstaller.DeleteCR? && !s.uninstaller.PollCR?
             && !s.uninstaller.FinalCR?
    ensures var e := Uninstaller(o, pick, now);
            Accounted(cfg, Step(cfg, s, e).uninstaller, Watch(cfg, s, e, seen))
  {
  }

  lemma OthersDoNotMove(cfg: Config, s: State, e: Event)
    requires !e.Uninstaller?
    ensures Step(cfg, s, e).uninstaller == s.uninstaller
  {
  }

  lemma {:induction false} AccountedRun(cfg: Config, s: State, events: seq<Event>, seen: Seen)
    requires Accounted(cfg, s.uninstaller, seen)
    ensures Accounted(cfg, Run(cfg, s, events).uninstaller, WatchRun(cfg, s, events, seen))
    decreases |events|
  {
    if events != [] {
      var e, pc := events[0], s.uninstaller;
      if !e.Uninstaller? {
        OthersDoNotMove(cfg, s, e);
      } else if pc.CreateMarker? || pc.GetCR? || pc.DeleteCR? || pc.PollCR? || pc.FinalCR? {
        StartAccounted(cfg, s, e.o, e.pick, e.now, seen);
      } else {
        RestAccounted(cfg, s, e.o, e.pick, e.now, seen);
      }
      AccountedRun(cfg, Step(cfg, s, e), events[1..], Watch(cfg, s, e, seen));
    }
  }

  /** In every run, whatever fails and whatever the others do: the first delete pass is reached only after the ArgoCD
      object was reported absent, or was deleted and waited for; and success is reported only after that and, where
      verification is configured, after a look every twenty seconds for that long. */
  lemma NoPassBeforeArgoCDIsDealtWith(cfg: Config, s: State, events: seq<Event>)
    requires s.uninstaller.CreateMarker?
    ensures var pc, seen := Run(cfg, s, events).uninstaller, WatchRun(cfg, s, events, NOTHING);
            && (pc == ListKind(First, 0) ==> DealtWith(seen))
            && (pc == Done(true) ==> DealtWith(seen) && 20 * seen.rounds >= cfg.waitSeconds)
  {
    AccountedRun(cfg, s, events, NOTHING);
  }

  // ---- The ArgoCD object stays away ----

  /** Nobody else makes the ArgoCD object. */
  predicate SparesArgoCD(cfg: Config, s: State, e: Event) {
    && (e.Other? && e.key == ArgoCDKey(cfg) ==> e.obj.None?)
    && (e.Installer? && s.installer.Write? ==> s.installer.m.key != ArgoCDKey(cfg))
  }

  predicate SparesRun(cfg: Config, s: State, events: seq<Event>)
    decreases |events|
  {
    events == [] || (SparesArgoCD(cfg, s, events[0]) && SparesRun(cfg, Step(cfg, s, events[0]), events[1..]))
  }

  /** The places in the program at which the ArgoCD object may still be there. */
  predicate Before(pc: UninstallerPc) { pc.CreateMarker? || pc.GetCR? || pc.DeleteCR? }

  lemma AbsentStays(cfg: Config, s: State, e: Event)
    requires SparesArgoCD(cfg, s, e) && ArgoCDKey(cfg) !in s.store
    ensures ArgoCDKey(cfg) !in Step(cfg, s, e).store
  {
    assert ArgoCDKey(cfg) != MarkerKey(cfg) by { assert |"ArgoCD"| == 6 && |"ConfigMap"| == 9; }
  }

  lemma LeavingMeansAbsent(cfg: Config, s: State, e: Event)
    requires e.Uninstaller? && Before(s.uninstaller)
    ensures var s' := Step(cfg, s, e);
            Before(s'.uninstaller) || ArgoCDKey(cfg) !in s'.store || (s'.uninstaller == Done(false) && !e.o.Accepted?)
  {
  }

  lemma DoneStays(cfg: Config, s: State, e: Event)
    requires s.uninstaller.Done?
    ensures Step(cfg, s, e).uninstaller == s.uninstaller
  {
  }

  lemma {:induction false} ArgoCDIsGone(cfg: Config, s: State, events: seq<Event>)
    requires SparesRun(cfg, s, events)
    requires Before(s.uninstaller) || ArgoCDKey(cfg) !in s.store || s.uninstaller == Done(false)
    ensures var s' := Run(cfg, s, events);
            Before(s'.uninstaller) || ArgoCDKey(cfg) !in s'.store || s'.uninstaller == Done(false)
    ensures UninstallerFaultFree(events) && (Before(s.uninstaller) || ArgoCDKey(cfg) !in s.store) ==>
              var s' := Run(cfg, s, events); Before(s'.uninstaller) || ArgoCDKey(cfg) !in s'.store
    decreases |events|
  {
    if events != [] {
      var e := events[0];
      if ArgoCDKey(cfg) !in s.store {
        AbsentStays(cfg, s, e);
      } else if s.uninstaller.Done? {
        DoneStays(cfg, s, e);
      } else if e.Uninstaller? {
        LeavingMeansAbsent(cfg, s, e);
      } else {
        OthersDoNotMove(cfg, s, e);
      }
      ArgoCDIsGone(cfg, Step(cfg, s, e), events[1..]);
    }
  }

  /** If nobody else makes the ArgoCD object, then whatever fails it is gone when the delete pass begins and when success
      is reported; and if nothing fails it is gone at every end. */
  lemma SuccessMeansArgoCDGone(cfg: Config, s: State, events: seq<Event>)
    requires s.uninstaller.CreateMarker? && SparesRun(cfg, s, events)
    ensures var s' := Run(cfg, s, events);
            && (s'.uninstaller.ListKind? || s'.uninstaller == Done(true) ==> ArgoCDKey(cfg) !in s'.store)
            && (s'.uninstaller.Done? && UninstallerFaultFree(events) ==> ArgoCDKey(cfg) !in s'.store)
  {
    ArgoCDIsGone(cfg, s, events);
  }

  predicate LookingForArgoCD(pc: UninstallerPc, elapsed: int) {
    pc == VerifyCR(elapsed) || pc == VerifyDeleteCR(elapsed)
  }

  lemma LeavingTheLookMeansAbsent(cfg: Config, s: State, e: Event, elapsed: int)
    requires e.Uninstaller? && e.o.Accepted? && LookingForArgoCD(s.uninstaller, elapsed)
    ensures var s' := Step(cfg, s, e); LookingForArgoCD(s'.uninstaller, elapsed) || ArgoCDKey(cfg) !in s'.store
  {
  }

  /** A verification round without faults deletes an ArgoCD object that came back. */
  lemma {:induction false} RoundDeletesArgoCD(cfg: Config, s: State, events: seq<Event>, elapsed: int)
    requires SparesRun(cfg, s, events) && UninstallerFaultFree(events)
    requires LookingForArgoCD(s.uninstaller, elapsed) || ArgoCDKey(cfg) !in s.store
    ensures var s' := Run(cfg, s, events); LookingForArgoCD(s'.uninstaller, elapsed) || ArgoCDKey(cfg) !in s'.store
    decreases |events|
  {
    if events != [] {
      var e := events[0];
      if ArgoCDKey(cfg) !in s.store {
        AbsentStays(cfg, s, e);
      } else if e.Uninstaller? {
        LeavingTheLookMeansAbsent(cfg, s, e, elapsed);
      } else {
        OthersDoNotMove(cfg, s, e);
      }
      RoundDeletesArgoCD(cfg, Step(cfg, s, e), events[1..], elapsed);
    }
  }
}
