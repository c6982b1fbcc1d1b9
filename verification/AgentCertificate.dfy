/** copyClientCertificate: mirroring the rotating client keypair and rolling the agent by a level-triggered rule.

    The machine interleaves the reconciler, one API call at a time, with rotations of the source Secret and with
    anyone who creates, deletes or rewrites the agent Deployment or the target Secret. */
module AgentCertificate {
  import opened Kube
  import opened CertDigest

  datatype Secret = Secret(data: map<string, Bytes>, labels: map<string, string>, tls: bool)

  /** rest stands for everything in the Deployment except its pod template's annotations. */
  datatype Deployment = Deployment(annotations: map<string, string>, rest: int)

  datatype Spoke = Spoke(source: Option<Secret>, target: Option<Secret>, agent: Option<Deployment>)

  datatype Pc =
    | Idle                                          // next: Get the source Secret
    | GetTarget(want: Keypair)
    | CreateTarget(want: Keypair)
    | UpdateTarget(want: Keypair, existing: Secret)
    | GetAgent(want: Keypair)
    | PatchAgent(want: Keypair)

  /** The counters and the set record the history of a run. */
  datatype State = State(spoke: Spoke, pc: Pc, persisted: set<Keypair>, restarts: nat, changes: nat, losses: nat)

  datatype Event =
    | Reconciler(o: Outcome, now: string)
    | SetSource(source: Option<Secret>)
    | SetTarget(target: Option<Secret>)
    | SetAgent(agent: Option<Deployment>)

  const DIGEST := "argocd-pull-integration/agent-cert-digest"
  const RESTARTED_AT := "argocd-pull-integration/agent-cert-restartedAt"

  type Hash = Bytes -> string

  function PairOf(s: Option<Secret>): Option<Keypair> {
    if s.Some? && "tls.crt" in s.value.data && "tls.key" in s.value.data
    then Some(Keypair(s.value.data["tls.crt"], s.value.data["tls.key"]))
    else None
  }

  function DataOf(p: Keypair): map<string, Bytes> { map["tls.crt" := p.crt, "tls.key" := p.key] }

  /** The digest a Deployment carries; a missing annotation reads as the empty string. */
  function Recorded(d: Deployment): string { if DIGEST in d.annotations then d.annotations[DIGEST] else "" }

  function NewTarget(p: Keypair): Secret { Secret(DataOf(p), map[MANAGED_BY := ADDON], true) }

  function Refreshed(existing: Secret, p: Keypair): Secret {
    Secret(DataOf(p), existing.labels[MANAGED_BY := ADDON], true)
  }

  /** The merge patch: two annotations and nothing else. */
  function Patched(d: Deployment, digest: string, now: string): Deployment {
    d.(annotations := d.annotations[DIGEST := digest][RESTARTED_AT := now])
  }

  function ReconcilerStep(h: Hash, s: State, o: Outcome, now: string): State {
    match s.pc
    case Idle =>
      if o.Accepted? && PairOf(s.spoke.source).Some? then s.(pc := GetTarget(PairOf(s.spoke.source).value)) else s
    case GetTarget(want) =>
      if !o.Accepted? then s.(pc := Idle)
      else if s.spoke.target.Some? then s.(pc := UpdateTarget(want, s.spoke.target.value))
      else s.(pc := CreateTarget(want))
    case CreateTarget(want) =>
      var s' := if o.Rejected? || s.spoke.target.Some? then s
                else s.(spoke := s.spoke.(target := Some(NewTarget(want))), persisted := s.persisted + {want});
      s'.(pc := if o.Accepted? && s.spoke.target.None? then GetAgent(want) else Idle)
    case UpdateTarget(want, existing) =>
      var s' := if o.Rejected? || s.spoke.target.None? then s
                else s.(spoke := s.spoke.(target := Some(Refreshed(existing, want))),
                        persisted := s.persisted + {want});
      s'.(pc := if o.Accepted? && s.spoke.target.Some? then GetAgent(want) else Idle)
    case GetAgent(want) =>
      if o.Accepted? && s.spoke.agent.Some? && Recorded(s.spoke.agent.value) != Digest(h, want)
      then s.(pc := PatchAgent(want))
      else s.(pc := Idle)
    case PatchAgent(want) =>
      var s' := if o.Rejected? || s.spoke.agent.None? then s
                else s.(spoke := s.spoke.(agent := Some(Patched(s.spoke.agent.value, Digest(h, want), now))),
                        restarts := s.restarts + 1);
      s'.(pc := Idle)
  }

  function Step(h: Hash, s: State, e: Event): State {
    match e
    case Reconciler(o, now) => ReconcilerStep(h, s, o, now)
    case SetSource(src) =>
      s.(spoke := s.spoke.(source := src),
         changes := if PairOf(src) != PairOf(s.spoke.source) then s.changes + 1 else s.changes)
    case SetTarget(t) => s.(spoke := s.spoke.(target := t))
    case SetAgent(d) =>
      var lost := d.Some? && (s.spoke.agent.None? || Recorded(d.value) != Recorded(s.spoke.agent.value));
      s.(spoke := s.spoke.(agent := d), losses := if lost then s.losses + 1 else s.losses)
  }

  function Run(h: Hash, s: State, events: seq<Event>): State
    decreases |events|
  {
    if events == [] then s else Run(h, Step(h, s, events[0]), events[1..])
  }

  // ---- The recorded digest is always that of a persisted keypair ----

  predicate RecordsPersisted(h: Hash, s: State) {
    && (s.spoke.agent.Some? && DIGEST in s.spoke.agent.value.annotations
        ==> exists p :: p in s.persisted && Digest(h, p) == s.spoke.agent.value.annotations[DIGEST])
    && (s.pc.GetAgent? || s.pc.PatchAgent? ==> s.pc.want in s.persisted)
  }

  /** Nobody but the reconciler invents a digest: others write Deployments without one, or keep the one there. */
  predicate NoForgedDigest(s: State, e: Event) {
    e.SetAgent? && e.agent.Some? && DIGEST in e.agent.value.annotations ==>
      && s.spoke.agent.Some? && DIGEST in s.spoke.agent.value.annotations
      && s.spoke.agent.value.annotations[DIGEST] == e.agent.value.annotations[DIGEST]
  }

  predicate NoForgedDigests(h: Hash, s: State, events: seq<Event>)
    decreases |events|
  {
    events == [] || (NoForgedDigest(s, events[0]) && NoForgedDigests(h, Step(h, s, events[0]), events[1..]))
  }

  lemma RecordsPersistedStep(h: Hash, s: State, e: Event)
    requires RecordsPersisted(h, s) && NoForgedDigest(s, e)
    ensures RecordsPersisted(h, Step(h, s, e)) && s.persisted <= Step(h, s, e).persisted
  {
    var s' := Step(h, s, e);
    if s.spoke.agent.Some? && DIGEST in s.spoke.agent.value.annotations {
      var p :| p in s.persisted && Digest(h, p) == s.spoke.agent.value.annotations[DIGEST];
      assert p in s'.persisted;
    }
    if e.Reconciler? && s.pc.PatchAgent? {
      assert s.pc.want in s'.persisted;
    }
  }

  /** Over every run of rotations, Deployment changes and API faults. */
  lemma {:induction false} RecordsPersistedRun(h: Hash, s: State, events: seq<Event>)
    requires RecordsPersisted(h, s) && NoForgedDigests(h, s, events)
    ensures RecordsPersisted(h, Run(h, s, events))
    decreases |events|
  {
    if events != [] {
      RecordsPersistedStep(h, s, events[0]);
      RecordsPersistedRun(h, Step(h, s, events[0]), events[1..]);
    }
  }

  // ---- How often the agent is restarted ----

  function Count(b: bool): nat { if b then 1 else 0 }

  predicate Mismatch(h: Hash, s: State, p: Keypair) {
    s.spoke.agent.Some? && Recorded(s.spoke.agent.value) != Digest(h, p)
  }

  /** The source has moved on since the reconcile in progress read it. */
  predicate Moved(s: State, read: Keypair) {
    PairOf(s.spoke.source).Some? && PairOf(s.spoke.source).value != read
  }

  /** Restarts already caused but not yet carried out. */
  function Owed(h: Hash, s: State): nat {
    match s.pc
    case Idle => Count(PairOf(s.spoke.source).Some? && Mismatch(h, s, PairOf(s.spoke.source).value))
    case PatchAgent(want) => 1 + Count(Moved(s, want))
    case _ => Count(Mismatch(h, s, s.pc.want)) + Count(Moved(s, s.pc.want))
  }

  lemma RestartsPaidStep(h: Hash, s: State, e: Event)
    ensures var s' := Step(h, s, e);
            s'.restarts + Owed(h, s') + s.changes + s.losses <= s.restarts + Owed(h, s) + s'.changes + s'.losses
  {
  }

  /** Amortised bound: in every run the agent is restarted at most once per change of the source keypair, once
      per loss or change of the digest its Deployment records, and once more if a restart was due at the start. */
  lemma {:induction false} RestartBound(h: Hash, s: State, events: seq<Event>)
    ensures var s' := Run(h, s, events);
            s'.restarts - s.restarts + Owed(h, s') <= Owed(h, s) + (s'.changes - s.changes) + (s'.losses - s.losses)
    decreases |events|
  {
    if events != [] {
      RestartsPaidStep(h, s, events[0]);
      RestartBound(h, Step(h, s, events[0]), events[1..]);
    }
  }

  lemma {:induction false} OnlyReconcilerCountsNothing(h: Hash, s: State, events: seq<Event>)
    requires forall e | e in events :: e.Reconciler? || e.SetTarget?
    ensures var s' := Run(h, s, events); s'.changes == s.changes && s'.losses == s.losses
    decreases |events|
  {
    if events != [] {
      OnlyReconcilerCountsNothing(h, Step(h, s, events[0]), events[1..]);
    }
  }

  /** Loop safety: with a stable source and Deployment, any number of reconciles, faulty or not, restarts an
      agent that already runs the current keypair not even once. */
  lemma SteadyStateNeverRestarts(h: Hash, s: State, events: seq<Event>)
    requires Owed(h, s) == 0
    requires forall e | e in events :: e.Reconciler? || e.SetTarget?
    ensures Run(h, s, events).restarts <= s.restarts
  {
    RestartBound(h, s, events);
    OnlyReconcilerCountsNothing(h, s, events);
  }

  // ---- Convergence ----

  /** One reconcile on its own, from Idle back to Idle: at most five calls, the i-th with outcome outs(i). */
  function Finish(h: Hash, s: State, outs: nat -> Outcome, i: nat, now: string): State
    decreases 5 - i
  {
    if i >= 5 then s
    else
      var s' := ReconcilerStep(h, s, outs(i), now);
      if s'.pc.Idle? then s' else Finish(h, s', outs, i + 1, now)
  }

  function AllAccepted(i: nat): Outcome { Accepted }

  predicate Converged(h: Hash, sp: Spoke) {
    PairOf(sp.source).Some? ==>
      && sp.target.Some? && sp.target.value.data == DataOf(PairOf(sp.source).value) && sp.target.value.tls
      && (sp.agent.Some? ==> Recorded(sp.agent.value) == Digest(h, PairOf(sp.source).value))
  }

  /** The keypair is in the target; next the Deployment is looked at. */
  function Copied(s: State, p: Keypair): State {
    var before := s.spoke.target;
    s.(spoke := s.spoke.(target := Some(if before.Some? then Refreshed(before.value, p) else NewTarget(p))),
       persisted := s.persisted + {p}, pc := GetAgent(p))
  }

  function Rolled(h: Hash, s: State, p: Keypair, now: string): State {
    if !Mismatch(h, s, p) then s.(pc := Idle)
    else s.(spoke := s.spoke.(agent := Some(Patched(s.spoke.agent.value, Digest(h, p), now))),
            restarts := s.restarts + 1, pc := Idle)
  }

  lemma FirstThreeCalls(h: Hash, s: State, now: string)
    requires s.pc.Idle? && PairOf(s.spoke.source).Some?
    ensures Finish(h, s, AllAccepted, 0, now) == Finish(h, Copied(s, PairOf(s.spoke.source).value), AllAccepted, 3, now)
  {
    var f := AllAccepted;
    var s1 := ReconcilerStep(h, s, f(0), now);
    var s2 := ReconcilerStep(h, s1, f(1), now);
    var s3 := ReconcilerStep(h, s2, f(2), now);
    assert Finish(h, s, f, 0, now) == Finish(h, s1, f, 1, now) == Finish(h, s2, f, 2, now) == Finish(h, s3, f, 3, now);
  }

  lemma LastTwoCalls(h: Hash, s: State, now: string)
    requires s.pc.GetAgent?
    ensures Finish(h, s, AllAccepted, 3, now) == Rolled(h, s, s.pc.want, now)
  {
    var f := AllAccepted;
    var s4 := ReconcilerStep(h, s, f(3), now);
    if !s4.pc.Idle? {
      assert Finish(h, s4, f, 4, now) == ReconcilerStep(h, s4, f(4), now);
    }
  }

  lemma FaultFreeFinish(h: Hash, s: State, now: string)
    requires s.pc.Idle?
    ensures Finish(h, s, AllAccepted, 0, now) ==
            if PairOf(s.spoke.source).None? then s
            else var p := PairOf(s.spoke.source).value; Rolled(h, Copied(s, p), p, now)
  {
    if PairOf(s.spoke.source).Some? {
      FirstThreeCalls(h, s, now);
      LastTwoCalls(h, Copied(s, PairOf(s.spoke.source).value), now);
    }
  }

  /** From every state a run can be in between two reconciles, a single fault-free reconcile makes the target
      equal the source and the recorded digest equal the source's, and leaves the rest of the Deployment alone. */
  lemma ConvergesInOne(h: Hash, s: State, now: string)
    requires s.pc.Idle?
    ensures var s' := Finish(h, s, AllAccepted, 0, now);
            && s'.pc.Idle? && Converged(h, s'.spoke) && s'.spoke.source == s.spoke.source
            && (s.spoke.agent.Some? <==> s'.spoke.agent.Some?)
            && (s.spoke.agent.Some? ==> s'.spoke.agent.value.rest == s.spoke.agent.value.rest)
            && s'.restarts == s.restarts + Owed(h, s)
  {
    FaultFreeFinish(h, s, now);
  }

  /** A second fault-free reconcile changes nothing and restarts nothing. */
  lemma ConvergedStays(h: Hash, s: State, now: string, later: string)
    requires s.pc.Idle?
    ensures var s1 := Finish(h, s, AllAccepted, 0, now);
            var s2 := Finish(h, s1, AllAccepted, 0, later);
            s2.spoke == s1.spoke && s2.restarts == s1.restarts
  {
    ConvergesInOne(h, s, now);
    var s1 := Finish(h, s, AllAccepted, 0, now);
    ConvergesInOne(h, s1, later);
    if PairOf(s.spoke.source).Some? {
      TargetLabelled(h, s, now);
      TargetLabelled(h, s1, later);
      var labels := s1.spoke.target.value.labels;
      assert labels[MANAGED_BY := ADDON] == labels;
    }
  }

  lemma TargetLabelled(h: Hash, s: State, now: string)
    requires s.pc.Idle? && PairOf(s.spoke.source).Some?
    ensures var s' := Finish(h, s, AllAccepted, 0, now);
            var p := PairOf(s.spoke.source).value;
            && s'.spoke.target == Some(if s.spoke.target.Some? then Refreshed(s.spoke.target.value, p) else NewTarget(p))
            && (Owed(h, s) == 0 ==> s'.spoke.agent == s.spoke.agent)
  {
    FaultFreeFinish(h, s, now);
  }

  // ---- The reconciler as the imperative code it is ----

  /** When copyClientCertificate reports an error: a keypair that is there but cannot be read or stored.  Failing
      to restart the agent is never one. */
  predicate CopyFails(sp: Spoke, outs: nat -> Outcome) {
    || !outs(0).Accepted?
    || (sp.source.Some? && (PairOf(sp.source).None? || !outs(1).Accepted? || !outs(2).Accepted?))
  }

  class AddonReconciler {
    var source: Option<Secret>
    var target: Option<Secret>
    var agent: Option<Deployment>
    var restarts: nat

    function View(): Spoke
      reads this
    {
      Spoke(source, target, agent)
    }

    function Now(): State
      reads this
    {
      State(View(), Idle, {}, restarts, 0, 0)
    }

    method RestartAgentDeployment(digest: string, now: string, o: Outcome) returns (e: Option<Error>)
      modifies this`agent, this`restarts
      ensures agent == if o.Rejected? || old(agent).None? then old(agent)
                       else Some(Patched(old(agent).value, digest, now))
      ensures restarts == old(restarts) + Count(!o.Rejected? && old(agent).Some?)
      ensures e == if !o.Accepted? then Some(Failed) else if old(agent).None? then Some(NotFound) else None
    {
      e := if o != Accepted then Some(Failed) else if agent.None? then Some(NotFound) else None;
      if o != Rejected && agent.Some? {
        agent := Some(agent.value.(annotations := agent.value.annotations[DIGEST := digest][RESTARTED_AT := now]));
        restarts := restarts + 1;
      }
    }

    method EnsureAgentRestartedForCert(digest: string, outs: nat -> Outcome, now: string)
      modifies this`agent, this`restarts
      ensures var due := outs(3).Accepted? && old(agent).Some? && Recorded(old(agent).value) != digest;
              && agent == (if due && !outs(4).Rejected? then Some(Patched(old(agent).value, digest, now)) else old(agent))
              && restarts == old(restarts) + Count(due && !outs(4).Rejected?)
    {
      if outs(3) != Accepted || agent.None? {
        return;
      }
      var annotations := agent.value.annotations;
      if (if DIGEST in annotations then annotations[DIGEST] else "") == digest {
        return;
      }
      var _ := RestartAgentDeployment(digest, now, outs(4));
    }

    /** One reconcile is the machine's undisturbed run. */
    method CopyClientCertificate(h: Hash, outs: nat -> Outcome, now: string) returns (failed: bool)
      modifies this
      ensures View() == Finish(h, old(Now()), outs, 0, now).spoke
      ensures restarts == Finish(h, old(Now()), outs, 0, now).restarts
      ensures failed <==> CopyFails(old(View()), outs)
    {
      ghost var s0 := Now();
      if outs(0) != Accepted {
        return true;
      }
      if source.None? {
        return false;
      }
      var data := source.value.data;
      if !("tls.crt" in data && "tls.key" in data) {
        return true;
      }
      var pair := Keypair(data["tls.crt"], data["tls.key"]);
      ghost var s1 := ReconcilerStep(h, s0, outs(0), now);
      assert s1.pc == GetTarget(pair);
      ghost var s2 := ReconcilerStep(h, s1, outs(1), now);
      assert Finish(h, s0, outs, 0, now) == Finish(h, s1, outs, 1, now);
      if outs(1) != Accepted {
        return true;
      }
      ghost var s3 := ReconcilerStep(h, s2, outs(2), now);
      assert Finish(h, s1, outs, 1, now) == Finish(h, s2, outs, 2, now);
      var labels := if target.Some? then target.value.labels else map[];
      if outs(2) != Rejected {
        target := Some(Secret(DataOf(pair), labels[MANAGED_BY := ADDON], true));
      }
      if outs(2) != Accepted {
        return true;
      }
      assert View() == s3.spoke && s3.pc == GetAgent(pair);
      ghost var s4 := ReconcilerStep(h, s3, outs(3), now);
      assert Finish(h, s2, outs, 2, now) == Finish(h, s3, outs, 3, now);
      EnsureAgentRestartedForCert(Digest(h, pair), outs, now);
      if !s4.pc.Idle? {
        assert Finish(h, s3, outs, 3, now) == Finish(h, s4, outs, 4, now) == ReconcilerStep(h, s4, outs(4), now);
      }
      return false;
    }
  }
}
