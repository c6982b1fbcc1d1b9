/** EnsurePrincipalCertificate: the principal is restarted on an observed change of the stored bytes (an edge),
    where the agent is restarted until its Deployment records the current ones (a level). */
module PrincipalCertificate {
  import opened Kube
  import opened CertDigest
  import Agent = AgentCertificate

  /** loaded is the certificate the pods read when they were last started. */
  datatype Deployment = Deployment(loaded: Bytes, restarts: nat)

  datatype State = State(secret: Option<Bytes>, deployments: map<string, Deployment>)

  /** What EnsureTargetCertKeyPair does; a failing call may have written all the same. */
  datatype Rotation = Keep | Rotate(crt: Bytes) | RotationFails(wrote: Option<Bytes>)

  /** One call of EnsurePrincipalCertificate.  reached: the CA and the informers were available. */
  datatype Inputs = Inputs(reached: bool, readBefore: Outcome, rotation: Rotation, readAfter: Outcome,
                           patches: seq<Outcome>)
  {
    predicate Valid() { |patches| == 2 }

    predicate FaultFree() {
      && reached && readBefore.Accepted? && readAfter.Accepted? && !rotation.RotationFails?
      && patches == [Accepted, Accepted]
    }
  }

  const PRINCIPAL := "argocd-agent-principal"
  const OPENSHIFT_PRINCIPAL := "openshift-gitops-agent-principal"

  /** An absent secret and an empty tls.crt both read as no bytes. */
  function Stored(secret: Option<Bytes>): Bytes { if secret.Some? then secret.value else [] }

  function AfterRotation(s: State, r: Rotation): State {
    match r
    case Keep => s
    case Rotate(crt) => s.(secret := Some(crt))
    case RotationFails(wrote) => if wrote.Some? then s.(secret := wrote) else s
  }

  function PatchOne(s: State, name: string, o: Outcome): State {
    if o.Rejected? || name !in s.deployments then s
    else s.(deployments := s.deployments[name := Deployment(Stored(s.secret), s.deployments[name].restarts + 1)])
  }

  /** The first Deployment that takes the patch ends the search. */
  function RestartPrincipal(s: State, patches: seq<Outcome>): State
    requires |patches| == 2
  {
    var s1 := PatchOne(s, PRINCIPAL, patches[0]);
    if patches[0].Accepted? && PRINCIPAL in s.deployments then s1 else PatchOne(s1, OPENSHIFT_PRINCIPAL, patches[1])
  }

  /** The restart decision: both reads worked and saw different bytes. */
  predicate SeesChange(s: State, r: Inputs) {
    && r.reached && !r.rotation.RotationFails? && r.readBefore.Accepted? && r.readAfter.Accepted?
    && Stored(s.secret) != Stored(AfterRotation(s, r.rotation).secret)
  }

  function Ensure(s: State, r: Inputs): State
    requires r.Valid()
  {
    if !r.reached then s
    else if SeesChange(s, r) then RestartPrincipal(AfterRotation(s, r.rotation), r.patches)
    else AfterRotation(s, r.rotation)
  }

  function Run(s: State, rs: seq<Inputs>): State
    requires forall r | r in rs :: r.Valid()
    decreases |rs|
  {
    if rs == [] then s else Run(Ensure(s, rs[0]), rs[1..])
  }

  /** The certificate stays as it is: no rotation, or one that writes the same bytes. */
  predicate Stable(s: State, r: Inputs) {
    Stored(AfterRotation(s, r.rotation).secret) == Stored(s.secret)
  }

  predicate PatchTakes(s: State, patches: seq<Outcome>)
    requires |patches| == 2
  {
    || (PRINCIPAL in s.deployments && !patches[0].Rejected?)
    || (OPENSHIFT_PRINCIPAL in s.deployments && !patches[1].Rejected?)
  }

  /** A call restarts something exactly when it observed a byte change and a patch took effect. */
  lemma RestartsIffChangeSeen(s: State, r: Inputs)
    requires r.Valid()
    ensures Ensure(s, r).deployments != s.deployments <==> SeesChange(s, r) && PatchTakes(s, r.patches)
  {
    var s0 := AfterRotation(s, r.rotation);
    if SeesChange(s, r) {
      var s1 := PatchOne(s0, PRINCIPAL, r.patches[0]);
      if PRINCIPAL in s.deployments && !r.patches[0].Rejected? {
        assert Ensure(s, r).deployments[PRINCIPAL].restarts == s.deployments[PRINCIPAL].restarts + 1;
      } else if OPENSHIFT_PRINCIPAL in s.deployments && !r.patches[1].Rejected? {
        assert Ensure(s, r).deployments[OPENSHIFT_PRINCIPAL].restarts ==
               s.deployments[OPENSHIFT_PRINCIPAL].restarts + 1;
      }
    }
  }

  /** No call of the run changes the stored bytes: it may rotate to the same ones, or fail in any way. */
  predicate StableRun(s: State, rs: seq<Inputs>)
    decreases |rs|
  {
    rs == [] || (rs[0].Valid() && Stable(s, rs[0]) && StableRun(Ensure(s, rs[0]), rs[1..]))
  }

  lemma {:induction false} StableRunIsValid(s: State, rs: seq<Inputs>)
    requires StableRun(s, rs)
    ensures forall r | r in rs :: r.Valid()
    decreases |rs|
  {
    if rs != [] {
      StableRunIsValid(Ensure(s, rs[0]), rs[1..]);
    }
  }

  /** A stable certificate never restarts the principal, over any number of calls with any faults... */
  lemma {:induction false} StableNeverRestarts(s: State, rs: seq<Inputs>)
    requires StableRun(s, rs)
    ensures forall r | r in rs :: r.Valid()
    ensures Run(s, rs).deployments == s.deployments && Stored(Run(s, rs).secret) == Stored(s.secret)
    decreases |rs|
  {
    StableRunIsValid(s, rs);
    if rs != [] {
      StableNeverRestarts(Ensure(s, rs[0]), rs[1..]);
    }
  }

  predicate Stale(s: State, name: string) {
    name in s.deployments && s.deployments[name].loaded != Stored(s.secret)
  }

  /** ... and for the same reason a missed restart is never made up for.  A rotation whose restart failed, or was
      skipped because one of the reads or the rest of the rotation failed, leaves the principal on the old
      certificate through any number of later calls until the bytes change again, although both log messages
      announce a retry. */
  lemma MissedRestartIsLost(s: State, r: Inputs, later: seq<Inputs>, name: string)
    requires r.Valid() && r.reached && !Stable(s, r) && !(SeesChange(s, r) && PatchTakes(s, r.patches))
    requires name in s.deployments && s.deployments[name].loaded == Stored(s.secret)
    requires StableRun(Ensure(s, r), later)
    ensures forall i | i in later :: i.Valid()
    ensures Stale(Run(Ensure(s, r), later), name)
  {
    RestartsIffChangeSeen(s, r);
    StableNeverRestarts(Ensure(s, r), later);
  }

  /** Exactly when a fault-free call leaves the principal on the stored certificate: it was there before and the
      bytes did not change, or they changed in this very call. */
  lemma FreshAfterIff(s: State, r: Inputs)
    requires r.Valid() && r.FaultFree() && PRINCIPAL in s.deployments
    ensures !Stale(Ensure(s, r), PRINCIPAL) <==> !Stable(s, r) || !Stale(s, PRINCIPAL)
  {
  }

  /** The two rules side by side: after a failed restart the edge rule stays stale through any number of
      fault-free calls, the level rule is repaired, with one restart, by the next one. */
  lemma EdgeVersusLevel(s: State, later: seq<Inputs>, h: Agent.Hash, a: Agent.State, now: string)
    requires Stale(s, PRINCIPAL) && StableRun(s, later)
    requires a.pc.Idle? && Agent.PairOf(a.spoke.source).Some?
    requires Agent.Mismatch(h, a, Agent.PairOf(a.spoke.source).value)
    ensures (forall r | r in later :: r.Valid()) && Stale(Run(s, later), PRINCIPAL)
    ensures var a' := Agent.Finish(h, a, Agent.AllAccepted, 0, now);
            Agent.Converged(h, a'.spoke) && a'.restarts == a.restarts + 1
  {
    StableNeverRestarts(s, later);
    Agent.ConvergesInOne(h, a, now);
  }

  // ---- The imperative code ----

  class PrincipalReconciler {
    var secret: Option<Bytes>
    var deployments: map<string, Deployment>

    function View(): State
      reads this
    {
      State(secret, deployments)
    }

    method RestartPrincipalDeployment(patches: seq<Outcome>) returns (ok: bool)
      requires |patches| == 2
      modifies this`deployments
      ensures View() == RestartPrincipal(old(View()), patches)
      ensures ok <==> (PRINCIPAL in old(deployments) && patches[0].Accepted?)
                      || (OPENSHIFT_PRINCIPAL in old(deployments) && patches[1].Accepted?)
    {
      var names := [PRINCIPAL, OPENSHIFT_PRINCIPAL];
      for i := 0 to 2
        invariant i == 0 ==> View() == old(View())
        invariant i >= 1 ==> !(PRINCIPAL in old(deployments) && patches[0].Accepted?)
        invariant i == 1 ==> View() == PatchOne(old(View()), PRINCIPAL, patches[0])
        invariant i == 2 ==> View() == RestartPrincipal(old(View()), patches)
        invariant i == 2 ==> !(OPENSHIFT_PRINCIPAL in old(deployments) && patches[1].Accepted?)
      {
        var name := names[i];
        var there := name in deployments;
        if there && patches[i] != Rejected {
          deployments := deployments[name := Deployment(Stored(secret), deployments[name].restarts + 1)];
        }
        if there && patches[i] == Accepted {
          return true;
        }
      }
      return false;
    }

    method EnsurePrincipalCertificate(r: Inputs) returns (ok: bool)
      requires r.Valid()
      modifies this
      ensures View() == Ensure(old(View()), r)
      ensures ok <==> r.reached && !r.rotation.RotationFails?
    {
      if !r.reached {
        return false;
      }
      var certBefore := Stored(secret);
      match r.rotation {
        case Keep =>
        case Rotate(crt) => secret := Some(crt);
        case RotationFails(wrote) =>
          if wrote.Some? {
            secret := wrote;
          }
          return false;
      }
      var certAfter := Stored(secret);
      if r.readBefore != Accepted || r.readAfter != Accepted {
        return true;
      }
      if certBefore != certAfter {
        var _ := RestartPrincipalDeployment(r.patches);
      }
      return true;
    }
  }
}
