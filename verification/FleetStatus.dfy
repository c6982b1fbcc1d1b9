/** The conditions in the status of a GitOpsCluster. */
module FleetStatus {
  import opened Kube
  import opened AppendMissing

  datatype ConditionType =
    | RBACReady | ServerDiscovered | JWTSecretReady | CACertificateReady | PrincipalCertificateReady
    | ResourceProxyCertificateReady | PlacementTolerationConfigured | AddOnTemplateReady | PlacementEvaluated
    | ClustersImported | ManifestWorkCreated | ArgoCDCRDelivered | AddonConfigured | RemovedClustersCleanedUp

  datatype Status = True | False | Unknown

  /** Clusters: the names shown and how many there are in all. */
  datatype Message = Text | InProgress | NoClusters | Counted(n: nat) | Clusters(shown: seq<string>, total: nat)

  datatype Condition = Condition(kind: ConditionType, status: Status, message: Message)

  /** At most three names are shown. */
  function JoinClusterNames(names: seq<string>): Message { Clusters(if |names| <= 3 then names else names[..3], |names|) }

  /** The condition of a type: the first one, if there is any. */
  function Current(conditions: seq<Condition>, t: ConditionType): Option<Condition> {
    if conditions == [] then None
    else if conditions[0].kind == t then Some(conditions[0])
    else Current(conditions[1..], t)
  }

  /** meta.SetStatusCondition. */
  function Record(conditions: seq<Condition>, c: Condition): seq<Condition> {
    if conditions == [] then [c]
    else if conditions[0].kind == c.kind then [c] + conditions[1..]
    else [conditions[0]] + Record(conditions[1..], c)
  }

  function RecordAll(conditions: seq<Condition>, log: seq<Condition>): seq<Condition> {
    if log == [] then conditions else Record(RecordAll(conditions, log[..|log| - 1]), log[|log| - 1])
  }

  /** The last condition of a type that was set, if any. */
  function Last(log: seq<Condition>, t: ConditionType): Option<Condition> {
    if log == [] then None
    else if log[|log| - 1].kind == t then Some(log[|log| - 1])
    else Last(log[..|log| - 1], t)
  }

  lemma {:induction false} RecordExact(conditions: seq<Condition>, c: Condition, t: ConditionType)
    ensures Current(Record(conditions, c), t) == if t == c.kind then Some(c) else Current(conditions, t)
  {
    if conditions != [] {
      RecordExact(conditions[1..], c, t);
      var first := conditions[0];
      assert ([c] + conditions[1..])[1..] == conditions[1..];
      assert ([first] + Record(conditions[1..], c))[1..] == Record(conditions[1..], c);
    }
  }

  /** Of each type the status shows what was set last, or what was there before. */
  lemma {:induction false} StatusShowsLast(conditions: seq<Condition>, log: seq<Condition>, t: ConditionType)
    ensures Current(RecordAll(conditions, log), t) ==
            if Last(log, t).Some? then Last(log, t) else Current(conditions, t)
  {
    if log != [] {
      var front := log[..|log| - 1];
      StatusShowsLast(conditions, front, t);
      RecordExact(RecordAll(conditions, front), log[|log| - 1], t);
    }
  }

  function SameType(a: Condition, b: Condition): bool { a.kind == b.kind }

  /** All types but RemovedClustersCleanedUp, which appears only when clusters are removed. */
  const TRACKED: seq<ConditionType> := [
    RBACReady, ServerDiscovered, JWTSecretReady, CACertificateReady, PrincipalCertificateReady,
    ResourceProxyCertificateReady, PlacementTolerationConfigured, AddOnTemplateReady, PlacementEvaluated,
    ClustersImported, ManifestWorkCreated, ArgoCDCRDelivered, AddonConfigured]

  function Unknowns(): seq<Condition> {
    seq(|TRACKED|, i requires 0 <= i < |TRACKED| => Condition(TRACKED[i], Unknown, InProgress))
  }

  /** The status as the controller holds it and as the API server has it.  start and log are what the current run
      began with and what it has set since; write tells what happens to its updates. */
  class StatusWriter {
    const write: nat -> Outcome
    var conditions: seq<Condition>
    var persisted: seq<Condition>
    var writes: nat
    ghost var start: seq<Condition>
    ghost var log: seq<Condition>

    ghost predicate Valid()
      reads this
    {
      && writes == |log| && conditions == RecordAll(start, log)
      && (log != [] && !write(|log| - 1).Rejected? ==> persisted == conditions)
    }

    constructor (conditions: seq<Condition>, write: nat -> Outcome)
      ensures Valid() && this.conditions == conditions && persisted == conditions && this.write == write && log == []
    {
      this.conditions, persisted, this.write, writes := conditions, conditions, write, 0;
      start, log := conditions, [];
    }

    /** Existing conditions are kept; missing ones are added in one update. */
    method InitializeConditions(o: Outcome)
      modifies this
      ensures Valid() && log == [] && start == conditions
      ensures conditions == AddAll(old(conditions), Unknowns(), SameType)
      ensures persisted == if conditions == old(conditions) || o.Rejected? then old(persisted) else conditions
    {
      var needsUpdate;
      conditions, needsUpdate := EnsureAll(conditions, Unknowns(), SameType);
      if needsUpdate && !o.Rejected? {
        persisted := conditions;
      }
      start, log, writes := conditions, [], 0;
    }

    /** A failed update is only logged; the next one carries everything set so far. */
    method SetCondition(c: Condition)
      requires Valid()
      modifies this
      ensures Valid() && start == old(start) && log == old(log) + [c]
      ensures conditions == Record(old(conditions), c)
      ensures persisted == if write(|old(log)|).Rejected? then old(persisted) else conditions
    {
      RecordInPlace(c);
      assert (log + [c])[..|log|] == log;
      log := log + [c];
      if !write(writes).Rejected? {
        persisted := conditions;
      }
      writes := writes + 1;
    }

    method RecordInPlace(c: Condition)
      modifies this`conditions
      ensures conditions == Record(old(conditions), c)
    {
      var i := 0;
      while i < |conditions| && conditions[i].kind != c.kind
        invariant 0 <= i <= |conditions|
        invariant Record(conditions, c) == conditions[..i] + Record(conditions[i..], c)
      {
        assert conditions[i..][1..] == conditions[i + 1..];
        assert conditions[..i + 1] == conditions[..i] + [conditions[i]];
        i := i + 1;
      }
      ghost var result := Record(conditions, c);
      if i < |conditions| {
        assert conditions[i..][1..] == conditions[i + 1..];
        assert result == conditions[..i] + ([c] + conditions[i + 1..]);
        conditions := conditions[i := c];
      } else {
        assert conditions[i..] == [];
        conditions := conditions + [c];
      }
      assert conditions == result;
    }
  }

  lemma TrackedIsThere(after: seq<Condition>, i: nat)
    requires i < |TRACKED| && Has(after, Unknowns()[i], SameType)
    ensures Current(after, TRACKED[i]).Some?
  {
    var j :| 0 <= j < |after| && SameType(after[j], Unknowns()[i]);
    CurrentFound(after, j);
  }

  /** After initialisation every tracked condition is there, and none that was there has changed. */
  lemma AllTracked(conditions: seq<Condition>, t: ConditionType)
    ensures var after := AddAll(conditions, Unknowns(), SameType);
            && (t in TRACKED ==> Current(after, t).Some?)
            && (Current(conditions, t).Some? ==> Current(after, t) == Current(conditions, t))
  {
    var all := Unknowns();
    var after := AddAll(conditions, all, SameType);
    AddAllComplete(conditions, all, SameType);
    CurrentPrefix(conditions, after, t);
    forall i | 0 <= i < |TRACKED|
      ensures Current(after, TRACKED[i]).Some?
    {
      assert Has(after, all[i], SameType);
      TrackedIsThere(after, i);
    }
  }

  lemma {:induction false} CurrentPrefix(a: seq<Condition>, b: seq<Condition>, t: ConditionType)
    requires a <= b
    ensures Current(a, t).Some? ==> Current(b, t) == Current(a, t)
  {
    if a != [] {
      assert a[1..] <= b[1..];
      CurrentPrefix(a[1..], b[1..], t);
    }
  }

  lemma {:induction false} CurrentFound(a: seq<Condition>, j: nat)
    requires j < |a|
    ensures Current(a, a[j].kind).Some?
  {
    if j > 0 {
      CurrentFound(a[1..], j - 1);
    }
  }
}
