/** Status feedback from the spokes to the hub Applications, and how the two controllers settle. */
module StatusSync {
  import opened Kube
  import opened Json
  import opened ApplicationPayload
  import opened BasicPull

  datatype Values = Values(health: string, sync: string, phase: string, startedAt: string, revision: string)

  /** The value of the last feedback entry of that name; "" when there is none. */
  function Reported(feedback: seq<Feedback>, name: string): string {
    if feedback == [] then ""
    else if feedback[|feedback| - 1].name == name then feedback[|feedback| - 1].value
    else Reported(feedback[..|feedback| - 1], name)
  }

  function ValuesOf(feedback: seq<Feedback>, now: string): Values {
    var started := Reported(feedback, "operationStateStartedAt");
    Values(Reported(feedback, "healthStatus"), Reported(feedback, "syncStatus"),
           Reported(feedback, "operationStatePhase"), if started == "" then now else started,
           Reported(feedback, "syncRevision"))
  }

  const OPERATION: seq<string> := ["status", "operationState", "operation"]

  /** The nested fields, in the order in which they are written. */
  function Writes(v: Values): seq<(seq<string>, Json)> {
    [(HEALTH, Text(v.health)), (SYNC, Text(v.sync)), (PHASE, Text(v.phase)), (STARTED_AT, Text(v.startedAt)),
     (OPERATION, Empty()), (REVISION, Text(v.revision))]
  }

  function WriteStatus(body: Json, v: Values): Option<Json> { SetAll(body, Writes(v)) }

  datatype StatusFaults = StatusFaults(getWork: Outcome, getApp: Outcome, progressing: Outcome, final: Outcome)

  /** The Application a work's annotations name. */
  function AppOf(work: Work): Key { AppKey(Entry(work.annos, HUB_NAMESPACE), Entry(work.annos, HUB_NAME)) }

  function NoStatusFaults(): StatusFaults { StatusFaults(Accepted, Accepted, Accepted, Accepted) }

  /** One reconcile of the status controller: the new hub, the bodies it persisted in order, and success. */
  function SyncStatus(h: Hub, wk: Key, f: StatusFaults, now: string): (Hub, seq<Json>, bool) {
    match GetReply(h.works, wk, f.getWork)
    case Missing(e) => (h, [], e == NotFound)
    case Found(work) =>
      var v := ValuesOf(work.feedback, now);
      var k := AppOf(work);
      if work.deleting || v.health == "" || v.sync == "" then (h, [], true)
      else if !f.getApp.Accepted? || k !in h.apps then (h, [], false)
      else SyncApp(h, k, v, f)
  }

  function SyncApp(h: Hub, k: Key, v: Values, f: StatusFaults): (Hub, seq<Json>, bool)
    requires k in h.apps
  {
    var app := h.apps[k];
    if v.health != "Healthy" then Persist(h, k, app, WriteStatus(app.body, v), f.final)
    else
      PersistTwice(h, k, app, SetNested(app.body, HEALTH, Text("Progressing")),
                   WriteStatus(ForceIn(app.body, HEALTH, Text("Progressing")), v), f)
  }

  /** The second write is only reached when the first succeeded. */
  function PersistTwice(h: Hub, k: Key, app: Application, first: Option<Json>, second: Option<Json>, f: StatusFaults)
    : (Hub, seq<Json>, bool)
  {
    var (h', trace, ok) := Persist(h, k, app, first, f.progressing);
    if !ok || k !in h'.apps then (h', trace, false)
    else
      var (h'', more, ok') := Persist(h', k, h'.apps[k], second, f.final);
      (h'', trace + more, ok')
  }

  /** Setting the fields and updating the Application; nothing is written when a field cannot be set. */
  function Persist(h: Hub, k: Key, app: Application, body: Option<Json>, o: Outcome): (Hub, seq<Json>, bool) {
    match body
    case None => (h, [], false)
    case Some(b) =>
      (h.(apps := AfterAppUpdate(h.apps, k, app.(body := b), o)),
       if o.Rejected? then [] else [b],
       o.Accepted?)
  }

  // ---- The writer ----

  lemma WritesAreApart(v: Values)
    ensures AllApart(Writes(v))
  {
    assert HEALTH[1] == "health" && SYNC[1] == REVISION[1] == "sync";
    assert PHASE[1] == STARTED_AT[1] == OPERATION[1] == "operationState";
    assert SYNC[2] == "status" && REVISION[2] == "revision";
    assert PHASE[2] == "phase" && STARTED_AT[2] == "startedAt" && OPERATION[2] == "operation";
    assert |"health"| == 6 && |"sync"| == 4 && |"operationState"| == 14;
    assert |"status"| == 6 && |"revision"| == 8 && |"phase"| == 5 && |"startedAt"| == 9 && |"operation"| == 9;
    assert "startedAt"[0] == 's' && "operation"[0] == 'o';
    forall a, b | 0 <= a < b < 6
      ensures Apart(Fields(Writes(v)[a].0), Fields(Writes(v)[b].0))
    {
      var x, y := Writes(v)[a].0, Writes(v)[b].0;
      assert |x| == |y| == 3;
      assert x[1] != y[1] || x[2] != y[2];
      assert Fields(x)[1] == Field(x[1]) && Fields(x)[2] == Field(x[2]);
    }
  }

  /** The status can be written iff what is already on the way consists of objects; then exactly the six places
      hold the new values and every path apart from them is untouched. */
  lemma WriteStatusExact(body: Json, v: Values)
    ensures WriteStatus(body, v).Some? <==> forall t | t in Writes(v) :: Settable(body, t.0)
    ensures WriteStatus(body, v).Some? ==>
              && (forall t | t in Writes(v) :: At(WriteStatus(body, v).value, Fields(t.0)) == Some(t.1))
              && (forall p: Path | (forall t | t in Writes(v) :: Apart(p, Fields(t.0))) ::
                    At(WriteStatus(body, v).value, p) == At(body, p))
  {
    WritesAreApart(v);
    SetAllExact(body, Writes(v));
  }

  lemma ForceInOther(j: Json, names: seq<string>, v: Json, other: string)
    requires names != [] && names[0] != other && IsObject(j)
    ensures Get(ForceIn(j, names, v), other) == Get(j, other) && IsObject(ForceIn(j, names, v))
  {
  }

  lemma {:induction false} SetAllOther(j: Json, todo: seq<(seq<string>, Json)>, other: string)
    requires forall t | t in todo :: t.0 != [] && t.0[0] != other
    requires IsObject(j) && SetAll(j, todo).Some?
    ensures Get(SetAll(j, todo).value, other) == Get(j, other) && IsObject(SetAll(j, todo).value)
    decreases |todo|
  {
    if todo != [] {
      assert todo[0] in todo;
      ForceInOther(j, todo[0].0, todo[0].1, other);
      SetAllOther(ForceIn(j, todo[0].0, todo[0].1), todo[1..], other);
    }
  }

  // ---- Round trip ----

  /** What a JSON path rule yields on the spoke: the string at the path, "" for anything else. */
  function TextAt(j: Json, names: seq<string>): string {
    match At(j, Fields(names)) case Some(Scalar(Str(s))) => s case _ => ""
  }

  /** The spoke's side: one entry for every rule whose path holds a string. */
  function Extract(spoke: Json, rules: seq<FeedbackRule>): seq<Feedback> {
    if rules == [] then []
    else
      var last := rules[|rules| - 1];
      Extract(spoke, rules[..|rules| - 1]) +
      (match At(spoke, Fields(last.path)) case Some(Scalar(Str(s))) => [Feedback(last.name, s)] case _ => [])
  }

  lemma {:induction false} ExtractReported(spoke: Json, rules: seq<FeedbackRule>)
    requires forall a, b | 0 <= a < b < |rules| :: rules[a].name != rules[b].name
    ensures forall i | 0 <= i < |rules| :: Reported(Extract(spoke, rules), rules[i].name) == TextAt(spoke, rules[i].path)
    ensures forall n | (forall i | 0 <= i < |rules| :: rules[i].name != n) :: Reported(Extract(spoke, rules), n) == ""
  {
    if rules != [] {
      var init, last := rules[..|rules| - 1], rules[|rules| - 1];
      ExtractReported(spoke, init);
      var e := Extract(spoke, rules);
      match At(spoke, Fields(last.path)) {
        case Some(Scalar(Str(s))) =>
          assert e == Extract(spoke, init) + [Feedback(last.name, s)];
          assert e[..|e| - 1] == Extract(spoke, init);
          assert forall n :: Reported(e, n) == if n == last.name then s else Reported(Extract(spoke, init), n);
        case _ =>
          assert e == Extract(spoke, init);
      }
      assert forall i | 0 <= i < |init| :: init[i] == rules[i];
    }
  }

  lemma RuleNamesDiffer()
    ensures forall a, b | 0 <= a < b < 5 :: Rules()[a].name != Rules()[b].name
  {
    assert |"healthStatus"| == 12 && |"syncStatus"| == 10 && |"operationStateStartedAt"| == 23;
    assert |"operationStatePhase"| == 19 && |"syncRevision"| == 12;
    assert "healthStatus"[0] == 'h' && "syncRevision"[0] == 's';
  }

  lemma ReportedFromSpoke(spoke: Json, now: string)
    ensures ValuesOf(Extract(spoke, Rules()), now) ==
            Values(TextAt(spoke, HEALTH), TextAt(spoke, SYNC), TextAt(spoke, PHASE),
                   if TextAt(spoke, STARTED_AT) == "" then now else TextAt(spoke, STARTED_AT),
                   TextAt(spoke, REVISION))
  {
    var rules := Rules();
    RuleNamesDiffer();
    ExtractReported(spoke, rules);
    assert rules[0].name == "healthStatus" && rules[1].name == "syncStatus";
    assert rules[2].name == "operationStateStartedAt";
    assert rules[3].name == "operationStatePhase" && rules[4].name == "syncRevision";
  }

  lemma WrittenValues(body: Json, v: Values)
    requires WriteStatus(body, v).Some?
    ensures var r := WriteStatus(body, v).value;
            && Values(TextAt(r, HEALTH), TextAt(r, SYNC), TextAt(r, PHASE), TextAt(r, STARTED_AT), TextAt(r, REVISION)) == v
            && At(r, Fields(OPERATION)) == Some(Empty())
  {
    WrittenAt(body, v, 0, HEALTH, Text(v.health));
    WrittenAt(body, v, 1, SYNC, Text(v.sync));
    WrittenAt(body, v, 2, PHASE, Text(v.phase));
    WrittenAt(body, v, 3, STARTED_AT, Text(v.startedAt));
    WrittenAt(body, v, 4, OPERATION, Empty());
    WrittenAt(body, v, 5, REVISION, Text(v.revision));
  }

  lemma WrittenAt(body: Json, v: Values, i: nat, names: seq<string>, x: Json)
    requires WriteStatus(body, v).Some? && i < 6 && Writes(v)[i] == (names, x)
    ensures At(WriteStatus(body, v).value, Fields(names)) == Some(x)
  {
    WriteStatusExact(body, v);
    assert Writes(v)[i] in Writes(v);
  }

  /** Hub and spoke agree at the five paths, an absent or empty start time being replaced by the current time; the
      operation is emptied. */
  predicate Agree(hub: Json, spoke: Json, now: string) {
    && TextAt(hub, ["status", "health", "status"]) == TextAt(spoke, ["status", "health", "status"])
    && TextAt(hub, ["status", "sync", "status"]) == TextAt(spoke, ["status", "sync", "status"])
    && TextAt(hub, ["status", "operationState", "phase"]) == TextAt(spoke, ["status", "operationState", "phase"])
    && TextAt(hub, ["status", "sync", "revision"]) == TextAt(spoke, ["status", "sync", "revision"])
    && var started := TextAt(spoke, ["status", "operationState", "startedAt"]);
       TextAt(hub, ["status", "operationState", "startedAt"]) == (if started == "" then now else started)
       && At(hub, Fields(["status", "operationState", "operation"])) == Some(Empty())
  }

  /** From the spoke's status through the five feedback rules and the writer into the hub. */
  lemma FeedbackRoundTrip(spoke: Json, hub: Json, now: string)
    requires WriteStatus(hub, ValuesOf(Extract(spoke, Rules()), now)).Some?
    ensures Agree(WriteStatus(hub, ValuesOf(Extract(spoke, Rules()), now)).value, spoke, now)
  {
    ReportedFromSpoke(spoke, now);
    WrittenValues(hub, ValuesOf(Extract(spoke, Rules()), now));
  }

  /** Having said Progressing first makes no difference to what is written in the end. */
  lemma ProgressingIsOverwritten(body: Json, v: Values)
    requires Settable(body, HEALTH)
    ensures WriteStatus(ForceIn(body, HEALTH, Text("Progressing")), v) == WriteStatus(body, v)
  {
    ForceInOver(body, HEALTH, Text("Progressing"), Text(v.health));
    assert Writes(v)[0] == (HEALTH, Text(v.health));
  }

  lemma SyncedBody(h: Hub, k: Key, v: Values)
    requires k in h.apps && (h.apps[k].deleting ==> h.apps[k].finalizers != [])
    ensures var (h', trace, ok) := SyncApp(h, k, v, NoStatusFaults());
            var written := WriteStatus(h.apps[k].body, v);
            && (ok <==> written.Some?)
            && (ok ==> h'.apps == h.apps[k := h.apps[k].(body := written.value)])
  {
    var body := h.apps[k].body;
    if Settable(body, HEALTH) {
      ProgressingIsOverwritten(body, v);
    } else {
      assert Writes(v)[0] == (HEALTH, Text(v.health));
    }
  }

  /** A whole fault-free status run on a report of the spoke's, the intermediate Progressing included: it succeeds
      exactly when the hub Application's status can be written at all, and then the stored Application agrees with the
      spoke. */
  lemma SyncRoundTrip(h: Hub, wk: Key, spoke: Json, now: string)
    requires wk in h.works && !h.works[wk].deleting && h.works[wk].feedback == Extract(spoke, Rules())
    requires TextAt(spoke, HEALTH) != "" && TextAt(spoke, SYNC) != ""
    requires var k := AppOf(h.works[wk]); k in h.apps && (h.apps[k].deleting ==> h.apps[k].finalizers != [])
    ensures var k := AppOf(h.works[wk]);
            var (h', trace, ok) := SyncStatus(h, wk, NoStatusFaults(), now);
            && (ok <==> WriteStatus(h.apps[k].body, ValuesOf(Extract(spoke, Rules()), now)).Some?)
            && (ok ==> k in h'.apps && Agree(h'.apps[k].body, spoke, now) && h'.apps.Keys == h.apps.Keys)
  {
    var k, v := AppOf(h.works[wk]), ValuesOf(Extract(spoke, Rules()), now);
    ReportedFromSpoke(spoke, now);
    SyncedBody(h, k, v);
    if WriteStatus(h.apps[k].body, v).Some? {
      FeedbackRoundTrip(spoke, h.apps[k].body, now);
    }
  }

  // ---- Reports that say too little ----

  lemma {:induction false} ReportedIsLast(feedback: seq<Feedback>, name: string, i: nat)
    requires i < |feedback| && feedback[i].name == name
    requires forall j | i < j < |feedback| :: feedback[j].name != name
    ensures Reported(feedback, name) == feedback[i].value
  {
    if i < |feedback| - 1 {
      ReportedIsLast(feedback[..|feedback| - 1], name, i);
    }
  }

  lemma {:induction false} ReportedIsEmpty(feedback: seq<Feedback>, name: string)
    requires forall f | f in feedback :: f.name == name ==> f.value == ""
    ensures Reported(feedback, name) == ""
  {
    if feedback != [] {
      ReportedIsEmpty(feedback[..|feedback| - 1], name);
    }
  }

  /** A work that reports no health status, or no sync status, leaves everything as it is, and that is no error; so does a
      work that is being deleted. */
  lemma SilentReportChangesNothing(h: Hub, wk: Key, f: StatusFaults, now: string)
    requires wk in h.works && f.getWork.Accepted?
    requires h.works[wk].deleting
             || (forall x | x in h.works[wk].feedback :: x.name == "healthStatus" ==> x.value == "")
             || (forall x | x in h.works[wk].feedback :: x.name == "syncStatus" ==> x.value == "")
    ensures SyncStatus(h, wk, f, now) == (h, [], true)
  {
    if forall x | x in h.works[wk].feedback :: x.name == "healthStatus" ==> x.value == "" {
      ReportedIsEmpty(h.works[wk].feedback, "healthStatus");
    }
    if forall x | x in h.works[wk].feedback :: x.name == "syncStatus" ==> x.value == "" {
      ReportedIsEmpty(h.works[wk].feedback, "syncStatus");
    }
  }

  // ---- Works of two Applications ----

  /** Two Applications are given the same work exactly when they go to the same cluster under the same name and their
      UIDs begin alike: different namespaces do not keep them apart. */
  lemma SharedWorkIff(a: Application, b: Application)
    requires |a.uid| >= 5 && |b.uid| >= 5
    ensures WorkKey(a) == WorkKey(b) <==> ClusterOf(a) == ClusterOf(b) && a.name == b.name && a.uid[..5] == b.uid[..5]
  {
    var x, y := WorkName(a.name, a.uid), WorkName(b.name, b.uid);
    assert x[..|x| - 6] == a.name && y[..|y| - 6] == b.name;
    assert x[|x| - 5..] == a.uid[..5] && y[|y| - 5..] == b.uid[..5];
  }

  // ---- Progressing before Healthy ----

  lemma SyncAppTrace(h: Hub, k: Key, v: Values, f: StatusFaults, i: nat)
    requires k in h.apps && i < |SyncApp(h, k, v, f).1| && TextAt(SyncApp(h, k, v, f).1[i], HEALTH) == "Healthy"
    ensures i == 1 && SyncApp(h, k, v, f).1[0] == ForceIn(h.apps[k].body, HEALTH, Text("Progressing"))
  {
    var body := h.apps[k].body;
    var first := ForceIn(body, HEALTH, Text("Progressing"));
    ForceInSets(body, HEALTH, Text("Progressing"));
    assert "Progressing" != "Healthy" by { assert |"Progressing"| == 11 && |"Healthy"| == 7; }
    if WriteStatus(body, v).Some? {
      WrittenValues(body, v);
    }
    if WriteStatus(first, v).Some? {
      WrittenValues(first, v);
    }
  }

  /** Whatever fails, a body that says Healthy is never the first one persisted in a run: it follows one that
      differs from the stored Application only in saying Progressing. */
  lemma HealthyFollowsProgressing(h: Hub, wk: Key, f: StatusFaults, now: string, i: nat)
    requires i < |SyncStatus(h, wk, f, now).1| && TextAt(SyncStatus(h, wk, f, now).1[i], HEALTH) == "Healthy"
    ensures i == 1
    ensures exists k :: k in h.apps &&
              SyncStatus(h, wk, f, now).1[0] == ForceIn(h.apps[k].body, HEALTH, Text("Progressing"))
  {
    var work := h.works[wk];
    var k := AppOf(work);
    SyncAppTrace(h, k, ValuesOf(work.feedback, now), f, i);
  }

  // ---- Quiescence ----

  /** Without user edits and without faults: reconciles of Applications, of works' status, and new reports. */
  datatype Event =
    | AppRound(k: Key, order: seq<Key>)
    | StatusRound(wk: Key, now: string)
    | Report(wk: Key, feedback: seq<Feedback>)

  function Step(h: Hub, e: Event): Hub
    requires WellStored(h)
  {
    match e
    case AppRound(k, order) => Reconcile(h, k, NoFaults(order)).0
    case StatusRound(wk, now) => SyncStatus(h, wk, NoStatusFaults(), now).0
    case Report(wk, feedback) => if wk in h.works then h.(works := h.works[wk := h.works[wk].(feedback := feedback)]) else h
  }

  /** k is a live Application on an existing cluster. */
  predicate Ready(h: Hub, k: Key) {
    k in h.apps && !h.apps[k].deleting && ClusterOf(h.apps[k]) in h.clusters
  }

  predicate NoOperation(h: Hub, k: Key)
    requires k in h.apps
  {
    Get(h.apps[k].body, "operation").None?
  }

  /** k's work is the one its Application asks for, and there is no operation left to strip. */
  predicate Settled(h: Hub, k: Key)
    requires WellStored(h)
  {
    && Ready(h, k) && NoOperation(h, k)
    && var app := h.apps[k];
       && WorkKey(app) in h.works
       && Rewritten(h.works[WorkKey(app)], GenerateWork(app)) == h.works[WorkKey(app)]
  }

  /** Other Applications do not share k's work. */
  predicate Independent(h: Hub, k: Key, e: Event)
    requires WellStored(h) && k in h.apps
  {
    e.AppRound? && e.k != k && e.k in h.apps ==> WorkKey(h.apps[e.k]) != WorkKey(h.apps[k])
  }

  /** The same Application but for what the status controller may write. */
  predicate SameButStatus(a: Application, b: Application) {
    b == a.(body := b.body) && SameRest(a.body, b.body)
  }

  /** Only Applications change, only in their status, and only those being deleted can go away. */
  predicate OnlyStatusChanged(h: Hub, h': Hub) {
    && h'.works == h.works && h'.clusters == h.clusters && h'.apps.Keys <= h.apps.Keys
    && (forall k | k in h'.apps :: SameButStatus(h.apps[k], h'.apps[k]))
    && (forall k | k in h.apps && !h.apps[k].deleting :: k in h'.apps)
  }

  lemma PersistKeepsStored(h: Hub, k: Key, app: Application, body: Option<Json>, o: Outcome)
    requires WellStored(h) && k in h.apps && SameButStatus(h.apps[k], app)
    requires body.Some? ==> SameButStatus(app, app.(body := body.value))
    ensures WellStored(Persist(h, k, app, body, o).0)
  {
  }

  lemma PersistKeeps(h: Hub, k: Key, app: Application, body: Option<Json>, o: Outcome)
    requires WellStored(h) && k in h.apps && SameButStatus(h.apps[k], app)
    requires body.Some? ==> SameButStatus(app, app.(body := body.value))
    ensures OnlyStatusChanged(h, Persist(h, k, app, body, o).0) && WellStored(Persist(h, k, app, body, o).0)
    ensures body.Some? && o.Accepted? && k in Persist(h, k, app, body, o).0.apps ==>
              Persist(h, k, app, body, o).0.apps[k] == app.(body := body.value)
  {
    PersistKeepsStored(h, k, app, body, o);
  }

  lemma SyncKeepsApplications(h: Hub, wk: Key, f: StatusFaults, now: string)
    requires WellStored(h)
    ensures OnlyStatusChanged(h, SyncStatus(h, wk, f, now).0) && WellStored(SyncStatus(h, wk, f, now).0)
  {
    if f.getWork.Accepted? && wk in h.works {
      var work := h.works[wk];
      var v := ValuesOf(work.feedback, now);
      var k := AppOf(work);
      if k in h.apps {
        SyncAppKeeps(h, k, v, f);
      }
    }
  }

  lemma SyncAppKeeps(h: Hub, k: Key, v: Values, f: StatusFaults)
    requires WellStored(h) && k in h.apps
    ensures OnlyStatusChanged(h, SyncApp(h, k, v, f).0) && WellStored(SyncApp(h, k, v, f).0)
  {
    var app := h.apps[k];
    ProgressingLeavesRest(app.body);
    WriteLeavesRest(app.body, v);
    WriteLeavesRest(ForceIn(app.body, HEALTH, Text("Progressing")), v);
    if v.health != "Healthy" {
      PersistKeeps(h, k, app, WriteStatus(app.body, v), f.final);
    } else {
      PersistTwiceKeeps(h, k, app, SetNested(app.body, HEALTH, Text("Progressing")),
                        WriteStatus(ForceIn(app.body, HEALTH, Text("Progressing")), v), f);
    }
  }

  lemma StatusChangesCompose(h: Hub, h': Hub, h'': Hub)
    requires OnlyStatusChanged(h, h') && OnlyStatusChanged(h', h'')
    ensures OnlyStatusChanged(h, h'')
  {
    forall k | k in h''.apps
      ensures SameButStatus(h.apps[k], h''.apps[k])
    {
      assert SameButStatus(h'.apps[k], h''.apps[k]) && SameButStatus(h.apps[k], h'.apps[k]);
    }
    forall k | k in h.apps && !h.apps[k].deleting
      ensures k in h''.apps
    {
      assert SameButStatus(h.apps[k], h'.apps[k]);
    }
  }

  lemma PersistTwiceKeeps(h: Hub, k: Key, app: Application, first: Option<Json>, second: Option<Json>, f: StatusFaults)
    requires WellStored(h) && k in h.apps && app == h.apps[k]
    requires forall b | b in {first, second} && b.Some? :: SameButStatus(app, app.(body := b.value))
    ensures OnlyStatusChanged(h, PersistTwice(h, k, app, first, second, f).0)
    ensures WellStored(PersistTwice(h, k, app, first, second, f).0)
  {
    PersistKeeps(h, k, app, first, f.progressing);
    var h' := Persist(h, k, app, first, f.progressing).0;
    if k in h'.apps {
      PersistKeeps(h', k, h'.apps[k], second, f.final);
      StatusChangesCompose(h, h', Persist(h', k, h'.apps[k], second, f.final).0);
    }
  }

  /** Same spec and same operation. */
  predicate SameRest(a: Json, b: Json) {
    IsObject(b) && Get(b, "spec") == Get(a, "spec") && Get(b, "operation") == Get(a, "operation")
  }

  lemma ElsewhereThanStatus()
    ensures HEALTH[0] != "spec" && HEALTH[0] != "operation"
    ensures forall v: Values, t | t in Writes(v) :: t.0[0] == HEALTH[0]
  {
    assert |"spec"| == 4 && |"operation"| == 9 && |"status"| == 6;
  }

  lemma WriteLeavesRest(body: Json, v: Values)
    requires IsObject(body)
    ensures WriteStatus(body, v).Some? ==> SameRest(body, WriteStatus(body, v).value)
  {
    ElsewhereThanStatus();
    if WriteStatus(body, v).Some? {
      SetAllOther(body, Writes(v), "spec");
      SetAllOther(body, Writes(v), "operation");
    }
  }

  lemma ProgressingLeavesRest(body: Json)
    requires IsObject(body)
    ensures SameRest(body, ForceIn(body, HEALTH, Text("Progressing")))
  {
    ElsewhereThanStatus();
    ForceInOther(body, HEALTH, Text("Progressing"), "spec");
    ForceInOther(body, HEALTH, Text("Progressing"), "operation");
  }

  lemma StepKeepsStored(h: Hub, e: Event)
    requires WellStored(h)
    ensures WellStored(Step(h, e))
  {
    match e
    case AppRound(k, order) => WellStoredKept(h, k, NoFaults(order));
    case StatusRound(wk, now) => SyncKeepsApplications(h, wk, NoStatusFaults(), now);
    case Report(_, _) =>
  }

  function Run(h: Hub, es: seq<Event>): Hub
    requires WellStored(h)
    decreases |es|
  {
    if es == [] then h else StepKeepsStored(h, es[0]); Run(Step(h, es[0]), es[1..])
  }

  predicate IndependentRun(h: Hub, k: Key, es: seq<Event>)
    requires WellStored(h)
    decreases |es|
  {
    es == [] || (k in h.apps && Independent(h, k, es[0])
                 && (StepKeepsStored(h, es[0]); IndependentRun(Step(h, es[0]), k, es[1..])))
  }

  function Rounds(es: seq<Event>, k: Key): nat
    decreases |es|
  {
    if es == [] then 0 else (if es[0].AppRound? && es[0].k == k then 1 else 0) + Rounds(es[1..], k)
  }

  /** 0: an operation may have to be stripped; 1: it is gone; 2: the work is up to date as well. */
  function Stage(h: Hub, k: Key): nat
    requires WellStored(h) && k in h.apps
  {
    if Settled(h, k) then 2 else if NoOperation(h, k) then 1 else 0
  }

  lemma OperationStripped(app: Application)
    requires IsObject(app.body)
    ensures Get(WithoutOperation(app).body, "operation").None?
    ensures Get(app.body, "operation").None? || !IsObject(Get(app.body, "operation").value) ==>
              GenerateWork(WithoutOperation(app)) == GenerateWork(app)
    ensures Get(app.body, "operation").Some? && IsObject(Get(app.body, "operation").value) ==>
              GenerateWork(WithoutOperation(app)).spec != GenerateWork(app).spec
  {
    assert |"spec"| == 4 && |"operation"| == 9;
    assert Get(WithoutOperation(app).body, "spec") == Get(app.body, "spec");
    var before, after := PayloadBody(app.body, app.annos), PayloadBody(WithoutOperation(app).body, app.annos);
    assert Get(after, "operation").None?;
    assert Get(app.body, "operation").Some? && IsObject(Get(app.body, "operation").value) ==> Get(before, "operation").Some?;
  }

  /** One reconcile of a live Application writes its work from what it is now and strips the operation. */
  lemma OwnRound(h: Hub, k: Key, order: seq<Key>)
    requires WellStored(h) && Ready(h, k)
    ensures var h', app := Step(h, AppRound(k, order)), h.apps[k];
            && Ready(h', k) && NoOperation(h', k) && h'.clusters == h.clusters
            && h'.apps[k] == (if NoOperation(h, k) then app else WithoutOperation(app))
            && h'.works == h.works[WorkKey(app) := if WorkKey(app) in h.works
                                                   then Rewritten(h.works[WorkKey(app)], GenerateWork(app))
                                                   else NewWork(GenerateWork(app))]
  {
    OperationStripped(h.apps[k]);
  }

  /** Two rounds are enough, and one is exactly when there was no operation object to be delivered first. */
  lemma OneRoundSettlesIff(h: Hub, k: Key, order: seq<Key>)
    requires WellStored(h) && Ready(h, k)
    ensures WellStored(Step(h, AppRound(k, order)))
    ensures Settled(Step(h, AppRound(k, order)), k) <==>
              !(Get(h.apps[k].body, "operation").Some? && IsObject(Get(h.apps[k].body, "operation").value))
  {
    StepKeepsStored(h, AppRound(k, order));
    OwnRound(h, k, order);
    OperationStripped(h.apps[k]);
  }

  /** A settled Application's reconcile changes nothing at all. */
  lemma SettledIsFixpoint(h: Hub, k: Key, order: seq<Key>)
    requires WellStored(h) && Settled(h, k)
    ensures Step(h, AppRound(k, order)) == h
  {
    OwnRound(h, k, order);
  }

  lemma OtherRoundApps(h: Hub, k: Key, e: Event)
    requires WellStored(h) && k in h.apps && e.AppRound? && e.k != k
    ensures var h' := Step(h, e); h'.clusters == h.clusters && k in h'.apps && h'.apps[k] == h.apps[k]
  {
  }

  /** A round of another Application leaves k and its work alone. */
  lemma OtherRound(h: Hub, k: Key, e: Event)
    requires WellStored(h) && k in h.apps && Independent(h, k, e) && e.AppRound? && e.k != k
    ensures var h' := Step(h, e);
            && h'.clusters == h.clusters && k in h'.apps && h'.apps[k] == h.apps[k]
            && (WorkKey(h.apps[k]) in h.works && Names(h.works[WorkKey(h.apps[k])], k) ==>
                  WorkKey(h.apps[k]) in h'.works && h'.works[WorkKey(h.apps[k])] == h.works[WorkKey(h.apps[k])])
  {
    OtherRoundApps(h, k, e);
    if e.k !in h.apps {
      var todo := NamedIn(h.works, e.order, e.k);
      NamedInExact(h.works, e.order, e.k);
      DeleteEachRemoves(h.works, todo, NoFaults(e.order).deleteWork);
    }
  }

  lemma SettledNamesItself(h: Hub, k: Key)
    requires WellStored(h) && Settled(h, k)
    ensures Names(h.works[WorkKey(h.apps[k])], k)
  {
    WorkNamesItsApplication(h.apps[k]);
  }

  lemma StageStep(h: Hub, k: Key, e: Event)
    requires WellStored(h) && Ready(h, k) && Independent(h, k, e)
    ensures WellStored(Step(h, e)) && Ready(Step(h, e), k)
    ensures WorkKey(Step(h, e).apps[k]) == WorkKey(h.apps[k])
    ensures Stage(Step(h, e), k) >= if e.AppRound? && e.k == k && Stage(h, k) < 2 then Stage(h, k) + 1 else Stage(h, k)
    ensures Settled(h, k) ==> Rewritten(Step(h, e).works[WorkKey(h.apps[k])], GenerateWork(h.apps[k])) ==
                              Step(h, e).works[WorkKey(h.apps[k])]
  {
    StepKeepsStored(h, e);
    if Settled(h, k) {
      SettledNamesItself(h, k);
    }
    match e {
      case AppRound(k', order) =>
        if k' == k {
          OwnRound(h, k, order);
          OneRoundSettlesIff(h, k, order);
          if Settled(h, k) {
            SettledIsFixpoint(h, k, order);
          }
        } else {
          OtherRound(h, k, e);
        }
      case StatusRound(wk, now) =>
        SyncKeepsApplications(h, wk, NoStatusFaults(), now);
        WorkIgnoresStatus(h.apps[k], Step(h, e).apps[k].body);
      case Report(wk, feedback) =>
    }
  }

  /** Quiescence.  However status rounds, new reports and other Applications' rounds are mixed in, two rounds of a
      live Application settle it, and once settled its work never changes again but for what the spoke reports. */
  lemma {:induction false} SettlesAfterTwoRounds(h: Hub, k: Key, es: seq<Event>)
    requires WellStored(h) && Ready(h, k) && IndependentRun(h, k, es)
    ensures WellStored(Run(h, es)) && Ready(Run(h, es), k)
    ensures Stage(h, k) + Rounds(es, k) >= 2 ==> Settled(Run(h, es), k)
    ensures Settled(h, k) ==>
              && WorkKey(h.apps[k]) in Run(h, es).works
              && Rewritten(Run(h, es).works[WorkKey(h.apps[k])], GenerateWork(h.apps[k])) == Run(h, es).works[WorkKey(h.apps[k])]
    decreases |es|
  {
    if es != [] {
      StageStep(h, k, es[0]);
      SettlesAfterTwoRounds(Step(h, es[0]), k, es[1..]);
      if Settled(h, k) {
        SameWork(h, k, es[0]);
      }
    }
  }

  /** Between settled states the generated work is one and the same. */
  lemma SameWork(h: Hub, k: Key, e: Event)
    requires WellStored(h) && Settled(h, k) && Independent(h, k, e)
    ensures WellStored(Step(h, e)) && Settled(Step(h, e), k)
    ensures GenerateWork(Step(h, e).apps[k]) == GenerateWork(h.apps[k])
  {
    StageStep(h, k, e);
    var wk := WorkKey(h.apps[k]);
    var w, g, g' := Step(h, e).works[wk], GenerateWork(h.apps[k]), GenerateWork(Step(h, e).apps[k]);
    assert Rewritten(w, g) == w && Rewritten(w, g') == w;
    assert g == Generated(w.labels, w.annos, w.spec) == g';
  }

  // ---- The imperative code ----

  /** The loop over the feedback values. */
  method ReadFeedback(feedback: seq<Feedback>, now: string) returns (v: Values)
    ensures v == ValuesOf(feedback, now)
  {
    var healthStatus, syncStatus, phase, startedAt, revision := "", "", "", "", "";
    for i := 0 to |feedback|
      invariant healthStatus == Reported(feedback[..i], "healthStatus")
      invariant syncStatus == Reported(feedback[..i], "syncStatus")
      invariant phase == Reported(feedback[..i], "operationStatePhase")
      invariant startedAt == Reported(feedback[..i], "operationStateStartedAt")
      invariant revision == Reported(feedback[..i], "syncRevision")
    {
      var f := feedback[i];
      assert feedback[..i + 1][..i] == feedback[..i];
      if f.name == "healthStatus" {
        healthStatus := f.value;
      }
      if f.name == "syncStatus" {
        syncStatus := f.value;
      }
      if f.name == "operationStatePhase" {
        phase := f.value;
      }
      if f.name == "operationStateStartedAt" {
        startedAt := f.value;
      }
      if f.name == "syncRevision" {
        revision := f.value;
      }
    }
    assert feedback[..|feedback|] == feedback;
    if startedAt == "" {
      startedAt := now;
    }
    return Values(healthStatus, syncStatus, phase, startedAt, revision);
  }

  class StatusReconciler {
    var hub: Hub
    var persisted: seq<Json>

    method UpdateBody(k: Key, body: Json, o: Outcome) returns (ok: bool)
      requires k in hub.apps
      modifies this
      ensures (hub, ok) == (Persist(old(hub), k, old(hub).apps[k], Some(body), o).0, o.Accepted?)
      ensures persisted == old(persisted) + Persist(old(hub), k, old(hub).apps[k], Some(body), o).1
    {
      assert persisted + [] == persisted;
      if o != Rejected {
        hub := hub.(apps := AfterAppUpdate(hub.apps, k, hub.apps[k].(body := body), o));
        persisted := persisted + [body];
      }
      return o == Accepted;
    }

    method ReconcileStatus(wk: Key, f: StatusFaults, now: string) returns (ok: bool)
      modifies this
      ensures (hub, ok) == (SyncStatus(old(hub), wk, f, now).0, SyncStatus(old(hub), wk, f, now).2)
      ensures persisted == old(persisted) + SyncStatus(old(hub), wk, f, now).1
    {
      assert persisted + [] == persisted;
      if f.getWork != Accepted {
        return false;
      }
      if wk !in hub.works || hub.works[wk].deleting {
        return true;
      }
      var work := hub.works[wk];
      var v := ReadFeedback(work.feedback, now);
      if v.health == "" || v.sync == "" {
        return true;
      }
      var k := AppOf(work);
      if f.getApp != Accepted || k !in hub.apps {
        return false;
      }
      ok := WriteFeedback(k, v, f);
    }

    method WriteFeedback(k: Key, v: Values, f: StatusFaults) returns (ok: bool)
      requires k in hub.apps
      modifies this
      ensures (hub, ok) == (SyncApp(old(hub), k, v, f).0, SyncApp(old(hub), k, v, f).2)
      ensures persisted == old(persisted) + SyncApp(old(hub), k, v, f).1
    {
      assert persisted + [] == persisted;
      var body := hub.apps[k].body;
      if v.health == "Healthy" {
        var progressing := SetNested(body, HEALTH, Text("Progressing"));
        if progressing.None? {
          return false;
        }
        body := progressing.value;
        var stored := UpdateBody(k, body, f.progressing);
        if !stored || k !in hub.apps {
          return false;
        }
      }
      var final := WriteStatus(body, v);
      if final.None? {
        return false;
      }
      ok := UpdateBody(k, final.value, f.final);
    }
  }
}
