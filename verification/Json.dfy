/** JSON documents as values, and the same documents as Go holds them: maps and slices on the heap. */
module Json {
  import opened Kube

  datatype Elem = Field(name: string) | Index(i: nat)

  datatype Prim = Null | Bool(b: bool) | Num(n: int) | Str(s: string)

  /** Objects and arrays are both trees; an object's children are fields, an array's are numbered. */
  datatype Json = Scalar(prim: Prim) | Tree(isArray: bool, kids: map<Elem, Json>)

  type Path = seq<Elem>

  predicate IsObject(j: Json) { j.Tree? && !j.isArray }

  function Empty(): Json { Tree(false, map[]) }

  function Text(s: string): Json { Scalar(Str(s)) }

  /** What obj[name] yields, for anything that need not be an object or have the field. */
  function Get(j: Json, name: string): Option<Json> {
    if IsObject(j) && Field(name) in j.kids then Some(j.kids[Field(name)]) else None
  }

  function Put(j: Json, name: string, v: Json): Json
    requires IsObject(j)
  {
    j.(kids := j.kids[Field(name) := v])
  }

  /** obj[name].(string), with "" when that is not possible. */
  function GetText(j: Json, name: string): string {
    match Get(j, name) case Some(Scalar(Str(s))) => s case _ => ""
  }

  function At(j: Json, p: Path): Option<Json> {
    if p == [] then Some(j)
    else if j.Tree? && p[0] in j.kids then At(j.kids[p[0]], p[1..])
    else None
  }

  /** What one sees at a path without looking below it. */
  datatype Shape = Absent | Leaf(prim: Prim) | ObjectHere | ArrayHere

  function ShapeAt(j: Json, p: Path): Shape {
    match At(j, p)
    case None => Absent
    case Some(Scalar(prim)) => Leaf(prim)
    case Some(Tree(isArray, _)) => if isArray then ArrayHere else ObjectHere
  }

  lemma {:induction false} AtConcat(j: Json, p: Path, q: Path)
    ensures At(j, p + q) == (match At(j, p) case None => None case Some(k) => At(k, q))
  {
    if p == [] {
      assert p + q == q;
    } else {
      assert (p + q)[1..] == p[1..] + q;
      if j.Tree? && p[0] in j.kids {
        AtConcat(j.kids[p[0]], p[1..], q);
      }
    }
  }

  // ---- Setting a nested field ----

  function Fields(names: seq<string>): (p: Path)
    ensures |p| == |names| && forall i | 0 <= i < |p| :: p[i] == Field(names[i])
  {
    seq(|names|, i requires 0 <= i < |names| => Field(names[i]))
  }

  /** j with v at names; everything on the way there that is not an object becomes one. */
  function ForceIn(j: Json, names: seq<string>, v: Json): Json
    requires names != []
    decreases |names|
  {
    var o := if IsObject(j) then j else Empty();
    if |names| == 1 then Put(o, names[0], v)
    else
      var below := if Field(names[0]) in o.kids then o.kids[Field(names[0])] else Empty();
      Put(o, names[0], ForceIn(below, names[1..], v))
  }

  /** Every step on the way to names is an object or absent. */
  predicate Settable(j: Json, names: seq<string>)
    requires names != []
    decreases |names|
  {
    && IsObject(j)
    && (|names| > 1 && Field(names[0]) in j.kids ==> Settable(j.kids[Field(names[0])], names[1..]))
  }

  /** unstructured.SetNestedField. */
  function SetNested(j: Json, names: seq<string>, v: Json): Option<Json>
    requires names != []
  {
    if Settable(j, names) then Some(ForceIn(j, names, v)) else None
  }

  /** p and q part ways: neither leads to the other. */
  predicate Apart(p: Path, q: Path) { !(p <= q) && !(q <= p) }

  /** The new value is where it was put, ... */
  lemma {:induction false} ForceInSets(j: Json, names: seq<string>, v: Json)
    requires names != []
    ensures At(ForceIn(j, names, v), Fields(names)) == Some(v)
    decreases |names|
  {
    if |names| > 1 {
      var o := if IsObject(j) then j else Empty();
      var below := if Field(names[0]) in o.kids then o.kids[Field(names[0])] else Empty();
      ForceInSets(below, names[1..], v);
      assert Fields(names)[1..] == Fields(names[1..]);
    } else {
      assert Fields(names)[1..] == [];
    }
  }

  /** ... the way there consists of objects, and nothing else changes, provided nothing had to be replaced. */
  lemma {:induction false} ForceInKeeps(j: Json, names: seq<string>, v: Json, p: Path)
    requires names != [] && Settable(j, names)
    ensures Apart(p, Fields(names)) ==> At(ForceIn(j, names, v), p) == At(j, p)
    ensures p <= Fields(names) && p != Fields(names) ==> ShapeAt(ForceIn(j, names, v), p) == ObjectHere
    decreases |names|
  {
    var f := Fields(names);
    if p != [] && |names| > 1 && p[0] == f[0] {
      var below := if f[0] in j.kids then j.kids[f[0]] else Empty();
      ForceInKeeps(below, names[1..], v, p[1..]);
      assert f[1..] == Fields(names[1..]);
      assert f == [f[0]] + f[1..] && p == [p[0]] + p[1..];
      if f[0] !in j.kids && p[1..] != [] {
        assert At(j, p) == None;
        assert At(Empty(), p[1..]) == None;
      }
      assert p[1..] <= f[1..] <==> p <= f;
      assert f[1..] <= p[1..] <==> f <= p;
    } else if p != [] && |names| == 1 && p[0] == f[0] {
      assert f <= p;
    }
  }

  /** Setting a field makes no other place settable or unsettable. */
  lemma {:induction false} ForceInSettable(j: Json, names: seq<string>, v: Json, other: seq<string>)
    requires names != [] && other != [] && Settable(j, names)
    requires Apart(Fields(names), Fields(other))
    ensures Settable(ForceIn(j, names, v), other) <==> Settable(j, other)
    decreases |names|
  {
    var f, g := Fields(names), Fields(other);
    assert |names| == 1 && f[0] == g[0] ==> f <= g;
    assert |other| == 1 && f[0] == g[0] ==> g <= f;
    if f[0] == g[0] {
      var below := if f[0] in j.kids then j.kids[f[0]] else Empty();
      assert f[1..] == Fields(names[1..]) && g[1..] == Fields(other[1..]);
      assert f == [f[0]] + f[1..] && g == [g[0]] + g[1..];
      EmptySettable(names[1..]);
      EmptySettable(other[1..]);
      ForceInSettable(below, names[1..], v, other[1..]);
    }
  }

  /** A second value in the same place replaces the first. */
  lemma {:induction false} ForceInOver(j: Json, names: seq<string>, u: Json, v: Json)
    requires names != []
    ensures ForceIn(ForceIn(j, names, u), names, v) == ForceIn(j, names, v)
    ensures Settable(j, names) ==> Settable(ForceIn(j, names, u), names)
    decreases |names|
  {
    var o := if IsObject(j) then j else Empty();
    var f := Field(names[0]);
    if |names| > 1 {
      var below := if f in o.kids then o.kids[f] else Empty();
      ForceInOver(below, names[1..], u, v);
      EmptySettable(names[1..]);
      UpdateTwice(o.kids, f, ForceIn(below, names[1..], u), ForceIn(below, names[1..], v));
    } else {
      UpdateTwice(o.kids, f, u, v);
    }
  }

  lemma UpdateTwice(kids: map<Elem, Json>, f: Elem, a: Json, b: Json)
    ensures kids[f := a][f := b] == kids[f := b]
  {
  }

  lemma EmptySettable(names: seq<string>)
    requires names != []
    ensures Settable(Empty(), names)
  {
  }

  /** Several fields set one after the other; the first that cannot be set ends it. */
  function SetAll(j: Json, todo: seq<(seq<string>, Json)>): Option<Json>
    requires forall t | t in todo :: t.0 != []
    decreases |todo|
  {
    if todo == [] then Some(j)
    else match SetNested(j, todo[0].0, todo[0].1)
      case None => None
      case Some(next) => SetAll(next, todo[1..])
  }

  predicate AllApart(todo: seq<(seq<string>, Json)>) {
    forall a, b | 0 <= a < b < |todo| :: Apart(Fields(todo[a].0), Fields(todo[b].0))
  }

  /** With pairwise independent places: it works iff each place is settable to begin with, every value ends up in
      its place, and whatever is apart from all of them is untouched. */
  lemma {:induction false} SetAllExact(j: Json, todo: seq<(seq<string>, Json)>)
    requires (forall t | t in todo :: t.0 != []) && AllApart(todo)
    ensures SetAll(j, todo).Some? <==> forall t | t in todo :: Settable(j, t.0)
    ensures SetAll(j, todo).Some? ==>
              && (forall t | t in todo :: At(SetAll(j, todo).value, Fields(t.0)) == Some(t.1))
              && (forall p: Path | (forall t | t in todo :: Apart(p, Fields(t.0))) ::
                    At(SetAll(j, todo).value, p) == At(j, p))
    decreases |todo|
  {
    if todo != [] {
      var names, v := todo[0].0, todo[0].1;
      assert todo[0] in todo;
      if Settable(j, names) {
        var next, rest := ForceIn(j, names, v), todo[1..];
        assert forall a, b | 0 <= a < b < |rest| :: rest[a] == todo[a + 1] && rest[b] == todo[b + 1];
        SetAllExact(next, rest);
        forall t | t in rest
          ensures Apart(Fields(names), Fields(t.0)) && (Settable(next, t.0) <==> Settable(j, t.0))
        {
          var i :| 0 <= i < |rest| && rest[i] == t;
          assert t == todo[i + 1];
          ForceInSettable(j, names, v, t.0);
        }
        assert forall t :: t in todo <==> t == todo[0] || t in rest;
        ForceInSets(j, names, v);
        forall p: Path | Apart(p, Fields(names))
          ensures At(next, p) == At(j, p)
        {
          ForceInKeeps(j, names, v, p);
        }
      }
    }
  }

  // ---- On the heap ----

  datatype Value = Plain(prim: Prim) | Ref(node: Node)

  /** A Go map or slice. parts splits the nodes below it among its children. */
  class Node {
    const isArray: bool
    var kids: map<Elem, Value>
    ghost var parts: map<Elem, set<Node>>

    constructor (isArray: bool, kids: map<Elem, Value>, ghost parts: map<Elem, set<Node>>)
      ensures this.isArray == isArray && this.kids == kids && this.parts == parts
    {
      this.isArray, this.kids, this.parts := isArray, kids, parts;
    }
  }

  /** v is a tree of depth at most d whose nodes lie in s, without sharing. */
  ghost predicate IsTree(v: Value, d: nat, s: set<Node>)
    reads s
    decreases d
  {
    v.Ref? ==>
      var n := v.node;
      && n in s && d > 0 && n.parts.Keys == n.kids.Keys
      && (forall k | k in n.kids :: n.parts[k] <= s - {n} && IsTree(n.kids[k], d - 1, n.parts[k]))
      && (forall k, l | k in n.kids && l in n.kids && k != l :: n.parts[k] !! n.parts[l])
  }

  ghost function View(v: Value, d: nat, s: set<Node>): Json
    requires IsTree(v, d, s)
    reads s
    decreases d
  {
    match v
    case Plain(prim) => Scalar(prim)
    case Ref(n) => Tree(n.isArray, map k | k in n.kids :: View(n.kids[k], d - 1, n.parts[k]))
  }

  /** The children copied so far, each in its own part of t, and what each has to look like. */
  ghost predicate Copied(kids: map<Elem, Value>, parts: map<Elem, set<Node>>, views: map<Elem, Json>, d: nat,
                         t: set<Node>)
    reads t
  {
    && kids.Keys == parts.Keys && kids.Keys <= views.Keys
    && (forall k | k in kids :: parts[k] <= t && IsTree(kids[k], d, parts[k]) && View(kids[k], d, parts[k]) == views[k])
    && (forall k, l | k in kids && l in kids && k != l :: parts[k] !! parts[l])
  }

  ghost function Views(n: Node, d: nat, s: set<Node>): map<Elem, Json>
    requires IsTree(Ref(n), d + 1, s)
    reads s
  {
    map k | k in n.kids :: View(n.kids[k], d, n.parts[k])
  }

  lemma ViewOfNode(n: Node, d: nat, s: set<Node>)
    requires IsTree(Ref(n), d + 1, s)
    ensures View(Ref(n), d + 1, s) == Tree(n.isArray, Views(n, d, s))
  {
    var whole, views := View(Ref(n), d + 1, s), Views(n, d, s);
    assert whole.kids.Keys == views.Keys;
    assert forall k | k in views :: whole.kids[k] == views[k];
  }

  /** runtime.DeepCopyJSON: an equal tree made of new nodes only. */
  method DeepCopy(v: Value, ghost d: nat, ghost s: set<Node>) returns (c: Value, ghost t: set<Node>)
    requires IsTree(v, d, s)
    ensures fresh(t) && IsTree(c, d, t) && View(c, d, t) == View(v, d, s)
    ensures v.Ref? <==> c.Ref?
    decreases d, 0
  {
    if v.Plain? {
      return v, {};
    }
    var copy;
    copy, t := CopyNode(v.node, d - 1, s);
    c := Ref(copy);
  }

  method CopyNode(n: Node, ghost d: nat, ghost s: set<Node>) returns (copy: Node, ghost t: set<Node>)
    requires IsTree(Ref(n), d + 1, s)
    ensures fresh(t) && IsTree(Ref(copy), d + 1, t) && copy.isArray == n.isArray
    ensures Views(copy, d, t) == Views(n, d, s)
    decreases d, 2
  {
    var kids;
    ghost var parts;
    kids, parts, t := CopyKids(n, d, s, Views(n, d, s));
    copy := new Node(n.isArray, kids, parts);
    t := t + {copy};
  }

  method CopyKids(n: Node, ghost d: nat, ghost s: set<Node>, ghost views: map<Elem, Json>)
    returns (kids: map<Elem, Value>, ghost parts: map<Elem, set<Node>>, ghost t: set<Node>)
    requires IsTree(Ref(n), d + 1, s) && views == Views(n, d, s)
    ensures fresh(t) && Copied(kids, parts, views, d, t) && kids.Keys == views.Keys
    decreases d, 1
  {
    var todo := n.kids.Keys;
    kids, parts, t := map[], map[], {};
    while todo != {}
      invariant todo <= n.kids.Keys && kids.Keys == n.kids.Keys - todo
      invariant fresh(t) && Copied(kids, parts, views, d, t)
      decreases |todo|
    {
      var k :| k in todo;
      ghost var below;
      var kid;
      kid, below := DeepCopy(n.kids[k], d, n.parts[k]);
      CopiedMore(kids, parts, views, d, t, k, kid, below);
      kids, parts, t, todo := kids[k := kid], parts[k := below], t + below, todo - {k};
    }
  }

  lemma CopiedMore(kids: map<Elem, Value>, parts: map<Elem, set<Node>>, views: map<Elem, Json>, d: nat,
                   t: set<Node>, k: Elem, kid: Value, below: set<Node>)
    requires Copied(kids, parts, views, d, t) && k !in kids && t !! below
    requires IsTree(kid, d, below) && k in views && View(kid, d, below) == views[k]
    ensures Copied(kids[k := kid], parts[k := below], views, d, t + below)
  {
  }
}
