/** The find-or-append loops: required entries are added to a list unless a matching one is there. */
module AppendMissing {
  import opened Kube

  predicate Has<T>(s: seq<T>, r: T, same: (T, T) -> bool) { exists i :: 0 <= i < |s| && same(s[i], r) }

  function Add<T>(s: seq<T>, r: T, same: (T, T) -> bool): seq<T> {
    if Has(s, r, same) then s else s + [r]
  }

  function AddAll<T>(s: seq<T>, required: seq<T>, same: (T, T) -> bool): seq<T>
    decreases |required|
  {
    if required == [] then s else AddAll(Add(s, required[0], same), required[1..], same)
  }

  /** What was there stays, in place; every required entry has a match afterwards. */
  lemma {:induction false} AddAllComplete<T>(s: seq<T>, required: seq<T>, same: (T, T) -> bool)
    requires forall i | 0 <= i < |required| :: same(required[i], required[i])
    ensures s <= AddAll(s, required, same)
    ensures forall i | 0 <= i < |required| :: Has(AddAll(s, required, same), required[i], same)
    decreases |required|
  {
    if required != [] {
      var next := Add(s, required[0], same);
      AddAllComplete(next, required[1..], same);
      var all := AddAll(s, required, same);
      assert next <= all;
      if !Has(s, required[0], same) {
        assert same(next[|s|], required[0]);
      }
      assert Has(next, required[0], same);
      var j :| 0 <= j < |next| && same(next[j], required[0]);
      assert all[j] == next[j];
      forall i | 0 <= i < |required|
        ensures Has(all, required[i], same)
      {
        if i > 0 {
          assert required[i] == required[1..][i - 1];
        }
      }
    }
  }

  lemma {:induction false} AddAllIdle<T>(s: seq<T>, required: seq<T>, same: (T, T) -> bool)
    requires forall i | 0 <= i < |required| :: Has(s, required[i], same)
    ensures AddAll(s, required, same) == s
    decreases |required|
  {
    if required != [] {
      forall i | 0 <= i < |required[1..]|
        ensures Has(s, required[1..][i], same)
      {
        assert required[1..][i] == required[i + 1];
      }
      AddAllIdle(s, required[1..], same);
    }
  }

  /** Whether the list was there before or is made of the requirements themselves, they all have a match in it. */
  lemma MergedHasAll<T>(s: Option<seq<T>>, required: seq<T>, same: (T, T) -> bool)
    requires forall i | 0 <= i < |required| :: same(required[i], required[i])
    ensures var merged := if s.Some? then AddAll(s.value, required, same) else required;
            forall r | r in required :: Has(merged, r, same)
  {
    if s.Some? {
      AddAllComplete(s.value, required, same);
    }
  }

  /** So a second pass over the same requirements, in whatever order, adds nothing. */
  lemma AddAllTwice<T>(s: seq<T>, required: seq<T>, again: seq<T>, same: (T, T) -> bool)
    requires forall i | 0 <= i < |required| :: same(required[i], required[i])
    requires forall i | 0 <= i < |again| :: again[i] in required
    ensures AddAll(AddAll(s, required, same), again, same) == AddAll(s, required, same)
  {
    AddAllComplete(s, required, same);
    AddAllIdle(AddAll(s, required, same), again, same);
  }

  /** The nested loops. */
  method EnsureAll<T(==)>(s: seq<T>, required: seq<T>, same: (T, T) -> bool) returns (r: seq<T>, needsUpdate: bool)
    ensures r == AddAll(s, required, same)
    ensures needsUpdate <==> r != s
  {
    r, needsUpdate := s, false;
    for i := 0 to |required|
      invariant AddAll(r, required[i..], same) == AddAll(s, required, same)
      invariant s <= r && (needsUpdate <==> |r| > |s|)
    {
      var found := Find(r, required[i], same);
      assert required[i..][0] == required[i] && required[i..][1..] == required[i + 1..];
      if !found {
        r := r + [required[i]];
        needsUpdate := true;
      }
    }
  }

  method Find<T>(s: seq<T>, x: T, same: (T, T) -> bool) returns (found: bool)
    ensures found == Has(s, x, same)
  {
    for j := 0 to |s|
      invariant forall n | 0 <= n < j :: !same(s[n], x)
    {
      if same(s[j], x) {
        return true;
      }
    }
    return false;
  }
}
