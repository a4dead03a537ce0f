/// What the in-memory repositories share: a pass over the keys of a map
/// that gathers stored values, each once. `key` reads a value's ID field.
module Stores {

  /** The IDs of a list of values. */
  function IdsOf<T(==)>(items: seq<T>, key: T -> string): set<string>
  {
    set x | x in items :: key(x)
  }

  /** What a pass over the keys has gathered so far: stored values, each
      once, none of them still to visit. */
  predicate Gathered<T(==)>(m: map<string, T>, r: seq<T>, rest: set<string>, key: T -> string)
  {
    (forall i :: 0 <= i < |r| ==> key(r[i]) in m && m[key(r[i])] == r[i] && key(r[i]) !in rest)
    && (forall i, j :: 0 <= i < j < |r| ==> key(r[i]) != key(r[j]))
  }

  /** Visiting a key and taking its value. */
  lemma GatherTake<T>(m: map<string, T>, r: seq<T>, rest: set<string>, k: string, key: T -> string)
    requires k in rest && k in m && key(m[k]) == k && Gathered(m, r, rest, key)
    ensures Gathered(m, r + [m[k]], rest - {k}, key)
    ensures IdsOf(r + [m[k]], key) == IdsOf(r, key) + {k}
  {
    var r2 := r + [m[k]];
    forall i, j | 0 <= i < j < |r2|
      ensures key(r2[i]) != key(r2[j])
    {
      if j == |r| {
        assert r2[i] == r[i];
      }
    }
    assert IdsOf(r2, key) == IdsOf(r, key) + {k} by {
      assert forall x :: x in r2 <==> x in r || x == m[k];
    }
  }

  /** Visiting a key and passing over its value. */
  lemma GatherSkip<T>(m: map<string, T>, r: seq<T>, rest: set<string>, k: string, key: T -> string)
    requires Gathered(m, r, rest, key)
    ensures Gathered(m, r, rest - {k}, key)
  {
  }
}
