/**
 * The array comprehensions inside `$addToSet`, `$pull` and `$pullMatch`:
 * `filter` with a deep-equality or `isMatch` test.
 */
module Arrays {
  import opened JsonValue

  /** `s.filter(keep)`: the elements of `s` that satisfy `keep`, in their order,
      each as often as it occurs in `s`. */
  function Filter(s: seq<Json>, keep: Json -> bool): (r: seq<Json>)
    ensures |r| <= |s|
    ensures forall x :: x in r <==> x in s && keep(x)
  {
    if s == [] then [] else (if keep(s[0]) then [s[0]] else []) + Filter(s[1..], keep)
  }

  /** Filtering keeps every occurrence of a kept value and none of the others. */
  lemma {:induction false} FilterCount(s: seq<Json>, keep: Json -> bool)
    ensures forall x :: multiset(Filter(s, keep))[x] == if keep(x) then multiset(s)[x] else 0
  {
    if s != [] {
      FilterCount(s[1..], keep);
      assert s == [s[0]] + s[1..];
    }
  }

  /** Filtering distributes over concatenation: it keeps the relative order. */
  lemma {:induction false} FilterAppend(s: seq<Json>, t: seq<Json>, keep: Json -> bool)
    ensures Filter(s + t, keep) == Filter(s, keep) + Filter(t, keep)
  {
    if s == [] {
      assert s + t == t;
    } else {
      assert (s + t)[1..] == s[1..] + t;
      FilterAppend(s[1..], t, keep);
    }
  }

  /** Two tests that agree on every element of `s` keep the same elements. */
  lemma {:induction false} FilterCongruent(s: seq<Json>, keep: Json -> bool, keep': Json -> bool)
    requires forall x | x in s :: keep(x) == keep'(x)
    ensures Filter(s, keep) == Filter(s, keep')
  {
    if s != [] {
      FilterCongruent(s[1..], keep, keep');
    }
  }

  /** A test that holds of no element keeps nothing. */
  lemma {:induction false} FilterKeepsNone(s: seq<Json>, keep: Json -> bool)
    requires forall x | x in s :: !keep(x)
    ensures Filter(s, keep) == []
  {
    if s != [] {
      FilterKeepsNone(s[1..], keep);
    }
  }

  /** The elements of `s` not deep-equal to any element of `drop`:
      `s.filter(x => drop.every(y => !isEqual(x, y)))`. */
  function Without(s: seq<Json>, drop: seq<Json>): (r: seq<Json>)
    ensures |r| <= |s|
    ensures forall x :: x in r <==> x in s && x !in drop
  {
    Filter(s, x => x !in drop)
  }

  /** The elements of `s` deep-equal to some element of `vals`:
      `s.filter(x => vals.some(y => isEqual(y, x)))`. */
  function Among(s: seq<Json>, vals: seq<Json>): (r: seq<Json>)
    ensures |r| <= |s|
    ensures forall x :: x in r <==> x in s && x in vals
  {
    Filter(s, x => x in vals)
  }

  /** The elements of `s` that the matcher does not match:
      `s.filter(w => !isMatch(w, matcher))`. */
  function Unmatched(s: seq<Json>, matcher: map<string, Json>): (r: seq<Json>)
    ensures |r| <= |s|
    ensures forall x :: x in r <==> x in s && !Matches(x, matcher)
  {
    Filter(s, x => !Matches(x, matcher))
  }

  /** Removing from a single value keeps it unless it is dropped. */
  lemma WithoutSingleton(x: Json, drop: seq<Json>)
    ensures Without([x], drop) == if x in drop then [] else [x]
  {
    assert [x][1..] == [];
  }

  /** Selecting from a single value keeps it when it is one of the values. */
  lemma AmongSingleton(x: Json, vals: seq<Json>)
    ensures Among([x], vals) == if x in vals then [x] else []
  {
    assert [x][1..] == [];
  }

  /** The matcher filter takes the elements one at a time, in order. */
  lemma UnmatchedCons(x: Json, s: seq<Json>, matcher: map<string, Json>)
    ensures Unmatched([x] + s, matcher) == (if Matches(x, matcher) then [] else [x]) + Unmatched(s, matcher)
  {
    assert ([x] + s)[1..] == s;
  }

  /** `$pull` computes the elements to remove (`Among`) and then removes
      every element equal to one of them; that is exactly removing the
      pulled values, and the removed and the kept elements together are the
      original array. */
  lemma PullPartition(s: seq<Json>, vals: seq<Json>)
    ensures Without(s, Among(s, vals)) == Without(s, vals)
    ensures multiset(Among(s, vals)) + multiset(Without(s, vals)) == multiset(s)
  {
    var matching := Among(s, vals);
    FilterCongruent(s, x => x !in matching, x => x !in vals);
    var kept := Without(s, vals);
    FilterCount(s, x => x in vals);
    FilterCount(s, x => x !in vals);
    forall x
      ensures (multiset(matching) + multiset(kept))[x] == multiset(s)[x]
    {
    }
  }

  /** `$addToSet` appends `Without(v, existing)`: afterwards every value of
      the batch is present, and the array grows only by values that were
      absent before. */
  lemma AddToSetCovers(existing: seq<Json>, v: seq<Json>)
    ensures forall x | x in v :: x in existing + Without(v, existing)
    ensures forall x | x in Without(v, existing) :: x !in existing
    ensures Without(v, existing) == [] <==> forall x | x in v :: x in existing
  {
    var add := Without(v, existing);
    if add != [] {
      assert add[0] in v && add[0] !in existing;
    }
    if forall x | x in v :: x in existing {
      FilterKeepsNone(v, x => x !in existing);
    }
  }

  /** Pulling the same values again finds nothing to remove. */
  lemma PullIdempotent(s: seq<Json>, vals: seq<Json>)
    ensures Among(Without(s, vals), vals) == []
  {
    FilterKeepsNone(Without(s, vals), x => x in vals);
  }
}
