/**
 * Dot-separated field paths and the lodash accessors `has`, `get`, `set` and
 * `unset` over nested objects. A document is the map of its top-level fields.
 */
module Paths {
  import opened JsonValue

  type Doc = map<string, Json>

  /** The segments of a path key; splitting never yields an empty list. */
  type Path = p: seq<string> | |p| > 0 witness [""]

  /** The segments of `k` between its dots: `"x.y.z"` gives `["x", "y", "z"]`,
      `""` gives `[""]`. */
  function Split(k: string): (p: Path)
    ensures forall i | 0 <= i < |p| :: '.' !in p[i]
  {
    if k == [] then [""]
    else
      var rest := Split(k[1..]);
      if k[0] == '.' then [""] + rest
      else [[k[0]] + rest[0]] + rest[1..]
  }

  /** The key string of a path: its segments joined with dots. */
  function Join(p: Path): string
  {
    if |p| == 1 then p[0] else p[0] + "." + Join(p[1..])
  }

  /** Joining the segments of a key gives the key back. */
  lemma {:induction false} JoinSplit(k: string)
    ensures Join(Split(k)) == k
  {
    if k != [] {
      var rest := Split(k[1..]);
      JoinSplit(k[1..]);
      if k[0] == '.' {
        assert Join([""] + rest) == "" + "." + Join(rest);
      } else if |rest| == 1 {
        assert Join([[k[0]] + rest[0]] + rest[1..]) == [k[0]] + rest[0];
      } else {
        assert Join([[k[0]] + rest[0]] + rest[1..]) == [k[0]] + rest[0] + "." + Join(rest[1..]);
      }
    }
  }

  /** Splitting `w + "." + s` peels off the segment `w` when `w` has no dot. */
  lemma {:induction false} SplitSegment(w: string, s: string)
    requires '.' !in w
    ensures Split(w) == [w]
    ensures Split(w + "." + s) == [w] + Split(s)
  {
    if w != [] {
      assert w[1..] + "." + s == (w + "." + s)[1..];
      SplitSegment(w[1..], s);
      assert [w[0]] + w[1..] == w;
    } else {
      assert w + "." + s == "." + s;
    }
  }

  /** Splitting the key of a path whose segments have no dots gives the path back. */
  lemma {:induction false} SplitJoin(p: Path)
    requires forall i | 0 <= i < |p| :: '.' !in p[i]
    ensures Split(Join(p)) == p
  {
    SplitSegment(p[0], if |p| == 1 then "" else Join(p[1..]));
    if |p| > 1 {
      SplitJoin(p[1..]);
    }
  }

  /** `get(m, p)`: the value at `p`, found by descending through objects. */
  function Get(m: Doc, p: Path): Option<Json>
    decreases |p|
  {
    if p[0] !in m then None
    else if |p| == 1 then Some(m[p[0]])
    else match m[p[0]]
      case JObj(child) => Get(child, p[1..])
      case _ => None
  }

  /** `has(m, p)`: some value is stored at `p`. */
  predicate Has(m: Doc, p: Path) {
    Get(m, p).Some?
  }

  /** `get` descends through objects only: a value found at `p` lies under a
      top-level key of the document, and every proper prefix of `p` holds an
      object. */
  lemma {:induction false} GetDescends(m: Doc, p: Path)
    ensures |p| == 1 ==> (Has(m, p) <==> p[0] in m)
    ensures Has(m, p) ==> p[0] in m
    ensures Has(m, p) ==> forall i | 1 <= i < |p| :: Get(m, p[..i]).Some? && Get(m, p[..i]).value.JObj?
    decreases |p|
  {
    if Has(m, p) && |p| > 1 {
      var child := m[p[0]].fields;
      GetDescends(child, p[1..]);
      forall i | 1 <= i < |p|
        ensures Get(m, p[..i]).Some? && Get(m, p[..i]).value.JObj?
      {
        if i > 1 {
          assert p[..i][1..] == p[1..][..i - 1];
        }
      }
    }
  }

  /** The object stored under `key`, or a fresh empty object where `set`
      has to create one because the key is absent or holds a non-object. */
  function Child(m: Doc, key: string): Doc {
    if key in m && m[key].JObj? then m[key].fields else map[]
  }

  /** `set(m, p, v)`: store `v` at `p`, creating the objects on the way. */
  function Set(m: Doc, p: Path, v: Json): (r: Doc)
    ensures Get(r, p) == Some(v)
    ensures r.Keys == m.Keys + {p[0]}
    decreases |p|
  {
    if |p| == 1 then m[p[0] := v]
    else m[p[0] := JObj(Set(Child(m, p[0]), p[1..], v))]
  }

  /** `unset(m, p)`: delete the last segment of `p` from its parent object,
      when that parent exists. */
  function Unset(m: Doc, p: Path): (r: Doc)
    ensures !Has(r, p)
    ensures r.Keys <= m.Keys
    decreases |p|
  {
    if |p| == 1 then m - {p[0]}
    else if p[0] in m && m[p[0]].JObj? then m[p[0] := JObj(Unset(m[p[0]].fields, p[1..]))]
    else m
  }

  predicate IsPrefix(p: seq<string>, q: seq<string>) {
    |p| <= |q| && q[..|p|] == p
  }

  /** Two paths that do not lie on one another: writing at one leaves the
      other alone. */
  predicate Independent(p: Path, q: Path) {
    !IsPrefix(p, q) && !IsPrefix(q, p)
  }

  /** `set` at `p` changes nothing at an independent path. */
  lemma {:induction false} GetSetOther(m: Doc, p: Path, q: Path, v: Json)
    requires Independent(p, q)
    ensures Get(Set(m, p, v), q) == Get(m, q)
    decreases |p|
  {
    if p[0] == q[0] {
      assert |p| > 1 && |q| > 1 by {
        assert p[..1] == [p[0]] && q[..1] == [q[0]];
      }
      GetSetOther(Child(m, p[0]), p[1..], q[1..], v);
    }
  }

  /** `unset` at `p` changes nothing at an independent path. */
  lemma {:induction false} GetUnsetOther(m: Doc, p: Path, q: Path)
    requires Independent(p, q)
    ensures Get(Unset(m, p), q) == Get(m, q)
    decreases |p|
  {
    if p[0] == q[0] {
      assert |p| > 1 && |q| > 1 by {
        assert p[..1] == [p[0]] && q[..1] == [q[0]];
      }
      if p[0] in m && m[p[0]].JObj? {
        GetUnsetOther(m[p[0]].fields, p[1..], q[1..]);
      }
    }
  }

  /** Storing the value a path already holds leaves the document as it is. */
  lemma {:induction false} SetExisting(m: Doc, p: Path, v: Json)
    requires Get(m, p) == Some(v)
    ensures Set(m, p, v) == m
    decreases |p|
  {
    if |p| > 1 {
      SetExisting(m[p[0]].fields, p[1..], v);
    }
  }

  /** Unsetting a path that holds nothing leaves the document as it is. */
  lemma {:induction false} UnsetAbsent(m: Doc, p: Path)
    requires !Has(m, p)
    ensures Unset(m, p) == m
    decreases |p|
  {
    if |p| > 1 && p[0] in m && m[p[0]].JObj? {
      UnsetAbsent(m[p[0]].fields, p[1..]);
    }
  }
}
