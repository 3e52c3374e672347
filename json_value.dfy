/**
 * Document values as the builder sees them, and the JavaScript and lodash
 * value tests it relies on: truthiness, strict equality (`===`), deep
 * equality (`isEqual`, which on these values is `==`) and `isMatch`.
 */
module JsonValue {

  datatype Option<T> = None | Some(value: T)

  /** A document value. Numbers are integers; JavaScript's `undefined` is not a
      value here: a missing field is `None` where a lookup can miss. */
  datatype Json =
    | JNull
    | JBool(b: bool)
    | JInt(i: int)
    | JStr(s: string)
    | JArr(elems: seq<Json>)
    | JObj(fields: map<string, Json>)

  /** JavaScript truthiness: the falsy values are exactly `null`, `false`,
      `0` and `""`; every array and every object, even an empty one, is
      truthy. */
  predicate Truthy(j: Json): (t: bool)
    ensures t <==> j !in {JNull, JBool(false), JInt(0), JStr("")}
  {
    match j
    case JNull => false
    case JBool(b) => b
    case JInt(i) => i != 0
    case JStr(s) => s != ""
    case _ => true
  }

  /** `a === b` between a value the caller passes in and a value held in the
      working copy: primitives compare by value, while an array or an object
      is `===` only to the very same object, which a caller's argument is not. */
  predicate StrictEquals(a: Json, b: Json): (r: bool)
    ensures r ==> a == b
    ensures a.JArr? || a.JObj? ==> !r
  {
    a == b && !a.JArr? && !a.JObj?
  }

  /** lodash `isMatch(elem, matcher)`: every key of the matcher is a field of
      `elem` whose value matches the matcher's value, partially where that
      value is itself an object. An empty matcher matches every value. */
  predicate Matches(elem: Json, matcher: map<string, Json>): (r: bool)
    ensures matcher == map[] ==> r
    ensures r && matcher != map[] ==> elem.JObj? && matcher.Keys <= elem.fields.Keys
    decreases JObj(matcher), 0
  {
    forall key | key in matcher ::
      elem.JObj? && key in elem.fields && PartialMatch(elem.fields[key], matcher[key])
  }

  /** The comparison `isMatch` applies to one field: partial between two
      objects, deep equality on everything else. A value of another kind
      never matches an object, not even an empty one. */
  predicate PartialMatch(a: Json, b: Json): (r: bool)
    ensures r ==> (a.JObj? <==> b.JObj?)
    ensures !b.JObj? ==> (r <==> a == b)
    decreases b, 1
  {
    match b
    case JObj(m) => a.JObj? && Matches(a, m)
    case _ => a == b
  }

  /** Every value partially matches itself. */
  lemma {:induction false} PartialMatchReflexive(a: Json)
    ensures PartialMatch(a, a)
    decreases a
  {
    match a
    case JObj(m) =>
      forall key | key in m
        ensures PartialMatch(m[key], m[key])
      {
        PartialMatchReflexive(m[key]);
      }
    case _ =>
  }

  /** An object matches every matcher made of some of its own fields; in
      particular `$pullMatch` with a matcher equal to an element removes it. */
  lemma MatchesSubObject(fields: map<string, Json>, matcher: map<string, Json>)
    requires matcher.Keys <= fields.Keys
    requires forall key | key in matcher :: matcher[key] == fields[key]
    ensures Matches(JObj(fields), matcher)
  {
    forall key | key in matcher
      ensures PartialMatch(fields[key], matcher[key])
    {
      PartialMatchReflexive(fields[key]);
    }
  }
}
