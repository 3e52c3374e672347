/**
 * `$addToSet` on an absent path stores the caller's argument array `v` in
 * the working copy and also makes it the pending `$each` list, so the two
 * are one array object until something replaces one of them. Every `push`
 * onto the working array in between reaches `$each` too. A later
 * `$addToSet` on the same path grows that object in place before
 * rebuilding `$each` from it, so the values it adds end up in `$each`
 * twice; a `$push` on the same path extends `$each` with its batch. The
 * builder itself (`Builder.UpdateBuilder.AddToSet`) keeps the two apart, as
 * evidently intended.
 */
module Findings {
  import opened JsonValue
  import opened Arrays

  /** A JavaScript array: held by reference and grown in place by `push`. */
  class ArrayObject {
    var elems: seq<Json>

    constructor (elems: seq<Json>)
      ensures this.elems == elems
    {
      this.elems := elems;
    }
  }

  /** `$addToSet(k, ...v)` on a stored document where nothing is at `k`:
      `set(work, k, v)` and `$addToSet[k] = { $each: v }` store the same
      array object. Returns the working array and the pending `$each`. */
  method AddToAbsentAsWritten(v: seq<Json>) returns (working: ArrayObject, each: ArrayObject)
    ensures fresh(working) && each == working && working.elems == v
  {
    working := new ArrayObject(v);
    each := working;
  }

  /** `$addToSet(k, ...v)` on a stored document where `working` is the array
      at `k` and `each` the pending `$each` list, if any: the new values are
      pushed onto `working`, and when there are some the pending list is
      rebuilt from what `each` holds at that moment followed by `v`. */
  method AddToExistingAsWritten(working: ArrayObject, each: ArrayObject?, v: seq<Json>)
    returns (newEach: seq<Json>)
    modifies working
    ensures working.elems == old(working.elems) + Without(v, old(working.elems))
    ensures each != working ==> each == null || each.elems == old(each.elems)
    ensures var pending := if each == null then [] else each.elems;
      newEach == if Without(v, old(working.elems)) == [] then pending else pending + v
  {
    var add := Without(v, working.elems);
    working.elems := working.elems + add;
    var pending := if each == null then [] else each.elems;
    newEach := if add == [] then pending else pending + v;
  }

  /** `$push(k, ...v)` on a stored document where `working` is the array at
      `k`: `working.push(...v)` grows that array object in place. */
  method PushAsWritten(working: ArrayObject, v: seq<Json>)
    modifies working
    ensures working.elems == old(working.elems) + v
  {
    working.elems := working.elems + v;
  }

  /** `$addToSet('d', 1); $push('d', 5)` on a document without `d` leaves
      `$addToSet: { d: { $each: [1, 5] } }` pending, although only `1` was
      ever added to the set. */
  method AliasedAddToSetThenPush() returns (each: seq<Json>)
    ensures each == [JInt(1), JInt(5)]
  {
    var working, pending := AddToAbsentAsWritten([JInt(1)]);
    PushAsWritten(working, [JInt(5)]);
    each := pending.elems;
  }

  /** `$addToSet('d', 1); $addToSet('d', 2)` on a document without `d`
      leaves `$each: [1, 2, 2]` pending where the batches were `[1]` and
      `[2]`. */
  method AliasedAddToSet() returns (each: seq<Json>)
    ensures each == [JInt(1), JInt(2), JInt(2)]
    ensures each != [JInt(1)] + [JInt(2)]
  {
    var working, pending := AddToAbsentAsWritten([JInt(1)]);
    WithoutSingleton(JInt(2), [JInt(1)]);
    each := AddToExistingAsWritten(working, pending, [JInt(2)]);
    assert [JInt(1)] + [JInt(2)] + [JInt(2)] == [JInt(1), JInt(2), JInt(2)];
  }
}
