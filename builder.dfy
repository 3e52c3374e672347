/**
 * `UpdateBuilder`: the reference snapshot, the working copy and the pending
 * operators of one MongoDB document, and the mutators that change the
 * working copy and, once the document exists in the database, record the
 * matching update operator.
 */
module Builder {
  import opened JsonValue
  import opened Arrays
  import opened Operators
  import Paths

  type Doc = Paths.Doc
  type Path = Paths.Path

  datatype Error =
    | MissingId           // `_id` absent or falsy
    | InvalidId           // `_id` rejected by the identifier validator
    | NotAnArray          // the checked value exists and is not an array
    | WorkingNotAnArray   // the working value has no `push`/`every`/`filter`: a TypeError
    | PullAfterPullMatch  // `$pull` on a path that holds a `$pullMatch` matcher
    | PullMatchAfterPull  // `$pullMatch` on a path that holds any pending `$pull`

  datatype Outcome = Done | Failed(error: Error)

  /** What `save` sends to the collection. */
  datatype Request =
    | NoRequest
    | InsertOne(doc: Doc)
    | UpdateOne(id: Option<Json>, update: map<Op, map<string, Json>>)

  datatype Created = Created(builder: UpdateBuilder) | Refused(error: Error)

  /** What a property read through the builder yields. */
  datatype Attribute = Member(name: string) | Field(value: Json) | Undefined

  /** A value that exists and is not an array. */
  predicate NonArray(o: Option<Json>) {
    o.Some? && !o.value.JArr?
  }

  /** The elements of an array value; nothing for anything else. */
  function Elems(o: Option<Json>): seq<Json> {
    if o.Some? && o.value.JArr? then o.value.elems else []
  }

  /** The identity check of the constructor: `_id` must be truthy and the
      validator must accept it. The validator (a UUID check in the source)
      only ever accepts strings. */
  function CheckId(base: Doc, validate: string -> bool): (r: Outcome)
    ensures r == Done <==> "_id" in base && base["_id"].JStr? && base["_id"].s != "" && validate(base["_id"].s)
    ensures r == Failed(MissingId) <==> !("_id" in base && Truthy(base["_id"]))
    ensures r == Done || r == Failed(MissingId) || r == Failed(InvalidId)
  {
    if "_id" !in base || !Truthy(base["_id"]) then Failed(MissingId)
    else if !base["_id"].JStr? || !validate(base["_id"].s) then Failed(InvalidId)
    else Done
  }

  /** `{ _id: uuid(), ...base }`: a generated identity that any `_id` key of
      `base` overrides. */
  function WithId(base: Doc, freshId: string): (d: Doc)
    ensures d.Keys == base.Keys + {"_id"}
    ensures forall k | k in base :: d[k] == base[k]
    ensures "_id" !in base ==> d["_id"] == JStr(freshId)
  {
    map["_id" := JStr(freshId)] + base
  }

  /** The names a property read finds on the builder object itself: its
      fields, its methods and what every JavaScript object inherits. */
  const BuilderMembers: set<string> := {
    "query", "ref", "work", "isNew", "useVersionKey",
    "get", "set", "$set", "$unset", "$push", "$addToSet", "$pull", "$pullMatch",
    "getValue", "getQuery", "modifiedPaths", "save", "sync", "reset",
    "constructor", "hasOwnProperty", "isPrototypeOf", "propertyIsEnumerable",
    "toString", "toLocaleString", "valueOf", "__proto__",
    "__defineGetter__", "__defineSetter__", "__lookupGetter__", "__lookupSetter__"
  }

  /** The property writes the builder accepts; every other one is a TypeError. */
  predicate AssignableAttribute(name: string): (a: bool)
    ensures a ==> name in BuilderMembers
    ensures name == "useVersionKey" ==> !a
  {
    name in {"isNew", "ref", "work", "query"}
  }

  class UpdateBuilder {
    var query: Query
    var ref: Doc
    var work: Doc
    var isNew: bool
    var useVersionKey: bool

    /** A new document records no operator: it is inserted whole. */
    ghost predicate Valid()
      reads this
    {
      isNew ==> IsEmpty(query)
    }

    /** The constructor once `_id` is accepted: snapshot and working copy
        both start as `base`, with nothing pending. */
    constructor (base: Doc, isNew: bool, useVersionKey: bool)
      ensures Valid()
      ensures ref == base && work == base && query == EmptyQuery()
      ensures this.isNew == isNew && this.useVersionKey == useVersionKey
    {
      query := EmptyQuery();
      ref := base;
      work := base;
      this.isNew := isNew;
      this.useVersionKey := useVersionKey;
    }

    /** `UpdateBuilder.load(base)`: a builder for a stored document, refused
        unless `base` carries an accepted `_id`. */
    static method Load(base: Doc, validate: string -> bool, useVersionKey: bool) returns (c: Created)
      ensures c.Refused? <==> CheckId(base, validate).Failed?
      ensures c.Refused? ==> c.error == CheckId(base, validate).error
      ensures c.Created? ==> fresh(c.builder) && c.builder.Valid() && !c.builder.isNew
      ensures c.Created? ==> c.builder.ref == base && c.builder.work == base
      ensures c.Created? ==> c.builder.query == EmptyQuery() && c.builder.useVersionKey == useVersionKey
    {
      var check := CheckId(base, validate);
      if check.Failed? {
        return Refused(check.error);
      }
      var b := new UpdateBuilder(base, false, useVersionKey);
      return Created(b);
    }

    /** `UpdateBuilder.new(base)`: a builder for a document not stored yet,
        given the generated identity `freshId`, refused only when `base`
        brings an `_id` of its own that is not accepted. */
    static method New(base: Doc, freshId: string, validate: string -> bool, useVersionKey: bool)
      returns (c: Created)
      ensures c.Refused? <==> CheckId(WithId(base, freshId), validate).Failed?
      ensures c.Refused? ==> c.error == CheckId(WithId(base, freshId), validate).error
      ensures c.Created? ==> fresh(c.builder) && c.builder.Valid() && c.builder.isNew
      ensures c.Created? ==> c.builder.ref == WithId(base, freshId) && c.builder.work == WithId(base, freshId)
      ensures c.Created? ==> c.builder.query == EmptyQuery() && c.builder.useVersionKey == useVersionKey
    {
      var doc := WithId(base, freshId);
      var check := CheckId(doc, validate);
      if check.Failed? {
        return Refused(check.error);
      }
      var b := new UpdateBuilder(doc, true, useVersionKey);
      return Created(b);
    }

    /** The value the array mutators type-check first:
        `get(isNew ? work : ref, k)`. */
    function Checked(p: Path): (c: Option<Json>)
      reads this
      ensures isNew ==> c == Paths.Get(work, p)
      ensures !isNew ==> c == Paths.Get(ref, p)
    {
      Paths.Get(if isNew then work else ref, p)
    }

    /** Property read through the builder: its own members first, then the
        working copy's top-level field of that name. */
    function Read(name: string): (a: Attribute)
      reads this
      ensures name in BuilderMembers ==> a == Member(name)
      ensures name !in BuilderMembers ==> (a.Field? <==> name in work)
      ensures a.Field? ==> a.value == work[name]
    {
      if name in BuilderMembers then Member(name)
      else if name in work then Field(work[name])
      else Undefined
    }

    /** `$set(k, v)`: a no-op when the working copy already holds a
        primitive `=== v` at `k`; otherwise `v` is stored there and, for a
        stored document, `$set[k] = v`, the last write winning. */
    method Set(k: string, v: Json)
      requires Valid()
      modifies this
      ensures Valid()
      ensures ref == old(ref) && isNew == old(isNew) && useVersionKey == old(useVersionKey)
      ensures var p := Paths.Split(k);
        if Paths.Has(old(work), p) && StrictEquals(Paths.Get(old(work), p).value, v) then
          work == old(work) && query == old(query)
        else
          work == Paths.Set(old(work), p, v) &&
          query == if isNew then old(query) else old(query).(setOps := old(query.setOps)[k := v])
      ensures Paths.Get(work, Paths.Split(k)) == Some(v)
    {
      var p := Paths.Split(k);
      if Paths.Has(work, p) && StrictEquals(Paths.Get(work, p).value, v) {
        return;
      }
      work := Paths.Set(work, p, v);
      if isNew {
        return;
      }
      query := query.(setOps := query.setOps[k := v]);
    }

    /** `$unset(k)`: a no-op when nothing is stored at `k`; otherwise the
        field is deleted and, for a stored document, `$unset[k] = true`. */
    method Unset(k: string)
      requires Valid()
      modifies this
      ensures Valid()
      ensures ref == old(ref) && isNew == old(isNew) && useVersionKey == old(useVersionKey)
      ensures var p := Paths.Split(k);
        if !Paths.Has(old(work), p) then
          work == old(work) && query == old(query)
        else
          work == Paths.Unset(old(work), p) &&
          query == if isNew then old(query) else old(query).(unsetOps := old(query.unsetOps) + {k})
      ensures !Paths.Has(work, Paths.Split(k))
    {
      var p := Paths.Split(k);
      if !Paths.Has(work, p) {
        return;
      }
      work := Paths.Unset(work, p);
      if isNew {
        return;
      }
      query := query.(unsetOps := query.unsetOps + {k});
    }

    /** `$push(k, ...v)`: appends the batch to the array at `k` (creating it
        when absent) and, for a stored document, extends `$push[k].$each`
        with the batch. Fails, changing nothing, on a non-array target. */
    method Push(k: string, v: seq<Json>) returns (r: Outcome)
      requires Valid()
      modifies this
      ensures Valid()
      ensures ref == old(ref) && isNew == old(isNew) && useVersionKey == old(useVersionKey)
      ensures var p := Paths.Split(k);
        r == if NonArray(old(Checked(p))) then Failed(NotAnArray)
             else if NonArray(Paths.Get(old(work), p)) then Failed(WorkingNotAnArray)
             else Done
      ensures r.Failed? ==> work == old(work) && query == old(query)
      ensures r == Done ==>
        var p := Paths.Split(k);
        work == Paths.Set(old(work), p, JArr(Elems(Paths.Get(old(work), p)) + v)) &&
        query == if isNew then old(query)
                 else old(query).(pushOps := old(query.pushOps)[k := Pending(old(query.pushOps), k) + v])
    {
      var p := Paths.Split(k);
      if NonArray(Checked(p)) {
        return Failed(NotAnArray);
      }
      var working := Paths.Get(work, p);
      match working {
        case None =>
          assert Elems(working) + v == v;
          work := Paths.Set(work, p, JArr(v));
        case Some(JArr(elems)) =>
          work := Paths.Set(work, p, JArr(elems + v));
        case Some(_) =>
          return Failed(WorkingNotAnArray);
      }
      r := Done;
      if isNew {
        return;
      }
      query := query.(pushOps := query.pushOps[k := Pending(query.pushOps, k) + v]);
    }

    /** `$addToSet(k, ...v)`: on an absent path stores the batch and sets
        `$addToSet[k].$each` to it; on an array appends the values of the
        batch not deep-equal to an element already there and, when at least
        one was appended, extends the pending `$each` with the whole batch. */
    method AddToSet(k: string, v: seq<Json>) returns (r: Outcome)
      requires Valid()
      modifies this
      ensures Valid()
      ensures ref == old(ref) && isNew == old(isNew) && useVersionKey == old(useVersionKey)
      ensures var p := Paths.Split(k);
        r == if NonArray(old(Checked(p))) then Failed(NotAnArray)
             else if NonArray(Paths.Get(old(work), p)) then Failed(WorkingNotAnArray)
             else Done
      ensures r.Failed? ==> work == old(work) && query == old(query)
      ensures r == Done && Paths.Get(old(work), Paths.Split(k)).None? ==>
        work == Paths.Set(old(work), Paths.Split(k), JArr(v)) &&
        query == if isNew then old(query)
                 else old(query).(addToSetOps := old(query.addToSetOps)[k := v])
      ensures r == Done && Paths.Get(old(work), Paths.Split(k)).Some? ==>
        var p := Paths.Split(k);
        var existing := Elems(Paths.Get(old(work), p));
        var add := Without(v, existing);
        work == Paths.Set(old(work), p, JArr(existing + add)) &&
        query == if isNew || add == [] then old(query)
                 else old(query).(addToSetOps := old(query.addToSetOps)[k := Pending(old(query.addToSetOps), k) + v])
    {
      var p := Paths.Split(k);
      if NonArray(Checked(p)) {
        return Failed(NotAnArray);
      }
      var working := Paths.Get(work, p);
      match working {
        case None =>
          work := Paths.Set(work, p, JArr(v));
          r := Done;
          if isNew {
            return;
          }
          query := query.(addToSetOps := query.addToSetOps[k := v]);
        case Some(JArr(elems)) =>
          var add := Without(v, elems);
          work := Paths.Set(work, p, JArr(elems + add));
          r := Done;
          if isNew {
            return;
          }
          if add != [] {
            query := query.(addToSetOps := query.addToSetOps[k := Pending(query.addToSetOps, k) + v]);
          }
        case Some(_) =>
          return Failed(WorkingNotAnArray);
      }
    }

    /** `$pull(k, ...v)`: removes every element deep-equal to a value of the
        batch and, for a stored document, extends `$pull[k].$in` with the
        removed elements. Nothing changes when nothing matches or nothing is
        stored at `k`; fails on a non-array target or after `$pullMatch`. */
    method Pull(k: string, v: seq<Json>) returns (r: Outcome)
      requires Valid()
      modifies this
      ensures Valid()
      ensures ref == old(ref) && isNew == old(isNew) && useVersionKey == old(useVersionKey)
      ensures var p := Paths.Split(k);
        var working := Paths.Get(old(work), p);
        r == if NonArray(old(Checked(p))) then Failed(NotAnArray)
             else if k in old(query.pullOps) && old(query.pullOps[k]).PullShape? then Failed(PullAfterPullMatch)
             else if working.Some? && Truthy(working.value) && !working.value.JArr? then Failed(WorkingNotAnArray)
             else Done
      ensures r.Failed? ==> work == old(work) && query == old(query)
      ensures r == Done ==>
        var p := Paths.Split(k);
        var existing := Elems(Paths.Get(old(work), p));
        var matching := Among(existing, v);
        if matching == [] then
          work == old(work) && query == old(query)
        else
          work == Paths.Set(old(work), p, JArr(Without(existing, matching))) &&
          query == if isNew then old(query)
                   else old(query).(pullOps := old(query.pullOps)[k := PullIn(PendingIn(old(query.pullOps), k) + matching)])
      ensures r == Done ==> !(k in query.pullOps && query.pullOps[k].PullShape?)
    {
      var p := Paths.Split(k);
      if NonArray(Checked(p)) {
        return Failed(NotAnArray);
      }
      if k in query.pullOps && query.pullOps[k].PullShape? {
        return Failed(PullAfterPullMatch);
      }
      var working := Paths.Get(work, p);
      if working.None? || !Truthy(working.value) {
        assert Elems(working) == [];
        return Done;
      }
      if !working.value.JArr? {
        return Failed(WorkingNotAnArray);
      }
      r := Done;
      var existing := working.value.elems;
      assert existing == Elems(working);
      var matching := Among(existing, v);
      if matching != [] {
        work := Paths.Set(work, p, JArr(Without(existing, matching)));
        if isNew {
          return;
        }
        query := query.(pullOps := query.pullOps[k := PullIn(PendingIn(query.pullOps, k) + matching)]);
      }
    }

    /** `$pullMatch(k, m)`: removes every element the matcher matches and,
        for a stored document, records the matcher as `$pull[k]`, even when
        nothing was removed. Fails on a non-array target or when any `$pull`
        is pending for `k`. */
    method PullMatch(k: string, m: map<string, Json>) returns (r: Outcome)
      requires Valid()
      modifies this
      ensures Valid()
      ensures ref == old(ref) && isNew == old(isNew) && useVersionKey == old(useVersionKey)
      ensures var p := Paths.Split(k);
        var working := Paths.Get(old(work), p);
        r == if NonArray(old(Checked(p))) then Failed(NotAnArray)
             else if k in old(query.pullOps) then Failed(PullMatchAfterPull)
             else if working.Some? && Truthy(working.value) && !working.value.JArr? then Failed(WorkingNotAnArray)
             else Done
      ensures r.Failed? ==> work == old(work) && query == old(query)
      ensures r == Done ==>
        var p := Paths.Split(k);
        var working := Paths.Get(old(work), p);
        if working.None? || !Truthy(working.value) then
          work == old(work) && query == old(query)
        else
          work == Paths.Set(old(work), p, JArr(Unmatched(working.value.elems, m))) &&
          query == if isNew then old(query) else old(query).(pullOps := old(query.pullOps)[k := PullShape(m)])
    {
      var p := Paths.Split(k);
      if NonArray(Checked(p)) {
        return Failed(NotAnArray);
      }
      if k in query.pullOps {
        return Failed(PullMatchAfterPull);
      }
      var working := Paths.Get(work, p);
      if working.None? || !Truthy(working.value) {
        return Done;
      }
      if !working.value.JArr? {
        return Failed(WorkingNotAnArray);
      }
      work := Paths.Set(work, p, JArr(Unmatched(working.value.elems, m)));
      r := Done;
      if isNew {
        return;
      }
      query := query.(pullOps := query.pullOps[k := PullShape(m)]);
    }

    /** `getValue()`: a copy of the working document. */
    method GetValue() returns (d: Doc)
      ensures d == work
    {
      d := work;
    }

    /** `getQuery()`: the update document of the pending operators. */
    method GetQuery() returns (d: map<Op, map<string, Json>>)
      ensures d == Compile(query)
      ensures d == map[] <==> IsEmpty(query)
    {
      d := Compile(query);
    }

    /** `modifiedPaths()`: every pending path with its payload. */
    method ModifiedPaths() returns (d: map<string, Json>)
      ensures d == Operators.ModifiedPaths(query)
      ensures d.Keys == query.setOps.Keys + query.unsetOps + query.pushOps.Keys + query.pullOps.Keys + query.addToSetOps.Keys
    {
      d := Operators.ModifiedPaths(query);
    }

    /** `sync()`: the working copy becomes the reference snapshot and
        nothing is pending. */
    method Sync()
      modifies this
      ensures Valid()
      ensures query == EmptyQuery() && ref == old(work)
      ensures work == old(work) && isNew == old(isNew) && useVersionKey == old(useVersionKey)
    {
      query := EmptyQuery();
      ref := work;
    }

    /** `reset()`: the working copy returns to the reference snapshot and
        nothing is pending. */
    method Reset()
      modifies this
      ensures Valid()
      ensures query == EmptyQuery() && work == old(ref)
      ensures ref == old(ref) && isNew == old(isNew) && useVersionKey == old(useVersionKey)
    {
      query := EmptyQuery();
      work := ref;
    }

    /** `save(collection)`: a new document is inserted whole, a stored one is
        sent its update document when that is not empty. `backendOk` is the
        outcome of that request; when a request fails nothing changes,
        otherwise the document is stored and synchronised. */
    method Save(backendOk: bool) returns (req: Request)
      requires Valid()
      modifies this
      ensures Valid()
      ensures req == if old(isNew) then InsertOne(old(work))
                     else if Compile(old(query)) != map[] then UpdateOne(Paths.Get(old(ref), ["_id"]), Compile(old(query)))
                     else NoRequest
      ensures req == NoRequest || backendOk ==>
        !isNew && query == EmptyQuery() && ref == old(work) && work == old(work)
      ensures req != NoRequest && !backendOk ==>
        isNew == old(isNew) && query == old(query) && ref == old(ref) && work == old(work)
      ensures useVersionKey == old(useVersionKey)
    {
      if isNew {
        req := InsertOne(work);
      } else {
        var d := Compile(query);
        req := if d != map[] then UpdateOne(Paths.Get(ref, ["_id"]), d) else NoRequest;
      }
      if req != NoRequest && !backendOk {
        return;
      }
      isNew := false;
      Sync();
    }
  }
}
