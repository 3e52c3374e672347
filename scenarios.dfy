/**
 * The behaviours the builder's own test suite asserts, replayed against the
 * model's contracts: each method is a client of `UpdateBuilder` whose
 * postcondition is what the corresponding test expects to observe.
 */
module Scenarios {
  import opened JsonValue
  import opened Arrays
  import opened Operators
  import opened Builder
  import Paths

  const Id := "1b9d6bcd-bbfd-4b2d-9b5d-ab8dfbbd4bed"

  /** `{ _id, a: 1, b: '2', c: ['x'] }` */
  function TestDoc(): Paths.Doc {
    map["_id" := JStr(Id), "a" := JInt(1), "b" := JStr("2"), "c" := JArr([JStr("x")])]
  }

  /** A key without a dot is a one-segment path. */
  lemma SplitPlain(w: string)
    requires '.' !in w
    ensures Paths.Split(w) == [w]
  {
    Paths.SplitSegment(w, "");
  }

  lemma SplitXYZ()
    ensures Paths.Split("x.y.z") == ["x", "y", "z"]
  {
    Paths.SplitSegment("z", "");
    Paths.SplitSegment("y", "z");
    assert "y" + "." + "z" == "y.z";
    Paths.SplitSegment("x", "y.z");
    assert "x" + "." + "y.z" == "x.y.z";
  }

  /** The update document of a query with one pending path under one
      operator. */
  lemma CompileSetOnly(k: string, v: Json)
    ensures Compile(Query(map[k := v], {}, map[], map[], map[])) == map[SetOp := map[k := v]]
  {
    var q := Query(map[k := v], {}, map[], map[], map[]);
    forall o | o != SetOp
      ensures Section(q, o) == map[]
    {
      assert Section(q, o).Keys == {};
    }
    assert k in Section(q, SetOp);
    CompileOne(q, SetOp);
  }

  lemma CompileUnsetOnly(k: string)
    ensures Compile(Query(map[], {k}, map[], map[], map[])) == map[UnsetOp := map[k := JBool(true)]]
  {
    var q := Query(map[], {k}, map[], map[], map[]);
    forall o | o != UnsetOp
      ensures Section(q, o) == map[]
    {
      assert Section(q, o).Keys == {};
    }
    assert k in Section(q, UnsetOp);
    CompileOne(q, UnsetOp);
    assert Section(q, UnsetOp) == map[k := JBool(true)];
  }

  lemma CompilePushOnly(k: string, vs: seq<Json>)
    ensures Compile(Query(map[], {}, map[k := vs], map[], map[])) == map[PushOp := map[k := Each(vs)]]
  {
    var q := Query(map[], {}, map[k := vs], map[], map[]);
    forall o | o != PushOp
      ensures Section(q, o) == map[]
    {
      assert Section(q, o).Keys == {};
    }
    assert k in Section(q, PushOp);
    CompileOne(q, PushOp);
    assert Section(q, PushOp) == map[k := Each(vs)];
  }

  lemma CompilePullOnly(k: string, e: PullEntry)
    ensures Compile(Query(map[], {}, map[], map[k := e], map[])) == map[PullOp := map[k := PullPayload(e)]]
  {
    var q := Query(map[], {}, map[], map[k := e], map[]);
    forall o | o != PullOp
      ensures Section(q, o) == map[]
    {
      assert Section(q, o).Keys == {};
    }
    assert k in Section(q, PullOp);
    CompileOne(q, PullOp);
    assert Section(q, PullOp) == map[k := PullPayload(e)];
  }

  lemma CompileAddToSetOnly(k: string, vs: seq<Json>)
    ensures Compile(Query(map[], {}, map[], map[], map[k := vs])) == map[AddToSetOp := map[k := Each(vs)]]
  {
    var q := Query(map[], {}, map[], map[], map[k := vs]);
    forall o | o != AddToSetOp
      ensures Section(q, o) == map[]
    {
      assert Section(q, o).Keys == {};
    }
    assert k in Section(q, AddToSetOp);
    CompileOne(q, AddToSetOp);
    assert Section(q, AddToSetOp) == map[k := Each(vs)];
  }

  method LoadTestDoc(validate: string -> bool) returns (b: UpdateBuilder)
    requires validate(Id)
    ensures fresh(b) && b.Valid() && !b.isNew && b.work == TestDoc() && b.ref == TestDoc()
    ensures b.query == EmptyQuery()
  {
    var c := UpdateBuilder.Load(TestDoc(), validate, false);
    b := c.builder;
  }

  /** Loading a document without `_id` is refused. */
  method LoadWithoutId(validate: string -> bool) returns (c: Created)
    ensures c == Refused(MissingId)
  {
    c := UpdateBuilder.Load(map["a" := JInt(1)], validate, false);
  }

  /** `$set('x.y.z', [])` creates the path and records it under `$set`. */
  method SetsFields(validate: string -> bool) returns (value: Option<Json>, q: map<Op, map<string, Json>>)
    requires validate(Id)
    ensures value == Some(JArr([]))
    ensures q.Keys == {SetOp} && q[SetOp].Keys == {"x.y.z"}
  {
    var b := LoadTestDoc(validate);
    SplitXYZ();
    b.Set("x.y.z", JArr([]));
    value := Paths.Get(b.work, ["x", "y", "z"]);
    assert b.query == Query(map["x.y.z" := JArr([])], {}, map[], map[], map[]);
    CompileSetOnly("x.y.z", JArr([]));
    q := b.GetQuery();
  }

  /** Setting a field to the primitive it holds records nothing. */
  method SetConditionally(validate: string -> bool) returns (q1: map<Op, map<string, Json>>, q2: map<Op, map<string, Json>>)
    requires validate(Id)
    ensures q1 == map[]
    ensures q2 == map[SetOp := map["a" := JInt(2)]]
  {
    var b := LoadTestDoc(validate);
    SplitPlain("a");
    b.Set("a", JInt(1));
    q1 := b.GetQuery();
    b.Set("a", JInt(2));
    assert b.query == Query(map["a" := JInt(2)], {}, map[], map[], map[]);
    CompileSetOnly("a", JInt(2));
    q2 := b.GetQuery();
  }

  /** `$unset('x.y.z')` removes the nested field and records `true`. */
  method UnsetsFields(validate: string -> bool) returns (value: Option<Json>, q: map<Op, map<string, Json>>)
    requires validate(Id)
    ensures value == None
    ensures q == map[UnsetOp := map["x.y.z" := JBool(true)]]
  {
    var base := TestDoc()["x" := JObj(map["y" := JObj(map["z" := JInt(1)])])];
    var c := UpdateBuilder.Load(base, validate, false);
    var b := c.builder;
    SplitXYZ();
    b.Unset("x.y.z");
    value := Paths.Get(b.work, ["x", "y", "z"]);
    assert b.query == Query(map[], {"x.y.z"}, map[], map[], map[]);
    CompileUnsetOnly("x.y.z");
    q := b.GetQuery();
  }

  /** Unsetting an absent field records nothing. */
  method UnsetConditionally(validate: string -> bool) returns (q1: map<Op, map<string, Json>>, q2: map<Op, map<string, Json>>)
    requires validate(Id)
    ensures q1 == map[]
    ensures q2 == map[UnsetOp := map["a" := JBool(true)]]
  {
    var c := UpdateBuilder.Load(map["_id" := JStr(Id), "a" := JInt(1)], validate, false);
    var b := c.builder;
    SplitPlain("a");
    SplitPlain("b");
    b.Unset("b");
    q1 := b.GetQuery();
    b.Unset("a");
    assert b.query == Query(map[], {"a"}, map[], map[], map[]);
    CompileUnsetOnly("a");
    q2 := b.GetQuery();
  }

  /** The builder holds a stored document with the given state. */
  ghost predicate Stored(b: UpdateBuilder, ref: Paths.Doc, work: Paths.Doc, query: Query)
    reads b
  {
    b.Valid() && !b.isNew && b.ref == ref && b.work == work && b.query == query
  }

  const XYZ: Paths.Path := ["x", "y", "z"]

  lemma TestDocHasNoX()
    ensures Paths.Get(TestDoc(), XYZ) == None
  {
  }

  method PushFirst(b: UpdateBuilder, x: Json)
    requires Stored(b, TestDoc(), TestDoc(), EmptyQuery())
    modifies b
    ensures Stored(b, TestDoc(), Paths.Set(TestDoc(), XYZ, JArr([x])), Query(map[], {}, map["x.y.z" := [x]], map[], map[]))
  {
    SplitXYZ();
    var r := b.Push("x.y.z", [x]);
    TestDocHasNoX();
    assert Elems(None) + [x] == [x];
    assert Pending(map[], "x.y.z") + [x] == [x];
  }

  method PushSecond(b: UpdateBuilder, w: Paths.Doc, x: Json, y: Json, z: Json)
    requires Stored(b, TestDoc(), w, Query(map[], {}, map["x.y.z" := [x]], map[], map[]))
    requires Paths.Get(w, XYZ) == Some(JArr([x]))
    modifies b
    ensures Stored(b, TestDoc(), Paths.Set(w, XYZ, JArr([x, y, z])), Query(map[], {}, map["x.y.z" := [x, y, z]], map[], map[]))
  {
    SplitXYZ();
    TestDocHasNoX();
    assert [x] + [y, z] == [x, y, z];
    var r := b.Push("x.y.z", [y, z]);
    assert r == Done;
  }

  /** Two pushes accumulate in the array and in one `$each` list (the test
      pushes `1`, then `2, 3`). */
  method PushToArray(validate: string -> bool, x: Json, y: Json, z: Json)
    returns (value: Option<Json>, q: map<Op, map<string, Json>>)
    requires validate(Id)
    ensures value == Some(JArr([x, y, z]))
    ensures q == map[PushOp := map["x.y.z" := Each([x, y, z])]]
  {
    var b := LoadTestDoc(validate);
    PushFirst(b, x);
    PushSecond(b, b.work, x, y, z);
    value := Paths.Get(b.work, XYZ);
    CompilePushOnly("x.y.z", [x, y, z]);
    q := b.GetQuery();
  }

  /** Pushing onto a number fails. */
  method PushToNonArray(validate: string -> bool) returns (r: Outcome)
    requires validate(Id)
    ensures r == Failed(NotAnArray)
  {
    var b := LoadTestDoc(validate);
    SplitPlain("a");
    r := b.Push("a", [JInt(1)]);
  }

  /** Pulling `'x'` empties `c`; pulling values that are not there changes
      nothing. */
  method PullFromArray(validate: string -> bool)
    returns (value: Option<Json>, q1: map<Op, map<string, Json>>, q2: map<Op, map<string, Json>>)
    requires validate(Id)
    ensures value == Some(JArr([]))
    ensures q1 == map[PullOp := map["c" := JObj(map["$in" := JArr([JStr("x")])])]]
    ensures q2 == q1
  {
    var b := LoadTestDoc(validate);
    SplitPlain("c");
    var r := b.Pull("c", [JStr("x")]);
    assert r == Done;
    assert Elems(Paths.Get(TestDoc(), ["c"])) == [JStr("x")];
    AmongSingleton(JStr("x"), [JStr("x")]);
    WithoutSingleton(JStr("x"), [JStr("x")]);
    assert PendingIn(map[], "c") + [JStr("x")] == [JStr("x")];
    assert b.query == Query(map[], {}, map[], map["c" := PullIn([JStr("x")])], map[]);
    CompilePullOnly("c", PullIn([JStr("x")]));
    q1 := b.GetQuery();
    r := b.Pull("c", [JStr("never")]);
    r := b.Pull("c", [JObj(map["never" := JStr("ever")])]);
    value := Paths.Get(b.work, ["c"]);
    q2 := b.GetQuery();
  }

  /** Pulling from an absent field is a no-op. */
  method PullConditionally(validate: string -> bool) returns (r: Outcome, value: Option<Json>, q: map<Op, map<string, Json>>)
    requires validate(Id)
    ensures r == Done && value == None && q == map[]
  {
    var b := LoadTestDoc(validate);
    SplitPlain("d");
    r := b.Pull("d", [JStr("x")]);
    value := Paths.Get(b.work, ["d"]);
    q := b.GetQuery();
  }

  /** Pulling from a number fails. */
  method PullFromNonArray(validate: string -> bool) returns (r: Outcome)
    requires validate(Id)
    ensures r == Failed(NotAnArray)
  {
    var b := LoadTestDoc(validate);
    SplitPlain("a");
    r := b.Pull("a", [JInt(1)]);
  }

  /** `[1, { x: 1, y: 2 }, { x: 2 }, 'x']` */
  function MatchDoc(): Paths.Doc {
    map["_id" := JStr(Id), "a" := JArr([JInt(1), JObj(map["x" := JInt(1), "y" := JInt(2)]), JObj(map["x" := JInt(2)]), JStr("x")])]
  }

  /** Which elements of the test array the matcher `{ x: 1 }` matches. */
  lemma MatchFacts()
    ensures !Matches(JInt(1), map["x" := JInt(1)])
    ensures Matches(JObj(map["x" := JInt(1), "y" := JInt(2)]), map["x" := JInt(1)])
    ensures !Matches(JObj(map["x" := JInt(2)]), map["x" := JInt(1)])
    ensures !Matches(JStr("x"), map["x" := JInt(1)])
  {
    var m := map["x" := JInt(1)];
    MatchesSubObject(map["x" := JInt(1), "y" := JInt(2)], m);
    assert "x" in m && !PartialMatch(JInt(2), m["x"]);
  }

  /** The matcher `{ x: 1 }` keeps all but the second element of the test
      array. */
  lemma MatchExample()
    ensures Unmatched([JInt(1), JObj(map["x" := JInt(1), "y" := JInt(2)]), JObj(map["x" := JInt(2)]), JStr("x")], map["x" := JInt(1)])
         == [JInt(1), JObj(map["x" := JInt(2)]), JStr("x")]
  {
    MatchFacts();
  }

  /** `$pullMatch('a', { x: 1 })` removes the one object with `x: 1`; a
      second `$pullMatch` on the same path fails. */
  method PullMatch(validate: string -> bool) returns (value: Option<Json>, again: Outcome)
    requires validate(Id)
    ensures value == Some(JArr([JInt(1), JObj(map["x" := JInt(2)]), JStr("x")]))
    ensures again == Failed(PullMatchAfterPull)
  {
    var m := map["x" := JInt(1)];
    var c := UpdateBuilder.Load(MatchDoc(), validate, false);
    var b := c.builder;
    SplitPlain("a");
    assert b.work == MatchDoc() && b.ref == MatchDoc() && !b.isNew && b.query == EmptyQuery();
    assert Paths.Get(MatchDoc(), ["a"]) == Some(MatchDoc()["a"]);
    var r := b.PullMatch("a", m);
    assert r == Done;
    assert b.work == Paths.Set(MatchDoc(), ["a"], JArr(Unmatched(MatchDoc()["a"].elems, m)));
    value := Paths.Get(b.work, ["a"]);
    assert value == Some(JArr(Unmatched(MatchDoc()["a"].elems, m)));
    MatchExample();
    again := b.PullMatch("a", m);
  }

  method AddFirst(b: UpdateBuilder, one: Json)
    requires Stored(b, TestDoc(), TestDoc(), EmptyQuery())
    requires one != JStr("x")
    modifies b
    ensures Stored(b, TestDoc(), TestDoc()["c" := JArr([JStr("x"), one])], Query(map[], {}, map[], map[], map["c" := [one]]))
  {
    SplitPlain("c");
    WithoutSingleton(one, [JStr("x")]);
    var r := b.AddToSet("c", [one]);
    assert [JStr("x")] + [one] == [JStr("x"), one];
    assert Pending(map[], "c") + [one] == [one];
  }

  method AddSecond(b: UpdateBuilder, one: Json, two: Json)
    requires Stored(b, TestDoc(), TestDoc()["c" := JArr([JStr("x"), one])], Query(map[], {}, map[], map[], map["c" := [one]]))
    requires two != JStr("x") && two != one
    modifies b
    ensures Stored(b, TestDoc(), TestDoc()["c" := JArr([JStr("x"), one, two])], Query(map[], {}, map[], map[], map["c" := [one, two]]))
  {
    SplitPlain("c");
    WithoutSingleton(two, [JStr("x"), one]);
    var r := b.AddToSet("c", [two]);
    assert [JStr("x"), one] + [two] == [JStr("x"), one, two];
    assert [one] + [two] == [one, two];
  }

  method AddAgain(b: UpdateBuilder, w: Paths.Doc, q: Query, one: Json)
    requires Stored(b, TestDoc(), w, q)
    requires "c" in w && w["c"].JArr? && one in w["c"].elems
    modifies b
    ensures Stored(b, TestDoc(), w, q)
  {
    SplitPlain("c");
    WithoutSingleton(one, w["c"].elems);
    var r := b.AddToSet("c", [one]);
    assert w["c"].elems + [] == w["c"].elems;
    Paths.SetExisting(w, ["c"], w["c"]);
  }

  /** Adding values to `['x']` (the test adds `1`, then `2`, then `1`
      again): each new value extends `$each`; adding one already there
      records nothing. */
  method AddToExistingSet(validate: string -> bool, one: Json, two: Json)
    returns (q1: map<Op, map<string, Json>>, q2: map<Op, map<string, Json>>, q3: map<Op, map<string, Json>>)
    requires validate(Id)
    requires one != JStr("x") && two != JStr("x") && one != two
    ensures q1 == map[AddToSetOp := map["c" := Each([one])]]
    ensures q2 == map[AddToSetOp := map["c" := Each([one, two])]]
    ensures q3 == q2
  {
    var b := LoadTestDoc(validate);
    AddFirst(b, one);
    CompileAddToSetOnly("c", [one]);
    q1 := b.GetQuery();
    AddSecond(b, one, two);
    CompileAddToSetOnly("c", [one, two]);
    q2 := b.GetQuery();
    AddAgain(b, b.work, b.query, one);
    q3 := b.GetQuery();
  }

  /** Adding to an absent field creates it and records the batch. */
  method AddToNonExistingSet(validate: string -> bool) returns (q: map<Op, map<string, Json>>)
    requires validate(Id)
    ensures q == map[AddToSetOp := map["d" := Each([JObj(map["a" := JInt(1)])])]]
  {
    var b := LoadTestDoc(validate);
    SplitPlain("d");
    var r := b.AddToSet("d", [JObj(map["a" := JInt(1)])]);
    assert b.query == Query(map[], {}, map[], map[], map["d" := [JObj(map["a" := JInt(1)])]]);
    CompileAddToSetOnly("d", [JObj(map["a" := JInt(1)])]);
    q := b.GetQuery();
  }

  method AddAbsentFirst(b: UpdateBuilder, one: Json)
    requires Stored(b, TestDoc(), TestDoc(), EmptyQuery())
    modifies b
    ensures Stored(b, TestDoc(), TestDoc()["d" := JArr([one])], Query(map[], {}, map[], map[], map["d" := [one]]))
  {
    SplitPlain("d");
    var r := b.AddToSet("d", [one]);
  }

  method AddAbsentSecond(b: UpdateBuilder, one: Json, two: Json)
    requires Stored(b, TestDoc(), TestDoc()["d" := JArr([one])], Query(map[], {}, map[], map[], map["d" := [one]]))
    requires one != two
    modifies b
    ensures Stored(b, TestDoc(), TestDoc()["d" := JArr([one, two])], Query(map[], {}, map[], map[], map["d" := [one, two]]))
  {
    SplitPlain("d");
    WithoutSingleton(two, [one]);
    assert [one] + [two] == [one, two];
    var r := b.AddToSet("d", [two]);
  }

  /** Two batches added to an absent field: the pending `$each` is the two
      batches in order, each value once. */
  method AddToAbsentSetTwice(validate: string -> bool, one: Json, two: Json) returns (q: map<Op, map<string, Json>>)
    requires validate(Id) && one != two
    ensures q == map[AddToSetOp := map["d" := Each([one, two])]]
  {
    var b := LoadTestDoc(validate);
    AddAbsentFirst(b, one);
    AddAbsentSecond(b, one, two);
    CompileAddToSetOnly("d", [one, two]);
    q := b.GetQuery();
  }

  /** No test field is a member of the builder, and `a` may not be
      assigned through it. */
  lemma TestFieldsAreNotMembers()
    ensures "a" !in BuilderMembers && "b" !in BuilderMembers && "d" !in BuilderMembers
    ensures !AssignableAttribute("a")
  {
  }

  /** Property reads fall through to the working copy; a property write
      other than the builder's own state is refused. */
  method PropertyAccess(validate: string -> bool) returns (a: Attribute, bs: Attribute, d: Attribute, assignable: bool)
    requires validate(Id)
    ensures a == Field(JInt(1)) && d == Undefined && !assignable
    ensures bs == Field(JArr([JInt(1), JInt(3)])) && bs.value.elems[1] == JInt(3)
  {
    var base := map["_id" := JStr(Id), "a" := JInt(1), "b" := JArr([JInt(1), JInt(3)]), "c" := JObj(map["d" := JInt(4)])];
    var c := UpdateBuilder.Load(base, validate, false);
    var b := c.builder;
    TestFieldsAreNotMembers();
    a := b.Read("a");
    bs := b.Read("b");
    d := b.Read("d");
    assignable := AssignableAttribute("a");
  }

  /** A new document needs no `_id` of its own, and may bring one. */
  method NewDocuments(freshId: string, validate: string -> bool) returns (c1: Created, c2: Created)
    requires freshId != "" && validate(freshId) && validate(Id)
    ensures c1.Created? && c2.Created?
  {
    c1 := UpdateBuilder.New(map["a" := JInt(1)], freshId, validate, false);
    c2 := UpdateBuilder.New(map["_id" := JStr(Id), "a" := JInt(1)], freshId, validate, false);
  }

  /** A new document changes its working copy but records nothing. */
  method NewRecordsNothing(freshId: string, validate: string -> bool)
    returns (afterSet: Option<Json>, afterUnset: Option<Json>, q: map<Op, map<string, Json>>)
    requires validate(Id)
    ensures afterSet == Some(JArr([])) && afterUnset == None && q == map[]
  {
    var c := UpdateBuilder.New(TestDoc(), freshId, validate, false);
    var b := c.builder;
    SplitXYZ();
    b.Set("x.y.z", JArr([]));
    afterSet := Paths.Get(b.work, ["x", "y", "z"]);
    b.Unset("x.y.z");
    afterUnset := Paths.Get(b.work, ["x", "y", "z"]);
    q := b.GetQuery();
  }
}
