/**
 * The pending-operator set of one document and its two views: the update
 * document sent to MongoDB (`getQuery`) and the flat map of touched paths
 * (`modifiedPaths`). Every operator is keyed by the raw dot-path string.
 */
module Operators {
  import opened JsonValue

  /** A pending `$pull` for one path: the values pulled so far, emitted as
      `{ $in: [...] }`, or one matcher object recorded by `$pullMatch`. */
  datatype PullEntry = PullIn(values: seq<Json>) | PullShape(matcher: map<string, Json>)

  /** The five operator maps. `$unset` always records `true`, so it is the set
      of its paths; `$push` and `$addToSet` hold the `$each` list of each path. */
  datatype Query = Query(
    setOps: map<string, Json>,
    unsetOps: set<string>,
    pushOps: map<string, seq<Json>>,
    pullOps: map<string, PullEntry>,
    addToSetOps: map<string, seq<Json>>)

  /** A fresh copy of the empty operator set. */
  function EmptyQuery(): (q: Query)
    ensures IsEmpty(q)
  {
    Query(map[], {}, map[], map[], map[])
  }

  /** Nothing is pending under any operator. */
  predicate IsEmpty(q: Query) {
    q.setOps == map[] && q.unsetOps == {} && q.pushOps == map[] && q.pullOps == map[] && q.addToSetOps == map[]
  }

  /** The `$each` list pending for `k`, or none: `query.$op[k]?.$each || []`. */
  function Pending(ops: map<string, seq<Json>>, k: string): seq<Json> {
    if k in ops then ops[k] else []
  }

  /** The `$in` list pending for `k`, or none: `query.$pull[k]?.$in || []`. */
  function PendingIn(ops: map<string, PullEntry>, k: string): seq<Json> {
    if k in ops && ops[k].PullIn? then ops[k].values else []
  }

  function Each(vs: seq<Json>): Json {
    JObj(map["$each" := JArr(vs)])
  }

  function PullPayload(e: PullEntry): Json {
    match e
    case PullIn(vs) => JObj(map["$in" := JArr(vs)])
    case PullShape(m) => JObj(m)
  }

  /** The update operators the builder emits. */
  datatype Op = SetOp | UnsetOp | PushOp | PullOp | AddToSetOp

  /** The operator's key in the update document. */
  function Name(op: Op): (name: string)
    ensures |name| > 1 && name[0] == '$'
  {
    match op
    case SetOp => "$set"
    case UnsetOp => "$unset"
    case PushOp => "$push"
    case PullOp => "$pull"
    case AddToSetOp => "$addToSet"
  }

  /** Distinct operators have distinct keys, so keying the update document
      by operator loses nothing. */
  lemma NameInjective(a: Op, b: Op)
    ensures Name(a) == Name(b) ==> a == b
  {
  }

  /** Each operator's map of path to payload, as the source stores it. */
  function Section(q: Query, op: Op): (r: map<string, Json>)
    ensures op == SetOp ==> r == q.setOps
    ensures op == UnsetOp ==> r.Keys == q.unsetOps
    ensures op == PushOp ==> r.Keys == q.pushOps.Keys
    ensures op == PullOp ==> r.Keys == q.pullOps.Keys
    ensures op == AddToSetOp ==> r.Keys == q.addToSetOps.Keys
  {
    match op
    case SetOp => q.setOps
    case UnsetOp => map k | k in q.unsetOps :: JBool(true)
    case PushOp => map k | k in q.pushOps :: Each(q.pushOps[k])
    case PullOp => map k | k in q.pullOps :: PullPayload(q.pullOps[k])
    case AddToSetOp => map k | k in q.addToSetOps :: Each(q.addToSetOps[k])
  }

  const AllOps: set<Op> := {SetOp, UnsetOp, PushOp, PullOp, AddToSetOp}

  /** After `sync()` or `reset()` both views are empty. */
  lemma EmptyQueryViews()
    ensures Compile(EmptyQuery()) == map[]
    ensures ModifiedPaths(EmptyQuery()) == map[]
  {
  }

  /** `getQuery()`: the update document, keyed by operator, without the
      operators that have no path. It is empty exactly when nothing is
      pending. */
  function Compile(q: Query): (r: map<Op, map<string, Json>>)
    ensures SetOp in r <==> q.setOps != map[]
    ensures UnsetOp in r <==> q.unsetOps != {}
    ensures PushOp in r <==> q.pushOps != map[]
    ensures PullOp in r <==> q.pullOps != map[]
    ensures AddToSetOp in r <==> q.addToSetOps != map[]
    ensures r == map[] <==> IsEmpty(q)
  {
    map op | op in AllOps && Section(q, op) != map[] :: Section(q, op)
  }

  /** The entry of an operator present in the update document is its section. */
  lemma CompileSection(q: Query, op: Op)
    ensures op in Compile(q) ==> Compile(q)[op] == Section(q, op)
  {
  }

  /** A query with a single non-empty section compiles to that section alone. */
  lemma CompileOne(q: Query, op: Op)
    requires forall o | o != op :: Section(q, o) == map[]
    requires Section(q, op) != map[]
    ensures Compile(q) == map[op := Section(q, op)]
  {
    var r := Compile(q);
    forall o | o in AllOps
      ensures o in r <==> o == op
    {
      CompileSection(q, o);
    }
    assert r.Keys == {op};
    CompileSection(q, op);
  }

  /** `modifiedPaths()`: the five sections merged in the order `$set`,
      `$unset`, `$push`, `$pull`, `$addToSet`, a later section overwriting an
      earlier one on the same path. */
  function ModifiedPaths(q: Query): (r: map<string, Json>)
    ensures r.Keys == q.setOps.Keys + q.unsetOps + q.pushOps.Keys + q.pullOps.Keys + q.addToSetOps.Keys
    ensures forall k | k in q.addToSetOps :: r[k] == Each(q.addToSetOps[k])
    ensures forall k | k in q.pullOps && k !in q.addToSetOps :: r[k] == PullPayload(q.pullOps[k])
    ensures forall k | k in q.pushOps && k !in q.pullOps && k !in q.addToSetOps ::
      r[k] == Each(q.pushOps[k])
    ensures forall k | k in q.unsetOps && k !in q.pushOps && k !in q.pullOps && k !in q.addToSetOps ::
      r[k] == JBool(true)
    ensures forall k | k in q.setOps && k !in q.unsetOps && k !in q.pushOps && k !in q.pullOps && k !in q.addToSetOps ::
      r[k] == q.setOps[k]
  {
    Section(q, SetOp) + Section(q, UnsetOp) + Section(q, PushOp) + Section(q, PullOp) + Section(q, AddToSetOp)
  }

  /** Reading an update document back into pending operators. A `$pull`
      payload of the form `{ $in: [...] }` reads as a list of pulled values,
      any other object as a matcher. */
  function Decompile(d: map<Op, map<string, Json>>): Query {
    Query(
      Part(d, SetOp),
      Part(d, UnsetOp).Keys,
      EachLists(Part(d, PushOp)),
      ReadPulls(Part(d, PullOp)),
      EachLists(Part(d, AddToSetOp)))
  }

  function Part(d: map<Op, map<string, Json>>, op: Op): map<string, Json> {
    if op in d then d[op] else map[]
  }

  function EachList(j: Json): seq<Json> {
    if j.JObj? && "$each" in j.fields && j.fields["$each"].JArr? then j.fields["$each"].elems else []
  }

  function EachLists(section: map<string, Json>): map<string, seq<Json>> {
    map k | k in section :: EachList(section[k])
  }

  function ReadPull(j: Json): PullEntry {
    match j
    case JObj(f) =>
      if f.Keys == {"$in"} && f["$in"].JArr? then PullIn(f["$in"].elems) else PullShape(f)
    case _ => PullShape(map[])
  }

  function ReadPulls(section: map<string, Json>): map<string, PullEntry> {
    map k | k in section :: ReadPull(section[k])
  }

  /** A `$pullMatch` matcher that is itself `{ $in: [...] }` cannot be told
      apart from a list of pulled values. */
  predicate Unambiguous(q: Query) {
    forall k | k in q.pullOps && q.pullOps[k].PullShape? ::
      !(q.pullOps[k].matcher.Keys == {"$in"} && q.pullOps[k].matcher["$in"].JArr?)
  }

  /** An `$each` list reads back from its payload. */
  lemma EachListsRoundTrip(ops: map<string, seq<Json>>)
    ensures EachLists(map k | k in ops :: Each(ops[k])) == ops
  {
    var section := map k | k in ops :: Each(ops[k]);
    forall k | k in ops
      ensures EachList(section[k]) == ops[k]
    {
    }
  }

  /** A `$pull` entry reads back from its payload unless it is ambiguous. */
  lemma ReadPullsRoundTrip(q: Query)
    requires Unambiguous(q)
    ensures ReadPulls(Section(q, PullOp)) == q.pullOps
  {
    forall k | k in q.pullOps
      ensures ReadPull(PullPayload(q.pullOps[k])) == q.pullOps[k]
    {
      var e := q.pullOps[k];
      if e.PullIn? {
        assert map["$in" := JArr(e.values)].Keys == {"$in"};
      }
    }
  }

  /** The update document loses nothing: every pending operator can be read
      back from it, provided no matcher looks like a list of pulled values. */
  lemma CompileDecompile(q: Query)
    requires Unambiguous(q)
    ensures Decompile(Compile(q)) == q
  {
    var d := Compile(q);
    assert Part(d, SetOp) == q.setOps;
    assert Part(d, UnsetOp).Keys == q.unsetOps;
    assert Part(d, PushOp) == Section(q, PushOp);
    assert Part(d, PullOp) == Section(q, PullOp);
    assert Part(d, AddToSetOp) == Section(q, AddToSetOp);
    EachListsRoundTrip(q.pushOps);
    EachListsRoundTrip(q.addToSetOps);
    ReadPullsRoundTrip(q);
  }
}
