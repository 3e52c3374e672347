# mongo-document-builder, modelled in Dafny

`UpdateBuilder` (src/index.ts) tracks one MongoDB document while it is
being edited. It holds four pieces of state:

- a reference snapshot `ref`;
- a working copy `work`;
- a flag `isNew` that says whether the document is not stored yet;
- the pending update operators `query`: `$set`, `$unset`, `$push`, `$pull`
  and `$addToSet`, each keyed by a dot-path.

The mutators `$set`, `$unset`, `$push`, `$addToSet`, `$pull` and
`$pullMatch` change the working copy at once. For a stored document they
also record or merge the matching operator. `getQuery()` compiles the
pending operators into the update document sent to `updateOne`.
`save()` inserts a new document whole, or sends that update document, and
then resynchronises. `reset()` rolls the working copy back to the
snapshot.

Modules, one per file:

- `JsonValue` (json_value.dfy): document values, JavaScript truthiness,
  `===` and lodash `isMatch`.
- `Arrays` (arrays.dfy): the `filter` comprehensions inside `$addToSet`,
  `$pull` and `$pullMatch`, and their properties.
- `Paths` (paths.dfy): dot-paths and the lodash `get`/`has`/`set`/`unset`
  on documents, with their frame lemmas.
- `Operators` (operators.dfy): the pending-operator set, `getQuery()` as
  `Compile`, `modifiedPaths()`, and a decoder proving that the update
  document loses nothing.
- `Builder` (builder.dfy): the `UpdateBuilder` class. Its fields are the
  source's fields. Every mutator is a method whose postcondition gives the
  new state in terms of the old one, including every error case.
- `Scenarios` (scenarios.dfy): the repository's test cases, stated as
  methods that drive the class and prove the outcomes the tests expect.
- `Findings` (findings.dfy): the array aliasing between the working copy
  and `$addToSet`'s pending `$each`, modelled with arrays as heap objects.

In these respects the model follows src/index.ts as written:

- `$set` skips the write only when the old value is `===` the new one. An
  array or object argument that is not the stored object itself is never
  `===` to it, so it is always recorded. A deep-equal value does not count
  as a no-op.
- `$addToSet` filters the batch only against the elements already there.
  It does not drop duplicates inside the batch. When at least one value
  is added, it extends the pending `$each` with the whole batch, not just
  the added values.
- `$pull` and `$pullMatch` return early only when the working value is
  absent or falsy. An empty array is truthy, so `$pullMatch` on `[]` still
  records its matcher. The non-array check comes first, though. A falsy
  non-array value (`0`, `""`, `false`, `null`) fails there when it is the
  checked value: the snapshot's value for a stored document, or the
  working value for a new one. Only a falsy working value over an absent or
  array snapshot value is a silent no-op, not a type error.
- The identity check runs for both factories. `new()` with an `_id` of its
  own that the validator rejects fails as well.
- The non-array check looks at the snapshot for a stored document. A
  working value that is not an array then fails only at `push`, `every` or
  `filter`, with a JavaScript TypeError. That case is `WorkingNotAnArray`
  here, and it changes nothing.

## Model

| member | source | states |
|---|---|---|
| JsonValue.Truthy | src/index.ts:133 | the values `!working` treats as absent are exactly `null`, `false`, `0` and `""` |
| JsonValue.StrictEquals | src/index.ts:74 | `===` implies deep equality and never holds for an array or object argument |
| JsonValue.Matches | src/index.ts:148 | `isMatch` with an empty matcher matches every element; a non-empty one matches only an object that has all of its keys |
| JsonValue.PartialMatch | src/index.ts:148 | a field matches a nested matcher object only when the field is itself an object; any other matcher value matches by deep equality |
| JsonValue.PartialMatchReflexive | src/index.ts:148 | every value partially matches itself under the `isMatch` field comparison |
| JsonValue.MatchesSubObject | src/index.ts:148 | an object matches any matcher made of some of its own fields, so `$pullMatch` with such a matcher removes that element |
| Arrays.Filter | src/index.ts:117 | `filter` returns no more elements than it was given, and a value is in the result exactly when it is in the input and passes the test |
| Arrays.FilterCount | src/index.ts:134-136 | filtering keeps every occurrence of a kept value and no occurrence of any other value (multiset) |
| Arrays.FilterAppend | src/index.ts:136 | filtering keeps the relative order: it distributes over concatenation |
| Arrays.FilterCongruent | src/index.ts:134-136 | two tests that agree on every element keep the same elements |
| Arrays.FilterKeepsNone | src/index.ts:117 | a test that no element passes keeps nothing |
| Arrays.Without | src/index.ts:117 | the values of `v` not deep-equal to any existing element are exactly those in `v` and absent from the array |
| Arrays.Among | src/index.ts:134 | the matching elements are exactly those in the array that are deep-equal to a pulled value |
| Arrays.Unmatched | src/index.ts:148 | what `$pullMatch` keeps is exactly the elements the matcher does not match |
| Arrays.WithoutSingleton | src/index.ts:117 | `$addToSet` with one value adds it exactly when it is not already present |
| Arrays.AmongSingleton | src/index.ts:134 | `$pull` with one array element removes it exactly when it is a pulled value |
| Arrays.UnmatchedCons | src/index.ts:148 | the `$pullMatch` filter decides element by element, in order |
| Arrays.PullPartition | src/index.ts:134-136 | removing the matching elements equals removing the pulled values, and removed plus kept elements are the original array as a multiset |
| Arrays.AddToSetCovers | src/index.ts:117-120 | after `$addToSet` every value of the batch is present, only absent values are appended, and nothing is appended exactly when every value was already there |
| Arrays.PullIdempotent | src/index.ts:134-135 | a second `$pull` of the same values finds nothing to remove |
| Paths.Split | src/index.ts:74 | a dot-path splits into segments none of which contains a dot |
| Paths.JoinSplit | src/index.ts:74 | joining the segments of a path with dots gives the path back |
| Paths.SplitSegment | src/index.ts:74 | a dot-free key is a single segment, and a leading dot-free segment splits off |
| Paths.SplitJoin | src/index.ts:74 | splitting joined dot-free segments gives the segments back |
| Paths.GetDescends | src/index.ts:74 | `get` and `has` find a value only under a top-level key, and every proper prefix of a found path holds an object |
| Paths.Set | src/index.ts:75 | after `set(work, k, v)` the path holds `v`, and the top-level keys grow only by the path's first segment |
| Paths.Unset | src/index.ts:82 | after `unset(work, k)` the path is absent, and no top-level key is added |
| Paths.GetSetOther | src/index.ts:75 | `set` at one path leaves every independent path (neither a prefix of the other) unchanged |
| Paths.GetUnsetOther | src/index.ts:82 | `unset` at one path leaves every independent path unchanged |
| Paths.SetExisting | src/index.ts:74-75 | setting a path to the value it already holds leaves the document unchanged |
| Paths.UnsetAbsent | src/index.ts:81-82 | unsetting an absent path leaves the document unchanged |
| Operators.EmptyQuery | src/index.ts:25-31 | the empty operator set has nothing pending under any operator |
| Operators.Name | src/index.ts:25-31 | every operator key of the update document is a `$`-name |
| Operators.NameInjective | src/index.ts:25-31 | distinct operators have distinct keys |
| Operators.Section | src/index.ts:157-158 | each operator's section of the update document has exactly that operator's pending paths, and `$set` carries the pending values themselves |
| Operators.EmptyQueryViews | src/index.ts:176-181 | after `sync()` or `reset()` the update document and the modified-paths view are both empty |
| Operators.Compile | src/index.ts:157-159 | `getQuery()` has an operator exactly when that operator has a pending path, so it is empty exactly when nothing is pending |
| Operators.CompileSection | src/index.ts:158 | an operator present in the update document carries its whole section |
| Operators.CompileOne | src/index.ts:158 | when only one operator has pending paths, the update document is that one section |
| Operators.ModifiedPaths | src/index.ts:161-163 | `modifiedPaths()` covers every pending path of every operator, and on a collision the later operator of `$set`, `$unset`, `$push`, `$pull`, `$addToSet` wins |
| Operators.EachListsRoundTrip | src/index.ts:101 | each pending `$each` list reads back from its `{ $each: [...] }` payload |
| Operators.ReadPullsRoundTrip | src/index.ts:138 | each pending `$pull` entry reads back from its `{ $in: [...] }` or matcher payload |
| Operators.CompileDecompile | src/index.ts:157-159 | the update document determines the pending operators: decoding `getQuery()` gives them back |
| Builder.CheckId | src/index.ts:48-51 | the constructor accepts exactly a non-empty string `_id` the validator accepts, fails with a missing identity exactly when `_id` is absent or falsy, and otherwise fails as invalid |
| Builder.WithId | src/index.ts:41 | `{ _id: uuid(), ...base }` keeps every field of `base` and uses the generated identity only when `base` has none |
| Builder.AssignableAttribute | src/index.ts:65-71 | a write through the builder is accepted only for one of its own fields, never for `useVersionKey` or a document field |
| Builder.UpdateBuilder.constructor | src/index.ts:52-55 | snapshot and working copy both start as the base document, nothing is pending, and the flags are as given |
| Builder.UpdateBuilder.Load | src/index.ts:44-57 | `load` is refused exactly when the identity check fails, with its error; otherwise it builds a stored-document builder over the base |
| Builder.UpdateBuilder.New | src/index.ts:40-42 | `new` checks the base with the generated identity filled in; when accepted it builds a new-document builder with nothing pending |
| Builder.UpdateBuilder.Checked | src/index.ts:92 | the value the array mutators check is read from the working copy for a new document and from the snapshot for a stored one |
| Builder.UpdateBuilder.Read | src/index.ts:59-63 | a property read yields the builder's own member when there is one, otherwise the working copy's top-level field exactly when it exists |
| Builder.UpdateBuilder.Set | src/index.ts:73-78 | no change when the working copy already holds a `===` value; otherwise the path holds `v` and, for a stored document only, `$set[k] = v` with the last write winning |
| Builder.UpdateBuilder.Unset | src/index.ts:80-85 | no change when the path is absent; otherwise it is removed and, for a stored document only, recorded under `$unset` |
| Builder.UpdateBuilder.Push | src/index.ts:91-102 | fails, changing nothing, on a non-array snapshot value or working value; otherwise the array gains the batch at its end and a stored document's `$each` grows by the batch |
| Builder.UpdateBuilder.AddToSet | src/index.ts:108-122 | fails, changing nothing, on non-array targets; on an absent path it stores the batch and sets `$each` to it; on an array it appends the values not already present and, when any were, extends `$each` by the whole batch |
| Builder.UpdateBuilder.Pull | src/index.ts:128-140 | fails, changing nothing, on a non-array target or after `$pullMatch`; otherwise removes every element deep-equal to a pulled value, extends `$in` by the removed elements, and never leaves a matcher behind |
| Builder.UpdateBuilder.PullMatch | src/index.ts:142-151 | fails, changing nothing, on a non-array target or when any `$pull` is pending for the path; otherwise removes the matched elements and records the matcher, even when none matched |
| Builder.UpdateBuilder.GetValue | src/index.ts:153-155 | `getValue()` is the working copy |
| Builder.UpdateBuilder.GetQuery | src/index.ts:157-159 | `getQuery()` is the compiled update document, empty exactly when nothing is pending |
| Builder.UpdateBuilder.ModifiedPaths | src/index.ts:161-163 | `modifiedPaths()` has exactly the pending paths of all five operators |
| Builder.UpdateBuilder.Sync | src/index.ts:175-178 | nothing is pending and the snapshot becomes the working copy |
| Builder.UpdateBuilder.Reset | src/index.ts:180-184 | nothing is pending and the working copy returns to the snapshot |
| Builder.UpdateBuilder.Save | src/index.ts:165-173 | a new document is inserted whole; a stored one is sent its update document, keyed by the snapshot's `_id`, only when that document is non-empty; on success the builder is stored and synchronised; a failed request changes nothing |
| Scenarios.LoadWithoutId | src/index.test.ts:15-17 | loading a document without `_id` is refused |
| Scenarios.SetsFields | src/index.test.ts:19-24 | `$set('x.y.z', [])` stores `[]` there and records only that path under `$set` |
| Scenarios.SetConditionally | src/index.test.ts:26-32 | setting the value already there records nothing; a new value is recorded |
| Scenarios.UnsetsFields | src/index.test.ts:34-40 | `$unset('x.y.z')` removes the nested field and records `$unset: { 'x.y.z': true }` |
| Scenarios.UnsetConditionally | src/index.test.ts:42-49 | unsetting an absent field records nothing; unsetting a present one is recorded |
| Scenarios.PushFirst | src/index.test.ts:53-54 | the first push creates the array and its `$each` |
| Scenarios.PushSecond | src/index.test.ts:55-56 | the second push extends both the array and its `$each` |
| Scenarios.PushToArray | src/index.test.ts:51-58 | two pushes give the working array `[x, y, z]` and `$push: { $each: [x, y, z] }` |
| Scenarios.PushToNonArray | src/index.test.ts:61-64 | pushing onto a number fails |
| Scenarios.PullFromArray | src/index.test.ts:66-75 | pulling `'x'` empties `c` and records `$in: ['x']`; pulling absent values changes nothing |
| Scenarios.PullConditionally | src/index.test.ts:77-82 | pulling from an absent path succeeds and changes nothing |
| Scenarios.PullFromNonArray | src/index.test.ts:84-87 | pulling from a number fails |
| Scenarios.MatchFacts | src/index.test.ts:90-92 | which elements of the test array the matcher `{ x: 1 }` matches |
| Scenarios.MatchExample | src/index.test.ts:92-93 | the `$pullMatch` filter keeps `[1, { x: 2 }, 'x']` |
| Scenarios.PullMatch | src/index.test.ts:89-100 | for every identifier validator accepting the test `_id`, `$pullMatch('a', { x: 1 })` leaves `[1, { x: 2 }, 'x']`, and a second `$pullMatch` on the path fails |
| Scenarios.AddFirst | src/index.test.ts:104-105 | adding a new value to `['x']` appends it and starts `$each` |
| Scenarios.AddSecond | src/index.test.ts:106-107 | adding a second new value extends both |
| Scenarios.AddAgain | src/index.test.ts:108-109 | adding a value already present changes nothing |
| Scenarios.AddToExistingSet | src/index.test.ts:102-110 | `$addToSet` of 1, 2, 1 gives `$each: [1, 2]` after the second and third calls |
| Scenarios.AddToNonExistingSet | src/index.test.ts:112-116 | `$addToSet` on an absent path records `$each` with the batch |
| Scenarios.AddAbsentFirst | src/index.ts:112-115 | on an absent path the batch becomes both the array and `$each` |
| Scenarios.AddAbsentSecond | src/index.ts:116-120 | a second distinct value extends both by that value once |
| Scenarios.AddToAbsentSetTwice | src/index.ts:108-122 | two `$addToSet` calls with distinct values on an absent path give `$each: [one, two]` |
| Scenarios.TestFieldsAreNotMembers | src/index.test.ts:121-131 | the test fields `a`, `b` and `d` are not builder members, and `a` is not assignable |
| Scenarios.PropertyAccess | src/index.test.ts:119-132 | reading `a` yields the working field, reading `b` yields `[1, 3]` whose second element is `3`, reading `d` yields nothing, and `a` is not assignable |
| Scenarios.NewDocuments | src/index.test.ts:139-145 | `new` accepts a base without `_id` and a base with a valid one |
| Scenarios.NewRecordsNothing | src/index.test.ts:147-159 | in a new document `$set` and `$unset` change the working copy and record nothing |
| Findings.AddToAbsentAsWritten | src/index.ts:112-115 | the working array and the pending `$each` are the same array object |
| Findings.AddToExistingAsWritten | src/index.ts:117-120 | `push` grows the working array in place, and `$each` is rebuilt from what the pending array holds at that moment, followed by the batch |
| Findings.PushAsWritten | src/index.ts:98 | `push` grows the working array object in place by the batch |
| Findings.AliasedAddToSetThenPush | src/index.ts:98-101 | `$addToSet('d', 1); $push('d', 5)` on an absent `d` leaves `$addToSet` with `$each: [1, 5]` |
| Findings.AliasedAddToSet | src/index.ts:112-120 | `$addToSet('d', 1); $addToSet('d', 2)` on an absent `d` leaves `$each: [1, 2, 2]` |

## Left out

- `Builder.UpdateBuilder.Sync`: the source makes the snapshot the very same
  object as the working copy, with no copy (src/index.ts:177, reached from
  `save()` at :172). Every mutator writes into the working copy in place:
  lodash `set` at :75, :96, :113, :136 and :148, `unset` at :82, and `push`
  at :98 and :118. So after a `sync()` or `save()`, every later `$set`,
  `$unset`, `$push`, `$addToSet`, `$pull` or `$pullMatch` also changes the
  snapshot. The non-array checks then consult the edited snapshot, and
  `reset()` (:182) cannot roll back anything done since the last
  synchronisation. The model copies, so `Reset` restores the synchronised
  state; it does not capture that aliasing.
- `Builder.UpdateBuilder.Set`: a stored array or object argument is shared
  by the working copy and `$set[k]`, so any later in-place write under `k`
  also changes the pending `$set` payload: `push` at src/index.ts:98 and
  :118, a nested `set` at :75, :136 and :148, and a nested `unset` at :82.
  The model has value semantics and does not capture that.
- `Builder.UpdateBuilder.AddToSet`: on an absent path of a stored document
  the batch array is stored both as the working array (src/index.ts:113)
  and as `$addToSet[k].$each` (:115). `$each` stays that working array
  until `$pull`, `$pullMatch` or `$set` replaces the array, or until an
  `$addToSet` that adds something rebuilds `$each` at :120. A `$push` at
  :98 in between also extends `$each`: `$addToSet('d', 1); $push('d', 5)`
  leaves `{ $push: { d: { $each: [5] } }, $addToSet: { d: { $each: [1, 5] } } }`,
  where the model keeps `$each: [1]`. The model has value semantics; the
  two effects of the shared array are exhibited in `Findings`
  (`Findings.AliasedAddToSet`, `Findings.AliasedAddToSetThenPush`).
- `Builder.UpdateBuilder.Read`: the `Proxy` is modelled only as `Read` and
  `AssignableAttribute`. In the source a read returns the working field
  itself (src/index.ts:62), not a copy. Passing it back, as in
  `q.$set('c', q.c)`, is a no-op there because it is `===` to the stored
  object, while the model's `Set` records `$set.c`. Assigning to one of the
  four allowed internal fields is not modelled.
- `Builder.UpdateBuilder.Pull`: in the source, a `$pullMatch` matcher that
  itself has a truthy `$in` field does not block a later `$pull`, and that
  `$pull` then extends the matcher's `$in`. The model treats every recorded
  matcher as blocking.
- `Operators.CompileDecompile`: proved for operator sets whose `$pull`
  matchers are not themselves `{ $in: [...] }`. Such a matcher has the
  same payload as a list of pulled values.
- The update document is keyed by the operator datatype `Op`.
  `Operators.Name` gives its string key, and `Operators.NameInjective`
  proves that the renaming loses nothing.
- Paths are split on `.` only. lodash's bracket and quote syntax, numeric
  segments into arrays, keys that contain a dot, and `set` through a
  non-object intermediate that lodash keeps are not modelled. `set`
  replaces such an intermediate with an object.
- `isMatch` is modelled on object elements and object fields. Its partial
  matching of arrays inside a matcher is not modelled: arrays compare by
  deep equality. Matching a string or array element through its `length`
  or index properties is not modelled either: only an object element can
  match a non-empty matcher.
- Numbers are integers. Floating point, `NaN` and `-0` are not modelled.
  Neither are prototype keys of documents, nor `undefined` as a stored
  value.
- `useVersionKey` is stored and never read, as in the source.
- I/O and foreign calls are parameters:
  - `uuid()` is the `freshId` argument of `New`;
  - the UUID validator is the `validate` argument;
  - the outcome of `insertOne`/`updateOne` is the `backendOk` argument of
    `Save`, which returns the request it would send.
- `async` suspension, concurrent use and the example scripts
  (src/example.ts, src/test.mongodb.ts) are not part of this model.

## Findings

| source | as written | input that shows it | evidently intended | confidence | as-written member | corrected member |
|---|---|---|---|---|---|---|
| src/index.ts:113-120 | on an absent path, `set(this.work, k, v)` and `$addToSet[k] = { $each: v }` store one array; a later `$addToSet` pushes onto it and then rebuilds `$each` as that array followed by the batch | `$addToSet('d', 1); $addToSet('d', 2)` on a stored document without `d` gives `$each: [1, 2, 2]` | `$each: [1, 2]` | medium; not executed | Findings.AliasedAddToSet | Scenarios.AddToAbsentSetTwice |
