# Test utilities of json-schema-ref-parser, in Dafny

json-schema-ref-parser resolves, dereferences and bundles JSON/YAML documents
that link to each other through `$ref` pointers. Its resolution engine
(`lib/`) is not part of this model. What is modelled are the two
self-contained pieces of logic in the test suite's utilities that the tests
lean on:

- `cloneDeep` (test/utils/helper.ts): the deep copy the tests make of a parsed
  schema before handing it to the parser, which rewrites the schema in place.
  `helper.dfy`, module `Helper`.
- `unixify` (test/utils/path.js): the path normalisation that turns `\` into
  `/` and lower-cases a leading drive letter. `path.dfy`, module `PathUtil`.

## How `cloneDeep` is modelled

JavaScript objects live on a heap, and `cloneDeep` allocates new ones and fills
them in place, so the model is imperative:

- `Value` is a JavaScript value. It is either a primitive (`undefined`, `null`,
  boolean, number, string) or `Ref(obj)`.
- `Obj` is a heap object. It has a constant `kind`: plain object, array,
  function, or any other object such as a Date or a Buffer. `keys` holds its
  own enumerable keys in `Object.keys` order, and `props` maps each key to its
  value. `Obj.Put` is the assignment `obj[key] = val`.
- `CloneDeep` is the function itself. It returns a primitive, `null`,
  `undefined` or a function unchanged. Otherwise it allocates `[]` or `{}` and
  runs the source's `for` loop over `Object.keys(value)`. Each turn of that
  loop is `CopyEntry`, the statement `clone[keys[i]] = cloneDeep(value[keys[i]])`.
- `cloneDeep` recurses once per entry and keeps no visited set, so it only
  terminates on acyclic input. `CloneDeep` therefore requires a ghost witness
  `Ranked(nodes, rank)`: every container an object holds is in `nodes` and
  ranks strictly lower. `CycleNotRanked` shows that no cycle of objects admits
  such a witness.
- Deep equality is modelled by equality of the ghost `Tree` that `TreeOf`
  reads off the heap. In that tree, objects are compared by kind and by their
  entries in key order. Primitives are compared by value and functions by
  identity. On trees with no `OtherObject` node, which is the plain data a
  JSON or YAML parser yields, equal trees are `deep.equal` in chai's sense,
  up to `-0` and array length. Tree equality is finer there, because chai
  ignores key order. On other trees there is no such implication. An
  `OtherObject` such as a Date, Map, RegExp or Error shows only its own
  enumerable keys, so `new Date(0)` and `new Date(1)` have the same tree.
- `Cloned` is the specification of the copy on trees. `CloneDeep` proves:
  - the copy's tree is `Cloned` of the input's tree;
  - every object of the copy is freshly allocated;
  - the input objects are unchanged.

## Model

| member | source | states |
|---|---|---|
| `Helper.CloneDeep` | test/utils/helper.ts:81-92 | A non-object (primitive, null, undefined, function) is returned as it is. An object becomes a fresh array when the input is an array and a fresh plain object otherwise, with the input's keys in the same order. The copy is deeply equal to `Cloned` of the input, and every container in it is new. No input object is written. The acyclicity witness is required because the recursion has no visited set. |
| `Helper.CopyEntry` | test/utils/helper.ts:86-88 | One loop turn appends key `i` to the copy and stores there a ranked clone of the input's entry. The entries already copied are kept. |
| `Helper.Store` | test/utils/helper.ts:87 | The assignment `clone[keys[i]] = child` extends the copy's key order by key `i`. Given a ranked child deeply equal to `Cloned` of the input's entry, the first `i + 1` entries are then copied. |
| `Helper.Obj.Put` | test/utils/helper.ts:87 | Property assignment: the map gets the new value, and a key not yet present is appended to the key order while an existing key keeps its place. Distinct keys that match the map are preserved. |
| `Helper.Obj.constructor` | test/utils/helper.ts:84 | `[]` / `{}`: a fresh object of the given kind with no keys. |
| `Helper.IsContainer` | test/utils/helper.ts:83 | The branch `value && typeof value === 'object'`: the values that are copied rather than returned as they are. |
| `Helper.IsContainerIsObjectTest` | test/utils/helper.ts:83 | A value passes the source's test exactly when it is a reference to a non-function object. `null` fails on truthiness, and a function fails on `typeof`. |
| `Helper.ClonedKind` | test/utils/helper.ts:84 | The copy is an array exactly when the input is an array. Otherwise it is a plain object, never a function or another kind of object. |
| `Helper.ClonedShape` | test/utils/helper.ts:82-88 | A leaf stays the same leaf. An object's clone has the same number of entries, the same keys in the same order, and each entry is the clone of the input's entry. |
| `Helper.ClonedIsPlain` | test/utils/helper.ts:84 | Every object anywhere in a clone is a plain object or an array. |
| `Helper.ClonedPlainIsEqual` | test/utils/helper.ts:81-92 | On plain data, which is what a JSON or YAML parser yields, the clone is deeply equal to the input. This holds for data with no own `__proto__` key; see "## Left out". The object-source tests rely on this when they dereference `cloneDeep(parsedSchema)`. |
| `Helper.ClonedIdempotent` | test/utils/helper.ts:81-92 | Cloning a clone gives a tree deeply equal to the clone. |
| `Helper.CycleNotRanked` | test/utils/helper.ts:87 | A cycle of objects, each held by the one before it, has no acyclicity witness. So `CloneDeep`'s precondition excludes every input on which the recursion would not end. The converse, that every acyclic input has a witness, is not proved. |
| `Helper.TreeOfFrame` | test/utils/helper.ts:87 | The deep-equality view of a value does not depend on which ranked super-graph it is read in. So a copied entry keeps its view while later entries are copied. |
| `PathUtil.ToLower` | test/utils/path.js:31 | `letter.toLowerCase()` on `A`-`Z` gives the letter 32 code points higher, in `a`-`z`. The regex `[A-Z]` only ever hands it `A`-`Z`. The helper returns any other character unchanged, which is not true of JavaScript's `toLowerCase` (`'Ä'` becomes `'ä'`). That case never arises here. |
| `PathUtil.Slashed` | test/utils/path.js:31 | `replace(/\\/g, '/')`: same length, no backslash left, each backslash becomes `/`, and every other character is kept. |
| `PathUtil.LowerDrive` | test/utils/path.js:31 | `replace(/^[A-Z](?=:\/)/, …)`: same length, and no upper-case drive remains. Only the first character can change, and only when followed by `:/`. |
| `PathUtil.HasUpperDrive` | test/utils/path.js:31 | The regex `^[A-Z](?=:\/)` matches: an upper-case letter at the start, followed by `:/`. |
| `PathUtil.Unixify` | test/utils/path.js:30-32 | The output has the input's length, contains no backslash, and does not start with an upper-case letter followed by `:/`. |
| `PathUtil.UnixifyAt` | test/utils/path.js:31 | Position by position, a backslash becomes `/`. The first character is lower-cased exactly when the input starts with `[A-Z]:/` or `[A-Z]:\`, because the drive check runs after the slash conversion. Every other character is kept. |
| `PathUtil.UnixifyChanges` | test/utils/path.js:31 | A changed character is either a backslash that became `/`, or the first character, an upper-case letter that became lower-case. |
| `PathUtil.UnixifyWindowsPath` | test/utils/path.js:31 | `C:\a\b` becomes `c:/a/b`. |
| `PathUtil.UnixifyKeeps` | test/utils/path.js:31 | A path with no backslash and no leading `[A-Z]:/` is returned unchanged. |
| `PathUtil.UnixifyIdempotent` | test/utils/path.js:31 | `unixify(unixify(p)) == unixify(p)`. |

## Left out

- The resolution engine (`lib/`: pointers, the `$Refs` registry, dereferencing, bundling, plugins) is not part of this model. The test files only call it, so they hold no logic of it to model.
- `testResolve` and `convertNodeBuffersToPOJOs` (test/utils/helper.ts:10-76) are left out. They are asynchronous test harnesses around the engine and Node's `Buffer`.
- `path.rel`, `path.abs`, `path.url`, `path.cwd` and the `process.chdir` at load time (test/utils/path.js:10-57) are left out. They are thin wrappers over Node's `path`, `url` and process state.
- `Helper.CloneDeep` does not say that sharing is lost. An object reachable twice from the input is copied twice, because the source keeps no map of copies. The model reproduces that behaviour but states no lemma about it.
- `Helper.Obj.Put` appends every new key. JavaScript orders integer-like keys of an object ascending before other keys. `cloneDeep` inserts keys into an empty object in the order `Object.keys` returned, so this yields the same order as the input.
- Arrays carry no `length`. A sparse array with trailing holes therefore loses its length in a real copy, which the model does not show. Symbol-keyed, non-enumerable and inherited properties are not modelled, because `Object.keys` ignores them too. Getters and proxies are not modelled.
- Numbers are `real`. `NaN`, `-0` and the falsy primitives need no modelling of their own, because `cloneDeep` returns every primitive unchanged.
- `Helper.CloneDeep` requires the acyclicity witness from its caller. On a cyclic input the source overflows the stack, and the model gives no result for that case. A deep acyclic input also makes the source throw `RangeError`, because helper.ts:87 recurses once per nesting level. The model has no stack bound and returns the copy.
- `Helper.Obj.Put` treats `__proto__` like any other key. In JavaScript, `clone['__proto__'] = x` on `{}` or `[]` runs the setter inherited from `Object.prototype`. That setter changes the copy's prototype and adds no own key.
- `Helper.CloneDeep` therefore promises too much for an input with an own `__proto__` key, such as `JSON.parse('{"__proto__": {}}')`. The source's copy lacks that key. The model's copy keeps it, and so does its tree `Cloned`.
