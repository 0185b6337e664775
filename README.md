# mongoose-findorcreate, modelled in Dafny

The plugin adds a static `findOrCreate(query, additionalFields?, contextOptions?, callback?)`
to a mongoose model. The call looks a document up by the raw query. When none matches, it
creates one seeded from the query with its operator keys stripped (`sanitizeMongoKeys`). When
the options allow, it merges the additional fields into the document, appending to array
fields when `appendToArray` is on. It saves the document when it is new or the merge changed
it. It reports `(doc, wasUpdated, isNew)` to the caller's callback or, when there is no
callback, through a returned promise. With the `status` option set, that promise resolves to
`{result, wasUpdated, isNew}` instead of the bare document.

Modules, one file each:

- `JsValues` (values.dfy): JavaScript values (undefined, null, booleans, integers, strings,
  functions, Dates, plain objects, arrays, other objects). Also `typeof`, truthiness,
  `isObject`, property reads, and the keys `for...in` and `Object.assign` walk. An array
  walks its decimal index keys.
- `Sanitizer` (sanitizer.dfy): `sanitizeMongoKeys` twice. `Sanitize` is the function that
  specifies it. `SanitizeLoop` is the loop as written, proved equal to it. `Vacuous` is an
  independent description of which values the recursion empties.
- `CallOptions` (calloptions.dfy): the call-shape rule and the option merge
  `Object.assign({}, defaultOptions, modelOptions, contextOptions)`.
- `Documents` (documents.dfy): the document as a class. It holds a field map, the dirty flag
  behind `isModified()`, and the recorded `save` calls. The module also has the value-level
  merge rules.
- `FindOrCreate` (findorcreate.dfy): the completion adapter (`Settle`, `Deliver`). It holds
  `Handle`, the value-level specification of the lookup continuation. It also holds the
  imperative `MergeInto` loop, the continuation `OnFound`, and the whole call
  `FindOrCreate`. The outcome of `findOne` is an input of the call.

Behaviour the model keeps from the code, some of it surprising:

- Additional fields, `saveIfFound`, `status`, the callback and the error are tested for
  JavaScript truthiness. An empty `{}` of additional fields is truthy and does not take the
  early return of line 125.
- A lookup that rejects with a falsy reason, such as `undefined`, is treated as a success by
  the synthesized callback. The promise then resolves with `null`. A caller might expect every
  lookup failure to reject the promise.
- Arrays are walked by `for...in` and come out of the sanitizer as plain objects. So a query
  key whose value is `[]`, or an array of operator-only objects, is dropped.
- A key the sanitizer keeps maps to its original value, nested operators included. Only the
  keep/drop decision is recursive.
- When the second and third arguments are both functions, the third becomes the callback.
- `concat` spreads an array argument and appends any other value as one element.

Assumptions about mongoose, which is not part of this model:

- `doc.set(path, v)` raises the dirty flag exactly when `v` differs from the current value.
- A new document starts clean, and its fields are those of the plain object it is built from, each key one flat field (see `MergeFields` under "## Left out" for dotted keys).
- `save` is recorded with the `saveOptions` it was given, and it settles successfully.

## Model

| member | source | states |
|---|---|---|
| JsValues.IndexKey | lib/findorcreate.js:70 | the property name of an array index is non-empty and starts with a digit, so it never starts with `$` |
| JsValues.IndexProps | lib/findorcreate.js:70 | the index properties `for...in` walks on an array hold elements of that array, have names that start with a digit, and are empty exactly for the empty array |
| JsValues.EnumerableSmaller | lib/findorcreate.js:70-73 | every property value `for...in` reaches is a proper part of the value walked, so over finite, acyclic values the sanitizer's recursion terminates |
| Sanitizer.SanitizeShape | lib/findorcreate.js:66-80 | Dates, null and non-objects come back unchanged; anything else becomes a plain object whose keys are a subset of the input's, with no `$` key, each mapped to its original value |
| Sanitizer.SanitizeLoop | lib/findorcreate.js:65-81 | the `for...in` loop that fills a fresh `cleanQuery`, with its recursive calls, computes exactly `Sanitize`, whatever order it takes the keys in |
| Sanitizer.EmptyIffVacuous | lib/findorcreate.js:73-75 | the recursion returns an empty plain object exactly for a vacuous value: a non-leaf whose keys are all operators or hold vacuous values |
| Sanitizer.KeptIff | lib/findorcreate.js:71-77 | a key survives if and only if it is not `$`-prefixed and its value is not vacuous, and it keeps its original value |
| Sanitizer.Idempotent | lib/findorcreate.js:65-81 | sanitizing the sanitizer's output again returns it unchanged |
| Sanitizer.OperatorsStripped | lib/findorcreate.js:71-75 | `{name: v, $or: w, nested: {$gt: x}}` sanitizes to `{name: v}` |
| Sanitizer.EmptyArrayDropped | lib/findorcreate.js:66-75 | a key holding `[]` is dropped |
| Sanitizer.OperatorArrayEmptied | lib/findorcreate.js:66-75 | an array, of any length, whose elements are all plain objects with only `$` keys sanitizes to `{}` |
| Sanitizer.OperatorArrayDropped | lib/findorcreate.js:66-75 | a key holding an array, of any length, whose elements are all plain objects with only `$` keys is dropped |
| Sanitizer.LeafArrayKept | lib/findorcreate.js:66-77 | a non-empty array of leaves (non-objects, Dates, `null`) does not sanitize to `{}` |
| Sanitizer.ValueArrayKept | lib/findorcreate.js:66-77 | a non-operator key holding a non-empty array of leaves, of any length, is kept with the array itself |
| Sanitizer.NestedOperatorKept | lib/findorcreate.js:73-77 | a kept key keeps nested operator keys in its original value |
| CallOptions.ResolveCallShape | lib/findorcreate.js:90-100 | after resolution neither named slot holds a function; a function in the 2nd slot clears `additionalFields`, one in the 3rd clears `contextOptions`; the callback is the 3rd-slot function, else the 2nd-slot function, else the 4th argument |
| CallOptions.CallForms | lib/findorcreate.js:90-100 | the forms `(query, cb)`, `(query, fields, cb)` and `(query, fields, options, cb)` resolve to their named meanings |
| CallOptions.MergeOptions | lib/findorcreate.js:102 | each option comes from the call-site options, else the model options, else the defaults, and no other keys appear |
| CallOptions.DefaultBehaviour | lib/findorcreate.js:39-58 | with no options, append mode, `saveIfFound` and `status` are falsy and `saveOptions` is `{}` |
| Documents.Concat | lib/findorcreate.js:135 | `concat` keeps the old elements first, then spreads an array argument or appends any other value |
| Documents.MergeFields | lib/findorcreate.js:132-141 | every named field gets the supplied value, or the old array extended by it in append mode; fields not named are untouched; no other keys appear |
| Documents.ChangesIffVisible | lib/findorcreate.js:139 | the merge raises the dirty flag exactly when some field reads differently afterwards |
| Documents.ArrayAppendExample | lib/findorcreate.js:134-139 | with append mode `[1,2]` merged with `[3]` becomes `[1,2,3]`; without it, `[3]`; an unnamed field keeps its value |
| Documents.OverwriteOne | lib/findorcreate.js:139 | in overwrite mode, merging one field is setting it |
| Documents.MergeNewField | lib/findorcreate.js:134-139 | merging a field the document lacks sets it in either mode and raises the dirty flag, unless the value is `undefined` |
| Documents.OverwriteIdempotent | lib/findorcreate.js:139 | merging the same fields again in overwrite mode changes nothing and raises no dirty flag |
| Documents.Doc.constructor | lib/findorcreate.js:128 | a document built from the sanitized query holds its properties, is clean and has never been saved |
| Documents.Doc.Set | lib/findorcreate.js:135-139 | `set` writes the field and raises the dirty flag iff the value differs, under the stated assumption about mongoose |
| Documents.Doc.Save | lib/findorcreate.js:145 | `save` is recorded with its options and leaves the fields alone |
| FindOrCreate.DualModeAgree | lib/findorcreate.js:105-121 | callback callers and promise callers with `status` observe the same error or `(result, wasUpdated, isNew)`; without `status` the promise carries only the document |
| FindOrCreate.FindFailureRejects | lib/findorcreate.js:108-109 | a truthy lookup error rejects the promise with that same error |
| FindOrCreate.FalsyRejectionResolves | lib/findorcreate.js:108-118 | a falsy lookup rejection resolves the promise with `null`, or with the envelope around it |
| FindOrCreate.FoundSavedOnlyWhenChanged | lib/findorcreate.js:125-143 | a found document is saved iff fields were supplied, `saveIfFound` is on and the merge left it modified; it is never new and is updated iff saved; without fields or `saveIfFound` it is returned untouched |
| FindOrCreate.NotFoundCreates | lib/findorcreate.js:127-145 | with no match, the document is the sanitized query merged with the fields; it is always saved and reported new and updated |
| FindOrCreate.SavedOnlyIfNewOrModified | lib/findorcreate.js:127-145 | `isNew` is "nothing matched", `wasUpdated` is "saved", and a save happens only for a new or modified document |
| FindOrCreate.RepeatedUpsertWritesOnce | lib/findorcreate.js:130-143 | repeating an overwrite-mode upsert on the stored document does not save again and leaves its fields as they were |
| FindOrCreate.SeedKeepsPlainFields | lib/findorcreate.js:128 | a query of plain, non-operator fields seeds a document with exactly those fields |
| FindOrCreate.CreateScenario | lib/findorcreate.js:123-145 | no match for `{email: a}` with fields `{name: n}` creates `{email: a, name: n}`, saved, new and updated, under any options |
| FindOrCreate.MergeInto | lib/findorcreate.js:132-141 | the merge loop leaves the document in the state `Merge` specifies, whatever the key order, and saves nothing |
| FindOrCreate.MergeStep | lib/findorcreate.js:133-140 | one more iteration of the merge loop changes exactly the field it sets |
| FindOrCreate.ChangesStep | lib/findorcreate.js:133-140 | one more iteration raises the dirty flag exactly when its field's value differs |
| FindOrCreate.OnFound | lib/findorcreate.js:124-146 | the continuation reports the found or a fresh document, in the state `Handle` gives, with `Handle`'s flags, and records exactly the one save `Handle` calls for |
| FindOrCreate.FindOrCreate | lib/findorcreate.js:84-151 | the whole call: call shape and option merge, the error triple `(err, null, false, false)` on a failed lookup, the continuation on success, and delivery to the callback or the promise |

## Left out

- Promise construction and sequencing (lines 8-37, the `.then`/`.catch` chain) are not modelled as promises. `Deferred`'s freezing is left out too. Completion is a returned `Delivery` value.
- A rejected `save` is not modelled. Line 145 has no rejection handler and does not return the save promise to the outer chain. When a save fails, the callback is never called and the promise never settles, and Node reports an unhandled rejection. The model assumes every save succeeds.
- Exceptions thrown inside the continuation are not modelled: by `new this(...)`, by a `set` that casts, or by the caller's own callback. Up to line 143 the `.catch` at line 147 turns such a throw into a completion with the error. If the user's callback throws when it is called at line 125, 130 or 143, it is then called a second time. The call at line 145 runs inside the `save` promise, which is not returned to the outer chain. A throw there is an unhandled rejection, and the callback has been called once. Every creation takes that path.
- The collaborators are abstracted. `schema.statics` registration is left out, and the options the plugin was registered with are a parameter. `findOne` is an input. Document construction, `set`, `isModified` and `save` are the `Doc` class, under the assumptions listed above. Schema casting, strict mode and the dirty-flag reset after a save are not modelled.
- JavaScript prototype identity is replaced by the value's constructor: `isObject` holds exactly for plain objects. Inherited enumerable properties are not modelled. Key enumeration order is not modelled either: maps are unordered, and the loops take keys in any order.
- A string passed where an object is expected is not walked by index. JavaScript would walk it that way as additional fields or as options.
- Sanitize: an own `"__proto__"` key, as `JSON.parse` produces, is treated as an ordinary key. In JavaScript the assignment at line 77 calls the prototype setter instead, so the key never becomes an own property of the clean query. For example, `{x: {"__proto__": 5}}` drops `x` in the source but keeps it in the model.
- MergeOptions: an own `"__proto__"` key of the registered or call-site options is copied as an ordinary key. `Object.assign` at line 102 calls the prototype setter instead, so that key's properties become inherited options. For example, `{"__proto__": {status: true}}` turns the `{result, wasUpdated, isNew}` envelope on in the source but not in the model.
- MergeFields: field names are flat keys. Mongoose treats a dotted name such as `"p.t"` as a nested path: `set("p.t", v)` writes `p.t`, and the document has no property named `"p.t"`. So at line 134 `doc["p.t"]` reads `undefined`, and the source never appends to a dotted path; line 139 always overwrites it. The model appends when the flat key holds an array. A dotted query key seeding a new document is likewise nested by mongoose and flat in the model.
- Values are finite trees. A cyclic query (`q.self = q`) makes the recursion at line 73 go on until the stack overflows with a `RangeError`, which the model cannot express.
- Numbers are integers. Floating point, `NaN` and `-0` are left out.
- A truthy callback that is not a function is not modelled. Calling it would throw.
- Two concurrent calls can both miss and both create, because the lookup and the write are not atomic. This is concurrency, not logic in this file.
