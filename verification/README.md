# transactionWrite: a Dafny model

This project models the transactional write batch builder of the dynaglue
single-table layer for DynamoDB: `transactionWrite` in
`src/operations/transact_write.ts`. The builder takes a list of write requests,
each either a replace (`{collectionName, value, options?}`) or a delete
(`{collectionName, id, options?}`). It does three things before it calls the
store:

1. It rejects a missing or empty list, and a list of more than 25 entries (the
   `TransactWriteItems` limit), with `InvalidFindDescriptorException`.
2. It sorts each entry by field presence and truthiness. A truthy `value`
   makes a replace, even when a truthy `id` is also there. Otherwise a truthy
   `id` makes a delete. Otherwise the entry matches neither guard.
3. It maps the list, in order, to `Put` / `Delete` write items. The item
   builders `createReplaceByIdRequest` and `createDeleteByIdRequest` make those
   items. An entry that matches neither guard leaves an `undefined` slot and
   raises nothing.

It then logs and sends the batch inside a `try` block. Any error thrown there,
the store's included, is caught and logged, so the returned promise resolves
either way.

Files:

- `wrappers.dfy`: `Option`, `Result` and `Outcome`.
- `js_value.dfy`: JavaScript values and ToBoolean (section 7.1.2 of ECMA-262),
  which is what `!!x` computes.
- `array_map.dfy`: `Array.prototype.map` with a callback that may throw. The
  first exception, in index order, escapes.
- `transact_requests.dfy`: the request record, the two guards and the
  classification.
- `transact_write.dfy`: validation, the map callback, the built list, and the
  `TransactionWrite` method.

The two item builders are function-valued parameters, with the context
closed over. Each takes the collection name, the value or id, and the
`options` that destructuring the request yields (`undefined` when the field is
absent). The put builder stands for the `request` field of
`createReplaceByIdRequest`'s result (src/operations/transact_write.ts:57),
the delete builder for `createDeleteByIdRequest`'s result itself (line 70).
Each returns that value or the exception thrown on the way. The model does not
say what items they build. The body of the `try` block (lines 83-94) is a
parameter `send`: logging serialisation, command construction and the store
call, as one step that settles with a response or an error.

Three consequences of the code are stated plainly by the model:

- An empty, missing or oversized batch raises `InvalidFindDescriptorException`
  (src/operations/transact_write.ts:44-52), the only exception the module
  imports (line 8).
- Requests carry no tag. Field presence and truthiness sort them (lines 30-38),
  so `id: ""` sorts as neither kind.
- Every error thrown inside the `try` block, including a store abort, is
  caught and logged (lines 82-97); the returned promise resolves.

## Model

The functions that model the source carry no contract of their own; the lemmas below state what they mean. `TransactRequests.IsReplaceRequest` and `TransactRequests.IsDeleteRequest` are the guards at src/operations/transact_write.ts:30-38; `TransactWrite.ItemFor` is the map callback at lines 54-79; `TransactWrite.BuildItems` is the `map` call at lines 53-80; `TransactWrite.OptionsArg` is the destructuring of `options` at lines 56 and 68.

| member | source | states |
|---|---|---|
| `TransactRequests.ReplaceTakesPrecedence` | src/operations/transact_write.ts:55-67 | an entry with both a truthy `value` and a truthy `id` is classified as a replace |
| `TransactRequests.ClassifyReadsOnlyValueAndId` | src/operations/transact_write.ts:30-38 | the collection name and options never affect the classification |
| `TransactRequests.ReplaceShapeIsReplace` | src/operations/transact_write.ts:14-33 | any request of the declared replace shape is a replace, the empty record included, because objects are truthy |
| `TransactRequests.DeleteShapeNeedsNonEmptyId` | src/operations/transact_write.ts:20-38 | a request of the declared delete shape is a delete iff its id is non-empty; with `id: ""` it matches neither guard |
| `TransactWrite.ValidateBatch` | src/operations/transact_write.ts:44-52 | passes iff the list is present and holds 1 to 25 entries, returning it unchanged; a missing or empty list fails with the "At least one request" message, a longer one with the "No more than 25" message |
| `ArrayMap.MapOrThrow` | src/operations/transact_write.ts:53-80 | mapping succeeds iff the callback succeeds on every element; the result then has the input's length with slot i the callback's value on element i; otherwise the error is the one thrown on the first failing element |
| `ArrayMap.MapConcat` | src/operations/transact_write.ts:53-80 | mapping a concatenation equals mapping each half: the first half's exception wins, else the second's, else the two results concatenated |
| `TransactWrite.ItemForMeaning` | src/operations/transact_write.ts:54-79 | the callback yields an item iff the request stands for that item, and throws iff the builder its kind selects throws, in both directions |
| `TransactWrite.BuildItemsMeaning` | src/operations/transact_write.ts:53-80 | the built list exists iff no selected builder throws; it has the request list's length and slot i is the item request i stands for; otherwise its error is the first throwing request's |
| `TransactWrite.ReplaceBecomesPut` | src/operations/transact_write.ts:55-65 | a replace becomes `Put` of the put builder's result on its own collection name, value and options (or that builder's exception); the delete builder is never consulted |
| `TransactWrite.DeleteBecomesDelete` | src/operations/transact_write.ts:67-78 | a request without a truthy value but with a truthy id becomes `Delete` of the delete builder's result on its own collection name, id and options; the put builder is never consulted |
| `TransactWrite.FallThroughIsUndefined` | src/operations/transact_write.ts:53-80 | a request matching neither guard raises nothing and leaves an `undefined` slot, whatever the builders do |
| `TransactWrite.AbsentOptionsLikeUndefined` | src/operations/transact_write.ts:56-74 | a request without `options` and one with `options: undefined` build the same item, since destructuring hands the builders `undefined` in both cases |
| `TransactWrite.SlotDependsOnlyOnItsRequest` | src/operations/transact_write.ts:53-80 | two successfully built lists whose requests agree at position i hold the same item at position i |
| `TransactWrite.BuildItemsConcat` | src/operations/transact_write.ts:53-80 | building a split list equals building each part and concatenating, with the first part's exception taking precedence |
| `TransactWrite.TransactionWrite` | src/operations/transact_write.ts:40-98 | an invalid list is rejected with its size message and reaches neither builder nor the `try` block; a builder exception rejects with that exception before the `try` block; otherwise exactly the built items are handed to the `try` block (serialisation, command, send) and the call resolves however that block ends |
| `TransactWrite.MixedTestBatch` | src/operations/transact_write.test.ts:185-209 | the test's guarded insert, plain overwrite and delete build, in order, two `Put`s and a `Delete`, each from its own request |

## Left out

- Logging: the `debugDynamo` and `console` calls and the `JSON.stringify` of the request are not modelled separately. They sit inside the `try` block and are part of the parameter `send`, so they cannot change the outcome.
- The `try` block: the serialisation, `TransactWriteItemsCommand` and `context.ddb.send` are the single parameter `send`. The model has no network, no awaiting and no commit/abort semantics, and it does not say whether a throw inside the block came before or after the store call.
- Item builders: `createReplaceByIdRequest`, `createDeleteByIdRequest` and the key derivation and condition compilation behind them are not part of this model. They are parameters, and nothing is assumed about them beyond being functions of their arguments as the model represents them (see the next line).
- Item builders see the folded `JsValue`, not the source's object. Arrays, Sets, Dates, typed arrays, symbols and functions all become `Obj` of their own enumerable keys, `-0` and `0` are one number, and strings with a lone surrogate cannot be written. So source values that differ only in one of these ways (`["a"]` against `{"0": "a"}`, `{}` against `new Set()`) build the same item in the model, whereas `createReplaceByIdRequest` could tell them apart. `SlotDependsOnlyOnItsRequest` speaks of requests equal as modelled values.
- The `context` argument: it is closed over in the builder and `send` parameters.
- Array holes (`new Array(3)`, `[, req]`) are left out: the model's list has no holes. In the source such a list passes the size check, `map` skips each hole without calling the callback, and the hole reaches `TransactItems`.
- List entries that are not objects (`null`, a number) are left out. In the source, the `in` test would throw a `TypeError` on them. The model's entries are records with optional `value` and `id`.
- `collectionName` is always a string in the model. A missing one would reach the builders as `undefined`.
- The `in` operator also finds inherited properties. The model has no prototype chain.
- JavaScript numbers are modelled as reals plus `NaN`; `Infinity` and `-Infinity` have no value of their own. Both are truthy, as is every non-zero real, so classification is unaffected. Symbols and functions are folded into objects, since ToBoolean treats them alike.
- `transactFindByIds`: its source is not part of this model.
