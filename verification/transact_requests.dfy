/** The write requests accepted by `transactionWrite` and the two guards that
    sort them (src/operations/transact_write.ts:14-38).

    The source types the list as a union of a replace shape
    `{collectionName, value, options?}` and a delete shape
    `{collectionName, id, options?}`, but the union carries no tag: at run time
    an entry is whatever object the caller passed, and it is sorted only by
    which of `value` and `id` are present and truthy. The model therefore keeps
    one record with both fields optional. */
module TransactRequests {

  import opened Wrappers
  import opened JsValues

  /** One entry of the request list. `value` is the record to write, `id` the
      identifier to delete; `options` (holding an optional write condition) is
      passed through to the builders untouched. */
  datatype WriteRequest = WriteRequest(
    collectionName: string,
    value: Option<JsValue>,
    id: Option<JsValue>,
    options: Option<JsValue>)

  /** The replace shape as the caller's types write it: a record value, no `id`. */
  function ReplaceRequest(collectionName: string, value: map<string, JsValue>, options: Option<JsValue>): WriteRequest
  {
    WriteRequest(collectionName, Some(Obj(value)), None, options)
  }

  /** The delete shape as the caller's types write it: a string id, no `value`. */
  function DeleteRequest(collectionName: string, id: string, options: Option<JsValue>): WriteRequest
  {
    WriteRequest(collectionName, None, Some(Str(id)), options)
  }

  /** `isTransactionReplaceRequest`: `'value' in r && !!r.value`. */
  predicate IsReplaceRequest(r: WriteRequest)
  {
    PresentAndTruthy(r.value)
  }

  /** `isTransactionDeleteRequest`: `'id' in r && !!r.id`. */
  predicate IsDeleteRequest(r: WriteRequest)
  {
    PresentAndTruthy(r.id)
  }

  /** Which branch of the map callback an entry takes. */
  datatype Kind = AsReplace | AsDelete | FallsThrough

  /** The replace guard is checked first, the delete guard second, and an entry
      that passes neither falls out of the callback. */
  function Classify(r: WriteRequest): Kind
  {
    if IsReplaceRequest(r) then AsReplace
    else if IsDeleteRequest(r) then AsDelete
    else FallsThrough
  }

  /** An entry carrying both a truthy `value` and a truthy `id` is a replace. */
  lemma ReplaceTakesPrecedence(r: WriteRequest)
    requires IsReplaceRequest(r) && IsDeleteRequest(r)
    ensures Classify(r) == AsReplace
  {
  }

  /** Only `value` and `id` decide the branch: the collection name and the
      options never do. */
  lemma ClassifyReadsOnlyValueAndId(r: WriteRequest, collectionName: string, options: Option<JsValue>)
    ensures Classify(r.(collectionName := collectionName, options := options)) == Classify(r)
  {
  }

  /** Every record is an object, and every object is truthy, so a request of
      the replace shape is always a replace, even with an empty record. */
  lemma ReplaceShapeIsReplace(collectionName: string, value: map<string, JsValue>, options: Option<JsValue>)
    ensures Classify(ReplaceRequest(collectionName, value, options)) == AsReplace
  {
  }

  /** A request of the delete shape is a delete exactly when its id is not
      the empty string; with `id: ""` it passes neither guard. */
  lemma DeleteShapeNeedsNonEmptyId(collectionName: string, id: string, options: Option<JsValue>)
    ensures Classify(DeleteRequest(collectionName, id, options)) == AsDelete <==> id != ""
    ensures Classify(DeleteRequest(collectionName, id, options)) == FallsThrough <==> id == ""
  {
  }
}
