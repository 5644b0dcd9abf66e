/** `transactionWrite` (src/operations/transact_write.ts:40-98): validate the
    size of the request list, turn each request into one write item of a
    DynamoDB `TransactWriteItems` call, and submit the batch.

    `createReplaceByIdRequest` and `createDeleteByIdRequest` are parameters
    (`buildPut`, `buildDelete`): the model says nothing about the items they
    build, only that they are called with the request's own fields and that
    an exception they throw escapes. The store call is a parameter too. */
module TransactWrite {

  import opened Wrappers
  import opened JsValues
  import opened TransactRequests
  import opened ArrayMap

  /** The most items a DynamoDB `TransactWriteItems` call accepts. */
  const MaxTransactItems := 25

  const EmptyBatchMessage := "At least one request should be provided"
  const OversizeBatchMessage := "No more than 25 requests can be specified to transactionWrite"

  /** How `transactionWrite` can reject: its own size check throws
      `InvalidFindDescriptorException`; anything a builder throws passes
      through unchanged. */
  datatype TransactError<+E> =
    | InvalidFindDescriptor(message: string)
    | BuilderThrew(cause: E)

  /** One slot of `TransactItems`. `UndefinedSlot` is the `undefined` the map callback
      yields for a request that is neither a replace nor a delete. */
  datatype Item<+P, +D> = Put(putItem: P) | Delete(deleteItem: D) | UndefinedSlot

  /** The `putItemInput` of `const { request: putItemInput } =
      createReplaceByIdRequest(context, collectionName, value, options)`,
      with the context closed over: the `request` field of the builder's
      result, or the exception thrown on the way, including the TypeError
      of destructuring a null or undefined result. */
  type PutBuilder<!P, !E> = (string, JsValue, JsValue) -> Result<P, E>

  /** `createDeleteByIdRequest(context, collectionName, id, options)`, with
      the context closed over: the builder's result itself, or the exception
      it throws. */
  type DeleteBuilder<!D, !E> = (string, JsValue, JsValue) -> Result<D, E>

  /** The `options` a destructuring `const { options } = request` yields:
      `undefined` when the field is absent, so the builders cannot tell an
      absent field from one that holds `undefined`. */
  function OptionsArg(req: WriteRequest): JsValue
  {
    if req.options.Some? then req.options.value else Undefined
  }

  /** A list the store will take: present, and 1 to 25 entries long. */
  predicate WellSized(requests: Option<seq<WriteRequest>>)
  {
    requests.Some? && 1 <= |requests.value| <= MaxTransactItems
  }

  /** The guard at the top of `transactionWrite`: the list to map, or the
      message of the `InvalidFindDescriptorException` it throws. */
  function ValidateBatch(requests: Option<seq<WriteRequest>>): (r: Result<seq<WriteRequest>, string>)
    ensures r.Success? <==> WellSized(requests)
    ensures r.Success? ==> r.value == requests.value
    ensures requests.None? || |requests.value| == 0 ==> r == Failure(EmptyBatchMessage)
    ensures requests.Some? && |requests.value| > MaxTransactItems ==> r == Failure(OversizeBatchMessage)
  {
    if requests.None? || |requests.value| == 0 then
      Failure(EmptyBatchMessage)
    else if |requests.value| > MaxTransactItems then
      Failure(OversizeBatchMessage)
    else
      Success(requests.value)
  }

  /** The map callback: the item for one request, or the exception its
      builder threw. */
  function ItemFor<P, D, E>(req: WriteRequest, buildPut: PutBuilder<P, E>, buildDelete: DeleteBuilder<D, E>): Result<Item<P, D>, E>
  {
    if IsReplaceRequest(req) then
      match buildPut(req.collectionName, req.value.value, OptionsArg(req))
      case Success(p) => Success(Put(p))
      case Failure(e) => Failure(e)
    else if IsDeleteRequest(req) then
      match buildDelete(req.collectionName, req.id.value, OptionsArg(req))
      case Success(d) => Success(Delete(d))
      case Failure(e) => Failure(e)
    else
      Success(UndefinedSlot)
  }

  /** `item` is the write item that request `req` stands for. */
  ghost predicate Derived<P, D, E>(req: WriteRequest, item: Item<P, D>, buildPut: PutBuilder<P, E>, buildDelete: DeleteBuilder<D, E>)
  {
    match item
    case Put(p) =>
      && Classify(req) == AsReplace
      && buildPut(req.collectionName, req.value.value, OptionsArg(req)) == Success(p)
    case Delete(d) =>
      && Classify(req) == AsDelete
      && buildDelete(req.collectionName, req.id.value, OptionsArg(req)) == Success(d)
    case UndefinedSlot =>
      Classify(req) == FallsThrough
  }

  /** The builder that request `req` selects throws `e`. */
  ghost predicate Throws<P, D, E>(req: WriteRequest, e: E, buildPut: PutBuilder<P, E>, buildDelete: DeleteBuilder<D, E>)
  {
    || (Classify(req) == AsReplace && buildPut(req.collectionName, req.value.value, OptionsArg(req)) == Failure(e))
    || (Classify(req) == AsDelete && buildDelete(req.collectionName, req.id.value, OptionsArg(req)) == Failure(e))
  }

  /** The callback as a value, so that every use names the same function. */
  function Callback<P, D, E>(buildPut: PutBuilder<P, E>, buildDelete: DeleteBuilder<D, E>): WriteRequest -> Result<Item<P, D>, E>
  {
    req => ItemFor(req, buildPut, buildDelete)
  }

  /** `transactionWriteRequests.map(callback)`. */
  function BuildItems<P, D, E>(reqs: seq<WriteRequest>, buildPut: PutBuilder<P, E>, buildDelete: DeleteBuilder<D, E>): Result<seq<Item<P, D>>, E>
  {
    MapOrThrow(reqs, Callback(buildPut, buildDelete))
  }

  /** The callback agrees with `Derived` and `Throws`, in both directions. */
  lemma ItemForMeaning<P, D, E>(req: WriteRequest, buildPut: PutBuilder<P, E>, buildDelete: DeleteBuilder<D, E>)
    ensures forall item :: ItemFor(req, buildPut, buildDelete) == Success(item) <==> Derived(req, item, buildPut, buildDelete)
    ensures forall e :: ItemFor(req, buildPut, buildDelete) == Failure(e) <==> Throws(req, e, buildPut, buildDelete)
  {
  }

  /** What the mapped list means: it succeeds exactly when no selected
      builder throws, and then slot `i` is the item request `i` stands for;
      otherwise the exception is the one thrown for the first request whose
      builder throws. */
  lemma BuildItemsMeaning<P, D, E>(reqs: seq<WriteRequest>, buildPut: PutBuilder<P, E>, buildDelete: DeleteBuilder<D, E>)
    ensures BuildItems(reqs, buildPut, buildDelete).Success? <==>
      forall i, e :: 0 <= i < |reqs| ==> !Throws(reqs[i], e, buildPut, buildDelete)
    ensures BuildItems(reqs, buildPut, buildDelete).Success? ==>
      var items := BuildItems(reqs, buildPut, buildDelete).value;
      && |items| == |reqs|
      && forall i :: 0 <= i < |reqs| ==> Derived(reqs[i], items[i], buildPut, buildDelete)
    ensures BuildItems(reqs, buildPut, buildDelete).Failure? ==>
      var e := BuildItems(reqs, buildPut, buildDelete).error;
      exists k :: 0 <= k < |reqs| && Throws(reqs[k], e, buildPut, buildDelete) &&
        forall j, e' :: 0 <= j < k ==> !Throws(reqs[j], e', buildPut, buildDelete)
  {
    var f := Callback(buildPut, buildDelete);
    forall i | 0 <= i < |reqs| {
      ItemForMeaning(reqs[i], buildPut, buildDelete);
    }
    var r := BuildItems(reqs, buildPut, buildDelete);
    if r.Success? {
      forall i, e | 0 <= i < |reqs|
        ensures !Throws(reqs[i], e, buildPut, buildDelete)
      {
        assert f(reqs[i]).Success?;
      }
    } else {
      var k :| FirstThrow(reqs, f, k) && f(reqs[k]) == Failure(r.error);
      forall j, e' | 0 <= j < k
        ensures !Throws(reqs[j], e', buildPut, buildDelete)
      {
        assert f(reqs[j]).Success?;
      }
      assert Throws(reqs[k], r.error, buildPut, buildDelete);
    }
  }

  /** A replace is built by `buildPut` from that request's own collection
      name, value and options; `buildDelete` is never consulted, so a
      request that also carries a truthy `id` is still a `Put`. */
  lemma ReplaceBecomesPut<P, D, E>(req: WriteRequest, buildPut: PutBuilder<P, E>, buildDelete: DeleteBuilder<D, E>, otherDelete: DeleteBuilder<D, E>)
    requires IsReplaceRequest(req)
    ensures ItemFor(req, buildPut, buildDelete) ==
      match buildPut(req.collectionName, req.value.value, OptionsArg(req))
      case Success(p) => Success(Put(p))
      case Failure(e) => Failure(e)
    ensures ItemFor(req, buildPut, buildDelete) == ItemFor(req, buildPut, otherDelete)
    ensures ItemFor(req, buildPut, buildDelete).Success? ==> ItemFor(req, buildPut, buildDelete).value.Put?
  {
  }

  /** A request without a truthy `value` but with a truthy `id` is built by
      `buildDelete` from its own collection name, id and options;
      `buildPut` is never consulted. */
  lemma DeleteBecomesDelete<P, D, E>(req: WriteRequest, buildPut: PutBuilder<P, E>, buildDelete: DeleteBuilder<D, E>, otherPut: PutBuilder<P, E>)
    requires !IsReplaceRequest(req) && IsDeleteRequest(req)
    ensures ItemFor(req, buildPut, buildDelete) ==
      match buildDelete(req.collectionName, req.id.value, OptionsArg(req))
      case Success(d) => Success(Delete(d))
      case Failure(e) => Failure(e)
    ensures ItemFor(req, buildPut, buildDelete) == ItemFor(req, otherPut, buildDelete)
  {
  }

  /** A request with neither a truthy `value` nor a truthy `id` raises
      nothing: its slot is `undefined`, whatever the builders would do. */
  lemma FallThroughIsUndefined<P, D, E>(req: WriteRequest, buildPut: PutBuilder<P, E>, buildDelete: DeleteBuilder<D, E>)
    requires !IsReplaceRequest(req) && !IsDeleteRequest(req)
    ensures ItemFor(req, buildPut, buildDelete) == Success(UndefinedSlot)
  {
  }

  /** Leaving `options` out and passing `options: undefined` build the
      same item, for every pair of builders. */
  lemma AbsentOptionsLikeUndefined<P, D, E>(req: WriteRequest, buildPut: PutBuilder<P, E>, buildDelete: DeleteBuilder<D, E>)
    ensures ItemFor(req.(options := None), buildPut, buildDelete) == ItemFor(req.(options := Some(Undefined)), buildPut, buildDelete)
  {
  }

  /** Slot `i` of the built list depends on request `i` alone: two lists
      that agree at position `i` build the same item there. */
  lemma SlotDependsOnlyOnItsRequest<P, D, E>(a: seq<WriteRequest>, b: seq<WriteRequest>, i: int, buildPut: PutBuilder<P, E>, buildDelete: DeleteBuilder<D, E>)
    requires BuildItems(a, buildPut, buildDelete).Success? && BuildItems(b, buildPut, buildDelete).Success?
    requires 0 <= i < |a| && i < |b| && a[i] == b[i]
    ensures BuildItems(a, buildPut, buildDelete).value[i] == BuildItems(b, buildPut, buildDelete).value[i]
  {
  }

  /** Building a list split in two is building each half: the first half's
      exception wins, otherwise the second half's, otherwise the two halves'
      items in order. */
  lemma BuildItemsConcat<P, D, E>(a: seq<WriteRequest>, b: seq<WriteRequest>, buildPut: PutBuilder<P, E>, buildDelete: DeleteBuilder<D, E>)
    ensures BuildItems(a + b, buildPut, buildDelete) ==
      match BuildItems(a, buildPut, buildDelete)
      case Failure(e) => Failure(e)
      case Success(ia) =>
        match BuildItems(b, buildPut, buildDelete)
        case Failure(e) => Failure(e)
        case Success(ib) => Success(ia + ib)
  {
    MapConcat(a, b, Callback(buildPut, buildDelete));
  }

  /** `transactionWrite(context, transactionWriteRequests)`.

      `send` stands for the whole body of the `try` block: serialising the
      request for the two log lines, constructing the
      `TransactWriteItemsCommand` and awaiting `context.ddb.send`. It
      receives the built items and settles with a response or with whatever
      any of those steps threw. `outcome` is how the returned promise
      settles, `sent` the items handed to that block (if any) and `reply`
      how the block ended; a throw there may mean the store was never
      reached. A list that
      fails validation, or whose building throws, never reaches the store;
      once the store has been called the promise resolves, even when the
      store rejects the batch. */
  method TransactionWrite<P, D, E, R, X>(
    requests: Option<seq<WriteRequest>>,
    buildPut: PutBuilder<P, E>,
    buildDelete: DeleteBuilder<D, E>,
    send: seq<Item<P, D>> -> Result<R, X>)
    returns (outcome: Outcome<TransactError<E>>, sent: Option<seq<Item<P, D>>>, reply: Option<Result<R, X>>)
    ensures requests.None? || |requests.value| == 0 ==>
      outcome == Fail(InvalidFindDescriptor(EmptyBatchMessage)) && sent == None && reply == None
    ensures requests.Some? && |requests.value| > MaxTransactItems ==>
      outcome == Fail(InvalidFindDescriptor(OversizeBatchMessage)) && sent == None && reply == None
    ensures WellSized(requests) ==>
      match BuildItems(requests.value, buildPut, buildDelete)
      case Failure(e) => outcome == Fail(BuilderThrew(e)) && sent == None && reply == None
      case Success(items) => outcome == Pass && sent == Some(items) && reply == Some(send(items))
  {
    var checked := ValidateBatch(requests);
    if checked.Failure? {
      return Fail(InvalidFindDescriptor(checked.error)), None, None;
    }
    var reqs := checked.value;
    ghost var f := Callback(buildPut, buildDelete);
    var items: seq<Item<P, D>> := [];
    var i := 0;
    while i < |reqs|
      invariant 0 <= i <= |reqs|
      invariant |items| == i
      invariant forall j :: 0 <= j < i ==> f(reqs[j]) == Success(items[j])
    {
      var item := ItemFor(reqs[i], buildPut, buildDelete);
      if item.Failure? {
        assert FirstThrow(reqs, f, i);
        ghost var k :| FirstThrow(reqs, f, k) && f(reqs[k]) == Failure(BuildItems(reqs, buildPut, buildDelete).error);
        FirstThrowUnique(reqs, f, k, i);
        return Fail(BuilderThrew(item.error)), None, None;
      }
      items := items + [item.value];
      i := i + 1;
    }
    assert BuildItems(reqs, buildPut, buildDelete).value == items;
    var response := send(items);
    return Pass, Some(items), Some(response);
  }

  /** The mixed batch of src/operations/transact_write.test.ts:185-209: an
      insertion guarded by `{_id: {$exists: false}}`, an unguarded
      overwrite, and a deletion by id. When the builders accept those
      requests the batch is three items in request order: two puts and a
      delete, each from its own request's fields. */
  lemma MixedTestBatch<P, D, E>(buildPut: PutBuilder<P, E>, buildDelete: DeleteBuilder<D, E>)
    requires
      var b := MixedTestRequests();
      && buildPut(b[0].collectionName, b[0].value.value, OptionsArg(b[0])).Success?
      && buildPut(b[1].collectionName, b[1].value.value, OptionsArg(b[1])).Success?
      && buildDelete(b[2].collectionName, b[2].id.value, OptionsArg(b[2])).Success?
    ensures
      var b := MixedTestRequests();
      var r := BuildItems(b, buildPut, buildDelete);
      && r.Success?
      && r.value == [
        Put(buildPut("users", b[0].value.value, OptionsArg(b[0])).value),
        Put(buildPut("users", b[1].value.value, Undefined).value),
        Delete(buildDelete("users", Str("test-id"), Undefined).value)]
  {
  }

  /** The three requests of that batch, against the `users` collection. */
  function MixedTestRequests(): seq<WriteRequest>
  {
    var insertGuard := Obj(map["condition" := Obj(map["_id" := Obj(map["$exists" := Bool(false)])])]);
    [ ReplaceRequest("users",
        map["_id" := Str("test-jw"), "lastName" := Str("Watson"), "firstName" := Str("John"), "email" := Str("jw@sh.sh")],
        Some(insertGuard)),
      ReplaceRequest("users",
        map["_id" := Str("test-sh"), "lastName" := Str("Holmes"), "firstName" := Str("Sherlock"), "email" := Str("sh@sh.sh")],
        None),
      DeleteRequest("users", "test-id", None) ]
  }
}
