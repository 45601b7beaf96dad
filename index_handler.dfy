/** index.js's `exports.handler`: the same dispatch as read.js, with a get that
    has no projection, a list operation that is one fixed `batchGet`, and a save
    that writes two fixed items whatever the body says. */
module IndexHandler {
  import opened Js
  import opened Inventory
  import opened Responses
  import opened Routing
  import opened BatchWrite
  import opened UpdateBuilder
  import opened DataStore
  import opened Lambda
  import Operations
  import ReadHandler

  function Handle(event: Event, store: Store): Reply {
    match Dispatch(event.httpMethod, event.path)
    case Health => Reply(Resolved(Some(BuildResponse(200, Undefined))), [])
    case GetProduct =>
      (match Member(event.queryStringParameters, "productId")
       case None => Reply(Rejected, [])
       case Some(productId) => Operations.GetProduct(productId, None, store))
    case GetProducts => Operations.BatchGetProducts(store)
    case SaveProduct =>
      (match event.parsedBody
       case None => Reply(Rejected, [])
       case Some(requestBody) => Operations.WriteBatch(ConstantSaveParams(requestBody), store))
    case ModifyProduct =>
      (match event.parsedBody
       case None => Reply(Rejected, [])
       case Some(requestBody) => Operations.ModifyProduct(requestBody, store))
    case DeleteProduct =>
      (match event.parsedBody
       case None => Reply(Rejected, [])
       case Some(requestBody) =>
         match Member(requestBody, "productId")
         case None => Reply(Rejected, [])
         case Some(productId) => Operations.DeleteProduct(productId, store))
    case NotFound => Reply(Resolved(Some(BuildResponse(404, Str("404 Not Found")))), [])
  }

  /** Dispatch is the same as read.js's, and so is every route whose operation the
      two files share: health, update, delete and the 404 default. */
  lemma AgreesWithRead(event: Event, store: Store)
    requires Dispatch(event.httpMethod, event.path) !in {GetProduct, GetProducts, SaveProduct}
    ensures Handle(event, store) == ReadHandler.Handle(event, store)
  {
  }

  /** Every (method, path) pair outside the six routes answers 404 with the body
      `'404 Not Found'` and touches no store. */
  lemma UnmatchedIsNotFound(event: Event, store: Store)
    requires (event.httpMethod, event.path) !in Table
    ensures Handle(event, store) == Reply(Resolved(Some(Response(404, JsonHeaders, Str("404 Not Found")))), [])
  {
    DispatchIsTableLookup(event.httpMethod, event.path);
  }

  /** `GET /product` gets by the query's `productId` with no projection and
      answers 200 with the answer's `Item`; a rejected get answers `undefined`, a
      `null` answer makes reading `Item` throw, and a missing query object rejects
      before any call. */
  lemma GetProductByQueryKey(event: Event, store: Store)
    requires event.httpMethod == "GET" && event.path == "/product"
    ensures var reply := Handle(event, store);
      match Member(event.queryStringParameters, "productId")
      case None => reply == Reply(Rejected, [])
      case Some(productId) =>
        var params := GetParams(ProductTable, map["productId" := productId], None);
        && reply.calls == [GetCall(params)]
        && (store.get(params).None? ==> reply.outcome == Resolved(None))
        && (store.get(params).Some? && !Nullish(store.get(params).value) ==>
              reply.outcome == Resolved(Some(BuildResponse(200, Get(store.get(params).value, "Item")))))
        && (store.get(params).Some? && Nullish(store.get(params).value) ==> reply.outcome == Rejected)
  {
  }

  /** `POST /product` ignores the body once it parses: it always writes the same two
      put requests, "100"/"table"/"9" and "101"/"chair"/"9", to the product table,
      and answers 200 with the store's answer, the batch write's rejection not being
      caught; a body that does not parse rejects before any store call. */
  lemma SaveIgnoresBody(event1: Event, event2: Event, store: Store)
    requires event1.httpMethod == event2.httpMethod == "POST" && event1.path == event2.path == "/product"
    requires event1.parsedBody.Some? && event2.parsedBody.Some?
    ensures Handle(event1, store) == Handle(event2, store)
    ensures var calls := Handle(event1, store).calls;
      && |calls| == 1 && calls[0].BatchWriteCall?
      && calls[0].batchWriteParams.requestItems.Keys == {ProductTable}
      && ItemsOf(calls[0].batchWriteParams.requestItems[ProductTable]) == [Table100, Chair101]
    ensures var params := ConstantSaveParams(event1.parsedBody.value);
      && Handle(event1, store).calls == [BatchWriteCall(params)]
      && Handle(event1, store).outcome == match store.batchWrite(params)
           case None => Rejected
           case Some(demo) => Resolved(Some(BuildResponse(200, demo)))
    ensures Handle(event1.(parsedBody := None), store) == Reply(Rejected, [])
  {
    ConstantSaveIgnoresBody(event1.parsedBody.value, event2.parsedBody.value);
  }

  /** `GET /products` makes one `batchGet` and nothing else; its rejection is not
      caught, and its answer is the body. */
  lemma ListIsOneBatchGet(event: Event, store: Store)
    requires event.httpMethod == "GET" && event.path == "/products"
    ensures Handle(event, store).calls == [BatchGetCall]
    ensures store.batchGet.None? ==> Handle(event, store).outcome == Rejected
    ensures store.batchGet.Some? ==> Handle(event, store).outcome == Resolved(Some(BuildResponse(200, store.batchGet.value)))
  {
  }

  /** `PATCH /product` sends the update built from the body, keyed by `productId`
      alone, with the same expression and bound values as read.js. */
  lemma PatchSendsBuiltUpdate(event: Event, store: Store)
    requires event.httpMethod == "PATCH" && event.path == "/product"
    requires event.parsedBody.Some? && !Nullish(event.parsedBody.value)
    ensures var reply, params := Handle(event, store), UpdateParamsOf(event.parsedBody.value).value;
      && reply.calls == [UpdateCall(params)]
      && params.key.Keys == {"productId"}
      && (store.update(params).None? ==> reply.outcome == Resolved(None))
      && (store.update(params).Some? ==>
            reply.outcome == Resolved(Some(BuildResponse(200, UpdateBody(store.update(params).value)))))
  {
  }

  /** A successful `DELETE /product` answers 200 with
      `{Operation: 'DELETE', Message: 'SUCCESS', Item: <store answer>}`, having
      deleted by a key that holds `productId` alone. */
  lemma DeleteAnswersWithOldItem(event: Event, store: Store)
    requires event.httpMethod == "DELETE" && event.path == "/product"
    requires event.parsedBody.Some? && !Nullish(event.parsedBody.value)
    ensures var reply, params := Handle(event, store), Handle(event, store).calls[0].deleteParams;
      && |reply.calls| == 1 && reply.calls[0].DeleteCall?
      && params.key == map["productId" := Get(event.parsedBody.value, "productId")]
      && params.returnValues == "ALL_OLD"
      && (store.delete(params).Some? ==>
            var response := reply.outcome.response.value;
            && response.statusCode == 200 && response.headers == JsonHeaders
            && Member(response.body, "Operation") == Some(Str("DELETE"))
            && Member(response.body, "Message") == Some(Str("SUCCESS"))
            && Member(response.body, "Item") == Some(store.delete(params).value))
  {
  }
}
