/** read.js's `exports.handler`: dispatch on method and path, run the chosen
    operation against the store, and settle with its response. */
module ReadHandler {
  import opened Js
  import opened Inventory
  import opened Responses
  import opened Routing
  import opened Scan
  import opened BatchWrite
  import opened UpdateBuilder
  import opened DataStore
  import opened Lambda
  import Operations

  function Handle(event: Event, store: Store): Reply {
    match Dispatch(event.httpMethod, event.path)
    case Health => Reply(Resolved(Some(BuildResponse(200, Undefined))), [])
    case GetProduct =>
      (match Member(event.queryStringParameters, "productId")
       case None => Reply(Rejected, [])
       case Some(productId) => Operations.GetProduct(productId, Some("product"), store))
    case GetProducts => Operations.ScanProducts(store)
    case SaveProduct =>
      (match event.parsedBody
       case None => Reply(Rejected, [])
       case Some(requestBody) => Operations.SaveProducts(requestBody, store))
    case ModifyProduct =>
      (match event.parsedBody
       case None => Reply(Rejected, [])
       case Some(requestBody) => Operations.ModifyProduct(requestBody, store))
    case DeleteProduct =>
      (match event.parsedBody
       case None => Reply(Rejected, [])
       case Some(requestBody) =>
         match Member(requestBody, "productId")
         case None => Reply(Rejected, [])
         case Some(productId) => Operations.DeleteProduct(productId, store))
    case NotFound => Reply(Resolved(Some(BuildResponse(404, Str("404 Not Found")))), [])
  }

  /** `GET /health` answers 200 with no body and touches no store. */
  lemma HealthWithoutStore(event: Event, store: Store)
    requires event.httpMethod == "GET" && event.path == "/health"
    ensures Handle(event, store) == Reply(Resolved(Some(Response(200, JsonHeaders, Undefined))), [])
  {
  }

  /** Every (method, path) pair outside the six routes answers 404 with the body
      `'404 Not Found'` and touches no store. */
  lemma UnmatchedIsNotFound(event: Event, store: Store)
    requires (event.httpMethod, event.path) !in Table
    ensures Handle(event, store) == Reply(Resolved(Some(Response(404, JsonHeaders, Str("404 Not Found")))), [])
  {
    DispatchIsTableLookup(event.httpMethod, event.path);
  }

  /** Whatever the event and the store's answers: every response carries exactly
      the JSON content-type header, its status is 404 exactly for the default case
      and 200 otherwise, at most one call is made except by the full scan, and
      every call goes to the product table. */
  lemma RepliesAreWellShaped(event: Event, store: Store)
    ensures var reply := Handle(event, store);
      && (reply.outcome.Resolved? && reply.outcome.response.Some? ==>
            var response := reply.outcome.response.value;
            && response.headers == JsonHeaders
            && (response.statusCode == 404 <==> Dispatch(event.httpMethod, event.path) == NotFound)
            && (response.statusCode == 200 <==> Dispatch(event.httpMethod, event.path) != NotFound))
      && (Dispatch(event.httpMethod, event.path) != GetProducts ==> |reply.calls| <= 1)
      && forall i :: 0 <= i < |reply.calls| ==> OnProductTable(reply.calls[i])
  {
    var route := Dispatch(event.httpMethod, event.path);
    if route == GetProducts {
      ScanRequestsOnTable(ProductTable, Undefined, store.scanPages);
    } else if route == SaveProduct {
      SaveOnProductTable(event, store);
    }
  }

  lemma SaveOnProductTable(event: Event, store: Store)
    requires Dispatch(event.httpMethod, event.path) == SaveProduct
    ensures forall i :: 0 <= i < |Handle(event, store).calls| ==> OnProductTable(Handle(event, store).calls[i])
  {
    if event.parsedBody.Some? {
      var params := SaveParamsOf(event.parsedBody.value);
      assert params.Some? ==> params.value.requestItems.Keys == {ProductTable};
    }
  }

  lemma {:induction false} ScanRequestsOnTable(tableName: string, startKey: Value, pages: Pages)
    ensures forall i :: 0 <= i < |ScanRequests(tableName, startKey, pages)| ==>
      ScanRequests(tableName, startKey, pages)[i].tableName == tableName
    decreases |pages|
  {
    if |pages| > 0 && pages[0].Some? && HasCursor(pages[0].value) {
      ScanRequestsOnTable(tableName, pages[0].value.lastEvaluatedKey, pages[1..]);
    }
  }

  /** `GET /product` gets by the query's `productId` (with read.js's projection on
      `product`) and answers 200 with the answer's `Item`; a rejected get answers
      `undefined`, a `null` answer makes reading `Item` throw, and a missing query
      object rejects before any call. */
  lemma GetProductByQueryKey(event: Event, store: Store)
    requires event.httpMethod == "GET" && event.path == "/product"
    ensures var reply := Handle(event, store);
      match Member(event.queryStringParameters, "productId")
      case None => reply == Reply(Rejected, [])
      case Some(productId) =>
        var params := GetParams(ProductTable, map["productId" := productId], Some("product"));
        && reply.calls == [GetCall(params)]
        && (store.get(params).None? ==> reply.outcome == Resolved(None))
        && (store.get(params).Some? && !Nullish(store.get(params).value) ==>
              reply.outcome == Resolved(Some(BuildResponse(200, Get(store.get(params).value, "Item")))))
        && (store.get(params).Some? && Nullish(store.get(params).value) ==> reply.outcome == Rejected)
  {
  }

  /** `GET /products` answers 200 in every case: with every page's items in page
      order when the scan drains at page `k` after `k + 1` calls, and with
      `products` undefined when the scan fails. */
  lemma ListReturnsEveryPage(event: Event, store: Store)
    requires event.httpMethod == "GET" && event.path == "/products"
    ensures var reply := Handle(event, store);
      && reply.outcome.Resolved? && reply.outcome.response.Some?
      && reply.outcome.response.value.statusCode == 200
      && (forall k: nat :: DrainsAt(store.scanPages, k) ==>
            && reply.outcome.response.value.body == ProductsBody(Some(Concat(store.scanPages[..k + 1])))
            && |reply.calls| == k + 1)
      && ((forall k: nat :: !DrainsAt(store.scanPages, k)) ==>
            reply.outcome.response.value.body == ProductsBody(None))
  {
    forall k: nat | DrainsAt(store.scanPages, k)
      ensures Handle(event, store).outcome.response.value.body == ProductsBody(Some(Concat(store.scanPages[..k + 1])))
      ensures |Handle(event, store).calls| == k + 1
    {
      ScanDrains(ProductTable, Undefined, store.scanPages, [], k);
      assert [] + Concat(store.scanPages[..k + 1]) == Concat(store.scanPages[..k + 1]);
    }
    ScanSucceedsIffDrains(store.scanPages, []);
  }

  /** `POST /product` writes one put request per element of `productData`, in
      order, to the product table alone, and answers 200 with the store's answer;
      the batch write's rejection is not caught, and a nullish body or
      `productData` throws before any store call. */
  lemma SavePutsEveryElement(event: Event, store: Store)
    requires event.httpMethod == "POST" && event.path == "/product"
    requires event.parsedBody.Some?
    ensures var reply, requestBody := Handle(event, store), event.parsedBody.value;
      match SaveParamsOf(requestBody)
      case None =>
        && (Nullish(requestBody) || Nullish(Get(requestBody, "productData")))
        && reply == Reply(Rejected, [])
      case Some(params) =>
        && reply.calls == [BatchWriteCall(params)]
        && params.requestItems.Keys == {ProductTable}
        && ItemsOf(params.requestItems[ProductTable]) == Indexed(Get(requestBody, "productData")).value
        && reply.outcome == match store.batchWrite(params)
             case None => Rejected
             case Some(demo) => Resolved(Some(BuildResponse(200, demo)))
  {
    var requestBody := event.parsedBody.value;
    if SaveParamsOf(requestBody).Some? {
      ItemsOfPutRequests(Indexed(Get(requestBody, "productData")).value);
    }
  }

  /** `PATCH /product` sends the update built from the body, keyed by `productId`
      alone, and answers with the UPDATE success body or `undefined`. */
  lemma PatchSendsBuiltUpdate(event: Event, store: Store)
    requires event.httpMethod == "PATCH" && event.path == "/product"
    requires event.parsedBody.Some? && !Nullish(event.parsedBody.value)
    ensures var reply, params := Handle(event, store), UpdateParamsOf(event.parsedBody.value).value;
      && reply.calls == [UpdateCall(params)]
      && params.key.Keys == {"productId"}
      && reply.outcome == match store.update(params)
           case None => Resolved(None)
           case Some(response) => Resolved(Some(BuildResponse(200, UpdateBody(response))))
  {
  }

  /** `DELETE /product` deletes by the body's `productId` alone, asks for the old
      item, and answers with the DELETE success body holding the store's answer. */
  lemma DeleteByBodyKey(event: Event, store: Store)
    requires event.httpMethod == "DELETE" && event.path == "/product"
    requires event.parsedBody.Some? && !Nullish(event.parsedBody.value)
    ensures var reply, productId := Handle(event, store), Get(event.parsedBody.value, "productId");
      var params := DeleteParams(ProductTable, map["productId" := productId], "ALL_OLD");
      && reply.calls == [DeleteCall(params)]
      && reply.outcome == match store.delete(params)
           case None => Resolved(None)
           case Some(response) => Resolved(Some(BuildResponse(200, DeleteBody(response))))
  {
  }

  /** A `null` body makes reading its fields throw: the write routes reject before
      any store call. */
  lemma NullBodyRejects(event: Event, store: Store)
    requires event.parsedBody == Some(Null)
    requires Dispatch(event.httpMethod, event.path) in {SaveProduct, ModifyProduct, DeleteProduct}
    ensures Handle(event, store) == Reply(Rejected, [])
  {
  }

  /** A body that does not parse rejects the write routes before any store call. */
  lemma UnparsedBodyRejects(event: Event, store: Store)
    requires event.parsedBody.None?
    requires Dispatch(event.httpMethod, event.path) in {SaveProduct, ModifyProduct, DeleteProduct}
    ensures Handle(event, store) == Reply(Rejected, [])
  {
  }
}
