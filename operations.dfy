/** The operations behind the routes, each from its arguments and the store's
    answers to the reply: store calls made and how the promise settles. */
module Operations {
  import opened Js
  import opened Inventory
  import opened Responses
  import opened Scan
  import opened BatchWrite
  import opened UpdateBuilder
  import opened DataStore
  import opened Lambda

  /** `getProduct(productId)`: get by key, then `buildResponse(200, response.Item)`;
      a rejected get only logs, so the result is `undefined`. */
  function GetProduct(productId: Value, projection: Option<string>, store: Store): Reply {
    var params := GetParams(ProductTable, map["productId" := productId], projection);
    match store.get(params)
    case None => Reply(Resolved(None), [GetCall(params)])
    case Some(response) =>
      match Member(response, "Item")
      case None => Reply(Rejected, [GetCall(params)])
      case Some(item) => Reply(Resolved(Some(BuildResponse(200, item))), [GetCall(params)])
  }

  /** read.js's `getProducts`: scan the whole table and answer `{products: ...}`
      with status 200, even when the scan failed and `allProducts` is undefined. */
  function ScanProducts(store: Store): Reply {
    var allProducts := ScanAll(store.scanPages, []);
    Reply(Resolved(Some(BuildResponse(200, ProductsBody(allProducts)))),
          ScanCalls(ScanRequests(ProductTable, Undefined, store.scanPages)))
  }

  /** index.js's `getProducts`: one fixed `batchGet`, whose answer is the body; a
      rejection is not caught. */
  function BatchGetProducts(store: Store): Reply {
    match store.batchGet
    case None => Reply(Rejected, [BatchGetCall])
    case Some(demo) => Reply(Resolved(Some(BuildResponse(200, demo))), [BatchGetCall])
  }

  /** The batch write and `buildResponse(200, demo)`; a rejection is not caught. */
  function WriteBatch(params: BatchWriteParams, store: Store): Reply {
    match store.batchWrite(params)
    case None => Reply(Rejected, [BatchWriteCall(params)])
    case Some(demo) => Reply(Resolved(Some(BuildResponse(200, demo))), [BatchWriteCall(params)])
  }

  /** read.js's `saveProduct(requestBody)`. */
  function SaveProducts(requestBody: Value, store: Store): Reply {
    match SaveParamsOf(requestBody)
    case None => Reply(Rejected, [])
    case Some(params) => WriteBatch(params, store)
  }

  /** `modifyProduct(requestBody)`: the update built by the code as written, then
      the UPDATE success body; a rejected update only logs. */
  function ModifyProduct(requestBody: Value, store: Store): Reply {
    match UpdateParamsOf(requestBody)
    case None => Reply(Rejected, [])
    case Some(params) =>
      match store.update(params)
      case None => Reply(Resolved(None), [UpdateCall(params)])
      case Some(response) => Reply(Resolved(Some(BuildResponse(200, UpdateBody(response)))), [UpdateCall(params)])
  }

  /** `deleteProduct(productId)`: delete by key returning the old item, then the
      DELETE success body; a rejected delete only logs. */
  function DeleteProduct(productId: Value, store: Store): Reply {
    var params := DeleteParams(ProductTable, map["productId" := productId], "ALL_OLD");
    match store.delete(params)
    case None => Reply(Resolved(None), [DeleteCall(params)])
    case Some(response) => Reply(Resolved(Some(BuildResponse(200, DeleteBody(response)))), [DeleteCall(params)])
  }
}
