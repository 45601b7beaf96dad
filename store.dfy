/** The document client, reduced to what the handlers see of it: the request each
    call sends and the answer it resolves with (`None` when its promise rejects).
    The store's own behaviour is not modelled; a `Store` is any set of answers. */
module DataStore {
  import opened Js
  import opened Scan
  import opened BatchWrite
  import opened UpdateBuilder

  datatype GetParams = GetParams(tableName: string, key: map<string, Value>, projectionExpression: Option<string>)

  datatype DeleteParams = DeleteParams(tableName: string, key: map<string, Value>, returnValues: string)

  /** One call into the store, with the request it sends. The fixed `batchGet`
      request of index.js is not spelled out. */
  datatype StoreCall =
    | GetCall(getParams: GetParams)
    | ScanCall(scanRequest: ScanRequest)
    | BatchWriteCall(batchWriteParams: BatchWriteParams)
    | UpdateCall(updateParams: UpdateParams)
    | DeleteCall(deleteParams: DeleteParams)
    | BatchGetCall

  /** The answers of the store: the response object of each kind of call, and the
      answers to successive scan calls. */
  datatype Store = Store(
    get: GetParams -> Option<Value>,
    scanPages: Pages,
    batchWrite: BatchWriteParams -> Option<Value>,
    update: UpdateParams -> Option<Value>,
    delete: DeleteParams -> Option<Value>,
    batchGet: Option<Value>)

  /** A call reads or writes the product table and no other. */
  predicate OnProductTable(call: StoreCall) {
    match call
    case GetCall(p) => p.tableName == Inventory.ProductTable
    case ScanCall(r) => r.tableName == Inventory.ProductTable
    case BatchWriteCall(p) => p.requestItems.Keys == {Inventory.ProductTable}
    case UpdateCall(p) => p.tableName == Inventory.ProductTable
    case DeleteCall(p) => p.tableName == Inventory.ProductTable
    case BatchGetCall => false
  }

  function ScanCalls(requests: seq<ScanRequest>): seq<StoreCall> {
    seq(|requests|, i requires 0 <= i < |requests| => ScanCall(requests[i]))
  }
}
