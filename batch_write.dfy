/** `saveProduct`'s batch-write request: read.js wraps every element of
    `requestBody.productData` as a `PutRequest`; index.js ignores the body and
    sends two fixed items. */
module BatchWrite {
  import opened Js
  import opened Inventory

  datatype WriteRequest = PutRequest(item: Value)

  /** `{RequestItems: {<table>: [<write requests>]}}`. */
  datatype BatchWriteParams = BatchWriteParams(requestItems: map<string, seq<WriteRequest>>)

  /** Each item wrapped as `{PutRequest: {Item: item}}`, in order. */
  function PutRequests(items: seq<Value>): seq<WriteRequest> {
    seq(|items|, i requires 0 <= i < |items| => PutRequest(items[i]))
  }

  /** The items a list of write requests puts, in order. */
  function ItemsOf(requests: seq<WriteRequest>): seq<Value> {
    if |requests| == 0 then [] else [requests[0].item] + ItemsOf(requests[1..])
  }

  /** Unwrapping the put requests gives back exactly the items, in order. */
  lemma {:induction false} ItemsOfPutRequests(items: seq<Value>)
    ensures ItemsOf(PutRequests(items)) == items
    decreases |items|
  {
    if |items| > 0 {
      assert PutRequests(items)[1..] == PutRequests(items[1..]);
      ItemsOfPutRequests(items[1..]);
      assert [items[0]] + items[1..] == items;
    }
  }

  /** The request read.js's `saveProduct` sends; `None` is the TypeError of reading
      `requestBody.productData` or its `length` on `null` or `undefined`. */
  function SaveParamsOf(requestBody: Value): Option<BatchWriteParams> {
    match Member(requestBody, "productData")
    case None => None
    case Some(productData) =>
      match Indexed(productData)
      case None => None
      case Some(elements) => Some(BatchWriteParams(map[ProductTable := PutRequests(elements)]))
  }

  /** read.js's `saveProduct` up to the store call: the `for` loop pushes one
      `PutRequest` per element of `productData` onto `itemsArray`. The request
      targets only the product table and puts the elements in order. */
  method SaveProductParams(requestBody: Value) returns (params: Option<BatchWriteParams>)
    ensures params == SaveParamsOf(requestBody)
    ensures params.None? <==> Nullish(requestBody) || Nullish(Get(requestBody, "productData"))
    ensures params.Some? ==>
      var productData := Indexed(Get(requestBody, "productData")).value;
      && params.value.requestItems.Keys == {ProductTable}
      && |params.value.requestItems[ProductTable]| == |productData|
      && forall i :: 0 <= i < |productData| ==> params.value.requestItems[ProductTable][i] == PutRequest(productData[i])
  {
    var productData := Member(requestBody, "productData");
    if productData.None? {
      return None;
    }
    var elements := Indexed(productData.value);
    if elements.None? {
      return None;
    }
    var itemsArray: seq<WriteRequest> := [];
    for i := 0 to |elements.value|
      invariant |itemsArray| == i
      invariant forall j :: 0 <= j < i ==> itemsArray[j] == PutRequest(elements.value[j])
    {
      itemsArray := itemsArray + [PutRequest(elements.value[i])];
    }
    assert itemsArray == PutRequests(elements.value);
    params := Some(BatchWriteParams(map[ProductTable := itemsArray]));
  }

  const Table100: Value := Obj(map["productId" := Str("100"), "product" := Str("table"), "quantity" := Str("9")])
  const Chair101: Value := Obj(map["productId" := Str("101"), "product" := Str("chair"), "quantity" := Str("9")])

  /** index.js's `saveProduct`: whatever the body, it puts the two fixed items
      (productId "100", a table, and "101", a chair, each of quantity "9") into the
      product table and nothing else. */
  function ConstantSaveParams(requestBody: Value): (params: BatchWriteParams)
    ensures params.requestItems.Keys == {ProductTable}
    ensures |params.requestItems[ProductTable]| == 2
    ensures ItemsOf(params.requestItems[ProductTable]) == [Table100, Chair101]
  {
    var requests := [PutRequest(Table100), PutRequest(Chair101)];
    assert requests == PutRequests([Table100, Chair101]);
    ItemsOfPutRequests([Table100, Chair101]);
    BatchWriteParams(map[ProductTable := requests])
  }

  /** The body has no effect on index.js's request. */
  lemma ConstantSaveIgnoresBody(body1: Value, body2: Value)
    ensures ConstantSaveParams(body1) == ConstantSaveParams(body2)
  {
  }
}
