/** The response envelope every handler returns (`buildResponse`) and the fixed
    success bodies of the list, update and delete operations. `JSON.stringify` is
    left abstract: a response carries the value it would serialize. */
module Responses {
  import opened Js

  datatype Response = Response(statusCode: int, headers: map<string, string>, body: Value)

  const JsonHeaders: map<string, string> := map["Content-Type" := "application/json"]

  /** `buildResponse(statusCode, body)`: the status passes through unchanged, the
      headers are exactly one Content-Type of application/json, and the body is the
      value given (`Undefined` when the caller passes no body). */
  function BuildResponse(statusCode: int, body: Value): (r: Response)
    ensures r.statusCode == statusCode
    ensures r.headers.Keys == {"Content-Type"} && r.headers["Content-Type"] == "application/json"
    ensures r.body == body
  {
    Response(statusCode, JsonHeaders, body)
  }

  /** The body `{products: allProducts}` of the list operation; a failed scan leaves
      `allProducts` undefined, so the field is `undefined`. */
  function ProductsBody(allProducts: Option<seq<Value>>): (r: Value)
    ensures r.Obj? && r.fields.Keys == {"products"}
    ensures allProducts.Some? <==> r.fields["products"].Arr?
    ensures allProducts.Some? ==> r.fields["products"].elems == allProducts.value
    ensures allProducts.None? ==> r.fields["products"] == Undefined
  {
    Obj(map["products" := if allProducts.Some? then Arr(allProducts.value) else Undefined])
  }

  /** The body `{Operation: 'UPDATE', Message: 'SUCCESS', UpdatedAttributes: response}`. */
  function UpdateBody(updated: Value): (r: Value)
    ensures r.Obj? && r.fields.Keys == {"Operation", "Message", "UpdatedAttributes"}
    ensures Member(r, "Operation") == Some(Str("UPDATE"))
    ensures Member(r, "Message") == Some(Str("SUCCESS"))
    ensures Member(r, "UpdatedAttributes") == Some(updated)
  {
    Obj(map["Operation" := Str("UPDATE"), "Message" := Str("SUCCESS"), "UpdatedAttributes" := updated])
  }

  /** The body `{Operation: 'DELETE', Message: 'SUCCESS', Item: response}`. */
  function DeleteBody(deleted: Value): (r: Value)
    ensures r.Obj? && r.fields.Keys == {"Operation", "Message", "Item"}
    ensures Member(r, "Operation") == Some(Str("DELETE"))
    ensures Member(r, "Message") == Some(Str("SUCCESS"))
    ensures Member(r, "Item") == Some(deleted)
  {
    Obj(map["Operation" := Str("DELETE"), "Message" := Str("SUCCESS"), "Item" := deleted])
  }
}
