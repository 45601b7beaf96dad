/** What a handler invocation receives and what it produces. */
module Lambda {
  import opened Js
  import opened Responses
  import opened DataStore

  /** The event's method, path and query parameters, and the result of
      `JSON.parse(event.body)`: `None` when parsing throws. */
  datatype Event = Event(httpMethod: string, path: string, queryStringParameters: Value, parsedBody: Option<Value>)

  /** The handler's promise either resolves, possibly with `undefined` (`None`) when
      an error branch only logs, or rejects (a TypeError or an uncaught store error). */
  datatype Outcome = Resolved(response: Option<Response>) | Rejected

  /** The outcome together with the store calls made, in order. */
  datatype Reply = Reply(outcome: Outcome, calls: seq<StoreCall>)
}
