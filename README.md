# Product inventory handler — a Dafny model

The repository is an AWS Lambda handler for a product inventory kept in a
DynamoDB table called `product-inventory`. It comes in two near-identical
copies, `read.js` and `index.js`. Each handler looks at the event's HTTP method and
path and then does one of six things: answer a health check, get one product,
list all products, batch-create products, partially update a product, or delete
one. Anything else gets a 404. This project models the part of that code that
makes decisions:

- the first-match dispatch over `(httpMethod, path)` (`Routing`);
- the response envelope and the fixed success bodies (`Responses`);
- the `SET` update expression and its bound values built by `modifyProduct`
  (`UpdateBuilder`), together with a corrected builder (see "Findings");
- the batch-write request of `saveProduct`: a `for` loop over `productData` in
  read.js, and a constant request in index.js (`BatchWrite`);
- the paginated scan `scanDynamoRecords`, which concatenates pages and follows
  `LastEvaluatedKey`. Its request object is a class whose key field the method
  updates in place (`Scan`);
- the two handlers as functions from an event and the store's answers to a
  `Reply`: the store calls made, in order, and how the handler's promise settles
  (`ReadHandler`, `IndexHandler`, built from `Operations`).

The store is not modelled. Each kind of call is a field of `DataStore.Store`
that maps the request sent to the store's answer. The answer is `None` when the
call's promise rejects. The scan is given as a finite list of answers to
successive calls, and a call made after the last answer fails. `JSON.parse` is
left abstract: an event carries the parsed body, or `None` when parsing throws.
`JSON.stringify` is left abstract too: a response carries the value that would
be serialized.

The model follows the code, including where it misbehaves:

- the 404 body is `'404 Not Found'`;
- the health response has status 200 and an `undefined` body;
- falsy field values count as absent;
- an empty update is sent to the store as `"SET "` rather than reported;
- store errors either yield `undefined` or reject, with no error taxonomy.

## Model

| member | source | states |
|---|---|---|
| Responses.BuildResponse | read.js:227-235 | the status passes through unchanged; the headers are exactly `Content-Type: application/json`; the body is the value given |
| Responses.ProductsBody | read.js:65-73 | the list body has the single field `products`, which holds the scanned items, or is undefined when the scan failed |
| Responses.UpdateBody | read.js:179-185 | the UPDATE body has exactly Operation `'UPDATE'`, Message `'SUCCESS'` and UpdatedAttributes = the store's answer |
| Responses.DeleteBody | read.js:209-215 | the DELETE body has exactly Operation `'DELETE'`, Message `'SUCCESS'` and Item = the store's answer |
| Routing.DispatchIsTableLookup | read.js:15-37 | first-match dispatch equals a lookup in the six-entry (method, path) table; the result is NotFound exactly for pairs outside the table |
| Routing.DispatchInjective | read.js:15-34 | the six cases are mutually exclusive: each operation is reached from exactly one (method, path) pair |
| Routing.TableCoversSixRoutes | read.js:8-34 | the table has six distinct pairs, and every operation except NotFound is reachable |
| UpdateBuilder.ModifyProductParams | read.js:152-177 | the step-by-step build (reassigned expression, keys inserted one by one) yields the request described by `UpdateParamsOf`; it throws exactly when the body is null or undefined |
| UpdateBuilder.BoundValuesExact | read.js:153-167 | `":product"` is bound iff `product` is truthy, and to that value; the same holds for `":quantity"`; nothing else is bound, and a falsy value counts as absent |
| UpdateBuilder.SetsIsTruthy | read.js:158-163 | the `&& requestBody` half of each guard never changes the outcome |
| UpdateBuilder.ExpressionCases | read.js:155-166 | the expression starts with `"SET "` and is exactly `"SET "`, `"SET product= :product,"`, `"SET quantity= :quantity"` or `"SET product= :product,quantity= :quantity"`, depending on which fields are truthy |
| UpdateBuilder.WrittenExpressionCases | index.js:136-145 | the expression text for each of the four subsets of fields set, as index.js also builds it |
| UpdateBuilder.ProductIdOnlyInKey | read.js:169-177 | the key is `{productId}` alone, on the product table with `UPDATED_NEW`; `productId` is never bound as a value and never occurs in the SET expression |
| UpdateBuilder.WrittenAgainstIntended | read.js:155-166 | the written expression is `"SET "` plus the chosen clauses joined by commas, plus a trailing comma exactly when product is set without quantity |
| UpdateBuilder.TrailingCommaWithProductOnly | read.js:158-162 | for a body with product only, the expression is `"SET product= :product,"`, whose clause list splits into a clause and an empty clause |
| UpdateBuilder.EmptySetWithNoFields | read.js:155-167 | for a body with neither field, the bare `"SET "` is sent with no bound values |
| UpdateBuilder.ZeroQuantityDropped | read.js:163-167 | a quantity of 0 is in the body but not in the update |
| UpdateBuilder.CorrectedUpdateWellFormed | read.js:152-167 | corrected builder: no update exactly when no recognized field is present; otherwise the expression starts with `"SET "` and splits at commas into one clause per present field, in order, with no leading or trailing comma; the bound values are exactly the present fields |
| UpdateBuilder.CorrectedFixesFindings | read.js:155-166 | the corrected builder keeps the clause text and gives `"SET product= :product"` for product only, binds a 0 quantity, and reports a no-op for an empty body |
| Scan.ScanParams.constructor | read.js:66-68 | a fresh scan request names the table and has no start key |
| Scan.ScanDynamoRecords | read.js:105-117 | the recursion returns `ScanAll` of the pages and accumulator; it sends one request per call, each later one carrying the previous page's key; in the request object only the start key changes, to the last key followed |
| Scan.ScanDrains | read.js:105-117 | when every page before `k` has a key and page `k` has none, the scan returns the accumulator and then the items of pages 0..k in page order, after exactly k+1 calls, each later call sending the previous page's key |
| Scan.ScanSucceedsIffDrains | read.js:106-116 | the scan returns items iff it drains at some page; any failed call, or running out of answers while keys keep coming, yields undefined and discards what was accumulated |
| Scan.DrainsAtUnique | read.js:109-113 | the scan stops at the first page without a key, which is unique |
| Scan.ScanAccumulates | read.js:108-111 | the accumulator is only a prefix of the result |
| Scan.ThreePages | read.js:105-117 | pages of 2, 2 and 1 items, with keys after the first two, give the five items in page order |
| BatchWrite.SaveProductParams | read.js:124-139 | the `for` loop puts exactly one `PutRequest` per element of `productData`, in order, under the product table alone; it throws exactly when the body or `productData` is null or undefined |
| BatchWrite.ItemsOfPutRequests | read.js:127-133 | unwrapping the put requests gives back exactly the items, in order |
| BatchWrite.ConstantSaveParams | index.js:100-125 | index.js writes exactly two put requests to the product table: `"100"`/`"table"`/`"9"` and `"101"`/`"chair"`/`"9"` |
| BatchWrite.ConstantSaveIgnoresBody | index.js:100-125 | the index.js request does not depend on the body |
| ReadHandler.HealthWithoutStore | read.js:16-17 | `GET /health` gives status 200 with no body and makes no store call |
| ReadHandler.UnmatchedIsNotFound | read.js:35-36 | every other (method, path) pair gives 404 with body `'404 Not Found'` and makes no store call |
| ReadHandler.RepliesAreWellShaped | read.js:12-39 | for every event and store: each response has exactly the JSON header; its status is 404 iff the default case was taken, and 200 otherwise; at most one call is made except by the full scan; every call targets the product table |
| ReadHandler.ScanRequestsOnTable | read.js:66-69 | every scan request the list operation sends names the product table |
| ReadHandler.GetProductByQueryKey | read.js:46-58 | `GET /product` gets by the query's `productId`, with projection `product`, and answers 200 with the answer's `Item`; a `null` answer rejects (reading `Item` throws); a rejected get gives `undefined`; a missing query object rejects before any call |
| ReadHandler.ListReturnsEveryPage | read.js:65-73 | `GET /products` always gives 200: with every page's items in page order after k+1 calls when the scan drains at page k, and with `products` undefined when it fails |
| ReadHandler.SavePutsEveryElement | read.js:124-144 | `POST /product` makes one batch write whose requests, unwrapped, are exactly `productData`, under the product table alone, and answers 200 with the store's answer; a rejected batch write rejects; a nullish body or `productData` rejects before any call |
| ReadHandler.PatchSendsBuiltUpdate | read.js:152-189 | `PATCH /product` sends the built update, keyed by `productId` alone, and answers with the UPDATE body, or `undefined` on a store error |
| ReadHandler.DeleteByBodyKey | read.js:201-219 | `DELETE /product` deletes by the body's `productId` alone with `ALL_OLD`, and answers with the DELETE body, or `undefined` on a store error |
| ReadHandler.UnparsedBodyRejects | read.js:25-34 | a body that fails to parse rejects POST, PATCH and DELETE before any store call |
| ReadHandler.NullBodyRejects | read.js:124-127 | a `null` body rejects POST, PATCH and DELETE before any store call: reading `productData` (here), `product` (line 158) or `productId` (line 33) throws |
| IndexHandler.AgreesWithRead | index.js:15-37 | index.js dispatches like read.js and matches it on health, update, delete and the 404 default |
| IndexHandler.UnmatchedIsNotFound | index.js:35-36 | every other (method, path) pair gives 404 with body `'404 Not Found'` and makes no store call |
| IndexHandler.GetProductByQueryKey | index.js:41-53 | `GET /product` gets by the query's `productId`, with no projection, and answers 200 with the answer's `Item`; a `null` answer rejects (reading `Item` throws); a rejected get gives `undefined`; a missing query object rejects before any call |
| IndexHandler.SaveIgnoresBody | index.js:100-131 | once the body parses, `POST /product` is the same for every body: one batch write of the two fixed items, answered with 200 and the store's answer, or rejected when the batch write rejects; an unparsable body rejects before any call |
| IndexHandler.ListIsOneBatchGet | index.js:55-84 | `GET /products` makes one `batchGet`; its answer is the body, and its rejection is not caught |
| IndexHandler.PatchSendsBuiltUpdate | index.js:133-167 | `PATCH /product` sends the same built update as read.js, keyed by `productId` alone, and answers with the UPDATE body, or `undefined` when the update rejects |
| IndexHandler.DeleteAnswersWithOldItem | index.js:175-193 | a successful delete gives 200 with the JSON header and `{Operation:'DELETE', Message:'SUCCESS', Item:<store answer>}`; the key holds `productId` alone |

## Findings

The handlers model the code as written, so `Operations.ModifyProduct` uses the
written builder `UpdateParamsOf`. `UpdateBuilder.CorrectedUpdate` is a corrected
builder: commas only between clauses, presence rather than truthiness, an empty
update reported as a no-op. The corrected-member lemmas below are proved about it.

| source | as written | input that shows it | evidently intended | confidence | as-written member | corrected member |
|---|---|---|---|---|---|---|
| read.js:158-162 (also index.js:137-141) | the product clause is always appended with a comma after it | body `{productId:"1", product:"desk"}` gives `"SET product= :product,"` | commas only between clauses | high; not executed | UpdateBuilder.TrailingCommaWithProductOnly | UpdateBuilder.CorrectedUpdateWellFormed |
| read.js:155-177 (also index.js:136-156) | with no field set, the bare `"SET "` goes to the store | body `{productId:"1"}` gives `"SET "` with no bound values | report a no-op instead of sending a malformed update | medium; not executed | UpdateBuilder.EmptySetWithNoFields | UpdateBuilder.CorrectedFixesFindings |
| read.js:163 (also index.js:142) | field presence is tested by truthiness | body `{productId:"1", quantity:0}` leaves quantity unchanged | a field that is present is set, even when falsy | low; not executed | UpdateBuilder.ZeroQuantityDropped | UpdateBuilder.CorrectedFixesFindings |

## Left out

- DynamoDB itself (`get`, `scan`, `batchGet`, `batchWrite`, `update`, `delete`, `.promise()`) and the region setup: each call is an answer supplied by `DataStore.Store`, and table semantics are not modelled.
- The cursor property name: the code writes the key under `ExclusiveStartkey`, with a lower-case k (read.js:110, index.js:91). The model records the request under that name, but how the store reacts to a misspelled key, and so whether the scan really advances, cannot be checked here.
- `JSON.parse` and `JSON.stringify`: left abstract, as described above.
- `async`/`await` and promise chaining: the model runs sequentially, and a settled promise is a `Lambda.Outcome`.
- Console logging.
- The fixed `batchGet` request of index.js (lines 56-73): the model has a `BatchGetCall` with no payload.
- Dead code: the commented-out blocks and the unused `dynamodbTableName2`.
- index.js's `scanDynamoRecords` (index.js:86-98) is never called. Its logic matches read.js's, so `Scan.ScanDynamoRecords` models both.
- Numbers are integers: `NaN`, `-0` and fractions, which JavaScript also treats in truthiness, are not modelled.
- `Js.Member` sees only own fields: properties inherited from prototypes are not modelled.
- `Js.Indexed` does not model array-like objects with a numeric `length`: they iterate zero times. It splits a string by code point rather than by UTF-16 code unit.
- A scan call made after the last given answer counts as a failed call. This bounds the store so that termination can be proved; a store that returns keys forever is not modelled.
