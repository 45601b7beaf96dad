/** The handler's `switch (true)` over the event's method and path: the first case
    whose condition holds picks one of six operations, and `default` answers 404. */
module Routing {

  const HealthPath := "/health"
  const ProductPath := "/product"
  const ProductsPath := "/products"

  datatype Route = Health | GetProduct | GetProducts | SaveProduct | ModifyProduct | DeleteProduct | NotFound

  /** The cases in source order; the first one whose condition holds wins. */
  function Dispatch(httpMethod: string, path: string): Route {
    if httpMethod == "GET" && path == HealthPath then Health
    else if httpMethod == "GET" && path == ProductPath then GetProduct
    else if httpMethod == "GET" && path == ProductsPath then GetProducts
    else if httpMethod == "POST" && path == ProductPath then SaveProduct
    else if httpMethod == "PATCH" && path == ProductPath then ModifyProduct
    else if httpMethod == "DELETE" && path == ProductPath then DeleteProduct
    else NotFound
  }

  /** An independent statement of the routes: a table keyed by (method, path). */
  const Table: map<(string, string), Route> := map[
    ("GET", HealthPath) := Health,
    ("GET", ProductPath) := GetProduct,
    ("GET", ProductsPath) := GetProducts,
    ("POST", ProductPath) := SaveProduct,
    ("PATCH", ProductPath) := ModifyProduct,
    ("DELETE", ProductPath) := DeleteProduct
  ]

  /** First-match dispatch is a lookup in the table, with 404 for every pair the
      table lacks: the order of the cases does not matter, since first-match dispatch
      equals an order-free lookup. */
  lemma DispatchIsTableLookup(httpMethod: string, path: string)
    ensures Dispatch(httpMethod, path) == if (httpMethod, path) in Table then Table[(httpMethod, path)] else NotFound
    ensures Dispatch(httpMethod, path) == NotFound <==> (httpMethod, path) !in Table
  {
  }

  /** The six cases are mutually exclusive: each operation is reached from exactly
      one (method, path) pair. */
  lemma DispatchInjective(m1: string, p1: string, m2: string, p2: string)
    requires Dispatch(m1, p1) != NotFound
    requires Dispatch(m1, p1) == Dispatch(m2, p2)
    ensures m1 == m2 && p1 == p2
  {
  }

  /** The table holds six distinct pairs and reaches every route except NotFound. */
  lemma TableCoversSixRoutes()
    ensures |Table| == 6
    ensures Table.Values == {Health, GetProduct, GetProducts, SaveProduct, ModifyProduct, DeleteProduct}
  {
    assert Table[("GET", HealthPath)] == Health && Table[("GET", ProductPath)] == GetProduct;
    assert Table[("GET", ProductsPath)] == GetProducts && Table[("POST", ProductPath)] == SaveProduct;
    assert Table[("PATCH", ProductPath)] == ModifyProduct && Table[("DELETE", ProductPath)] == DeleteProduct;
  }
}
