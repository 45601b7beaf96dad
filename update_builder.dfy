/** `modifyProduct`'s request shaping: the `SET` expression and the bound-value map
    built from whichever of `product` and `quantity` are truthy, as the code does it,
    and beside it a corrected builder: commas only between clauses, presence rather
    than truthiness, an empty update reported as a no-op. */
module UpdateBuilder {
  import opened Js
  import opened Text
  import opened Inventory

  const ProductClause := "product= :product"
  const QuantityClause := "quantity= :quantity"

  /** The parameters handed to the store's `update` call. */
  datatype UpdateParams = UpdateParams(
    tableName: string,
    key: map<string, Value>,
    updateExpression: string,
    expressionAttributeValues: map<string, Value>,
    returnValues: string)

  /** The expression as the code assembles it: `"SET "`, then the product clause
      followed by a comma, then the quantity clause, each only when chosen. */
  function WrittenExpression(setProduct: bool, setQuantity: bool): string {
    var afterProduct := if setProduct then "SET " + ProductClause + "," else "SET ";
    if setQuantity then afterProduct + QuantityClause else afterProduct
  }

  /** The bound values as the code inserts them into `attributeValues`. */
  function WrittenValues(setProduct: bool, product: Value, setQuantity: bool, quantity: Value): map<string, Value> {
    var afterProduct: map<string, Value> := if setProduct then map[":product" := product] else map[];
    if setQuantity then afterProduct[":quantity" := quantity] else afterProduct
  }

  /** The guard `requestBody.product && requestBody` (and likewise for quantity). */
  predicate Sets(requestBody: Value, attribute: string)
    requires !Nullish(requestBody)
  {
    Truthy(Get(requestBody, attribute)) && Truthy(requestBody)
  }

  /** The request `modifyProduct` sends; `None` is the TypeError of reading
      `requestBody.product` when the body is `null`. */
  function UpdateParamsOf(requestBody: Value): Option<UpdateParams> {
    if Nullish(requestBody) then None
    else
      var setProduct := Sets(requestBody, "product");
      var setQuantity := Sets(requestBody, "quantity");
      Some(UpdateParams(
        ProductTable,
        map["productId" := Get(requestBody, "productId")],
        WrittenExpression(setProduct, setQuantity),
        WrittenValues(setProduct, Get(requestBody, "product"), setQuantity, Get(requestBody, "quantity")),
        "UPDATED_NEW"))
  }

  /** `modifyProduct` up to the store call, step by step as the code runs it:
      `updateExpression` is reassigned and `attributeValues` grows one key at a time. */
  method ModifyProductParams(requestBody: Value) returns (params: Option<UpdateParams>)
    ensures params == UpdateParamsOf(requestBody)
    ensures params.None? <==> Nullish(requestBody)
  {
    if Nullish(requestBody) {
      return None;
    }
    var attributeValues: map<string, Value> := map[];
    var updateExpression := "SET ";
    if Truthy(Get(requestBody, "product")) && Truthy(requestBody) {
      attributeValues := attributeValues[":product" := Get(requestBody, "product")];
      var condition := "product= :product";
      updateExpression := updateExpression + condition + ",";
    }
    if Truthy(Get(requestBody, "quantity")) && Truthy(requestBody) {
      attributeValues := attributeValues[":quantity" := Get(requestBody, "quantity")];
      var condition := "quantity= :quantity";
      updateExpression := updateExpression + condition;
    }
    params := Some(UpdateParams(ProductTable, map["productId" := Get(requestBody, "productId")],
                                updateExpression, attributeValues, "UPDATED_NEW"));
  }

  /** `":product"` is bound exactly when `product` is truthy, to that value, and
      likewise `":quantity"`; nothing else is bound. Falsy values (`""`, `0`,
      `false`, `null`) count as absent. */
  lemma BoundValuesExact(requestBody: Value)
    requires !Nullish(requestBody)
    ensures var vals := UpdateParamsOf(requestBody).value.expressionAttributeValues;
      && (":product" in vals <==> Truthy(Get(requestBody, "product")))
      && (":product" in vals ==> vals[":product"] == Get(requestBody, "product"))
      && (":quantity" in vals <==> Truthy(Get(requestBody, "quantity")))
      && (":quantity" in vals ==> vals[":quantity"] == Get(requestBody, "quantity"))
      && vals.Keys <= {":product", ":quantity"}
  {
    SetsIsTruthy(requestBody, "product");
    SetsIsTruthy(requestBody, "quantity");
  }

  /** The expression for each of the four subsets of fields set. */
  lemma ExpressionCases(requestBody: Value)
    requires !Nullish(requestBody)
    ensures var e := UpdateParamsOf(requestBody).value.updateExpression;
      var p, q := Truthy(Get(requestBody, "product")), Truthy(Get(requestBody, "quantity"));
      && |e| >= 4 && e[..4] == "SET "
      && (!p && !q ==> e == "SET ")
      && (p && !q ==> e == "SET " + ProductClause + ",")
      && (!p && q ==> e == "SET " + QuantityClause)
      && (p && q ==> e == "SET " + ProductClause + "," + QuantityClause)
  {
    SetsIsTruthy(requestBody, "product");
    SetsIsTruthy(requestBody, "quantity");
    WrittenExpressionCases(Sets(requestBody, "product"), Sets(requestBody, "quantity"));
  }

  lemma WrittenExpressionCases(setProduct: bool, setQuantity: bool)
    ensures var e := WrittenExpression(setProduct, setQuantity);
      && |e| >= 4 && e[..4] == "SET "
      && (!setProduct && !setQuantity ==> e == "SET ")
      && (setProduct && !setQuantity ==> e == "SET " + ProductClause + ",")
      && (!setProduct && setQuantity ==> e == "SET " + QuantityClause)
      && (setProduct && setQuantity ==> e == "SET " + ProductClause + "," + QuantityClause)
  {
  }

  /** The `&& requestBody` half of the guard never matters: only an object has a
      truthy field, and every object is truthy. */
  lemma SetsIsTruthy(requestBody: Value, attribute: string)
    requires !Nullish(requestBody)
    ensures Sets(requestBody, attribute) == Truthy(Get(requestBody, attribute))
  {
  }

  /** `productId` only locates the record: it is the one key, it is never bound as a
      value, and it does not occur in the SET expression. */
  lemma ProductIdOnlyInKey(requestBody: Value)
    requires !Nullish(requestBody)
    ensures var params := UpdateParamsOf(requestBody).value;
      && params.key == map["productId" := Get(requestBody, "productId")]
      && params.tableName == ProductTable
      && params.returnValues == "UPDATED_NEW"
      && ":productId" !in params.expressionAttributeValues
      && !Occurs("productId", params.updateExpression)
  {
    var params := UpdateParamsOf(requestBody).value;
    var p, q := Sets(requestBody, "product"), Sets(requestBody, "quantity");
    assert 'I' !in "SET " && 'I' !in ProductClause && 'I' !in QuantityClause && 'I' !in ",";
    assert params.updateExpression == WrittenExpression(p, q);
    assert 'I' !in WrittenExpression(p, q);
    assert "productId"[7] == 'I';
    NotOccursWithoutChar("productId", params.updateExpression, 'I');
  }

  /** The clauses of the fields set, in the code's fixed order. */
  function ChosenClauses(setProduct: bool, setQuantity: bool): seq<string> {
    (if setProduct then [ProductClause] else []) + (if setQuantity then [QuantityClause] else [])
  }

  /** Against the intended rendering (`"SET "` and the chosen clauses joined by
      commas) the written expression differs only in a trailing comma, and it has
      one exactly when product is set without quantity. */
  lemma WrittenAgainstIntended(setProduct: bool, setQuantity: bool)
    ensures WrittenExpression(setProduct, setQuantity)
      == "SET " + Join(ChosenClauses(setProduct, setQuantity), ",") + (if setProduct && !setQuantity then "," else "")
    ensures var e := WrittenExpression(setProduct, setQuantity);
      e[|e| - 1] == ',' <==> setProduct && !setQuantity
  {
    var e := WrittenExpression(setProduct, setQuantity);
    if setProduct && setQuantity {
      assert ChosenClauses(true, true) == [ProductClause, QuantityClause];
      assert Join([ProductClause, QuantityClause], ",") == ProductClause + "," + QuantityClause;
    } else if setProduct {
      assert ChosenClauses(true, false) == [ProductClause];
    } else if setQuantity {
      assert ChosenClauses(false, true) == [QuantityClause];
    }
  }

  /** Finding: a body with product and no quantity yields an expression whose clause
      list ends in an empty clause after a trailing comma. */
  lemma TrailingCommaWithProductOnly()
    ensures var body := Obj(map["productId" := Str("1"), "product" := Str("desk")]);
      var e := UpdateParamsOf(body).value.updateExpression;
      && e == "SET " + ProductClause + ","
      && Split(e[4..], ',') == [ProductClause, ""]
  {
    var body := Obj(map["productId" := Str("1"), "product" := Str("desk")]);
    assert Sets(body, "product") && !Sets(body, "quantity");
    WrittenTrailingComma();
  }

  lemma WrittenTrailingComma()
    ensures var e := WrittenExpression(true, false);
      e == "SET " + ProductClause + "," && Split(e[4..], ',') == [ProductClause, ""]
  {
    var e := WrittenExpression(true, false);
    assert e[4..] == ProductClause + [','] + "";
    SplitAfter(ProductClause, ',', "");
    SplitWithout("", ',');
  }

  /** Finding: a body with neither field yields the bare `"SET "`, with nothing bound. */
  lemma EmptySetWithNoFields()
    ensures var params := UpdateParamsOf(Obj(map["productId" := Str("1")])).value;
      params.updateExpression == "SET " && params.expressionAttributeValues == map[]
  {
  }

  /** Finding: a quantity of `0` is present in the body but dropped from the update. */
  lemma ZeroQuantityDropped()
    ensures var params := UpdateParamsOf(Obj(map["productId" := Str("1"), "quantity" := Num(0)])).value;
      params.updateExpression == "SET " && ":quantity" !in params.expressionAttributeValues
  {
  }

  // ---- The corrected builder ------------------------------------------------

  /** The attributes an update may set, in a fixed order. */
  const Recognized: seq<string> := ["product", "quantity"]

  function Clause(attribute: string): string {
    attribute + "= :" + attribute
  }

  /** An attribute is present when its key exists, whatever its value. */
  predicate Present(requestBody: Value, attribute: string) {
    requestBody.Obj? && attribute in requestBody.fields
  }

  function PresentAttributes(requestBody: Value): seq<string> {
    (if Present(requestBody, "product") then ["product"] else [])
      + (if Present(requestBody, "quantity") then ["quantity"] else [])
  }

  function Clauses(attributes: seq<string>): seq<string> {
    seq(|attributes|, i requires 0 <= i < |attributes| => Clause(attributes[i]))
  }

  datatype UpdatePlan = UpdatePlan(updateExpression: string, expressionAttributeValues: map<string, Value>)

  /** The corrected update: one clause per present attribute joined by
      commas, the matching bound values, and `None` (a no-op to report rather than
      send) when no recognized attribute is present. */
  function CorrectedUpdate(requestBody: Value): Option<UpdatePlan> {
    var present := PresentAttributes(requestBody);
    if present == [] then None
    else
      var fields := requestBody.fields;
      var afterProduct: map<string, Value> := if "product" in fields then map[":product" := fields["product"]] else map[];
      var values := if "quantity" in fields then afterProduct[":quantity" := fields["quantity"]] else afterProduct;
      Some(UpdatePlan("SET " + Join(Clauses(present), ","), values))
  }

  /** For every subset of present attributes: the update is skipped exactly when the
      subset is empty; otherwise the expression starts with `"SET "`, splits at its
      commas into exactly one clause per present attribute in order (so it has no
      leading, trailing or doubled comma), and the bound values are exactly the
      present attributes' values, falsy ones included. */
  lemma CorrectedUpdateWellFormed(requestBody: Value)
    ensures CorrectedUpdate(requestBody).None? <==> PresentAttributes(requestBody) == []
    ensures CorrectedUpdate(requestBody).Some? ==>
      var plan, present := CorrectedUpdate(requestBody).value, PresentAttributes(requestBody);
      var e, vals := plan.updateExpression, plan.expressionAttributeValues;
      && |e| > 4 && e[..4] == "SET "
      && Split(e[4..], ',') == Clauses(present)
      && e[4] != ',' && e[|e| - 1] != ','
      && (":product" in vals <==> Present(requestBody, "product"))
      && (":product" in vals ==> vals[":product"] == requestBody.fields["product"])
      && (":quantity" in vals <==> Present(requestBody, "quantity"))
      && (":quantity" in vals ==> vals[":quantity"] == requestBody.fields["quantity"])
      && vals.Keys <= {":product", ":quantity"}
  {
    if PresentAttributes(requestBody) != [] {
      CorrectedExpression(requestBody);
    }
  }

  lemma CorrectedExpression(requestBody: Value)
    requires PresentAttributes(requestBody) != []
    ensures var e, parts := CorrectedUpdate(requestBody).value.updateExpression, Clauses(PresentAttributes(requestBody));
      && |e| > 4 && e[..4] == "SET "
      && Split(e[4..], ',') == parts
      && e[4] != ',' && e[|e| - 1] != ','
  {
    var present := PresentAttributes(requestBody);
    var parts := Clauses(present);
    ClausesCommaFree(present);
    SplitJoin(parts, ',');
    JoinEnds(parts, ',');
    var e := CorrectedUpdate(requestBody).value.updateExpression;
    assert e == "SET " + Join(parts, ",");
    assert e[4..] == Join(parts, ",");
  }

  /** The clauses of recognized attributes are non-empty and contain no comma. */
  lemma ClausesCommaFree(attributes: seq<string>)
    requires forall i :: 0 <= i < |attributes| ==> attributes[i] in {"product", "quantity"}
    ensures forall i :: 0 <= i < |attributes| ==> Clauses(attributes)[i] != "" && ',' !in Clauses(attributes)[i]
  {
    assert Clause("product") == ProductClause && Clause("quantity") == QuantityClause;
    assert ',' !in ProductClause && ',' !in QuantityClause;
  }

  /** The corrected builder keeps the written clause text and fixes the defects:
      product alone no longer leaves a trailing comma, a `0` quantity is set, and a
      body with neither field is reported as a no-op. */
  lemma CorrectedFixesFindings()
    ensures Clause("product") == ProductClause && Clause("quantity") == QuantityClause
    ensures CorrectedUpdate(Obj(map["productId" := Str("1"), "product" := Str("desk")])).value.updateExpression
      == "SET product= :product"
    ensures CorrectedUpdate(Obj(map["productId" := Str("1"), "quantity" := Num(0)])).value.expressionAttributeValues
      == map[":quantity" := Num(0)]
    ensures CorrectedUpdate(Obj(map["productId" := Str("1")])).None?
  {
    var onlyProduct := Obj(map["productId" := Str("1"), "product" := Str("desk")]);
    assert PresentAttributes(onlyProduct) == ["product"];
    var zeroQuantity := Obj(map["productId" := Str("1"), "quantity" := Num(0)]);
    assert PresentAttributes(zeroQuantity) == ["quantity"];
    assert PresentAttributes(Obj(map["productId" := Str("1")])) == [];
  }
}
