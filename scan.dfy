/** `scanDynamoRecords`: scan, append the page's items to the accumulator, and while
    the answer carries a `LastEvaluatedKey`, write it into the request object and
    scan again. The store is a finite list of answers to successive scan calls. */
module Scan {
  import opened Js

  /** One answer of the store's scan: its items and its `LastEvaluatedKey`
      (`Undefined` when the store sends none). */
  datatype Page = Page(items: seq<Value>, lastEvaluatedKey: Value)

  /** The answers to the first, second, ... scan call; `None` is a call that fails,
      and a call made after the last answer fails as well. */
  type Pages = seq<Option<Page>>

  /** A snapshot of the scan request object as one call sends it. */
  datatype ScanRequest = ScanRequest(tableName: string, exclusiveStartkey: Value)

  /** The code follows a page's key when the key is truthy. */
  predicate HasCursor(p: Page) {
    Truthy(p.lastEvaluatedKey)
  }

  /** What `scanDynamoRecords(params, acc)` returns: `None` (the function's
      `undefined`) as soon as a call fails, the accumulated items otherwise. */
  function ScanAll(pages: Pages, acc: seq<Value>): Option<seq<Value>>
    decreases |pages|
  {
    if |pages| == 0 || pages[0].None? then None
    else if HasCursor(pages[0].value) then ScanAll(pages[1..], acc + pages[0].value.items)
    else Some(acc + pages[0].value.items)
  }

  /** The requests the calls send: the first with the starting key, each later one
      with the key of the page before it. */
  function ScanRequests(tableName: string, startKey: Value, pages: Pages): seq<ScanRequest>
    decreases |pages|
  {
    [ScanRequest(tableName, startKey)]
      + if |pages| > 0 && pages[0].Some? && HasCursor(pages[0].value)
        then ScanRequests(tableName, pages[0].value.lastEvaluatedKey, pages[1..])
        else []
  }

  /** The key left in the request object when the scan stops. */
  function FinalKey(startKey: Value, pages: Pages): Value
    decreases |pages|
  {
    if |pages| > 0 && pages[0].Some? && HasCursor(pages[0].value)
    then FinalKey(pages[0].value.lastEvaluatedKey, pages[1..])
    else startKey
  }

  /** The request object `scanParams`, which the code updates in place. Its
      `exclusiveStartkey` is the property the code writes, `ExclusiveStartkey`;
      `Undefined` stands for "not set". */
  class ScanParams {
    var tableName: string
    var exclusiveStartkey: Value

    constructor (tableName: string)
      ensures this.tableName == tableName && exclusiveStartkey == Undefined
    {
      this.tableName := tableName;
      exclusiveStartkey := Undefined;
    }
  }

  /** The recursion of `scanDynamoRecords` over the store's answers; `sent` lists
      the request each call made, as the object stood at that call. */
  method ScanDynamoRecords(scanParams: ScanParams, itemArray: seq<Value>, pages: Pages)
    returns (r: Option<seq<Value>>, sent: seq<ScanRequest>)
    modifies scanParams
    decreases |pages|
    ensures r == ScanAll(pages, itemArray)
    ensures sent == ScanRequests(old(scanParams.tableName), old(scanParams.exclusiveStartkey), pages)
    ensures scanParams.tableName == old(scanParams.tableName)
    ensures scanParams.exclusiveStartkey == FinalKey(old(scanParams.exclusiveStartkey), pages)
  {
    sent := [ScanRequest(scanParams.tableName, scanParams.exclusiveStartkey)];
    if |pages| == 0 || pages[0].None? {
      return None, sent;
    }
    var dynamoData := pages[0].value;
    var accumulated := itemArray + dynamoData.items;
    if Truthy(dynamoData.lastEvaluatedKey) {
      scanParams.exclusiveStartkey := dynamoData.lastEvaluatedKey;
      var later;
      r, later := ScanDynamoRecords(scanParams, accumulated, pages[1..]);
      sent := sent + later;
    } else {
      r := Some(accumulated);
    }
  }

  /** The items of the answered pages, in page order. */
  function Concat(pages: Pages): seq<Value> {
    if |pages| == 0 then []
    else (if pages[0].Some? then pages[0].value.items else []) + Concat(pages[1..])
  }

  /** The scan drains at page `k`: every earlier page was answered with a key to
      follow, and page `k` was answered without one. */
  ghost predicate DrainsAt(pages: Pages, k: nat) {
    && k < |pages|
    && (forall j :: 0 <= j < k ==> pages[j].Some? && HasCursor(pages[j].value))
    && pages[k].Some? && !HasCursor(pages[k].value)
  }

  /** At most one page can be where the scan drains. */
  lemma DrainsAtUnique(pages: Pages, k1: nat, k2: nat)
    requires DrainsAt(pages, k1) && DrainsAt(pages, k2)
    ensures k1 == k2
  {
  }

  /** When the scan drains at page `k`, it returns the accumulator followed by the
      items of pages 0 to `k` in page order, and it has sent exactly `k + 1`
      requests, each after the first carrying the key of the page before it. */
  lemma {:induction false} ScanDrains(tableName: string, startKey: Value, pages: Pages, acc: seq<Value>, k: nat)
    requires DrainsAt(pages, k)
    ensures ScanAll(pages, acc) == Some(acc + Concat(pages[..k + 1]))
    ensures var sent := ScanRequests(tableName, startKey, pages);
      && |sent| == k + 1
      && sent[0] == ScanRequest(tableName, startKey)
      && forall j :: 0 < j <= k ==> sent[j] == ScanRequest(tableName, pages[j - 1].value.lastEvaluatedKey)
    decreases k
  {
    if k == 0 {
      assert pages[..1] == [pages[0]] && pages[..1][1..] == [];
      assert Concat(pages[..1]) == pages[0].value.items + Concat([]);
      assert acc + (pages[0].value.items + []) == acc + pages[0].value.items;
    } else {
      var p := pages[0].value;
      assert DrainsAt(pages[1..], k - 1) by {
        forall j | 0 <= j < k - 1 ensures pages[1..][j].Some? && HasCursor(pages[1..][j].value) {
          assert pages[1..][j] == pages[j + 1];
        }
      }
      ScanDrains(tableName, p.lastEvaluatedKey, pages[1..], acc + p.items, k - 1);
      assert pages[..k + 1][1..] == pages[1..][..k];
      assert acc + Concat(pages[..k + 1]) == acc + p.items + Concat(pages[1..][..k]);
    }
  }

  /** The scan succeeds exactly when it drains at some page: a failed call, or
      running out of answers while keys are still being returned, gives `None` and
      discards everything accumulated. */
  lemma {:induction false} ScanSucceedsIffDrains(pages: Pages, acc: seq<Value>)
    ensures ScanAll(pages, acc).Some? <==> exists k: nat :: DrainsAt(pages, k)
    decreases |pages|
  {
    if |pages| == 0 || pages[0].None? {
    } else if HasCursor(pages[0].value) {
      ScanSucceedsIffDrains(pages[1..], acc + pages[0].value.items);
      if exists k: nat :: DrainsAt(pages[1..], k) {
        var k: nat :| DrainsAt(pages[1..], k);
        assert DrainsAt(pages, k + 1) by {
          forall j | 0 <= j < k + 1 ensures pages[j].Some? && HasCursor(pages[j].value) {
            if j > 0 { assert pages[j] == pages[1..][j - 1]; }
          }
        }
      }
      if exists k: nat :: DrainsAt(pages, k) {
        var k: nat :| DrainsAt(pages, k);
        assert k > 0;
        assert DrainsAt(pages[1..], k - 1) by {
          forall j | 0 <= j < k - 1 ensures pages[1..][j].Some? && HasCursor(pages[1..][j].value) {
            assert pages[1..][j] == pages[j + 1];
          }
        }
      }
    } else {
      assert DrainsAt(pages, 0);
    }
  }

  /** The accumulator is only a prefix: scanning from `acc` is scanning from empty
      and putting `acc` in front. */
  lemma {:induction false} ScanAccumulates(pages: Pages, acc: seq<Value>)
    ensures ScanAll(pages, acc).None? <==> ScanAll(pages, []).None?
    ensures ScanAll(pages, acc).Some? ==> ScanAll(pages, acc).value == acc + ScanAll(pages, []).value
    decreases |pages|
  {
    if |pages| > 0 && pages[0].Some? && HasCursor(pages[0].value) {
      var items := pages[0].value.items;
      ScanAccumulates(pages[1..], acc + items);
      ScanAccumulates(pages[1..], items);
      assert [] + items == items;
    }
  }

  /** Three answers of 2, 2 and 1 items, with keys after the first two, give the
      five items in page order. */
  lemma ThreePages(a: Value, b: Value, c: Value, d: Value, e: Value)
    ensures ScanAll([Some(Page([a, b], Str("k1"))), Some(Page([c, d], Str("k2"))), Some(Page([e], Undefined))], [])
      == Some([a, b, c, d, e])
  {
    var last: Pages := [Some(Page([e], Undefined))];
    var middle: Pages := [Some(Page([c, d], Str("k2")))] + last;
    var pages: Pages := [Some(Page([a, b], Str("k1")))] + middle;
    assert Truthy(Str("k1")) && Truthy(Str("k2")) && !Truthy(Undefined);
    assert ScanAll(last, [a, b, c, d]) == Some([a, b, c, d] + [e]);
    assert middle[1..] == last;
    assert ScanAll(middle, [a, b]) == ScanAll(last, [a, b] + [c, d]);
    assert pages[1..] == middle;
    assert ScanAll(pages, []) == ScanAll(middle, [] + [a, b]);
    assert [a, b, c, d] + [e] == [a, b, c, d, e];
    assert [] + [a, b] == [a, b] && [a, b] + [c, d] == [a, b, c, d];
    assert pages == [Some(Page([a, b], Str("k1"))), Some(Page([c, d], Str("k2"))), Some(Page([e], Undefined))];
  }
}
