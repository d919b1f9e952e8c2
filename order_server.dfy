/**
 * The order management demo service of
 * grpc-service/order-management-server/order-management-server.go: a map
 * of orders keyed by id, a lookup, a substring search that streams every
 * matching order once, a client stream of order updates answered with the
 * list of updated ids, and a pass-through unary interceptor. Map iteration
 * order is an input (`keys`), and `send(j)` is the error of the j-th send.
 */
module OrderManagement {
  import opened Wrappers
  import opened Grpc

  datatype Order = Order(id: string, items: seq<string>, destination: string, price: real)

  /** `strings.Contains`: does `substr` occur in `s`? */
  function Contains(s: string, substr: string): bool
    decreases |s|
  {
    if substr <= s then true
    else if s == [] then false
    else Contains(s[1..], substr)
  }

  /** `substr` occurs in `s` starting at position i. */
  predicate OccursAt(s: string, substr: string, i: nat)
  {
    i + |substr| <= |s| && s[i..i + |substr|] == substr
  }

  /** `Contains` finds `substr` exactly when it occurs somewhere in `s`. */
  lemma {:induction false} ContainsIffOccurs(s: string, substr: string)
    ensures Contains(s, substr) <==> exists i: nat :: OccursAt(s, substr, i)
    decreases |s|
  {
    if substr <= s {
      assert OccursAt(s, substr, 0);
    } else if s == [] {
      assert forall i: nat :: !OccursAt(s, substr, i);
    } else {
      ContainsIffOccurs(s[1..], substr);
      if exists i: nat :: OccursAt(s[1..], substr, i) {
        var i: nat :| OccursAt(s[1..], substr, i);
        assert s[1..][i..i + |substr|] == s[i + 1..i + 1 + |substr|];
        assert OccursAt(s, substr, i + 1);
      }
      if exists i: nat :: OccursAt(s, substr, i) {
        var i: nat :| OccursAt(s, substr, i);
        assert OccursAt(s, substr, 0) ==> substr <= s;
        assert s[1..][i - 1..i - 1 + |substr|] == s[i..i + |substr|];
        assert OccursAt(s[1..], substr, i - 1);
      }
    }
  }

  /** Some item of the order contains the query. */
  predicate Matches(order: Order, query: string)
  {
    exists j :: 0 <= j < |order.items| && Contains(order.items[j], query)
  }

  /** The keys, in the order listed, whose orders match the query. */
  function MatchingKeys(data: map<string, Order>, keys: seq<string>, query: string): (r: seq<string>)
    requires AllIn(data, keys)
    ensures AllIn(data, r) && |r| <= |keys|
  {
    if keys == [] then []
    else
      var prev := MatchingKeys(data, keys[..|keys| - 1], query);
      var key := keys[|keys| - 1];
      if Matches(data[key], query) then prev + [key] else prev
  }

  /** The orders stored under `ks`, in that order. */
  function OrdersAt(data: map<string, Order>, ks: seq<string>): (orders: seq<Order>)
    requires AllIn(data, ks)
    ensures |orders| == |ks|
  {
    if ks == [] then [] else OrdersAt(data, ks[..|ks| - 1]) + [data[ks[|ks| - 1]]]
  }

  /** Position i of the orders is the order stored under key i. */
  lemma {:induction false} OrdersAtLooksUp(data: map<string, Order>, ks: seq<string>)
    requires AllIn(data, ks)
    ensures forall i :: 0 <= i < |ks| ==> OrdersAt(data, ks)[i] == data[ks[i]]
  {
    if ks != [] {
      var n := |ks| - 1;
      OrdersAtLooksUp(data, ks[..n]);
    }
  }

  /** A key is reported exactly when it is listed and its order matches. */
  lemma {:induction false} MatchingKeysExact(data: map<string, Order>, keys: seq<string>, query: string)
    requires AllIn(data, keys)
    ensures forall k :: k in MatchingKeys(data, keys, query) <==> k in keys && Matches(data[k], query)
  {
    if keys != [] {
      var n := |keys| - 1;
      var init := keys[..n];
      MatchingKeysExact(data, init, query);
      assert forall k :: k in keys <==> k in init || k == keys[n];
    }
  }

  /** No key is reported twice when the iteration order lists each key once. */
  lemma {:induction false} MatchingKeysDistinct(data: map<string, Order>, keys: seq<string>, query: string)
    requires AllIn(data, keys) && Distinct(keys)
    ensures Distinct(MatchingKeys(data, keys, query))
  {
    if keys != [] {
      var n := |keys| - 1;
      var init := keys[..n];
      assert Distinct(init) by {
        forall i, j | 0 <= i < j < |init| ensures init[i] != init[j] {
          assert init[i] == keys[i] && init[j] == keys[j];
        }
      }
      MatchingKeysDistinct(data, init, query);
      MatchingKeysExact(data, init, query);
    }
  }

  /** Scanning fewer keys reports a prefix of what scanning more keys reports. */
  lemma {:induction false} MatchingKeysPrefix(data: map<string, Order>, keys: seq<string>, query: string, a: nat)
    requires AllIn(data, keys) && a <= |keys|
    ensures MatchingKeys(data, keys[..a], query) <= MatchingKeys(data, keys, query)
    decreases |keys|
  {
    if a < |keys| {
      var n := |keys| - 1;
      assert keys[..n][..a] == keys[..a];
      MatchingKeysPrefix(data, keys[..n], query, a);
    } else {
      assert keys[..a] == keys;
    }
  }

  /** What `SearchOrders` sends and returns: the matching orders up to and including the first failed send. */
  function SearchResult(data: map<string, Order>, keys: seq<string>, query: string, send: nat -> Option<string>)
    : (r: (seq<Order>, Option<string>))
    requires AllIn(data, keys)
  {
    var m := MatchingKeys(data, keys, query);
    var f := FirstFailure(send, |m|);
    if f < |m| then (OrdersAt(data, m[..f + 1]), Some("error sending message through the stream: " + send(f).value))
    else (OrdersAt(data, m), None)
  }

  /**
   * A search whose sends all succeed sends every matching order, in the
   * iteration order; a failed send ends the search with its error right
   * after it, every send before it having succeeded.
   */
  lemma SearchStopsAtFirstFailedSend(data: map<string, Order>, keys: seq<string>, query: string, send: nat -> Option<string>)
    requires AllIn(data, keys)
    ensures var m := MatchingKeys(data, keys, query);
            (forall j :: 0 <= j < |m| ==> send(j).None?) ==> SearchResult(data, keys, query, send) == (OrdersAt(data, m), None)
    ensures var (sent, err) := SearchResult(data, keys, query, send);
            err.Some? ==> 0 < |sent| <= |MatchingKeys(data, keys, query)| && send(|sent| - 1).Some?
                          && err == Some("error sending message through the stream: " + send(|sent| - 1).value)
                          && forall j :: 0 <= j < |sent| - 1 ==> send(j).None?
  {
  }

  /** The id list `UpdateOrders` builds: the prefix, then every id followed by ", ". */
  function IdsReply(updates: seq<Order>): string
  {
    if updates == [] then "Updated Orders IDs: "
    else IdsReply(updates[..|updates| - 1]) + updates[|updates| - 1].id + ", "
  }

  /** The ids, each followed by ", ", read front to back. */
  function IdList(updates: seq<Order>): string
  {
    if updates == [] then "" else updates[0].id + ", " + IdList(updates[1..])
  }

  /** The id list is the fixed prefix followed by the ids in receive order. */
  lemma {:induction false} IdsReplyLists(updates: seq<Order>)
    ensures IdsReply(updates) == "Updated Orders IDs: " + IdList(updates)
    decreases |updates|
  {
    if updates != [] {
      var n := |updates| - 1;
      IdsReplyLists(updates[..n]);
      IdListSnoc(updates[..n], updates[n]);
      assert updates[..n] + [updates[n]] == updates;
    }
  }

  /** Appending one order appends its entry to the id list. */
  lemma {:induction false} IdListSnoc(updates: seq<Order>, last: Order)
    ensures IdList(updates + [last]) == IdList(updates) + last.id + ", "
    decreases |updates|
  {
    if updates != [] {
      assert (updates + [last])[1..] == updates[1..] + [last];
      IdListSnoc(updates[1..], last);
    }
  }

  /** The map after storing each update under its id, in order. */
  function ApplyUpdates(orders: map<string, Order>, updates: seq<Order>): map<string, Order>
  {
    if updates == [] then orders
    else ApplyUpdates(orders, updates[..|updates| - 1])[updates[|updates| - 1].id := updates[|updates| - 1]]
  }

  /** Last write wins: an update that no later update overrides is what its id holds afterwards. */
  lemma {:induction false} LastUpdateWins(orders: map<string, Order>, updates: seq<Order>, i: nat)
    requires i < |updates|
    requires forall j :: i < j < |updates| ==> updates[j].id != updates[i].id
    ensures updates[i].id in ApplyUpdates(orders, updates)
    ensures ApplyUpdates(orders, updates)[updates[i].id] == updates[i]
    decreases |updates|
  {
    var n := |updates| - 1;
    if i < n {
      var init := updates[..n];
      assert updates[n].id != updates[i].id;
      assert forall j :: i <= j < n ==> init[j] == updates[j];
      LastUpdateWins(orders, init, i);
    }
  }

  /** An id that no update names keeps what it had, or stays absent. */
  lemma {:induction false} UnnamedIdKept(orders: map<string, Order>, updates: seq<Order>, id: string)
    requires forall i :: 0 <= i < |updates| ==> updates[i].id != id
    ensures id in ApplyUpdates(orders, updates) <==> id in orders
    ensures id in orders ==> ApplyUpdates(orders, updates)[id] == orders[id]
    decreases |updates|
  {
    if updates != [] {
      var n := |updates| - 1;
      var init := updates[..n];
      assert updates[n].id != id;
      assert forall i :: 0 <= i < n ==> init[i] == updates[i];
      UnnamedIdKept(orders, init, id);
    }
  }

  /** The unary interceptor: logs around the handler and returns its (response, error) unchanged. */
  function UnaryInterceptor<Req, Resp>(req: Req, handler: Req -> Result<Resp, Status>): (r: Result<Resp, Status>)
    ensures r == handler(req)
  {
    var reply := handler(req);
    reply
  }

  /** The orders `initSampleData` seeds, keyed by id. */
  function SampleOrders(): map<string, Order>
  {
    map[
      "102" := Order("102", ["Google Pixel 3A", "Mac Book Pro"], "Mountain View, CA", 1800.00),
      "103" := Order("103", ["Apple Watch S4"], "San Jose, CA", 400.00),
      "104" := Order("104", ["Google Home Mini", "Google Nest Hub"], "Mountain View, CA", 400.00),
      "105" := Order("105", ["Amazon Echo"], "San Jose, CA", 30.00),
      "106" := Order("106", ["Amazon Echo", "Apple iPhone XS"], "Mountain View, CA", 300.00)
    ]
  }

  /** Every order filed under its own id. */
  ghost predicate KeyedById(orders: map<string, Order>)
  {
    forall id :: id in orders ==> orders[id].id == id
  }

  /** The sample orders are 102 to 106, each filed under its own id. */
  lemma SampleOrdersKeyedById()
    ensures SampleOrders().Keys == {"102", "103", "104", "105", "106"}
    ensures KeyedById(SampleOrders())
  {
  }

  /** The server; the package-level `orderMap` is its field. */
  class OrderManagementServer {
    var orderMap: map<string, Order>

    ghost predicate Valid()
      reads this
    {
      KeyedById(orderMap)
    }

    constructor ()
      ensures Valid() && orderMap == map[]
    {
      orderMap := map[];
    }

    /** `initSampleData`: files orders 102 to 106 under their ids, replacing any order already there. */
    method InitSampleData()
      requires Valid()
      modifies this
      ensures Valid()
      ensures orderMap == old(orderMap) + SampleOrders()
    {
      SampleOrdersKeyedById();
      orderMap := orderMap + SampleOrders();
    }

    /** `GetOrder`: the stored order, or NotFound. */
    method GetOrder(orderId: string) returns (r: Result<Order, Status>)
      requires Valid()
      ensures orderId in orderMap ==> r == Success(orderMap[orderId]) && r.value.id == orderId
      ensures orderId !in orderMap ==> r == Failure(Status(NotFound, "Order with " + orderId + " not found."))
    {
      if orderId in orderMap {
        return Success(orderMap[orderId]);
      }
      return Failure(Status(NotFound, "Order with " + orderId + " not found."));
    }

    /**
     * `UpdateOrders`: receive orders until EOF, filing each under its id and
     * appending its id to the reply; at EOF send the reply and return what
     * `SendAndClose` returns (`closeError`).
     */
    method UpdateOrders(updates: seq<Order>, closeError: Option<string>) returns (reply: string, err: Option<string>)
      requires Valid()
      modifies this
      ensures Valid()
      ensures orderMap == ApplyUpdates(old(orderMap), updates)
      ensures reply == "Orders Processed: " + IdsReply(updates) + "\n"
      ensures err == closeError
    {
      var ordersStr := "Updated Orders IDs: ";
      var i := 0;
      while i < |updates|
        invariant 0 <= i <= |updates|
        invariant Valid()
        invariant orderMap == ApplyUpdates(old(orderMap), updates[..i])
        invariant ordersStr == IdsReply(updates[..i])
      {
        assert updates[..i + 1][..i] == updates[..i];
        orderMap := orderMap[updates[i].id := updates[i]];
        ordersStr := ordersStr + updates[i].id + ", ";
        i := i + 1;
      }
      assert updates[..i] == updates;
      return "Orders Processed: " + ordersStr + "\n", closeError;
    }

    /**
     * `SearchOrders`: for each order in the iteration order `keys`, scan its
     * items and send the order at the first item containing the query.
     * Returns the orders handed to `Send` and the returned error.
     */
    method SearchOrders(query: string, keys: seq<string>, send: nat -> Option<string>)
      returns (sent: seq<Order>, err: Option<string>)
      requires Distinct(keys) && (forall k :: k in orderMap <==> k in keys)
      ensures AllIn(orderMap, keys)
      ensures (sent, err) == SearchResult(orderMap, keys, query, send)
    {
      assert AllIn(orderMap, keys);
      sent, err := ScanOrders(orderMap, keys, query, send);
    }
  }

  /** The outer loop of `SearchOrders` over the orders stored under `keys`, in that order. */
  method ScanOrders(data: map<string, Order>, keys: seq<string>, query: string, send: nat -> Option<string>)
    returns (sent: seq<Order>, err: Option<string>)
    requires AllIn(data, keys)
    ensures (sent, err) == SearchResult(data, keys, query, send)
  {
    sent := [];
    var i := 0;
    assert keys[..0] == [];
    while i < |keys|
      invariant 0 <= i <= |keys|
      invariant sent == OrdersAt(data, MatchingKeys(data, keys[..i], query))
      invariant FirstFailure(send, |sent|) == |sent|
    {
      var order := data[keys[i]];
      var matched := MatchesQuery(order, query);
      MatchingKeysStep(data, keys, query, i);
      if matched {
        var e := send(|sent|);
        sent := sent + [order];
        if e.Some? {
          SearchFailedAt(data, keys, query, send, i);
          return sent, Some("error sending message through the stream: " + e.value);
        }
      }
      i := i + 1;
    }
    assert keys[..i] == keys;
    err := None;
    SearchCompleted(data, keys, query, send);
  }

  /** The inner loop of `SearchOrders`: scan the items until one contains the query. */
  method MatchesQuery(order: Order, query: string) returns (matched: bool)
    ensures matched == Matches(order, query)
  {
    var j := 0;
    while j < |order.items|
      invariant 0 <= j <= |order.items|
      invariant forall t :: 0 <= t < j ==> !Contains(order.items[t], query)
    {
      if Contains(order.items[j], query) {
        return true;
      }
      j := j + 1;
    }
    return false;
  }

  /** One more key extends the matching keys by that key exactly when its order matches. */
  lemma MatchingKeysStep(data: map<string, Order>, keys: seq<string>, query: string, i: nat)
    requires AllIn(data, keys) && i < |keys|
    ensures AllIn(data, keys[..i]) && AllIn(data, keys[..i + 1])
    ensures var prev := MatchingKeys(data, keys[..i], query);
            MatchingKeys(data, keys[..i + 1], query) == if Matches(data[keys[i]], query) then prev + [keys[i]] else prev
    ensures var prev := MatchingKeys(data, keys[..i], query);
            OrdersAt(data, prev + [keys[i]]) == OrdersAt(data, prev) + [data[keys[i]]]
  {
    assert keys[..i + 1][..i] == keys[..i];
    var prev := MatchingKeys(data, keys[..i], query);
    assert (prev + [keys[i]])[..|prev|] == prev;
  }

  /** The search result when every send succeeded. */
  lemma SearchCompleted(data: map<string, Order>, keys: seq<string>, query: string, send: nat -> Option<string>)
    requires AllIn(data, keys)
    requires FirstFailure(send, |MatchingKeys(data, keys, query)|) == |MatchingKeys(data, keys, query)|
    ensures SearchResult(data, keys, query, send) == (OrdersAt(data, MatchingKeys(data, keys, query)), None)
  {
  }

  /** The search result when the send for the order under `keys[i]` is the first to fail. */
  lemma SearchFailedAt(data: map<string, Order>, keys: seq<string>, query: string, send: nat -> Option<string>, i: nat)
    requires AllIn(data, keys) && i < |keys|
    requires var q := MatchingKeys(data, keys[..i + 1], query);
             |q| > 0 && FirstFailure(send, |q| - 1) == |q| - 1 && send(|q| - 1).Some?
    ensures var q := MatchingKeys(data, keys[..i + 1], query);
            SearchResult(data, keys, query, send) ==
              (OrdersAt(data, q), Some("error sending message through the stream: " + send(|q| - 1).value))
  {
    var q := MatchingKeys(data, keys[..i + 1], query);
    var m := MatchingKeys(data, keys, query);
    MatchingKeysPrefix(data, keys, query, i + 1);
    assert FirstFailure(send, |m|) == |q| - 1;
    assert m[..|q|] == q;
  }
}
