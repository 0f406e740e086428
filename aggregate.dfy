/**
 * The final aggregate: `SELECT customer_id, SUM(order_total) FROM Orders
 * GROUP BY customer_id`, then one `UPDATE Customers SET total_spent = ?
 * WHERE customer_id = ?` per group. Customers without orders form no group
 * and keep the `total_spent` they were inserted with.
 */
module Aggregate {
  import opened Catalog
  import opened Orders
  import opened OrderIntegrity
  import opened Customers

  /**
   * `SUM(order_total)` over the orders of customer `cid`; a customer
   * without orders sums to 0.
   */
  function SpentBy(orders: seq<Order>, cid: int): (r: int)
    ensures !HasOrders(orders, cid) ==> r == 0
  {
    if |orders| == 0 then 0
    else
      var init, last := orders[..|orders| - 1], orders[|orders| - 1];
      assert HasOrders(init, cid) ==> HasOrders(orders, cid) by {
        assert forall k :: 0 <= k < |init| ==> init[k] == orders[k];
      }
      SpentBy(init, cid) + (if last.customerId == cid then last.total else 0)
  }

  /** Customer `cid` has a group in the `GROUP BY` result. */
  predicate HasOrders(orders: seq<Order>, cid: int)
  {
    exists k :: 0 <= k < |orders| && orders[k].customerId == cid
  }

  /** Sum of all order totals. */
  function Revenue(orders: seq<Order>): int
  {
    if |orders| == 0 then 0 else Revenue(orders[..|orders| - 1]) + orders[|orders| - 1].total
  }

  /** `SpentBy` summed over the customer ids 1 to `n`. */
  function SpentByAll(orders: seq<Order>, n: nat): int
  {
    if n == 0 then 0 else SpentByAll(orders, n - 1) + SpentBy(orders, n)
  }

  /** A customer row after the update: its group's sum if it has a group, otherwise untouched. */
  function WithTotalSpent(c: Customer, orders: seq<Order>): (r: Customer)
    ensures r == c.(totalSpent := r.totalSpent)
  {
    if HasOrders(orders, c.id) then c.(totalSpent := SpentBy(orders, c.id)) else c
  }

  /** The schema's `CHECK (order_total >= 0)` on every order row. */
  predicate TotalsNonNegative(orders: seq<Order>)
  {
    forall k :: 0 <= k < |orders| ==> orders[k].total >= 0
  }

  /** With non-negative order totals, every customer's sum is non-negative. */
  lemma {:induction false} SpentByNonNegative(orders: seq<Order>, cid: int)
    requires forall k :: 0 <= k < |orders| ==> orders[k].total >= 0
    ensures SpentBy(orders, cid) >= 0
  {
    if |orders| > 0 {
      var init := orders[..|orders| - 1];
      assert forall k :: 0 <= k < |init| ==> init[k] == orders[k];
      SpentByNonNegative(init, cid);
    }
  }

  /**
   * Rows inserted with `total_spent` 0 end with exactly their customer's
   * sum, whether or not the customer has orders.
   */
  lemma TotalSpentIsSpentBy(c: Customer, orders: seq<Order>)
    requires c.totalSpent == 0
    ensures WithTotalSpent(c, orders).totalSpent == SpentBy(orders, c.id)
  {
  }

  /** One more order adds its total to the sum over ids 1 to `n` exactly when its customer id is among them. */
  lemma {:induction false} SpentByAllSnoc(init: seq<Order>, o: Order, n: nat)
    ensures SpentByAll(init + [o], n) == SpentByAll(init, n) + (if 1 <= o.customerId <= n then o.total else 0)
  {
    var orders := init + [o];
    assert orders[..|orders| - 1] == init;
    if n > 0 {
      SpentByAllSnoc(init, o, n - 1);
    }
  }

  /**
   * When every order references a customer id 1 to `n`, the per-customer
   * sums of those ids add up to the sum of all order totals: no order's
   * total is lost or counted twice.
   */
  lemma {:induction false} SpendingConserved(orders: seq<Order>, n: nat)
    requires forall k :: 0 <= k < |orders| ==> 1 <= orders[k].customerId <= n
    ensures SpentByAll(orders, n) == Revenue(orders)
  {
    if |orders| == 0 {
      SpentByAllZero(n);
    } else {
      var init := orders[..|orders| - 1];
      var last := orders[|orders| - 1];
      assert forall k :: 0 <= k < |init| ==> init[k] == orders[k];
      SpendingConserved(init, n);
      assert orders == init + [last];
      SpentByAllSnoc(init, last, n);
    }
  }

  lemma {:induction false} SpentByAllZero(n: nat)
    ensures SpentByAll([], n) == 0
  {
    if n > 0 {
      SpentByAllZero(n - 1);
    }
  }

  /** The schema's `CHECK (unit_price >= 0)` and `CHECK (line_total >= 0)` on every item row. */
  predicate ItemValuesNonNegative(items: seq<OrderItem>)
  {
    forall j :: 0 <= j < |items| ==> items[j].unitPrice >= 0 && items[j].lineTotal >= 0
  }

  /**
   * The sign checks hold when the catalog's prices are non-negative: every
   * item's unit price and line total, and so every order total.
   */
  lemma OrderTotalsNonNegative(products: seq<Product>, orders: seq<Order>, items: seq<OrderItem>, shipments: seq<Shipment>)
    requires forall p :: 0 <= p < |products| ==> products[p].price >= 0
    requires Integrity(products, orders, items, shipments)
    ensures ItemValuesNonNegative(items)
    ensures forall k :: 0 <= k < |orders| ==> orders[k].total >= 0
  {
    forall j | 0 <= j < |items| ensures items[j].unitPrice >= 0 && items[j].lineTotal >= 0 {
      assert ItemPriced(products, items[j]);
      var p :| 0 <= p < |products| && products[p].id == items[j].productId && products[p].price == items[j].unitPrice;
    }
    forall k | 0 <= k < |orders| ensures orders[k].total >= 0 {
      ItemsTotalNonNegative(items, orders[k].id);
    }
  }

  /**
   * After the update of a table numbered 1, 2, ... whose `total_spent`
   * column is 0, row `k` holds the sum of customer `k + 1`'s orders, and no
   * other column has changed.
   */
  lemma {:induction false} UpdatedTotals(before: seq<Customer>, after: seq<Customer>, orders: seq<Order>)
    requires |after| == |before|
    requires forall k :: 0 <= k < |before| ==> before[k].id == k + 1 && before[k].totalSpent == 0
    requires forall k :: 0 <= k < |before| ==> after[k] == WithTotalSpent(before[k], orders)
    requires forall k :: 0 <= k < |orders| ==> orders[k].total >= 0
    ensures forall k :: 0 <= k < |after| ==>
      && after[k] == before[k].(totalSpent := after[k].totalSpent)
      && after[k].id == k + 1
      && after[k].totalSpent == SpentBy(orders, k + 1)
      && after[k].totalSpent >= 0
  {
    forall k | 0 <= k < |after|
      ensures after[k] == before[k].(totalSpent := after[k].totalSpent)
      ensures after[k].totalSpent == SpentBy(orders, k + 1) && after[k].totalSpent >= 0
    {
      TotalSpentIsSpentBy(before[k], orders);
      SpentByNonNegative(orders, k + 1);
    }
  }

  /** The `UPDATE` statements: every row is set from its own customer's group, if it has one. */
  method UpdateTotalSpent(customers: array<Customer>, orders: seq<Order>)
    modifies customers
    ensures forall k :: 0 <= k < customers.Length ==> customers[k] == WithTotalSpent(old(customers[k]), orders)
  {
    var k := 0;
    while k < customers.Length
      invariant 0 <= k <= customers.Length
      invariant forall t :: 0 <= t < k ==> customers[t] == WithTotalSpent(old(customers[t]), orders)
      invariant forall t :: k <= t < customers.Length ==> customers[t] == old(customers[t])
    {
      var cid := customers[k].id;
      if HasOrders(orders, cid) {
        customers[k] := customers[k].(totalSpent := SpentBy(orders, cid));
      }
      k := k + 1;
    }
  }
}
