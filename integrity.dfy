/**
 * The rows that the order loops produce satisfy the database schema's
 * primary keys, foreign keys, item numbering, order totals and shipment
 * dates. The two sign checks on totals hold when catalog prices are
 * non-negative (`Aggregate.OrderTotalsNonNegative`).
 *
 * The inductive lemmas peel off the last plan; each step is discharged by a
 * lemma about plain sequences (one table followed by the rows of one more
 * order), which keeps the recursive table functions out of the arithmetic.
 */
module OrderIntegrity {
  import opened Config
  import opened Dates
  import opened Catalog
  import opened Orders

  // ---------------------------------------------------------------------
  // Sequences
  // ---------------------------------------------------------------------

  lemma AppendAssoc<T>(a: seq<T>, b: seq<T>, c: seq<T>)
    ensures (a + b) + c == a + (b + c)
  {
  }

  lemma Regroup<T>(x: seq<T>, y: seq<T>, a: seq<T>, b: seq<T>, l: seq<T>, z: seq<T>)
    requires x == y + l && y == a + b && z == b + l
    ensures x == a + z
  {
  }

  lemma DropLastOfAppend<T>(a: seq<T>, b: seq<T>)
    requires |b| > 0
    ensures (a + b)[..|a + b| - 1] == a + b[..|b| - 1]
    ensures (a + b)[|a + b| - 1] == b[|b| - 1]
  {
  }

  // ---------------------------------------------------------------------
  // One order's rows
  // ---------------------------------------------------------------------

  /** The rows of order `id`: every one carries `id`, and they are numbered 1, 2, ... */
  predicate OwnedLines(lines: seq<OrderItem>, id: int)
  {
    forall j :: 0 <= j < |lines| ==> lines[j].orderId == id && lines[j].itemNo == j + 1
  }

  /** Every item belongs to one of the orders `lo` to `hi - 1`. */
  predicate IdsWithin(items: seq<OrderItem>, lo: int, hi: int)
  {
    forall j :: 0 <= j < |items| ==> lo <= items[j].orderId < hi
  }

  /** Line `j` of an order is item number `j + 1`, built from the `j`-th draw. */
  lemma {:induction false} LinesAt(products: seq<Product>, ds: seq<ItemDraw>, orderId: int)
    requires forall j :: 0 <= j < |ds| ==> ds[j].product < |products|
    ensures forall j :: 0 <= j < |ds| ==> Lines(products, ds, orderId)[j] == Line(products, ds[j], orderId, j + 1)
  {
    if |ds| > 0 {
      var init := ds[..|ds| - 1];
      LinesAt(products, init, orderId);
      forall j | 0 <= j < |ds| ensures Lines(products, ds, orderId)[j] == Line(products, ds[j], orderId, j + 1) {
        if j < |init| { assert init[j] == ds[j]; }
      }
    }
  }

  lemma LinesOwned(products: seq<Product>, ds: seq<ItemDraw>, orderId: int)
    requires forall j :: 0 <= j < |ds| ==> ds[j].product < |products|
    ensures OwnedLines(Lines(products, ds, orderId), orderId)
  {
    LinesAt(products, ds, orderId);
  }

  /** A line carries its product's id and price, the drawn quantity and a total within the gross amount. */
  lemma LinePriced(products: seq<Product>, d: ItemDraw, orderId: int, itemNo: int)
    requires d.product < |products|
    requires 1 <= d.quantity <= 5
    ensures ItemPriced(products, Line(products, d, orderId, itemNo))
  {
    var it := Line(products, d, orderId, itemNo);
    assert products[d.product].id == it.productId && products[d.product].price == it.unitPrice;
  }

  lemma LinesPriced(products: seq<Product>, ds: seq<ItemDraw>, orderId: int)
    requires forall j :: 0 <= j < |ds| ==> ds[j].product < |products| && 1 <= ds[j].quantity <= 5
    ensures ItemsPriced(products, Lines(products, ds, orderId))
  {
    LinesAt(products, ds, orderId);
    forall j | 0 <= j < |ds| ensures ItemPriced(products, Lines(products, ds, orderId)[j]) {
      LinePriced(products, ds[j], orderId, j + 1);
    }
  }

  /** The shipment row of an order, if any, references it and has dates consistent with the order date. */
  lemma PlannedShipmentsOwned(p: Plan, id: int)
    requires ValidShipmentPlan(p.shipment)
    ensures forall s :: 0 <= s < |PlannedShipments(p, id)| ==>
      PlannedShipments(p, id)[s].orderId == id && ShipmentDatesOk(PlannedShipments(p, id)[s], p.date)
  {
  }

  // ---------------------------------------------------------------------
  // Appending one order's rows
  // ---------------------------------------------------------------------

  lemma IdsWithinAppend(a: seq<OrderItem>, lines: seq<OrderItem>, lo: int, id: int)
    requires IdsWithin(a, lo, id) && OwnedLines(lines, id) && lo <= id
    ensures IdsWithin(a + lines, lo, id + 1)
  {
    forall j | 0 <= j < |a + lines| ensures lo <= (a + lines)[j].orderId < id + 1 {
      if j < |a| { assert (a + lines)[j] == a[j]; } else { assert (a + lines)[j] == lines[j - |a|]; }
    }
  }

  lemma KeysAppend(a: seq<OrderItem>, lines: seq<OrderItem>, lo: int, id: int)
    requires ItemKeysAscending(a) && IdsWithin(a, lo, id) && OwnedLines(lines, id)
    ensures ItemKeysAscending(a + lines)
  {
    var all := a + lines;
    forall j1, j2 | 0 <= j1 < j2 < |all| ensures KeyBefore(all[j1], all[j2]) {
      if j2 < |a| {
        assert all[j1] == a[j1] && all[j2] == a[j2];
      } else if j1 < |a| {
        assert all[j1] == a[j1] && all[j2] == lines[j2 - |a|];
      } else {
        assert all[j1] == lines[j1 - |a|] && all[j2] == lines[j2 - |a|];
      }
    }
  }

  lemma NumberedAppend(a: seq<OrderItem>, lines: seq<OrderItem>, id: int)
    requires ItemsNumbered(a) && OwnedLines(lines, id) && |lines| <= 4
    ensures ItemsNumbered(a + lines)
  {
    var all := a + lines;
    forall j | 0 <= j < |all| ensures NumberedAt(all, j) {
      if j < |a| {
        assert NumberedAt(a, j);
        assert all[j] == a[j];
        if 0 < j { assert all[j - 1] == a[j - 1]; }
      } else {
        var i := j - |a|;
        assert all[j] == lines[i];
        if i > 0 { assert all[j - 1] == lines[i - 1]; }
      }
    }
  }

  lemma ItemsPricedAppend(products: seq<Product>, a: seq<OrderItem>, b: seq<OrderItem>)
    requires ItemsPriced(products, a) && ItemsPriced(products, b)
    ensures ItemsPriced(products, a + b)
  {
    forall j | 0 <= j < |a + b| ensures ItemPriced(products, (a + b)[j]) {
      if j < |a| { assert (a + b)[j] == a[j]; } else { assert (a + b)[j] == b[j - |a|]; }
    }
  }

  /** Shipments in plan order: ascending order ids, each within the plans and dated after its plan's date. */
  predicate ShipmentsMatchPlans(ss: seq<Shipment>, plans: seq<Plan>, first: int)
  {
    && ShipmentsAscending(ss)
    && forall s :: 0 <= s < |ss| ==>
      first <= ss[s].orderId < first + |plans| && ShipmentDatesOk(ss[s], plans[ss[s].orderId - first].date)
  }

  lemma ShipmentsMatchAppend(a: seq<Shipment>, b: seq<Shipment>, plans: seq<Plan>, first: int)
    requires |plans| > 0
    requires ShipmentsMatchPlans(a, plans[..|plans| - 1], first)
    requires forall s :: 0 <= s < |b| ==>
      b[s].orderId == first + |plans| - 1 && ShipmentDatesOk(b[s], plans[|plans| - 1].date)
    requires |b| <= 1
    ensures ShipmentsMatchPlans(a + b, plans, first)
  {
    var init := plans[..|plans| - 1];
    var all := a + b;
    forall s1, s2 | 0 <= s1 < s2 < |all| ensures all[s1].orderId < all[s2].orderId {
      if s2 < |a| {
        assert all[s1] == a[s1] && all[s2] == a[s2];
      } else {
        assert all[s1] == a[s1] && all[s2] == b[s2 - |a|];
      }
    }
    forall s | 0 <= s < |all|
      ensures first <= all[s].orderId < first + |plans|
      ensures ShipmentDatesOk(all[s], plans[all[s].orderId - first].date)
    {
      if s < |a| {
        assert all[s] == a[s];
        assert init[a[s].orderId - first] == plans[a[s].orderId - first];
      } else {
        assert all[s] == b[s - |a|];
      }
    }
  }

  // ---------------------------------------------------------------------
  // Sums over items
  // ---------------------------------------------------------------------

  lemma {:induction false} ItemsTotalAppend(a: seq<OrderItem>, b: seq<OrderItem>, id: int)
    ensures ItemsTotal(a + b, id) == ItemsTotal(a, id) + ItemsTotal(b, id)
    ensures ItemCount(a + b, id) == ItemCount(a, id) + ItemCount(b, id)
  {
    if |b| == 0 {
      assert a + b == a;
    } else {
      var init := b[..|b| - 1];
      ItemsTotalAppend(a, init, id);
      assert (a + b)[..|a + b| - 1] == a + init;
    }
  }

  /** A sum of non-negative line totals is not negative (the check on `order_total`). */
  lemma {:induction false} ItemsTotalNonNegative(a: seq<OrderItem>, id: int)
    requires forall j :: 0 <= j < |a| ==> a[j].lineTotal >= 0
    ensures ItemsTotal(a, id) >= 0
  {
    if |a| > 0 {
      ItemsTotalNonNegative(a[..|a| - 1], id);
    }
  }

  lemma {:induction false} ItemsTotalAbsent(a: seq<OrderItem>, id: int)
    requires forall j :: 0 <= j < |a| ==> a[j].orderId != id
    ensures ItemsTotal(a, id) == 0 && ItemCount(a, id) == 0
  {
    if |a| > 0 {
      ItemsTotalAbsent(a[..|a| - 1], id);
    }
  }

  lemma {:induction false} ItemCountAll(a: seq<OrderItem>, id: int)
    requires forall j :: 0 <= j < |a| ==> a[j].orderId == id
    ensures ItemCount(a, id) == |a|
  {
    if |a| > 0 {
      ItemCountAll(a[..|a| - 1], id);
    }
  }

  /** Order `id` of `items` has exactly the sum and the number of items of `own`. */
  predicate SumsAs(items: seq<OrderItem>, id: int, own: seq<OrderItem>)
  {
    ItemsTotal(items, id) == ItemsTotal(own, id) && ItemCount(items, id) == |own|
  }

  /** Adding the lines of a new order leaves the sums of the orders before it unchanged. */
  lemma SumsAfterLines(a: seq<OrderItem>, lines: seq<OrderItem>, id: int, other: int, own: seq<OrderItem>)
    requires OwnedLines(lines, id)
    requires other != id
    requires SumsAs(a, other, own)
    ensures SumsAs(a + lines, other, own)
  {
    ItemsTotalAppend(a, lines, other);
    ItemsTotalAbsent(lines, other);
  }

  /** The sums of a new order's lines, once appended after items of earlier orders, are those of its lines alone. */
  lemma SumsOfLines(a: seq<OrderItem>, lines: seq<OrderItem>, lo: int, id: int)
    requires OwnedLines(lines, id)
    requires IdsWithin(a, lo, id)
    ensures SumsAs(a + lines, id, lines)
  {
    ItemsTotalAppend(a, lines, id);
    ItemsTotalAbsent(a, id);
    ItemCountAll(lines, id);
  }

  // ---------------------------------------------------------------------
  // Peeling off the last plan
  // ---------------------------------------------------------------------

  /** All plans but the last still fit, and the items of `plans` are theirs followed by the last plan's lines. */
  lemma ItemsOfSplit(products: seq<Product>, plans: seq<Plan>, first: int)
    requires PlansFit(plans, |products|)
    requires |plans| > 0
    ensures PlansFit(plans[..|plans| - 1], |products|)
    ensures ItemsOf(products, plans, first)
         == ItemsOf(products, plans[..|plans| - 1], first) + Lines(products, plans[|plans| - 1].items, first + |plans| - 1)
  {
    var n := |plans| - 1;
    assert PlansFit(plans[..n], |products|) by {
      forall k | 0 <= k < n ensures PlanFits(plans[..n][k], |products|) {
        assert plans[..n][k] == plans[k];
      }
    }
  }

  /** All plans but the last still have valid shipment draws, and their shipments come first. */
  lemma ShipmentsOfSplit(plans: seq<Plan>, first: int)
    requires ShipmentsDrawn(plans)
    requires |plans| > 0
    ensures ShipmentsDrawn(plans[..|plans| - 1])
    ensures ShipmentsOf(plans, first)
         == ShipmentsOf(plans[..|plans| - 1], first) + PlannedShipments(plans[|plans| - 1], first + |plans| - 1)
  {
    var n := |plans| - 1;
    forall k | 0 <= k < n ensures ValidShipmentPlan(plans[..n][k].shipment) {
      assert plans[..n][k] == plans[k];
    }
  }

  /** Order `k` of `plans` is the order row of plan `k`, with id `first + k`. */
  lemma {:induction false} OrdersOfAt(products: seq<Product>, plans: seq<Plan>, first: int)
    requires PlansFit(plans, |products|)
    ensures forall k :: 0 <= k < |plans| ==> OrdersOf(products, plans, first)[k] == PlannedOrder(products, plans[k], first + k)
  {
    if |plans| > 0 {
      var n := |plans| - 1;
      var init := plans[..n];
      ItemsOfSplit(products, plans, first);
      OrdersOfAt(products, init, first);
      forall k | 0 <= k < |plans|
        ensures OrdersOf(products, plans, first)[k] == PlannedOrder(products, plans[k], first + k)
      {
        if k < n { assert init[k] == plans[k]; }
      }
    }
  }

  /** Order `k` of `plans` has id `first + k` and the customer, date and promo code of plan `k`. */
  lemma OrdersOfFields(products: seq<Product>, plans: seq<Plan>, first: int)
    requires PlansFit(plans, |products|)
    ensures forall k :: 0 <= k < |plans| ==>
      && OrdersOf(products, plans, first)[k].id == first + k
      && OrdersOf(products, plans, first)[k].customerId == plans[k].customerId
      && OrdersOf(products, plans, first)[k].date == plans[k].date
      && OrdersOf(products, plans, first)[k].promo == plans[k].promo
  {
    OrdersOfAt(products, plans, first);
  }

  /** Every item of `plans` belongs to one of their orders, ids `first` to `first + |plans| - 1`. */
  lemma {:induction false} ItemsOfRange(products: seq<Product>, plans: seq<Plan>, first: int)
    requires PlansFit(plans, |products|)
    ensures IdsWithin(ItemsOf(products, plans, first), first, first + |plans|)
  {
    if |plans| > 0 {
      var n := |plans| - 1;
      var lastId := first + n;
      ItemsOfSplit(products, plans, first);
      ItemsOfRange(products, plans[..n], first);
      LinesOwned(products, plans[n].items, lastId);
      IdsWithinAppend(ItemsOf(products, plans[..n], first), Lines(products, plans[n].items, lastId), first, lastId);
    }
  }

  lemma {:induction false} ItemsOfKeysAscending(products: seq<Product>, plans: seq<Plan>, first: int)
    requires PlansFit(plans, |products|)
    ensures ItemKeysAscending(ItemsOf(products, plans, first))
  {
    if |plans| > 0 {
      var n := |plans| - 1;
      var lastId := first + n;
      ItemsOfSplit(products, plans, first);
      ItemsOfKeysAscending(products, plans[..n], first);
      ItemsOfRange(products, plans[..n], first);
      LinesOwned(products, plans[n].items, lastId);
      KeysAppend(ItemsOf(products, plans[..n], first), Lines(products, plans[n].items, lastId), first, lastId);
    }
  }

  lemma {:induction false} ItemsOfNumbered(products: seq<Product>, plans: seq<Plan>, first: int)
    requires PlansFit(plans, |products|)
    requires forall k :: 0 <= k < |plans| ==> |plans[k].items| <= 4
    ensures ItemsNumbered(ItemsOf(products, plans, first))
  {
    if |plans| > 0 {
      var n := |plans| - 1;
      var lastId := first + n;
      var init := plans[..n];
      ItemsOfSplit(products, plans, first);
      assert forall k :: 0 <= k < n ==> init[k] == plans[k];
      ItemsOfNumbered(products, init, first);
      LinesOwned(products, plans[n].items, lastId);
      NumberedAppend(ItemsOf(products, init, first), Lines(products, plans[n].items, lastId), lastId);
    }
  }

  lemma {:induction false} ItemsOfPriced(products: seq<Product>, plans: seq<Plan>, first: int)
    requires PlansFit(plans, |products|)
    requires QuantitiesDrawn(plans)
    ensures ItemsPriced(products, ItemsOf(products, plans, first))
  {
    if |plans| > 0 {
      var n := |plans| - 1;
      var lastId := first + n;
      var init := plans[..n];
      ItemsOfSplit(products, plans, first);
      assert QuantitiesDrawn(init) by {
        forall k | 0 <= k < n ensures init[k] == plans[k] { }
      }
      ItemsOfPriced(products, init, first);
      assert PlanFits(plans[n], |products|);
      LinesPriced(products, plans[n].items, lastId);
      ItemsPricedAppend(products, ItemsOf(products, init, first), Lines(products, plans[n].items, lastId));
    }
  }

  /** The last plan's order owns exactly that plan's lines. */
  lemma ItemsOfTotalsLast(products: seq<Product>, plans: seq<Plan>, first: int)
    requires PlansFit(plans, |products|)
    requires |plans| > 0
    ensures SumsAs(ItemsOf(products, plans, first), first + |plans| - 1, Lines(products, plans[|plans| - 1].items, first + |plans| - 1))
  {
    var n := |plans| - 1;
    var lastId := first + n;
    ItemsOfSplit(products, plans, first);
    var a := ItemsOf(products, plans[..n], first);
    var lines := Lines(products, plans[n].items, lastId);
    assert IdsWithin(a, first, lastId) by {
      ItemsOfRange(products, plans[..n], first);
    }
    assert OwnedLines(lines, lastId) by {
      LinesOwned(products, plans[n].items, lastId);
    }
    SumsOfLines(a, lines, first, lastId);
  }

  /** The last plan's lines leave the sums of the earlier orders as they were. */
  lemma ItemsOfTotalsEarlier(products: seq<Product>, plans: seq<Plan>, first: int, k: nat, own: seq<OrderItem>)
    requires PlansFit(plans, |products|)
    requires k < |plans| - 1
    requires PlansFit(plans[..|plans| - 1], |products|)
    requires SumsAs(ItemsOf(products, plans[..|plans| - 1], first), first + k, own)
    ensures SumsAs(ItemsOf(products, plans, first), first + k, own)
  {
    var n := |plans| - 1;
    var lastId := first + n;
    ItemsOfSplit(products, plans, first);
    var a := ItemsOf(products, plans[..n], first);
    var lines := Lines(products, plans[n].items, lastId);
    assert OwnedLines(lines, lastId) by {
      LinesOwned(products, plans[n].items, lastId);
    }
    SumsAfterLines(a, lines, lastId, first + k, own);
  }

  /** Order `first + k` owns exactly the lines of plan `k`: same sum, same number of items. */
  lemma {:induction false} ItemsOfTotals(products: seq<Product>, plans: seq<Plan>, first: int, k: nat)
    requires PlansFit(plans, |products|)
    requires k < |plans|
    ensures SumsAs(ItemsOf(products, plans, first), first + k, Lines(products, plans[k].items, first + k))
  {
    var n := |plans| - 1;
    if k < n {
      var init := plans[..n];
      ItemsOfSplit(products, plans, first);
      assert init[k] == plans[k];
      ItemsOfTotals(products, init, first, k);
      ItemsOfTotalsEarlier(products, plans, first, k, Lines(products, plans[k].items, first + k));
    } else {
      ItemsOfTotalsLast(products, plans, first);
    }
  }

  /** The shipments of `plans` ascend by order id, reference their orders and are dated after them. */
  lemma {:induction false} ShipmentsOfMatch(plans: seq<Plan>, first: int)
    requires ShipmentsDrawn(plans)
    ensures ShipmentsMatchPlans(ShipmentsOf(plans, first), plans, first)
  {
    if |plans| > 0 {
      var n := |plans| - 1;
      var lastId := first + n;
      ShipmentsOfSplit(plans, first);
      ShipmentsOfMatch(plans[..n], first);
      PlannedShipmentsOwned(plans[n], lastId);
      ShipmentsMatchAppend(ShipmentsOf(plans[..n], first), PlannedShipments(plans[n], lastId), plans, first);
    }
  }

  // ---------------------------------------------------------------------
  // Concatenating plans
  // ---------------------------------------------------------------------

  lemma PlansFitAppend(p1: seq<Plan>, p2: seq<Plan>, productCount: nat)
    requires PlansFit(p1, productCount) && PlansFit(p2, productCount)
    ensures PlansFit(p1 + p2, productCount)
  {
    forall k | 0 <= k < |p1 + p2| ensures PlanFits((p1 + p2)[k], productCount) {
      if k >= |p1| { assert (p1 + p2)[k] == p2[k - |p1|]; }
    }
  }

  lemma PlansValidAppend(p1: seq<Plan>, p2: seq<Plan>, productCount: nat)
    requires PlansValid(p1, productCount) && PlansValid(p2, productCount)
    ensures PlansValid(p1 + p2, productCount)
  {
    forall k | 0 <= k < |p1 + p2| ensures ValidPlan((p1 + p2)[k], productCount) {
      if k >= |p1| { assert (p1 + p2)[k] == p2[k - |p1|]; }
    }
  }

  lemma ShipmentsDrawnAppend(p1: seq<Plan>, p2: seq<Plan>)
    requires ShipmentsDrawn(p1) && ShipmentsDrawn(p2)
    ensures ShipmentsDrawn(p1 + p2)
  {
    forall k | 0 <= k < |p1 + p2| ensures ValidShipmentPlan((p1 + p2)[k].shipment) {
      if k >= |p1| { assert (p1 + p2)[k] == p2[k - |p1|]; }
    }
  }

  /**
   * Tables of `plans` cut after plan `n`: the first `n` plans keep ids from 1
   * and the rest continue from `n + 1`, in each of the three tables.
   */
  predicate TablesSplit(products: seq<Product>, plans: seq<Plan>, n: nat)
    requires n <= |plans| && PlansFit(plans, |products|) && ShipmentsDrawn(plans)
  {
    && PlansFit(plans[..n], |products|) && PlansFit(plans[n..], |products|)
    && ShipmentsDrawn(plans[..n]) && ShipmentsDrawn(plans[n..])
    && OrdersOf(products, plans, 1) == OrdersOf(products, plans[..n], 1) + OrdersOf(products, plans[n..], n + 1)
    && ItemsOf(products, plans, 1) == ItemsOf(products, plans[..n], 1) + ItemsOf(products, plans[n..], n + 1)
    && ShipmentsOf(plans, 1) == ShipmentsOf(plans[..n], 1) + ShipmentsOf(plans[n..], n + 1)
  }

  /** Both halves of plans cut after plan `n` fit the catalog and have their shipments drawn. */
  lemma SplitPlans(plans: seq<Plan>, n: nat, productCount: nat)
    requires n <= |plans| && PlansFit(plans, productCount) && ShipmentsDrawn(plans)
    ensures plans == plans[..n] + plans[n..]
    ensures PlansFit(plans[..n], productCount) && ShipmentsDrawn(plans[..n])
    ensures PlansFit(plans[n..], productCount) && ShipmentsDrawn(plans[n..])
  {
    var p1, p2 := plans[..n], plans[n..];
    assert plans == p1 + p2;
    forall k | 0 <= k < |p1| ensures p1[k] == plans[k] { }
    forall k | 0 <= k < |p2| ensures p2[k] == plans[n + k] { }
  }

  lemma SplitTables(products: seq<Product>, plans: seq<Plan>, n: nat)
    requires n <= |plans| && PlansFit(plans, |products|) && ShipmentsDrawn(plans)
    ensures TablesSplit(products, plans, n)
  {
    var p1, p2 := plans[..n], plans[n..];
    SplitPlans(plans, n, |products|);
    OrdersOfAppend(products, p1, p2, 1);
    ItemsOfAppend(products, p1, p2, 1);
    ShipmentsOfAppend(p1, p2, 1);
  }

  /** Orders drawn in two batches, the second numbered on from the first, are the orders of both batches' plans. */
  lemma {:induction false} OrdersOfAppend(products: seq<Product>, p1: seq<Plan>, p2: seq<Plan>, first: int)
    requires PlansFit(p1, |products|) && PlansFit(p2, |products|)
    ensures PlansFit(p1 + p2, |products|)
    ensures OrdersOf(products, p1 + p2, first) == OrdersOf(products, p1, first) + OrdersOf(products, p2, first + |p1|)
  {
    PlansFitAppend(p1, p2, |products|);
    if |p2| == 0 {
      assert p1 + p2 == p1;
    } else {
      var whole := p1 + p2;
      var init := p2[..|p2| - 1];
      ItemsOfSplit(products, p2, first + |p1|);
      OrdersOfAppend(products, p1, init, first);
      ItemsOfSplit(products, whole, first);
      DropLastOfAppend(p1, p2);
      AppendAssoc(OrdersOf(products, p1, first), OrdersOf(products, init, first + |p1|),
        [PlannedOrder(products, p2[|p2| - 1], first + |whole| - 1)]);
    }
  }

  lemma {:induction false} ItemsOfAppend(products: seq<Product>, p1: seq<Plan>, p2: seq<Plan>, first: int)
    requires PlansFit(p1, |products|) && PlansFit(p2, |products|)
    ensures PlansFit(p1 + p2, |products|)
    ensures ItemsOf(products, p1 + p2, first) == ItemsOf(products, p1, first) + ItemsOf(products, p2, first + |p1|)
  {
    PlansFitAppend(p1, p2, |products|);
    if |p2| == 0 {
      assert p1 + p2 == p1;
    } else {
      var whole := p1 + p2;
      var init := p2[..|p2| - 1];
      ItemsOfSplit(products, p2, first + |p1|);
      PlansFitAppend(p1, init, |products|);
      var y := ItemsOf(products, p1 + init, first);
      var a, b := ItemsOf(products, p1, first), ItemsOf(products, init, first + |p1|);
      var last := Lines(products, p2[|p2| - 1].items, first + |whole| - 1);
      assert ItemsOf(products, whole, first) == y + last by {
        ItemsOfSplit(products, whole, first);
        DropLastOfAppend(p1, p2);
      }
      assert y == a + b by {
        ItemsOfAppend(products, p1, init, first);
      }
      Regroup(ItemsOf(products, whole, first), y, a, b, last, ItemsOf(products, p2, first + |p1|));
    }
  }

  lemma {:induction false} ShipmentsOfAppend(p1: seq<Plan>, p2: seq<Plan>, first: int)
    requires ShipmentsDrawn(p1) && ShipmentsDrawn(p2)
    ensures ShipmentsDrawn(p1 + p2)
    ensures ShipmentsOf(p1 + p2, first) == ShipmentsOf(p1, first) + ShipmentsOf(p2, first + |p1|)
  {
    ShipmentsDrawnAppend(p1, p2);
    if |p2| == 0 {
      assert p1 + p2 == p1;
    } else {
      var whole := p1 + p2;
      var init := p2[..|p2| - 1];
      ShipmentsOfSplit(p2, first + |p1|);
      ShipmentsDrawnAppend(p1, init);
      var y := ShipmentsOf(p1 + init, first);
      var a, b := ShipmentsOf(p1, first), ShipmentsOf(init, first + |p1|);
      var last := PlannedShipments(p2[|p2| - 1], first + |whole| - 1);
      assert ShipmentsOf(whole, first) == y + last by {
        ShipmentsOfSplit(whole, first);
        DropLastOfAppend(p1, p2);
      }
      assert y == a + b by {
        ShipmentsOfAppend(p1, init, first);
      }
      Regroup(ShipmentsOf(whole, first), y, a, b, last, ShipmentsOf(p2, first + |p1|));
    }
  }

  // ---------------------------------------------------------------------
  // The rows of valid plans satisfy the schema's key, reference,
  // numbering and total constraints
  // ---------------------------------------------------------------------

  lemma PlansValidFacts(plans: seq<Plan>, productCount: nat)
    requires PlansValid(plans, productCount)
    ensures PlansFit(plans, productCount)
    ensures ShipmentsDrawn(plans)
    ensures QuantitiesDrawn(plans)
    ensures forall k :: 0 <= k < |plans| ==> 1 <= |plans[k].items| <= 4
  {
    forall k | 0 <= k < |plans|
      ensures PlanFits(plans[k], productCount) && ValidShipmentPlan(plans[k].shipment) && 1 <= |plans[k].items| <= 4
    {
      assert ValidPlan(plans[k], productCount);
    }
  }

  /** Order `k` of valid plans carries the sum of its own 1 to 4 items. */
  lemma PlannedTotalAt(products: seq<Product>, plans: seq<Plan>, k: nat)
    requires PlansValid(plans, |products|)
    requires k < |plans|
    ensures PlansFit(plans, |products|)
    ensures OrdersOf(products, plans, 1)[k].total == ItemsTotal(ItemsOf(products, plans, 1), OrdersOf(products, plans, 1)[k].id)
    ensures 1 <= ItemCount(ItemsOf(products, plans, 1), OrdersOf(products, plans, 1)[k].id) <= 4
  {
    PlansValidFacts(plans, |products|);
    OrdersOfAt(products, plans, 1);
    ItemsOfTotals(products, plans, 1, k);
    assert SumsAs(ItemsOf(products, plans, 1), 1 + k, Lines(products, plans[k].items, 1 + k));
  }

  lemma PlannedTotals(products: seq<Product>, plans: seq<Plan>)
    requires PlansValid(plans, |products|)
    ensures PlansFit(plans, |products|)
    ensures OrderTotalsMatch(OrdersOf(products, plans, 1), ItemsOf(products, plans, 1))
  {
    PlansValidFacts(plans, |products|);
    forall k | 0 <= k < |plans|
      ensures OrdersOf(products, plans, 1)[k].total == ItemsTotal(ItemsOf(products, plans, 1), OrdersOf(products, plans, 1)[k].id)
      ensures 1 <= ItemCount(ItemsOf(products, plans, 1), OrdersOf(products, plans, 1)[k].id) <= 4
    {
      PlannedTotalAt(products, plans, k);
    }
  }

  /** Orders of valid plans are numbered from 1, reference a customer and are dated 2021 to 2024. */
  lemma PlannedOrderRows(products: seq<Product>, plans: seq<Plan>)
    requires PlansValid(plans, |products|)
    ensures PlansFit(plans, |products|)
    ensures OrdersNumbered(OrdersOf(products, plans, 1))
    ensures OrdersInRange(OrdersOf(products, plans, 1))
  {
    PlansValidFacts(plans, |products|);
    var orders := OrdersOf(products, plans, 1);
    OrdersOfFields(products, plans, 1);
    forall k | 0 <= k < |orders|
      ensures orders[k].id == k + 1
      ensures 1 <= orders[k].customerId <= NUM_CUSTOMERS && FIRST_ORDER_DAY <= orders[k].date <= LAST_ORDER_DAY
    {
      assert ValidPlan(plans[k], |products|);
    }
  }

  /** Shipments matching their plans reference orders whose dates are those plans' dates. */
  lemma ShipmentsReferenceFrom(orders: seq<Order>, ss: seq<Shipment>, plans: seq<Plan>)
    requires |orders| == |plans|
    requires forall k :: 0 <= k < |plans| ==> orders[k].date == plans[k].date
    requires ShipmentsMatchPlans(ss, plans, 1)
    ensures ShipmentsReferenceOrders(orders, ss)
  {
    forall s | 0 <= s < |ss| ensures ShipmentDatesOk(ss[s], orders[ss[s].orderId - 1].date) {
      assert orders[ss[s].orderId - 1].date == plans[ss[s].orderId - 1].date;
    }
  }

  lemma PlannedShipmentsValid(products: seq<Product>, plans: seq<Plan>)
    requires PlansValid(plans, |products|)
    ensures PlansFit(plans, |products|)
    ensures ShipmentsAscending(ShipmentsOf(plans, 1))
    ensures ShipmentsReferenceOrders(OrdersOf(products, plans, 1), ShipmentsOf(plans, 1))
  {
    PlansValidFacts(plans, |products|);
    ShipmentsOfMatch(plans, 1);
    OrdersOfFields(products, plans, 1);
    ShipmentsReferenceFrom(OrdersOf(products, plans, 1), ShipmentsOf(plans, 1), plans);
  }

  /** The items of valid plans satisfy the item-table constraints. */
  lemma PlannedItems(products: seq<Product>, plans: seq<Plan>)
    requires PlansValid(plans, |products|)
    ensures PlansFit(plans, |products|)
    ensures ItemsReferenceOrders(ItemsOf(products, plans, 1), |plans|)
    ensures ItemKeysAscending(ItemsOf(products, plans, 1))
    ensures ItemsNumbered(ItemsOf(products, plans, 1))
    ensures ItemsPriced(products, ItemsOf(products, plans, 1))
  {
    PlansValidFacts(plans, |products|);
    ItemsOfRange(products, plans, 1);
    ItemsOfKeysAscending(products, plans, 1);
    ItemsOfNumbered(products, plans, 1);
    ItemsOfPriced(products, plans, 1);
  }

  /**
   * The rows of any sequence of valid plans, numbered from 1, satisfy the
   * schema's key, reference, numbering and total constraints: the primary
   * keys, the foreign keys, catalog prices and quantities, the totals and
   * the shipment dates. The sign checks hold when catalog prices are
   * non-negative (`Aggregate.OrderTotalsNonNegative`).
   */
  lemma PlannedIntegrity(products: seq<Product>, plans: seq<Plan>)
    requires PlansValid(plans, |products|)
    ensures PlansFit(plans, |products|)
    ensures Integrity(products, OrdersOf(products, plans, 1), ItemsOf(products, plans, 1), ShipmentsOf(plans, 1))
  {
    PlannedOrderRows(products, plans);
    PlannedItems(products, plans);
    PlannedTotals(products, plans);
    PlannedShipmentsValid(products, plans);
  }

  /** In a well-formed catalog, a priced item's product id is one of 1 to `|products|`. */
  lemma ProductIdsInCatalog(products: seq<Product>, items: seq<OrderItem>)
    requires WellFormedCatalog(products)
    requires ItemsPriced(products, items)
    ensures forall j :: 0 <= j < |items| ==> 1 <= items[j].productId <= |products|
  {
    forall j | 0 <= j < |items| ensures 1 <= items[j].productId <= |products| {
      assert ItemPriced(products, items[j]);
      var p :| 0 <= p < |products| && products[p].id == items[j].productId && products[p].price == items[j].unitPrice;
    }
  }
}
