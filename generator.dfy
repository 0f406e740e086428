/**
 * The two order loops: `NUM_ORDERS` orders built from fresh draws,
 * then a handful of near-duplicate orders copied from random existing
 * orders, all numbered by the one running `order_id_seq`.
 *
 * `AllPlans` says which plan each order is built from; `GenerateOrders`
 * performs both loops and is proved to produce exactly the tables the plans
 * specify, hence (module OrderIntegrity) tables that satisfy the schema's
 * key, reference, numbering and total constraints; the sign checks hold
 * when catalog prices are non-negative (`Aggregate.OrderTotalsNonNegative`).
 */
module OrderGenerator {
  import opened Config
  import opened Dates
  import opened Catalog
  import opened Orders
  import opened OrderIntegrity

  // ---------------------------------------------------------------------
  // The main loop's draws
  // ---------------------------------------------------------------------

  /**
   * The draws of one order of the main loop: `randint(1, NUM_CUSTOMERS)`,
   * the day offset of `rand_order_date()`, the promo code (`None` for three
   * of the six entries of the list it is chosen from), 1 to 4 item draws
   * and, when `random.random() < 0.8`, a shipment draw.
   */
  datatype OrderDraw = OrderDraw(
    customerId: int, dateOffset: int, promo: Option<Promo>, items: seq<ItemDraw>, shipment: Option<ShipmentDraw>)

  predicate ValidOrderDraw(d: OrderDraw, productCount: nat)
  {
    && 1 <= d.customerId <= NUM_CUSTOMERS
    && 0 <= d.dateOffset <= SpanDays(2021, 2024)
    && 1 <= |d.items| <= 4
    && (forall j :: 0 <= j < |d.items| ==> d.items[j].product < productCount && 1 <= d.items[j].quantity <= 5)
    && ValidShipmentPlan(d.shipment)
  }

  /** The plan of a main-loop order: the drawn customer, the drawn date, the drawn items. */
  function BasePlan(d: OrderDraw, productCount: nat): (p: Plan)
    requires ValidOrderDraw(d, productCount)
    ensures ValidPlan(p, productCount)
    ensures p.customerId == d.customerId && p.promo == d.promo && p.items == d.items && p.shipment == d.shipment
  {
    Plan(d.customerId, RandOrderDate(d.dateOffset), d.promo, d.items, d.shipment)
  }

  function BasePlans(draws: seq<OrderDraw>, productCount: nat): (r: seq<Plan>)
    requires forall k :: 0 <= k < |draws| ==> ValidOrderDraw(draws[k], productCount)
    ensures |r| == |draws|
    ensures forall k :: 0 <= k < |r| ==> r[k] == BasePlan(draws[k], productCount)
    ensures PlansValid(r, productCount)
  {
    seq(|draws|, k requires 0 <= k < |draws| => BasePlan(draws[k], productCount))
  }

  // ---------------------------------------------------------------------
  // The duplicate loop's draws
  // ---------------------------------------------------------------------

  /**
   * The draws of one near-duplicate order: the index of `random.choice(orders)`
   * into the orders built so far, the index of `random.choice(products)`, and
   * the shipment draw as in the main loop.
   */
  datatype DuplicateDraw = DuplicateDraw(source: nat, product: nat, shipment: Option<ShipmentDraw>)

  /** Draw `i` picks one of the `baseCount + i` orders that exist when it is made. */
  predicate ValidDuplicateDraws(dds: seq<DuplicateDraw>, baseCount: nat, productCount: nat)
  {
    forall i :: 0 <= i < |dds| ==>
      dds[i].source < baseCount + i && dds[i].product < productCount && ValidShipmentPlan(dds[i].shipment)
  }

  /** `max(1, int(0.01 * len(orders)))`, the number of near-duplicate orders. */
  function DuplicateOrderCount(n: nat): (r: nat)
    ensures r >= 1
    ensures n >= 100 ==> r == n / 100
    ensures n < 100 ==> r == 1
  {
    if n / 100 < 1 then 1 else n / 100
  }

  /** A near-duplicate of order `source`: its customer, date and promo code, and one unit of one product at list price. */
  function DuplicatePlan(source: Plan, d: DuplicateDraw): (p: Plan)
    ensures p.customerId == source.customerId && p.date == source.date && p.promo == source.promo
    ensures p.items == [ItemDraw(d.product, 1, NoDiscount)]
  {
    Plan(source.customerId, source.date, source.promo, [ItemDraw(d.product, 1, NoDiscount)], d.shipment)
  }

  /**
   * A near-duplicate of a plan the order loop could have drawn could itself
   * have been drawn: same customer and date, one item with quantity 1 of a
   * catalog product, and a shipment drawn as the loop draws one.
   */
  lemma DuplicatePlanValid(source: Plan, d: DuplicateDraw, productCount: nat)
    requires ValidPlan(source, productCount)
    requires d.product < productCount && ValidShipmentPlan(d.shipment)
    ensures ValidPlan(DuplicatePlan(source, d), productCount)
  {
  }

  /** The plans of all orders: those of the main loop, then one per duplicate draw, each copying a plan before it. */
  function AllPlans(base: seq<Plan>, dds: seq<DuplicateDraw>, productCount: nat): (r: seq<Plan>)
    requires ValidDuplicateDraws(dds, |base|, productCount)
    ensures |r| == |base| + |dds|
  {
    if |dds| == 0 then base
    else
      var n := |dds| - 1;
      assert ValidDuplicateDraws(dds[..n], |base|, productCount) by {
        forall i | 0 <= i < n ensures dds[..n][i] == dds[i] { }
      }
      var prev := AllPlans(base, dds[..n], productCount);
      prev + [DuplicatePlan(prev[dds[n].source], dds[n])]
  }

  /** The main loop's plans come first, unchanged. */
  lemma {:induction false} AllPlansPrefix(base: seq<Plan>, dds: seq<DuplicateDraw>, productCount: nat)
    requires ValidDuplicateDraws(dds, |base|, productCount)
    ensures AllPlans(base, dds, productCount)[..|base|] == base
  {
    if |dds| > 0 {
      var n := |dds| - 1;
      assert ValidDuplicateDraws(dds[..n], |base|, productCount) by {
        forall i | 0 <= i < n ensures dds[..n][i] == dds[i] { }
      }
      AllPlansPrefix(base, dds[..n], productCount);
      var prev := AllPlans(base, dds[..n], productCount);
      assert AllPlans(base, dds, productCount)[..|base|] == prev[..|base|];
    }
  }

  /** Plan `|base| + i` copies the customer, date and promo code of the plan its draw picked. */
  lemma {:induction false} AllPlansDuplicate(base: seq<Plan>, dds: seq<DuplicateDraw>, productCount: nat, i: nat)
    requires ValidDuplicateDraws(dds, |base|, productCount)
    requires i < |dds|
    ensures dds[i].source < |base| + i
    ensures AllPlans(base, dds, productCount)[|base| + i]
         == DuplicatePlan(AllPlans(base, dds, productCount)[dds[i].source], dds[i])
  {
    var n := |dds| - 1;
    assert ValidDuplicateDraws(dds[..n], |base|, productCount) by {
      forall t | 0 <= t < n ensures dds[..n][t] == dds[t] { }
    }
    var prev := AllPlans(base, dds[..n], productCount);
    var all := AllPlans(base, dds, productCount);
    assert all == prev + [DuplicatePlan(prev[dds[n].source], dds[n])];
    if i < n {
      assert dds[..n][i] == dds[i];
      AllPlansDuplicate(base, dds[..n], productCount, i);
      assert all[|base| + i] == prev[|base| + i];
      assert all[dds[i].source] == prev[dds[i].source];
    } else {
      assert all[dds[n].source] == prev[dds[n].source];
    }
  }

  /**
   * `plans` continues `base` with one near-duplicate per draw: plan `|base| + i`
   * copies the plan that draw `i` picked among those before it.
   */
  predicate DuplicatesOf(plans: seq<Plan>, base: seq<Plan>, dds: seq<DuplicateDraw>)
  {
    && |plans| == |base| + |dds|
    && plans[..|base|] == base
    && forall i :: 0 <= i < |dds| ==>
         dds[i].source < |base| + i && plans[|base| + i] == DuplicatePlan(plans[dds[i].source], dds[i])
  }

  lemma AllPlansDuplicates(base: seq<Plan>, dds: seq<DuplicateDraw>, productCount: nat)
    requires ValidDuplicateDraws(dds, |base|, productCount)
    ensures DuplicatesOf(AllPlans(base, dds, productCount), base, dds)
  {
    AllPlansPrefix(base, dds, productCount);
    forall i | 0 <= i < |dds|
      ensures dds[i].source < |base| + i
      ensures AllPlans(base, dds, productCount)[|base| + i]
           == DuplicatePlan(AllPlans(base, dds, productCount)[dds[i].source], dds[i])
    {
      AllPlansDuplicate(base, dds, productCount, i);
    }
  }

  /**
   * A near-duplicate order row has the customer, date and promo code of the
   * order row it copies, exactly one item (item 1: one unit of the drawn
   * product at list price, undiscounted) and that price as its total.
   */
  lemma DuplicateOrderRow(products: seq<Product>, plans: seq<Plan>, base: seq<Plan>, dds: seq<DuplicateDraw>, i: nat)
    requires PlansValid(plans, |products|)
    requires DuplicatesOf(plans, base, dds)
    requires i < |dds|
    ensures PlansFit(plans, |products|)
    ensures dds[i].product < |products|
    ensures var orders := OrdersOf(products, plans, 1);
            var dup, src, price := orders[|base| + i], orders[dds[i].source], products[dds[i].product].price;
            && dup.id == |base| + i + 1
            && dup.customerId == src.customerId && dup.date == src.date && dup.promo == src.promo
            && dup.total == price
            && Lines(products, plans[|base| + i].items, dup.id)
               == [OrderItem(dup.id, 1, products[dds[i].product].id, 1, price, price)]
  {
    PlansValidFacts(plans, |products|);
    var k := |base| + i;
    var id := k + 1;
    assert plans[k] == DuplicatePlan(plans[dds[i].source], dds[i]);
    assert PlanFits(plans[k], |products|);
    assert plans[k].items[0].product == dds[i].product;
    OrdersOfAt(products, plans, 1);
    OrdersOfFields(products, plans, 1);
    var price := products[dds[i].product].price;
    var lines := Lines(products, plans[k].items, id);
    assert lines == [Line(products, ItemDraw(dds[i].product, 1, NoDiscount), id, 1)];
    assert ItemsTotal(lines, id) == price by {
      assert lines[..0] == [];
    }
  }

  /** Copies of valid plans are valid: the same customer and date, one unit of a catalog product. */
  lemma {:induction false} AllPlansValid(base: seq<Plan>, dds: seq<DuplicateDraw>, productCount: nat)
    requires PlansValid(base, productCount)
    requires ValidDuplicateDraws(dds, |base|, productCount)
    ensures PlansValid(AllPlans(base, dds, productCount), productCount)
  {
    if |dds| > 0 {
      var n := |dds| - 1;
      assert ValidDuplicateDraws(dds[..n], |base|, productCount) by {
        forall i | 0 <= i < n ensures dds[..n][i] == dds[i] { }
      }
      AllPlansValid(base, dds[..n], productCount);
      var prev := AllPlans(base, dds[..n], productCount);
      var dup := DuplicatePlan(prev[dds[n].source], dds[n]);
      assert ValidPlan(prev[dds[n].source], productCount);
      DuplicatePlanValid(prev[dds[n].source], dds[n], productCount);
      PlansValidAppend(prev, [dup], productCount);
    }
  }

  // ---------------------------------------------------------------------
  // Stepping the specification one order at a time
  // ---------------------------------------------------------------------

  lemma LinesSnoc(products: seq<Product>, ds: seq<ItemDraw>, id: int, j: nat)
    requires j < |ds|
    requires forall t :: 0 <= t < |ds| ==> ds[t].product < |products|
    ensures Lines(products, ds[..j + 1], id) == Lines(products, ds[..j], id) + [Line(products, ds[j], id, j + 1)]
  {
    assert ds[..j + 1][..j] == ds[..j];
  }

  lemma ItemsTotalSnoc(a: seq<OrderItem>, it: OrderItem, id: int)
    requires it.orderId == id
    ensures ItemsTotal(a + [it], id) == ItemsTotal(a, id) + it.lineTotal
  {
    assert (a + [it])[..|a|] == a;
  }

  /** The tables built so far are those of the first `n` plans. */
  predicate TablesAt(products: seq<Product>, plans: seq<Plan>, n: nat,
                     orders: seq<Order>, items: seq<OrderItem>, shipments: seq<Shipment>)
  {
    && n <= |plans|
    && PlansFit(plans[..n], |products|)
    && ShipmentsDrawn(plans[..n])
    && orders == OrdersOf(products, plans[..n], 1)
    && items == ItemsOf(products, plans[..n], 1)
    && shipments == ShipmentsOf(plans[..n], 1)
  }

  /** Appending the rows of plan `n`, numbered `n + 1`, extends the tables of `n` plans to those of `n + 1`. */
  lemma TablesStep(products: seq<Product>, plans: seq<Plan>, n: nat,
                   orders: seq<Order>, items: seq<OrderItem>, shipments: seq<Shipment>)
    requires PlansValid(plans, |products|)
    requires n < |plans|
    requires TablesAt(products, plans, n, orders, items, shipments)
    ensures PlanFits(plans[n], |products|)
    ensures TablesAt(products, plans, n + 1,
                     orders + [PlannedOrder(products, plans[n], n + 1)],
                     items + Lines(products, plans[n].items, n + 1),
                     shipments + PlannedShipments(plans[n], n + 1))
  {
    var next := plans[..n + 1];
    assert next[..n] == plans[..n];
    assert next[n] == plans[n];
    assert PlansValid(next, |products|) by {
      forall k | 0 <= k < n + 1 ensures ValidPlan(next[k], |products|) { assert next[k] == plans[k]; }
    }
    PlansValidFacts(next, |products|);
    ItemsOfSplit(products, next, 1);
    ShipmentsOfSplit(next, 1);
  }

  /** Order row `k` of the tables so far carries the customer, date and promo code of plan `k`. */
  lemma TablesRow(products: seq<Product>, plans: seq<Plan>, n: nat,
                  orders: seq<Order>, items: seq<OrderItem>, shipments: seq<Shipment>, k: nat)
    requires TablesAt(products, plans, n, orders, items, shipments)
    requires k < n
    ensures k < |orders|
    ensures orders[k].customerId == plans[k].customerId
    ensures orders[k].date == plans[k].date
    ensures orders[k].promo == plans[k].promo
  {
    OrdersOfFields(products, plans[..n], 1);
    assert plans[..n][k] == plans[k];
  }

  /** The tables of `base` are the tables of the first `|base|` plans of any continuation of `base`. */
  lemma TablesOfPrefix(products: seq<Product>, plans: seq<Plan>, base: seq<Plan>,
                       orders: seq<Order>, items: seq<OrderItem>, shipments: seq<Shipment>)
    requires |base| <= |plans| && plans[..|base|] == base
    requires PlansFit(base, |products|) && ShipmentsDrawn(base)
    requires orders == OrdersOf(products, base, 1)
    requires items == ItemsOf(products, base, 1)
    requires shipments == ShipmentsOf(base, 1)
    ensures TablesAt(products, plans, |base|, orders, items, shipments)
  {
  }

  /** The tables of all plans. */
  lemma TablesComplete(products: seq<Product>, plans: seq<Plan>,
                       orders: seq<Order>, items: seq<OrderItem>, shipments: seq<Shipment>)
    requires TablesAt(products, plans, |plans|, orders, items, shipments)
    ensures PlansFit(plans, |products|) && ShipmentsDrawn(plans)
    ensures orders == OrdersOf(products, plans, 1)
    ensures items == ItemsOf(products, plans, 1)
    ensures shipments == ShipmentsOf(plans, 1)
  {
    assert plans[..|plans|] == plans;
  }

  /** The rows of one order, built the way both loops build them. */
  method EmitOrder(products: seq<Product>, p: Plan, id: int) returns (order: Order, lines: seq<OrderItem>, ships: seq<Shipment>)
    requires PlanFits(p, |products|)
    ensures order == PlannedOrder(products, p, id)
    ensures lines == Lines(products, p.items, id)
    ensures ships == PlannedShipments(p, id)
  {
    var itemNo := 1;
    var orderTotal := 0;
    lines := [];
    var j := 0;
    while j < |p.items|
      invariant 0 <= j <= |p.items|
      invariant itemNo == j + 1
      invariant lines == Lines(products, p.items[..j], id)
      invariant orderTotal == ItemsTotal(lines, id)
    {
      var prod := products[p.items[j].product];
      var qty := p.items[j].quantity;
      var lineTotal := LineTotal(prod.price, qty, p.items[j].discount);
      var item := OrderItem(id, itemNo, prod.id, qty, prod.price, lineTotal);
      LinesSnoc(products, p.items, id, j);
      ItemsTotalSnoc(lines, item, id);
      lines := lines + [item];
      orderTotal := orderTotal + lineTotal;
      itemNo := itemNo + 1;
      j := j + 1;
    }
    assert p.items[..j] == p.items;
    order := Order(id, p.customerId, p.date, orderTotal, p.promo);
    ships := [];
    if p.shipment.Some? {
      var s := p.shipment.value;
      var shipped := RandShipmentDate(Some(p.date), s.shipDelay);
      var delivered := if shipped.Some? then RandShipmentDate(shipped, s.deliveryDelay) else None;
      ships := [Shipment(id, shipped, delivered, s.carrier, s.tracking)];
    }
  }
  // ---------------------------------------------------------------------
  // Both loops
  // ---------------------------------------------------------------------

  /** The plans of every order the two loops build from these draws. */
  function OrderPlans(productCount: nat, draws: seq<OrderDraw>, dds: seq<DuplicateDraw>): (r: seq<Plan>)
    requires forall k :: 0 <= k < |draws| ==> ValidOrderDraw(draws[k], productCount)
    requires ValidDuplicateDraws(dds, |draws|, productCount)
    ensures |r| == |draws| + |dds|
    ensures PlansValid(r, productCount)
    ensures PlansFit(r, productCount) && ShipmentsDrawn(r)
  {
    var base := BasePlans(draws, productCount);
    AllPlansValid(base, dds, productCount);
    PlansValidFacts(AllPlans(base, dds, productCount), productCount);
    AllPlans(base, dds, productCount)
  }

  /** The main loop: order `i + 1` is built from draw `i`. */
  method BaseOrders(products: seq<Product>, draws: seq<OrderDraw>)
    returns (orders: seq<Order>, items: seq<OrderItem>, shipments: seq<Shipment>)
    requires forall k :: 0 <= k < |draws| ==> ValidOrderDraw(draws[k], |products|)
    ensures PlansFit(BasePlans(draws, |products|), |products|) && ShipmentsDrawn(BasePlans(draws, |products|))
    ensures orders == OrdersOf(products, BasePlans(draws, |products|), 1)
    ensures items == ItemsOf(products, BasePlans(draws, |products|), 1)
    ensures shipments == ShipmentsOf(BasePlans(draws, |products|), 1)
  {
    ghost var plans := BasePlans(draws, |products|);
    orders, items, shipments := [], [], [];
    var orderIdSeq := 1;
    var i := 0;
    while i < |draws|
      invariant 0 <= i <= |draws|
      invariant orderIdSeq == i + 1
      invariant TablesAt(products, plans, i, orders, items, shipments)
    {
      var d := draws[i];
      var p := Plan(d.customerId, RandOrderDate(d.dateOffset), d.promo, d.items, d.shipment);
      TablesStep(products, plans, i, orders, items, shipments);
      var order, lines, ships := EmitOrder(products, p, orderIdSeq);
      orders := orders + [order];
      items := items + lines;
      shipments := shipments + ships;
      orderIdSeq := orderIdSeq + 1;
      i := i + 1;
    }
    TablesComplete(products, plans, orders, items, shipments);
  }

  /**
   * The near-duplicate loop, continuing the tables of the `base` plans: each
   * draw copies the customer, date and promo code of the order row it picks
   * and buys one unit of one product, under the next order id.
   */
  method DuplicateOrders(products: seq<Product>, ghost base: seq<Plan>, ghost plans: seq<Plan>, dds: seq<DuplicateDraw>,
                         orders0: seq<Order>, items0: seq<OrderItem>, shipments0: seq<Shipment>)
    returns (orders: seq<Order>, items: seq<OrderItem>, shipments: seq<Shipment>)
    requires PlansValid(plans, |products|)
    requires DuplicatesOf(plans, base, dds)
    requires PlansFit(base, |products|) && ShipmentsDrawn(base)
    requires orders0 == OrdersOf(products, base, 1)
    requires items0 == ItemsOf(products, base, 1)
    requires shipments0 == ShipmentsOf(base, 1)
    ensures PlansFit(plans, |products|) && ShipmentsDrawn(plans)
    ensures orders == OrdersOf(products, plans, 1)
    ensures items == ItemsOf(products, plans, 1)
    ensures shipments == ShipmentsOf(plans, 1)
  {
    PlansValidFacts(plans, |products|);
    TablesOfPrefix(products, plans, base, orders0, items0, shipments0);
    orders, items, shipments := orders0, items0, shipments0;
    var orderIdSeq := |orders| + 1;
    var t := 0;
    ghost var n := |base|;
    while t < |dds|
      invariant 0 <= t <= |dds|
      invariant n == |base| + t && orderIdSeq == n + 1
      invariant TablesAt(products, plans, n, orders, items, shipments)
    {
      var dd := dds[t];
      TablesRow(products, plans, n, orders, items, shipments, dd.source);
      var row := orders[dd.source];
      var p := Plan(row.customerId, row.date, row.promo, [ItemDraw(dd.product, 1, NoDiscount)], dd.shipment);
      assert p == plans[n];
      TablesStep(products, plans, n, orders, items, shipments);
      var order, lines, ships := EmitOrder(products, p, orderIdSeq);
      orders := orders + [order];
      items := items + lines;
      shipments := shipments + ships;
      orderIdSeq := orderIdSeq + 1;
      t := t + 1;
      n := n + 1;
    }
    TablesComplete(products, plans, orders, items, shipments);
  }

  /**
   * The near-duplicate orders continue the main loop's id sequence: each
   * table is the main loop's table followed by the near-duplicates' table,
   * whose order ids start right after the last main-loop order.
   */
  lemma DuplicateTablesFollow(products: seq<Product>, draws: seq<OrderDraw>, dds: seq<DuplicateDraw>)
    requires forall k :: 0 <= k < |draws| ==> ValidOrderDraw(draws[k], |products|)
    requires ValidDuplicateDraws(dds, |draws|, |products|)
    ensures OrderPlans(|products|, draws, dds)[..|draws|] == BasePlans(draws, |products|)
    ensures TablesSplit(products, OrderPlans(|products|, draws, dds), |draws|)
  {
    var plans := OrderPlans(|products|, draws, dds);
    AllPlansPrefix(BasePlans(draws, |products|), dds, |products|);
    PlansValidFacts(plans, |products|);
    SplitTables(products, plans, |draws|);
  }

  /**
   * Both loops: the main loop over `draws`, then `max(1, int(0.01 * len(orders)))`
   * near-duplicates. The tables are exactly those of the plans, the running
   * id continues across both loops, and the tables satisfy the schema's key,
   * reference, numbering and total constraints.
   */
  method GenerateOrders(products: seq<Product>, draws: seq<OrderDraw>, dds: seq<DuplicateDraw>)
    returns (orders: seq<Order>, items: seq<OrderItem>, shipments: seq<Shipment>)
    requires forall k :: 0 <= k < |draws| ==> ValidOrderDraw(draws[k], |products|)
    requires |dds| == DuplicateOrderCount(|draws|)
    requires ValidDuplicateDraws(dds, |draws|, |products|)
    ensures orders == OrdersOf(products, OrderPlans(|products|, draws, dds), 1)
    ensures items == ItemsOf(products, OrderPlans(|products|, draws, dds), 1)
    ensures shipments == ShipmentsOf(OrderPlans(|products|, draws, dds), 1)
    ensures |orders| == |draws| + DuplicateOrderCount(|draws|)
    ensures Integrity(products, orders, items, shipments)
    ensures OrderPlans(|products|, draws, dds)[..|draws|] == BasePlans(draws, |products|)
    ensures TablesSplit(products, OrderPlans(|products|, draws, dds), |draws|)
  {
    DuplicateTablesFollow(products, draws, dds);
    ghost var base := BasePlans(draws, |products|);
    ghost var plans := OrderPlans(|products|, draws, dds);
    AllPlansDuplicates(base, dds, |products|);
    var o, it, sh := BaseOrders(products, draws);
    orders, items, shipments := DuplicateOrders(products, base, plans, dds, o, it, sh);
    PlannedIntegrity(products, OrderPlans(|products|, draws, dds));
  }
}
