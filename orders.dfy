/**
 * The order, order-item and shipment tables: their rows, the integrity
 * constraints the database schema declares for them, and a specification
 * of what the generation loops produce.
 *
 * Both order loops build orders from the same ingredients: a customer, a
 * date, a promo code, the item draws and an optional shipment draw. A
 * `Plan` collects them; `OrdersOf`, `ItemsOf` and `ShipmentsOf` give the
 * rows that a sequence of plans yields when order ids start at `first`.
 * Module OrderIntegrity proves that these rows satisfy the schema's key,
 * reference, numbering and total constraints.
 */
module Orders {
  import opened Config
  import opened Dates
  import opened Catalog

  datatype Promo = New10 | FreeShip | Summer20

  /** The discount drawn by `random.choice([0, 0, 0.05, 0.1])`. */
  datatype Discount = NoDiscount | FivePercent | TenPercent

  function Percent(d: Discount): int
  {
    match d
    case NoDiscount => 0
    case FivePercent => 5
    case TenPercent => 10
  }

  datatype Carrier = DHL | FedEx | UPS | Local

  datatype Order = Order(id: int, customerId: int, date: int, total: int, promo: Option<Promo>)

  datatype OrderItem = OrderItem(
    orderId: int, itemNo: int, productId: int, quantity: int, unitPrice: int, lineTotal: int)

  /** The shipment id is assigned by the database and is not part of the row built here. */
  datatype Shipment = Shipment(
    orderId: int, shipped: Option<int>, delivered: Option<int>, carrier: Carrier, tracking: string)

  /**
   * `round(unit_price * qty * (1 - d), 2)` in cents: the nearest cent to the
   * discounted amount (halves round up). It never exceeds the undiscounted
   * amount and is not negative when that amount is not.
   */
  function LineTotal(unitPrice: int, quantity: int, discount: Discount): (r: int)
    ensures discount == NoDiscount ==> r == unitPrice * quantity
    ensures unitPrice * quantity >= 0 ==> 0 <= r <= unitPrice * quantity
  {
    var gross := unitPrice * quantity;
    match discount
    case NoDiscount => gross
    case FivePercent => (95 * gross + 50) / 100
    case TenPercent => (90 * gross + 50) / 100
  }

  /** The line total is the discounted amount rounded to the nearest cent. */
  lemma LineTotalRounding(unitPrice: int, quantity: int, discount: Discount)
    ensures var gross := unitPrice * quantity;
      -50 < 100 * LineTotal(unitPrice, quantity, discount) - gross * (100 - Percent(discount)) <= 50
  {
    var gross := unitPrice * quantity;
    assert gross * (100 - Percent(discount)) == (100 - Percent(discount)) * gross;
  }

  // ---------------------------------------------------------------------
  // Draws and plans
  // ---------------------------------------------------------------------

  /** One item: the index of `random.choice(products)`, `randint(1, 5)` and the discount. */
  datatype ItemDraw = ItemDraw(product: nat, quantity: int, discount: Discount)

  /**
   * The draws of one shipment: the two delays of `rand_shipment_date` (for
   * the shipped and the delivery date), the carrier and the tracking code
   * (opaque text).
   */
  datatype ShipmentDraw = ShipmentDraw(shipDelay: Delay, deliveryDelay: Delay, carrier: Carrier, tracking: string)

  predicate ValidShipmentDraw(s: ShipmentDraw)
  {
    ValidDelay(s.shipDelay) && ValidDelay(s.deliveryDelay)
  }

  /** `None` when `random.random() < 0.8` fails, i.e. the order gets no shipment. */
  predicate ValidShipmentPlan(s: Option<ShipmentDraw>)
  {
    s.Some? ==> ValidShipmentDraw(s.value)
  }

  datatype Plan = Plan(
    customerId: int, date: int, promo: Option<Promo>, items: seq<ItemDraw>, shipment: Option<ShipmentDraw>)

  /** What is needed to compute the rows of a plan: its products exist and its delays are drawn in range. */
  predicate PlanFits(p: Plan, productCount: nat)
  {
    (forall j :: 0 <= j < |p.items| ==> p.items[j].product < productCount) && ValidShipmentPlan(p.shipment)
  }

  predicate PlansFit(plans: seq<Plan>, productCount: nat)
  {
    forall k :: 0 <= k < |plans| ==> PlanFits(plans[k], productCount)
  }

  /** Every plan's shipment draw, if any, has its delays in range. */
  predicate ShipmentsDrawn(plans: seq<Plan>)
  {
    forall k :: 0 <= k < |plans| ==> ValidShipmentPlan(plans[k].shipment)
  }

  /** Every plan draws 1 to 5 units of each item. */
  predicate QuantitiesDrawn(plans: seq<Plan>)
  {
    forall k :: 0 <= k < |plans| ==> forall j :: 0 <= j < |plans[k].items| ==> 1 <= plans[k].items[j].quantity <= 5
  }

  /** A plan as both loops draw it: a customer id in range, a date in 2021 to 2024, 1 to 4 items of 1 to 5 units. */
  predicate ValidPlan(p: Plan, productCount: nat)
  {
    && PlanFits(p, productCount)
    && 1 <= p.customerId <= NUM_CUSTOMERS
    && FIRST_ORDER_DAY <= p.date <= LAST_ORDER_DAY
    && 1 <= |p.items| <= 4
    && (forall j :: 0 <= j < |p.items| ==> 1 <= p.items[j].quantity <= 5)
  }

  /** Every plan is drawn as both order loops draw it. */
  predicate PlansValid(plans: seq<Plan>, productCount: nat)
  {
    forall k :: 0 <= k < |plans| ==> ValidPlan(plans[k], productCount)
  }

  // ---------------------------------------------------------------------
  // Rows of a plan
  // ---------------------------------------------------------------------

  /** Item `itemNo` of order `orderId`: the product's id and price, the drawn quantity, the discounted line. */
  function Line(products: seq<Product>, d: ItemDraw, orderId: int, itemNo: int): (r: OrderItem)
    requires d.product < |products|
    ensures r.orderId == orderId && r.itemNo == itemNo
    ensures r.productId == products[d.product].id && r.unitPrice == products[d.product].price
    ensures r.quantity == d.quantity
    ensures r.lineTotal == LineTotal(r.unitPrice, r.quantity, d.discount)
  {
    var p := products[d.product];
    OrderItem(orderId, itemNo, p.id, d.quantity, p.price, LineTotal(p.price, d.quantity, d.discount))
  }

  /** The items of one order, numbered from 1 (see `LinesAt`). */
  function Lines(products: seq<Product>, ds: seq<ItemDraw>, orderId: int): (r: seq<OrderItem>)
    requires forall j :: 0 <= j < |ds| ==> ds[j].product < |products|
    ensures |r| == |ds|
  {
    if |ds| == 0 then []
    else Lines(products, ds[..|ds| - 1], orderId) + [Line(products, ds[|ds| - 1], orderId, |ds|)]
  }

  /** Sum of the line totals of the items of order `orderId` (what `order_total` accumulates). */
  function ItemsTotal(items: seq<OrderItem>, orderId: int): (r: int)
    ensures ItemCount(items, orderId) == 0 ==> r == 0
  {
    if |items| == 0 then 0
    else
      var last := items[|items| - 1];
      ItemsTotal(items[..|items| - 1], orderId) + (if last.orderId == orderId then last.lineTotal else 0)
  }

  /** Number of items of order `orderId`. */
  function ItemCount(items: seq<OrderItem>, orderId: int): (r: nat)
    ensures r <= |items|
  {
    if |items| == 0 then 0
    else ItemCount(items[..|items| - 1], orderId) + (if items[|items| - 1].orderId == orderId then 1 else 0)
  }

  /** The order row of a plan: its total is the sum of its own lines. */
  function PlannedOrder(products: seq<Product>, p: Plan, id: int): (r: Order)
    requires PlanFits(p, |products|)
    ensures r.id == id && r.customerId == p.customerId && r.date == p.date && r.promo == p.promo
  {
    Order(id, p.customerId, p.date, ItemsTotal(Lines(products, p.items, id), id), p.promo)
  }

  /** A delivery date exists only with a shipped date, and each follows its predecessor by 0 to 20 days. */
  predicate ShipmentDatesOk(s: Shipment, orderDate: int)
  {
    && (s.shipped.Some? ==> orderDate <= s.shipped.value <= orderDate + 20)
    && (s.delivered.Some? ==> s.shipped.Some? && s.shipped.value <= s.delivered.value <= s.shipped.value + 20)
  }

  /**
   * The shipment of order `orderId`: shipped = `rand_shipment_date(order_date)`,
   * delivered = `rand_shipment_date(shipped)` if shipped is not `None`.
   */
  function ShipmentFor(d: ShipmentDraw, orderId: int, orderDate: int): (s: Shipment)
    requires ValidShipmentDraw(d)
    ensures s.orderId == orderId
    ensures ShipmentDatesOk(s, orderDate)
    ensures s.carrier == d.carrier && s.tracking == d.tracking
  {
    var shipped := RandShipmentDate(Some(orderDate), d.shipDelay);
    var delivered := if shipped.Some? then RandShipmentDate(shipped, d.deliveryDelay) else None;
    Shipment(orderId, shipped, delivered, d.carrier, d.tracking)
  }

  /** The shipment rows of one order: one exactly when a shipment was drawn. */
  function PlannedShipments(p: Plan, id: int): (r: seq<Shipment>)
    requires ValidShipmentPlan(p.shipment)
    ensures |r| == (if p.shipment.Some? then 1 else 0)
  {
    if p.shipment.Some? then [ShipmentFor(p.shipment.value, id, p.date)] else []
  }

  /** The order rows of `plans`, with ids from `first` (see `OrdersOfAt`). */
  function OrdersOf(products: seq<Product>, plans: seq<Plan>, first: int): (r: seq<Order>)
    requires PlansFit(plans, |products|)
    ensures |r| == |plans|
  {
    if |plans| == 0 then []
    else OrdersOf(products, plans[..|plans| - 1], first) + [PlannedOrder(products, plans[|plans| - 1], first + |plans| - 1)]
  }

  /** The order-item rows of `plans`, with order ids from `first` (see `ItemsOfRange`). */
  function ItemsOf(products: seq<Product>, plans: seq<Plan>, first: int): (r: seq<OrderItem>)
    requires PlansFit(plans, |products|)
    ensures |r| == DrawnItems(plans)
  {
    if |plans| == 0 then []
    else ItemsOf(products, plans[..|plans| - 1], first) + Lines(products, plans[|plans| - 1].items, first + |plans| - 1)
  }

  /** Number of item draws over all plans. */
  function DrawnItems(plans: seq<Plan>): nat
  {
    if |plans| == 0 then 0 else DrawnItems(plans[..|plans| - 1]) + |plans[|plans| - 1].items|
  }

  /** The shipment rows of `plans`, with order ids from `first` (see `ShipmentsOfMatch`). */
  function ShipmentsOf(plans: seq<Plan>, first: int): (r: seq<Shipment>)
    requires ShipmentsDrawn(plans)
    ensures |r| <= |plans|
  {
    if |plans| == 0 then []
    else ShipmentsOf(plans[..|plans| - 1], first) + PlannedShipments(plans[|plans| - 1], first + |plans| - 1)
  }

  // ---------------------------------------------------------------------
  // The schema's constraints
  // ---------------------------------------------------------------------

  /** Primary key of Orders: ids 1, 2, ... without gaps. */
  predicate OrdersNumbered(orders: seq<Order>)
  {
    forall k :: 0 <= k < |orders| ==> orders[k].id == k + 1
  }

  /** Every order references a customer id 1 to `NUM_CUSTOMERS` and is dated 2021 to 2024. */
  predicate OrdersInRange(orders: seq<Order>)
  {
    forall k :: 0 <= k < |orders| ==>
      1 <= orders[k].customerId <= NUM_CUSTOMERS && FIRST_ORDER_DAY <= orders[k].date <= LAST_ORDER_DAY
  }

  /** Foreign key Order_Items.order_id, given that order ids are 1 to `orderCount`. */
  predicate ItemsReferenceOrders(items: seq<OrderItem>, orderCount: int)
  {
    forall j :: 0 <= j < |items| ==> 1 <= items[j].orderId <= orderCount
  }

  predicate KeyBefore(a: OrderItem, b: OrderItem)
  {
    a.orderId < b.orderId || (a.orderId == b.orderId && a.itemNo < b.itemNo)
  }

  /** The composite key (order_id, item_no) strictly ascends, so no key repeats. */
  predicate ItemKeysAscending(items: seq<OrderItem>)
  {
    forall j1, j2 :: 0 <= j1 < j2 < |items| ==> KeyBefore(items[j1], items[j2])
  }

  /** Item `j` is the first of its order, or follows the previous item of the same order. */
  predicate NumberedAt(items: seq<OrderItem>, j: int)
    requires 0 <= j < |items|
  {
    && 1 <= items[j].itemNo <= 4
    && (items[j].itemNo == 1 ||
        (0 < j && items[j - 1].orderId == items[j].orderId && items[j - 1].itemNo + 1 == items[j].itemNo))
  }

  /** Item numbers start at 1 in each order and go up by one, to at most 4. */
  predicate ItemsNumbered(items: seq<OrderItem>)
  {
    forall j :: 0 <= j < |items| ==> NumberedAt(items, j)
  }

  /** The item references a product of the catalog and carries that product's price. */
  predicate Priced(products: seq<Product>, it: OrderItem)
  {
    exists p :: 0 <= p < |products| && products[p].id == it.productId && products[p].price == it.unitPrice
  }

  predicate LineWithinPrice(it: OrderItem)
  {
    it.unitPrice >= 0 ==> 0 <= it.lineTotal <= it.unitPrice * it.quantity
  }

  /** The value checks on one item: a catalog product at its price, 1 to 5 units, a line within the gross amount. */
  predicate ItemPriced(products: seq<Product>, it: OrderItem)
  {
    Priced(products, it) && 1 <= it.quantity <= 5 && LineWithinPrice(it)
  }

  predicate ItemsPriced(products: seq<Product>, items: seq<OrderItem>)
  {
    forall j :: 0 <= j < |items| ==> ItemPriced(products, items[j])
  }

  /** Each order's total is the sum of its items' line totals, and it has 1 to 4 items. */
  predicate OrderTotalsMatch(orders: seq<Order>, items: seq<OrderItem>)
  {
    forall k :: 0 <= k < |orders| ==>
      orders[k].total == ItemsTotal(items, orders[k].id) && 1 <= ItemCount(items, orders[k].id) <= 4
  }

  /** Shipment order ids strictly ascend: an order has at most one shipment. */
  predicate ShipmentsAscending(shipments: seq<Shipment>)
  {
    forall s1, s2 :: 0 <= s1 < s2 < |shipments| ==> shipments[s1].orderId < shipments[s2].orderId
  }

  /** Foreign key Shipments.order_id (ids 1 to |orders|), with dates consistent with the order's. */
  predicate ShipmentsReferenceOrders(orders: seq<Order>, shipments: seq<Shipment>)
  {
    forall s :: 0 <= s < |shipments| ==>
      && 1 <= shipments[s].orderId <= |orders|
      && ShipmentDatesOk(shipments[s], orders[shipments[s].orderId - 1].date)
  }

  predicate Integrity(products: seq<Product>, orders: seq<Order>, items: seq<OrderItem>, shipments: seq<Shipment>)
  {
    && OrdersNumbered(orders)
    && OrdersInRange(orders)
    && ItemsReferenceOrders(items, |orders|)
    && ItemKeysAscending(items)
    && ItemsNumbered(items)
    && ItemsPriced(products, items)
    && OrderTotalsMatch(orders, items)
    && ShipmentsAscending(shipments)
    && ShipmentsReferenceOrders(orders, shipments)
  }
}
