/**
 * The whole in-memory pipeline in the script's order: categories and
 * products, customers with their two noise passes, the two order loops,
 * then the `total_spent` aggregate. Every random draw and the clock reading
 * are parameters; the tables are what the script inserts.
 */
module Generate {
  import opened Config
  import opened Catalog
  import opened Customers
  import opened Orders
  import opened OrderGenerator
  import opened Aggregate
  import opened OrderIntegrity

  /** The customer table the loop inserts: row `k` is customer `k + 1` built from draw `k`. */
  function InsertedCustomers(today: int, customerDraws: seq<CustomerDraw>): (r: seq<Customer>)
    requires forall k :: 0 <= k < |customerDraws| ==> ValidCustomerDraw(customerDraws[k])
    ensures |r| == |customerDraws|
    ensures forall k :: 0 <= k < |r| ==> HasAllContacts(r[k])
  {
    seq(|customerDraws|, k requires 0 <= k < |customerDraws| => NewCustomer(today, customerDraws[k], k + 1))
  }

  /** The customer table after the missing-contact pass and then the duplicate pass. */
  function NoisyCustomers(today: int, customerDraws: seq<CustomerDraw>,
                          missingPicks: seq<MissingPick>, duplicatePicks: seq<DuplicatePick>): (r: seq<Customer>)
    requires forall k :: 0 <= k < |customerDraws| ==> ValidCustomerDraw(customerDraws[k])
    requires forall k :: 0 <= k < |missingPicks| ==> missingPicks[k].row < |customerDraws|
    requires DuplicatePicksInRange(duplicatePicks, |customerDraws|)
    ensures |r| == |customerDraws|
  {
    ApplyDuplicates(ApplyMissing(InsertedCustomers(today, customerDraws), missingPicks), duplicatePicks)
  }

  /**
   * The customer loop and its two noise passes: the table is the inserted
   * rows with both passes applied, ids stay 1 to `n`, every `total_spent`
   * stays 0, and exactly `int(0.02 * n)` rows lose a contact column.
   */
  method BuildCustomerTable(today: int, customerDraws: seq<CustomerDraw>,
                            missingPicks: seq<MissingPick>, duplicatePicks: seq<DuplicatePick>)
    returns (customers: array<Customer>)
    requires forall k :: 0 <= k < |customerDraws| ==> ValidCustomerDraw(customerDraws[k])
    requires |missingPicks| == MissingCount(|customerDraws|)
    requires forall k :: 0 <= k < |missingPicks| ==> missingPicks[k].row < |customerDraws|
    requires Distinct(PickedRows(missingPicks))
    requires |duplicatePicks| == DuplicateCount(|customerDraws|)
    requires DuplicatePicksInRange(duplicatePicks, |customerDraws|)
    requires Distinct(PickedRows(duplicatePicks))
    ensures fresh(customers)
    ensures customers[..] == NoisyCustomers(today, customerDraws, missingPicks, duplicatePicks)
    ensures customers.Length == |customerDraws|
    ensures forall k :: 0 <= k < customers.Length ==> customers[k].id == k + 1 && customers[k].totalSpent == 0
    ensures var afterMissing := ApplyMissing(InsertedCustomers(today, customerDraws), missingPicks);
            |set i | 0 <= i < |afterMissing| && !HasAllContacts(afterMissing[i])| == MissingCount(|customerDraws|)
  {
    var rows := BuildCustomers(today, customerDraws);
    assert rows == InsertedCustomers(today, customerDraws);
    customers := new Customer[|rows|](i requires 0 <= i < |rows| => rows[i]);
    assert customers[..] == rows;
    InjectMissingContacts(customers, missingPicks);
    ghost var afterMissing := customers[..];
    MissingRowsCounted(rows, missingPicks);
    InjectDuplicates(customers, duplicatePicks);
    forall k | 0 <= k < customers.Length
      ensures customers[k].id == k + 1 && customers[k].totalSpent == 0
    {
      assert SameExceptContacts(rows[k], afterMissing[k]);
    }
  }

  /** A customer table after the aggregate: row `k` holds customer `k + 1`'s sum and is otherwise unchanged. */
  function SettledCustomers(rows: seq<Customer>, orders: seq<Order>): (r: seq<Customer>)
    ensures |r| == |rows|
  {
    seq(|rows|, k requires 0 <= k < |rows| => rows[k].(totalSpent := SpentBy(orders, k + 1)))
  }

  /**
   * The `total_spent` aggregate over the finished order table: every row ends
   * with its customer's sum, never negative, and every order references a row.
   */
  method SettleTotals(customers: array<Customer>, products: seq<Product>,
                      orders: seq<Order>, items: seq<OrderItem>, shipments: seq<Shipment>)
    requires customers.Length == NUM_CUSTOMERS
    requires forall k :: 0 <= k < customers.Length ==> customers[k].id == k + 1 && customers[k].totalSpent == 0
    requires WellFormedCatalog(products)
    requires Integrity(products, orders, items, shipments)
    modifies customers
    ensures forall k :: 0 <= k < customers.Length ==>
      && customers[k] == old(customers[k]).(totalSpent := SpentBy(orders, k + 1))
      && customers[k].id == k + 1
      && customers[k].totalSpent == SpentBy(orders, k + 1)
      && customers[k].totalSpent >= 0
    ensures forall k :: 0 <= k < |orders| ==>
      1 <= orders[k].customerId <= customers.Length && customers[orders[k].customerId - 1].id == orders[k].customerId
    ensures SpentByAll(orders, customers.Length) == Revenue(orders)
    ensures customers[..] == SettledCustomers(old(customers[..]), orders)
    ensures TotalsNonNegative(orders)
  {
    ghost var before := customers[..];
    UpdateTotalSpent(customers, orders);
    OrderTotalsNonNegative(products, orders, items, shipments);
    UpdatedTotals(before, customers[..], orders);
    assert customers[..] == SettledCustomers(before, orders);
    assert OrdersInRange(orders);
    SpendingConserved(orders, NUM_CUSTOMERS);
  }

  /**
   * Categories, products and both order loops: the catalog is numbered and
   * in range, and the three order tables are those of the drawn plans,
   * `NUM_ORDERS + 14` orders satisfying every key, reference, numbering and
   * total constraint of the schema, and every unit price, line total and
   * order total is non-negative.
   */
  method BuildOrderTables(productDraws: seq<ProductDraw>, orderDraws: seq<OrderDraw>, duplicateDraws: seq<DuplicateDraw>)
    returns (products: seq<Product>, orders: seq<Order>, items: seq<OrderItem>, shipments: seq<Shipment>)
    requires |productDraws| == NUM_PRODUCTS
    requires forall k :: 0 <= k < |productDraws| ==> ValidProductDraw(productDraws[k])
    requires |orderDraws| == NUM_ORDERS
    requires forall k :: 0 <= k < |orderDraws| ==> ValidOrderDraw(orderDraws[k], NUM_PRODUCTS)
    requires |duplicateDraws| == DuplicateOrderCount(NUM_ORDERS)
    requires ValidDuplicateDraws(duplicateDraws, NUM_ORDERS, NUM_PRODUCTS)
    ensures |products| == NUM_PRODUCTS && WellFormedCatalog(products)
    ensures forall k :: 0 <= k < |products| ==> products[k] == ProductOf(productDraws[k], k + 1)
    ensures orders == OrdersOf(products, OrderPlans(NUM_PRODUCTS, orderDraws, duplicateDraws), 1)
    ensures items == ItemsOf(products, OrderPlans(NUM_PRODUCTS, orderDraws, duplicateDraws), 1)
    ensures shipments == ShipmentsOf(OrderPlans(NUM_PRODUCTS, orderDraws, duplicateDraws), 1)
    ensures |orders| == NUM_ORDERS + 14
    ensures Integrity(products, orders, items, shipments)
    ensures forall j :: 0 <= j < |items| ==> 1 <= items[j].productId <= NUM_PRODUCTS
    ensures TotalsNonNegative(orders)
    ensures ItemValuesNonNegative(items)
  {
    products := BuildProducts(productDraws);
    orders, items, shipments := GenerateOrders(products, orderDraws, duplicateDraws);
    ProductIdsInCatalog(products, items);
    OrderTotalsNonNegative(products, orders, items, shipments);
  }

  /**
   * The whole generator. The catalog and the order tables are those of
   * `BuildOrderTables`; the customer table holds the inserted rows after
   * both noise passes, each with its customer's `total_spent`: the sum of
   * its orders' totals, never negative, the sums together accounting for
   * every order, and every order references a customer row.
   */
  method GenerateStore(
    today: int,
    productDraws: seq<ProductDraw>,
    customerDraws: seq<CustomerDraw>,
    missingPicks: seq<MissingPick>,
    duplicatePicks: seq<DuplicatePick>,
    orderDraws: seq<OrderDraw>,
    duplicateDraws: seq<DuplicateDraw>)
    returns (products: seq<Product>, customers: array<Customer>,
             orders: seq<Order>, items: seq<OrderItem>, shipments: seq<Shipment>)
    requires |productDraws| == NUM_PRODUCTS
    requires forall k :: 0 <= k < |productDraws| ==> ValidProductDraw(productDraws[k])
    requires |customerDraws| == NUM_CUSTOMERS
    requires forall k :: 0 <= k < |customerDraws| ==> ValidCustomerDraw(customerDraws[k])
    requires |missingPicks| == MissingCount(NUM_CUSTOMERS)
    requires forall k :: 0 <= k < |missingPicks| ==> missingPicks[k].row < NUM_CUSTOMERS
    requires Distinct(PickedRows(missingPicks))
    requires |duplicatePicks| == DuplicateCount(NUM_CUSTOMERS)
    requires DuplicatePicksInRange(duplicatePicks, NUM_CUSTOMERS)
    requires Distinct(PickedRows(duplicatePicks))
    requires |orderDraws| == NUM_ORDERS
    requires forall k :: 0 <= k < |orderDraws| ==> ValidOrderDraw(orderDraws[k], NUM_PRODUCTS)
    requires |duplicateDraws| == DuplicateOrderCount(NUM_ORDERS)
    requires ValidDuplicateDraws(duplicateDraws, NUM_ORDERS, NUM_PRODUCTS)
    ensures fresh(customers)
    ensures |products| == NUM_PRODUCTS && WellFormedCatalog(products)
    ensures forall k :: 0 <= k < |products| ==> products[k] == ProductOf(productDraws[k], k + 1)
    ensures orders == OrdersOf(products, OrderPlans(NUM_PRODUCTS, orderDraws, duplicateDraws), 1)
    ensures items == ItemsOf(products, OrderPlans(NUM_PRODUCTS, orderDraws, duplicateDraws), 1)
    ensures shipments == ShipmentsOf(OrderPlans(NUM_PRODUCTS, orderDraws, duplicateDraws), 1)
    ensures |orders| == NUM_ORDERS + 14
    ensures Integrity(products, orders, items, shipments)
    ensures customers.Length == NUM_CUSTOMERS
    ensures customers[..] == SettledCustomers(NoisyCustomers(today, customerDraws, missingPicks, duplicatePicks), orders)
    ensures forall k :: 0 <= k < customers.Length ==>
      customers[k].id == k + 1 && customers[k].totalSpent >= 0
    ensures forall k :: 0 <= k < |orders| ==>
      1 <= orders[k].customerId <= customers.Length && customers[orders[k].customerId - 1].id == orders[k].customerId
    ensures SpentByAll(orders, customers.Length) == Revenue(orders)
    ensures TotalsNonNegative(orders)
  {
    products, orders, items, shipments := BuildOrderTables(productDraws, orderDraws, duplicateDraws);
    customers := BuildCustomerTable(today, customerDraws, missingPicks, duplicatePicks);
    SettleTotals(customers, products, orders, items, shipments);
  }
}
