# A verified model of the e-commerce database generator

`24091865_Sri_lekha.py` fills an SQLite database for an online shop with
synthetic data: 12 categories, 300 products, 1000 customers (about 2% of
them with a missing contact field and 1% with a copied name or email),
1400 orders with one to four items each, an optional shipment per order, and
at least one near-duplicate order. At the end it sets every customer's
`total_spent` from the orders. This project models the part of the script
that builds those tables in memory and proves what the tables then satisfy:
the schema's primary keys, foreign keys and `CHECK` constraints (the sign
checks for catalog prices of at least 5.00, as the script draws them), the
numbering of orders and items, the order totals, the shipment dates, what
the two customer noise passes may and may not change, and the
`total_spent` sums.

Modelling choices:

- Every `random.*` draw and the clock reading `datetime.now()` are
  parameters. A `requires` clause pins each draw to the range the script
  draws it from: an index into a list, an offset inside a date range, a
  delay of 0 to 10 or 11 to 20 days, 1 to 4 items, 1 to 5 units.
  Probabilities and weights are not modelled.
- Money is integer cents, so `round(x, 2)` is exact integer arithmetic. A
  discounted line is rounded half up to the nearest cent.
- A date is its day ordinal, the number Python's `date.toordinal()` gives
  (1 January of year 1 is day 1).
- The customer table is an `array` that the two noise passes and the
  `total_spent` update change in place. The other tables are sequences, one
  row appended per step, as in the script.
- Each order is described by a *plan*: customer, date, promo code, item
  draws and shipment draw. `OrdersOf`, `ItemsOf` and `ShipmentsOf` give the
  rows a sequence of plans specifies. The two order loops are methods proved
  to build exactly those rows. Lemmas about the three functions prove the
  schema's constraints for any valid plans.

Modules: `Config` (constants and helpers), `Dates`, `Catalog`, `Customers`,
`Orders` (rows, plans and the schema's constraints), `OrderIntegrity`
(proofs of the constraints), `OrderGenerator` (the two order loops),
`Aggregate` (`total_spent`) and `Generate` (the whole generator).

Points where the code does something easy to misread; the model follows
the code:

- The promo code is drawn from a list of six entries, three of them `None`.
- The number of near-duplicate orders is `max(1, int(0.01 * len(orders)))`,
  which rounds down: 14 for 1400 orders.
- The duplicate-customer pass may copy a row onto itself. It may also copy
  from a row that an earlier step of the same pass has already overwritten.
  Both are modelled as written (`Customers.SelfCopyIsNoOp`,
  `Customers.ChainedCopy`).
- A near-duplicate order may copy an earlier near-duplicate, because
  `random.choice(orders)` sees the orders appended so far.
- The `int(0.02 * n)` count of rows with a missing contact holds after the
  missing-contact pass only. The duplicate pass may copy a null email onto a
  row that had all its contacts, or a filled email onto a row whose email was
  nulled, so the finished table can have more or fewer such rows.
  `Generate.BuildCustomerTable` states the count after the first pass.

## Model

| member | source | states |
|---|---|---|
| Dates.SpanDays | 24091865_Sri_lekha.py:35-38 | the offset bound `(end - start).days` of a range of whole years is at least 364 |
| Dates.YearsSpan | 24091865_Sri_lekha.py:36-38 | from 1 January of the first year to 31 December of the last is at least 365 days per year in between, plus 364 |
| Dates.YearLength | 24091865_Sri_lekha.py:36-37 | consecutive New Year's days are 366 days apart in a Gregorian leap year and 365 otherwise |
| Dates.RandDate | 24091865_Sri_lekha.py:35-39 | the drawn date lies between 1 January of the start year and 31 December of the end year, and is exactly the drawn offset after 1 January |
| Dates.RandOrderDate | 24091865_Sri_lekha.py:41-42 | an order date lies in 2021 to 2024 |
| Dates.ConfiguredSpans | 24091865_Sri_lekha.py:35-42 | the configured ranges allow offsets up to 1460 days (2021 to 2024) and 2556 days (2018 to 2024) |
| Dates.RandShipmentDate | 24091865_Sri_lekha.py:44-52 | no input date gives no date; there is a result exactly when there is an input and the draw is not `None`; a result is 0 to 20 days after its input, at most 10 days after when on time, and at least 11 days after when late |
| Catalog.Categories | 24091865_Sri_lekha.py:140-145 | the twelve category rows carry ids 1 to 12 in list order |
| Catalog.ThreeDigits | 24091865_Sri_lekha.py:152 | the number in a product name is three decimal digits without a leading zero, and they read back as the drawn number |
| Catalog.ProductName | 24091865_Sri_lekha.py:152 | a product name is the word, a space, the qualifier, a space and the three digits |
| Catalog.ProductOf | 24091865_Sri_lekha.py:150-155 | product `pid` takes id `pid` and the drawn name, and its category is a category row, its price within 5.00 to 1000.00 and its stock within 0 to 500 |
| Catalog.BuildProducts | 24091865_Sri_lekha.py:149-155 | the product loop builds one product per draw, product `k + 1` from draw `k`; the catalog is numbered from 1 without gaps, every category id is a category row, and price and stock satisfy the table's non-negativity checks |
| Customers.FlattenAddress | 24091865_Sri_lekha.py:171 | the stored address has no newline, an address without newlines is unchanged, and flattening never shortens it |
| Customers.NewCustomer | 24091865_Sri_lekha.py:166-175 | customer `id` starts with all three contact fields (the drawn email and phone, and the drawn address flattened by `FlattenAddress`), `total_spent` 0, a birth date 18 to 70 years of 365 days before the clock reading and a registration date in 2018 to 2024 |
| Customers.BuildCustomers | 24091865_Sri_lekha.py:165-175 | customer ids run from 1 without gaps; every row starts with all three contact fields and `total_spent` 0, a birth date 18 to 70 years of 365 days before the clock reading, and a registration date in 2018 to 2024 |
| Customers.Blank | 24091865_Sri_lekha.py:180-181 | nulling a contact field never decreases the number of missing contacts, and a row with all contacts ends with exactly one missing |
| Customers.ApplyMissing | 24091865_Sri_lekha.py:178-181 | the missing-contact pass keeps the table's size and changes nothing but contact fields, and a changed contact field becomes null |
| Customers.MissingCount | 24091865_Sri_lekha.py:178 | `int(0.02 * n)` as the largest count `r` with `100 * r <= 2 * n`, never more than `n`, so the sample can be drawn |
| Customers.MissingEffect | 24091865_Sri_lekha.py:178-181 | each picked row ends with exactly its picked column nulled, and every row that was not picked is unchanged |
| Customers.MissingRowsCounted | 24091865_Sri_lekha.py:178-181 | starting from a table with all contacts, the rows left with a missing contact are exactly the picked rows, there are as many of them as there are picks, and each misses exactly one field |
| Customers.InjectMissingContacts | 24091865_Sri_lekha.py:178-181 | the in-place pass over the customer array leaves exactly the table that `ApplyMissing` specifies, with each picked row blanked in its picked column and every other row untouched |
| Customers.DuplicateCount | 24091865_Sri_lekha.py:184 | `int(0.01 * n)` as the largest count `r` with `100 * r <= n`, never more than `n`, so the sample can be drawn |
| Customers.CopyIdentity | 24091865_Sri_lekha.py:187-190 | one step of the duplicate pass: the target takes its source's current name, and its email exactly when the coin says so; no other column of the target and no other row changes |
| Customers.ApplyDuplicates | 24091865_Sri_lekha.py:184-190 | the duplicate pass keeps the table's size and changes nothing but names and emails |
| Customers.DuplicatesCopyExisting | 24091865_Sri_lekha.py:184-190 | every name and every email after the pass already occurred in the table before it |
| Customers.DuplicatesUntouched | 24091865_Sri_lekha.py:184-190 | a row that is not a target of the pass is unchanged |
| Customers.SelfCopyIsNoOp | 24091865_Sri_lekha.py:186-190 | a row that copies itself is unchanged |
| Customers.ChainedCopy | 24091865_Sri_lekha.py:186-190 | copying from an earlier target copies the value that target received |
| Customers.InjectDuplicates | 24091865_Sri_lekha.py:184-190 | the in-place pass leaves exactly the table `ApplyDuplicates` specifies; every row keeps all but its name and email, and rows that are not targets are untouched |
| Config.DistinctCard | 24091865_Sri_lekha.py:178-185 | `random.sample` rows are distinct, so the set of changed rows has as many members as there are picks |
| Orders.LineTotal | 24091865_Sri_lekha.py:216 | a line without discount is `unit_price * qty` exactly, and for a non-negative gross amount a line is never negative and never above `unit_price * qty` |
| Orders.LineTotalRounding | 24091865_Sri_lekha.py:216 | the line total is `unit_price * qty * (1 - d)` rounded to the nearest cent, within half a cent |
| Orders.Line | 24091865_Sri_lekha.py:212-217 | an item row carries its order id and item number, the picked product's id and catalog price, the drawn quantity, and as its line total `LineTotal` of that price, quantity and discount |
| Orders.Lines | 24091865_Sri_lekha.py:209-219 | one item row per item draw (each row is `Line` of its draw with item number `j + 1`, see `LinesAt`) |
| Orders.ItemsTotal | 24091865_Sri_lekha.py:210-221 | the `order_total` accumulator: an order with no item rows sums to 0 (sum and count per order are tied together by `ItemsOfTotals`) |
| Orders.PlannedOrder | 24091865_Sri_lekha.py:221-222 | the order row carries its id and its plan's customer, date and promo code (its total is the sum of its lines, see `ItemsOfTotals`) |
| Orders.ShipmentFor | 24091865_Sri_lekha.py:224-227 | a shipment references its order, its shipped date is 0 to 20 days after the order date, a delivery date exists only with a shipped date and is 0 to 20 days after it, and carrier and tracking code are the drawn ones |
| Orders.PlannedShipments | 24091865_Sri_lekha.py:224-227 | an order gets one shipment row exactly when a shipment was drawn for it, and none otherwise |
| Orders.OrdersOf | 24091865_Sri_lekha.py:202-222 | one order row per plan (row contents are stated by `OrdersOfAt` and `OrdersOfFields`) |
| Orders.ItemsOf | 24091865_Sri_lekha.py:209-219 | one item row per item draw over all plans (row contents are stated by `ItemsOfPriced` and `ItemsOfNumbered`) |
| Orders.ShipmentsOf | 24091865_Sri_lekha.py:224-228 | at most one shipment row per plan (row contents are stated by `ShipmentsOfMatch`) |
| OrderIntegrity.LinesAt | 24091865_Sri_lekha.py:209-219 | item `j` of an order is item number `j + 1`, with the product's id and price and the drawn quantity |
| OrderIntegrity.OrdersOfAt | 24091865_Sri_lekha.py:202-228 | order `k` of the table is the row of plan `k` with id `first + k` |
| OrderIntegrity.OrdersOfFields | 24091865_Sri_lekha.py:202-222 | order `k` carries id `first + k` and its plan's customer, date and promo code |
| OrderIntegrity.ItemsOfRange | 24091865_Sri_lekha.py:217-243 | every item references one of the orders built |
| OrderIntegrity.ItemsOfKeysAscending | 24091865_Sri_lekha.py:209-219 | the composite key (order id, item number) strictly ascends, so no key repeats |
| OrderIntegrity.ItemsOfNumbered | 24091865_Sri_lekha.py:208-219 | item numbers start at 1 in each order and go up by one to at most 4 |
| OrderIntegrity.ItemsOfPriced | 24091865_Sri_lekha.py:212-217 | every item references a catalog product at that product's price, with 1 to 5 units and, for a non-negative price, a line within the gross amount |
| OrderIntegrity.ItemsOfTotals | 24091865_Sri_lekha.py:210-221 | the items of order `first + k` in the whole item table have the sum and the count of that order's own lines |
| OrderIntegrity.ShipmentsOfMatch | 24091865_Sri_lekha.py:224-228 | shipment order ids strictly ascend, so no order has two shipments; each references an order built and is dated after that order's date as `rand_shipment_date` allows |
| OrderIntegrity.OrdersOfAppend | 24091865_Sri_lekha.py:228-248 | orders drawn in two batches, the second numbered on from the first, are the orders of both batches together |
| OrderIntegrity.ItemsOfAppend | 24091865_Sri_lekha.py:228-248 | the same for the item table |
| OrderIntegrity.ShipmentsOfAppend | 24091865_Sri_lekha.py:228-248 | the same for the shipment table |
| OrderIntegrity.SplitTables | 24091865_Sri_lekha.py:202-248 | cutting the plans after plan `n` cuts each of the three tables in two: the first part numbered from 1, the second continuing from `n + 1` |
| OrderIntegrity.ItemsTotalNonNegative | 24091865_Sri_lekha.py:210-221 | a sum of non-negative line totals is not negative |
| OrderIntegrity.PlannedIntegrity | 24091865_Sri_lekha.py:199-248 | the tables of any valid plans satisfy the schema's key, reference, numbering and total constraints: order ids 1, 2, ... without gaps, customer ids and dates in range, item and shipment foreign keys, the composite item key, item numbering, catalog prices, order totals equal to the sum of their lines with 1 to 4 lines each, and at most one correctly dated shipment per order; the sign checks on line and order totals hold when catalog prices are non-negative (`Aggregate.OrderTotalsNonNegative`) |
| OrderIntegrity.ProductIdsInCatalog | 24091865_Sri_lekha.py:212-213 | every item's product id is a catalog id 1 to `NUM_PRODUCTS` |
| OrderGenerator.BasePlan | 24091865_Sri_lekha.py:204-215 | a main-loop order is a valid plan: customer 1 to 1000, a date in 2021 to 2024, 1 to 4 items of 1 to 5 catalog units |
| OrderGenerator.DuplicateOrderCount | 24091865_Sri_lekha.py:231 | `max(1, int(0.01 * n))`: exactly 1 near-duplicate for fewer than 100 orders, and `n / 100` for 100 or more |
| OrderGenerator.AllPlans | 24091865_Sri_lekha.py:230-236 | the duplicate loop adds one plan per draw after the main loop's plans (what each one copies is stated by `AllPlansPrefix` and `AllPlansDuplicate`) |
| OrderGenerator.AllPlansPrefix | 24091865_Sri_lekha.py:230-248 | the duplicate loop leaves the main loop's orders as they were |
| OrderGenerator.AllPlansDuplicate | 24091865_Sri_lekha.py:232-236 | near-duplicate `i` copies one of the orders that exist when it is drawn |
| OrderGenerator.AllPlansValid | 24091865_Sri_lekha.py:230-248 | near-duplicates of valid orders are valid orders |
| OrderGenerator.DuplicateOrderRow | 24091865_Sri_lekha.py:233-243 | a near-duplicate order row has the customer, date and promo code of the row it copies, exactly one item (item 1: one unit at list price), and that price as its total |
| OrderGenerator.DuplicateTablesFollow | 24091865_Sri_lekha.py:202-248 | the near-duplicates continue the main loop's id sequence: each table is the main loop's table followed by the near-duplicates' table, numbered on from `len(orders) + 1` |
| OrderGenerator.EmitOrder | 24091865_Sri_lekha.py:209-228 | the item loop with its `item_no` counter and `order_total` accumulator builds exactly the order's lines, an order row whose total is their sum, and the order's optional shipment |
| OrderGenerator.BaseOrders | 24091865_Sri_lekha.py:199-228 | the main loop with the running `order_id_seq` builds exactly the tables of the main-loop plans |
| OrderGenerator.DuplicateOrders | 24091865_Sri_lekha.py:230-248 | the near-duplicate loop continues the same id sequence and tables and builds exactly the tables of all plans |
| OrderGenerator.GenerateOrders | 24091865_Sri_lekha.py:199-248 | both loops together build exactly the tables of all plans, `NUM_ORDERS + max(1, NUM_ORDERS / 100)` orders, satisfying the schema's key, reference, numbering and total constraints; the first `NUM_ORDERS` plans are the main loop's and the near-duplicates' rows follow them with ids continued |
| Aggregate.SpentBy | 24091865_Sri_lekha.py:264-266 | `SUM(order_total)` over customer `cid`'s orders, 0 for a customer with no orders |
| Aggregate.SpentByNonNegative | 24091865_Sri_lekha.py:264-268 | with non-negative order totals, every customer's sum is non-negative |
| Aggregate.TotalSpentIsSpentBy | 24091865_Sri_lekha.py:264-268 | a row inserted with `total_spent` 0 ends with its customer's sum, whether or not the customer has orders |
| Aggregate.SpentByAllSnoc | 24091865_Sri_lekha.py:264-266 | one more order adds its total to the sum over customer ids 1 to `n` exactly when its customer is among them |
| Aggregate.SpendingConserved | 24091865_Sri_lekha.py:264-268 | when every order references a customer 1 to `n`, the customers' sums add up to the sum of all order totals |
| Aggregate.OrderTotalsNonNegative | 24091865_Sri_lekha.py:210-221 | with non-negative catalog prices, every unit price, line total and order total of tables satisfying `Integrity` is non-negative |
| Aggregate.UpdatedTotals | 24091865_Sri_lekha.py:264-268 | after the update, row `k` holds customer `k + 1`'s sum, not negative, and no other column changed |
| Aggregate.WithTotalSpent | 24091865_Sri_lekha.py:267 | the update changes no column but `total_spent` |
| Aggregate.UpdateTotalSpent | 24091865_Sri_lekha.py:264-268 | every customer row is set from its own customer's group, and rows without a group are untouched |
| Generate.BuildCustomerTable | 24091865_Sri_lekha.py:164-190 | the table is the inserted rows with the missing-contact pass and then the duplicate pass applied; exactly `int(0.02 * n)` rows lose a contact field in the first pass; customer ids still run 1 to `n` and every `total_spent` is still 0 |
| Generate.BuildOrderTables | 24091865_Sri_lekha.py:148-248 | product `k + 1` is built from product draw `k` in a well-formed catalog of 300; the order, item and shipment tables are exactly those of the drawn plans, 1414 orders satisfying the schema's key, reference, numbering and total constraints, with every unit price, line total and order total non-negative and every item's product id in 1 to 300 |
| Generate.SettleTotals | 24091865_Sri_lekha.py:264-268 | every customer ends with the non-negative sum of its orders, no other column changes, every order references a customer row, every order total is non-negative, and the sums account for every order |
| Generate.GenerateStore | 24091865_Sri_lekha.py:148-268 | the whole generator: product `k + 1` is built from product draw `k`; the order, item and shipment tables are exactly those of the drawn plans, 1414 orders satisfying the schema's key, reference, numbering and total constraints, every order total non-negative (`CHECK (order_total >= 0)`), item product ids in 1 to 300; the customer table is the inserted rows after both noise passes with each `total_spent` set to the non-negative sum of that customer's orders, ids 1 to 1000, every order referencing a customer row, and the sums accounting for every order |

## Left out

- SQLite: the connection, the schema script, the inserts, the commits, the `PRAGMA` statements and the summary prints. The model proves the schema's constraints instead of relying on the engine to enforce them.
- The SQL `GROUP BY` and `UPDATE` statements. The model gives their result: each customer row gets its group's sum, and rows without a group keep their value. The script sends one `UPDATE` per group; the model makes one pass over the rows. Both produce the same table, because each row's new value depends only on its own id.
- Faker text: product words, names, emails, phone numbers, addresses and tracking codes are opaque strings supplied with the draws. Capitalising the word is part of that text.
- Probabilities and weights: the 0.8 shipment chance, the delay weights, the item-count weights, the tier weights, the discount frequencies and the seeding. Only each draw's range is modelled.
- How many values the random stream yields: `rand_shipment_date` draws both `randint` values before choosing, and that is not modelled.
- Floating point: `random.uniform` prices and `round(x, 2)` are modelled as integer cents, and a discounted line as round-half-up to the nearest cent. Binary floating-point ties are not modelled.
- `int(0.02 * n)` and `int(0.01 * n)` are modelled as `n * 2 / 100` and `n / 100`, which agree with the float expressions for the configured 1000 customers and 1400 orders.
- ISO date strings: dates are day ordinals. The clock reading `datetime.now()` is the parameter `today`, and the birth date is `today` minus the drawn number of days.
- `Customers.BuildCustomers`: the script reads `datetime.now()` once per customer, so rows built across midnight can see different days; the model uses one `today` for the whole table.
- The auto-assigned `shipment_id`, for which the script passes `None`.
- The category table insert: `Catalog.Categories` gives its rows, and no insert is modelled.
