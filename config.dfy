/**
 * Configuration constants of the e-commerce data generator, and the small
 * vocabulary shared by every stage.
 *
 * Conventions used throughout the model:
 * - money is an integer number of cents (the source's `round(x, 2)` on dollars);
 * - a calendar date is its proleptic Gregorian day ordinal, as Python's
 *   `date.toordinal()` gives it (1 January of year 1 is day 1);
 * - a nullable column is an `Option`.
 */
module Config {

  datatype Option<+T> = None | Some(value: T)

  /** NUM_CUSTOMERS, NUM_CATEGORIES, NUM_PRODUCTS, NUM_ORDERS. */
  const NUM_CUSTOMERS: nat := 1000
  const NUM_CATEGORIES: nat := 12
  const NUM_PRODUCTS: nat := 300
  const NUM_ORDERS: nat := 1400

  /** PRICE_MIN = 5.0 and PRICE_MAX = 1000.0 dollars, in cents. */
  const PRICE_MIN_CENTS: int := 500
  const PRICE_MAX_CENTS: int := 100000

  /** Upper bound of the stock draw `randint(0, 500)`. */
  const STOCK_MAX: int := 500

  /** The indices of a `random.sample`: pairwise distinct. */
  predicate Distinct(xs: seq<nat>)
  {
    forall i, j :: 0 <= i < j < |xs| ==> xs[i] != xs[j]
  }

  /** The set of indices a sample covers. */
  function Covered(xs: seq<nat>): set<nat>
  {
    set i | 0 <= i < |xs| :: xs[i]
  }

  /** A sample of distinct indices covers exactly as many indices as it has entries. */
  lemma {:induction false} DistinctCard(xs: seq<nat>)
    requires Distinct(xs)
    ensures |Covered(xs)| == |xs|
  {
    if |xs| > 0 {
      var init := xs[..|xs| - 1];
      var last := xs[|xs| - 1];
      DistinctCard(init);
      assert Covered(xs) == Covered(init) + {last} by {
        forall x | x in Covered(xs) ensures x in Covered(init) + {last} {
          var i :| 0 <= i < |xs| && xs[i] == x;
          if i < |init| { assert init[i] == x; }
        }
        forall i | 0 <= i < |init| ensures init[i] in Covered(xs) {
          assert init[i] == xs[i];
        }
      }
      assert last !in Covered(init) by {
        forall i | 0 <= i < |init| ensures init[i] != last {
          assert init[i] == xs[i];
        }
      }
    }
  }
}
