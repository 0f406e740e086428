/**
 * Reference data and the product catalog: the fixed category list and the
 * product loop, which numbers products from 1 and draws a category, a
 * price and a stock level for each.
 */
module Catalog {
  import opened Config

  /** The hard-coded category names, numbered 1 to 12 in this order. */
  const CATEGORY_NAMES: seq<string> := [
    "Electronics", "Clothing", "Home & Kitchen", "Books", "Toys", "Sports",
    "Beauty", "Groceries", "Automotive", "Office", "Garden", "Health"
  ]

  datatype Category = Category(id: int, name: string)

  /** The category rows: one per name, with ids 1 to `NUM_CATEGORIES`. */
  function Categories(): (r: seq<Category>)
    ensures |r| == NUM_CATEGORIES
    ensures forall i :: 0 <= i < |r| ==> r[i].id == i + 1 && r[i].name == CATEGORY_NAMES[i]
  {
    seq(|CATEGORY_NAMES|, i requires 0 <= i < |CATEGORY_NAMES| => Category(i + 1, CATEGORY_NAMES[i]))
  }

  /** `id` is the id of one of the category rows. */
  predicate IsCategoryId(id: int)
  {
    exists c :: 0 <= c < |Categories()| && Categories()[c].id == id
  }

  /** The qualifier token of a product name, drawn from a fixed list of six. */
  datatype Qualifier = Pro | X | Plus | Mini | Max | Series

  function QualifierText(q: Qualifier): string
  {
    match q
    case Pro => "Pro"
    case X => "X"
    case Plus => "Plus"
    case Mini => "Mini"
    case Max => "Max"
    case Series => "Series"
  }

  function DigitChar(d: int): (c: char)
    requires 0 <= d <= 9
    ensures '0' <= c <= '9' && DigitValue(c) == d
  {
    ('0' as int + d) as char
  }

  function DigitValue(c: char): int
  {
    c as int - '0' as int
  }

  /** The decimal text of a number drawn by `randint(100, 999)`; it reads back as that number. */
  function ThreeDigits(n: int): (r: string)
    requires 100 <= n <= 999
    ensures |r| == 3
    ensures forall i :: 0 <= i < 3 ==> '0' <= r[i] <= '9'
    ensures r[0] != '0'
    ensures 100 * DigitValue(r[0]) + 10 * DigitValue(r[1]) + DigitValue(r[2]) == n
  {
    var hundreds, tens, units := n / 100, n / 10 % 10, n % 10;
    assert 100 * hundreds + 10 * tens + units == n;
    [DigitChar(hundreds), DigitChar(tens), DigitChar(units)]
  }

  /**
   * The draws one product takes: the (capitalised) dictionary word comes
   * from the text generator and is opaque here; the other fields are the
   * `random` draws, price already rounded to cents.
   */
  datatype ProductDraw = ProductDraw(
    categoryId: int, word: string, qualifier: Qualifier, number: int, price: int, stock: int)

  predicate ValidProductDraw(d: ProductDraw)
  {
    && 1 <= d.categoryId <= NUM_CATEGORIES
    && 100 <= d.number <= 999
    && PRICE_MIN_CENTS <= d.price <= PRICE_MAX_CENTS
    && 0 <= d.stock <= STOCK_MAX
  }

  datatype Product = Product(id: int, name: string, categoryId: int, price: int, stock: int)

  /** The name `f"{word} {qualifier} {number}"`. */
  function ProductName(d: ProductDraw): (r: string)
    requires ValidProductDraw(d)
    ensures |r| == |d.word| + |QualifierText(d.qualifier)| + 5
    ensures r[..|d.word| + 1] == d.word + " "
    ensures r[|d.word| + 1..|r| - 4] == QualifierText(d.qualifier)
    ensures r[|r| - 4..] == " " + ThreeDigits(d.number)
  {
    d.word + " " + QualifierText(d.qualifier) + " " + ThreeDigits(d.number)
  }

  /** The row of product `id` built from its draws. */
  function ProductOf(d: ProductDraw, id: int): (p: Product)
    requires ValidProductDraw(d)
    ensures p.id == id && p.name == ProductName(d)
    ensures IsCategoryId(p.categoryId)
    ensures PRICE_MIN_CENTS <= p.price <= PRICE_MAX_CENTS && 0 <= p.stock <= STOCK_MAX
  {
    var cats := Categories();
    assert cats[d.categoryId - 1].id == d.categoryId;
    Product(id, ProductName(d), d.categoryId, d.price, d.stock)
  }

  /** Catalog rows are numbered 1, 2, ... and every column is within its drawn range. */
  predicate WellFormedCatalog(products: seq<Product>)
  {
    forall k :: 0 <= k < |products| ==>
      && products[k].id == k + 1
      && IsCategoryId(products[k].categoryId)
      && PRICE_MIN_CENTS <= products[k].price <= PRICE_MAX_CENTS
      && 0 <= products[k].stock <= STOCK_MAX
  }

  /**
   * The product loop: product `pid` (from 1) takes the `pid`-th draw. The
   * resulting catalog is numbered without gaps, every product's category
   * is one of the category rows, and price and stock satisfy the table's
   * non-negativity checks.
   */
  method BuildProducts(draws: seq<ProductDraw>) returns (products: seq<Product>)
    requires forall k :: 0 <= k < |draws| ==> ValidProductDraw(draws[k])
    ensures |products| == |draws|
    ensures forall k :: 0 <= k < |products| ==> products[k] == ProductOf(draws[k], k + 1)
    ensures WellFormedCatalog(products)
  {
    products := [];
    var pid := 1;
    while pid <= |draws|
      invariant 1 <= pid <= |draws| + 1
      invariant |products| == pid - 1
      invariant forall k :: 0 <= k < |products| ==> products[k] == ProductOf(draws[k], k + 1)
    {
      var d := draws[pid - 1];
      var catId := d.categoryId;
      var pname := ProductName(d);
      var price := d.price;
      var stock := d.stock;
      products := products + [Product(pid, pname, catId, price, stock)];
      pid := pid + 1;
    }
  }
}
