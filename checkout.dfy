/** The arithmetic of placing an order from a cart: the loops the checkout
    handler runs over the joined cart rows (the stock check, the CASE table of
    new stock values, the pricing of each line, the stamping of the new order id
    onto the detail rows), each proved against a function that says what it
    computes. */
module Checkout {

  /** One row of the cart/product join: a product of the cart, its current stock
      and prices, and the quantity in the cart. A price_discounted of 0 stands for
      both NULL and 0, which the source treats alike (both are falsy). */
  datatype PurchaseLine = PurchaseLine(
    product: nat,
    stock: int,
    priceOriginal: int,
    priceDiscounted: int,
    quantity: int)

  /** An element of the list of detail rows before the order id is known. */
  datatype Item = Item(product: nat, priceEach: int, quantity: int)

  /** A row of `orderdetails`. */
  datatype OrderDetail = OrderDetail(order: nat, product: nat, priceEach: int, quantity: int)

  /** The price charged per unit: the discounted price when it is set, otherwise
      the original price. */
  function UnitPrice(priceOriginal: int, priceDiscounted: int): int {
    if priceDiscounted != 0 then priceDiscounted else priceOriginal
  }

  /** Under the product rule enforced when a product is added (a set discount is
      below the original price), a customer never pays more than the original
      price, and pays the discounted price exactly when one is set. */
  lemma UnitPriceBounded(priceOriginal: int, priceDiscounted: int)
    requires priceDiscounted != 0 ==> priceDiscounted < priceOriginal
    ensures UnitPrice(priceOriginal, priceDiscounted) <= priceOriginal
    ensures UnitPrice(priceOriginal, priceDiscounted) < priceOriginal <==> priceDiscounted != 0
  {
  }

  // ---------------------------------------------------------------------------
  // The stock check

  /** Some line asks for more than is in stock. */
  predicate HasShortage(lines: seq<PurchaseLine>) {
    exists i :: 0 <= i < |lines| && lines[i].stock < lines[i].quantity
  }

  /** The `isNotEnough` loop: it visits every line and raises the flag for each
      line short of stock. */
  method FindShortage(lines: seq<PurchaseLine>) returns (notEnough: bool)
    ensures notEnough <==> HasShortage(lines)
  {
    notEnough := false;
    var i := 0;
    while i < |lines|
      invariant 0 <= i <= |lines|
      invariant notEnough <==> exists j :: 0 <= j < i && lines[j].stock < lines[j].quantity
    {
      if lines[i].stock < lines[i].quantity {
        notEnough := true;
      }
      i := i + 1;
    }
  }

  // ---------------------------------------------------------------------------
  // The stock update

  /** The products named by the lines. */
  function LineProducts(lines: seq<PurchaseLine>): set<nat> {
    set i | 0 <= i < |lines| :: lines[i].product
  }

  predicate DistinctProducts(lines: seq<PurchaseLine>) {
    forall i, j :: 0 <= i < j < |lines| ==> lines[i].product != lines[j].product
  }

  /** The `CASE product_id WHEN .. THEN ..` table of the stock update: each
      product of the lines mapped to its stock less the quantity ordered. */
  function CaseTable(lines: seq<PurchaseLine>): map<nat, int> {
    if lines == [] then map[]
    else
      var last := lines[|lines| - 1];
      CaseTable(lines[..|lines| - 1])[last.product := last.stock - last.quantity]
  }

  /** The table covers exactly the products of the lines, and, when every product
      appears once, maps each to its own line's new stock. */
  lemma {:induction false} CaseTableEntries(lines: seq<PurchaseLine>)
    requires DistinctProducts(lines)
    ensures CaseTable(lines).Keys == LineProducts(lines)
    ensures forall i :: 0 <= i < |lines| ==>
      CaseTable(lines)[lines[i].product] == lines[i].stock - lines[i].quantity
  {
    if lines != [] {
      var init := lines[..|lines| - 1];
      CaseTableEntries(init);
      assert LineProducts(lines) == LineProducts(init) + {lines[|lines| - 1].product} by {
        forall p | p in LineProducts(lines) ensures p in LineProducts(init) + {lines[|lines| - 1].product} {
          var i :| 0 <= i < |lines| && lines[i].product == p;
          if i < |init| {
            assert init[i].product == p;
          }
        }
      }
    }
  }

  /** The loop that writes the CASE clause, one `WHEN` per line. */
  method StockCase(lines: seq<PurchaseLine>) returns (table: map<nat, int>)
    ensures table == CaseTable(lines)
  {
    table := map[];
    var i := 0;
    while i < |lines|
      invariant 0 <= i <= |lines|
      invariant table == CaseTable(lines[..i])
    {
      assert lines[..i + 1][..i] == lines[..i];
      table := table[lines[i].product := lines[i].stock - lines[i].quantity];
      i := i + 1;
    }
    assert lines[..|lines|] == lines;
  }

  /** After the check found no shortage, every new stock value is non-negative. */
  lemma CaseTableNonNegative(lines: seq<PurchaseLine>)
    requires DistinctProducts(lines) && !HasShortage(lines)
    ensures forall p :: p in CaseTable(lines) ==> CaseTable(lines)[p] >= 0
  {
    CaseTableEntries(lines);
    forall p | p in CaseTable(lines) ensures CaseTable(lines)[p] >= 0 {
      assert p in LineProducts(lines);
      var i :| 0 <= i < |lines| && lines[i].product == p;
      assert !(lines[i].stock < lines[i].quantity);
    }
  }

  // ---------------------------------------------------------------------------
  // Pricing

  /** The detail list the pricing loop builds: one element per line, in order,
      priced at the line's unit price. */
  function Items(lines: seq<PurchaseLine>): (items: seq<Item>)
    ensures |items| == |lines|
    ensures forall i :: 0 <= i < |lines| ==>
      items[i] == Item(lines[i].product, UnitPrice(lines[i].priceOriginal, lines[i].priceDiscounted), lines[i].quantity)
  {
    if lines == [] then []
    else
      var last := lines[|lines| - 1];
      Items(lines[..|lines| - 1]) + [Item(last.product, UnitPrice(last.priceOriginal, last.priceDiscounted), last.quantity)]
  }

  /** The sum of price_each times quantity over a detail list. */
  function ItemsTotal(items: seq<Item>): int {
    if items == [] then 0
    else ItemsTotal(items[..|items| - 1]) + items[|items| - 1].priceEach * items[|items| - 1].quantity
  }

  /** The loop that accumulates `totalPrice` and `insertArray`. */
  method PriceLines(lines: seq<PurchaseLine>) returns (total: int, items: seq<Item>)
    ensures items == Items(lines)
    ensures total == ItemsTotal(items)
  {
    total := 0;
    items := [];
    var i := 0;
    while i < |lines|
      invariant 0 <= i <= |lines|
      invariant items == Items(lines[..i])
      invariant total == ItemsTotal(items)
    {
      assert lines[..i + 1][..i] == lines[..i];
      var each := UnitPrice(lines[i].priceOriginal, lines[i].priceDiscounted);
      var item := Item(lines[i].product, each, lines[i].quantity);
      total := total + each * lines[i].quantity;
      assert (items + [item])[..|items|] == items;
      items := items + [item];
      i := i + 1;
    }
    assert lines[..|lines|] == lines;
  }

  // ---------------------------------------------------------------------------
  // Detail rows

  /** The detail rows written for order `order`. */
  function DetailRows(order: nat, items: seq<Item>): (rows: seq<OrderDetail>)
    ensures |rows| == |items|
    ensures forall i :: 0 <= i < |items| ==>
      rows[i] == OrderDetail(order, items[i].product, items[i].priceEach, items[i].quantity)
  {
    seq(|items|, i requires 0 <= i < |items| => OrderDetail(order, items[i].product, items[i].priceEach, items[i].quantity))
  }

  /** The loop that sets `order_id` on every element once the order row exists. */
  method StampOrder(order: nat, items: seq<Item>) returns (rows: seq<OrderDetail>)
    ensures rows == DetailRows(order, items)
  {
    rows := [];
    var i := 0;
    while i < |items|
      invariant 0 <= i <= |items|
      invariant rows == DetailRows(order, items[..i])
    {
      rows := rows + [OrderDetail(order, items[i].product, items[i].priceEach, items[i].quantity)];
      i := i + 1;
    }
    assert items[..|items|] == items;
  }

  /** The part of the detail rows that belongs to `order`, as a total. */
  function OrderTotal(details: seq<OrderDetail>, order: nat): int {
    if details == [] then 0
    else
      var last := details[|details| - 1];
      OrderTotal(details[..|details| - 1], order) + (if last.order == order then last.priceEach * last.quantity else 0)
  }

  lemma {:induction false} OrderTotalAppend(a: seq<OrderDetail>, b: seq<OrderDetail>, order: nat)
    ensures OrderTotal(a + b, order) == OrderTotal(a, order) + OrderTotal(b, order)
  {
    if b == [] {
      assert a + b == a;
    } else {
      assert (a + b)[..|a + b| - 1] == a + b[..|b| - 1];
      OrderTotalAppend(a, b[..|b| - 1], order);
    }
  }

  /** Rows of other orders contribute nothing. */
  lemma {:induction false} OrderTotalOther(details: seq<OrderDetail>, order: nat)
    requires forall j :: 0 <= j < |details| ==> details[j].order != order
    ensures OrderTotal(details, order) == 0
  {
    if details != [] {
      OrderTotalOther(details[..|details| - 1], order);
    }
  }

  /** The detail rows written for an order add up to the total computed for it:
      price_total is the sum of price_each times quantity over its lines. */
  lemma {:induction false} DetailRowsTotal(order: nat, items: seq<Item>)
    ensures OrderTotal(DetailRows(order, items), order) == ItemsTotal(items)
  {
    if items != [] {
      var init := items[..|items| - 1];
      DetailRowsTotal(order, init);
      assert DetailRows(order, items)[..|items| - 1] == DetailRows(order, init);
    }
  }
}
