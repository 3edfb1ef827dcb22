/** The tables the route handlers read and write, as rows; the queries the
    handlers issue over them; the integrity rules every handler preserves. */
module Tables {
  import opened Common
  import opened NestedSet
  import opened Checkout
  import opened Validation

  // ---------------------------------------------------------------------------
  // Rows

  /** A row of `vendors`; the password hash is not modelled. */
  datatype Vendor = Vendor(
    username: string,
    name: string,
    email: string,
    phone: string,
    address1: string,
    address2: string,
    city: string,
    country: string,
    postalCode: string)

  function VendorRow(q: VendorRegistration): Vendor {
    Vendor(q.username, q.name, q.email, q.phone, q.address1, q.address2, q.city, q.country, q.postalCode)
  }

  /** A row of `products`. A price_discounted of 0 stands for NULL. */
  datatype Product = Product(
    vendor: nat,
    category: nat,
    name: string,
    stock: int,
    priceOriginal: int,
    priceDiscounted: int,
    tag: string,
    description: string,
    rating: real,
    reviewCount: nat,
    orderCount: nat,
    viewCount: nat)

  /** The row `add_product` inserts: the request's fields, the vendor from the
      token, and the counters and rating at their initial 0. */
  function NewProduct(vendor: nat, q: ProductRequest): Product {
    Product(vendor, q.categoryId, q.name, q.stock, q.priceOriginal, q.priceDiscounted,
            q.tag, q.description, 0.0, 0, 0, 0)
  }

  datatype Cart = Cart(id: nat, customer: nat)

  /** A row of `products_carts`. */
  datatype CartLine = CartLine(cart: nat, product: nat, quantity: int)

  /** The shipping fields copied from the request onto an order. */
  datatype Shipping = Shipping(
    address1: string,
    address2: string,
    city: string,
    country: string,
    postalCode: string,
    phone: string,
    email: string)

  const Ordered: string := "ordered"

  /** A row of `orders`: either a checkout of a whole cart (with detail rows) or
      an order of a single product, possibly by a guest (no detail rows). */
  datatype Order =
    | CartOrder(
        id: nat,
        customer: nat,
        vendor: nat,
        total: int,
        placedAt: nat,
        status: string,
        recipient: string,
        shipping: Shipping)
    | ProductOrder(
        id: nat,
        buyer: Option<nat>,
        vendor: nat,
        product: nat,
        quantity: int,
        priceEach: int,
        total: int,
        placedAt: nat,
        status: string,
        comments: Option<string>,
        shipping: Shipping)

  /** The `customer_id` column of an order row; NULL for a guest order. */
  function OrderCustomer(o: Order): Option<nat> {
    if o.CartOrder? then Some(o.customer) else o.buyer
  }

  datatype Payment = Payment(order: nat, amount: int, paidAt: Option<nat>)

  datatype Review = Review(
    id: nat,
    customer: nat,
    product: nat,
    rating: real,
    text: string,
    postedAt: nat)

  /** The whole database. Each `next...` field is the next value of a table's
      auto-increment key. */
  datatype Db = Db(
    categories: seq<Category>,
    nextCategoryId: nat,
    vendors: map<nat, Vendor>,
    nextVendorId: nat,
    products: map<nat, Product>,
    nextProductId: nat,
    carts: seq<Cart>,
    nextCartId: nat,
    cartLines: seq<CartLine>,
    orders: seq<Order>,
    nextOrderId: nat,
    details: seq<OrderDetail>,
    payments: seq<Payment>,
    reviews: seq<Review>,
    nextReviewId: nat)

  /** What a handler answers. */
  datatype Error =
    | Invalid(reason: Reason)
    | ForeignParent
    | NotFound
    | NoVendorRoot
    | HasChildren
    | InsufficientStock
    | EmptyCart
    | NotPurchased
    | AlreadyReviewed

  datatype Response = Done | Rejected(error: Error)

  // ---------------------------------------------------------------------------
  // Carts

  /** `SELECT cart_id FROM carts WHERE customer_id = c`, first row. */
  function CartOf(carts: seq<Cart>, customer: nat): (r: Option<nat>)
    ensures r.Some? ==> r.value < |carts| && carts[r.value].customer == customer
    ensures r.None? <==> forall i :: 0 <= i < |carts| ==> carts[i].customer != customer
  {
    if carts == [] then None
    else if carts[0].customer == customer then Some(0)
    else match CartOf(carts[1..], customer)
      case None => None
      case Some(k) => Some(k + 1)
  }

  predicate IsCart(carts: seq<Cart>, id: nat) {
    exists i :: 0 <= i < |carts| && carts[i].id == id
  }

  predicate SameKey(l: CartLine, cart: nat, product: nat) {
    l.cart == cart && l.product == product
  }

  /** The line for (cart, product), if there is one. */
  function LineIndex(lines: seq<CartLine>, cart: nat, product: nat): (r: Option<nat>)
    ensures r.Some? ==> r.value < |lines| && SameKey(lines[r.value], cart, product)
    ensures r.None? <==> forall i :: 0 <= i < |lines| ==> !SameKey(lines[i], cart, product)
  {
    if lines == [] then None
    else if SameKey(lines[0], cart, product) then Some(0)
    else match LineIndex(lines[1..], cart, product)
      case None => None
      case Some(k) => Some(k + 1)
  }

  /** No two lines share a (cart, product) pair: a cart maps products to
      quantities. */
  predicate UniqueLines(lines: seq<CartLine>) {
    forall i, j :: 0 <= i < j < |lines| ==> !SameKey(lines[j], lines[i].cart, lines[i].product)
  }

  /** The quantity of a product in a cart; 0 when the cart has no such line. */
  function QuantityOf(lines: seq<CartLine>, cart: nat, product: nat): int {
    match LineIndex(lines, cart, product)
    case None => 0
    case Some(k) => lines[k].quantity
  }

  /** With unique lines, the quantity is the one of whichever line has the key. */
  lemma QuantityAt(lines: seq<CartLine>, i: nat)
    requires UniqueLines(lines) && i < |lines|
    ensures QuantityOf(lines, lines[i].cart, lines[i].product) == lines[i].quantity
  {
    var k := LineIndex(lines, lines[i].cart, lines[i].product).value;
    assert k == i;
  }

  /** The effect of `add_to_cart` on an existing cart: increment the line when it
      exists, otherwise insert it. */
  function AddLine(lines: seq<CartLine>, cart: nat, product: nat, quantity: int): seq<CartLine> {
    match LineIndex(lines, cart, product)
    case Some(k) => lines[k := lines[k].(quantity := lines[k].quantity + quantity)]
    case None => lines + [CartLine(cart, product, quantity)]
  }

  /** Adding to the cart adds the quantity to that product's line, counting a
      missing line as 0, and changes no other line. */
  lemma AddLineQuantity(lines: seq<CartLine>, cart: nat, product: nat, quantity: int, c: nat, p: nat)
    requires UniqueLines(lines)
    ensures UniqueLines(AddLine(lines, cart, product, quantity))
    ensures QuantityOf(AddLine(lines, cart, product, quantity), c, p)
         == QuantityOf(lines, c, p) + (if c == cart && p == product then quantity else 0)
  {
    var out := AddLine(lines, cart, product, quantity);
    match LineIndex(lines, cart, product)
    case Some(k) =>
      assert UniqueLines(out) by {
        forall i, j | 0 <= i < j < |out| ensures !SameKey(out[j], out[i].cart, out[i].product) {
          assert SameKey(out[i], lines[i].cart, lines[i].product);
          assert SameKey(out[j], lines[j].cart, lines[j].product);
        }
      }
      if c == cart && p == product {
        QuantityAt(lines, k);
        QuantityAt(out, k);
      } else {
        SameOtherLines(lines, out, c, p);
      }
    case None =>
      assert UniqueLines(out);
      if c == cart && p == product {
        QuantityAt(out, |lines|);
      } else {
        SameOtherLines(lines, out, c, p);
      }
  }

  /** Two unique line tables agree on the quantity of (c, p) when they hold the
      same lines for every other key ... */
  lemma QuantityMatches(a: seq<CartLine>, b: seq<CartLine>, c: nat, p: nat)
    requires UniqueLines(a) && UniqueLines(b)
    requires forall i :: 0 <= i < |a| && SameKey(a[i], c, p) ==> exists j :: 0 <= j < |b| && b[j] == a[i]
    requires forall j :: 0 <= j < |b| && SameKey(b[j], c, p) ==> exists i :: 0 <= i < |a| && a[i] == b[j]
    ensures QuantityOf(a, c, p) == QuantityOf(b, c, p)
  {
    match LineIndex(a, c, p)
    case Some(i) =>
      var j :| 0 <= j < |b| && b[j] == a[i];
      QuantityAt(a, i);
      QuantityAt(b, j);
    case None =>
      forall j | 0 <= j < |b| ensures !SameKey(b[j], c, p) {
      }
  }

  /** ... in particular when the second keeps the first's lines with key (c, p)
      at the same positions and adds none. */
  lemma SameOtherLines(a: seq<CartLine>, b: seq<CartLine>, c: nat, p: nat)
    requires UniqueLines(a) && UniqueLines(b) && |a| <= |b|
    requires forall i :: 0 <= i < |a| && SameKey(a[i], c, p) ==> b[i] == a[i]
    requires forall j :: 0 <= j < |b| && SameKey(b[j], c, p) ==> j < |a| && a[j] == b[j]
    ensures QuantityOf(a, c, p) == QuantityOf(b, c, p)
  {
    forall i | 0 <= i < |a| && SameKey(a[i], c, p) ensures exists j :: 0 <= j < |b| && b[j] == a[i] {
      assert b[i] == a[i];
    }
    forall j | 0 <= j < |b| && SameKey(b[j], c, p) ensures exists i :: 0 <= i < |a| && a[i] == b[j] {
      assert a[j] == b[j];
    }
    QuantityMatches(a, b, c, p);
  }

  /** `DELETE FROM products_carts WHERE product_id = p AND cart_id = c`. */
  function WithoutLine(lines: seq<CartLine>, cart: nat, product: nat): (out: seq<CartLine>)
    ensures forall l :: l in out <==> l in lines && !SameKey(l, cart, product)
  {
    if lines == [] then []
    else
      var rest := WithoutLine(lines[1..], cart, product);
      if SameKey(lines[0], cart, product) then rest else [lines[0]] + rest
  }

  /** The tail of a unique line table has no line with the head's key. */
  lemma UniqueTail(lines: seq<CartLine>)
    requires UniqueLines(lines) && lines != []
    ensures UniqueLines(lines[1..])
    ensures forall l :: l in lines[1..] ==> !SameKey(l, lines[0].cart, lines[0].product)
  {
    var tail := lines[1..];
    forall i, j | 0 <= i < j < |tail| ensures !SameKey(tail[j], tail[i].cart, tail[i].product) {
      assert tail[i] == lines[i + 1] && tail[j] == lines[j + 1];
    }
    forall l | l in tail ensures !SameKey(l, lines[0].cart, lines[0].product) {
      var m :| 0 <= m < |tail| && tail[m] == l;
      assert lines[m + 1] == l;
    }
  }

  /** Prepending a line keeps a table unique when no line has its key. */
  lemma UniqueCons(l: CartLine, rest: seq<CartLine>)
    requires UniqueLines(rest)
    requires forall x :: x in rest ==> !SameKey(x, l.cart, l.product)
    ensures UniqueLines([l] + rest)
  {
    var out := [l] + rest;
    forall i, j | 0 <= i < j < |out| ensures !SameKey(out[j], out[i].cart, out[i].product) {
      assert out[j] == rest[j - 1];
      assert rest[j - 1] in rest;
      if i > 0 {
        assert out[i] == rest[i - 1];
      }
    }
  }

  lemma {:induction false} WithoutLineUnique(lines: seq<CartLine>, cart: nat, product: nat)
    requires UniqueLines(lines)
    ensures UniqueLines(WithoutLine(lines, cart, product))
  {
    if lines != [] {
      UniqueTail(lines);
      WithoutLineUnique(lines[1..], cart, product);
      if !SameKey(lines[0], cart, product) {
        UniqueCons(lines[0], WithoutLine(lines[1..], cart, product));
      }
    }
  }

  /** `UPDATE products_carts SET cart_quantity = q WHERE product_id = p AND cart_id = c`. */
  function SetQuantity(lines: seq<CartLine>, cart: nat, product: nat, quantity: int): (out: seq<CartLine>)
    ensures |out| == |lines|
    ensures forall i :: 0 <= i < |lines| ==>
      out[i] == if SameKey(lines[i], cart, product) then lines[i].(quantity := quantity) else lines[i]
  {
    seq(|lines|, i requires 0 <= i < |lines| =>
      if SameKey(lines[i], cart, product) then lines[i].(quantity := quantity) else lines[i])
  }

  /** The effect of `modify_cart`: quantity 0 deletes the line, any other
      quantity overwrites it. */
  function ModifyLine(lines: seq<CartLine>, cart: nat, product: nat, quantity: int): seq<CartLine> {
    if quantity == 0 then WithoutLine(lines, cart, product) else SetQuantity(lines, cart, product, quantity)
  }

  /** After modifying the cart, the product's quantity is the one asked for (0,
      that is no line, when that was asked for; unchanged when there was no line
      to overwrite) and no other line changes. */
  lemma ModifyLineQuantity(lines: seq<CartLine>, cart: nat, product: nat, quantity: int, c: nat, p: nat)
    requires UniqueLines(lines)
    ensures UniqueLines(ModifyLine(lines, cart, product, quantity))
    ensures QuantityOf(ModifyLine(lines, cart, product, quantity), c, p)
         == if c == cart && p == product && (quantity == 0 || LineIndex(lines, cart, product).Some?)
            then quantity else QuantityOf(lines, c, p)
  {
    var out := ModifyLine(lines, cart, product, quantity);
    if quantity == 0 {
      WithoutLineUnique(lines, cart, product);
      if c == cart && p == product {
        assert LineIndex(out, c, p).None? by {
          forall j | 0 <= j < |out| ensures !SameKey(out[j], c, p) {
            assert out[j] in out;
          }
        }
      } else {
        forall i | 0 <= i < |lines| && SameKey(lines[i], c, p)
          ensures exists j :: 0 <= j < |out| && out[j] == lines[i]
        {
          assert lines[i] in out;
        }
        forall j | 0 <= j < |out| && SameKey(out[j], c, p)
          ensures exists i :: 0 <= i < |lines| && lines[i] == out[j]
        {
          assert out[j] in lines;
        }
        QuantityMatches(lines, out, c, p);
      }
    } else {
      assert UniqueLines(out) by {
        forall i, j | 0 <= i < j < |out| ensures !SameKey(out[j], out[i].cart, out[i].product) {
          assert SameKey(out[i], lines[i].cart, lines[i].product);
          assert SameKey(out[j], lines[j].cart, lines[j].product);
        }
      }
      if c == cart && p == product {
        match LineIndex(lines, cart, product)
        case Some(k) =>
          QuantityAt(out, k);
        case None =>
          assert LineIndex(out, c, p).None? by {
            forall j | 0 <= j < |out| ensures !SameKey(out[j], c, p) {
              assert out[j] == lines[j];
            }
          }
      } else {
        SameOtherLines(lines, out, c, p);
      }
    }
  }

  /** `DELETE FROM carts WHERE cart_id = id`. */
  function WithoutCart(carts: seq<Cart>, id: nat): (out: seq<Cart>)
    ensures forall c :: c in out <==> c in carts && c.id != id
  {
    if carts == [] then []
    else
      var rest := WithoutCart(carts[1..], id);
      if carts[0].id == id then rest else [carts[0]] + rest
  }

  /** The lines the cart's deletion removes with it. */
  function WithoutCartLines(lines: seq<CartLine>, cart: nat): (out: seq<CartLine>)
    ensures forall l :: l in out <==> l in lines && l.cart != cart
  {
    if lines == [] then []
    else
      var rest := WithoutCartLines(lines[1..], cart);
      if lines[0].cart == cart then rest else [lines[0]] + rest
  }

  lemma {:induction false} WithoutCartLinesUnique(lines: seq<CartLine>, cart: nat)
    requires UniqueLines(lines)
    ensures UniqueLines(WithoutCartLines(lines, cart))
  {
    if lines != [] {
      UniqueTail(lines);
      WithoutCartLinesUnique(lines[1..], cart);
      if lines[0].cart != cart {
        UniqueCons(lines[0], WithoutCartLines(lines[1..], cart));
      }
    }
  }

  // ---------------------------------------------------------------------------
  // The checkout join

  /** A joined row drawn from a line of the cart and the product's current row. */
  predicate FromLine(x: PurchaseLine, lines: seq<CartLine>, products: map<nat, Product>, cart: nat) {
    && x.product in products
    && x.stock == products[x.product].stock
    && x.priceOriginal == products[x.product].priceOriginal
    && x.priceDiscounted == products[x.product].priceDiscounted
    && CartLine(cart, x.product, x.quantity) in lines
  }

  /** The rows of `products JOIN products_carts` for one cart, in the order of
      the cart's lines; a line whose product no longer exists drops out. */
  function Join(lines: seq<CartLine>, products: map<nat, Product>, cart: nat): (r: seq<PurchaseLine>)
    ensures forall i :: 0 <= i < |r| ==> FromLine(r[i], lines, products, cart)
  {
    if lines == [] then []
    else
      var l := lines[0];
      var rest := Join(lines[1..], products, cart);
      if l.cart == cart && l.product in products then
        var p := products[l.product];
        [PurchaseLine(l.product, p.stock, p.priceOriginal, p.priceDiscounted, l.quantity)] + rest
      else rest
  }

  predicate JoinedAt(r: seq<PurchaseLine>, i: int, l: CartLine) {
    0 <= i < |r| && r[i].product == l.product && r[i].quantity == l.quantity
  }

  /** Every line of the cart whose product exists appears in the join. */
  lemma {:induction false} JoinComplete(lines: seq<CartLine>, products: map<nat, Product>, cart: nat, l: CartLine)
    requires l in lines && l.cart == cart && l.product in products
    ensures exists i :: JoinedAt(Join(lines, products, cart), i, l)
  {
    var r := Join(lines, products, cart);
    var rest := Join(lines[1..], products, cart);
    if l == lines[0] {
      var p := products[l.product];
      assert r == [PurchaseLine(l.product, p.stock, p.priceOriginal, p.priceDiscounted, l.quantity)] + rest;
      assert r[0].product == l.product && r[0].quantity == l.quantity;
      assert JoinedAt(r, 0, l);
    } else {
      assert l in lines[1..];
      JoinComplete(lines[1..], products, cart, l);
      var i :| JoinedAt(rest, i, l);
      if lines[0].cart == cart && lines[0].product in products {
        assert r[i + 1] == rest[i];
        assert JoinedAt(r, i + 1, l);
      } else {
        assert JoinedAt(r, i, l);
      }
    }
  }

  /** The joined rows for the cart checkout: none when the cart does not exist. */
  function CheckoutLines(carts: seq<Cart>, lines: seq<CartLine>, products: map<nat, Product>, cart: nat): seq<PurchaseLine> {
    if IsCart(carts, cart) then Join(lines, products, cart) else []
  }

  /** With unique cart lines every product occurs once in the join. */
  lemma {:induction false} JoinDistinct(lines: seq<CartLine>, products: map<nat, Product>, cart: nat)
    requires UniqueLines(lines)
    ensures DistinctProducts(Join(lines, products, cart))
  {
    if lines != [] {
      var tail := lines[1..];
      UniqueTail(lines);
      JoinDistinct(tail, products, cart);
      var l := lines[0];
      var rest := Join(tail, products, cart);
      if l.cart == cart && l.product in products {
        var r := Join(lines, products, cart);
        forall i, j | 0 <= i < j < |r| ensures r[i].product != r[j].product {
          assert r[j] == rest[j - 1];
          if i == 0 {
            assert FromLine(rest[j - 1], tail, products, cart);
            assert CartLine(cart, rest[j - 1].product, rest[j - 1].quantity) in tail;
          } else {
            assert r[i] == rest[i - 1];
          }
        }
      }
    }
  }

  // ---------------------------------------------------------------------------
  // Stock

  /** `UPDATE products SET stock_quantity = CASE product_id ... END WHERE
      product_id IN (...)`: the products in the table take their new stock, the
      others are untouched. */
  function Restock(products: map<nat, Product>, table: map<nat, int>): (out: map<nat, Product>)
    ensures out.Keys == products.Keys
  {
    map p | p in products :: if p in table then products[p].(stock := table[p]) else products[p]
  }

  /** The checkout's stock update, when no line is short: each product of the
      cart loses exactly the quantity in the cart and keeps every other field,
      its stock stays non-negative, and products not in the cart are unchanged. */
  lemma CheckoutStock(lines: seq<CartLine>, products: map<nat, Product>, cart: nat)
    requires UniqueLines(lines)
    requires !HasShortage(Join(lines, products, cart))
    ensures var j := Join(lines, products, cart);
      var out := Restock(products, CaseTable(j));
      && out.Keys == products.Keys
      && (forall i :: 0 <= i < |j| ==>
            && out[j[i].product] == products[j[i].product].(stock := products[j[i].product].stock - j[i].quantity)
            && out[j[i].product].stock >= 0)
      && (forall p :: p in products && p !in LineProducts(j) ==> out[p] == products[p])
  {
    var j := Join(lines, products, cart);
    JoinDistinct(lines, products, cart);
    CaseTableEntries(j);
    forall i | 0 <= i < |j| ensures j[i].stock >= j[i].quantity {
      assert !(j[i].stock < j[i].quantity);
    }
  }

  // ---------------------------------------------------------------------------
  // Reviews

  /** The customer's orders joined with `orderdetails` contain the product. */
  predicate HasPurchased(orders: seq<Order>, details: seq<OrderDetail>, customer: nat, product: nat) {
    exists i, j :: 0 <= i < |orders| && 0 <= j < |details|
      && OrderCustomer(orders[i]) == Some(customer)
      && details[j].order == orders[i].id && details[j].product == product
  }

  predicate HasReviewed(reviews: seq<Review>, customer: nat, product: nat) {
    exists i :: 0 <= i < |reviews| && reviews[i].customer == customer && reviews[i].product == product
  }

  /** A purchase stays on record when orders and details are appended. */
  lemma PurchaseKept(orders: seq<Order>, details: seq<OrderDetail>, moreOrders: seq<Order>, moreDetails: seq<OrderDetail>, customer: nat, product: nat)
    requires HasPurchased(orders, details, customer, product)
    ensures HasPurchased(orders + moreOrders, details + moreDetails, customer, product)
  {
    var i, j :| 0 <= i < |orders| && 0 <= j < |details|
      && OrderCustomer(orders[i]) == Some(customer)
      && details[j].order == orders[i].id && details[j].product == product;
    assert (orders + moreOrders)[i] == orders[i];
    assert (details + moreDetails)[j] == details[j];
  }

  // ---------------------------------------------------------------------------
  // Integrity rules

  predicate CategoriesValid(rows: seq<Category>, next: nat) {
    && WellNested(rows)
    && UniqueIds(rows)
    && (forall i :: 0 <= i < |rows| ==> rows[i].id < next)
  }

  /** Stock never negative, a set discount below the original price, the rating
      a mean of ratings between 0 and 5. */
  predicate ProductRowValid(p: Product) {
    && p.stock >= 0
    && (p.priceDiscounted != 0 ==> p.priceDiscounted < p.priceOriginal)
    && 0.0 <= p.rating <= 5.0
  }

  /** A product the validator accepts becomes a row that keeps the product
      rules, with a positive stock and price, a rating of 0 and no reviews, orders
      or views yet. */
  lemma AcceptedProductValid(vendor: nat, q: ProductRequest)
    requires CheckProduct(q) == Pass
    ensures ProductRowValid(NewProduct(vendor, q))
    ensures var p := NewProduct(vendor, q);
      && p.vendor == vendor && p.category == q.categoryId && p.stock >= 1 && p.priceOriginal >= 1
      && p.rating == 0.0 && p.reviewCount == 0 && p.orderCount == 0 && p.viewCount == 0
  {
    CheckProductPositive(q);
  }

  predicate ProductsValid(products: map<nat, Product>, next: nat) {
    forall p :: p in products ==> p < next && ProductRowValid(products[p])
  }

  predicate CartsValid(carts: seq<Cart>, next: nat, lines: seq<CartLine>) {
    && (forall i :: 0 <= i < |carts| ==> carts[i].id < next)
    && (forall i :: 0 <= i < |lines| ==> lines[i].cart < next)
    && UniqueLines(lines)
  }

  /** Order ids increase along the table; every order has its one payment, for
      its total; a cart order's total is the sum over its detail rows, a single
      product order's is its unit price times its quantity. */
  predicate OrdersValid(orders: seq<Order>, next: nat, details: seq<OrderDetail>, payments: seq<Payment>) {
    && (forall i :: 0 <= i < |orders| ==> orders[i].id < next)
    && (forall i, j :: 0 <= i < j < |orders| ==> orders[i].id < orders[j].id)
    && (forall k :: 0 <= k < |details| ==> details[k].order < next)
    && |payments| == |orders|
    && (forall k :: 0 <= k < |orders| ==> payments[k].order == orders[k].id && payments[k].amount == orders[k].total)
    && (forall i :: 0 <= i < |orders| && orders[i].CartOrder? ==> orders[i].total == OrderTotal(details, orders[i].id))
    && (forall i :: 0 <= i < |orders| && orders[i].ProductOrder? ==> orders[i].total == orders[i].priceEach * orders[i].quantity)
  }

  /** At most one review per customer and product, each backed by a purchase. */
  predicate ReviewsValid(reviews: seq<Review>, next: nat, orders: seq<Order>, details: seq<OrderDetail>) {
    && (forall i :: 0 <= i < |reviews| ==> reviews[i].id < next)
    && (forall i, j :: 0 <= i < j < |reviews| ==>
          !(reviews[i].customer == reviews[j].customer && reviews[i].product == reviews[j].product))
    && (forall i :: 0 <= i < |reviews| ==> HasPurchased(orders, details, reviews[i].customer, reviews[i].product))
  }

  predicate DbValid(db: Db) {
    && CategoriesValid(db.categories, db.nextCategoryId)
    && (forall v :: v in db.vendors ==> v < db.nextVendorId)
    && ProductsValid(db.products, db.nextProductId)
    && CartsValid(db.carts, db.nextCartId, db.cartLines)
    && OrdersValid(db.orders, db.nextOrderId, db.details, db.payments)
    && ReviewsValid(db.reviews, db.nextReviewId, db.orders, db.details)
  }

  /** Appending a new order, its detail rows and its payment keeps the order
      rules, provided the total agrees with the new detail rows. */
  lemma AppendOrderValid(orders: seq<Order>, next: nat, details: seq<OrderDetail>, payments: seq<Payment>,
                         o: Order, rows: seq<OrderDetail>, paidAt: Option<nat>)
    requires OrdersValid(orders, next, details, payments)
    requires o.id == next
    requires forall k :: 0 <= k < |rows| ==> rows[k].order == next
    requires o.CartOrder? ==> o.total == OrderTotal(rows, next)
    requires o.ProductOrder? ==> o.total == o.priceEach * o.quantity
    ensures OrdersValid(orders + [o], next + 1, details + rows, payments + [Payment(next, o.total, paidAt)])
  {
    var orders', details' := orders + [o], details + rows;
    forall i | 0 <= i < |orders'| && orders'[i].CartOrder?
      ensures orders'[i].total == OrderTotal(details', orders'[i].id)
    {
      var id := orders'[i].id;
      OrderTotalAppend(details, rows, id);
      if i < |orders| {
        assert orders'[i] == orders[i];
        OrderTotalOther(rows, id);
      } else {
        OrderTotalOther(details, id);
      }
    }
  }
}
