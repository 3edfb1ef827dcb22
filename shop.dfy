/** The database the two route files work on, as an object whose fields are its
    tables, and one method per route handler. Each handler either performs all of
    its writes or none: a rejected request leaves every table as it was. Identity
    (the customer or vendor a token names) and the clock come in as parameters. */
module Shop {
  import opened Common
  import opened Rating
  import opened NestedSet
  import opened Validation
  import opened Checkout
  import opened Tables
  import opened Categories
  import opened Registration
  import opened Orders

  class Store {
    var categories: seq<Category>
    var nextCategoryId: nat
    var vendors: map<nat, Vendor>
    var nextVendorId: nat
    var products: map<nat, Product>
    var nextProductId: nat
    var carts: seq<Cart>
    var nextCartId: nat
    var cartLines: seq<CartLine>
    var orders: seq<Order>
    var nextOrderId: nat
    var details: seq<OrderDetail>
    var payments: seq<Payment>
    var reviews: seq<Review>
    var nextReviewId: nat

    /** All tables as one value. */
    function State(): Db
      reads this
    {
      Db(categories, nextCategoryId, vendors, nextVendorId, products, nextProductId,
         carts, nextCartId, cartLines, orders, nextOrderId, details, payments, reviews, nextReviewId)
    }

    ghost predicate Valid()
      reads this
    {
      DbValid(State())
    }

    /** Empty tables; every auto-increment key starts at 1. */
    constructor()
      ensures Valid()
      ensures State() == Db([], 1, map[], 1, map[], 1, [], 1, [], [], 1, [], [], [], 1)
    {
      categories, nextCategoryId := [], 1;
      vendors, nextVendorId := map[], 1;
      products, nextProductId := map[], 1;
      carts, nextCartId, cartLines := [], 1, [];
      orders, nextOrderId, details, payments := [], 1, [], [];
      reviews, nextReviewId := [], 1;
    }

    // -------------------------------------------------------------------------
    // Single statements: each method is one INSERT, UPDATE or DELETE of the
    // handlers, and changes its table and nothing else.

    /** `INSERT INTO vendors`. */
    method InsertVendorRow(row: Vendor) returns (id: nat)
      modifies this
      ensures id == old(nextVendorId)
      ensures State() == old(State()).(vendors := old(vendors)[id := row], nextVendorId := id + 1)
    {
      id := nextVendorId;
      vendors, nextVendorId := vendors[id := row], id + 1;
    }

    /** `INSERT INTO categories` of a vendor's root. */
    method InsertCategoryRow(row: Category)
      modifies this
      ensures State() == old(State()).(categories := old(categories) + [row], nextCategoryId := old(nextCategoryId) + 1)
    {
      categories, nextCategoryId := categories + [row], nextCategoryId + 1;
    }

    /** `UPDATE products ... WHERE product_id = id`. */
    method UpdateProduct(id: nat, row: Product)
      modifies this
      ensures State() == old(State()).(products := old(products)[id := row])
    {
      products := products[id := row];
    }

    /** The checkout's `UPDATE products SET stock_quantity = CASE ...`. */
    method UpdateStock(table: map<nat, int>)
      modifies this
      ensures State() == old(State()).(products := Restock(old(products), table))
    {
      products := Restock(products, table);
    }

    /** `INSERT INTO orders`. */
    method InsertOrder(order: Order)
      modifies this
      ensures State() == old(State()).(orders := old(orders) + [order], nextOrderId := old(nextOrderId) + 1)
    {
      orders, nextOrderId := orders + [order], nextOrderId + 1;
    }

    /** `INSERT INTO orderdetails ... VALUES ?` with the stamped rows. */
    method InsertDetails(rows: seq<OrderDetail>)
      modifies this
      ensures State() == old(State()).(details := old(details) + rows)
    {
      details := details + rows;
    }

    /** `INSERT INTO payments`. */
    method InsertPayment(payment: Payment)
      modifies this
      ensures State() == old(State()).(payments := old(payments) + [payment])
    {
      payments := payments + [payment];
    }

    /** `DELETE FROM carts`: the cart's lines go with it. */
    method DeleteCart(cartId: nat)
      modifies this
      ensures State() == old(State()).(carts := WithoutCart(old(carts), cartId), cartLines := WithoutCartLines(old(cartLines), cartId))
    {
      carts, cartLines := WithoutCart(carts, cartId), WithoutCartLines(cartLines, cartId);
    }

    /** `INSERT INTO reviews`. */
    method InsertReview(review: Review)
      modifies this
      ensures State() == old(State()).(reviews := old(reviews) + [review], nextReviewId := old(nextReviewId) + 1)
    {
      reviews, nextReviewId := reviews + [review], nextReviewId + 1;
    }

    // -------------------------------------------------------------------------
    // Vendor registration

    /** Both versions' inserts: the vendor row and its root category. */
    method InsertVendor(req: VendorRegistration) returns (vendorId: nat)
      requires Valid()
      modifies this
      ensures Valid()
      ensures vendorId == old(nextVendorId)
      ensures State() == WithVendor(old(State()), req)
    {
      WithVendorValid(State(), req);
      vendorId := InsertVendorRow(VendorRow(req));
      InsertCategoryRow(RootFor(categories, nextCategoryId, vendorId, RootName(vendorId)));
    }

    /** `POST /vendor/register`, version 1. */
    method RegisterVendorV1(req: VendorRegistration) returns (resp: Response, vendorId: nat)
      requires Valid()
      modifies this
      ensures Valid()
      ensures match RegisterV1(old(State()), req)
        case Registered(db) => resp == Done && vendorId == old(nextVendorId) && State() == db
        case NotRegistered(e) => resp == Rejected(e) && State() == old(State())
    {
      var check := CheckVendorRegistrationV1(req);
      if check.Fail? {
        return Rejected(Invalid(check.reason)), 0;
      }
      vendorId := InsertVendor(req);
      resp := Done;
    }

    /** `POST /vendor/register`, version 2, with the validation stopping the
        handler (see `RegisterV2AsWritten` for the handler as written). */
    method RegisterVendorV2(req: VendorRegistration) returns (resp: Response, vendorId: nat)
      requires Valid()
      modifies this
      ensures Valid()
      ensures match RegisterV2(old(State()), req)
        case Registered(db) => resp == Done && vendorId == old(nextVendorId) && State() == db
        case NotRegistered(e) => resp == Rejected(e) && State() == old(State())
    {
      var check := CheckVendorRegistrationV2(req);
      if check.Fail? {
        return Rejected(Invalid(check.reason)), 0;
      }
      vendorId := InsertVendor(req);
      resp := Done;
    }

    // -------------------------------------------------------------------------
    // Categories

    /** The two range updates and the insert of `add_category`. */
    method InsertCategory(t: nat, vendor: nat, parent: Option<nat>, name: string)
      requires Valid() && t < |categories|
      modifies this
      ensures Valid()
      ensures State() == old(State()).(
        categories := InsertLeaf(old(categories), old(categories)[t].rgt, old(nextCategoryId), vendor, parent, name),
        nextCategoryId := old(nextCategoryId) + 1)
    {
      AddCategoryValid(categories, nextCategoryId, t, vendor, parent, name);
      categories := InsertLeaf(categories, categories[t].rgt, nextCategoryId, vendor, parent, name);
      nextCategoryId := nextCategoryId + 1;
    }

    /** `POST /vendor/add_category`, version 1: a name of 1 to 20 characters, and
        a target of the requesting vendor's own. */
    method AddCategoryV1(vendor: nat, parentId: nat, name: string) returns (resp: Response)
      requires Valid()
      modifies this
      ensures Valid()
      ensures CheckCategoryName(name).Fail? ==>
        resp == Rejected(Invalid(CheckCategoryName(name).reason)) && State() == old(State())
      ensures CheckCategoryName(name) == Pass ==>
        match TargetV1(old(categories), vendor, parentId)
        case Refused(e) => resp == Rejected(e) && State() == old(State())
        case Found(t) => resp == Done && State() == old(State()).(
          categories := InsertLeaf(old(categories), old(categories)[t.row].rgt, old(nextCategoryId), vendor, t.parent, name),
          nextCategoryId := old(nextCategoryId) + 1)
    {
      var check := CheckCategoryName(name);
      if check.Fail? {
        return Rejected(Invalid(check.reason));
      }
      var lookup := TargetV1(categories, vendor, parentId);
      if lookup.Refused? {
        return Rejected(lookup.error);
      }
      InsertCategory(lookup.target.row, vendor, lookup.target.parent, name);
      resp := Done;
    }

    /** `POST /vendor/add_category`, version 2: no name check, no vendor check. */
    method AddCategoryV2(vendor: nat, parentId: nat, name: string) returns (resp: Response)
      requires Valid()
      modifies this
      ensures Valid()
      ensures match TargetV2(old(categories), vendor, parentId)
        case Refused(e) => resp == Rejected(e) && State() == old(State())
        case Found(t) => resp == Done && State() == old(State()).(
          categories := InsertLeaf(old(categories), old(categories)[t.row].rgt, old(nextCategoryId), vendor, t.parent, name),
          nextCategoryId := old(nextCategoryId) + 1)
    {
      var lookup := TargetV2(categories, vendor, parentId);
      if lookup.Refused? {
        return Rejected(lookup.error);
      }
      InsertCategory(lookup.target.row, vendor, lookup.target.parent, name);
      resp := Done;
    }

    /** `DELETE /vendor/delete_category` (both versions): leaves only. */
    method DeleteCategory(categoryId: nat) returns (resp: Response)
      requires Valid()
      modifies this
      ensures Valid()
      ensures match IndexOfId(old(categories), categoryId)
        case None => resp == Rejected(NotFound) && State() == old(State())
        case Some(k) =>
          if old(categories)[k].rgt - old(categories)[k].lft == 1 then
            resp == Done && State() == old(State()).(categories := RemoveLeaf(old(categories), k))
          else
            resp == Rejected(HasChildren) && State() == old(State())
      ensures resp == Done ==> forall j :: 0 <= j < |categories| ==> categories[j].id != categoryId
    {
      var found := IndexOfId(categories, categoryId);
      if found.None? {
        return Rejected(NotFound);
      }
      var k := found.value;
      if categories[k].rgt - categories[k].lft != 1 {
        return Rejected(HasChildren);
      }
      DeleteCategoryValid(categories, nextCategoryId, k);
      categories := RemoveLeaf(categories, k);
      resp := Done;
    }

    /** `GET /api/list_products/category/:id`: the category's name and the
        products of it and of all its descendants. Nothing is written. */
    method ListProductsByCategory(categoryId: nat) returns (resp: Response, name: string, listed: map<nat, Product>)
      requires Valid()
      ensures match IndexOfId(categories, categoryId)
        case None => resp == Rejected(NotFound) && name == "" && listed == map[]
        case Some(k) =>
          && resp == Done && name == categories[k].name
          && (forall p :: p in listed <==>
                p in products &&
                (exists j :: 0 <= j < |categories| && categories[j].id == products[p].category
                   && (j == k || Inside(categories[j], categories[k]))))
          && (forall p :: p in listed ==> listed[p] == products[p])
    {
      var found := IndexOfId(categories, categoryId);
      if found.None? {
        return Rejected(NotFound), "", map[];
      }
      var k := found.value;
      CategoryProductsAreDescendants(categories, products, k);
      resp, name, listed := Done, categories[k].name, CategoryProducts(categories, products, k);
    }

    // -------------------------------------------------------------------------
    // Products

    /** `POST /vendor/add_product`, version 1. */
    method AddProduct(vendor: nat, req: ProductRequest) returns (resp: Response, productId: nat)
      requires Valid()
      modifies this
      ensures Valid()
      ensures CheckProduct(req).Fail? ==>
        resp == Rejected(Invalid(CheckProduct(req).reason)) && State() == old(State())
      ensures CheckProduct(req) == Pass ==>
        && resp == Done && productId == old(nextProductId)
        && State() == old(State()).(
             products := old(products)[productId := NewProduct(vendor, req)],
             nextProductId := productId + 1)
    {
      var check := CheckProduct(req);
      if check.Fail? {
        return Rejected(Invalid(check.reason)), 0;
      }
      productId := nextProductId;
      products := products[productId := NewProduct(vendor, req)];
      nextProductId := productId + 1;
      resp := Done;
    }

    /** The view-count routes: `view_count + 1` for the matching products,
        which are then returned. */
    method ViewProductsByVendor(vendor: nat) returns (listed: map<nat, Product>)
      requires Valid()
      modifies this
      ensures Valid()
      ensures State() == old(State()).(products := products)
      ensures products.Keys == old(products).Keys
      ensures forall p :: p in products ==>
        products[p] == (if old(products)[p].vendor == vendor then old(products)[p].(viewCount := old(products)[p].viewCount + 1)
                        else old(products)[p])
      ensures forall p :: p in listed <==> p in products && products[p].vendor == vendor
      ensures forall p :: p in listed ==> listed[p] == products[p]
    {
      products := map p | p in products ::
        if products[p].vendor == vendor then products[p].(viewCount := products[p].viewCount + 1) else products[p];
      listed := map p | p in products && products[p].vendor == vendor :: products[p];
    }

    method ViewProductsByCategory(category: nat) returns (listed: map<nat, Product>)
      requires Valid()
      modifies this
      ensures Valid()
      ensures State() == old(State()).(products := products)
      ensures products.Keys == old(products).Keys
      ensures forall p :: p in products ==>
        products[p] == (if old(products)[p].category == category then old(products)[p].(viewCount := old(products)[p].viewCount + 1)
                        else old(products)[p])
      ensures forall p :: p in listed <==> p in products && products[p].category == category
      ensures forall p :: p in listed ==> listed[p] == products[p]
    {
      products := map p | p in products ::
        if products[p].category == category then products[p].(viewCount := products[p].viewCount + 1) else products[p];
      listed := map p | p in products && products[p].category == category :: products[p];
    }

    // -------------------------------------------------------------------------
    // Cart

    /** `POST /api/add_to_cart`: find the customer's cart or create one, then
        add the quantity to the product's line. */
    method AddToCart(customer: nat, product: nat, quantity: int) returns (resp: Response, cartId: nat)
      requires Valid()
      modifies this
      ensures Valid()
      ensures resp == Done
      ensures match CartOf(old(carts), customer)
        case None =>
          && cartId == old(nextCartId)
          && State() == old(State()).(
               carts := old(carts) + [Cart(cartId, customer)],
               nextCartId := cartId + 1,
               cartLines := old(cartLines) + [CartLine(cartId, product, quantity)])
        case Some(c) =>
          && cartId == old(carts)[c].id
          && State() == old(State()).(cartLines := AddLine(old(cartLines), cartId, product, quantity))
      ensures forall c: nat, p: nat ::
        QuantityOf(cartLines, c, p) == QuantityOf(old(cartLines), c, p) + (if c == cartId && p == product then quantity else 0)
    {
      var found := CartOf(carts, customer);
      if found.None? {
        cartId := nextCartId;
        carts := carts + [Cart(cartId, customer)];
        nextCartId := cartId + 1;
        assert LineIndex(cartLines, cartId, product).None?;
      } else {
        cartId := carts[found.value].id;
      }
      var before := cartLines;
      AddLineQuantity(before, cartId, product, quantity, cartId, product);
      cartLines := AddLine(cartLines, cartId, product, quantity);
      forall c: nat, p: nat ensures QuantityOf(cartLines, c, p)
        == QuantityOf(before, c, p) + (if c == cartId && p == product then quantity else 0)
      {
        AddLineQuantity(before, cartId, product, quantity, c, p);
      }
      resp := Done;
    }

    /** `POST /api/modify_cart/:cart_id`: quantity 0 removes the line, any other
        quantity replaces it. The cart's owner is not checked. */
    method ModifyCart(cartId: nat, product: nat, quantity: int) returns (resp: Response)
      requires Valid()
      modifies this
      ensures Valid()
      ensures resp == Done
      ensures State() == old(State()).(cartLines := ModifyLine(old(cartLines), cartId, product, quantity))
      ensures forall c: nat, p: nat ::
        QuantityOf(cartLines, c, p) ==
          (if c == cartId && p == product && (quantity == 0 || LineIndex(old(cartLines), cartId, product).Some?)
           then quantity else QuantityOf(old(cartLines), c, p))
    {
      var before := cartLines;
      ModifyLineQuantity(before, cartId, product, quantity, cartId, product);
      cartLines := ModifyLine(cartLines, cartId, product, quantity);
      forall c: nat, p: nat ensures QuantityOf(cartLines, c, p) ==
        if c == cartId && p == product && (quantity == 0 || LineIndex(before, cartId, product).Some?)
        then quantity else QuantityOf(before, c, p)
      {
        ModifyLineQuantity(before, cartId, product, quantity, c, p);
      }
      resp := Done;
    }

    // -------------------------------------------------------------------------
    // Orders

    /** The loops of the checkout over the joined rows: the CASE table of new
        stock values, the pricing of each line into the order's total, and the
        detail rows stamped with the order id. */
    method PlanCheckout(lines: seq<PurchaseLine>, orderId: nat, customer: nat, vendor: nat, recipient: string,
                        shipping: Shipping, now: nat)
      returns (table: map<nat, int>, order: Order, rows: seq<OrderDetail>)
      ensures table == CaseTable(lines)
      ensures order == CartOrder(orderId, customer, vendor, ItemsTotal(Items(lines)), now, Ordered, recipient, shipping)
      ensures rows == DetailRows(orderId, Items(lines))
    {
      table := StockCase(lines);
      var total, items := PriceLines(lines);
      order := CartOrder(orderId, customer, vendor, total, now, Ordered, recipient, shipping);
      rows := StampOrder(orderId, items);
    }

    /** The writes of the checkout, in the handler's order, once the checks have
        passed: stock, order, detail rows, payment, and the cart's deletion. */
    method CommitCheckout(lines: seq<PurchaseLine>, customer: nat, vendor: nat, cartId: nat, recipient: string,
                          shipping: Shipping, now: nat)
      returns (orderId: nat)
      requires lines == CheckoutLines(carts, cartLines, products, cartId)
      modifies this
      ensures orderId == old(nextOrderId)
      ensures State() == CartCheckout(old(State()), customer, vendor, cartId, recipient, shipping, now)
    {
      orderId := nextOrderId;
      var table, order, rows := PlanCheckout(lines, orderId, customer, vendor, recipient, shipping, now);
      UpdateStock(table);
      InsertOrder(order);
      InsertDetails(rows);
      InsertPayment(Payment(orderId, order.total, None));
      DeleteCart(cartId);
    }

    /** `POST /api/order_products`, version 1: check out a whole cart. The
        vendor id is the one the customer's token carries; the cart's owner is
        not checked. */
    method OrderFromCart(customer: nat, vendor: nat, cartId: nat, recipient: string, shipping: Shipping, now: nat)
      returns (resp: Response, orderId: nat)
      requires Valid()
      modifies this
      ensures Valid()
      ensures var lines := CheckoutLines(old(carts), old(cartLines), old(products), cartId);
        HasShortage(lines) ==> resp == Rejected(InsufficientStock) && State() == old(State())
      ensures var lines := CheckoutLines(old(carts), old(cartLines), old(products), cartId);
        !HasShortage(lines) && lines == [] ==> resp == Rejected(EmptyCart) && State() == old(State())
      ensures var lines := CheckoutLines(old(carts), old(cartLines), old(products), cartId);
        !HasShortage(lines) && lines != [] ==>
          && resp == Done && orderId == old(nextOrderId)
          && State() == CartCheckout(old(State()), customer, vendor, cartId, recipient, shipping, now)
    {
      var lines := CheckoutLines(carts, cartLines, products, cartId);
      var notEnough := FindShortage(lines);
      if notEnough {
        return Rejected(InsufficientStock), 0;
      }
      if lines == [] {
        // The CASE statement built from no rows is malformed: the update fails
        // and the transaction is rolled back.
        return Rejected(EmptyCart), 0;
      }
      CartCheckoutValid(State(), customer, vendor, cartId, recipient, shipping, now);
      orderId := CommitCheckout(lines, customer, vendor, cartId, recipient, shipping, now);
      resp := Done;
    }

    /** The writes of a single product order, in the handler's order, once the
        checks have passed: stock, order, payment, order count. */
    method CommitProductOrder(buyer: Option<nat>, productId: nat, quantity: int, comments: Option<string>,
                              shipping: Shipping, now: nat)
      returns (orderId: nat)
      requires productId in products
      modifies this
      ensures orderId == old(nextOrderId)
      ensures State() == SingleOrder(old(State()), buyer, productId, quantity, comments, shipping, now)
    {
      var p := products[productId];
      var each := UnitPrice(p.priceOriginal, p.priceDiscounted);
      var total := each * quantity;
      orderId := nextOrderId;
      UpdateProduct(productId, p.(stock := p.stock - quantity));
      InsertOrder(ProductOrder(orderId, buyer, p.vendor, productId, quantity, each, total,
                               now, Ordered, if buyer.Some? then comments else None, shipping));
      InsertPayment(Payment(orderId, total, if buyer.Some? then Some(now) else None));
      UpdateProduct(productId, products[productId].(orderCount := products[productId].orderCount + 1));
    }

    /** `POST /api/order_products` and `POST /api/order_products/guest`,
        version 2: order one product. `buyer` is None for the guest route. */
    method OrderProduct(buyer: Option<nat>, productId: nat, quantity: int, comments: Option<string>,
                        shipping: Shipping, now: nat)
      returns (resp: Response, orderId: nat)
      requires Valid()
      modifies this
      ensures Valid()
      ensures productId !in old(products) ==> resp == Rejected(NotFound) && State() == old(State())
      ensures productId in old(products) && old(products)[productId].stock < quantity ==>
        resp == Rejected(InsufficientStock) && State() == old(State())
      ensures productId in old(products) && old(products)[productId].stock >= quantity ==>
        && resp == Done && orderId == old(nextOrderId)
        && State() == SingleOrder(old(State()), buyer, productId, quantity, comments, shipping, now)
    {
      if productId !in products {
        // `results[0]` is undefined: the handler fails before writing anything.
        return Rejected(NotFound), 0;
      }
      var p := products[productId];
      if p.stock < quantity {
        return Rejected(InsufficientStock), 0;
      }
      SingleOrderValid(State(), buyer, productId, quantity, comments, shipping, now);
      orderId := CommitProductOrder(buyer, productId, quantity, comments, shipping, now);
      resp := Done;
    }

    // -------------------------------------------------------------------------
    // Reviews

    /** `POST /api/post_review/product/:id`: a rating between 0 and 5, from a
        customer who bought the product and has not reviewed it yet. */
    method PostReview(customer: nat, productId: nat, rating: Option<real>, text: string, now: nat) returns (resp: Response)
      requires Valid()
      modifies this
      ensures Valid()
      ensures CheckRating(rating).Fail? ==>
        resp == Rejected(Invalid(CheckRating(rating).reason)) && State() == old(State())
      ensures CheckRating(rating) == Pass && !HasPurchased(old(orders), old(details), customer, productId) ==>
        resp == Rejected(NotPurchased) && State() == old(State())
      ensures CheckRating(rating) == Pass && HasPurchased(old(orders), old(details), customer, productId)
              && HasReviewed(old(reviews), customer, productId) ==>
        resp == Rejected(AlreadyReviewed) && State() == old(State())
      ensures CheckRating(rating) == Pass && HasPurchased(old(orders), old(details), customer, productId)
              && !HasReviewed(old(reviews), customer, productId) && productId !in old(products) ==>
        resp == Rejected(NotFound) && State() == old(State())
      ensures CheckRating(rating) == Pass && HasPurchased(old(orders), old(details), customer, productId)
              && !HasReviewed(old(reviews), customer, productId) && productId in old(products) ==>
        resp == Done && State() == WithReview(old(State()), customer, productId, rating.value, text, now)
      ensures resp == Done ==> HasReviewed(reviews, customer, productId)
    {
      var check := CheckRating(rating);
      if check.Fail? {
        return Rejected(Invalid(check.reason));
      }
      if !HasPurchased(orders, details, customer, productId) {
        return Rejected(NotPurchased);
      }
      if HasReviewed(reviews, customer, productId) {
        return Rejected(AlreadyReviewed);
      }
      if productId !in products {
        // `results4[0]` is undefined: the transaction is never committed.
        return Rejected(NotFound);
      }
      var r := rating.value;
      WithReviewValid(State(), customer, productId, r, text, now);
      InsertReview(Review(nextReviewId, customer, productId, r, text, now));
      var p := products[productId];
      UpdateProduct(productId, p.(reviewCount := p.reviewCount + 1, rating := ComputeRating(p.reviewCount, p.rating, r)));
      resp := Done;
    }
  }

  /** The review gate over two attempts: a customer who has bought a product
      and not reviewed it succeeds once; the second attempt is refused. */
  method ReviewTwice(store: Store, customer: nat, productId: nat, rating: real, text: string, now: nat)
    returns (first: Response, second: Response)
    requires store.Valid()
    requires 0.0 <= rating <= 5.0 && productId in store.products
    requires HasPurchased(store.orders, store.details, customer, productId)
    requires !HasReviewed(store.reviews, customer, productId)
    modifies store
    ensures first == Done && second == Rejected(AlreadyReviewed)
  {
    first := store.PostReview(customer, productId, Some(rating), text, now);
    second := store.PostReview(customer, productId, Some(rating), text, now + 1);
  }
}
