/** The writes of the three order routes and of the review route, each as the
    database it leaves behind, with the proof that it keeps every table rule. */
module Orders {
  import opened Common
  import opened Rating
  import opened Checkout
  import opened Tables

  // ---------------------------------------------------------------------------
  // Checking out a cart (version 1)

  /** The database after a cart checkout that passed the stock check: the cart's
      products lose their quantities, one order priced from the cart's lines with
      its detail rows and its undated payment is appended, and the cart and its
      lines are deleted. */
  function CartCheckout(db: Db, customer: nat, vendor: nat, cartId: nat, recipient: string, shipping: Shipping, now: nat): Db {
    PlaceLines(db, CheckoutLines(db.carts, db.cartLines, db.products, cartId), customer, vendor, cartId, recipient, shipping, now)
  }

  /** The writes of a checkout for the given joined rows. */
  function PlaceLines(db: Db, lines: seq<PurchaseLine>, customer: nat, vendor: nat, cartId: nat, recipient: string,
                      shipping: Shipping, now: nat): Db {
    var total := ItemsTotal(Items(lines));
    var id := db.nextOrderId;
    db.(products := Restock(db.products, CaseTable(lines)),
        orders := db.orders + [CartOrder(id, customer, vendor, total, now, Ordered, recipient, shipping)],
        nextOrderId := id + 1,
        details := db.details + DetailRows(id, Items(lines)),
        payments := db.payments + [Payment(id, total, None)],
        carts := WithoutCart(db.carts, cartId),
        cartLines := WithoutCartLines(db.cartLines, cartId))
  }

  /** The restocked products keep the product rules. */
  lemma RestockValid(db: Db, cartId: nat)
    requires DbValid(db) && IsCart(db.carts, cartId)
    requires !HasShortage(CheckoutLines(db.carts, db.cartLines, db.products, cartId))
    ensures ProductsValid(Restock(db.products, CaseTable(CheckoutLines(db.carts, db.cartLines, db.products, cartId))), db.nextProductId)
  {
    var j := Join(db.cartLines, db.products, cartId);
    CheckoutStock(db.cartLines, db.products, cartId);
    var out := Restock(db.products, CaseTable(j));
    forall p | p in out ensures p < db.nextProductId && ProductRowValid(out[p]) {
      if p in LineProducts(j) {
        var i :| 0 <= i < |j| && j[i].product == p;
        assert out[p] == db.products[p].(stock := out[p].stock);
      }
    }
  }

  /** The new order's rows keep the order rules, and every review stays backed
      by a purchase. */
  lemma CheckoutOrdersValid(db: Db, customer: nat, vendor: nat, cartId: nat, recipient: string, shipping: Shipping, now: nat)
    requires DbValid(db)
    ensures var out := CartCheckout(db, customer, vendor, cartId, recipient, shipping, now);
      && OrdersValid(out.orders, out.nextOrderId, out.details, out.payments)
      && ReviewsValid(out.reviews, out.nextReviewId, out.orders, out.details)
  {
    var lines := CheckoutLines(db.carts, db.cartLines, db.products, cartId);
    var id := db.nextOrderId;
    var total := ItemsTotal(Items(lines));
    var order := CartOrder(id, customer, vendor, total, now, Ordered, recipient, shipping);
    var rows := DetailRows(id, Items(lines));
    DetailRowsTotal(id, Items(lines));
    AppendOrderValid(db.orders, id, db.details, db.payments, order, rows, None);
    forall i | 0 <= i < |db.reviews|
      ensures HasPurchased(db.orders + [order], db.details + rows, db.reviews[i].customer, db.reviews[i].product)
    {
      PurchaseKept(db.orders, db.details, [order], rows, db.reviews[i].customer, db.reviews[i].product);
    }
  }

  /** A checkout that passed the stock check keeps every table rule. */
  lemma CartCheckoutValid(db: Db, customer: nat, vendor: nat, cartId: nat, recipient: string, shipping: Shipping, now: nat)
    requires DbValid(db)
    requires var lines := CheckoutLines(db.carts, db.cartLines, db.products, cartId);
      !HasShortage(lines) && lines != []
    ensures DbValid(CartCheckout(db, customer, vendor, cartId, recipient, shipping, now))
  {
    var out := CartCheckout(db, customer, vendor, cartId, recipient, shipping, now);
    RestockValid(db, cartId);
    CheckoutOrdersValid(db, customer, vendor, cartId, recipient, shipping, now);
    WithoutCartLinesUnique(db.cartLines, cartId);
    assert CartsValid(out.carts, out.nextCartId, out.cartLines);
  }

  /** A checkout writes one detail row per joined line, in order, carrying the
      new order id and the line's unit price. */
  lemma CheckoutDetails(db: Db, customer: nat, vendor: nat, cartId: nat, recipient: string, shipping: Shipping, now: nat)
    ensures var lines := CheckoutLines(db.carts, db.cartLines, db.products, cartId);
      var out := CartCheckout(db, customer, vendor, cartId, recipient, shipping, now);
      && |out.details| == |db.details| + |lines|
      && out.details[..|db.details|] == db.details
      && (forall i :: 0 <= i < |lines| ==>
            out.details[|db.details| + i] == OrderDetail(db.nextOrderId, lines[i].product,
              UnitPrice(lines[i].priceOriginal, lines[i].priceDiscounted), lines[i].quantity))
  {
    var lines := CheckoutLines(db.carts, db.cartLines, db.products, cartId);
    var rows := DetailRows(db.nextOrderId, Items(lines));
    var details := CartCheckout(db, customer, vendor, cartId, recipient, shipping, now).details;
    assert details == db.details + rows;
    forall i | 0 <= i < |lines|
      ensures details[|db.details| + i] == rows[i]
    {
    }
  }

  /** The new order's total is the sum of price_each times quantity over its
      detail rows, and its payment is for that total. */
  lemma CheckoutTotals(db: Db, customer: nat, vendor: nat, cartId: nat, recipient: string, shipping: Shipping, now: nat)
    requires forall k :: 0 <= k < |db.details| ==> db.details[k].order < db.nextOrderId
    ensures var out := CartCheckout(db, customer, vendor, cartId, recipient, shipping, now);
      && out.orders[|db.orders|].total == OrderTotal(out.details, db.nextOrderId)
      && out.payments[|db.payments|] == Payment(db.nextOrderId, out.orders[|db.orders|].total, None)
  {
    var lines := CheckoutLines(db.carts, db.cartLines, db.products, cartId);
    var id := db.nextOrderId;
    var rows := DetailRows(id, Items(lines));
    OrderTotalAppend(db.details, rows, id);
    OrderTotalOther(db.details, id);
    DetailRowsTotal(id, Items(lines));
  }

  /** A checkout deletes the cart and every line of it. */
  lemma CheckoutDeletesCart(db: Db, customer: nat, vendor: nat, cartId: nat, recipient: string, shipping: Shipping, now: nat)
    ensures var out := CartCheckout(db, customer, vendor, cartId, recipient, shipping, now);
      && (forall c :: c in out.carts <==> c in db.carts && c.id != cartId)
      && (forall l :: l in out.cartLines <==> l in db.cartLines && l.cart != cartId)
  {
  }

  /** A checkout that passed the stock check takes from each product of the cart
      exactly its quantity, never below 0, and leaves every other product as it
      was. */
  lemma CartCheckoutStock(db: Db, customer: nat, vendor: nat, cartId: nat, recipient: string, shipping: Shipping, now: nat)
    requires DbValid(db)
    requires var lines := CheckoutLines(db.carts, db.cartLines, db.products, cartId);
      !HasShortage(lines) && lines != []
    ensures var lines := CheckoutLines(db.carts, db.cartLines, db.products, cartId);
      var out := CartCheckout(db, customer, vendor, cartId, recipient, shipping, now);
      && out.products.Keys == db.products.Keys
      && (forall i :: 0 <= i < |lines| ==>
            && out.products[lines[i].product] == db.products[lines[i].product].(stock := db.products[lines[i].product].stock - lines[i].quantity)
            && out.products[lines[i].product].stock >= 0)
      && (forall p :: p in db.products && p !in LineProducts(lines) ==> out.products[p] == db.products[p])
  {
    assert CheckoutLines(db.carts, db.cartLines, db.products, cartId) == Join(db.cartLines, db.products, cartId);
    CheckoutStock(db.cartLines, db.products, cartId);
  }

  // ---------------------------------------------------------------------------
  // Ordering one product (version 2)

  /** The order row of a single product order. The guest route records no
      customer and no comments. */
  function ProductOrderRow(db: Db, buyer: Option<nat>, productId: nat, quantity: int, comments: Option<string>,
                           shipping: Shipping, now: nat): Order
    requires productId in db.products
  {
    var p := db.products[productId];
    var each := UnitPrice(p.priceOriginal, p.priceDiscounted);
    ProductOrder(db.nextOrderId, buyer, p.vendor, productId, quantity, each, each * quantity,
                 now, Ordered, if buyer.Some? then comments else None, shipping)
  }

  /** The database after a single product order that passed the stock check:
      the stock drops by the quantity, the order count rises by one, the order
      and its payment are appended; a customer's payment is dated, a guest's is
      not. */
  function SingleOrder(db: Db, buyer: Option<nat>, productId: nat, quantity: int, comments: Option<string>,
                       shipping: Shipping, now: nat): Db
    requires productId in db.products
  {
    var p := db.products[productId];
    var order := ProductOrderRow(db, buyer, productId, quantity, comments, shipping, now);
    db.(products := db.products[productId := p.(stock := p.stock - quantity, orderCount := p.orderCount + 1)],
        orders := db.orders + [order],
        nextOrderId := db.nextOrderId + 1,
        payments := db.payments + [Payment(db.nextOrderId, order.total, if buyer.Some? then Some(now) else None)])
  }

  /** An order for no more than the stock keeps every table rule. */
  lemma SingleOrderValid(db: Db, buyer: Option<nat>, productId: nat, quantity: int, comments: Option<string>,
                         shipping: Shipping, now: nat)
    requires DbValid(db) && productId in db.products && quantity <= db.products[productId].stock
    ensures DbValid(SingleOrder(db, buyer, productId, quantity, comments, shipping, now))
  {
    var order := ProductOrderRow(db, buyer, productId, quantity, comments, shipping, now);
    var paidAt := if buyer.Some? then Some(now) else None;
    AppendOrderValid(db.orders, db.nextOrderId, db.details, db.payments, order, [], paidAt);
    assert db.details + [] == db.details;
    forall i | 0 <= i < |db.reviews|
      ensures HasPurchased(db.orders + [order], db.details, db.reviews[i].customer, db.reviews[i].product)
    {
      PurchaseKept(db.orders, db.details, [order], [], db.reviews[i].customer, db.reviews[i].product);
    }
  }

  /** What a single product order records: the product's stock drops by the
      quantity and stays non-negative, its order count rises by one and nothing
      else about it or any other product changes; the order is charged the
      discounted price when one is set and the original price otherwise, never
      more than the original; and the payment is for the order's total, the unit
      price times the quantity. */
  lemma SingleOrderEffects(db: Db, buyer: Option<nat>, productId: nat, quantity: int, comments: Option<string>,
                           shipping: Shipping, now: nat)
    requires DbValid(db) && productId in db.products && quantity <= db.products[productId].stock
    ensures var p := db.products[productId];
      var out := SingleOrder(db, buyer, productId, quantity, comments, shipping, now);
      var o := out.orders[|db.orders|];
      && out.products.Keys == db.products.Keys
      && out.products[productId].stock == p.stock - quantity >= 0
      && out.products[productId].orderCount == p.orderCount + 1
      && out.products[productId].(stock := p.stock, orderCount := p.orderCount) == p
      && (forall q :: q in db.products && q != productId ==> out.products[q] == db.products[q])
      && o.product == productId && o.quantity == quantity
      && o.priceEach <= p.priceOriginal
      && (o.priceEach < p.priceOriginal <==> p.priceDiscounted != 0)
      && o.priceEach == (if p.priceDiscounted != 0 then p.priceDiscounted else p.priceOriginal)
      && o.total == o.priceEach * quantity
      && out.payments[|db.payments|].amount == o.total
      && (out.payments[|db.payments|].paidAt.Some? <==> buyer.Some?)
  {
    var p := db.products[productId];
    UnitPriceBounded(p.priceOriginal, p.priceDiscounted);
  }

  // ---------------------------------------------------------------------------
  // Posting a review

  /** The database after an accepted review: the review is appended, the
      product's review count rises by one and its rating becomes the running
      mean with the new rating. */
  function WithReview(db: Db, customer: nat, productId: nat, rating: real, text: string, now: nat): Db
    requires productId in db.products
  {
    var p := db.products[productId];
    db.(reviews := db.reviews + [Review(db.nextReviewId, customer, productId, rating, text, now)],
        nextReviewId := db.nextReviewId + 1,
        products := db.products[productId := p.(
          reviewCount := p.reviewCount + 1,
          rating := ComputeRating(p.reviewCount, p.rating, rating))])
  }

  /** A review accepted by the handler's checks keeps every table rule, and the
      customer has then reviewed the product. */
  lemma WithReviewValid(db: Db, customer: nat, productId: nat, rating: real, text: string, now: nat)
    requires DbValid(db) && productId in db.products && 0.0 <= rating <= 5.0
    requires HasPurchased(db.orders, db.details, customer, productId)
    requires !HasReviewed(db.reviews, customer, productId)
    ensures DbValid(WithReview(db, customer, productId, rating, text, now))
    ensures HasReviewed(WithReview(db, customer, productId, rating, text, now).reviews, customer, productId)
  {
    var out := WithReview(db, customer, productId, rating, text, now);
    var p := db.products[productId];
    ComputeRatingInRange(p.reviewCount, p.rating, rating);
    assert out.reviews[|db.reviews|].customer == customer && out.reviews[|db.reviews|].product == productId;
    assert ReviewsValid(out.reviews, out.nextReviewId, out.orders, out.details);
  }
}
