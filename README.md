# ShopApp route handlers, modelled in Dafny

ShopApp is an e-commerce backend. Its two route files, `routes/version1.js` and
`routes/version2.js`, handle HTTP requests by issuing SQL against a MySQL
database. This project models what that SQL means over an in-memory database.
The tables are categories (a nested-set tree per vendor), vendors, products,
carts and their lines, orders with their detail rows and payments, and reviews.

- `Shop.Store` is a class whose fields are the tables. It has one method per
  route handler. Each handler validates its request and then performs all of
  its writes, or none of them. Every write is a small method, one per SQL
  statement (`InsertOrder`, `UpdateStock`, `DeleteCart`, ...), and the handlers
  compose those.
- Each handler's new state is stated as a function of the old one. Those
  functions, and the rules the database keeps (`Tables.DbValid`), are proved
  about in the pure modules:
  - `NestedSet` and `Categories`: the category tree.
  - `Tables`: the carts.
  - `Checkout` and `Orders`: order placement.
  - `Rating`: the running product rating.
  - `Registration`: vendor sign-up.
  - `Validation`: the request validators.
- The two scanning loops of the cart checkout are methods with loop
  invariants: the stock check, and the building of the stock update and the
  priced detail rows.
- `Money` models `numberToMoney`, which writes an amount with the Korean units
  만 (10^4) and 억 (10^8). Like the source, it works on the decimal text. Its
  meaning is proved by digit range.

Identity is a parameter: the customer or vendor a token names. The clock is a
parameter (`now`). Prices and stock are unbounded integers. Ratings are exact
reals.

Where the source and its description differ, the model follows the source:

- Version 1's `add_category` without a parent records as parent the bare
  category id that its aggregate query returns alongside `MAX(rgt)`. The model
  takes the vendor's first row, and `Categories.TargetV1` promises only that it
  is some row of the vendor (see "## Left out").
- Version 2's `/vendor/register` does not stop after a failed validation (see
  Findings).

## Model

| member | source | states |
|---|---|---|
| Validation.CheckCustomerRegistration | routes/version1.js:165-212 | Passes exactly when every field is given, the lengths are in range, both passwords agree and gender is male or female; MissingField exactly when a field is missing |
| Validation.CheckVendorRegistrationV1 | routes/version1.js:1449-1479 | Passes exactly when the six required fields are given, username is 5-20, password 6-16, both passwords agree, email ≤ 30 and phone ≤ 15; MissingField exactly when a required field is missing |
| Validation.CheckVendorRegistrationV2 | routes/version2.js:393-406 | Passes exactly when the nine required fields are given, username and password are 4-20, phone ≤ 20 and email ≤ 30; otherwise fails with MissingField or FieldLengths |
| Validation.CheckProduct | routes/version1.js:1766-1790 | Passes exactly when name and category are given, stock and price are ≥ 1, the name has at most 20 characters and a set discount is below the original price; MissingField exactly when name, category, stock or price is missing or 0; DiscountNotLower only when the discount is not below the original |
| Tables.AcceptedProductValid | routes/version1.js:1766-1830 | A product the validator accepts is inserted as a row keeping the product rules, under the vendor and category given, with stock and price ≥ 1, rating 0 and all counters 0 |
| Validation.CheckProductPositive | routes/version1.js:1766-1790 | A passing product has stock ≥ 1 and price ≥ 1, because 0 is a missing field to the handler |
| Validation.CheckCategoryName | routes/version1.js:1849-1858 | Passes exactly for names of 1 to 20 characters |
| Validation.CheckRating | routes/version1.js:1135-1145 | Passes exactly for a given rating in [0, 5]; MissingField exactly when none is given |
| Rating.ComputeRatingWeighted | routes/version1.js:2316-2318 | The new rating times count + 1 equals count times the old rating plus the new one |
| Rating.ComputeRatingInRange | routes/version1.js:2316-2318 | Old and new ratings in [0, 5] give a result in [0, 5] |
| Rating.ComputeRatingExample | routes/version1.js:2316-2318 | Three 4.0 ratings and a new 5.0 give 4.25 |
| Rating.RunningRatingIsMean | routes/version1.js:1285-1295 | Updating the rating once per posted review, from a fresh product, yields the arithmetic mean of all ratings posted |
| Decimal.NatToString | routes/version2.js:1516 | The text of a number is non-empty, all digits, has no leading zero, and is one character long exactly below 10 |
| Decimal.ParseNatToString | routes/version2.js:1521 | Reading the decimal text back with unary `+` gives the number |
| Decimal.LengthBound | routes/version2.js:1518 | The text has at most k digits exactly when the number is below 10^k |
| Money.CutFour | routes/version2.js:1521-1524 | Cutting the last four characters gives n / 10000, and reading them gives n % 10000, written back without leading zeros and omitted when zero |
| Money.MoneyUnits | routes/version2.js:1518-1519 | Below 10^4 the result is the digits followed by 원 |
| Money.MoneyMan | routes/version2.js:1520-1526 | From 10^4 to 10^8 the result is n / 10^4, 만, the last group (omitted when zero), 원 |
| Money.MoneyEok | routes/version2.js:1527-1538 | From 10^8 to 10^12 the result is n / 10^8, 억, the middle group with 만 (omitted when zero), the last group (omitted when zero), 원 |
| Money.MoneyTooManyDigits | routes/version2.js:1539-1541 | For a natural written in plain decimal, the function fails exactly for numbers of more than 12 digits |
| Money.NumberToMoneyByUnits | routes/version2.js:1518-1541 | The four cases together: the result by digit range, and failure exactly from 10^12, for a natural written in plain decimal |
| Money.NumberToMoneySixMan | routes/version2.js:1513 | 60000 is written "6만원" |
| Money.NumberToMoneySixHundredEok | routes/version2.js:1514 | 60000007000 is written "600억7000원" |
| NestedSet.VendorMaxRow | routes/version1.js:1881-1888 | Finds a row of the vendor with the largest right bound among the vendor's rows; none exactly when the vendor has no rows |
| NestedSet.MaxRgt | routes/version1.js:1561-1564 | An upper bound of every right bound, attained by some row; 0 for an empty table |
| NestedSet.Subtree | routes/version1.js:1001-1007 | Holds exactly the rows with lft ≥ L and rgt ≤ R |
| NestedSet.SubtreeIsDescendants | routes/version1.js:1001-1007 | In a well-nested table the containment query for a category returns exactly that category and its descendants |
| NestedSet.InsertLeaf | routes/version1.js:1935-1989 | Every old row gets lft + 2 where lft > r and rgt + 2 where rgt > r - 1, nothing else changes, and one leaf [r, r + 1] with the given id, vendor, parent and name is appended |
| NestedSet.InsertLeafNested | routes/version1.js:1935-1989 | Inserting at a row's right bound keeps the table well nested, and the new leaf is that row's last child |
| NestedSet.RemoveLeaf | routes/version1.js:2087-2132 | Exactly row k is removed, and every remaining row gets lft - 2 where lft > rgt₀ and rgt - 2 where rgt > rgt₀ |
| NestedSet.RemoveLeafNested | routes/version1.js:2087-2132 | Removing a leaf keeps the table well nested |
| NestedSet.InsertRemoveRoundTrip | routes/version1.js:1935-1989 | Inserting a leaf and then deleting it restores the table exactly |
| NestedSet.AppendRootNested | routes/version1.js:1561-1585 | The new vendor root [M + 1, M + 2] keeps the table well nested and lies to the right of every existing interval |
| NestedSet.ShoesSneakersScenario | routes/version1.js:1935-1989 | Adding a child, then a grandchild, under a fresh root [1, 2] gives [1, 6], [2, 5], [3, 4] |
| Categories.TargetV1 | routes/version1.js:1881-1921 | Without a parent: the vendor's row with the largest right bound, recording the vendor's first row as parent, and refused exactly when the vendor has no rows. With a parent: that row, refused with NotFound exactly when no row has the id, and with ForeignParent exactly when it belongs to another vendor |
| Categories.TargetV2 | routes/version2.js:633-648 | Without a parent: the vendor's row with the largest right bound, no parent recorded, and NoVendorRoot exactly when the vendor has no rows. With a parent: that row whatever its vendor, and NotFound exactly when no row has the id |
| Categories.TargetsAgreeOnOwnParent | routes/version1.js:1914-1921 | With a parent id, version 2 finds a target exactly when version 1 does or refuses it as another vendor's; when version 1 finds one, both agree |
| Categories.AddCategoryValid | routes/version1.js:1935-1989 | Inserting a leaf with the next id keeps the tree well nested, ids unique and below the next id |
| Categories.DeleteCategoryValid | routes/version1.js:2087-2132 | Deleting a leaf keeps the category rules, and no remaining row has its id |
| Categories.RegisterRootValid | routes/version1.js:1578-1585 | Appending a vendor root keeps the category rules |
| Categories.CategoryProductsAreDescendants | routes/version1.js:1001-1013 | Listing a category returns exactly the products whose category is it or one of its descendants, unchanged |
| Registration.WithVendorValid | routes/version1.js:1510-1589 | Registration keeps every database rule, adds exactly one vendor under a fresh id and one category, a root of that vendor to the right of every interval. The new vendor row is built from the request, old vendor rows are kept, and every other table and counter is unchanged |
| Registration.RegisterV1 | routes/version1.js:1448-1640 | The inserts happen exactly for requests passing version 1's checks; a rejected request gets the failed check as its error |
| Registration.RegisterV2AsWrittenStoresRejected | routes/version2.js:391-477 | As written, a request rejected for its 3-character username is still stored with that username, and a root category is added |
| Registration.RegisterV2 | routes/version2.js:391-477 | Corrected: the inserts happen exactly for requests passing version 2's checks, and are then those of the handler as written |
| Registration.RegisterV2UsernameBounds | routes/version2.js:393-406 | The corrected handler never stores a username outside 4-20 characters |
| Checkout.UnitPriceBounded | routes/version1.js:812-829 | Under the product rule the unit price is at most the original, and below it exactly when a discount is set |
| Checkout.FindShortage | routes/version1.js:751-756 | The flag is raised exactly when some line's stock is below its quantity |
| Checkout.CaseTableEntries | routes/version1.js:777-795 | The CASE table covers exactly the cart's products and maps each to its stock less the quantity |
| Checkout.StockCase | routes/version1.js:777-795 | The loop builds exactly the CASE table |
| Checkout.CaseTableNonNegative | routes/version1.js:751-795 | Without a shortage every new stock value in the table is ≥ 0 |
| Checkout.Items | routes/version1.js:812-829 | One item per line, with its product, unit price and quantity |
| Checkout.PriceLines | routes/version1.js:812-829 | The loop builds exactly those items and their total |
| Checkout.DetailRows | routes/version1.js:864-866 | One detail row per item, carrying the order id |
| Checkout.StampOrder | routes/version1.js:864-866 | The loop stamps the order id onto every item, giving exactly the detail rows |
| Checkout.DetailRowsTotal | routes/version1.js:812-875 | The stamped detail rows of an order sum to the accumulated total |
| Tables.CartOf | routes/version1.js:470-476 | Finds a cart of the customer; none exactly when the customer has no cart |
| Tables.AddLineQuantity | routes/version1.js:597-614 | Adding to a cart adds the quantity to that product's line (a missing line counting as 0), changes no other line's quantity and keeps lines unique |
| Tables.ModifyLineQuantity | routes/version1.js:664-679 | Modifying sets the product's quantity: 0 removes the line, otherwise an existing line is overwritten; no other line's quantity changes and lines stay unique |
| Tables.WithoutLineUnique | routes/version1.js:665-670 | Deleting a line keeps cart lines unique |
| Tables.WithoutCart | routes/version1.js:911-914 | Holds exactly the carts other than the one deleted |
| Tables.WithoutCartLines | routes/version1.js:911-914 | Holds exactly the lines of other carts |
| Tables.Join | routes/version1.js:714-731 | Every joined row is a line of the cart with its product's current stock and prices |
| Tables.JoinComplete | routes/version1.js:714-731 | Every line of the cart whose product exists appears in the join |
| Tables.JoinDistinct | routes/version1.js:714-731 | With unique cart lines each product appears once in the join |
| Tables.Restock | routes/version1.js:777-795 | The stock update keeps the set of products |
| Tables.CheckoutStock | routes/version1.js:751-795 | Without a shortage each cart product's stock becomes stock less quantity, which is ≥ 0; no other field and no other product changes |
| Tables.PurchaseKept | routes/version1.js:1161-1186 | A recorded purchase stays recorded when orders and details are appended |
| Tables.AppendOrderValid | routes/version1.js:834-893 | Appending an order whose total agrees with its detail rows, with its payment for that total, keeps the order rules |
| Orders.RestockValid | routes/version1.js:751-795 | Without a shortage the restocked products keep the product rules |
| Orders.CheckoutOrdersValid | routes/version1.js:834-893 | A checkout keeps the order rules and the review rules |
| Orders.CartCheckoutValid | routes/version1.js:705-960 | A checkout of a non-empty cart without a shortage keeps every database rule |
| Orders.CheckoutDetails | routes/version1.js:812-875 | One detail row per cart line is appended, carrying the new order id, the line's product, unit price and quantity; older rows are kept |
| Orders.CheckoutTotals | routes/version1.js:812-893 | The new order's total is the sum over its detail rows, and its payment is for that total |
| Orders.CheckoutDeletesCart | routes/version1.js:911-914 | The cart and exactly its lines are deleted |
| Orders.CartCheckoutStock | routes/version1.js:751-795 | Each cart product's stock drops by its quantity and stays ≥ 0; other products are unchanged |
| Orders.SingleOrderValid | routes/version2.js:1163-1241 | A single-product order within stock keeps every database rule |
| Orders.SingleOrderEffects | routes/version2.js:1163-1241 | The product's stock drops by the quantity and stays ≥ 0, and its order count rises by 1; nothing else about it and no other product changes. The order's unit price is the discount when set, else the original, and never more than the original; its total is unit price times quantity; the payment is for the total and is stamped paid exactly for a signed-in buyer |
| Orders.WithReviewValid | routes/version1.js:1197-1295 | A review by a buyer who has not reviewed the product keeps every database rule and records the review |
| Shop.Store.InsertVendorRow | routes/version1.js:1510-1525 | Exactly one vendor row is added under the next id |
| Shop.Store.InsertCategoryRow | routes/version1.js:1580-1589 | Exactly one category row is appended |
| Shop.Store.UpdateProduct | routes/version2.js:1175-1179 | Exactly one product row is replaced |
| Shop.Store.UpdateStock | routes/version1.js:777-795 | Only the products table changes, by the CASE table |
| Shop.Store.InsertOrder | routes/version1.js:834-852 | Exactly one order is appended under the next id |
| Shop.Store.InsertDetails | routes/version1.js:869-875 | Exactly the given detail rows are appended |
| Shop.Store.InsertPayment | routes/version1.js:889-896 | Exactly one payment is appended |
| Shop.Store.DeleteCart | routes/version1.js:911-914 | Only the cart and its lines are removed |
| Shop.Store.InsertReview | routes/version1.js:1237-1247 | Exactly one review is appended under the next id |
| Shop.Store.InsertVendor | routes/version1.js:1510-1589 | The store stays valid and becomes the registration's state |
| Shop.Store.RegisterVendorV1 | routes/version1.js:1448-1640 | A valid request is registered under the next vendor id; an invalid one is rejected with the store unchanged |
| Shop.Store.RegisterVendorV2 | routes/version2.js:391-526 | The corrected version 2 handler: registered exactly for valid requests, store unchanged otherwise |
| Shop.Store.InsertCategory | routes/version1.js:1935-1992 | The store stays valid and gets the leaf inserted at the target's right bound under the next id |
| Shop.Store.AddCategoryV1 | routes/version1.js:1848-2033 | A bad name or refused target is answered with its error and no change; otherwise the leaf is inserted at the target with the recorded parent |
| Shop.Store.AddCategoryV2 | routes/version2.js:623-723 | A refused target is answered with its error and no change; otherwise the leaf is inserted at the target |
| Shop.Store.DeleteCategory | routes/version1.js:2036-2183 | Unknown id: NotFound; a category with children: HasChildren; both leave the store unchanged. A leaf is removed with the shifts, and afterwards no row has its id. Version 2 (routes/version2.js:726-820) is the same handler |
| Shop.Store.ListProductsByCategory | routes/version1.js:963-1040 | Unknown id: NotFound; otherwise the category's name and exactly the products of it and its descendants |
| Shop.Store.AddProduct | routes/version1.js:1765-1830 | An invalid request is rejected with no change; a valid one adds exactly the new product under the next id |
| Shop.Store.ViewProductsByVendor | routes/version2.js:967-1030 | View count + 1 for exactly the vendor's products, every other product and table unchanged; returns exactly the vendor's products |
| Shop.Store.ViewProductsByCategory | routes/version2.js:1032-1095 | View count + 1 for exactly the category's products, every other product and table unchanged; returns exactly the category's products |
| Shop.Store.AddToCart | routes/version1.js:454-643 | Without a cart: one new cart and its line; with one: the line is incremented or inserted. The quantity of that product in that cart rises by the amount, and no other quantity changes |
| Shop.Store.ModifyCart | routes/version1.js:646-702 | Only the cart lines change: quantity 0 removes the line, otherwise the quantity is set; no other quantity changes |
| Shop.Store.PlanCheckout | routes/version1.js:777-866 | The loops give the CASE table, the order with the summed total, and the stamped detail rows |
| Shop.Store.CommitCheckout | routes/version1.js:834-914 | The writes together produce the checkout state |
| Shop.Store.OrderFromCart | routes/version1.js:705-960 | A shortage gives InsufficientStock and an empty cart gives EmptyCart, both with the store unchanged; otherwise the order is placed under the next id and the store becomes the checkout state |
| Shop.Store.CommitProductOrder | routes/version2.js:1174-1241 | The writes together produce the single-product order state |
| Shop.Store.OrderProduct | routes/version2.js:1128-1415 | Unknown product: NotFound; stock below the quantity: InsufficientStock; both leave the store unchanged. Otherwise the order is placed under the next id. The guest route is the same handler with no buyer: no comments and no payment time |
| Shop.Store.PostReview | routes/version1.js:1134-1345 | Errors in the source's order: bad rating, not purchased, already reviewed, product gone, each with no change. Otherwise the review is added, the review count rises and the rating is updated, and the customer has then reviewed the product |
| Shop.ReviewTwice | routes/version1.js:1197-1223 | A second review of the same product by the same customer is refused as already reviewed |

## Left out

- Authentication (`verifyToken`, `verifyVendorToken`, `jwt`, `bcrypt`): these are foreign libraries. The customer or vendor id is a parameter.
- Login, password change and the customer register route beyond its validator: their writes are password hashing and token issuing, so only `Validation.CheckCustomerRegistration` is modelled.
- Image upload to the object store (`upload_images`, multer): this is I/O.
- Timestamps: the order, payment and review handlers pass the text `'NOW()'` as a value (routes/version1.js:839, 1241; routes/version2.js:1205, 1227, 1350). The SQL builder quotes it as a string literal, so what MySQL stores depends on the column type and the SQL mode; in strict mode the insert fails and the handler rolls back. The model stores the intended time, a `now` parameter. `getDateString` and `getDateSerial` only stamp error reports and are left out.
- SQL text building (`squel`), connections, transactions, rollback and release: each handler is one atomic transition. A storage error, which rolls the handler back, is not modelled.
- Concurrency: the race between the stock check and the stock update, and the unawaited `order_count` update racing the commit in version 2. The model executes sequentially.
- `process_payment`: it refers to an identifier that is never defined, so it has no behaviour to state.
- IEEE-754 arithmetic in `computeRating`: ratings are exact reals.
- Integer widths of the MySQL columns: prices, stock and counters are unbounded integers.
- Validation.CheckProduct: request fields are modelled as numbers, as when a client sends JSON numbers. The app also accepts form-encoded bodies (app.js:24), where every field is a string. A stock of `"0"` is then truthy and passes the missing-field test (routes/version1.js:1766), and the discount test (routes/version1.js:1786) compares the two strings character by character, so a price of "9" with a discount of "10" is accepted.
- Validation.CheckRating: modelled on numbers for the same reason. A string rating such as `"abc"` passes both range tests (routes/version1.js:1135-1140), because comparisons with NaN are false.
- Rating.ComputeRatingInRange: holds for numeric ratings only. With a string rating, `computeRating` (routes/version1.js:2316-2318) concatenates instead of adding: count 3, old rating 4 and rating "5" give "125" / 4 = 31.25.
- Shop.Store.PostReview: takes the rating as a number, so the string cases above, which would store a rating outside [0, 5], are not modelled.
- String lengths are counted in characters, as JavaScript's `length` does on strings without surrogate pairs. There is no byte or UTF-16 encoding.
- A handler reading `results[0].x` on an empty result throws a TypeError before anything is committed. In `post_review` this happens after the review insert (routes/version1.js:1237-1247), which stays uncommitted (routes/version1.js:1285-1287). This is modelled as `NotFound` with nothing changed.
- Categories.TargetV1: without a parent, version 1 queries `MIN(lft)` and `MAX(rgt)` together with the bare columns `category_id` and `vendor_id`, with no `GROUP BY` (routes/version1.js:1881-1888). Under `ONLY_FULL_GROUP_BY`, MySQL's default since 5.7.5, the server rejects that query. The error branch (routes/version1.js:1903-1912) does not return, so `results[0].vendor_id` at line 1915 throws and nothing is written. The model assumes a permissive SQL mode, where MySQL answers with the category id of one of the vendor's rows, and takes the vendor's first row.
- Categories.TargetV2: with no parent and a vendor without categories, the source computes with SQL NULL bounds. The model refuses with `NoVendorRoot` instead of writing NULL-shifted rows.
- An empty-cart checkout in version 1 builds a malformed `CASE` update, which fails and rolls back. The model answers `EmptyCart` with nothing changed.
- Registration.RegisterV2AsWritten: also stores a request without a password, where the handler's password hashing throws before any insert.
- Money.NumberToMoney: the input is an exact natural written in plain decimal. The source's JavaScript number is written in exponent form from 10^21 (10^21 becomes "1e+21", which takes the 5-to-8-character branch and gives "1만NaN원" instead of throwing), and above 2^53 its digits are rounded. Negative, fractional and non-numeric inputs are not modelled.
- Money.MoneyTooManyDigits: its failure clause describes the source only for 10^12 ≤ n < 10^21, for the reason above.
- Money.NumberToMoneyByUnits: its failure clause describes the source only for 10^12 ≤ n < 10^21, for the reason above.
- Tables.WithoutCartLines: deleting a cart also removes its `products_carts` lines. The checkout handler issues only `DELETE FROM carts` (routes/version1.js:911-914), so the model assumes an `ON DELETE CASCADE` on the line table's cart key. The schema is not part of this model. Without the cascade the lines would stay, or the delete would fail and the checkout would roll back.
- Orders.CheckoutDeletesCart: relies on the same assumed cascade.
- Shop.Store.DeleteCart: relies on the same assumed cascade.
- Tables.CartsValid: does not require cart ids to be distinct, because `add_to_cart` only checks for a cart by customer.
- No ownership checks, because the source has none:
  - `delete_category` does not check that the category belongs to the vendor.
  - `modify_cart` does not check that the cart belongs to the customer.
  - Version 1's `order_products` checks out any `cart_id` without checking that it belongs to the customer (routes/version1.js:714-731, 911-914).
  - Negative quantities are accepted.
- The response bodies, HTTP status codes and Korean display messages are folded into the `Response` datatype. Their text is not modelled.
- Listing routes outside those named here (single product, all products) are not part of this model.

## Findings

| source | as written | input that shows it | evidently intended | confidence | as-written member | corrected member |
|---|---|---|---|---|---|---|
| routes/version2.js:393-406 | A failed validation sends a 401 response but does not return, so the vendor row and its root category are still inserted | a complete registration with username "abc" (`Registration.ShortUsername`) | an invalid request is rejected and nothing is written | high, not executed | Registration.RegisterV2AsWrittenStoresRejected | Registration.RegisterV2 |
