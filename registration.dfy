/** Vendor registration: the vendor row and the vendor's root category, inserted
    together. Version 1 validates first; version 2, as written, answers an invalid
    request with an error and then performs the inserts anyway. */
module Registration {
  import opened Common
  import opened Decimal
  import opened NestedSet
  import opened Validation
  import opened Tables
  import opened Categories

  /** The name of a vendor's root category: "vendor_" and the vendor id. */
  function RootName(vendorId: nat): string {
    "vendor_" + NatToString(vendorId)
  }

  /** The two inserts: the vendor row under the next vendor id, and the vendor's
      root category [M + 1, M + 2] where M is the largest right bound in the whole
      table (an empty table's MAX is NULL, and NULL + 1 is 1 in the handler). */
  function WithVendor(db: Db, q: VendorRegistration): Db {
    var vendorId := db.nextVendorId;
    db.(vendors := db.vendors[vendorId := VendorRow(q)],
        nextVendorId := vendorId + 1,
        categories := db.categories + [RootFor(db.categories, db.nextCategoryId, vendorId, RootName(vendorId))],
        nextCategoryId := db.nextCategoryId + 1)
  }

  /** Registration keeps every rule, adds exactly one vendor and one category, a
      root of the new vendor lying to the right of every existing interval; no
      other table changes. */
  lemma WithVendorValid(db: Db, q: VendorRegistration)
    requires DbValid(db)
    ensures DbValid(WithVendor(db, q))
    ensures db.nextVendorId !in db.vendors
    ensures var out := WithVendor(db, q);
      && out.vendors.Keys == db.vendors.Keys + {db.nextVendorId}
      && |out.categories| == |db.categories| + 1
      && out.categories[..|db.categories|] == db.categories
      && out.vendors[db.nextVendorId] == VendorRow(q)
      && (forall v :: v in db.vendors ==> out.vendors[v] == db.vendors[v])
      && out.nextVendorId == db.nextVendorId + 1 && out.nextCategoryId == db.nextCategoryId + 1
      && out.products == db.products && out.nextProductId == db.nextProductId
      && out.carts == db.carts && out.nextCartId == db.nextCartId && out.cartLines == db.cartLines
      && out.orders == db.orders && out.nextOrderId == db.nextOrderId
      && out.details == db.details && out.payments == db.payments
      && out.reviews == db.reviews && out.nextReviewId == db.nextReviewId
    ensures var root := WithVendor(db, q).categories[|db.categories|];
      && root.vendor == db.nextVendorId && root.parent == None && root.rgt == root.lft + 1
      && (forall i :: 0 <= i < |db.categories| ==> db.categories[i].rgt < root.lft)
  {
    RegisterRootValid(db.categories, db.nextCategoryId, db.nextVendorId, RootName(db.nextVendorId));
    AppendRootNested(db.categories, db.nextCategoryId, db.nextVendorId, RootName(db.nextVendorId));
  }

  datatype Registered = Registered(db: Db) | NotRegistered(error: Error)

  /** Version 1: the inserts happen exactly for requests that pass its checks. */
  function RegisterV1(db: Db, q: VendorRegistration): (r: Registered)
    ensures r.Registered? <==> CheckVendorRegistrationV1(q) == Pass
    ensures r.Registered? ==> r.db == WithVendor(db, q)
    ensures r.NotRegistered? ==> r.error == Invalid(CheckVendorRegistrationV1(q).reason)
  {
    match CheckVendorRegistrationV1(q)
    case Fail(reason) => NotRegistered(Invalid(reason))
    case Pass => Registered(WithVendor(db, q))
  }

  /** Version 2 as written: the failed checks send a 401 response but do not
      return, so the handler goes on to the inserts whatever the request (except
      one without a password, on which the password hashing throws first). */
  function RegisterV2AsWritten(db: Db, q: VendorRegistration): Db {
    WithVendor(db, q)
  }

  /** A complete request whose username is one character short of the minimum. */
  const ShortUsername: VendorRegistration :=
    VendorRegistration("abc", "secret", "", "Acme", "acme@example.com", "0212345678",
                       "1 Main St", "", "Seoul", "KR", "04524")

  /** As written, version 2 rejects this request and still stores the vendor
      with its three-character username and gives it a root category. */
  lemma RegisterV2AsWrittenStoresRejected(db: Db)
    ensures CheckVendorRegistrationV2(ShortUsername) == Fail(FieldLengths)
    ensures RegisterV2AsWritten(db, ShortUsername).vendors[db.nextVendorId].username == "abc"
    ensures |RegisterV2AsWritten(db, ShortUsername).categories| == |db.categories| + 1
  {
  }

  /** Version 2 as intended: stop at the first failed check. The inserts happen
      exactly for valid requests, and they are then those of the handler as
      written. */
  function RegisterV2(db: Db, q: VendorRegistration): (r: Registered)
    ensures r.Registered? <==> CheckVendorRegistrationV2(q) == Pass
    ensures r.Registered? ==> r.db == RegisterV2AsWritten(db, q)
    ensures r.NotRegistered? ==> r.error == Invalid(CheckVendorRegistrationV2(q).reason)
  {
    match CheckVendorRegistrationV2(q)
    case Fail(reason) => NotRegistered(Invalid(reason))
    case Pass => Registered(WithVendor(db, q))
  }

  /** The corrected handler never stores a vendor whose username is outside
      4 to 20 characters. */
  lemma RegisterV2UsernameBounds(db: Db, q: VendorRegistration)
    requires RegisterV2(db, q).Registered?
    ensures var v := RegisterV2(db, q).db.vendors[db.nextVendorId];
      4 <= |v.username| <= 20
  {
  }
}
