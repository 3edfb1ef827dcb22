/** The request checks the route handlers run before touching the database. A
    missing field and an empty one are the same to the source (both are falsy),
    so a missing string field is "" here and a missing number is 0. Lengths are
    counted in characters. */
module Validation {
  import opened Common

  /** Which check rejected the request (one per error message of the source). */
  datatype Reason =
    | MissingField
    | UsernameLength
    | PasswordLength
    | PasswordMismatch
    | Gender
    | Address1Length
    | CityLength
    | PhoneLength
    | PostalCodeLength
    | EmailLength
    | FieldLengths
    | NameLength
    | NegativeStock
    | NegativePrice
    | DiscountNotLower
    | RatingOutOfRange

  datatype Check = Pass | Fail(reason: Reason)

  predicate Given(s: string) {
    s != ""
  }

  // ---------------------------------------------------------------------------
  // Customer registration (version 1)

  datatype CustomerRegistration = CustomerRegistration(
    vendorId: nat,
    username: string,
    password: string,
    passwordConfirm: string,
    firstName: string,
    lastName: string,
    phone: string,
    gender: string,
    address1: string,
    city: string,
    postalCode: string)

  predicate CustomerFieldsGiven(q: CustomerRegistration) {
    && q.vendorId != 0 && Given(q.username) && Given(q.password) && Given(q.firstName)
    && Given(q.passwordConfirm) && Given(q.lastName) && Given(q.phone) && Given(q.gender)
    && Given(q.address1) && Given(q.city) && Given(q.postalCode)
  }

  /** Every rule a customer registration must satisfy, checked in the source's order. */
  function CheckCustomerRegistration(q: CustomerRegistration): (c: Check)
    ensures c == Pass <==>
      && CustomerFieldsGiven(q)
      && 5 <= |q.username| <= 20
      && 6 <= |q.password| <= 16
      && q.password == q.passwordConfirm
      && (q.gender == "male" || q.gender == "female")
      && |q.address1| <= 25 && |q.city| <= 20 && |q.phone| <= 15 && |q.postalCode| <= 10
    ensures c == Fail(MissingField) <==> !CustomerFieldsGiven(q)
    ensures c == Fail(PasswordMismatch) ==> q.password != q.passwordConfirm
    ensures c == Fail(Gender) ==> q.gender != "male" && q.gender != "female"
  {
    if !CustomerFieldsGiven(q) then Fail(MissingField)
    else if |q.username| < 5 || |q.username| > 20 then Fail(UsernameLength)
    else if |q.password| < 6 || |q.password| > 16 then Fail(PasswordLength)
    else if q.password != q.passwordConfirm then Fail(PasswordMismatch)
    else if q.gender != "male" && q.gender != "female" then Fail(Gender)
    else if |q.address1| > 25 then Fail(Address1Length)
    else if |q.city| > 20 then Fail(CityLength)
    else if |q.phone| > 15 then Fail(PhoneLength)
    else if |q.postalCode| > 10 then Fail(PostalCodeLength)
    else Pass
  }

  // ---------------------------------------------------------------------------
  // Vendor registration (versions 1 and 2 check different fields and limits)

  datatype VendorRegistration = VendorRegistration(
    username: string,
    password: string,
    passwordConfirm: string,
    name: string,
    email: string,
    phone: string,
    address1: string,
    address2: string,
    city: string,
    country: string,
    postalCode: string)

  function CheckVendorRegistrationV1(q: VendorRegistration): (c: Check)
    ensures c == Pass <==>
      && Given(q.username) && Given(q.password) && Given(q.name)
      && Given(q.passwordConfirm) && Given(q.phone) && Given(q.email)
      && 5 <= |q.username| <= 20 && 6 <= |q.password| <= 16
      && q.password == q.passwordConfirm
      && |q.email| <= 30 && |q.phone| <= 15
    ensures c == Fail(MissingField) <==>
      !(Given(q.username) && Given(q.password) && Given(q.name)
        && Given(q.passwordConfirm) && Given(q.phone) && Given(q.email))
  {
    if !(Given(q.username) && Given(q.password) && Given(q.name)
         && Given(q.passwordConfirm) && Given(q.phone) && Given(q.email)) then Fail(MissingField)
    else if |q.username| < 5 || |q.username| > 20 then Fail(UsernameLength)
    else if |q.password| < 6 || |q.password| > 16 then Fail(PasswordLength)
    else if q.password != q.passwordConfirm then Fail(PasswordMismatch)
    else if |q.email| > 30 then Fail(EmailLength)
    else if |q.phone| > 15 then Fail(PhoneLength)
    else Pass
  }

  /** Version 2 asks for the address fields, no password confirmation, and
      reports all length violations with one message. */
  function CheckVendorRegistrationV2(q: VendorRegistration): (c: Check)
    ensures c == Pass <==>
      && Given(q.username) && Given(q.password) && Given(q.name) && Given(q.email)
      && Given(q.phone) && Given(q.address1) && Given(q.city) && Given(q.postalCode)
      && Given(q.country)
      && 4 <= |q.username| <= 20 && 4 <= |q.password| <= 20
      && |q.phone| <= 20 && |q.email| <= 30
    ensures c.Fail? ==> c.reason == MissingField || c.reason == FieldLengths
  {
    if !(Given(q.username) && Given(q.password) && Given(q.name) && Given(q.email)
         && Given(q.phone) && Given(q.address1) && Given(q.city) && Given(q.postalCode)
         && Given(q.country)) then Fail(MissingField)
    else if |q.username| < 4 || |q.username| > 20 || |q.password| < 4 || |q.password| > 20
         || |q.phone| > 20 || |q.email| > 30 then Fail(FieldLengths)
    else Pass
  }

  // ---------------------------------------------------------------------------
  // New product (version 1)

  datatype ProductRequest = ProductRequest(
    name: string,
    categoryId: nat,
    stock: int,
    priceOriginal: int,
    priceDiscounted: int,
    tag: string,
    description: string)

  function CheckProduct(q: ProductRequest): (c: Check)
    ensures c == Pass <==>
      && Given(q.name) && q.categoryId != 0 && q.stock >= 1 && q.priceOriginal >= 1
      && |q.name| <= 20
      && (q.priceDiscounted != 0 ==> q.priceDiscounted < q.priceOriginal)
    ensures c == Fail(MissingField) <==>
      !Given(q.name) || q.categoryId == 0 || q.stock == 0 || q.priceOriginal == 0
    ensures c == Pass ==> q.stock >= 0 && q.priceOriginal >= 0
    ensures c == Pass ==> q.priceDiscounted != 0 ==> q.priceDiscounted < q.priceOriginal
    ensures c == Fail(DiscountNotLower) ==> q.priceDiscounted >= q.priceOriginal
  {
    if !Given(q.name) || q.categoryId == 0 || q.stock == 0 || q.priceOriginal == 0 then Fail(MissingField)
    else if |q.name| > 20 then Fail(NameLength)
    else if q.stock < 0 then Fail(NegativeStock)
    else if q.priceOriginal < 0 then Fail(NegativePrice)
    else if q.priceDiscounted != 0 && q.priceDiscounted >= q.priceOriginal then Fail(DiscountNotLower)
    else Pass
  }

  /** Because a zero stock or price counts as a missing field, an accepted product
      has at least one unit in stock and a positive original price. */
  lemma CheckProductPositive(q: ProductRequest)
    requires CheckProduct(q) == Pass
    ensures q.stock >= 1 && q.priceOriginal >= 1
  {
  }

  // ---------------------------------------------------------------------------
  // New category (version 1) and review rating (version 1)

  function CheckCategoryName(name: string): (c: Check)
    ensures c == Pass <==> 1 <= |name| <= 20
  {
    if !Given(name) then Fail(MissingField)
    else if |name| > 20 then Fail(NameLength)
    else Pass
  }

  function CheckRating(rating: Option<real>): (c: Check)
    ensures c == Pass <==> rating.Some? && 0.0 <= rating.value <= 5.0
    ensures c == Fail(MissingField) <==> rating.None?
  {
    if rating.None? then Fail(MissingField)
    else if rating.value < 0.0 || rating.value > 5.0 then Fail(RatingOutOfRange)
    else Pass
  }
}
