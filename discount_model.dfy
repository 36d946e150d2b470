/**
 * The Discount collection's schema (discountModel.js): a coupon with an
 * upper-cased unique code, a percent-or-fixed type, a value, an active flag
 * defaulting to true and an optional expiry instant (milliseconds).
 */
module DiscountModel {
  import opened Wrappers
  import opened SchemaRules

  datatype DiscountType = Percent | Fixed

  datatype Discount = Discount(
    code: string,
    discountType: DiscountType,
    value: real,
    isActive: bool,
    expiresAt: Option<int>)

  /** A document as handed to the model before casting and validation. */
  datatype DiscountDoc = DiscountDoc(
    code: Option<string>,
    discountType: Option<string>,
    value: Option<real>,
    isActive: Option<bool>,
    expiresAt: Option<int>)

  /** The enum spellings the schema accepts for `discountType`. */
  function DiscountTypeLabel(t: DiscountType): string {
    match t
    case Percent => "percent"
    case Fixed => "fixed"
  }

  function ParseDiscountType(spelling: string): (r: Option<DiscountType>)
    ensures r.Some? <==> spelling == "percent" || spelling == "fixed"
    ensures r.Some? ==> DiscountTypeLabel(r.value) == spelling
  {
    if spelling == "percent" then Some(Percent)
    else if spelling == "fixed" then Some(Fixed)
    else None
  }

  lemma DiscountTypeRoundTrip(t: DiscountType)
    ensures ParseDiscountType(DiscountTypeLabel(t)) == Some(t)
  {
  }

  /** The `uppercase: true` setter on one character (ASCII letters only). */
  function UpperChar(c: char): (u: char)
    ensures !('a' <= u <= 'z')
    ensures 'a' <= c <= 'z' ==> u as int == c as int - 32 && 'A' <= u <= 'Z'
    ensures !('a' <= c <= 'z') ==> u == c
  {
    if 'a' <= c <= 'z' then (c as int - 32) as char else c
  }

  predicate IsUpperCase(s: string) {
    forall i :: 0 <= i < |s| ==> !('a' <= s[i] <= 'z')
  }

  /** `String.prototype.toUpperCase`, restricted to ASCII. */
  function UpperCase(s: string): (r: string)
    ensures |r| == |s|
    ensures forall i :: 0 <= i < |s| ==> r[i] == UpperChar(s[i])
  {
    if s == [] then [] else [UpperChar(s[0])] + UpperCase(s[1..])
  }

  /** Upper-casing yields an upper-case code and does nothing to one. */
  lemma UpperCaseNormalises(s: string)
    ensures IsUpperCase(UpperCase(s))
    ensures IsUpperCase(s) ==> UpperCase(s) == s
    ensures UpperCase(UpperCase(s)) == UpperCase(s)
  {
  }

  /**
   * Casting and validating a document: `code` is upper-cased and required,
   * `discountType` is required and one of the enum's two spellings, `value`
   * is required, `isActive` defaults to true, `expiresAt` is optional.
   */
  function NewDiscount(doc: DiscountDoc): (r: Result<Discount, SchemaError>)
    ensures r.Ok? <==>
      doc.code.Some? && RequiredText(doc.code.value) && doc.discountType.Some? &&
      ParseDiscountType(doc.discountType.value).Some? && doc.value.Some?
    ensures r.Ok? ==>
      && r.value.code == UpperCase(doc.code.value)
      && IsUpperCase(r.value.code) && |r.value.code| > 0
      && DiscountTypeLabel(r.value.discountType) == doc.discountType.value
      && r.value.value == doc.value.value
      && r.value.isActive == doc.isActive.GetOr(true)
      && r.value.expiresAt == doc.expiresAt
  {
    if doc.code.None? || !RequiredText(doc.code.value) then Err(Required("code"))
    else if doc.discountType.None? then Err(Required("discountType"))
    else if ParseDiscountType(doc.discountType.value).None? then Err(NotInEnum("discountType"))
    else if doc.value.None? then Err(Required("value"))
    else
      UpperCaseNormalises(doc.code.value);
      Ok(Discount(
        UpperCase(doc.code.value),
        ParseDiscountType(doc.discountType.value).value,
        doc.value.value,
        doc.isActive.GetOr(true),
        doc.expiresAt))
  }

  /**
   * The stored collection: keyed by code, so codes are unique, and every
   * stored code is the upper-cased one the setter produced.
   */
  predicate ValidTable(table: map<string, Discount>) {
    forall code :: code in table ==> table[code].code == code && IsUpperCase(code)
  }
}
