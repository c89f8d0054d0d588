/**
 * The product record the storefront pages share. Products come either from the
 * backend (an untyped JSON array, so any field may be missing) or from the
 * bundled mock list; both are modelled as the same record with optional fields.
 */
module Products {
  import opened Options

  datatype Product = Product(
    id: int,
    name: string,
    category: Option<string>,
    material: Option<string>,
    price: Option<real>,
    originalPrice: Option<real>,
    rating: Option<int>,
    image: Option<string>,
    badge: Option<string>)

  /** A text field is truthy in JavaScript when it is present and not empty. */
  predicate TruthyText(field: Option<string>)
  {
    field.Some? && field.value != ""
  }

  /** A numeric field is truthy when it is present and not zero. */
  predicate TruthyNumber(field: Option<real>)
  {
    field.Some? && field.value != 0.0
  }

  predicate TruthyInt(field: Option<int>)
  {
    field.Some? && field.value != 0
  }

  /** `field || fallback` on a text field. */
  function TextOr(field: Option<string>, fallback: string): string
  {
    if TruthyText(field) then field.value else fallback
  }

  /** `field || fallback` on a numeric field. */
  function NumberOr(field: Option<real>, fallback: real): real
  {
    if TruthyNumber(field) then field.value else fallback
  }

  function IntOr(field: Option<int>, fallback: int): int
  {
    if TruthyInt(field) then field.value else fallback
  }

  /**
   * The list a page works on: the backend list once it has delivered at least
   * one product, the mock list before that (or when the backend sent nothing).
   */
  function ActiveList(backend: seq<Product>, mock: seq<Product>): (r: seq<Product>)
    ensures |backend| > 0 ==> r == backend
    ensures |backend| == 0 ==> r == mock
  {
    if |backend| > 0 then backend else mock
  }
}
