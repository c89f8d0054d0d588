/**
 * The product detail page: which product the route shows, the defaults that
 * fill its falsy fields, the gallery, and the view state changed by clicks
 * (selected thumbnail, quantity stepper, variant, accordion, mini-cart).
 */
module ProductDetail {
  import opened Options
  import opened Products

  /** The route's `:id` parameter after `parseInt(id || '1')`. */
  datatype RouteParam = Missing | Numeric(n: int) | NotANumber

  /** The id looked for: 1 when the parameter is missing, none when it does not parse. */
  function WantedId(param: RouteParam): (r: Option<int>)
    ensures param.Missing? ==> r == Some(1)
    ensures param.Numeric? ==> r == Some(param.n)
    ensures param.NotANumber? ==> r.None?
  {
    match param
    case Missing => Some(1)
    case Numeric(n) => Some(n)
    case NotANumber => None
  }

  /** `find`: the index of the first product with the wanted id (NaN matches nothing). */
  function FirstWithId(ps: seq<Product>, id: Option<int>): (r: Option<nat>)
    ensures r.Some? ==> r.value < |ps| && id == Some(ps[r.value].id)
    ensures r.Some? ==> forall j :: 0 <= j < r.value ==> id != Some(ps[j].id)
    ensures r.None? ==> forall j :: 0 <= j < |ps| ==> id != Some(ps[j].id)
  {
    if ps == [] then None
    else if id == Some(ps[0].id) then Some(0)
    else match FirstWithId(ps[1..], id)
      case Some(i) => Some(i + 1)
      case None => None
  }

  /** Some product of `ps` has the id `id`. */
  predicate HasId(ps: seq<Product>, id: Option<int>)
  {
    exists j :: 0 <= j < |ps| && id == Some(ps[j].id)
  }

  /** `ps[i]` is the first product whose id is `id`. */
  predicate IsFirstWithId(ps: seq<Product>, i: int, id: Option<int>)
  {
    0 <= i < |ps| && id == Some(ps[i].id) && forall j :: 0 <= j < i ==> id != Some(ps[j].id)
  }

  /**
   * The product shown: the first product of the active list with the wanted
   * id, or else the list's first product. With both lists empty the page reads
   * a field of `undefined` and fails; that case is `None` here.
   */
  function SelectProduct(backend: seq<Product>, mock: seq<Product>, param: RouteParam): (r: Option<Product>)
    ensures r.None? <==> |ActiveList(backend, mock)| == 0
    ensures HasId(ActiveList(backend, mock), WantedId(param)) ==>
      r.Some? && exists i :: IsFirstWithId(ActiveList(backend, mock), i, WantedId(param)) && r.value == ActiveList(backend, mock)[i]
    ensures r.Some? && !HasId(ActiveList(backend, mock), WantedId(param)) ==> r.value == ActiveList(backend, mock)[0]
  {
    var allProducts := ActiveList(backend, mock);
    match FirstWithId(allProducts, WantedId(param))
    case Some(i) =>
      assert IsFirstWithId(allProducts, i, WantedId(param));
      Some(allProducts[i])
    case None => if |allProducts| > 0 then Some(allProducts[0]) else None
  }

  /** `productWithDefaults`: every field the page reads, none missing. */
  datatype ShownProduct = ShownProduct(
    id: int,
    name: string,
    category: string,
    material: string,
    badge: string,
    rating: int,
    price: real,
    originalPrice: Option<real>,
    image: string)

  const PlaceholderImage: string := "https://readdy.ai/api/search-image?query=luxury%20handcrafted%20product"

  /**
   * Falsy category, material, badge, rating, price and image are replaced by
   * defaults ('Home Décor', 'Mixed', 'Handcrafted', 5, 0, the placeholder);
   * truthy ones and all other fields are copied.
   */
  function WithDefaults(p: Product): (r: ShownProduct)
    ensures r.id == p.id && r.name == p.name && r.originalPrice == p.originalPrice
    ensures TruthyText(p.category) ==> r.category == p.category.value
    ensures !TruthyText(p.category) ==> r.category == "Home Décor"
    ensures TruthyText(p.material) ==> r.material == p.material.value
    ensures !TruthyText(p.material) ==> r.material == "Mixed"
    ensures TruthyText(p.badge) ==> r.badge == p.badge.value
    ensures !TruthyText(p.badge) ==> r.badge == "Handcrafted"
    ensures TruthyInt(p.rating) ==> r.rating == p.rating.value
    ensures !TruthyInt(p.rating) ==> r.rating == 5
    ensures r.price == p.price.GetOr(0.0)
    ensures TruthyText(p.image) ==> r.image == p.image.value
    ensures !TruthyText(p.image) ==> r.image == PlaceholderImage
    ensures r.category != "" && r.material != "" && r.badge != "" && r.rating != 0 && r.image != ""
  {
    ShownProduct(
      p.id,
      p.name,
      TextOr(p.category, "Home Décor"),
      TextOr(p.material, "Mixed"),
      TextOr(p.badge, "Handcrafted"),
      IntOr(p.rating, 5),
      NumberOr(p.price, 0.0),
      p.originalPrice,
      TextOr(p.image, PlaceholderImage))
  }

  /** The gallery: five copies of the product's image. */
  const GallerySize: nat := 5

  function Gallery(image: string): (g: seq<string>)
    ensures |g| == GallerySize && forall i :: 0 <= i < |g| ==> g[i] == image
  {
    [image, image, image, image, image]
  }

  /** The accordion's section ids, in page order. */
  const SectionIds: seq<string> := ["description", "artisan", "care", "shipping"]

  const Variants: seq<string> := ["Gold", "Silver", "Rose Gold"]

  /** The page's click-driven state. */
  class ProductView {
    var selectedImage: int
    var quantity: int
    var selectedVariant: string
    var showMiniCart: bool
    var expandedSection: Option<string>

    /** The quantity never drops below 1, the thumbnail index stays in the gallery, at most one section is open. */
    ghost predicate Valid()
      reads this
    {
      quantity >= 1 &&
      0 <= selectedImage < GallerySize &&
      (expandedSection.Some? ==> expandedSection.value in SectionIds)
    }

    /** Initially the first image, quantity 1, 'Gold', mini-cart hidden, description open. */
    constructor ()
      ensures Valid()
      ensures selectedImage == 0 && quantity == 1 && selectedVariant == "Gold"
      ensures !showMiniCart && expandedSection == Some("description")
    {
      selectedImage := 0;
      quantity := 1;
      selectedVariant := "Gold";
      showMiniCart := false;
      expandedSection := Some("description");
    }

    /** A thumbnail click selects that thumbnail's index. */
    method SelectImage(index: int)
      requires Valid() && 0 <= index < GallerySize
      modifies this
      ensures Valid() && selectedImage == index
      ensures quantity == old(quantity) && expandedSection == old(expandedSection)
      ensures selectedVariant == old(selectedVariant) && showMiniCart == old(showMiniCart)
    {
      selectedImage := index;
    }

    /** The minus button: one less, but never below 1. */
    method Decrement()
      requires Valid()
      modifies this
      ensures Valid()
      ensures quantity == if old(quantity) > 1 then old(quantity) - 1 else 1
      ensures selectedImage == old(selectedImage) && expandedSection == old(expandedSection)
      ensures selectedVariant == old(selectedVariant) && showMiniCart == old(showMiniCart)
    {
      quantity := if 1 > quantity - 1 then 1 else quantity - 1;
    }

    /** The plus button. */
    method Increment()
      requires Valid()
      modifies this
      ensures Valid() && quantity == old(quantity) + 1
      ensures selectedImage == old(selectedImage) && expandedSection == old(expandedSection)
      ensures selectedVariant == old(selectedVariant) && showMiniCart == old(showMiniCart)
    {
      quantity := quantity + 1;
    }

    method SelectVariant(variant: string)
      requires Valid() && variant in Variants
      modifies this
      ensures Valid() && selectedVariant == variant
      ensures quantity == old(quantity) && expandedSection == old(expandedSection)
      ensures selectedImage == old(selectedImage) && showMiniCart == old(showMiniCart)
    {
      selectedVariant := variant;
    }

    /** A section header click: closes it when it is the open one, otherwise opens only it. */
    method ToggleSection(section: string)
      requires Valid() && section in SectionIds
      modifies this
      ensures Valid()
      ensures old(expandedSection) == Some(section) ==> expandedSection.None?
      ensures old(expandedSection) != Some(section) ==> expandedSection == Some(section)
      ensures quantity == old(quantity) && selectedImage == old(selectedImage)
      ensures selectedVariant == old(selectedVariant) && showMiniCart == old(showMiniCart)
    {
      expandedSection := if expandedSection == Some(section) then None else Some(section);
    }

    /** Add to Cart shows the mini-cart (its five-second auto-close is a timer). */
    method AddToCart()
      requires Valid()
      modifies this
      ensures Valid() && showMiniCart
      ensures quantity == old(quantity) && selectedImage == old(selectedImage)
      ensures expandedSection == old(expandedSection)
      ensures selectedVariant == old(selectedVariant)
    {
      showMiniCart := true;
    }

    /** The mini-cart's close button hides it and leaves the selection as it was. */
    method CloseMiniCart()
      requires Valid()
      modifies this
      ensures Valid() && !showMiniCart
      ensures quantity == old(quantity) && selectedImage == old(selectedImage)
      ensures selectedVariant == old(selectedVariant) && expandedSection == old(expandedSection)
    {
      showMiniCart := false;
    }

    /** The mini-cart's line price: the shown price times the quantity, at least the unit price. */
    function MiniCartLinePrice(shown: ShownProduct): (r: real)
      reads this
      requires Valid()
      ensures shown.price >= 0.0 ==> r >= shown.price
      ensures shown.price > 0.0 ==> r > 0.0
    {
      shown.price * quantity as real
    }
  }
}
