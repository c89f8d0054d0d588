/**
 * The shop page's filter state: what the panel shows as selected and what the
 * product list is filtered by (the applied criteria), the sort option, and
 * whether the panel is open. Every handler writes the selected and the applied
 * field together, so the two never differ; the Apply button therefore never
 * changes which products are listed.
 */
module ShopPanel {
  import opened Products
  import opened ShopFilter
  import opened ShopSort

  /** `selectedMaterials.filter(m => m !== material)`: every occurrence of `m` removed. */
  function Without(s: seq<string>, m: string): (r: seq<string>)
    ensures |r| <= |s|
    ensures forall x :: x in r <==> x in s && x != m
  {
    if s == [] then []
    else (if s[0] == m then [] else [s[0]]) + Without(s[1..], m)
  }

  /** Removing a material that is not selected changes nothing. */
  lemma {:induction false} WithoutAbsent(s: seq<string>, m: string)
    requires m !in s
    ensures Without(s, m) == s
  {
    if s != [] {
      WithoutAbsent(s[1..], m);
      assert s == [s[0]] + s[1..];
    }
  }

  /**
   * The pipeline is idempotent: when a grid only holds products matching the
   * criteria and is sorted by the option, any stable sort of the re-filtered
   * grid by the same option is the grid itself.
   */
  lemma PipelineIdempotent(c: Criteria, o: SortOrder, shown: seq<Product>, again: seq<Product>)
    requires forall i :: 0 <= i < |shown| ==> Matches(shown[i], c)
    requires SortedBy(shown, KeyOf(o))
    requires SortedBy(again, KeyOf(o)) && SameKeyOrder(again, FilterProducts(shown, c), KeyOf(o))
    ensures again == shown
  {
    FilterKeepsMatching(shown, c);
    StableSortUnique(again, shown, KeyOf(o));
  }

  class FilterPanel {
    var isFilterOpen: bool
    var selectedCategory: string
    var selectedMaterials: seq<string>
    var priceMin: real
    var priceMax: real
    var sortOption: string
    var appliedCategory: string
    var appliedMaterials: seq<string>
    var appliedMin: real
    var appliedMax: real

    /** The selected fields always equal the applied ones. */
    ghost predicate Valid()
      reads this
    {
      selectedCategory == appliedCategory &&
      selectedMaterials == appliedMaterials &&
      priceMin == appliedMin && priceMax == appliedMax
    }

    /** The criteria `filteredProducts` reads. */
    function Applied(): Criteria
      reads this
    {
      Criteria(appliedCategory, appliedMin, appliedMax, appliedMaterials)
    }

    /** Initial state: category 'All', no materials, price range [0, 1000], 'featured', panel closed. */
    constructor ()
      ensures Valid() && !isFilterOpen && sortOption == "featured"
      ensures Applied() == Criteria(AllCategories, 0.0, 1000.0, [])
    {
      isFilterOpen := false;
      selectedCategory, appliedCategory := AllCategories, AllCategories;
      selectedMaterials, appliedMaterials := [], [];
      priceMin, priceMax := 0.0, 1000.0;
      appliedMin, appliedMax := 0.0, 1000.0;
      sortOption := "featured";
    }

    /** A category button or radio: selects and applies the category at once. */
    method ChooseCategory(cat: string)
      requires Valid()
      modifies this
      ensures Valid()
      ensures Applied() == old(Applied()).(category := cat)
      ensures isFilterOpen == old(isFilterOpen) && sortOption == old(sortOption)
    {
      selectedCategory := cat;
      appliedCategory := cat;
    }

    /** The minimum price input: the new range keeps the current maximum and is applied at once. */
    method SetMinPrice(value: real)
      requires Valid()
      modifies this
      ensures Valid()
      ensures Applied() == old(Applied()).(minPrice := value)
      ensures isFilterOpen == old(isFilterOpen) && sortOption == old(sortOption)
    {
      var newMin, newMax := value, priceMax;
      priceMin, priceMax := newMin, newMax;
      appliedMin, appliedMax := newMin, newMax;
    }

    /** The maximum price input and the range slider: keeps the current minimum, applied at once. */
    method SetMaxPrice(value: real)
      requires Valid()
      modifies this
      ensures Valid()
      ensures Applied() == old(Applied()).(maxPrice := value)
      ensures isFilterOpen == old(isFilterOpen) && sortOption == old(sortOption)
    {
      var newMin, newMax := priceMin, value;
      priceMin, priceMax := newMin, newMax;
      appliedMin, appliedMax := newMin, newMax;
    }

    /**
     * A material checkbox: checking appends the material, unchecking removes
     * every occurrence of it; the new list is selected and applied at once.
     */
    method ToggleMaterial(material: string, checked: bool)
      requires Valid()
      modifies this
      ensures Valid()
      ensures checked ==> appliedMaterials == old(appliedMaterials) + [material]
      ensures !checked ==> appliedMaterials == Without(old(appliedMaterials), material)
      ensures !checked ==> material !in appliedMaterials
      ensures appliedCategory == old(appliedCategory)
      ensures appliedMin == old(appliedMin) && appliedMax == old(appliedMax)
      ensures isFilterOpen == old(isFilterOpen) && sortOption == old(sortOption)
    {
      var newSelected: seq<string>;
      if checked {
        newSelected := selectedMaterials + [material];
      } else {
        newSelected := Without(selectedMaterials, material);
      }
      selectedMaterials := newSelected;
      appliedMaterials := newSelected;
    }

    /**
     * Apply Filters: copies the selected materials and price range into the
     * applied ones and closes the panel. Because the two already agree, the
     * applied criteria do not change.
     */
    method ApplyFilters()
      requires Valid()
      modifies this
      ensures Valid() && !isFilterOpen
      ensures appliedMaterials == old(selectedMaterials)
      ensures appliedMin == old(priceMin) && appliedMax == old(priceMax)
      ensures Applied() == old(Applied())
      ensures sortOption == old(sortOption)
    {
      appliedMaterials := selectedMaterials;
      appliedMin, appliedMax := priceMin, priceMax;
      isFilterOpen := false;
    }

    /** The sort select. */
    method ChooseSortOption(option: string)
      requires Valid()
      modifies this
      ensures Valid() && sortOption == option
      ensures Applied() == old(Applied()) && isFilterOpen == old(isFilterOpen)
    {
      sortOption := option;
    }

    /** The Filters button toggles the panel; the close button closes it. */
    method ToggleFilterPanel()
      requires Valid()
      modifies this
      ensures Valid() && isFilterOpen == !old(isFilterOpen)
      ensures Applied() == old(Applied()) && sortOption == old(sortOption)
    {
      isFilterOpen := !isFilterOpen;
    }

    method CloseFilterPanel()
      requires Valid()
      modifies this
      ensures Valid() && !isFilterOpen
      ensures Applied() == old(Applied()) && sortOption == old(sortOption)
    {
      isFilterOpen := false;
    }

    /**
     * What the page renders: the active list filtered by the applied criteria
     * and arranged by the sort option, and the "N Products" count. The listing
     * holds exactly the active products that match, as often as they occur
     * there, and the count is its length.
     */
    method Listing(backend: seq<Product>, mock: seq<Product>) returns (shown: seq<Product>, count: nat)
      ensures count == |shown| == |FilterProducts(ActiveList(backend, mock), Applied())|
      ensures forall i :: 0 <= i < |shown| ==> Matches(shown[i], Applied())
      ensures forall p :: p in shown <==> p in ActiveList(backend, mock) && Matches(p, Applied())
      ensures multiset(shown) == multiset(FilterProducts(ActiveList(backend, mock), Applied()))
      ensures OrderOf(sortOption) == Featured ==> shown == FilterProducts(ActiveList(backend, mock), Applied())
      ensures SortedBy(shown, KeyOf(OrderOf(sortOption)))
      ensures SameKeyOrder(shown, FilterProducts(ActiveList(backend, mock), Applied()), KeyOf(OrderOf(sortOption)))
    {
      var allProducts := ActiveList(backend, mock);
      var filteredProducts := FilterProducts(allProducts, Applied());
      shown := ArrangeProducts(filteredProducts, sortOption);
      count := |filteredProducts|;
      FilterExact(allProducts, Applied());
      forall p | p in shown
        ensures p in filteredProducts
      {
        assert multiset(shown)[p] > 0;
      }
      forall p | p in filteredProducts
        ensures p in shown
      {
        assert multiset(filteredProducts)[p] > 0;
      }
    }

    /**
     * Running the page's filter-then-sort pipeline over the grid it rendered,
     * with the same criteria and sort option, renders the same grid again.
     */
    method Relisting(backend: seq<Product>, mock: seq<Product>) returns (shown: seq<Product>, again: seq<Product>)
      ensures multiset(shown) == multiset(FilterProducts(ActiveList(backend, mock), Applied()))
      ensures SortedBy(again, KeyOf(OrderOf(sortOption)))
      ensures SameKeyOrder(again, FilterProducts(shown, Applied()), KeyOf(OrderOf(sortOption)))
      ensures again == shown
    {
      var count;
      shown, count := Listing(backend, mock);
      again := ArrangeProducts(FilterProducts(shown, Applied()), sortOption);
      PipelineIdempotent(Applied(), OrderOf(sortOption), shown, again);
    }
  }
}
