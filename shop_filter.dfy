/**
 * The shop page's `filteredProducts`: a `.filter` over the active product list
 * that keeps a product when it matches the applied category, lies in the
 * applied price range (both bounds inclusive) and matches the applied materials.
 * Missing fields are normalised before the tests.
 */
module ShopFilter {
  import opened Products

  /** The category sentinel that matches every product. */
  const AllCategories: string := "All"

  /** The applied filter state: category, inclusive price bounds, materials. */
  datatype Criteria = Criteria(category: string, minPrice: real, maxPrice: real, materials: seq<string>)

  /** A missing or empty category normalises to 'All'. */
  function ProductCategory(p: Product): string
  {
    TextOr(p.category, AllCategories)
  }

  /** A missing or empty material normalises to ''. */
  function ProductMaterial(p: Product): string
  {
    TextOr(p.material, "")
  }

  /** A missing price normalises to 0 (`Number(p.price ?? 0) || 0`). */
  function ProductPrice(p: Product): real
  {
    p.price.GetOr(0.0)
  }

  predicate MatchCategory(p: Product, c: Criteria)
  {
    c.category == AllCategories || ProductCategory(p) == c.category
  }

  predicate MatchPrice(p: Product, c: Criteria)
  {
    c.minPrice <= ProductPrice(p) && ProductPrice(p) <= c.maxPrice
  }

  predicate MatchMaterial(p: Product, c: Criteria)
  {
    |c.materials| == 0 || ProductMaterial(p) in c.materials
  }

  /** The filter predicate: all three tests pass. */
  predicate Matches(p: Product, c: Criteria)
  {
    MatchCategory(p, c) && MatchPrice(p, c) && MatchMaterial(p, c)
  }

  /** The products of `ps` that match `c`, in their input order. */
  function FilterProducts(ps: seq<Product>, c: Criteria): seq<Product>
  {
    if ps == [] then []
    else (if Matches(ps[0], c) then [ps[0]] else []) + FilterProducts(ps[1..], c)
  }

  /**
   * Soundness and completeness: every kept product matches, and a product is
   * kept exactly when it is in the input and matches.
   */
  lemma {:induction false} FilterExact(ps: seq<Product>, c: Criteria)
    ensures |FilterProducts(ps, c)| <= |ps|
    ensures forall i :: 0 <= i < |FilterProducts(ps, c)| ==> Matches(FilterProducts(ps, c)[i], c)
    ensures forall p :: p in FilterProducts(ps, c) <==> p in ps && Matches(p, c)
  {
    if ps != [] {
      FilterExact(ps[1..], c);
      assert ps == [ps[0]] + ps[1..];
    }
  }

  /** Filtering commutes with concatenation: relative input order is kept. */
  lemma {:induction false} FilterConcat(a: seq<Product>, b: seq<Product>, c: Criteria)
    ensures FilterProducts(a + b, c) == FilterProducts(a, c) + FilterProducts(b, c)
  {
    if a == [] {
      assert a + b == b;
    } else {
      var head := if Matches(a[0], c) then [a[0]] else [];
      assert (a + b)[0] == a[0];
      assert (a + b)[1..] == a[1..] + b;
      calc {
        FilterProducts(a + b, c);
        head + FilterProducts(a[1..] + b, c);
        { FilterConcat(a[1..], b, c); }
        head + (FilterProducts(a[1..], c) + FilterProducts(b, c));
        (head + FilterProducts(a[1..], c)) + FilterProducts(b, c);
        FilterProducts(a, c) + FilterProducts(b, c);
      }
    }
  }

  /**
   * Completeness with multiplicities: a matching product occurs in the result as
   * often as in the input, a non-matching one not at all.
   */
  lemma {:induction false} FilterCount(ps: seq<Product>, c: Criteria, p: Product)
    ensures multiset(FilterProducts(ps, c))[p] == if Matches(p, c) then multiset(ps)[p] else 0
  {
    if ps != [] {
      var head := if Matches(ps[0], c) then [ps[0]] else [];
      var rest := FilterProducts(ps[1..], c);
      assert FilterProducts(ps, c) == head + rest;
      assert multiset(FilterProducts(ps, c)) == multiset(head) + multiset(rest);
      assert ps == [ps[0]] + ps[1..];
      assert multiset(ps) == multiset([ps[0]]) + multiset(ps[1..]);
      FilterCount(ps[1..], c, p);
    }
  }

  /** A list whose every product matches passes through unchanged. */
  lemma {:induction false} FilterKeepsMatching(ps: seq<Product>, c: Criteria)
    requires forall i :: 0 <= i < |ps| ==> Matches(ps[i], c)
    ensures FilterProducts(ps, c) == ps
  {
    if ps != [] {
      FilterKeepsMatching(ps[1..], c);
    }
  }

  /** Filtering twice with the same criteria is filtering once. */
  lemma FilterIdempotent(ps: seq<Product>, c: Criteria)
    ensures FilterProducts(FilterProducts(ps, c), c) == FilterProducts(ps, c)
  {
    FilterExact(ps, c);
    FilterKeepsMatching(FilterProducts(ps, c), c);
  }

  /** An inverted price range (min above max) keeps nothing. */
  lemma {:induction false} InvertedRangeIsEmpty(ps: seq<Product>, c: Criteria)
    requires c.minPrice > c.maxPrice
    ensures FilterProducts(ps, c) == []
  {
    if ps != [] {
      InvertedRangeIsEmpty(ps[1..], c);
    }
  }

  /** A product without a price passes the price test exactly when 0 is in range. */
  lemma MissingPriceMatchesZero(p: Product, c: Criteria)
    requires p.price.None?
    ensures MatchPrice(p, c) <==> c.minPrice <= 0.0 <= c.maxPrice
  {
  }

  /** An uncategorised product passes the category test only under 'All'. */
  lemma UncategorisedMatchesOnlyAll(p: Product, c: Criteria)
    requires !TruthyText(p.category)
    ensures MatchCategory(p, c) <==> c.category == AllCategories
  {
  }

  /** A product without a material is excluded by any non-empty material list not holding ''. */
  lemma MissingMaterialExcluded(p: Product, c: Criteria)
    requires !TruthyText(p.material) && |c.materials| > 0 && "" !in c.materials
    ensures !Matches(p, c)
  {
  }
}
