/**
 * The shop page's `finalProducts`: a copy of the filtered list, sorted in place
 * by one of the sort options. `Array.prototype.sort` is stable (section 23.1.3.30
 * of ECMA-262, 2023 edition), so products with equal sort keys keep their
 * filtered order. Each option is a sort ascending by a real key: price for
 * 'low-high', negated price for 'high-low', negated id for 'newest'.
 */
module ShopSort {
  import opened Products

  datatype SortOrder = Featured | LowHigh | HighLow | Newest

  /** The select's value; any value other than the three sorting ones leaves the order alone. */
  function OrderOf(sortOption: string): (o: SortOrder)
    ensures o == LowHigh <==> sortOption == "low-high"
    ensures o == HighLow <==> sortOption == "high-low"
    ensures o == Newest <==> sortOption == "newest"
  {
    if sortOption == "low-high" then LowHigh
    else if sortOption == "high-low" then HighLow
    else if sortOption == "newest" then Newest
    else Featured
  }

  /** The price the comparator reads; a missing price is taken as 0. */
  function SortPrice(p: Product): real
  {
    p.price.GetOr(0.0)
  }

  /** The comparator `(a, b) => key(a) - key(b)` of each option, as a key sorted ascending. */
  function Key(o: SortOrder, p: Product): real
  {
    match o
    case Featured => 0.0
    case LowHigh => SortPrice(p)
    case HighLow => -SortPrice(p)
    case Newest => -(p.id as real)
  }

  /** The key of each option, as the function the sort is given. */
  function KeyOf(o: SortOrder): Product -> real
  {
    p => Key(o, p)
  }

  predicate SortedBy(s: seq<Product>, key: Product -> real)
  {
    forall i, j :: 0 <= i < j < |s| ==> key(s[i]) <= key(s[j])
  }

  /** The products of `s` whose key is `k`, in their order in `s`. */
  function WithKey(s: seq<Product>, key: Product -> real, k: real): seq<Product>
  {
    if s == [] then []
    else (if key(s[0]) == k then [s[0]] else []) + WithKey(s[1..], key, k)
  }

  /**
   * Stability: for every key value, the products with that key appear in `r`
   * in the same order (and number) as in `s`.
   */
  ghost predicate SameKeyOrder(r: seq<Product>, s: seq<Product>, key: Product -> real)
  {
    forall k :: WithKey(r, key, k) == WithKey(s, key, k)
  }

  lemma {:induction false} WithKeyConcat(a: seq<Product>, b: seq<Product>, key: Product -> real, k: real)
    ensures WithKey(a + b, key, k) == WithKey(a, key, k) + WithKey(b, key, k)
  {
    if a == [] {
      assert a + b == b;
    } else {
      var head := if key(a[0]) == k then [a[0]] else [];
      assert (a + b)[0] == a[0];
      assert (a + b)[1..] == a[1..] + b;
      calc {
        WithKey(a + b, key, k);
        head + WithKey(a[1..] + b, key, k);
        { WithKeyConcat(a[1..], b, key, k); }
        head + (WithKey(a[1..], key, k) + WithKey(b, key, k));
        (head + WithKey(a[1..], key, k)) + WithKey(b, key, k);
        WithKey(a, key, k) + WithKey(b, key, k);
      }
    }
  }

  /** A product is among those with key `k` exactly when it is in the list and has that key. */
  lemma {:induction false} WithKeyMember(s: seq<Product>, key: Product -> real, k: real, p: Product)
    ensures p in WithKey(s, key, k) <==> p in s && key(p) == k
  {
    if s != [] {
      WithKeyMember(s[1..], key, k, p);
      assert s == [s[0]] + s[1..];
    }
  }

  /** Two neighbours with different keys never share a key list, so their order in it is moot. */
  lemma PairSwapAt(x: Product, y: Product, key: Product -> real, k: real)
    requires key(x) != key(y)
    ensures WithKey([x, y], key, k) == WithKey([y, x], key, k)
  {
    assert [x, y][1..] == [y] && [y, x][1..] == [x];
    assert [y][1..] == [] && [x][1..] == [];
  }

  /** `s` with the neighbours at `i - 1` and `i` exchanged. */
  function Swapped(s: seq<Product>, i: int): seq<Product>
    requires 0 < i < |s|
  {
    s[..i - 1] + [s[i], s[i - 1]] + s[i + 1..]
  }

  /** Swapping two neighbours with different keys keeps the order within every key. */
  lemma SwapKeepsKeyOrder(s: seq<Product>, i: int, key: Product -> real)
    requires 0 < i < |s| && key(s[i - 1]) != key(s[i])
    ensures SameKeyOrder(Swapped(s, i), s, key)
  {
    var pre, x, y, post := s[..i - 1], s[i - 1], s[i], s[i + 1..];
    var t := Swapped(s, i);
    assert s == pre + ([x, y] + post);
    assert t == pre + ([y, x] + post);
    forall k
      ensures WithKey(t, key, k) == WithKey(s, key, k)
    {
      WithKeyConcat(pre, [y, x] + post, key, k);
      WithKeyConcat([y, x], post, key, k);
      WithKeyConcat(pre, [x, y] + post, key, k);
      WithKeyConcat([x, y], post, key, k);
      PairSwapAt(x, y, key, k);
    }
  }

  /** In a list sorted by key, the first product has the least key. */
  lemma FirstKeyLeast(r: seq<Product>, key: Product -> real, p: Product)
    requires SortedBy(r, key) && p in r
    ensures key(r[0]) <= key(p)
  {
    var j :| 0 <= j < |r| && r[j] == p;
    if j > 0 {
      assert key(r[0]) <= key(r[j]);
    }
  }

  /** Two sorted lists that agree within every key start with the same key. */
  lemma SameFirstKey(r1: seq<Product>, r2: seq<Product>, key: Product -> real)
    requires SortedBy(r1, key) && SortedBy(r2, key) && SameKeyOrder(r1, r2, key)
    requires r1 != [] && r2 != []
    ensures key(r1[0]) == key(r2[0])
  {
    var k1, k2 := key(r1[0]), key(r2[0]);
    WithKeyMember(r1, key, k1, r1[0]);
    WithKeyMember(r2, key, k1, r1[0]);
    WithKeyMember(r2, key, k2, r2[0]);
    WithKeyMember(r1, key, k2, r2[0]);
    assert WithKey(r1, key, k1) == WithKey(r2, key, k1);
    assert WithKey(r1, key, k2) == WithKey(r2, key, k2);
    FirstKeyLeast(r2, key, r1[0]);
    FirstKeyLeast(r1, key, r2[0]);
  }

  /** Dropping equal first products keeps the agreement within every key. */
  lemma TailsSameKeyOrder(r1: seq<Product>, r2: seq<Product>, key: Product -> real)
    requires r1 != [] && r2 != [] && key(r1[0]) == key(r2[0])
    requires SameKeyOrder(r1, r2, key)
    ensures r1[0] == r2[0] && SameKeyOrder(r1[1..], r2[1..], key)
  {
    var k0 := key(r1[0]);
    assert WithKey(r1, key, k0) == [r1[0]] + WithKey(r1[1..], key, k0);
    assert WithKey(r2, key, k0) == [r2[0]] + WithKey(r2[1..], key, k0);
    assert WithKey(r1, key, k0) == WithKey(r2, key, k0);
    assert r1[0] == WithKey(r1, key, k0)[0] == WithKey(r2, key, k0)[0] == r2[0];
    forall k
      ensures WithKey(r1[1..], key, k) == WithKey(r2[1..], key, k)
    {
      var w1, w2 := WithKey(r1, key, k), WithKey(r2, key, k);
      assert w1 == w2;
      if k == k0 {
        assert WithKey(r1[1..], key, k) == w1[1..];
        assert WithKey(r2[1..], key, k) == w2[1..];
      } else {
        assert w1 == WithKey(r1[1..], key, k);
        assert w2 == WithKey(r2[1..], key, k);
      }
    }
  }

  /**
   * A stable sort has exactly one possible result: two lists sorted by the same
   * key that agree on the order within every key are equal. So the model's
   * insertion sort gives the same list as any stable sort the browser uses.
   */
  lemma {:induction false} StableSortUnique(r1: seq<Product>, r2: seq<Product>, key: Product -> real)
    requires SortedBy(r1, key) && SortedBy(r2, key) && SameKeyOrder(r1, r2, key)
    ensures r1 == r2
    decreases |r1|
  {
    if r1 == [] && r2 != [] {
      WithKeyMember(r2, key, key(r2[0]), r2[0]);
      assert false;
    } else if r1 != [] && r2 == [] {
      WithKeyMember(r1, key, key(r1[0]), r1[0]);
      assert false;
    } else if r1 != [] {
      SameFirstKey(r1, r2, key);
      TailsSameKeyOrder(r1, r2, key);
      StableSortUnique(r1[1..], r2[1..], key);
      assert r1 == [r1[0]] + r1[1..] && r2 == [r2[0]] + r2[1..];
    }
  }

  /**
   * Mid-insertion state of `s[..i + 1]`: the product being inserted sits at `j`
   * and has a strictly smaller key than everything to its right, and the other
   * products of the prefix are in key order.
   */
  predicate Inserting(s: seq<Product>, j: int, i: int, key: Product -> real)
  {
    0 <= j <= i < |s| &&
    (forall p, q :: 0 <= p < q <= i && p != j && q != j ==> key(s[p]) <= key(s[q])) &&
    (forall q :: j < q <= i ==> key(s[j]) < key(s[q]))
  }

  lemma StartInserting(s: seq<Product>, i: int, key: Product -> real)
    requires 0 <= i < |s| && SortedBy(s[..i], key)
    ensures Inserting(s, i, i, key)
  {
    forall p, q | 0 <= p < q <= i && p != i && q != i
      ensures key(s[p]) <= key(s[q])
    {
      assert s[..i][p] == s[p] && s[..i][q] == s[q];
    }
  }

  /**
   * Swapping the inserted product with a larger left neighbour moves it one
   * place left, keeps the multiset of products and the order within every key.
   */
  lemma StepInserting(s: seq<Product>, j: int, i: int, key: Product -> real, orig: seq<Product>)
    requires Inserting(s, j, i, key) && j > 0 && key(s[j - 1]) > key(s[j])
    requires multiset(s) == multiset(orig) && SameKeyOrder(s, orig, key)
    ensures Inserting(Swapped(s, j), j - 1, i, key)
    ensures multiset(Swapped(s, j)) == multiset(orig)
    ensures SameKeyOrder(Swapped(s, j), orig, key)
  {
    var t := Swapped(s, j);
    assert |t| == |s|;
    assert forall m :: 0 <= m < |s| && m != j - 1 && m != j ==> t[m] == s[m];
    assert t[j - 1] == s[j] && t[j] == s[j - 1];
    assert s == s[..j - 1] + [s[j - 1], s[j]] + s[j + 1..];
    SwapKeepsKeyOrder(s, j, key);
  }

  /** A swap at or left of `i` leaves everything after `i` in place. */
  lemma SwapKeepsSuffix(s: seq<Product>, j: int, i: int)
    requires 0 < j <= i < |s|
    ensures Swapped(s, j)[i + 1..] == s[i + 1..]
  {
  }

  /** Once the left neighbour is no larger, the prefix `s[..i + 1]` is in key order. */
  lemma DoneInserting(s: seq<Product>, j: int, i: int, key: Product -> real)
    requires Inserting(s, j, i, key) && (j == 0 || key(s[j - 1]) <= key(s[j]))
    ensures SortedBy(s[..i + 1], key)
  {
    var r := s[..i + 1];
    forall p, q | 0 <= p < q < |r|
      ensures key(r[p]) <= key(r[q])
    {
      if q == j && p < j - 1 {
        assert key(s[p]) <= key(s[j - 1]);
      }
    }
  }

  /** Exchange the neighbours at `j - 1` and `j`. */
  method SwapWithLeft(a: array<Product>, j: int)
    requires 0 < j < a.Length
    modifies a
    ensures a[..] == Swapped(old(a[..]), j)
  {
    a[j - 1], a[j] := a[j], a[j - 1];
  }

  /**
   * One insertion step: with `a[..i]` sorted, move `a[i]` left past the
   * neighbours whose key is strictly larger, so that `a[..i + 1]` is sorted.
   */
  method InsertAt(a: array<Product>, i: int, key: Product -> real)
    requires 0 <= i < a.Length && SortedBy(a[..i], key)
    modifies a
    ensures SortedBy(a[..i + 1], key)
    ensures multiset(a[..]) == multiset(old(a[..]))
    ensures SameKeyOrder(a[..], old(a[..]), key)
    ensures a[i + 1..] == old(a[i + 1..])
  {
    ghost var orig := a[..];
    StartInserting(orig, i, key);
    var j := i;
    while j > 0 && key(a[j - 1]) > key(a[j])
      invariant Inserting(a[..], j, i, key)
      invariant multiset(a[..]) == multiset(orig)
      invariant SameKeyOrder(a[..], orig, key)
      invariant a[i + 1..] == orig[i + 1..]
    {
      StepInserting(a[..], j, i, key, orig);
      SwapKeepsSuffix(a[..], j, i);
      SwapWithLeft(a, j);
      j := j - 1;
    }
    DoneInserting(a[..], j, i, key);
  }

  /** Stable insertion sort of `a` by the key of `o`. */
  method SortInPlace(a: array<Product>, key: Product -> real)
    modifies a
    ensures SortedBy(a[..], key)
    ensures multiset(a[..]) == multiset(old(a[..]))
    ensures SameKeyOrder(a[..], old(a[..]), key)
  {
    var i := 0;
    while i < a.Length
      invariant 0 <= i <= a.Length
      invariant SortedBy(a[..i], key)
      invariant multiset(a[..]) == multiset(old(a[..]))
      invariant SameKeyOrder(a[..], old(a[..]), key)
    {
      InsertAt(a, i, key);
      i := i + 1;
    }
    assert a[..a.Length] == a[..];
  }

  /**
   * `finalProducts`: copy the filtered list and sort the copy by the selected
   * option. The result is a stable sort of the input: a permutation of it,
   * ordered by the option, with ties in input order; 'featured' (or any other
   * value) returns the input unchanged.
   */
  method ArrangeProducts(filtered: seq<Product>, sortOption: string) returns (r: seq<Product>)
    ensures |r| == |filtered| && multiset(r) == multiset(filtered)
    ensures OrderOf(sortOption) == Featured ==> r == filtered
    ensures SortedBy(r, KeyOf(OrderOf(sortOption)))
    ensures SameKeyOrder(r, filtered, KeyOf(OrderOf(sortOption)))
    ensures SortedBy(filtered, KeyOf(OrderOf(sortOption))) ==> r == filtered
    ensures sortOption == "low-high" ==> forall i, j :: 0 <= i < j < |r| ==> SortPrice(r[i]) <= SortPrice(r[j])
    ensures sortOption == "high-low" ==> forall i, j :: 0 <= i < j < |r| ==> SortPrice(r[i]) >= SortPrice(r[j])
    ensures sortOption == "newest" ==> forall i, j :: 0 <= i < j < |r| ==> r[i].id >= r[j].id
  {
    var finalProducts := new Product[|filtered|](i requires 0 <= i < |filtered| => filtered[i]);
    assert finalProducts[..] == filtered;
    if sortOption == "low-high" {
      SortInPlace(finalProducts, KeyOf(LowHigh));
    }
    if sortOption == "high-low" {
      SortInPlace(finalProducts, KeyOf(HighLow));
    }
    if sortOption == "newest" {
      SortInPlace(finalProducts, KeyOf(Newest));
    }
    r := finalProducts[..];
    assert |r| == |multiset(r)| == |multiset(filtered)| == |filtered|;
    if sortOption == "high-low" {
      forall i, j | 0 <= i < j < |r| ensures SortPrice(r[i]) >= SortPrice(r[j]) {
        assert KeyOf(HighLow)(r[i]) <= KeyOf(HighLow)(r[j]);
      }
    }
    if sortOption == "newest" {
      forall i, j | 0 <= i < j < |r| ensures r[i].id >= r[j].id {
        assert KeyOf(Newest)(r[i]) <= KeyOf(Newest)(r[j]);
      }
    }
    if SortedBy(filtered, KeyOf(OrderOf(sortOption))) {
      StableSortUnique(r, filtered, KeyOf(OrderOf(sortOption)));
    }
  }
}
