/**
 * The static product catalog of the shop and the two category views the
 * shop tab renders: one section for juices, one for clothing.
 */
module Catalog {
  import opened Sequences

  datatype Category = Juice | Clothing

  /** A catalog entry; prices are whole roubles. */
  datatype Product = Product(id: int, name: string, price: int, category: Category, image: string)

  /** The catalog, in definition order. */
  const Products: seq<Product> := [
    Product(1, "BLOOD ORANGE", 350, Juice, "\U{1FA78}"),
    Product(2, "DARK CHERRY", 380, Juice, "\U{1F352}"),
    Product(3, "ARCHIVE HOODIE", 2500, Clothing, "\U{1FA78}"),
    Product(4, "GLITCH TEE", 1500, Clothing, "\U{26A1}"),
    Product(5, "ROTTEN APPLE", 320, Juice, "\U{1F34E}"),
    Product(6, "VOID JACKET", 4500, Clothing, "\U{1F311}")
  ]

  /** The test `p => p.category === c` handed to `filter`. */
  function InCategory(c: Category): Product -> bool
  {
    (p: Product) => p.category == c
  }

  /** The products one shop section shows: the catalog filtered by category. */
  function CategoryView(c: Category): (r: seq<Product>)
    ensures forall p :: p in r <==> p in Products && p.category == c
  {
    Filter(Products, InCategory(c))
  }

  /** Every catalog id is unique and every price is non-negative. */
  lemma CatalogWellFormed()
    ensures forall i, j :: 0 <= i < j < |Products| ==> Products[i].id != Products[j].id
    ensures forall i :: 0 <= i < |Products| ==> Products[i].price >= 0
  {
  }

  /** Each section lists its products in catalog definition order. */
  lemma ViewsKeepCatalogOrder()
    ensures IsSubsequence(CategoryView(Juice), Products)
    ensures IsSubsequence(CategoryView(Clothing), Products)
  {
    FilterIsSubsequence(Products, InCategory(Juice));
    FilterIsSubsequence(Products, InCategory(Clothing));
  }

  /** Together the two sections show the whole catalog and nothing else. */
  lemma ViewsPartitionCatalog()
    ensures multiset(CategoryView(Juice)) + multiset(CategoryView(Clothing)) == multiset(Products)
  {
    SplitByCategory(Products);
  }

  /** Splitting any list of products by the two categories loses and duplicates nothing. */
  lemma SplitByCategory(ps: seq<Product>)
    ensures multiset(Filter(ps, InCategory(Juice))) + multiset(Filter(ps, InCategory(Clothing))) == multiset(ps)
  {
    forall i | 0 <= i < |ps|
      ensures InCategory(Juice)(ps[i]) != InCategory(Clothing)(ps[i])
    {
    }
    FilterPartition(ps, InCategory(Juice), InCategory(Clothing));
  }

  /** Every catalog product is shown exactly once across the two sections. */
  lemma EachProductShownOnce(i: int)
    requires 0 <= i < |Products|
    ensures multiset(CategoryView(Juice))[Products[i]] + multiset(CategoryView(Clothing))[Products[i]] == 1
  {
    CatalogWellFormed();
    SplitShowsOnce(Products, i);
  }

  /** Splitting a list of distinct products by category puts each one in exactly one part. */
  lemma SplitShowsOnce(ps: seq<Product>, i: int)
    requires 0 <= i < |ps|
    requires forall j, k :: 0 <= j < k < |ps| ==> ps[j].id != ps[k].id
    ensures multiset(Filter(ps, InCategory(Juice)))[ps[i]] + multiset(Filter(ps, InCategory(Clothing)))[ps[i]] == 1
  {
    SplitByCategory(ps);
    DistinctCount(ps, i);
    var m := multiset(Filter(ps, InCategory(Juice))) + multiset(Filter(ps, InCategory(Clothing)));
    assert m[ps[i]] == multiset(ps)[ps[i]];
  }

  /** In a sequence with pairwise distinct ids every element occurs once. */
  lemma {:induction false} DistinctCount(s: seq<Product>, i: int)
    requires 0 <= i < |s|
    requires forall j, k :: 0 <= j < k < |s| ==> s[j].id != s[k].id
    ensures multiset(s)[s[i]] == 1
  {
    if i == 0 {
      assert s == [s[0]] + s[1..];
      assert s[0] !in s[1..];
    } else {
      DistinctCount(s[1..], i - 1);
      assert s == [s[0]] + s[1..];
    }
  }

  /** The juice section shows products 1, 2 and 5, in that order. */
  lemma JuiceViewContents()
    ensures CategoryView(Juice) == [Products[0], Products[1], Products[4]]
  {
    JuicesOfSix(Products);
  }

  /** The clothing section shows products 3, 4 and 6, in that order. */
  lemma ClothingViewContents()
    ensures CategoryView(Clothing) == [Products[2], Products[3], Products[5]]
  {
    ClothingOfSix(Products);
  }

  /** The juice section of six products laid out by category as the catalog is. */
  lemma JuicesOfSix(s: seq<Product>)
    requires |s| == 6
    requires s[0].category == s[1].category == s[4].category == Juice
    requires s[2].category == s[3].category == s[5].category == Clothing
    ensures Filter(s, InCategory(Juice)) == [s[0], s[1], s[4]]
  {
    FilterOfSix(s, InCategory(Juice));
  }

  /** The clothing section of six products laid out by category as the catalog is. */
  lemma ClothingOfSix(s: seq<Product>)
    requires |s| == 6
    requires s[0].category == s[1].category == s[4].category == Juice
    requires s[2].category == s[3].category == s[5].category == Clothing
    ensures Filter(s, InCategory(Clothing)) == [s[2], s[3], s[5]]
  {
    FilterOfSix(s, InCategory(Clothing));
  }

  /**
   * Filtering six products, unfolded one element at a time; `Keep` is the
   * one-element contribution of each.
   */
  lemma FilterOfSix(s: seq<Product>, f: Product -> bool)
    requires |s| == 6
    ensures Filter(s, f) == Keep(s[0], f) + (Keep(s[1], f) + (Keep(s[2], f) + (Keep(s[3], f) + (Keep(s[4], f) + Keep(s[5], f)))))
  {
    forall k | 0 <= k < 6
      ensures Filter(s[k..], f) == Keep(s[k], f) + Filter(s[k + 1..], f)
    {
      assert s[k..][1..] == s[k + 1..];
    }
    assert Filter(s[5..], f) == Keep(s[5], f) by { assert Filter(s[6..], f) == []; }
    assert Filter(s[3..], f) == Keep(s[3], f) + (Keep(s[4], f) + Keep(s[5], f));
    assert Filter(s[1..], f) == Keep(s[1], f) + (Keep(s[2], f) + (Keep(s[3], f) + (Keep(s[4], f) + Keep(s[5], f))));
    assert s[0..] == s;
  }

  /** The part of `filter`'s result that one element contributes. */
  function Keep(p: Product, f: Product -> bool): seq<Product>
  {
    if f(p) then [p] else []
  }
}
