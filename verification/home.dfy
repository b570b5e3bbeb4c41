/** The Home page: the "Trending Now" tabs, the deal countdown, the sale
    badge of a product card, and the capped category and blog sections. */
module Home {
  import opened Wrappers
  import opened Catalog
  import opened Seqs

  const NewArrivals: string := "New Arrivals"
  const BestSellers: string := "Best Sellers"
  const OnSaleTab: string := "On Sale"
  /** Each tab shows at most this many products. */
  const TabCap: nat := 8

  // ------------------------------------------------------- sort by id, desc

  /** Ordered by id, largest first. */
  predicate SortedDesc(s: seq<Product>)
  {
    forall i, j :: 0 <= i < j < |s| ==> s[i].id >= s[j].id
  }

  /** Insert `x` before the first element whose id is not larger, so that
      earlier elements stay ahead of later ones with the same id. */
  function InsertById(x: Product, s: seq<Product>): (r: seq<Product>)
    requires SortedDesc(s)
    ensures SortedDesc(r)
    ensures multiset(r) == multiset(s) + multiset{x}
    ensures |r| == |s| + 1
  {
    if |s| == 0 || x.id >= s[0].id then [x] + s
    else
      var rest := InsertById(x, s[1..]);
      assert multiset(s) == multiset{s[0]} + multiset(s[1..]) by {
        assert s == [s[0]] + s[1..];
      }
      HeadDominates(s, x, rest);
      [s[0]] + rest
  }

  /** The head of a sorted list is at least every element of its tail with
      a smaller `x` inserted. */
  lemma HeadDominates(s: seq<Product>, x: Product, rest: seq<Product>)
    requires SortedDesc(s) && |s| > 0 && x.id < s[0].id
    requires multiset(rest) == multiset(s[1..]) + multiset{x}
    ensures forall k :: 0 <= k < |rest| ==> s[0].id >= rest[k].id
  {
    forall k | 0 <= k < |rest| ensures s[0].id >= rest[k].id {
      assert rest[k] in multiset(rest);
      if rest[k] != x {
        assert rest[k] in multiset(s[1..]);
        assert rest[k] in s[1..];
      }
    }
  }

  /** `[...products].sort((a, b) => b.id - a.id)`: a sorted copy; the input
      sequence itself is a value and is never reordered. */
  function SortByIdDesc(s: seq<Product>): (r: seq<Product>)
    ensures SortedDesc(r)
    ensures multiset(r) == multiset(s)
    ensures |r| == |s|
  {
    if |s| == 0 then []
    else
      assert s == [s[0]] + s[1..];
      InsertById(s[0], SortByIdDesc(s[1..]))
  }

  predicate IsBestSeller(p: Product)
  {
    p.isBestSelling
  }

  /** `getTabProducts()`. */
  function TabProducts(tab: string, products: seq<Product>): (r: seq<Product>)
    ensures |r| <= TabCap
    ensures forall i :: 0 <= i < |r| ==> r[i] in products
    ensures tab == NewArrivals ==> SortedDesc(r) && multiset(r) <= multiset(products)
    ensures tab == NewArrivals || (tab != BestSellers && tab != OnSaleTab) ==>
              |r| == if |products| < TabCap then |products| else TabCap
    ensures tab == BestSellers ==> IsSubseq(r, products) && forall i :: 0 <= i < |r| ==> r[i].isBestSelling
    ensures tab == OnSaleTab ==> IsSubseq(r, products) && forall i :: 0 <= i < |r| ==> OnSale(r[i])
    ensures tab == BestSellers ==> FirstMatches(r, products, IsBestSeller, TabCap)
    ensures tab == OnSaleTab ==> FirstMatches(r, products, OnSale, TabCap)
    ensures tab != NewArrivals && tab != BestSellers && tab != OnSaleTab ==> r == products[..|r|]
  {
    if tab == NewArrivals then
      var sorted := SortByIdDesc(products);
      var r := Take(sorted, TabCap);
      assert sorted == r + sorted[|r|..];
      assert multiset(sorted) == multiset(r) + multiset(sorted[|r|..]);
      assert forall i :: 0 <= i < |r| ==> r[i] in products by {
        forall i | 0 <= i < |r| ensures r[i] in products {
          assert r[i] in multiset(sorted);
        }
      }
      r
    else if tab == BestSellers then
      TakeFilterIsSubseq(products, IsBestSeller, TabCap);
      TakeFilterFirstMatches(products, IsBestSeller, TabCap);
      Take(Filter(products, IsBestSeller), TabCap)
    else if tab == OnSaleTab then
      TakeFilterIsSubseq(products, OnSale, TabCap);
      TakeFilterFirstMatches(products, OnSale, TabCap);
      Take(Filter(products, OnSale), TabCap)
    else
      Take(products, TabCap)
  }

  /** "New Arrivals" shows the newest products: anything left out has an id
      no larger than every product shown. */
  lemma NewArrivalsAreNewest(products: seq<Product>, p: Product)
    requires p in products
    requires p !in TabProducts(NewArrivals, products)
    ensures forall i :: 0 <= i < |TabProducts(NewArrivals, products)| ==>
              TabProducts(NewArrivals, products)[i].id >= p.id
  {
    var sorted := SortByIdDesc(products);
    var r := TabProducts(NewArrivals, products);
    assert r == sorted[..|r|];
    assert p in multiset(sorted);
    var k :| 0 <= k < |sorted| && sorted[k] == p;
  }

  /** The filter tabs show every matching product when fewer than eight
      match, and exactly eight otherwise. */
  lemma FilterTabsComplete(products: seq<Product>)
    ensures |TabProducts(BestSellers, products)| ==
              if Count(products, IsBestSeller) < TabCap then Count(products, IsBestSeller) else TabCap
    ensures |TabProducts(OnSaleTab, products)| ==
              if Count(products, OnSale) < TabCap then Count(products, OnSale) else TabCap
    ensures Count(products, IsBestSeller) <= TabCap ==>
              forall i :: 0 <= i < |products| && products[i].isBestSelling ==>
                products[i] in TabProducts(BestSellers, products)
    ensures Count(products, OnSale) <= TabCap ==>
              forall i :: 0 <= i < |products| && OnSale(products[i]) ==>
                products[i] in TabProducts(OnSaleTab, products)
  {
    FilterLength(products, IsBestSeller);
    FilterLength(products, OnSale);
  }

  // ------------------------------------------------------------- countdown

  /** The deal countdown's four fields. */
  datatype Countdown = Countdown(days: int, hours: int, minutes: int, seconds: int)

  /** `calculateTimeLeft` for a millisecond difference to the end of day:
      each field is the floor of the difference in that unit, the smaller
      ones reduced modulo the next unit. A non-positive difference keeps
      the previous countdown. */
  function CalculateTimeLeft(differenceMs: int, prev: Countdown): (r: Countdown)
    ensures differenceMs <= 0 ==> r == prev
    ensures differenceMs > 0 ==>
              r.days >= 0 && 0 <= r.hours < 24 && 0 <= r.minutes < 60 && 0 <= r.seconds < 60
    ensures differenceMs > 0 ==>
              r.days * 86400 + r.hours * 3600 + r.minutes * 60 + r.seconds == differenceMs / 1000
  {
    if differenceMs > 0 then
      CountdownArithmetic(differenceMs);
      Countdown(differenceMs / 86400000,
                (differenceMs / 3600000) % 24,
                (differenceMs / 60000) % 60,
                (differenceMs / 1000) % 60)
    else prev
  }

  /** The unit conversions behind the countdown, all in whole seconds:
      milliseconds to minutes, hours and days go through seconds, and the
      seconds split into days, hours, minutes and seconds. */
  lemma CountdownArithmetic(d: int)
    requires d > 0
    ensures var s := d / 1000;
              d / 60000 == s / 60 && d / 3600000 == s / 3600 && d / 86400000 == s / 86400
    ensures var s := d / 1000;
              s == (s / 86400) * 86400 + ((s / 3600) % 24) * 3600 + ((s / 60) % 60) * 60 + s % 60
  {
    var s := d / 1000;
    var m := s / 60;
    var h := m / 60;
    var days := h / 24;
    assert d == 1000 * s + d % 1000;
    assert s == 60 * m + s % 60;
    assert m == 60 * h + m % 60;
    assert h == 24 * days + h % 24;
    assert s == 3600 * h + 60 * (m % 60) + s % 60;
    assert s / 3600 == h;
    assert s == 86400 * days + 3600 * (h % 24) + 60 * (m % 60) + s % 60;
    assert s / 86400 == days;
    assert d == 60000 * m + 1000 * (s % 60) + d % 1000;
    assert d / 60000 == m;
    assert d == 3600000 * h + 60000 * (m % 60) + 1000 * (s % 60) + d % 1000;
    assert d / 3600000 == h;
    assert d == 86400000 * days + 3600000 * (h % 24) + 60000 * (m % 60) + 1000 * (s % 60) + d % 1000;
    assert d / 86400000 == days;
  }

  // ------------------------------------------------------------ sale badge

  /** `Math.round(x)`: the nearest integer, halves rounded up. */
  function Round(x: real): (r: int)
    ensures x - 0.5 < r as real <= x + 0.5
  {
    (x + 0.5).Floor
  }

  /** The badge on a product card: none, a percentage, or (for a zero list
      price above a negative price) JavaScript's `Infinity`. */
  datatype Badge = NoBadge | Percent(value: int) | InfinitePercent

  /** `mrp > price && Math.round(((mrp - price) / mrp) * 100)`. */
  function SaleBadge(mrp: real, price: real): (r: Badge)
    ensures r.NoBadge? <==> !(mrp > price)
    ensures 0.0 <= price < mrp ==> r.Percent? && 0 <= r.value <= 100
    ensures r.Percent? ==>
              mrp != 0.0 && (r.value as real) - 0.5 <= (mrp - price) / mrp * 100.0 < (r.value as real) + 0.5
  {
    if !(mrp > price) then NoBadge
    else if mrp == 0.0 then InfinitePercent
    else
      var pct := (mrp - price) / mrp * 100.0;
      assert 0.0 <= price ==> 0.0 < pct <= 100.0 by {
        if 0.0 <= price {
          assert 0.0 < (mrp - price) / mrp <= 1.0;
        }
      }
      Percent(Round(pct))
  }

  /** The badge is shown exactly for products on sale. */
  lemma BadgeIffOnSale(p: Product)
    ensures SaleBadge(p.mrp, p.price).NoBadge? <==> !OnSale(p)
  {
  }

  // ------------------------------------------------------------- sections

  /** A blog post as returned by `GET /blogs`. */
  datatype Blog = Blog(id: int, slug: string, title: string)

  /** The category grid shows the first three categories. */
  function FeaturedCategories(categories: seq<Category>): (r: seq<Category>)
    ensures r <= categories
    ensures |r| == if |categories| < 3 then |categories| else 3
  {
    Take(categories, 3)
  }

  /** The blog section shows the first three posts, and is hidden when there
      are none. */
  function LatestBlogs(blogs: seq<Blog>): (r: Option<seq<Blog>>)
    ensures r.None? <==> |blogs| == 0
    ensures r.Some? ==> r.value <= blogs && |r.value| == if |blogs| < 3 then |blogs| else 3
  {
    if |blogs| > 0 then Some(Take(blogs, 3)) else None
  }
}
