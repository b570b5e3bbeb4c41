/** The Shop page: the filter state, the `/products` query it sends, the
    URL it reads the filters back from, "Clear All Filters", and the
    category SEO header. */
module Shop {
  import opened Wrappers
  import opened Catalog
  import opened Text

  const AllCategories: string := "All"
  /** The price slider's maximum, which also means "no price filter". */
  const NoPriceLimit: int := 100000
  const DefaultSort: string := "newest"
  const SiteName: string := "inkzo"

  /** The query keys the page reads or writes; any other key is `OtherKey`. */
  datatype Key = CategoryKey | SearchKey | MaxPriceKey | SortKey | OtherKey(name: string)

  /** A key as spelled in the URL. */
  function KeyName(k: Key): (r: string)
    ensures k.OtherKey? ==> r == k.name
  {
    match k
    case CategoryKey => "category"
    case SearchKey => "search"
    case MaxPriceKey => "maxPrice"
    case SortKey => "sort"
    case OtherKey(name) => name
  }

  /** One `key=value` pair of a URL query, before percent-encoding. */
  datatype Param = Param(key: Key, value: string)

  /** The filter state. `debouncedPrice` trails `priceRange` by the 500 ms
      debounce; the timer itself is not modelled (see `Settle`). */
  datatype Filters = Filters(searchTerm: string, selectedCategory: string, priceRange: int,
                             debouncedPrice: int, sortBy: string)

  /** `URLSearchParams.get`: the value of the first pair with that key. */
  function Get(params: seq<Param>, key: Key): (r: Option<string>)
    ensures r.Some? ==> Param(key, r.value) in params
  {
    if |params| == 0 then None
    else if params[0].key == key then Some(params[0].value)
    else Get(params[1..], key)
  }

  /** `Get` finds nothing exactly when no pair has the key. */
  lemma {:induction false} GetNone(params: seq<Param>, key: Key)
    ensures Get(params, key).None? <==> forall i :: 0 <= i < |params| ==> params[i].key != key
  {
    if |params| > 0 {
      GetNone(params[1..], key);
      assert forall i :: 1 <= i < |params| ==> params[i] == params[1..][i - 1];
    }
  }

  /** `Get` returns the FIRST pair with the key: every earlier pair has
      another key. */
  lemma {:induction false} GetFindsFirst(params: seq<Param>, key: Key, i: nat)
    requires i < |params| && params[i].key == key
    ensures Get(params, key).Some?
    ensures (forall k :: 0 <= k < i ==> params[k].key != key) ==> Get(params, key) == Some(params[i].value)
  {
    if i > 0 && params[0].key != key {
      GetFindsFirst(params[1..], key, i - 1);
    }
  }

  /** A lookup in a concatenation finds the first part's pair, if any. */
  lemma {:induction false} GetAppend(a: seq<Param>, b: seq<Param>, key: Key)
    ensures Get(a + b, key) == if Get(a, key).Some? then Get(a, key) else Get(b, key)
  {
    if |a| > 0 {
      assert (a + b)[0] == a[0];
      assert (a + b)[1..] == a[1..] + b;
      GetAppend(a[1..], b, key);
    } else {
      assert a + b == b;
    }
  }

  /** A lookup in four concatenated parts finds the earliest part's pair. */
  lemma GetFourParts(a: seq<Param>, b: seq<Param>, c: seq<Param>, d: seq<Param>, key: Key)
    ensures Get(a + b + c + d, key) ==
              if Get(a, key).Some? then Get(a, key)
              else if Get(b, key).Some? then Get(b, key)
              else if Get(c, key).Some? then Get(c, key)
              else Get(d, key)
  {
    GetAppend(a + b + c, d, key);
    GetAppend(a + b, c, key);
    GetAppend(a, b, key);
  }

  /** The keys follow the fixed order of `fetchProducts` (category, search,
      maxPrice, sort), so none repeats. */
  predicate RanksIncrease(r: seq<Param>)
  {
    forall i, j :: 0 <= i < j < |r| ==> KeyRank(r[i].key) < KeyRank(r[j].key)
  }

  /** The position of a key in the fixed order of `fetchProducts`. */
  function KeyRank(key: Key): int
  {
    match key
    case CategoryKey => 0
    case SearchKey => 1
    case MaxPriceKey => 2
    case SortKey => 3
    case OtherKey(_) => 4
  }

  /** Appending pairs of a later rank keeps the order. */
  lemma RanksAppend(a: seq<Param>, b: seq<Param>)
    requires RanksIncrease(a) && RanksIncrease(b)
    requires forall i, j :: 0 <= i < |a| && 0 <= j < |b| ==> KeyRank(a[i].key) < KeyRank(b[j].key)
    ensures RanksIncrease(a + b)
  {
  }

  /** Every key is one the page itself writes. */
  predicate KnownKeys(r: seq<Param>)
  {
    forall i :: 0 <= i < |r| ==> !r[i].key.OtherKey?
  }

  lemma KnownKeysAppend(a: seq<Param>, b: seq<Param>)
    requires KnownKeys(a) && KnownKeys(b)
    ensures KnownKeys(a + b)
  {
  }

  /** The pair `key=value` when `present`, else nothing. */
  function ParamIf(present: bool, key: Key, value: string): (r: seq<Param>)
    ensures present ==> r == [Param(key, value)]
    ensures !present ==> r == []
    ensures Get(r, key) == if present then Some(value) else None
    ensures forall other :: other != key ==> Get(r, other).None?
  {
    if present then [Param(key, value)] else []
  }

  /** Four optional pairs in the fixed key order. */
  function Assemble(c: Option<string>, s: Option<string>, m: Option<string>, o: Option<string>)
    : seq<Param>
  {
    ParamIf(c.Some?, CategoryKey, if c.Some? then c.value else "") +
    ParamIf(s.Some?, SearchKey, if s.Some? then s.value else "") +
    ParamIf(m.Some?, MaxPriceKey, if m.Some? then m.value else "") +
    ParamIf(o.Some?, SortKey, if o.Some? then o.value else "")
  }

  /** Each key of an assembled query reads back its own value. */
  lemma AssembleLookups(c: Option<string>, s: Option<string>, m: Option<string>, o: Option<string>)
    ensures Get(Assemble(c, s, m, o), CategoryKey) == c
    ensures Get(Assemble(c, s, m, o), SearchKey) == s
    ensures Get(Assemble(c, s, m, o), MaxPriceKey) == m
    ensures Get(Assemble(c, s, m, o), SortKey) == o
  {
    var pc := ParamIf(c.Some?, CategoryKey, if c.Some? then c.value else "");
    var ps := ParamIf(s.Some?, SearchKey, if s.Some? then s.value else "");
    var pm := ParamIf(m.Some?, MaxPriceKey, if m.Some? then m.value else "");
    var po := ParamIf(o.Some?, SortKey, if o.Some? then o.value else "");
    GetFourParts(pc, ps, pm, po, CategoryKey);
    GetFourParts(pc, ps, pm, po, SearchKey);
    GetFourParts(pc, ps, pm, po, MaxPriceKey);
    GetFourParts(pc, ps, pm, po, SortKey);
  }

  /** An assembled query holds at most the four known keys, in order. */
  lemma AssembleOrdered(c: Option<string>, s: Option<string>, m: Option<string>, o: Option<string>)
    ensures |Assemble(c, s, m, o)| <= 4
    ensures RanksIncrease(Assemble(c, s, m, o))
    ensures KnownKeys(Assemble(c, s, m, o))
  {
    var pc := ParamIf(c.Some?, CategoryKey, if c.Some? then c.value else "");
    var ps := ParamIf(s.Some?, SearchKey, if s.Some? then s.value else "");
    var pm := ParamIf(m.Some?, MaxPriceKey, if m.Some? then m.value else "");
    var po := ParamIf(o.Some?, SortKey, if o.Some? then o.value else "");
    OrderedStep(pc, ps, 1);
    OrderedStep(pc + ps, pm, 2);
    OrderedStep(pc + ps + pm, po, 3);
  }

  /** One step of the assembly: a query whose keys rank below `k`, followed
      by at most one known pair of rank `k`. */
  lemma OrderedStep(a: seq<Param>, b: seq<Param>, k: int)
    requires RanksIncrease(a) && KnownKeys(a)
    requires forall i :: 0 <= i < |a| ==> KeyRank(a[i].key) < k
    requires |b| <= 1 && KnownKeys(b) && forall j :: 0 <= j < |b| ==> KeyRank(b[j].key) == k
    ensures RanksIncrease(a + b) && KnownKeys(a + b)
    ensures forall i :: 0 <= i < |a + b| ==> KeyRank((a + b)[i].key) <= k
  {
    RanksAppend(a, b);
    KnownKeysAppend(a, b);
  }

  /** The query of `fetchProducts`: category (unless "All"), search (unless
      empty), maxPrice (only below the slider maximum) and sort (unless
      empty), in that order. */
  function ProductQuery(f: Filters): (r: seq<Param>)
    ensures |r| <= 4
    ensures RanksIncrease(r)
    ensures KnownKeys(r)
    ensures Get(r, CategoryKey) == if f.selectedCategory != AllCategories then Some(f.selectedCategory) else None
    ensures Get(r, SearchKey) == if f.searchTerm != "" then Some(f.searchTerm) else None
    ensures Get(r, MaxPriceKey) == if f.debouncedPrice < NoPriceLimit then Some(IntToDecimal(f.debouncedPrice)) else None
    ensures Get(r, SortKey) == if f.sortBy != "" then Some(f.sortBy) else None
  {
    var c := if f.selectedCategory != AllCategories then Some(f.selectedCategory) else None;
    var s := if f.searchTerm != "" then Some(f.searchTerm) else None;
    var m := if f.debouncedPrice < NoPriceLimit then Some(IntToDecimal(f.debouncedPrice)) else None;
    var o := if f.sortBy != "" then Some(f.sortBy) else None;
    AssembleLookups(c, s, m, o);
    AssembleOrdered(c, s, m, o);
    Assemble(c, s, m, o)
  }

  /** The price filter travels as the decimal string of the debounced price
      and reads back as the same number. */
  lemma MaxPriceReadsBack(f: Filters)
    requires f.debouncedPrice < NoPriceLimit
    ensures Get(ProductQuery(f), MaxPriceKey).Some?
    ensures ParseInt(Get(ProductQuery(f), MaxPriceKey).value) == f.debouncedPrice
  {
    IntDecimalRoundTrip(f.debouncedPrice);
  }

  /** The debounce timer firing: the query catches up with the slider. */
  function Settle(f: Filters): (r: Filters)
    ensures r.debouncedPrice == r.priceRange == f.priceRange
    ensures r.(debouncedPrice := f.debouncedPrice) == f
  {
    f.(debouncedPrice := f.priceRange)
  }

  /** "Clear All Filters" / "Reset Filters": search, category, slider and
      sort return to their defaults. The debounced price catches up only
      when its timer fires. */
  function ClearAllFilters(f: Filters): (r: Filters)
    ensures r.searchTerm == "" && r.selectedCategory == AllCategories
    ensures r.priceRange == NoPriceLimit && r.sortBy == DefaultSort
    ensures r.debouncedPrice == f.debouncedPrice
  {
    Filters("", AllCategories, NoPriceLimit, f.debouncedPrice, DefaultSort)
  }

  /** Once cleared and settled, the page asks for every product, newest
      first, and nothing else; clearing twice changes nothing more. */
  lemma ClearedQueryIsUnfiltered(f: Filters)
    ensures ProductQuery(Settle(ClearAllFilters(f))) == [Param(SortKey, DefaultSort)]
    ensures ClearAllFilters(ClearAllFilters(f)) == ClearAllFilters(f)
  {
  }

  /** The search and category the page takes from its URL: a missing (or
      empty) `search` is "", a missing (or empty) `category` is "All". */
  function SyncFromUrl(params: seq<Param>): (r: (string, string))
    ensures r.0 == PresentOr(Get(params, SearchKey), "")
    ensures r.1 != ""
    ensures Get(params, CategoryKey).Some? && Get(params, CategoryKey).value != "" ==>
              r.1 == Get(params, CategoryKey).value
    ensures Get(params, CategoryKey).None? ==> r.1 == AllCategories
    ensures Get(params, CategoryKey) == Some("") ==> r.1 == AllCategories
  {
    (PresentOr(Get(params, SearchKey), ""), PresentOr(Get(params, CategoryKey), AllCategories))
  }

  /** A URL carrying these search and category params reads back the search
      term and the category, except that an empty category reads back as
      "All". */
  lemma UrlRoundTrip(f: Filters)
    ensures SyncFromUrl(ProductQuery(f)).0 == f.searchTerm
    ensures f.selectedCategory != "" ==> SyncFromUrl(ProductQuery(f)).1 == f.selectedCategory
    ensures f.selectedCategory == "" ==> SyncFromUrl(ProductQuery(f)).1 == AllCategories
  {
  }

  /** The page's state. */
  datatype ShopState = ShopState(filters: Filters, products: seq<Product>, categories: seq<Category>,
                                 loading: bool, seo: Option<Category>)

  /** The URL changed: take search and category from it; the slider and
      sort stay. The product refetch this triggers (and its `loading`
      flag) is not recorded here: its result is `ProductsLoaded`, and its
      query is `ProductQuery` of the new filters. */
  function OnLocation(st: ShopState, params: seq<Param>): (r: ShopState)
    ensures (r.filters.searchTerm, r.filters.selectedCategory) == SyncFromUrl(params)
    ensures r.filters.priceRange == st.filters.priceRange && r.filters.sortBy == st.filters.sortBy
    ensures r.filters.debouncedPrice == st.filters.debouncedPrice
    ensures r.products == st.products && r.categories == st.categories
  {
    var (search, category) := SyncFromUrl(params);
    WithSeo(st.(filters := st.filters.(searchTerm := search, selectedCategory := category)))
  }

  /** `fetchProducts` settled: a reply replaces the list, a failure keeps
      the previous one; either way loading ends. */
  function ProductsLoaded(st: ShopState, reply: Reply<seq<Product>>): (r: ShopState)
    ensures !r.loading
    ensures reply.Ok? ==> r.products == reply.data
    ensures reply.Failed? ==> r == st.(loading := false)
    ensures r.filters == st.filters && r.categories == st.categories && r.seo == st.seo
  {
    match reply
    case Ok(products) => st.(products := products, loading := false)
    case Failed(_) => st.(loading := false)
  }

  /** `fetchCategories` settled; the SEO header is recomputed for the new
      list. A failure changes nothing. */
  function CategoriesLoaded(st: ShopState, reply: Reply<seq<Category>>): (r: ShopState)
    ensures reply.Failed? ==> r == st
    ensures reply.Ok? ==> r.categories == reply.data && r.filters == st.filters && r.products == st.products
  {
    match reply
    case Ok(categories) => WithSeo(st.(categories := categories))
    case Failed(_) => st
  }

  /** A category button: selects that category's slug, and the SEO effect
      runs as written. As with `OnLocation`, the triggered product refetch
      is not recorded here; `loading` is left as it was. */
  function ClickCategory(st: ShopState, c: Category): (r: ShopState)
    ensures r.filters == st.filters.(selectedCategory := c.slug)
    ensures r.categories == st.categories && r.products == st.products
  {
    WithSeo(st.(filters := st.filters.(selectedCategory := c.slug)))
  }

  /** The category-SEO effect as written, run whenever the selection or the
      category list changes: "All" clears the header, the first category
      whose NAME equals the selection replaces it, and without such a
      category the old header stays. */
  function WithSeo(st: ShopState): (r: ShopState)
    ensures r == st.(seo := r.seo)
    ensures st.filters.selectedCategory == AllCategories ==> r.seo.None?
    ensures st.filters.selectedCategory != AllCategories &&
            (exists i :: 0 <= i < |st.categories| && st.categories[i].name == st.filters.selectedCategory) ==>
              r.seo.Some? && r.seo.value in st.categories && r.seo.value.name == st.filters.selectedCategory
    ensures st.filters.selectedCategory != AllCategories &&
            (forall i :: 0 <= i < |st.categories| ==> st.categories[i].name != st.filters.selectedCategory) ==>
              r.seo == st.seo
  {
    st.(seo := CategorySeo(st.filters.selectedCategory, st.categories, st.seo))
  }

  // ------------------------------------------------------------ category SEO

  /** Position `i` holds the first element of `categories` satisfying `p`. */
  ghost predicate IsFirst(categories: seq<Category>, p: Category -> bool, i: int)
  {
    0 <= i < |categories| && p(categories[i]) && forall j :: 0 <= j < i ==> !p(categories[j])
  }

  /** The first category satisfying `p`, like `Array.prototype.find`. */
  function Find(categories: seq<Category>, p: Category -> bool): (r: Option<Category>)
    ensures r.None? <==> forall i :: 0 <= i < |categories| ==> !p(categories[i])
    ensures r.Some? ==> r.value in categories && p(r.value)
    ensures r.Some? ==> exists i :: IsFirst(categories, p, i) && categories[i] == r.value
  {
    if |categories| == 0 then None
    else if p(categories[0]) then
      assert IsFirst(categories, p, 0);
      Some(categories[0])
    else
      var r := Find(categories[1..], p);
      assert r.Some? ==> exists i :: IsFirst(categories, p, i) && categories[i] == r.value by {
        if r.Some? {
          var i :| IsFirst(categories[1..], p, i) && categories[1..][i] == r.value;
          assert IsFirst(categories, p, i + 1);
        }
      }
      r
  }

  /** The test the effect as written applies: the category's name. */
  function NameIs(selected: string): Category -> bool
  {
    (c: Category) => c.name == selected
  }

  /** The test the buttons need: the category's slug. */
  function SlugIs(selected: string): Category -> bool
  {
    (c: Category) => c.slug == selected
  }

  /** The effect as written: "All" clears the header; otherwise the first
      category whose NAME equals the selection replaces it, and the old
      header stays when none matches. */
  function CategorySeo(selected: string, categories: seq<Category>, prev: Option<Category>)
    : (r: Option<Category>)
    ensures selected == AllCategories ==> r.None?
    ensures selected != AllCategories && r.Some? ==>
              r == prev || (r.value in categories && r.value.name == selected)
    ensures (selected != AllCategories && forall i :: 0 <= i < |categories| ==> categories[i].name != selected) ==>
              r == prev
    ensures (selected != AllCategories && exists i :: 0 <= i < |categories| && categories[i].name == selected) ==>
              r.Some? && exists i :: IsFirst(categories, NameIs(selected), i) && r.value == categories[i]
  {
    if selected == AllCategories then None
    else
      match Find(categories, NameIs(selected))
      case Some(c) => Some(c)
      case None => prev
  }

  /** The selection is always a slug (the buttons and the footer links set
      one), so the name lookup misses whenever name and slug differ: after
      clicking "Printers" the header stays empty. */
  lemma CategorySeoMissesSlug()
    ensures var c := Category(1, "Printers", "printers", Some("Best Printers"), None);
            var st := ShopState(Filters("", AllCategories, NoPriceLimit, NoPriceLimit, DefaultSort),
                                [], [c], false, None);
            ClickCategory(st, c).seo == None && CategorySeo(c.slug, [c], None) == None
  {
    var c := Category(1, "Printers", "printers", Some("Best Printers"), None);
    assert c.name != "printers";
  }

  /** In general, as written, a click leaves the header as it was whenever
      no category is named like the clicked category's slug. */
  lemma ClickCategoryKeepsStaleSeo(st: ShopState, c: Category)
    requires c.slug != AllCategories
    requires forall i :: 0 <= i < |st.categories| ==> st.categories[i].name != c.slug
    ensures ClickCategory(st, c).seo == st.seo
  {
  }

  /** The lookup the buttons need: by slug. */
  function CategorySeoBySlug(selected: string, categories: seq<Category>, prev: Option<Category>)
    : (r: Option<Category>)
    ensures selected == AllCategories ==> r.None?
    ensures selected != AllCategories && r.Some? ==>
              r == prev || (r.value in categories && r.value.slug == selected)
    ensures (selected != AllCategories && forall i :: 0 <= i < |categories| ==> categories[i].slug != selected) ==>
              r == prev
    ensures (selected != AllCategories && exists i :: 0 <= i < |categories| && categories[i].slug == selected) ==>
              r.Some? && exists i :: IsFirst(categories, SlugIs(selected), i) && r.value == categories[i]
  {
    if selected == AllCategories then None
    else
      match Find(categories, SlugIs(selected))
      case Some(c) => Some(c)
      case None => prev
  }

  /** The corrected effect: as `WithSeo`, but by slug. */
  function WithSeoBySlug(st: ShopState): (r: ShopState)
    ensures r == st.(seo := r.seo)
    ensures st.filters.selectedCategory == AllCategories ==> r.seo.None?
    ensures st.filters.selectedCategory != AllCategories &&
            (exists i :: 0 <= i < |st.categories| && st.categories[i].slug == st.filters.selectedCategory) ==>
              r.seo.Some? && r.seo.value in st.categories && r.seo.value.slug == st.filters.selectedCategory
  {
    st.(seo := CategorySeoBySlug(st.filters.selectedCategory, st.categories, st.seo))
  }

  /** A category button with the corrected effect. */
  function ClickCategoryBySlug(st: ShopState, c: Category): (r: ShopState)
    ensures r.filters == st.filters.(selectedCategory := c.slug)
    ensures r.categories == st.categories && r.products == st.products
  {
    WithSeoBySlug(st.(filters := st.filters.(selectedCategory := c.slug)))
  }

  /** With the slug lookup, clicking any listed category shows that
      category's header (the first with that slug, when slugs repeat). */
  lemma {:induction false} ClickCategoryShowsItsSeo(st: ShopState, i: nat)
    requires i < |st.categories|
    requires st.categories[i].slug != AllCategories
    ensures ClickCategoryBySlug(st, st.categories[i]).seo.Some?
    ensures ClickCategoryBySlug(st, st.categories[i]).seo.value in st.categories
    ensures ClickCategoryBySlug(st, st.categories[i]).seo.value.slug == st.categories[i].slug
  {
  }

  /** The browser title for the SEO header: the category's own title, or
      "<name> | inkzo". `None` leaves the title to the page-level SEO
      component, which is not part of this model. */
  function PageTitle(seo: Option<Category>): (r: Option<string>)
    ensures r.Some? <==> seo.Some?
    ensures seo.Some? && (seo.value.metaTitle.None? || seo.value.metaTitle.value == "") ==>
              r.value == seo.value.name + " | " + SiteName
    ensures seo.Some? && seo.value.metaTitle.Some? && seo.value.metaTitle.value != "" ==>
              r.value == seo.value.metaTitle.value
  {
    match seo
    case None => None
    case Some(c) => Some(PresentOr(c.metaTitle, c.name + " | " + SiteName))
  }

  /** The hero heading: the selection itself, or "All Collections". */
  function HeroTitle(selected: string): (r: string)
    ensures selected == AllCategories ==> r == "All Collections"
    ensures selected != AllCategories ==> r == selected
  {
    if selected != AllCategories then selected else "All Collections"
  }

  /** The product grid: six skeletons while loading, the cards, or "No
      Products Found" with a reset button. */
  datatype Grid = Skeletons(count: nat) | Cards(products: seq<Product>) | NoProducts

  function ProductGrid(st: ShopState): (r: Grid)
    ensures st.loading <==> r.Skeletons?
    ensures r.Skeletons? ==> r.count == 6
    ensures r.Cards? ==> r.products == st.products && |r.products| > 0
    ensures r.NoProducts? <==> !st.loading && |st.products| == 0
  {
    if st.loading then Skeletons(6)
    else if |st.products| > 0 then Cards(st.products)
    else NoProducts
  }
}
