/** The ProductDetails page: quantity stepper, add-to-cart and buy-now
    gating by stock, the related-products selection, the product image and
    the description tabs. */
module ProductDetails {
  import opened Wrappers
  import opened Catalog
  import opened Seqs
  import opened Text

  const RelatedCap: nat := 4
  const DetailsPlaceholder: string := "https://via.placeholder.com/800"

  // --------------------------------------------------------------- stepper

  /** The minus button: `Math.max(1, quantity - 1)`. */
  function Minus(q: int): (r: int)
    ensures r >= 1
    ensures q > 1 ==> r == q - 1
    ensures q <= 1 ==> r == 1
  {
    if q - 1 > 1 then q - 1 else 1
  }

  /** The plus button: `quantity + 1`, with no upper bound. */
  function Plus(q: int): (r: int)
    ensures r > q
  {
    q + 1
  }

  datatype StepperClick = MinusClick | PlusClick

  /** The quantity after a sequence of clicks. */
  function RunStepper(q: int, clicks: seq<StepperClick>): int
    decreases |clicks|
  {
    if |clicks| == 0 then q
    else RunStepper(if clicks[0].MinusClick? then Minus(q) else Plus(q), clicks[1..])
  }

  /** From the initial quantity 1, no sequence of clicks takes the stepper
      below 1. */
  lemma {:induction false} StepperNeverBelowOne(q: int, clicks: seq<StepperClick>)
    requires q >= 1
    ensures RunStepper(q, clicks) >= 1
    decreases |clicks|
  {
    if |clicks| > 0 {
      var next := if clicks[0].MinusClick? then Minus(q) else Plus(q);
      StepperNeverBelowOne(next, clicks[1..]);
    }
  }

  /** Plus then minus returns to the same quantity; minus at 1 stays at 1. */
  lemma StepperInverse(q: int)
    requires q >= 1
    ensures Minus(Plus(q)) == q
    ensures Minus(1) == 1
    ensures q > 1 ==> Plus(Minus(q)) == q
  {
  }

  // ------------------------------------------------------------ cart calls

  /** `handleAddToCart`: the selected quantity is passed unchanged. */
  function AddToCartCall(product: Product, quantity: int): (r: CartCall)
    ensures r.AddToCart? && r.product == product && r.quantity == quantity
  {
    AddToCart(product, quantity)
  }

  /** `disabled={product.stock <= 0}`. A missing stock field compares false
      with 0, so the button stays enabled. */
  predicate AddToCartDisabled(stock: Stock)
  {
    stock.Units? && stock.n <= 0
  }

  /** `product.stock > 0 && <Buy It Now>`. A missing stock field hides it. */
  predicate BuyNowOffered(stock: Stock)
  {
    stock.Units? && stock.n > 0
  }

  /** The two stock gates agree for every numeric stock; they disagree only
      when the field is missing (add-to-cart enabled, buy-now hidden). */
  lemma StockGatesAgree(stock: Stock)
    ensures stock.Units? ==> (AddToCartDisabled(stock) <==> !BuyNowOffered(stock))
    ensures stock.Absent? ==> !AddToCartDisabled(stock) && !BuyNowOffered(stock)
  {
  }

  /** "Buy It Now": add the selected quantity, then go to checkout. */
  function BuyNow(product: Product, quantity: int): (r: Option<(CartCall, string)>)
    ensures r.Some? <==> BuyNowOffered(product.stock)
    ensures r.Some? ==> r.value.0 == AddToCartCall(product, quantity) && r.value.1 == "/checkout"
  {
    if BuyNowOffered(product.stock) then Some((AddToCartCall(product, quantity), "/checkout")) else None
  }

  // ------------------------------------------------------ related products

  /** The related products of `current` from the whole catalogue: the
      first four others of the same category, or, when there are none, the
      first four other products. */
  function Related(current: Product, all: seq<Product>): (r: seq<Product>)
    ensures |r| <= RelatedCap
    ensures IsSubseq(r, all)
    ensures forall i :: 0 <= i < |r| ==> r[i] in all && r[i].id != current.id
    ensures (exists i :: 0 <= i < |all| && SameCategoryOther(current, all[i])) ==>
              |r| > 0 && forall i :: 0 <= i < |r| ==> r[i].categoryName == current.categoryName
    ensures |r| == 0 <==> forall i :: 0 <= i < |all| ==> all[i].id == current.id
    ensures (exists i :: 0 <= i < |all| && SameCategoryOther(current, all[i])) ==>
              FirstMatches(r, all, SameCategoryAs(current), RelatedCap)
    ensures (forall i :: 0 <= i < |all| ==> !SameCategoryOther(current, all[i])) ==>
              FirstMatches(r, all, OtherThan(current), RelatedCap)
  {
    var related := Take(Filter(all, SameCategoryAs(current)), RelatedCap);
    TakeFilterIsSubseq(all, SameCategoryAs(current), RelatedCap);
    TakeFilterIsSubseq(all, OtherThan(current), RelatedCap);
    TakeFilterFirstMatches(all, SameCategoryAs(current), RelatedCap);
    TakeFilterFirstMatches(all, OtherThan(current), RelatedCap);
    if |related| == 0 then
      var r := Take(Filter(all, OtherThan(current)), RelatedCap);
      assert forall i :: 0 <= i < |all| ==> !SameCategoryAs(current)(all[i]);
      r
    else
      related
  }

  /** Same category as `current`, and not `current` itself. */
  predicate SameCategoryOther(current: Product, p: Product)
  {
    p.categoryName == current.categoryName && p.id != current.id
  }

  /** The first filter of the related products, as a test. */
  function SameCategoryAs(current: Product): Product -> bool
  {
    (p: Product) => SameCategoryOther(current, p)
  }

  /** The fallback filter: every product but `current`. */
  function OtherThan(current: Product): Product -> bool
  {
    (p: Product) => p.id != current.id
  }

  /** The current product never appears among its related products. */
  lemma RelatedExcludesCurrent(current: Product, all: seq<Product>)
    ensures current !in Related(current, all)
  {
  }

  /** The page state that loading a product writes. */
  datatype DetailsState = DetailsState(product: Option<Product>, related: seq<Product>,
                                       loading: bool, quantity: int, activeTab: string)

  /** `fetchProductData`: fetch the product, then the catalogue for related
      products. A failed product fetch sets nothing; a failed catalogue
      fetch keeps the new product and the old related list. The selected
      quantity and tab are not reset when the product changes. */
  function Load(st: DetailsState, productReply: Reply<Product>, catalogueReply: Reply<seq<Product>>)
    : (r: DetailsState)
    ensures !r.loading
    ensures r.quantity == st.quantity && r.activeTab == st.activeTab
    ensures productReply.Failed? ==> r == st.(loading := false)
    ensures productReply.Ok? ==> r.product == Some(productReply.data)
    ensures productReply.Ok? && catalogueReply.Failed? ==> r.related == st.related
    ensures productReply.Ok? && catalogueReply.Ok? ==>
              r.related == Related(productReply.data, catalogueReply.data)
  {
    match productReply
    case Failed(_) => st.(loading := false)
    case Ok(p) =>
      match catalogueReply
      case Failed(_) => st.(product := Some(p), loading := false)
      case Ok(all) => st.(product := Some(p), related := Related(p, all), loading := false)
  }

  /** The main product image, with the 800-pixel placeholder. */
  function ProductImage(p: Product): (r: string)
    ensures Falsy(p.imageUrl) ==> r == DetailsPlaceholder
    ensures StartsWith(r, "http") || StartsWith(r, ProductImageDir)
  {
    ResolveImage(p.imageUrl, DetailsPlaceholder)
  }

  // ------------------------------------------------------------------ tabs

  const TabLabels: seq<string> := ["Description", "Additional Info", "Reviews"]

  /** `tab.toLowerCase().replace(' ', '_')`: lower-case the label and turn
      its first space into an underscore. */
  function TabKey(name: string): (r: string)
    ensures |r| == |name|
    ensures ' ' in name ==> r[IndexOf(name, ' ')] == '_'
    ensures forall k :: 0 <= k < |name| && k != IndexOf(name, ' ') ==> r[k] == LowerChar(name[k])
  {
    ReplaceFirst(ToLower(name), ' ', '_')
  }

  /** Replacing the first space at a known position `i`. */
  lemma FirstSpaceReplaced(s: string, i: nat)
    requires i < |s| && s[i] == ' '
    requires forall k :: 0 <= k < i ==> s[k] != ' '
    ensures ReplaceFirst(s, ' ', '_') == s[i := '_']
  {
    assert IndexOf(s, ' ') == i;
  }

  /** The three tab labels give the keys their panels test for. The labels
      are parameters, pinned by `requires`, so that the solver reasons about
      them instead of unfolding string literals. */
  lemma TabKeyDescription(name: string)
    requires name == TabLabels[0]
    ensures TabKey(name) == "description"
  {
    assert ' ' !in name;
    assert ToLower(name) == "description";
  }

  lemma TabKeyAdditionalInfo(name: string)
    requires name == TabLabels[1]
    ensures TabKey(name) == "additional_info"
  {
    var lower := ToLower(name);
    assert lower == "additional info";
    FirstSpaceReplaced(lower, 10);
    assert lower[10 := '_'] == "additional_info";
  }

  lemma TabKeyReviews(name: string)
    requires name == TabLabels[2]
    ensures TabKey(name) == "reviews"
  {
    assert ' ' !in name;
    assert ToLower(name) == "reviews";
  }

  /** Only the first space becomes an underscore: a label with two spaces
      keeps its second one. */
  lemma TabKeyReplacesFirstSpaceOnly(name: string)
    requires name == "A B C"
    ensures TabKey(name) == "a_b c"
  {
    var lower := ToLower(name);
    assert lower == "a b c";
    FirstSpaceReplaced(lower, 1);
    assert lower[1 := '_'] == "a_b c";
  }
}
