/** The Footer: branding and categories fetched together, the "Shop" link
    column, the newsletter form and the copyright line. */
module Footer {
  import opened Wrappers
  import opened Catalog
  import opened Seqs
  import opened Branding
  import opened Text
  import Shop

  const FooterCategoryCap: nat := 5
  const FallbackName: string := "inkzo"

  datatype FooterState = FooterState(branding: Option<Website>, categories: seq<Category>, email: string)

  /** `Promise.all` of the branding and the category request: both replies
      are applied together, and if either fails neither is (the state
      stays as it was, initially `null` and `[]`). */
  function FooterLoad(st: FooterState, brandingReply: Reply<Website>, categoriesReply: Reply<seq<Category>>)
    : (r: FooterState)
    ensures brandingReply.Failed? || categoriesReply.Failed? ==> r == st
    ensures brandingReply.Ok? && categoriesReply.Ok? ==>
              r.branding == Some(WithLogoFallback(brandingReply.data)) &&
              r.categories <= categoriesReply.data &&
              |r.categories| == if |categoriesReply.data| < FooterCategoryCap then |categoriesReply.data| else FooterCategoryCap
    ensures r.email == st.email
  {
    match (brandingReply, categoriesReply)
    case (Ok(w), Ok(cats)) =>
      st.(branding := Some(WithLogoFallback(w)), categories := Take(cats, FooterCategoryCap))
    case _ => st
  }

  /** A failed category request also loses the branding, unlike the
      Navbar, which loads the same branding on its own. */
  lemma FooterLosesBrandingWithCategories(w: Website, message: string)
    ensures FooterLoad(FooterState(None, [], ""), Ok(w), Failed(message)).branding.None?
    ensures LoadBranding(None, Ok(w)).Some?
  {
  }

  /** One link of a footer column. */
  datatype FooterLink = FooterLink(text: string, to: string)

  const ShopFallback: seq<FooterLink> :=
    [FooterLink("New Arrivals", "/products"), FooterLink("Best Sellers", "/products"), FooterLink("Sale", "/products")]

  /** The "Shop" column: one link per category to its Shop filter, or the
      three generic links when there are no categories. */
  function ShopLinks(categories: seq<Category>): (r: seq<FooterLink>)
    ensures |categories| == 0 ==> r == ShopFallback
    ensures |categories| > 0 ==> |r| == |categories|
    ensures |categories| > 0 ==> forall i :: 0 <= i < |categories| ==>
              r[i] == FooterLink(categories[i].name, "/products?category=" + categories[i].slug)
  {
    if |categories| == 0 then ShopFallback
    else seq(|categories|, i requires 0 <= i < |categories| =>
               FooterLink(categories[i].name, "/products?category=" + categories[i].slug))
  }

  /** A category link opens the Shop page with that category's slug as the
      selection, which the Shop's SEO header needs to look up by slug. */
  lemma CategoryLinkSelectsSlug(c: Category)
    requires c.slug != ""
    ensures ShopLinks([c])[0].to == "/products?category=" + c.slug
    ensures Shop.SyncFromUrl([Shop.Param(Shop.CategoryKey, c.slug)]).1 == c.slug
  {
  }

  /** The newsletter handler `handleNewsletterSubmit` on its own: an empty
      email raises an error toast and keeps the field; anything else is
      "subscribed" (no request is sent) and the field is cleared. */
  function NewsletterSubmit(st: FooterState): (r: (FooterState, Toast))
    ensures st.email == "" <==> r.1.ToastError?
    ensures st.email == "" ==> r.0 == st
    ensures st.email != "" ==> r.0 == st.(email := "") && r.1 == ToastSuccess("Successfully Subscribed!")
  {
    if st.email == "" then (st, ToastError("Please enter your email address."))
    else (st.(email := ""), ToastSuccess("Successfully Subscribed!"))
  }

  // ------------------------------------------------- the browser's email gate

  /** ASCII letters and digits. */
  predicate IsAlnum(c: char)
  {
    'a' <= c <= 'z' || 'A' <= c <= 'Z' || '0' <= c <= '9'
  }

  /** A character allowed before the `@` of a valid e-mail address. */
  predicate IsLocalChar(c: char)
  {
    IsAlnum(c) || c in ".!#$%&'*+/=?^_`{|}~-"
  }

  /** One domain label: 1 to 63 letters, digits and hyphens, starting and
      ending with a letter or digit. */
  predicate IsLabel(s: string)
  {
    && 1 <= |s| <= 63
    && IsAlnum(s[0]) && IsAlnum(s[|s| - 1])
    && forall k :: 0 <= k < |s| ==> IsAlnum(s[k]) || s[k] == '-'
  }

  /** Labels separated by single dots. A label holds no dot, so splitting
      at the first one is the only way to read the domain. */
  predicate IsDomain(s: string)
    decreases |s|
  {
    if '.' in s then
      var i := IndexOf(s, '.');
      IsLabel(s[..i]) && IsDomain(s[i + 1..])
    else IsLabel(s)
  }

  /** A "valid e-mail address" as the HTML Living Standard defines it for
      the Email state of `<input type=email>`: one or more local characters,
      an `@`, and a domain. The local part holds no `@`, so the first one
      separates the two. */
  predicate ValidEmail(e: string)
  {
    && '@' in e
    && var i := IndexOf(e, '@');
    && i >= 1
    && (forall k :: 0 <= k < i ==> IsLocalChar(e[k]))
    && IsDomain(e[i + 1..])
  }

  /** The definition read the other way: an address is valid exactly when
      it is a non-empty run of local characters, an `@` and a domain. */
  lemma ValidEmailParts(local: string, domain: string)
    requires |local| >= 1 && forall k :: 0 <= k < |local| ==> IsLocalChar(local[k])
    ensures ValidEmail(local + "@" + domain) <==> IsDomain(domain)
  {
    var e := local + "@" + domain;
    assert forall k :: 0 <= k < |local| ==> e[k] == local[k] && e[k] != '@';
    assert e[|local|] == '@';
    assert IndexOf(e, '@') == |local|;
    assert e[|local| + 1..] == domain;
  }

  /** What submitting the form does: the browser refuses an address that
      is missing (`required`) or not a valid e-mail address
      (`type="email"`), showing its own message; only a valid one reaches
      the handler. */
  datatype SubmitOutcome = BlockedByBrowser | Handled(next: FooterState, toast: Toast)

  function SubmitNewsletterForm(st: FooterState): (r: SubmitOutcome)
    ensures r.BlockedByBrowser? <==> !ValidEmail(st.email)
    ensures r.Handled? ==> r.next == st.(email := "") && r.toast == ToastSuccess("Successfully Subscribed!")
  {
    if !ValidEmail(st.email) then BlockedByBrowser
    else
      var (next, toast) := NewsletterSubmit(st);
      Handled(next, toast)
  }

  /** On the page the handler's error toast is never raised: an empty field
      is stopped by the browser first, and so is an address without `@`. */
  lemma HandlerErrorUnreachable(st: FooterState)
    ensures SubmitNewsletterForm(st).Handled? ==> NewsletterSubmit(st).1.ToastSuccess?
    ensures st.email == "" || '@' !in st.email ==> SubmitNewsletterForm(st).BlockedByBrowser?
  {
  }

  /** Subscribing twice in a row: the second attempt sees the cleared field.
      The handler alone would refuse it with its error toast; on the page
      the browser refuses it first, with no toast. */
  lemma SecondSubmitRefused(st: FooterState)
    requires ValidEmail(st.email)
    ensures SubmitNewsletterForm(st).Handled?
    ensures SubmitNewsletterForm(SubmitNewsletterForm(st).next).BlockedByBrowser?
    ensures NewsletterSubmit(NewsletterSubmit(st).0).1.ToastError?
  {
  }

  /** The contact column: address, phone and email once branding is loaded. */
  function ContactLines(branding: Option<Website>): (r: Option<seq<string>>)
    ensures r.None? <==> branding.None?
    ensures r.Some? ==> r.value == [branding.value.contactAddress, branding.value.phone, branding.value.contactEmail]
  {
    match branding
    case None => None
    case Some(w) => Some([w.contactAddress, w.phone, w.contactEmail])
  }

  /** The name in the copyright line. */
  function CopyrightName(branding: Option<Website>): (r: string)
    ensures branding.None? ==> r == FallbackName
    ensures branding.Some? ==> r == branding.value.name
  {
    if branding.Some? then branding.value.name else FallbackName
  }
}
