# inkzo storefront — a Dafny model of its page logic

The inkzo storefront is a React single-page shop. The pages embed small
pieces of logic that decide money, navigation and what is shown:
- the Checkout page's shipping, total and coupon session, order payload and
  payment controls;
- the Cart page's own shipping rule and quantity-step requests;
- the Home page's "Trending Now" tabs, deal countdown and sale badge;
- the product page's quantity stepper, stock gates, related products and
  description tabs;
- the Shop page's `/products` query, filter reset, URL read-back and
  category SEO header;
- the Navbar cart badge, transparency and profile menu;
- the SearchBar's suggestion gating and submit;
- the Footer's joined data load, link column and newsletter form.

This project lifts each piece out as pure Dafny functions over immutable
records and proves what the pages promise about them.

Conventions of the model:

- **Money** is an exact `real`. Float rounding and `toFixed(2)` formatting
  are not modelled.
- **Network replies** are inputs. Each request's outcome is a
  `Reply<T> = Ok(data) | Failed(message)` value, and a page handler is a
  function from the old page state and the reply to the new state.
- **Cart store.** The store (`CartContext`) is not part of this model, and
  neither are the authentication and wishlist stores. Pages produce
  `CartCall` requests (`AddToCart`, `UpdateQuantity`, `RemoveFromCart`,
  `ClearCart`) instead of changing a cart.
- **Subtotal assumption.** The cart subtotal (`getCartTotal`) is assumed to
  be the sum of price × quantity over the lines (`CartLines.Subtotal`).
  That matches the per-line totals both pages display.
- **JavaScript truthiness** is written out: `||` on strings treats `""` as
  missing, and `user?.id || null` treats id 0 as missing.
- **Strings** are sequences of Unicode scalar values. Where a page tests
  `.length`, the model counts UTF-16 code units (`Text.Utf16Length`), as
  JavaScript does.
- **Missing stock.** A product whose `stock` field is absent compares false
  against 0 in both directions (`Stock.Absent`).
- **Image fields** keep JSON `null` apart from a missing key
  (`Catalog.ImageField`): both are falsy, but a product card interpolates
  them as `null` and `undefined`.
- **Form validation.** The newsletter field's `required` and `type="email"`
  are modelled as the browser's gate in front of the submit handler.

Modules follow the source files:

| module | source file |
|---|---|
| `Checkout` | `Checkout.jsx` |
| `CartPage` | `Cart.jsx` |
| `Home` | `Home.jsx` |
| `ProductDetails` | `ProductDetails.jsx` |
| `Shop` | `Shop.jsx` |
| `Navbar` | `Navbar.jsx` |
| `SearchBar` | `SearchBar.jsx` |
| `Footer` | `Footer.jsx` |

Several modules are shared:
- `Catalog`: products, categories, cart lines, cart calls and image URLs.
- `CartLines`: subtotal and quantity sums.
- `Branding`: the website record and the logo fallback.
- `Wrappers`, `Seqs` and `Text`: generic helpers.

A few behaviours of the code worth knowing:
- **Checkout total.** It is not floored at zero (`Checkout.TotalNotFloored`).
- **Coupon codes.** They are sent as typed, with no case normalisation.
- **Re-applying a coupon.** Only the disabled controls prevent it; there is
  no check inside the handler (`Checkout.AppliedCouponLocked`).
- **Settings failure.** A failed settings fetch leaves the checkout on its
  loading message forever, rather than degrading gracefully
  (`Checkout.SettingsFailureBlocksCheckout`).
- **No payment method.** When neither payment method is enabled, the
  payment method stays `""` and the PayPal buttons are shown.

## Model

| member | source | states |
|---|---|---|
| `Checkout.Shipping` | src/pages/Checkout.jsx:119 | checkout shipping is 0 exactly when the subtotal is above 500, otherwise 20 (so exactly 500 pays 20) |
| `Checkout.Total` | src/pages/Checkout.jsx:120 | total plus discount equals subtotal plus shipping |
| `Checkout.TotalNotFloored` | src/pages/Checkout.jsx:120 | no clamping: a discount above subtotal plus shipping makes the total negative, and each unit of discount lowers it by one |
| `Checkout.CheckoutVersusCartTotal` | src/pages/Checkout.jsx:118-120 | for the same subtotal the checkout charges 20 where the Cart page shows 49, never more, and both are free above 500 |
| `Checkout.CodeToUse` | src/pages/Checkout.jsx:70 | a non-empty offer code takes precedence over the typed code |
| `Checkout.ApplyCoupon` | src/pages/Checkout.jsx:69-85 | no code means no request and no change; otherwise the code and cart total are posted; success copies discount, applied code and input from the reply and toasts; failure changes nothing and toasts an error |
| `Checkout.RemoveCoupon` | src/pages/Checkout.jsx:281 | Remove clears the applied code, the input and the discount |
| `Checkout.RunKeepsConsistent` | src/pages/Checkout.jsx:236-281 | over any sequence of typing, apply, offer and remove actions, an applied coupon is always the code shown in the input |
| `Checkout.AppliedCouponLocked` | src/pages/Checkout.jsx:238-259 | while a coupon is applied, the disabled input, disabled Apply button and hidden offers make every action but Remove a no-op |
| `Checkout.DiscountNeverAccumulates` | src/pages/Checkout.jsx:78 | after any actions the discount is the starting one, 0, or the amount granted by one single validation reply, never a sum |
| `Checkout.RemoveThenReapply` | src/pages/Checkout.jsx:281 | Remove returns to the empty coupon state, after which Apply is enabled exactly for a non-empty typed code and offers show when there are any |
| `Checkout.AppliedHidesControls` | src/pages/Checkout.jsx:238-281 | a successful apply disables the input and Apply, hides the offers and shows the Remove banner |
| `Checkout.InitialForm` | src/pages/Checkout.jsx:16-24 | the form starts empty except name and email copied from a signed-in user |
| `Checkout.OrderLines` | src/pages/Checkout.jsx:97-101 | one order line per cart line, in cart order, with id, quantity and price copied |
| `Checkout.LinesValueIsSubtotal` | src/pages/Checkout.jsx:97-102 | the posted lines are worth exactly the cart subtotal |
| `Checkout.UserIdField` | src/pages/Checkout.jsx:91 | the user id is sent when signed in with a non-zero id, otherwise null |
| `Checkout.BuildOrder` | src/pages/Checkout.jsx:90-104 | the payload copies the guest fields and payment method, joins "address, city, zip", totals the lines plus shipping minus discount, and sends the configured website id as a string or else the number 1 |
| `Checkout.PlaceOrder` | src/pages/Checkout.jsx:87-116 | success marks the order placed and clears the cart; failure changes only the loading flag and sends no cart call; loading always ends |
| `Checkout.OrderOutcomeAndRedirect` | src/pages/Checkout.jsx:33-36 | after a successful order the emptied cart does not bounce to /cart; after a failure a non-empty cart stays on the page |
| `Checkout.DefaultPaymentMethod` | src/pages/Checkout.jsx:44-45 | COD when enabled, else PayPal when enabled, else the method is left as it was |
| `Checkout.LoadSettings` | src/pages/Checkout.jsx:39-48 | a settings reply is stored and picks the default method; a failure changes nothing |
| `Checkout.SettingsFailureBlocksCheckout` | src/pages/Checkout.jsx:122 | with no settings loaded, a failed fetch leaves the page on its loading message |
| `Checkout.PayPalClientId` | src/pages/Checkout.jsx:124-128 | the live id in "live" mode and the sandbox id otherwise, and "test" whenever the id for the mode is empty, so never empty |
| `Checkout.LiveIdOnlyInLiveMode` | src/pages/Checkout.jsx:124 | any mode other than "live" loads the sandbox id (or "test"), never a distinct live id |
| `Checkout.SubmitControlFor` | src/pages/Checkout.jsx:316-327 | COD shows Complete Purchase, enabled iff not loading and address and phone are filled; otherwise PayPal buttons, enabled iff address and phone are filled |
| `Checkout.SubmitNeedsAddressAndPhone` | src/pages/Checkout.jsx:316-327 | no enabled control without address and phone; loading disables COD only |
| `CartPage.Shipping` | src/pages/Cart.jsx:11 | Cart page shipping is 0 exactly when the subtotal is above 500, otherwise 49 |
| `CartPage.Total` | src/pages/Cart.jsx:12 | the Cart total is the subtotal plus shipping, with no discount term |
| `CartPage.FreeShippingCliff` | src/pages/Cart.jsx:11-12 | 500 still pays the fee, so a larger cart can cost less in total |
| `CartPage.Lines` | src/pages/Cart.jsx:50-90 | one displayed line per cart line, in order |
| `CartPage.Render` | src/pages/Cart.jsx:14-24 | an empty cart renders only the empty state; otherwise each line shows its id, quantity and price × quantity, the subtotal shown is the sum of the displayed line totals, shipping follows the Cart rule for that subtotal, and the total is subtotal plus shipping |
| `CartPage.SubtotalMatchesLines` | src/pages/Cart.jsx:90 | the displayed line totals add up to the subtotal |
| `CartPage.MinusCall` | src/pages/Cart.jsx:75 | minus requests a lower quantity for that line's id |
| `CartPage.PlusCall` | src/pages/Cart.jsx:82 | plus requests a higher quantity for that line's id |
| `CartPage.TrashCall` | src/pages/Cart.jsx:94 | the trash button requests removal of that line's id |
| `CartPage.StepperCallsInverse` | src/pages/Cart.jsx:75-82 | plus and minus each request exactly one unit of change and undo each other |
| `Catalog.ResolveImage` | src/pages/Cart.jsx:56 | a falsy field (null, missing or empty) gives the placeholder, an http URL is kept, anything else is prefixed with /products/ |
| `Catalog.CardImage` | src/pages/Home.jsx:312 | product cards use the same rules for a non-empty string, but with no placeholder: null becomes /products/null, a missing field /products/undefined and "" /products/ |
| `Catalog.CardDiffersOnlyWhenFalsy` | src/pages/ProductDetails.jsx:96 | a card and a page with an http placeholder show the same image exactly when the field is a non-empty string |
| `CartLines.SubtotalAppend` | src/pages/Checkout.jsx:290 | the assumed subtotal is additive over cart lines |
| `CartLines.SubtotalNonNegative` | src/pages/Checkout.jsx:290 | with non-negative prices and quantities the subtotal is non-negative |
| `CartLines.QuantityCoversLines` | src/components/Navbar.jsx:67 | with positive quantities the summed quantity is at least the number of lines and zero only for an empty cart |
| `Home.InsertById` | src/pages/Home.jsx:89 | inserting into a list sorted by id descending keeps it sorted and adds exactly that product |
| `Home.SortByIdDesc` | src/pages/Home.jsx:89 | the sorted copy is ordered by id descending and is a permutation of the input |
| `Home.TabProducts` | src/pages/Home.jsx:88-93 | at most 8 products from the list; New Arrivals sorted newest first; Best Sellers and On Sale are the first 8 matches in original order (min(8, matches) of them, no match skipped for a later one); any other tab the first 8 |
| `Home.NewArrivalsAreNewest` | src/pages/Home.jsx:89 | a product left out of New Arrivals has an id no larger than any product shown |
| `Home.FilterTabsComplete` | src/pages/Home.jsx:90-91 | the filter tabs show min(8, matches) products, and all matches when at most 8 |
| `Home.CalculateTimeLeft` | src/pages/Home.jsx:34-42 | a positive difference gives hours below 24, minutes and seconds below 60, summing back to the whole seconds; otherwise the previous countdown stays |
| `Home.CountdownArithmetic` | src/pages/Home.jsx:36-39 | dividing milliseconds by each unit agrees with dividing the whole seconds |
| `Home.Round` | src/pages/Home.jsx:320 | `Math.round` picks the integer within half of its argument, halves up |
| `Home.SaleBadge` | src/pages/Home.jsx:318-320 | a badge exactly when mrp > price; for 0 ≤ price < mrp a percentage in 0..100 within half of the exact discount |
| `Home.BadgeIffOnSale` | src/pages/Home.jsx:318 | the card badge and the sale test agree |
| `Home.FeaturedCategories` | src/pages/Home.jsx:112 | the first three categories, or all when fewer |
| `Home.LatestBlogs` | src/pages/Home.jsx:262-271 | the blog section is hidden when there are no posts and shows the first three otherwise |
| `ProductDetails.Minus` | src/pages/ProductDetails.jsx:156 | minus lowers the quantity by one but never below 1 |
| `ProductDetails.Plus` | src/pages/ProductDetails.jsx:158 | plus raises the quantity |
| `ProductDetails.StepperNeverBelowOne` | src/pages/ProductDetails.jsx:22 | from the initial 1, no click sequence takes the quantity below 1 |
| `ProductDetails.StepperInverse` | src/pages/ProductDetails.jsx:156-158 | minus undoes plus, and plus undoes minus above 1 |
| `ProductDetails.AddToCartCall` | src/pages/ProductDetails.jsx:60 | add-to-cart passes the product and the selected quantity unchanged |
| `ProductDetails.StockGatesAgree` | src/pages/ProductDetails.jsx:162-176 | for numeric stock, add-to-cart is disabled iff buy-now is hidden; a missing stock field enables add-to-cart but hides buy-now |
| `ProductDetails.BuyNow` | src/pages/ProductDetails.jsx:176-178 | buy-now is offered only in stock and adds the selected quantity before going to /checkout |
| `ProductDetails.Related` | src/pages/ProductDetails.jsx:36-45 | never the current id; when a same-category product exists, the first min(4, such products) of them in catalogue order; otherwise the first min(4, other products); empty only when every product is the current one |
| `Seqs.TakeFilterFirstMatches` | src/pages/ProductDetails.jsx:37-39 | `filter(p).slice(0, n)` gives min(n, matches) elements, all the matches of some prefix of the list |
| `Seqs.FirstMatchesUnique` | src/pages/ProductDetails.jsx:37-39 | that description pins the result: two lists meeting it are equal |
| `ProductDetails.RelatedExcludesCurrent` | src/pages/ProductDetails.jsx:37-42 | the current product is never among its related products |
| `ProductDetails.Load` | src/pages/ProductDetails.jsx:26-51 | a failed product fetch changes only loading; a product reply is shown; related products are replaced only when the catalogue arrives; quantity and tab are kept |
| `ProductDetails.ProductImage` | src/pages/ProductDetails.jsx:96 | a missing image gives the 800-pixel placeholder; every result is an http URL or under /products/ |
| `ProductDetails.TabKey` | src/pages/ProductDetails.jsx:212 | same length as the label, lower-cased, with its first space turned into an underscore |
| `ProductDetails.FirstSpaceReplaced` | src/pages/ProductDetails.jsx:212 | replacing a space known to be the first one changes exactly that position |
| `ProductDetails.TabKeyDescription` | src/pages/ProductDetails.jsx:225 | "Description" gives "description" |
| `ProductDetails.TabKeyAdditionalInfo` | src/pages/ProductDetails.jsx:234 | "Additional Info" gives "additional_info" |
| `ProductDetails.TabKeyReviews` | src/pages/ProductDetails.jsx:242 | "Reviews" gives "reviews" |
| `ProductDetails.TabKeyReplacesFirstSpaceOnly` | src/pages/ProductDetails.jsx:212 | a label with two spaces keeps its second space |
| `Shop.Get` | src/pages/Shop.jsx:91-93 | a lookup returns a value paired with that key in the query |
| `Shop.GetNone` | src/pages/Shop.jsx:91-93 | a lookup finds nothing exactly when no pair has the key |
| `Shop.GetFindsFirst` | src/pages/Shop.jsx:91-93 | a lookup returns the first pair with the key |
| `Shop.ProductQuery` | src/pages/Shop.jsx:58-65 | category unless All, search unless empty, maxPrice only below 100000, sort unless empty, in that order and each at most once |
| `Shop.AssembleLookups` | src/pages/Shop.jsx:58-65 | each key of the assembled query reads back its own value |
| `Shop.AssembleOrdered` | src/pages/Shop.jsx:58-65 | the assembled query has at most the four known keys, in their fixed order |
| `Shop.MaxPriceReadsBack` | src/pages/Shop.jsx:63 | the price travels as a decimal string that parses back to the debounced price |
| `Shop.Settle` | src/pages/Shop.jsx:32 | when the debounce fires, only the debounced price changes, to the slider's value |
| `Shop.ClearAllFilters` | src/pages/Shop.jsx:96-101 | search "", category All, slider 100000, sort newest; the debounced price is untouched |
| `Shop.ClearedQueryIsUnfiltered` | src/pages/Shop.jsx:96-101 | once cleared and settled the query is only sort=newest; clearing is idempotent |
| `Shop.SyncFromUrl` | src/pages/Shop.jsx:90-94 | a missing or empty search reads as "", a missing or empty category as All |
| `Shop.UrlRoundTrip` | src/pages/Shop.jsx:41-42 | a URL carrying the search and category params of these filters reads back their search and category (an empty category reads as All) |
| `Shop.OnLocation` | src/pages/Shop.jsx:90-94 | a URL change sets search and category from the URL and keeps slider, sort and lists; the refetch it triggers is the separate `Shop.ProductsLoaded` step |
| `Shop.ProductsLoaded` | src/pages/Shop.jsx:67-73 | a reply replaces the product list, a failure keeps it; loading ends either way |
| `Shop.CategoriesLoaded` | src/pages/Shop.jsx:78-88 | a reply replaces the category list, a failure changes nothing |
| `Shop.ClickCategory` | src/pages/Shop.jsx:165 | a category button selects that category's slug and runs the SEO effect as written |
| `Shop.WithSeo` | src/pages/Shop.jsx:45-52 | the SEO effect as written changes only the header: cleared for All, a category whose name equals the selection when one exists, else the old header kept |
| `Shop.Find` | src/pages/Shop.jsx:47 | the first category satisfying the test (every earlier one fails it), or none when no category does |
| `Shop.CategorySeo` | src/pages/Shop.jsx:45-52 | as written: null for All; otherwise the first category whose name equals the selection, or the old header when none matches |
| `Shop.CategorySeoMissesSlug` | src/pages/Shop.jsx:47 | clicking a category whose name differs from its slug leaves the header empty, because the name lookup misses |
| `Shop.ClickCategoryKeepsStaleSeo` | src/pages/Shop.jsx:46-48 | as written, a click keeps the old header whenever no category is named like the clicked slug |
| `Shop.CategorySeoBySlug` | src/pages/Shop.jsx:45-52 | corrected: null for All; otherwise the first category whose slug equals the selection, or the old header |
| `Shop.WithSeoBySlug` | src/pages/Shop.jsx:45-52 | corrected effect: cleared for All, a category with the selected slug when one exists |
| `Shop.ClickCategoryBySlug` | src/pages/Shop.jsx:165 | a category button with the corrected effect selects that slug and keeps the lists |
| `Shop.ClickCategoryShowsItsSeo` | src/pages/Shop.jsx:165 | with the corrected effect, clicking any listed category shows a header for that slug |
| `Shop.PageTitle` | src/pages/Shop.jsx:105-107 | a category header titles the page with its meta title, or its name followed by the site name |
| `Shop.HeroTitle` | src/pages/Shop.jsx:118 | the heading is the selection, or "All Collections" for All |
| `Shop.ProductGrid` | src/pages/Shop.jsx:224-246 | six skeletons while loading, the cards when there are products, else "No Products Found" |
| `Navbar.TransparentOnlyAtTopOfHome` | src/components/Navbar.jsx:41-46 | the computed flag is true exactly on "/" with scrollY at most 50 (the header never reads it, so it has no visible effect) |
| `Navbar.CartBadge` | src/components/Navbar.jsx:67 | the badge shows the summed quantity and appears only when it is positive; none for an empty cart |
| `Navbar.BadgeIffCartNonEmpty` | src/components/Navbar.jsx:177 | with positive quantities the badge appears exactly for a non-empty cart and counts at least one per line |
| `Navbar.BrandingPath` | src/components/Navbar.jsx:52-53 | branding is fetched for the configured website id, or 1 |
| `Navbar.SidebarTitle` | src/components/Navbar.jsx:89-93 | the sidebar shows the site name once branding is loaded |
| `Navbar.NavbarLogo` | src/components/Navbar.jsx:54-58 | a failed fetch keeps the skeleton; a loaded site shows its logo or /logo/logo.jpg |
| `Navbar.Menu` | src/components/Navbar.jsx:197-222 | signed in: greeting, the View Profile link to /profile, then My Orders and Wishlist; signed out: Login and Register |
| `Navbar.AdminLinkOnlyForAdmins` | src/components/Navbar.jsx:206 | the Admin Panel link appears exactly for a signed-in admin |
| `Navbar.HandleLogout` | src/components/Navbar.jsx:61-65 | sign-out drops the session, closes the dropdown, goes to "/", and leaves the other flags |
| `Navbar.ToggleProfile` | src/components/Navbar.jsx:187 | the user icon flips the dropdown and nothing else |
| `Navbar.ToggleTwice` | src/components/Navbar.jsx:187 | two clicks restore the header |
| `Branding.WithLogoFallback` | src/components/Navbar.jsx:54-57 | the logo becomes /logo/logo.jpg when missing or empty and is kept otherwise; nothing else changes |
| `Branding.LoadBranding` | src/components/Navbar.jsx:53-58 | a failed fetch keeps the previous branding; a reply is stored with the logo fallback |
| `Branding.LoadedBrandingShowsImage` | src/components/Navbar.jsx:128-142 | after a fetch the logo slot never shows the name text: a skeleton on failure, an image on success |
| `SearchBar.SuggestionsKeepPadding` | src/components/SearchBar.jsx:29 | the suggestions request names the trimmed query exactly when the query has no space at either end; padding is sent as typed |
| `SearchBar.FetchSuggestions` | src/components/SearchBar.jsx:24-38 | a query shorter than two UTF-16 code units after trimming clears the list unasked; otherwise the first 6 results, or all when fewer, and a failure keeps the list |
| `Text.Utf16Length` | src/components/SearchBar.jsx:26 | `.length` counts UTF-16 code units: at least one and at most two per character, zero only for "", and exactly one per character iff no character lies outside the Basic Multilingual Plane |
| `SearchBar.Close` | src/components/SearchBar.jsx:17-20 | closing clears query and suggestions, after which nothing is fetched |
| `SearchBar.CloseIdempotent` | src/components/SearchBar.jsx:17-20 | closing twice equals closing once, and a closed bar fetches nothing |
| `SearchBar.HandleSearch` | src/components/SearchBar.jsx:45-51 | an all-space query does nothing; otherwise the bar leaves for the Shop with the encoded trimmed query |
| `SearchBar.SearchIgnoresPadding` | src/components/SearchBar.jsx:47-49 | padding around a query does not change the destination |
| `SearchBar.TrimIdempotent` | src/components/SearchBar.jsx:47 | trimming twice is trimming once |
| `SearchBar.RenderPanel` | src/components/SearchBar.jsx:87-131 | results once the untrimmed query is longer than one UTF-16 code unit, with "View all" iff there are suggestions and "no products" iff idle and empty; otherwise the popular tags |
| `SearchBar.AstralCharIsFetched` | src/components/SearchBar.jsx:26 | a one-character query outside the Basic Multilingual Plane (an emoji) is two code units, so it is fetched and opens the results panel |
| `SearchBar.BlankQueryShowsNoResults` | src/components/SearchBar.jsx:87-125 | a query of spaces opens the results panel, but nothing is fetched, so it reports no products |
| `SearchBar.PopularTagsAreFetched` | src/components/SearchBar.jsx:140-143 | every popular tag is already trimmed and long enough to fetch suggestions |
| `Footer.FooterLoad` | src/components/Footer.jsx:17-35 | both replies are applied together (branding with logo fallback, the first 5 categories or all when fewer) or neither is |
| `Footer.FooterLosesBrandingWithCategories` | src/components/Footer.jsx:21-32 | a failed category request also loses the branding the Navbar would show |
| `Footer.ShopLinks` | src/components/Footer.jsx:95-103 | one link per category to /products?category=slug, or exactly the three fallback links to /products |
| `Footer.CategoryLinkSelectsSlug` | src/components/Footer.jsx:97 | a footer category link makes the Shop select that category's slug |
| `Footer.NewsletterSubmit` | src/components/Footer.jsx:37-45 | the handler alone: an empty email toasts an error and keeps the state; otherwise it toasts success and clears the field |
| `Footer.ValidEmailParts` | src/components/Footer.jsx:79 | an address is a valid e-mail address exactly when it is local characters, an @ and a well-formed domain |
| `Footer.SubmitNewsletterForm` | src/components/Footer.jsx:78-84 | the browser blocks a missing or malformed address; a valid one is subscribed and the field cleared |
| `Footer.HandlerErrorUnreachable` | src/components/Footer.jsx:39-42 | on the page the handler's error toast is never raised; an empty field or one without @ is blocked first |
| `Footer.SecondSubmitRefused` | src/components/Footer.jsx:39-44 | a second submit right after a success is refused: by the browser on the page, and by the handler's error branch if it were reached |
| `Footer.ContactLines` | src/components/Footer.jsx:117-129 | address, phone and email once branding is loaded, skeletons before |
| `Footer.CopyrightName` | src/components/Footer.jsx:136 | the site name, or "inkzo" before branding loads |
| `Text.Trim` | src/components/SearchBar.jsx:26 | the input with its leading and trailing whitespace removed: an infix with only whitespace outside it and none at its ends, empty exactly for an all-whitespace string |
| `Text.ReplaceFirst` | src/pages/ProductDetails.jsx:212 | only the first occurrence is replaced; without one the string is unchanged |
| `Text.IntDecimalRoundTrip` | src/pages/Shop.jsx:63 | a number's decimal string parses back to the number |

## Left out

- Network transport, timers (the Shop price debounce, the SearchBar debounce and focus timeout, the Home countdown interval), scroll listeners and `Date`: replies, the millisecond difference and the scroll offset are inputs, and a debounce is an explicit `Settle` step.
- Stale responses: the code has no guard against an older reply arriving last, and the model applies each reply when given.
- CartContext, WishlistContext and AuthContext internals: not part of this model; pages emit `CartCall` requests, and the cart subtotal is the assumed sum of price × quantity.
- CartLines.Subtotal: stands for `getCartTotal`, whose code is not part of this model; the sum of price × quantity is an assumption matching the displayed line totals.
- The PayPal SDK (`createOrder`, `onApprove`, the script provider): a foreign library; only which control is shown and enabled, and the client id, are modelled.
- Float formatting (`toFixed(2)`, `toLocaleString`) and `parseFloat`: prices are exact reals.
- Image `onError` fallbacks (for example the 400-pixel Shop placeholder): browser events.
- The coupon offer list fetch (`/coupons/public`) and offer labels: offers are an input list of codes.
- Form field edits (`handleInputChange`): a plain field update, not modelled as its own function.
- Home's data fetches (categories, deal, blogs, products) and the deal card: display plumbing around the modelled tab, badge and section caps.
- Add-to-cart from product cards (Home, Shop): `addToCart(product)` relies on the store's default quantity, which is not part of this model.
- ProductDetails `handleShare`, the wishlist buttons, SEO components and page meta descriptions: browser APIs and display only.
- Percent-encoding: the Shop query is a list of key/value pairs before `URLSearchParams.toString()`, and SearchBar.HandleSearch takes `encodeURIComponent` as a function parameter.
- Text.LowerChar: lower-cases ASCII letters only, where `toLowerCase` also maps other scripts; the tab labels are ASCII.
- Home.SortByIdDesc: states the order and the permutation but not which of two equal ids comes first (JavaScript's sort is stable; ids are unique in practice).
- Footer.SubmitNewsletterForm: the field's value is taken after the browser's value sanitization (line breaks and outer whitespace removed), which is not modelled; the browser's own message is not modelled.
- Shop.PageTitle: `None` stands for the page-level SEO component, whose own lookup is not part of this model.

## Findings

| source | as written | input that shows it | evidently intended | confidence | as-written member | corrected member |
|---|---|---|---|---|---|---|
| src/pages/Shop.jsx:47 | the SEO effect looks up the category whose `name` equals the selection, but the category buttons (Shop.jsx:165) and the footer links (Footer.jsx:97) select the `slug` | a category named "Printers" with slug "printers": clicking its button selects "printers", the name lookup misses, and the page keeps the generic SEO header | look the category up by `slug` | medium, not executed | `Shop.CategorySeoMissesSlug` | `Shop.ClickCategoryShowsItsSeo` |

The page transitions (`Shop.OnLocation`, `Shop.CategoriesLoaded`,
`Shop.ClickCategory`) run the effect as written (`Shop.WithSeo`, by name).
The corrected effect is `Shop.WithSeoBySlug`, used by
`Shop.ClickCategoryBySlug`.
