/** The Navbar: cart badge, scroll and home-page transparency, branding
    logo, the profile dropdown and sign-out. */
module Navbar {
  import opened Wrappers
  import opened Catalog
  import opened CartLines
  import opened Branding

  /** Scrolling past this many pixels marks the page as scrolled. */
  const ScrollThreshold: real := 50.0

  /** `window.scrollY > 50`. */
  predicate IsScrolled(scrollY: real)
  {
    scrollY > ScrollThreshold
  }

  /** The bar is transparent only on the home page before scrolling. */
  predicate IsTransparent(path: string, scrolled: bool)
  {
    path == "/" && !scrolled
  }

  /** Transparency never survives a scroll past the threshold, and never
      appears off the home page. The flag is computed but never read: the
      header's class does not depend on it, so it has no visible effect. */
  lemma TransparentOnlyAtTopOfHome(path: string, scrollY: real)
    ensures IsTransparent(path, IsScrolled(scrollY)) <==> path == "/" && scrollY <= ScrollThreshold
  {
  }

  /** `cartItems.reduce((acc, item) => acc + item.quantity, 0)`: the number
      shown on the cart badge, or no badge when it is not positive. */
  function CartBadge(items: seq<CartItem>): (r: Option<int>)
    ensures r.Some? <==> TotalQuantity(items) > 0
    ensures r.Some? ==> r.value == TotalQuantity(items) && r.value > 0
    ensures |items| == 0 ==> r.None?
  {
    var count := TotalQuantity(items);
    if count > 0 then Some(count) else None
  }

  /** With every line holding at least one unit, the badge appears exactly
      when the cart has lines, and counts at least one per line. */
  lemma BadgeIffCartNonEmpty(items: seq<CartItem>)
    requires AllPositive(items)
    ensures CartBadge(items).Some? <==> |items| > 0
    ensures CartBadge(items).Some? ==> CartBadge(items).value >= |items|
  {
    QuantityCoversLines(items);
  }

  /** The wishlist heart carries a dot when the wishlist is non-empty. */
  predicate WishlistDot(wishlistLength: nat)
  {
    wishlistLength > 0
  }

  /** The branding request: `/websites/` plus the configured website id,
      defaulting to 1 when the variable is unset or empty. The source's
      default is the number 1, which prints as "1" inside the path. */
  function BrandingPath(websiteEnv: string): (r: string)
    ensures websiteEnv != "" ==> r == "/websites/" + websiteEnv
    ensures websiteEnv == "" ==> r == "/websites/1"
  {
    "/websites/" + OrElse(websiteEnv, "1")
  }

  /** The sidebar header: the site name once branding is loaded. */
  function SidebarTitle(branding: Option<Website>): (r: Option<string>)
    ensures r.Some? <==> branding.Some?
    ensures r.Some? ==> r.value == branding.value.name
  {
    match branding
    case None => None
    case Some(w) => Some(w.name)
  }

  /** The logo slot after the mount fetch: the skeleton stays when the
      fetch fails, and a loaded website shows its logo or the default. */
  lemma NavbarLogo(reply: Reply<Website>)
    ensures reply.Failed? ==> Logo(LoadBranding(None, reply)) == LogoSkeleton
    ensures reply.Ok? && (reply.data.logoUrl.None? || reply.data.logoUrl.value == "") ==>
              Logo(LoadBranding(None, reply)) == LogoImage(DefaultLogo)
    ensures reply.Ok? && reply.data.logoUrl.Some? && reply.data.logoUrl.value != "" ==>
              Logo(LoadBranding(None, reply)) == LogoImage(reply.data.logoUrl.value)
  {
  }

  /** One entry of the profile dropdown. */
  datatype MenuLink = MenuLink(path: string, text: string)

  /** The dropdown: a greeting with a profile link above the other links
      for a signed-in user, or the login and register links. */
  datatype ProfileMenu =
    | SignedInMenu(greeting: string, profile: MenuLink, links: seq<MenuLink>)
    | SignedOutMenu(links: seq<MenuLink>)

  const ProfileLink: MenuLink := MenuLink("/profile", "View Profile")
  const AdminLink: MenuLink := MenuLink("/admin", "Admin Panel")

  /** The Admin Panel entry is offered to administrators only. */
  predicate IsAdmin(user: User)
  {
    user.role == "admin"
  }

  function Menu(user: Option<User>): (r: ProfileMenu)
    ensures r.SignedInMenu? <==> user.Some?
    ensures r.SignedInMenu? ==> r.greeting == "Hi, " + user.value.name
    ensures r.SignedInMenu? ==> r.profile == ProfileLink
    ensures r.SignedInMenu? ==> |r.links| >= 2 && r.links[..2] == [MenuLink("/orders", "My Orders"), MenuLink("/wishlist", "Wishlist")]
    ensures r.SignedOutMenu? ==> r.links == [MenuLink("/login", "Login"), MenuLink("/register", "Register")]
  {
    match user
    case None => SignedOutMenu([MenuLink("/login", "Login"), MenuLink("/register", "Register")])
    case Some(u) =>
      var base := [MenuLink("/orders", "My Orders"), MenuLink("/wishlist", "Wishlist")];
      SignedInMenu("Hi, " + u.name, ProfileLink, if IsAdmin(u) then base + [AdminLink] else base)
  }

  /** The Admin Panel link appears exactly for a signed-in administrator. */
  lemma AdminLinkOnlyForAdmins(user: Option<User>)
    ensures Menu(user).SignedInMenu? && AdminLink in Menu(user).links <==> user.Some? && IsAdmin(user.value)
  {
    if user.Some? && !IsAdmin(user.value) {
      var links := Menu(user).links;
      assert links == [MenuLink("/orders", "My Orders"), MenuLink("/wishlist", "Wishlist")];
      assert links[0] != AdminLink && links[1] != AdminLink;
    }
  }

  /** The header's UI flags. */
  datatype Header = Header(profileOpen: bool, searchOpen: bool, menuOpen: bool)

  /** Sign Out: the session is dropped, the dropdown closes and the page
      goes home. The other flags are untouched. */
  datatype LogoutEffects = LogoutEffects(signedOut: bool, next: Header, navigateTo: string)

  function HandleLogout(h: Header): (r: LogoutEffects)
    ensures r.signedOut && !r.next.profileOpen && r.navigateTo == "/"
    ensures r.next.searchOpen == h.searchOpen && r.next.menuOpen == h.menuOpen
  {
    LogoutEffects(true, h.(profileOpen := false), "/")
  }

  /** The user icon toggles the dropdown; toggling twice restores it. */
  function ToggleProfile(h: Header): (r: Header)
    ensures r.profileOpen != h.profileOpen
    ensures r.(profileOpen := h.profileOpen) == h
  {
    h.(profileOpen := !h.profileOpen)
  }

  lemma ToggleTwice(h: Header)
    ensures ToggleProfile(ToggleProfile(h)) == h
  {
  }
}
