/** The site branding (`GET /websites/:id`) that the Navbar and the Footer
    fetch on mount and render as a logo. */
module Branding {
  import opened Wrappers

  /** The website record. */
  datatype Website = Website(
    name: string,
    logoUrl: Option<string>,
    phone: string,
    contactEmail: string,
    contactAddress: string)

  const DefaultLogo: string := "/logo/logo.jpg"

  /** `{ ...res.data, logo_url: res.data.logo_url || '/logo/logo.jpg' }`. */
  function WithLogoFallback(w: Website): (r: Website)
    ensures r.logoUrl.Some? && r.logoUrl.value != ""
    ensures w.logoUrl.Some? && w.logoUrl.value != "" ==> r.logoUrl == w.logoUrl
    ensures w.logoUrl.None? || w.logoUrl.value == "" ==> r.logoUrl == Some(DefaultLogo)
    ensures r.(logoUrl := w.logoUrl) == w
  {
    w.(logoUrl := Some(PresentOr(w.logoUrl, DefaultLogo)))
  }

  /** The branding state after the fetch settles: a failed fetch is caught
      and leaves the previous state (initially `null`). */
  function LoadBranding(prev: Option<Website>, reply: Reply<Website>): (r: Option<Website>)
    ensures reply.Failed? ==> r == prev
    ensures reply.Ok? ==> r == Some(WithLogoFallback(reply.data))
  {
    match reply
    case Ok(w) => Some(WithLogoFallback(w))
    case Failed(_) => prev
  }

  /** What the logo slot renders. */
  datatype LogoView = LogoImage(src: string) | LogoText(name: string) | LogoSkeleton

  /** `branding ? (branding.logo_url ? <img> : name) : <Skeleton>`. */
  function Logo(branding: Option<Website>): LogoView
  {
    if branding.None? then LogoSkeleton
    else if branding.value.logoUrl.Some? && branding.value.logoUrl.value != "" then
      LogoImage(branding.value.logoUrl.value)
    else LogoText(branding.value.name)
  }

  /** Branding loaded through the fallback always has a logo, so the
      text-name branch of the logo slot is never reached after a fetch:
      only the skeleton (nothing loaded) or an image is shown. */
  lemma LoadedBrandingShowsImage(prev: Option<Website>, reply: Reply<Website>)
    requires prev.None?
    ensures !Logo(LoadBranding(prev, reply)).LogoText?
    ensures reply.Ok? ==> Logo(LoadBranding(prev, reply)).LogoImage?
    ensures reply.Failed? ==> Logo(LoadBranding(prev, reply)) == LogoSkeleton
  {
  }
}
