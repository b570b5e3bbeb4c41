/** The records the storefront's API returns and the pages share. */
module Catalog {
  import opened Wrappers
  import opened Text

  /** A product's `stock` field. `Absent` is a response without the field
      (`undefined`); a JSON `null` compares like `Units(0)` and needs no case
      of its own. */
  datatype Stock = Units(n: int) | Absent

  /** A product as returned by `GET /products` and `GET /products/slug/:slug`.
      Prices are exact reals (`mrp` is the crossed-out list price). */
  datatype Product = Product(
    id: int,
    name: string,
    slug: string,
    price: real,
    mrp: real,
    categoryName: string,
    isBestSelling: bool,
    imageUrl: ImageField,
    stock: Stock)

  /** A product's `image_url` field: a string, a JSON `null`, or missing
      from the response (`undefined`). The pages test it for truthiness,
      where the last two and the empty string agree, but interpolate it into
      a path, where `null` and `undefined` print differently. */
  datatype ImageField = Url(url: string) | Null | Missing

  /** The field is falsy: `null`, `undefined` or "". */
  predicate Falsy(img: ImageField)
  {
    !img.Url? || img.url == ""
  }

  /** The category as returned by `GET /categories`, with its optional SEO
      overrides. */
  datatype Category = Category(id: int, name: string, slug: string,
                               metaTitle: Option<string>, metaDescription: Option<string>)

  /** The signed-in user from the authentication context (`null` when signed out). */
  datatype User = User(id: int, name: string, email: string, role: string)

  /** One cart line: the product spread into the line plus its quantity. */
  datatype CartItem = CartItem(product: Product, quantity: int)

  /** The calls a page makes into the cart store. The store itself is not
      part of this model: these are the requests, not their effect. */
  datatype CartCall =
    | AddToCart(product: Product, quantity: int)
    | UpdateQuantity(id: int, quantity: int)
    | RemoveFromCart(id: int)
    | ClearCart

  /** A product is on sale when its list price exceeds its price. */
  predicate OnSale(p: Product)
  {
    p.mrp > p.price
  }

  const ProductImageDir: string := "/products/"

  /** The image source of a product with a placeholder for a missing image
      (the Cart and ProductDetails pages): a falsy field gives the
      placeholder, an absolute `http…` URL is kept, anything else is a file
      name under `/products/`. */
  function ResolveImage(img: ImageField, placeholder: string): (r: string)
    ensures Falsy(img) ==> r == placeholder
    ensures img.Url? && StartsWith(img.url, "http") ==> r == img.url
    ensures !Falsy(img) && !StartsWith(img.url, "http") ==> r == ProductImageDir + img.url
    ensures StartsWith(placeholder, "http") ==>
              StartsWith(r, "http") || StartsWith(r, ProductImageDir)
  {
    if Falsy(img) then placeholder
    else if StartsWith(img.url, "http") then img.url
    else ProductImageDir + img.url
  }

  /** The image source used by product cards (Home, Shop, related products,
      search suggestions), which have no placeholder: optional chaining
      makes a falsy field fall through to the interpolated path, so `null`
      renders as `/products/null` and a missing field as
      `/products/undefined`. */
  function CardImage(img: ImageField): (r: string)
    ensures img.Url? && img.url != "" ==> r == ResolveImage(img, "")
    ensures img == Url("") ==> r == ProductImageDir
    ensures img.Null? ==> r == ProductImageDir + "null"
    ensures img.Missing? ==> r == ProductImageDir + "undefined"
  {
    match img
    case Url(u) => if StartsWith(u, "http") then u else ProductImageDir + u
    case Null => ProductImageDir + "null"
    case Missing => ProductImageDir + "undefined"
  }

  /** A card and a page with an absolute placeholder show the same image
      exactly when the field is a non-empty string: for every falsy field
      the card points into `/products/` where the page shows its
      placeholder. */
  lemma CardDiffersOnlyWhenFalsy(img: ImageField, placeholder: string)
    requires StartsWith(placeholder, "http")
    ensures CardImage(img) == ResolveImage(img, placeholder) <==> !Falsy(img)
  {
    if Falsy(img) {
      assert CardImage(img)[0] == '/';
      assert placeholder[0] == 'h';
    }
  }
}
