/**
 * The data model of the catalog service: raw records as the upstream
 * WooCommerce store delivers them, the flat product records the service
 * builds from them, the lightweight search records it accumulates, and the
 * JSON snapshots its three key-value stores hand out.
 */
module Records {

  datatype Option<+T> = None | Some(value: T)

  /** A product identifier as a JavaScript value: upstream sends numbers,
      a route parameter is always a string. */
  datatype JsId = Num(n: int) | Text(s: string)

  /** One `{key, value}` entry of a raw record's `meta_data` list. */
  datatype MetaEntry = MetaEntry(key: string, value: string)

  datatype Image = Image(id: int, src: string, alt: string)

  datatype Category = Category(id: int, name: string, slug: string)

  datatype Tag = Tag(id: int, name: string, slug: string)

  /** One upstream product record, reduced to the attributes the service reads. */
  datatype RawProduct = RawProduct(
    id: JsId,
    name: string,
    description: string,
    permalink: string,
    dateModifiedGmt: string,
    price: string,
    regularPrice: string,
    salePrice: string,
    metaData: seq<MetaEntry>,
    images: seq<Image>,
    categories: seq<Category>,
    tags: seq<Tag>)

  /** The `type` property of a formatted product: absent, 'theme' or 'plugin'. */
  datatype Kind = Unset | Theme | Plugin

  /** A category as kept in a formatted product: `{name, slug}` only. */
  datatype CategoryRef = CategoryRef(name: string, slug: string)

  /** The flat product record built by the normaliser. Metadata fields are
      `None` where the upstream list has no entry for the key (`undefined`). */
  datatype Product = Product(
    name: string,
    version: Option<string>,
    image: string,
    description: string,
    permalink: string,
    demoLink: Option<string>,
    lastUpdate: string,
    free: Option<string>,
    productID: JsId,
    brand: Option<string>,
    categories: seq<CategoryRef>,
    popular: Option<string>,
    price: string,
    regularPrice: string,
    salePrice: string,
    tags: seq<string>,
    developer: Option<string>,
    demoUrl: Option<string>,
    devUrl: Option<string>,
    kind: Kind)

  /** The record pushed onto the process-wide search accumulator; its
      `category` holds the product's description. */
  datatype SearchRecord = SearchRecord(productID: JsId, name: string, category: string, kind: Kind, image: string)

  /** What a store hands out: a keyed object of products, or (for the
      all-items store after a sync) the array of search records. */
  datatype Snapshot = Keyed(entries: map<string, Product>) | Listing(records: seq<SearchRecord>)

  /** Category slugs that mark a theme and a plugin. */
  const ThemeSlug: string := "wp-gpl-themes"
  const PluginSlug: string := "wp-gpl-plugins"

  /** Decimal digits of a natural number, most significant first. */
  function DecimalText(n: nat): (r: string)
    ensures |r| > 0
    ensures forall i :: 0 <= i < |r| ==> '0' <= r[i] <= '9'
  {
    var d := ['0' + (n % 10) as char];
    if n < 10 then d else DecimalText(n / 10) + d
  }

  /** The string a JavaScript object uses as property key for an id, which is
      the key under which a JSON store files a product. */
  function PropertyKey(id: JsId): string
  {
    match id
    case Text(s) => s
    case Num(n) => if n < 0 then "-" + DecimalText(-n) else DecimalText(n)
  }
}
