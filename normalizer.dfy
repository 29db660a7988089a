/**
 * The pure half of the product normaliser: metadata lookup, the image,
 * category and tag projections, classification by category slug, and the
 * search record a formatted product contributes.
 */
module Normalizer {
  import opened Records

  /** Entry `i` is the first entry of `meta` whose key is `key`. */
  ghost predicate FirstMatchAt(meta: seq<MetaEntry>, key: string, i: int)
  {
    && 0 <= i < |meta|
    && meta[i].key == key
    && forall j :: 0 <= j < i ==> meta[j].key != key
  }

  /** `getProductMeta`: the value of the first metadata entry with the given
      key, `None` (undefined) when no entry has it. */
  function ProductMeta(meta: seq<MetaEntry>, key: string): Option<string>
  {
    if meta == [] then None
    else if meta[0].key == key then Some(meta[0].value)
    else ProductMeta(meta[1..], key)
  }

  /** The lookup finds a value exactly when some entry has the key, and then
      it is the value of the first such entry: keys may repeat upstream. */
  lemma {:induction false} ProductMetaFirstMatch(meta: seq<MetaEntry>, key: string)
    ensures ProductMeta(meta, key).None? <==> forall i :: 0 <= i < |meta| ==> meta[i].key != key
    ensures ProductMeta(meta, key).Some? ==>
      exists i :: FirstMatchAt(meta, key, i) && meta[i].value == ProductMeta(meta, key).value
  {
    if meta == [] {
    } else if meta[0].key == key {
      assert FirstMatchAt(meta, key, 0);
    } else {
      ProductMetaFirstMatch(meta[1..], key);
      assert forall i :: 1 <= i < |meta| ==> meta[i] == meta[1..][i - 1];
      if ProductMeta(meta, key).Some? {
        var i :| FirstMatchAt(meta[1..], key, i) && meta[1..][i].value == ProductMeta(meta, key).value;
        assert FirstMatchAt(meta, key, i + 1);
      }
    }
  }

  /** `images[0]?.src || ''`: the first image's source, or the empty string. */
  function ImageOf(images: seq<Image>): string
  {
    if images == [] then "" else images[0].src
  }

  /** The categories of a formatted product: `{name, slug}` of each upstream
      category, in upstream order. */
  function CategoryRefs(cats: seq<Category>): seq<CategoryRef>
  {
    if cats == [] then [] else [CategoryRef(cats[0].name, cats[0].slug)] + CategoryRefs(cats[1..])
  }

  /** The tags of a formatted product: the name of each upstream tag, in order. */
  function TagNames(tags: seq<Tag>): seq<string>
  {
    if tags == [] then [] else [tags[0].name] + TagNames(tags[1..])
  }

  /** Both projections keep the length and order of their input: category `i`
      becomes exactly its `{name, slug}`, tag `i` exactly its name. */
  lemma {:induction false} ProjectionsAt(cats: seq<Category>, tags: seq<Tag>)
    ensures |CategoryRefs(cats)| == |cats| && |TagNames(tags)| == |tags|
    ensures forall i :: 0 <= i < |cats| ==> CategoryRefs(cats)[i] == CategoryRef(cats[i].name, cats[i].slug)
    ensures forall i :: 0 <= i < |tags| ==> TagNames(tags)[i] == tags[i].name
  {
    if cats != [] {
      ProjectionsAt(cats[1..], tags);
      assert forall i :: 1 <= i < |cats| ==> cats[i] == cats[1..][i - 1];
    }
    if tags != [] {
      ProjectionsAt(cats, tags[1..]);
      assert forall i :: 1 <= i < |tags| ==> tags[i] == tags[1..][i - 1];
    }
  }

  /** `categories.some(category => category.slug === slug)`. */
  predicate HasSlug(cats: seq<Category>, slug: string)
  {
    exists i :: 0 <= i < |cats| && cats[i].slug == slug
  }

  /** The flat record with the given type: scalar fields copied, metadata
      looked up by key, first image, projected categories and tags. */
  function Build(raw: RawProduct, kind: Kind): Product
  {
    var meta := raw.metaData;
    Product(
      name := raw.name,
      version := ProductMeta(meta, "product-version"),
      image := ImageOf(raw.images),
      description := raw.description,
      permalink := raw.permalink,
      demoLink := ProductMeta(meta, "demo-link"),
      lastUpdate := raw.dateModifiedGmt,
      free := ProductMeta(meta, "is-free"),
      productID := raw.id,
      brand := ProductMeta(meta, "brand"),
      categories := CategoryRefs(raw.categories),
      popular := ProductMeta(meta, "popular"),
      price := raw.price,
      regularPrice := raw.regularPrice,
      salePrice := raw.salePrice,
      tags := TagNames(raw.tags),
      developer := ProductMeta(meta, "developer"),
      demoUrl := ProductMeta(meta, "demo-url"),
      devUrl := ProductMeta(meta, "dev-url"),
      kind := kind)
  }

  /** The slug rule: the type `formatProduct` leaves on a record, given
      whether a theme slug and a plugin slug are present. A plugin slug wins
      over a theme slug, since its assignment comes second. */
  function SlugKind(hasTheme: bool, hasPlugin: bool): Kind
  {
    if hasPlugin then Plugin
    else if hasTheme then Theme
    else Unset
  }

  /** The slug rule applied to upstream categories. */
  function Classify(cats: seq<Category>): Kind
  {
    SlugKind(HasSlug(cats, ThemeSlug), HasSlug(cats, PluginSlug))
  }

  /** The record `formatProduct` returns. */
  function Format(raw: RawProduct): Product
  {
    Build(raw, Classify(raw.categories))
  }

  /** The record `formatProduct` pushes onto the search accumulator. */
  function Summary(p: Product): SearchRecord
  {
    SearchRecord(productID := p.productID, name := p.name, category := p.description, kind := p.kind, image := p.image)
  }

  /** The metadata field for `key` of a formatted product agrees with the
      first-match rule on the raw metadata list. */
  ghost predicate MetaField(meta: seq<MetaEntry>, key: string, field: Option<string>)
  {
    && (field.None? <==> forall i :: 0 <= i < |meta| ==> meta[i].key != key)
    && (field.Some? ==> exists i :: FirstMatchAt(meta, key, i) && meta[i].value == field.value)
  }

  /** What `formatProduct` returns, field by field, in terms of the raw record. */
  lemma FormatFields(raw: RawProduct)
    ensures var p := Format(raw);
      && p.productID == raw.id && p.name == raw.name && p.description == raw.description
      && p.permalink == raw.permalink && p.lastUpdate == raw.dateModifiedGmt
      && p.price == raw.price && p.regularPrice == raw.regularPrice && p.salePrice == raw.salePrice
      && (raw.images == [] ==> p.image == "")
      && (raw.images != [] ==> p.image == raw.images[0].src)
      && |p.categories| == |raw.categories| && |p.tags| == |raw.tags|
      && (forall i :: 0 <= i < |raw.categories| ==>
            p.categories[i].name == raw.categories[i].name && p.categories[i].slug == raw.categories[i].slug)
      && (forall i :: 0 <= i < |raw.tags| ==> p.tags[i] == raw.tags[i].name)
  {
    ProjectionsAt(raw.categories, raw.tags);
  }

  /** Every metadata field of a formatted product follows the first-match rule. */
  lemma FormatMeta(raw: RawProduct)
    ensures var p := Format(raw);
      && MetaField(raw.metaData, "product-version", p.version)
      && MetaField(raw.metaData, "demo-link", p.demoLink)
      && MetaField(raw.metaData, "is-free", p.free)
      && MetaField(raw.metaData, "brand", p.brand)
      && MetaField(raw.metaData, "popular", p.popular)
      && MetaField(raw.metaData, "developer", p.developer)
      && MetaField(raw.metaData, "demo-url", p.demoUrl)
      && MetaField(raw.metaData, "dev-url", p.devUrl)
  {
    var m := raw.metaData;
    LookupIsMetaField(m, "product-version");
    LookupIsMetaField(m, "demo-link");
    LookupIsMetaField(m, "is-free");
    LookupIsMetaField(m, "brand");
    LookupIsMetaField(m, "popular");
    LookupIsMetaField(m, "developer");
    LookupIsMetaField(m, "demo-url");
    LookupIsMetaField(m, "dev-url");
  }

  lemma LookupIsMetaField(meta: seq<MetaEntry>, key: string)
    ensures MetaField(meta, key, ProductMeta(meta, key))
  {
    ProductMetaFirstMatch(meta, key);
  }

  /** Classification of a formatted product: 'plugin' whenever a plugin slug
      is present, 'theme' when only a theme slug is, unset otherwise. */
  lemma FormatKind(raw: RawProduct)
    ensures Format(raw).kind == Plugin <==> HasSlug(raw.categories, PluginSlug)
    ensures Format(raw).kind == Theme <==> HasSlug(raw.categories, ThemeSlug) && !HasSlug(raw.categories, PluginSlug)
    ensures Format(raw).kind == Unset <==> !HasSlug(raw.categories, ThemeSlug) && !HasSlug(raw.categories, PluginSlug)
  {
  }

  /** Some kept `{name, slug}` pair carries `slug`. */
  predicate RefHasSlug(refs: seq<CategoryRef>, slug: string)
  {
    exists i :: 0 <= i < |refs| && refs[i].slug == slug
  }

  /** The slug rule applied to a formatted product's own categories. */
  function KindOf(refs: seq<CategoryRef>): Kind
  {
    SlugKind(RefHasSlug(refs, ThemeSlug), RefHasSlug(refs, PluginSlug))
  }

  /** Classification is idempotent: classifying a formatted product again, by
      the categories it kept, yields the type it already carries. */
  lemma {:induction false} ReclassifyFormatted(raw: RawProduct)
    ensures KindOf(Format(raw).categories) == Format(raw).kind
  {
    var cats, refs := raw.categories, Format(raw).categories;
    ProjectionsAt(cats, raw.tags);
    forall slug: string
      ensures HasSlug(cats, slug) <==> RefHasSlug(refs, slug)
    {
      if HasSlug(cats, slug) {
        var i :| 0 <= i < |cats| && cats[i].slug == slug;
        assert refs[i].slug == slug;
      }
      if exists i :: 0 <= i < |refs| && refs[i].slug == slug {
        var i :| 0 <= i < |refs| && refs[i].slug == slug;
        assert cats[i].slug == slug;
      }
    }
  }

  /** The search record carries the product's id, name, description (as
      `category`), type and image, and nothing else of it. */
  lemma SummaryOfFormat(raw: RawProduct)
    ensures var s := Summary(Format(raw));
      && s.productID == raw.id && s.name == raw.name && s.category == raw.description
      && s.image == ImageOf(raw.images) && s.kind == Format(raw).kind
  {
  }
}
