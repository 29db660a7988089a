/**
 * The process-wide state of the service and the operations that change it:
 * the themes and plugins stores (loaded from their JSON files at start-up),
 * the all-items store (emptied at start-up, overwritten after a sync), and
 * the search accumulator that every formatted product is pushed onto.
 */
module Catalog {
  import opened Records
  import opened Normalizer
  import opened Ingest

  class Catalog {
    var themes: map<string, Product>
    var plugins: map<string, Product>
    var db: Snapshot
    var search: seq<SearchRecord>

    /** Start-up: the themes and plugins stores hold what their files held,
        the all-items store is reset to an empty object, the accumulator is empty. */
    constructor (themesFile: map<string, Product>, pluginsFile: map<string, Product>)
      ensures themes == themesFile && plugins == pluginsFile
      ensures db == Keyed(map[]) && search == []
    {
      themes, plugins := themesFile, pluginsFile;
      db := Keyed(map[]);
      search := [];
    }

    /** `formatProduct`: builds the flat record, files it in the themes and/or
        plugins store by category slug, and appends its search record. */
    method FormatProduct(raw: RawProduct) returns (p: Product)
      modifies this
      ensures p == Format(raw)
      ensures themes == StoreWrite(old(themes), raw, ThemeSlug, Theme)
      ensures plugins == StoreWrite(old(plugins), raw, PluginSlug, Plugin)
      ensures search == old(search) + [Summary(p)]
      ensures db == old(db)
    {
      p := Build(raw, Unset);
      if HasSlug(raw.categories, ThemeSlug) {
        p := p.(kind := Theme);
        themes := themes[PropertyKey(p.productID) := p];
      }
      if HasSlug(raw.categories, PluginSlug) {
        p := p.(kind := Plugin);
        plugins := plugins[PropertyKey(p.productID) := p];
      }
      search := search + [SearchRecord(p.productID, p.name, p.description, p.kind, p.image)];
    }

    /** `response.data.map(formatProduct)`: formats one page, record by record. */
    method FormatPage(page: seq<RawProduct>) returns (formatted: seq<Product>)
      modifies this
      ensures formatted == FormatAll(page)
      ensures themes == StoreWrites(old(themes), page, ThemeSlug, Theme)
      ensures plugins == StoreWrites(old(plugins), page, PluginSlug, Plugin)
      ensures search == old(search) + Summaries(page)
      ensures db == old(db)
    {
      formatted := [];
      var i := 0;
      while i < |page|
        invariant 0 <= i <= |page|
        invariant formatted == FormatAll(page[..i])
        invariant themes == StoreWrites(old(themes), page[..i], ThemeSlug, Theme)
        invariant plugins == StoreWrites(old(plugins), page[..i], PluginSlug, Plugin)
        invariant search == old(search) + Summaries(page[..i])
        invariant db == old(db)
      {
        var p := FormatProduct(page[i]);
        assert page[..i + 1][..i] == page[..i] && page[..i + 1][i] == page[i];
        assert search == old(search) + Summaries(page[..i + 1]) by {
          SeqAssoc(old(search), Summaries(page[..i]), [Summary(p)]);
        }
        formatted := formatted + [p];
        i := i + 1;
      }
      assert page[..i] == page;
    }

    /** `fetchAllProducts`: requests pages 1, 2, 3, ... and formats each, until
        a page comes back empty or a request throws (`failing` is the page whose
        request throws, if any); then the all-items store is overwritten with
        the whole accumulator. Returns the local `productsData`. */
    method FetchAllProducts(pages: seq<seq<RawProduct>>, failing: Option<nat>) returns (productsData: seq<Product>)
      modifies this
      ensures productsData == FormatAll(Flatten(Fetched(pages, failing)))
      ensures themes == StoreWrites(old(themes), Flatten(Fetched(pages, failing)), ThemeSlug, Theme)
      ensures plugins == StoreWrites(old(plugins), Flatten(Fetched(pages, failing)), PluginSlug, Plugin)
      ensures search == old(search) + Summaries(Flatten(Fetched(pages, failing)))
      ensures db == Listing(search)
    {
      var page: nat := 1;
      productsData := [];
      ghost var done: seq<seq<RawProduct>> := [];
      ghost var flat: seq<RawProduct> := [];
      while true
        invariant page == |done| + 1 && flat == Flatten(done)
        invariant Fetched(pages, failing) == done + FetchedFrom(pages, failing, page)
        invariant productsData == FormatAll(flat)
        invariant themes == StoreWrites(old(themes), flat, ThemeSlug, Theme)
        invariant plugins == StoreWrites(old(plugins), flat, PluginSlug, Plugin)
        invariant search == old(search) + Summaries(flat)
        decreases |pages| + 1 - page
      {
        if failing == Some(page) {
          break;
        }
        var data := PageAt(pages, page);
        if |data| == 0 {
          break;
        }
        var formatted := FormatPage(data);
        assert search == old(search) + Summaries(flat + data) by {
          FormatAllConcat(flat, data);
          SeqAssoc(old(search), Summaries(flat), Summaries(data));
        }
        StoreWritesConcat(old(themes), flat, data, ThemeSlug, Theme);
        StoreWritesConcat(old(plugins), flat, data, PluginSlug, Plugin);
        FormatAllConcat(flat, data);
        FetchedStep(pages, failing, done);
        productsData := productsData + formatted;
        page := page + 1;
        done, flat := done + [data], flat + data;
      }
      assert done + [] == done;
      db := Listing(search);
    }

    /** `fetchData(type = '')`: 'plugins' gives the plugins store, 'themes' the
        themes store, anything else (a missing parameter defaults to '') the
        all-items store. */
    function FetchData(t: Option<string>): (r: Snapshot)
      reads this
      ensures t == Some("plugins") ==> r == Keyed(plugins)
      ensures t == Some("themes") ==> r == Keyed(themes)
      ensures t != Some("plugins") && t != Some("themes") ==> r == db
    {
      if t == Some("plugins") then Keyed(plugins)
      else if t == Some("themes") then Keyed(themes)
      else db
    }
  }
}
