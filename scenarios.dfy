/**
 * Whole-process runs of the sync against small upstream listings, stated
 * from the methods' contracts alone: what the three stores and the search
 * accumulator hold afterwards.
 */
module Scenarios {
  import opened Records
  import opened Normalizer
  import opened Ingest
  import opened Catalog

  /** One page with a theme A and a plugin B, starting from empty store files:
      the themes store holds A, the plugins store B, and the all-items store
      lists the search records of A and B in that order. */
  method OnePageSync(a: RawProduct, b: RawProduct) returns (themes: map<string, Product>, plugins: map<string, Product>, db: Snapshot)
    requires Files(a, ThemeSlug) && !Files(a, PluginSlug)
    requires Files(b, PluginSlug) && !Files(b, ThemeSlug)
    ensures themes == map[PropertyKey(a.id) := Build(a, Theme)]
    ensures plugins == map[PropertyKey(b.id) := Build(b, Plugin)]
    ensures db == Listing([Summary(Format(a)), Summary(Format(b))])
  {
    var c := new Catalog(map[], map[]);
    var pages := [[a, b]];
    assert Fetched(pages, None) == pages by {
      FetchedAll(pages);
    }
    assert Flatten(pages) == [a, b] by {
      assert pages[..0] == [];
    }
    assert [a, b][..1] == [a] && [a][..0] == [];
    var _ := c.FetchAllProducts(pages, None);
    assert StoreWrites(map[], [a], ThemeSlug, Theme) == StoreWrite(map[], a, ThemeSlug, Theme);
    assert StoreWrites(map[], [a], PluginSlug, Plugin) == StoreWrite(map[], a, PluginSlug, Plugin);
    assert c.themes == StoreWrite(StoreWrite(map[], a, ThemeSlug, Theme), b, ThemeSlug, Theme);
    assert c.plugins == StoreWrite(StoreWrite(map[], a, PluginSlug, Plugin), b, PluginSlug, Plugin);
    assert Summaries([a]) == [Summary(Format(a))];
    assert c.search == [] + Summaries([a, b]);
    themes, plugins, db := c.themes, c.plugins, c.db;
  }

  /** Page 1 holds A, the request for page 2 throws: A's writes stay in the
      stores and the all-items store still receives the accumulator; nothing
      of the interrupted sync is rolled back. */
  method FailedSecondPage(a: RawProduct, b: RawProduct) returns (themes: map<string, Product>, db: Snapshot)
    requires Files(a, ThemeSlug)
    ensures themes == map[PropertyKey(a.id) := Build(a, Theme)]
    ensures db == Listing([Summary(Format(a))])
  {
    var c := new Catalog(map[], map[]);
    var pages := [[a], [b]];
    assert Fetched(pages, Some(2)) == [[a]] by {
      assert FetchedFrom(pages, Some(2), 2) == [];
    }
    assert Flatten([[a]]) == [a];
    var _ := c.FetchAllProducts(pages, Some(2));
    themes, db := c.themes, c.db;
  }

  /** Were `fetchAllProducts` called a second time in one process (the
      service itself syncs only once, at start-up), over an empty listing:
      the themes store keeps A from the first (no store is cleared), and the
      all-items store still lists A's search record (the accumulator is never
      reset). */
  method SecondSyncKeepsEarlierRecords(a: RawProduct) returns (themes: map<string, Product>, db: Snapshot)
    requires Files(a, ThemeSlug)
    ensures PropertyKey(a.id) in themes
    ensures db == Listing([Summary(Format(a))])
  {
    var c := new Catalog(map[], map[]);
    assert Fetched([[a]], None) == [[a]] by {
      FetchedAll([[a]]);
    }
    assert Flatten([[a]]) == [a];
    var _ := c.FetchAllProducts([[a]], None);
    assert Fetched([], None) == [];
    var _ := c.FetchAllProducts([], None);
    themes, db := c.themes, c.db;
  }
}
