/**
 * The read side: the three fuzzy-search routes, which rank a store's
 * snapshot with an external library and keep the first 20 hits, and the
 * lookup of search records by product id.
 */
module Query {
  import opened Records
  import opened Normalizer
  import opened Ingest
  import opened Catalog

  /** An element of a snapshot handed to the ranker. */
  datatype Entry = ProductItem(product: Product) | RecordItem(record: SearchRecord)

  /** One ranked result: the matched element and its position in the snapshot. */
  datatype Hit = Hit(item: Entry, refIndex: nat)

  /** A route's answer: a JSON body, or the 500 'Internal server error' reply. */
  datatype Response<T> = Ok(body: T) | ServerError

  /** The fuzzy ranker (searching the `name` and `description` keys) as an
      opaque function of the snapshot and the `q` parameter; `None` when the
      library throws. */
  type Ranker = (Snapshot, Option<string>) -> Option<seq<Hit>>

  const MaxResults: nat := 20

  /** `results.slice(0, 20)`: at most the first twenty hits. */
  function FirstHits(hits: seq<Hit>): seq<Hit>
  {
    if |hits| <= MaxResults then hits else hits[..MaxResults]
  }

  /** `.map(result => result.item)`. */
  function Items(hits: seq<Hit>): seq<Entry>
  {
    if hits == [] then [] else [hits[0].item] + Items(hits[1..])
  }

  /** The body of a search route: the ranker's first twenty hits, in rank
      order, unwrapped to their items; a throw becomes a 500 reply. */
  function RankedItems(rank: Ranker, data: Snapshot, q: Option<string>): (r: Response<seq<Entry>>)
    ensures r.ServerError? <==> rank(data, q).None?
    ensures r.Ok? ==>
      var hits := rank(data, q).value;
      && |r.body| == (if |hits| < MaxResults then |hits| else MaxResults)
      && forall i :: 0 <= i < |r.body| ==> r.body[i] == hits[i].item
  {
    match rank(data, q)
    case None => ServerError
    case Some(hits) =>
      ItemsAt(FirstHits(hits));
      Ok(Items(FirstHits(hits)))
  }

  lemma {:induction false} ItemsAt(hits: seq<Hit>)
    ensures |Items(hits)| == |hits|
    ensures forall i :: 0 <= i < |hits| ==> Items(hits)[i] == hits[i].item
  {
    if hits != [] {
      ItemsAt(hits[1..]);
      assert forall i :: 1 <= i < |hits| ==> hits[i] == hits[1..][i - 1];
    }
  }

  /** `GET /themes?q=`: ranks the themes store. */
  function ThemesRoute(c: Catalog, rank: Ranker, q: Option<string>): (r: Response<seq<Entry>>)
    reads c
    ensures r == RankedItems(rank, Keyed(c.themes), q)
  {
    RankedItems(rank, c.FetchData(Some("themes")), q)
  }

  /** `GET /plugins?q=`: ranks the plugins store. */
  function PluginsRoute(c: Catalog, rank: Ranker, q: Option<string>): (r: Response<seq<Entry>>)
    reads c
    ensures r == RankedItems(rank, Keyed(c.plugins), q)
  {
    RankedItems(rank, c.FetchData(Some("plugins")), q)
  }

  /** `GET /search?q=&type=`: ranks the store `type` names; without a
      recognised `type` it ranks the all-items store. */
  function SearchRoute(c: Catalog, rank: Ranker, q: Option<string>, t: Option<string>): (r: Response<seq<Entry>>)
    reads c
    ensures t == Some("themes") ==> r == ThemesRoute(c, rank, q)
    ensures t == Some("plugins") ==> r == PluginsRoute(c, rank, q)
    ensures t != Some("themes") && t != Some("plugins") ==> r == RankedItems(rank, c.db, q)
  {
    RankedItems(rank, c.FetchData(t), q)
  }

  /** `search.filter(...)` with an arbitrary test: the records of `s` that
      pass it, in accumulator order. */
  function FilterRecords(s: seq<SearchRecord>, keep: SearchRecord -> bool): (r: seq<SearchRecord>)
    ensures |r| <= |s|
    ensures forall x :: x in r <==> x in s && keep(x)
  {
    if s == [] then []
    else if keep(s[0]) then [s[0]] + FilterRecords(s[1..], keep)
    else FilterRecords(s[1..], keep)
  }

  /** The filter keeps every passing record as often as the accumulator holds
      it, repeats included, and drops every other record entirely. */
  lemma {:induction false} FilterCounts(s: seq<SearchRecord>, keep: SearchRecord -> bool)
    ensures forall x :: multiset(FilterRecords(s, keep))[x] == if keep(x) then multiset(s)[x] else 0
  {
    if s != [] {
      assert s == [s[0]] + s[1..];
      FilterCounts(s[1..], keep);
    }
  }

  /** Filtering a grown accumulator filters the old part and the new part
      separately: matches stay in accumulator order. */
  lemma {:induction false} FilterConcat(a: seq<SearchRecord>, b: seq<SearchRecord>, keep: SearchRecord -> bool)
    ensures FilterRecords(a + b, keep) == FilterRecords(a, keep) + FilterRecords(b, keep)
  {
    if a != [] {
      assert (a + b)[0] == a[0] && (a + b)[1..] == a[1..] + b;
      FilterConcat(a[1..], b, keep);
      var rest := FilterRecords(a[1..], keep) + FilterRecords(b, keep);
      if keep(a[0]) {
        assert FilterRecords(a + b, keep) == [a[0]] + rest;
        assert FilterRecords(a, keep) == [a[0]] + FilterRecords(a[1..], keep);
        SeqAssoc([a[0]], FilterRecords(a[1..], keep), FilterRecords(b, keep));
      } else {
        assert FilterRecords(a + b, keep) == rest;
      }
    } else {
      assert a + b == b;
    }
  }

  /** The lookup as written: `product.productID === productID`, a strict
      comparison of the stored id with the route parameter, a string. */
  function FilterById(s: seq<SearchRecord>, param: string): seq<SearchRecord>
  {
    FilterRecords(s, (x: SearchRecord) => x.productID == Text(param))
  }

  /** The lookup as intended: compare the id's string form with the parameter. */
  function LookupById(s: seq<SearchRecord>, param: string): seq<SearchRecord>
  {
    FilterRecords(s, (x: SearchRecord) => PropertyKey(x.productID) == param)
  }

  /** What the `GET /:productID` handler answers with: the first two name the
      store call its branches on `filteredData.type` would make
      (`dbPlugins.JSON(productID)`, `dbThemes.get(productID)`). */
  datatype LookupResult =
    | PluginsStoreCall(pluginsArg: string)
    | ThemesStoreCall(themesArg: string)
    | Filtered(records: seq<SearchRecord>)

  /** `GET /:productID`. `filteredData` is an array, which has no `type`
      property: both store branches are dead and the handler always answers
      with the filtered search records. */
  function GetById(c: Catalog, param: string): (r: LookupResult)
    reads c
    ensures r.Filtered? && r.records == FilterById(c.search, param)
    ensures forall x :: x in r.records <==> x in c.search && x.productID == Text(param)
    ensures forall x :: multiset(r.records)[x] == if x.productID == Text(param) then multiset(c.search)[x] else 0
  {
    // `filteredData.type`: a JavaScript array has no `type` property
    var arrayType: Option<string> := None;
    FilterCounts(c.search, (x: SearchRecord) => x.productID == Text(param));
    if arrayType == Some("plugins") then PluginsStoreCall(param)
    else if arrayType == Some("themes") then ThemesStoreCall(param)
    else Filtered(FilterById(c.search, param))
  }

  /** The as-written lookup never finds a record with a numeric id, whatever
      the parameter: upstream ids are numbers and route parameters strings. */
  lemma {:induction false} NumericIdsNeverMatch(s: seq<SearchRecord>, param: string)
    requires forall i :: 0 <= i < |s| ==> s[i].productID.Num?
    ensures FilterById(s, param) == []
  {
    if s != [] {
      assert forall i :: 1 <= i < |s| ==> s[1..][i - 1] == s[i];
      NumericIdsNeverMatch(s[1..], param);
    }
  }

  /** Concretely: after formatting a product with id 42, `GET /42` finds
      nothing as written, and finds its record with the intended lookup. */
  lemma SyncedProductNotFoundById(raw: RawProduct)
    requires raw.id == Num(42)
    ensures FilterById([Summary(Format(raw))], "42") == []
    ensures LookupById([Summary(Format(raw))], "42") == [Summary(Format(raw))]
  {
    assert PropertyKey(Num(42)) == "42";
  }

  /** The intended lookup finds every record under its own id's string form. */
  lemma LookupFindsEveryRecord(s: seq<SearchRecord>, i: int)
    requires 0 <= i < |s|
    ensures s[i] in LookupById(s, PropertyKey(s[i].productID))
  {
  }

  /** On string ids the intended lookup returns exactly what the written one does. */
  lemma {:induction false} LookupAgreesOnTextIds(s: seq<SearchRecord>, param: string)
    requires forall i :: 0 <= i < |s| ==> s[i].productID.Text?
    ensures LookupById(s, param) == FilterById(s, param)
  {
    if s != [] {
      assert forall i :: 1 <= i < |s| ==> s[1..][i - 1] == s[i];
      LookupAgreesOnTextIds(s[1..], param);
    }
  }
}
