# wpnova catalog service: ingestion and query core

This project models the core of a small Node.js service, in `app.js`. The service mirrors a WooCommerce catalog of WordPress themes and plugins into three JSON key-value stores and answers search and lookup requests over them.

The model covers:

- **Normaliser and classifier** (`formatProduct`). A raw upstream record becomes a flat product record:
  - scalar fields are copied;
  - eight metadata fields are looked up by key, and the first entry with the key wins;
  - `image` is the first image's `src`, or `''` when there are no images;
  - categories are projected to `{name, slug}` and tags to their names.
  The record is then classified by category slug (`wp-gpl-themes`, `wp-gpl-plugins`). It is filed in the themes and/or plugins store under its id, and its search record is pushed onto the process-wide `search` accumulator.
- **Stores** (`Catalog.Catalog`). A class holds the process globals:
  - the themes and plugins stores, as `map<string, Product>` keyed by the id's JavaScript property key;
  - the all-items store `db`, a `Snapshot`: an empty object after start-up, the accumulator's array after a sync;
  - the accumulator `search`, a `seq<SearchRecord>`.
  `fetchData` dispatches between the three stores.
- **Sync** (`fetchAllProducts`). Pages 1, 2, 3, … are formatted in order until a page comes back empty or a request throws. The upstream is an input list of pages plus the number of the page whose request throws, if any; pages past the end of the list are empty. Afterwards `db` is overwritten with the whole accumulator. The method is proved against specification folds (`Ingest.StoreWrites`, `Ingest.Summaries`, `Ingest.FormatAll`, `Ingest.Fetched`), and the meaning of those folds is proved as lemmas.
- **Queries**. The three search routes rank a store with the fuzzy-search library and keep the first 20 hits. The library is a function parameter (`Query.Ranker`). `GET /:productID` filters the accumulator by id.

Ids are JavaScript values (`Records.JsId`): upstream ids are numbers and route parameters are strings. This matters for the finding below.

The model keeps these behaviours of the code:

- The themes and plugins stores and the accumulator are never cleared. Ids from earlier runs persist. Were `fetchAllProducts` called again in the same process, which the code never does, the second sync would list the earlier records again (`Scenarios.SecondSyncKeepsEarlierRecords`).
- A sync whose page request throws keeps every write made before the throw, and still overwrites `db` with the accumulator. Nothing is rolled back (`Scenarios.FailedSecondPage`).
- A product with both slugs is written to both stores and ends with type `'plugin'`.
- The all-items store holds the array of search records, not product records keyed by id.
- The sync runs once, at start-up (app.js:309). There is no recurring timer.
- Records are not validated. The search routes pass the query, including an empty or missing one, to the ranking library unchanged.

## Model

| member | source | states |
|---|---|---|
| `Normalizer.ProductMetaFirstMatch` | app.js:48 | The metadata lookup yields a value exactly when some entry has the key. That value is the value of the first entry with the key; `None` (undefined) when no entry matches. |
| `Normalizer.ProjectionsAt` | app.js:62-67 | Categories and tags keep their length and order. Category `i` becomes exactly `{name, slug}` of upstream category `i`, and tag `i` becomes exactly the name of upstream tag `i`. |
| `Normalizer.FormatFields` | app.js:49-78 | `productID`, `name`, `description`, `permalink`, `lastUpdate`, `price`, `regular_price` and `sale_price` are copied from the raw record. `image` is the first image's `src`, or `''` when there are none. Categories and tags are projected element by element. |
| `Normalizer.FormatMeta` | app.js:53-77 | `version`, `demoLink`, `free`, `brand`, `popular`, `developer`, `demo-url` and `dev-url` each follow the first-match rule for their metadata key. |
| `Normalizer.FormatKind` | app.js:79-86 | The returned type is `'plugin'` iff some category slug is `wp-gpl-plugins`. It is `'theme'` iff a `wp-gpl-themes` slug is present and no plugin slug is. It is unset iff neither slug is present. |
| `Normalizer.ReclassifyFormatted` | app.js:79-86 | Classification is idempotent: applying the slug rule to a formatted product's own categories gives the type it already carries. |
| `Normalizer.SummaryOfFormat` | app.js:87-93 | The search record carries the product's id, name, description (as `category`), type and image. |
| `Catalog.Catalog.constructor` | app.js:17-21 | At start-up the themes and plugins stores hold their files' contents, the all-items store is an empty object, and the accumulator is empty. |
| `Catalog.Catalog.FormatProduct` | app.js:47-95 | Returns the formatted record. A theme slug inserts or overwrites the record, typed `'theme'`, under its id in the themes store. A plugin slug does the same in the plugins store, typed `'plugin'`. Without a slug a store is unchanged, and `db` is never touched. Exactly one search record is appended to the accumulator. |
| `Catalog.Catalog.FormatPage` | app.js:295 | Formatting a page returns the formatted records in page order. Each store receives the writes of the page's records in order, and the accumulator grows by their search records in order. |
| `Catalog.Catalog.FetchAllProducts` | app.js:287-306 | `productsData` is the in-order concatenation of the formatted records of every page before the stop. The stores receive exactly those records' writes. `search` grows by their search records. Afterwards `db` lists the entire accumulator, including records from earlier runs. |
| `Catalog.Catalog.FetchData` | app.js:96-104 | `'plugins'` gives the plugins store and `'themes'` the themes store. Any other value, or a missing parameter (defaulting to `''`), gives the all-items store. |
| `Ingest.FetchedShape` | app.js:291-303 | A sync consumes a prefix of the upstream pages. Every consumed page is non-empty, and none is the failing request. The page after the prefix is the failing request or an empty page: the loop stops at the first of either. |
| `Ingest.FetchedAll` | app.js:291-303 | With no failing request and no empty page, every page is consumed. |
| `Ingest.StoreWritesConcat` | app.js:291-303 | Writing two batches in turn equals writing their concatenation, so page-by-page writes equal the writes of the flattened record list. |
| `Ingest.StoreWritesKeys` | app.js:79-86 | After a batch a key is in a store iff it was there before or some record with the store's slug was filed under it. No entry is ever removed. |
| `Ingest.StoreWritesUntouched` | app.js:79-86 | A key that no record of the batch writes keeps its previous entry, so ids from earlier runs persist. |
| `Ingest.StoreWritesLastWins` | app.js:79-86 | A key that records of the batch write holds the last such record, with the store's type. |
| `Ingest.StoreWritesKeepWellFiled` | app.js:81-85 | If every entry of a store is filed under its own id's key with the store's type, this still holds after any batch of writes. |
| `Ingest.FormatAllAt` | app.js:295-296 | Record `i` of a batch becomes formatted record `i` and search record `i`. Lengths are equal. |
| `Ingest.FormatAllConcat` | app.js:295-296 | Formatting, and summarising, distribute over concatenation of batches (`productsData.concat`). |
| `Query.RankedItems` | app.js:186-191 | A search route answers 500 iff the ranking library throws. Otherwise it returns the first `min(20, n)` ranked hits' items, in ranker order. |
| `Query.ThemesRoute` | app.js:176-196 | `/themes` ranks the themes store. |
| `Query.PluginsRoute` | app.js:198-218 | `/plugins` ranks the plugins store. |
| `Query.SearchRoute` | app.js:221-241 | `/search` ranks the store its `type` names (`'themes'`, `'plugins'`). Any other or missing `type` ranks the all-items store. |
| `Query.FilterRecords` | app.js:250-253 | The filter keeps exactly the accumulator records that pass the test, and is never longer than the accumulator. |
| `Query.FilterCounts` | app.js:250-253 | The filter keeps each passing record exactly as often as the accumulator holds it, repeats included, and no record that fails the test. |
| `Query.FilterConcat` | app.js:250-253 | Filtering the grown accumulator filters the old and new parts separately, so matches stay in accumulator order. |
| `Query.GetById` | app.js:243-279 | `GET /:productID` always answers with the filtered records, never from a store: `filteredData` is an array without a `type` property. The answer is the as-written filter of the accumulator: exactly the records whose id strictly equals the parameter, each as often as the accumulator holds it, in accumulator order. |
| `Query.NumericIdsNeverMatch` | app.js:252 | As written, the lookup returns nothing for any parameter when every stored id is a number. |
| `Query.SyncedProductNotFoundById` | app.js:252 | Counterexample: after formatting a product with id 42, `GET /42` finds nothing as written. The intended lookup finds its record. |
| `Query.LookupFindsEveryRecord` | app.js:252 | The intended lookup finds every accumulator record under its id's string form. |
| `Query.LookupAgreesOnTextIds` | app.js:252 | On string ids the intended lookup returns exactly what the written one returns. |
| `Scenarios.OnePageSync` | app.js:287-305 | One page holds theme A and plugin B, and the store files start empty. Afterwards the themes store holds only A, the plugins store only B, and the all-items store lists A's and B's search records in order. |
| `Scenarios.FailedSecondPage` | app.js:291-305 | Page 1 holds theme A, and the request for page 2 throws. Afterwards the themes store holds A and the all-items store lists A's record: nothing is rolled back. |
| `Scenarios.SecondSyncKeepsEarlierRecords` | app.js:46-93 | Hypothetical, since the code syncs only once: were `fetchAllProducts` called again, a second sync over an empty listing leaves A in the themes store and A's record in the all-items store: nothing is cleared between runs. |

## Findings

| source | as written | input that shows it | evidently intended | confidence | as-written member | corrected member |
|---|---|---|---|---|---|---|
| app.js:252 | `product.productID === productID` strictly compares the stored id, a number from the upstream API, with the route parameter, always a string | an upstream record with id 42 and the request `GET /42`: the answer is `[]` | compare the id's string form with the parameter, as the stores' own keys do | medium; not executed (the id's type comes from the upstream API, which is not part of this model) | `Query.SyncedProductNotFoundById` | `Query.LookupFindsEveryRecord` |

`Query.FilterById` is the lookup as written and `Query.LookupById` the corrected one. `Query.GetById` models the handler and so keeps the code's comparison. `Query.LookupAgreesOnTextIds` shows that the two lookups differ only on numeric ids.

## Left out

- HTTP plumbing is left out: the Express app, its middleware (cors, helmet, body parsing, morgan, compression), `app.listen` and response status handling. `GET /` is `FetchData(None)`.
- The WooCommerce client is replaced by the input page list and the failing page number. The `per_page: 100` bound on page size is not modelled.
- `POST /link/:productID` and `getProductDownloads` are left out. They are an authenticated passthrough to external endpoints with no local logic.
- Fuse.js scoring is left out because it is a foreign library with floating-point scores. It is the `Query.Ranker` parameter. What the library does when handed a keyed object (the themes or plugins store) instead of an array is its own behaviour, which the model does not capture.
- The 3-second `setTimeout` between pages is left out: it is timing only.
- JSON file persistence is left out. This covers the write to disk on every `set`, and the loading of `db.json`, which is overwritten by `db.JSON({})` anyway. dotenv, crypto, `memory-cache` and the unused constants are left out too.
- Catalog.Catalog.FormatProduct: the stores hold values, not shared objects. In the running process the themes store shares its object with the later `type = 'plugin'` assignment, so a dual-slug product reads `'plugin'` there in memory. The file written at `set` time, and the model, say `'theme'`.
- Exceptions inside `formatProduct` on malformed records, such as a missing `meta_data`, are not modelled: raw records are well-formed here. In the code such a throw ends the sync, and keeps the writes of the page's earlier records.
- Metadata values are strings in the model; upstream they may be any JSON value.
- Ids are integers or strings. Numeric ids are assumed to be safe integers (magnitude below 2^53). Non-integer ids, and integers large enough that JavaScript's number-to-string conversion switches to exponent notation (from 10^21), are not modelled: for those `PropertyKey` is not the key the store would use.
- Concurrency between request handlers and the sync at `await` points is not modelled: every operation runs to completion.
- The unreachable store branches of `GET /:productID` are modelled only as the store call they would make. In particular, `dbPlugins.JSON(productID)` would replace the plugins store's contents.
