/**
 * Specification functions for ingestion: what a run of `formatProduct`
 * over a list of raw records writes into a store and onto the search
 * accumulator, and which upstream pages a sync consumes before it stops.
 */
module Ingest {
  import opened Records
  import opened Normalizer

  /** The records `formatProduct` returns for `raws`, in order. */
  function FormatAll(raws: seq<RawProduct>): seq<Product>
    decreases |raws|
  {
    if raws == [] then [] else FormatAll(raws[..|raws| - 1]) + [Format(raws[|raws| - 1])]
  }

  /** The search records `formatProduct` pushes for `raws`, in order. */
  function Summaries(raws: seq<RawProduct>): seq<SearchRecord>
    decreases |raws|
  {
    if raws == [] then [] else Summaries(raws[..|raws| - 1]) + [Summary(Format(raws[|raws| - 1]))]
  }

  /** Record `i` of a batch is formatted into record `i` of the result, and
      summarised into search record `i`. */
  lemma {:induction false} FormatAllAt(raws: seq<RawProduct>, i: int)
    requires 0 <= i < |raws|
    ensures |FormatAll(raws)| == |raws| && FormatAll(raws)[i] == Format(raws[i])
    ensures |Summaries(raws)| == |raws| && Summaries(raws)[i] == Summary(Format(raws[i]))
    decreases |raws|
  {
    var n := |raws| - 1;
    if i < n {
      FormatAllAt(raws[..n], i);
    } else if n > 0 {
      FormatAllAt(raws[..n], 0);
    }
  }

  /** `raw` is filed in the store kept for `slug`. */
  predicate Files(raw: RawProduct, slug: string)
  {
    HasSlug(raw.categories, slug)
  }

  /** The write `formatProduct` makes to the store kept for `slug` (themes or
      plugins): the record, with the store's type, under its id's property
      key, inserted or overwritten; no write for a record without the slug. */
  function StoreWrite(m: map<string, Product>, raw: RawProduct, slug: string, kind: Kind): map<string, Product>
  {
    if Files(raw, slug) then m[PropertyKey(raw.id) := Build(raw, kind)] else m
  }

  /** The store after the writes for `raws`, one after another. */
  function StoreWrites(m: map<string, Product>, raws: seq<RawProduct>, slug: string, kind: Kind): map<string, Product>
    decreases |raws|
  {
    if raws == [] then m
    else StoreWrite(StoreWrites(m, raws[..|raws| - 1], slug, kind), raws[|raws| - 1], slug, kind)
  }

  /** Writing two batches one after the other is writing their concatenation. */
  lemma {:induction false} StoreWritesConcat(m: map<string, Product>, a: seq<RawProduct>, b: seq<RawProduct>, slug: string, kind: Kind)
    ensures StoreWrites(m, a + b, slug, kind) == StoreWrites(StoreWrites(m, a, slug, kind), b, slug, kind)
    decreases |b|
  {
    if b == [] {
      assert a + b == a;
    } else {
      var b' := b[..|b| - 1];
      assert (a + b)[..|a + b| - 1] == a + b';
      assert (a + b)[|a + b| - 1] == b[|b| - 1];
      StoreWritesConcat(m, a, b', slug, kind);
    }
  }

  /** Record `i` of `raws` is the last one filed under key `k` in the store for `slug`. */
  ghost predicate LastWriter(raws: seq<RawProduct>, slug: string, k: string, i: int)
  {
    && 0 <= i < |raws|
    && Files(raws[i], slug) && PropertyKey(raws[i].id) == k
    && forall j :: i < j < |raws| ==> !(Files(raws[j], slug) && PropertyKey(raws[j].id) == k)
  }

  /** Some record of `raws` is filed under key `k` in the store for `slug`. */
  ghost predicate Written(raws: seq<RawProduct>, slug: string, k: string)
  {
    exists i :: 0 <= i < |raws| && Files(raws[i], slug) && PropertyKey(raws[i].id) == k
  }

  /** No entry is ever removed, and the only keys added are those of filed records. */
  lemma {:induction false} StoreWritesKeys(m: map<string, Product>, raws: seq<RawProduct>, slug: string, kind: Kind, k: string)
    ensures k in StoreWrites(m, raws, slug, kind) <==> k in m || Written(raws, slug, k)
    decreases |raws|
  {
    if raws != [] {
      var n := |raws| - 1;
      StoreWritesKeys(m, raws[..n], slug, kind, k);
      if Written(raws[..n], slug, k) {
        var i :| 0 <= i < n && Files(raws[..n][i], slug) && PropertyKey(raws[..n][i].id) == k;
        assert raws[..n][i] == raws[i];
      }
      if Written(raws, slug, k) {
        var i :| 0 <= i < |raws| && Files(raws[i], slug) && PropertyKey(raws[i].id) == k;
        if i < n { assert raws[..n][i] == raws[i]; }
      }
    }
  }

  /** A key no record of `raws` is filed under keeps its old entry. */
  lemma {:induction false} StoreWritesUntouched(m: map<string, Product>, raws: seq<RawProduct>, slug: string, kind: Kind, k: string)
    requires k in m && !Written(raws, slug, k)
    ensures k in StoreWrites(m, raws, slug, kind) && StoreWrites(m, raws, slug, kind)[k] == m[k]
    decreases |raws|
  {
    if raws != [] {
      var n := |raws| - 1;
      assert forall j :: 0 <= j < n ==> raws[..n][j] == raws[j];
      StoreWritesUntouched(m, raws[..n], slug, kind, k);
    }
  }

  /** A key some record of `raws` is filed under holds the last such record,
      with the store's type: the last write wins. */
  lemma {:induction false} StoreWritesLastWins(m: map<string, Product>, raws: seq<RawProduct>, slug: string, kind: Kind, k: string, i: int)
    requires LastWriter(raws, slug, k, i)
    ensures k in StoreWrites(m, raws, slug, kind) && StoreWrites(m, raws, slug, kind)[k] == Build(raws[i], kind)
    decreases |raws|
  {
    var n := |raws| - 1;
    if i < n {
      assert LastWriter(raws[..n], slug, k, i) by {
        assert forall j :: 0 <= j < n ==> raws[..n][j] == raws[j];
      }
      StoreWritesLastWins(m, raws[..n], slug, kind, k, i);
    }
  }

  /** Every entry of a store is filed under its own id with the store's type. */
  ghost predicate WellFiled(m: map<string, Product>, kind: Kind)
  {
    forall k :: k in m ==> PropertyKey(m[k].productID) == k && m[k].kind == kind
  }

  /** The writes of `formatProduct` keep a well-filed store well filed. */
  lemma {:induction false} StoreWritesKeepWellFiled(m: map<string, Product>, raws: seq<RawProduct>, slug: string, kind: Kind)
    requires WellFiled(m, kind)
    ensures WellFiled(StoreWrites(m, raws, slug, kind), kind)
    decreases |raws|
  {
    if raws != [] {
      StoreWritesKeepWellFiled(m, raws[..|raws| - 1], slug, kind);
    }
  }

  /** Formatting and summarising two batches is formatting and summarising their concatenation. */
  lemma {:induction false} FormatAllConcat(a: seq<RawProduct>, b: seq<RawProduct>)
    ensures FormatAll(a + b) == FormatAll(a) + FormatAll(b)
    ensures Summaries(a + b) == Summaries(a) + Summaries(b)
    decreases |b|
  {
    if b == [] {
      assert a + b == a;
    } else {
      var b' := b[..|b| - 1];
      assert (a + b)[..|a + b| - 1] == a + b';
      assert (a + b)[|a + b| - 1] == b[|b| - 1];
      FormatAllConcat(a, b');
    }
  }

  lemma SeqAssoc<T>(a: seq<T>, b: seq<T>, c: seq<T>)
    ensures (a + b) + c == a + (b + c)
  {
  }

  /** The records of a list of pages, in page order. */
  function Flatten(pages: seq<seq<RawProduct>>): seq<RawProduct>
    decreases |pages|
  {
    if pages == [] then [] else Flatten(pages[..|pages| - 1]) + pages[|pages| - 1]
  }

  lemma FlattenSnoc(pages: seq<seq<RawProduct>>, page: seq<RawProduct>)
    ensures Flatten(pages + [page]) == Flatten(pages) + page
  {
    assert (pages + [page])[..|pages|] == pages;
  }

  /** Page `n` (counted from 1) of the upstream listing; past the last
      stored page the upstream answers with an empty page. */
  function PageAt(pages: seq<seq<RawProduct>>, n: int): seq<RawProduct>
  {
    if 1 <= n <= |pages| then pages[n - 1] else []
  }

  /** The pages a sync formats when it starts at page `n`: each page in turn
      until the request for page `failing` throws or a page is empty. */
  function FetchedFrom(pages: seq<seq<RawProduct>>, failing: Option<nat>, n: nat): seq<seq<RawProduct>>
    decreases |pages| + 1 - n
  {
    if failing == Some(n) || PageAt(pages, n) == [] then []
    else [PageAt(pages, n)] + FetchedFrom(pages, failing, n + 1)
  }

  /** One more page consumed: the prefix grows by that page, and so does its flattening. */
  lemma FetchedStep(pages: seq<seq<RawProduct>>, failing: Option<nat>, done: seq<seq<RawProduct>>)
    requires failing != Some(|done| + 1) && PageAt(pages, |done| + 1) != []
    ensures var data := PageAt(pages, |done| + 1);
      && done + FetchedFrom(pages, failing, |done| + 1) == (done + [data]) + FetchedFrom(pages, failing, |done| + 2)
      && Flatten(done + [data]) == Flatten(done) + data
  {
    FlattenSnoc(done, PageAt(pages, |done| + 1));
  }

  /** The pages a whole sync formats, starting from page 1. */
  function Fetched(pages: seq<seq<RawProduct>>, failing: Option<nat>): seq<seq<RawProduct>>
  {
    FetchedFrom(pages, failing, 1)
  }

  lemma {:induction false} FetchedFromShape(pages: seq<seq<RawProduct>>, failing: Option<nat>, n: nat)
    requires 1 <= n <= |pages| + 1
    ensures var f := FetchedFrom(pages, failing, n);
      && n - 1 + |f| <= |pages|
      && f == pages[n - 1 .. n - 1 + |f|]
      && (forall i :: 0 <= i < |f| ==> f[i] != [] && failing != Some(n + i))
      && (failing == Some(n + |f|) || PageAt(pages, n + |f|) == [])
    decreases |pages| + 1 - n
  {
    if !(failing == Some(n) || PageAt(pages, n) == []) {
      assert PageAt(pages, n) == pages[n - 1];
      FetchedFromShape(pages, failing, n + 1);
      var f, g := FetchedFrom(pages, failing, n), FetchedFrom(pages, failing, n + 1);
      assert f == [pages[n - 1]] + g;
      assert g == pages[n .. n + |g|];
      assert f == pages[n - 1 .. n - 1 + |f|];
      forall i | 0 <= i < |f| ensures f[i] != [] && failing != Some(n + i) {
        if i == 0 {
          assert f[0] == pages[n - 1];
        } else {
          assert f[i] == g[i - 1];
        }
      }
    }
  }

  /** A sync formats a prefix of the upstream pages: every page up to the
      first empty page or the first failing request, and no further. */
  lemma FetchedShape(pages: seq<seq<RawProduct>>, failing: Option<nat>)
    ensures var f := Fetched(pages, failing);
      && |f| <= |pages|
      && f == pages[..|f|]
      && (forall i :: 0 <= i < |f| ==> f[i] != [] && failing != Some(i + 1))
      && (failing == Some(|f| + 1) || PageAt(pages, |f| + 1) == [])
  {
    FetchedFromShape(pages, failing, 1);
    var f := Fetched(pages, failing);
    assert pages[1 - 1 .. 1 - 1 + |f|] == pages[..|f|];
    var g := FetchedFrom(pages, failing, 1);
    assert f == g;
    forall i | 0 <= i < |f| ensures f[i] != [] && failing != Some(i + 1) {
      assert g[i] != [] && failing != Some(1 + i);
    }
  }

  /** Without a failing request and without an empty page, a sync formats every page. */
  lemma FetchedAll(pages: seq<seq<RawProduct>>)
    requires forall i :: 0 <= i < |pages| ==> pages[i] != []
    ensures Fetched(pages, None) == pages
  {
    FetchedShape(pages, None);
  }
}
