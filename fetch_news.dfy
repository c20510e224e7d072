/**
 * The RSS ingestion route (`fetchNews`): walk the configured feeds, skip items
 * without a link or whose link is already stored, derive an article from each
 * new item, insert it and count the insertions. A feed that fails is logged and
 * skipped; what it inserted before failing stays.
 *
 * The parser and the database are inputs: each feed's fetch is a `FeedResult`,
 * and the article table is a map from url (its unique key) to row.
 */
module FetchNews {
  import opened Wrappers
  import opened JsText
  import ImageSniff

  /** One entry of a parsed feed; a field the feed omits is `None`. */
  datatype Item = Item(
    title: Option<string>,
    link: Option<string>,
    content: Option<string>,
    contentSnippet: Option<string>,
    enclosureUrl: Option<string>,  // `item.enclosure?.url`
    pubDate: Option<string>)

  /** `new Date(raw)`. Date parsing is not modelled: the value records the text it came from. */
  datatype Date = DateOf(raw: string)

  /** A row of the article table, without the identifiers and timestamps the database generates. */
  datatype Article = Article(
    url: string,
    title: string,
    description: Option<string>,
    imageUrl: Option<string>,
    source: string,
    category: Option<string>,
    publishedAt: Option<Date>)

  datatype FeedConfig = FeedConfig(url: string, source: string)

  /** The feeds the route walks, in order. */
  const FEEDS: seq<FeedConfig> := [
    FeedConfig("https://vnexpress.net/rss/tin-moi-nhat.rss", "VnExpress"),
    FeedConfig("https://vietnamnet.vn/rss/tin-moi-nhat.rss", "VietnamNet"),
    FeedConfig("https://dantri.com.vn/rss/tin-moi-nhat.rss", "DanTri")
  ]

  /** What fetching one feed gives: the parse failed, or its items, together with
      the index of the item whose store lookup throws, if one does. */
  datatype FeedResult = ParseFailed | Parsed(items: seq<Item>, storeFaultAt: Option<nat>)

  /** The image of an item: a non-empty enclosure url, else the first `<img … src="…">`
      of a non-empty content. */
  function ImageUrl(item: Item): (r: Option<string>)
    ensures Truthy(item.enclosureUrl) ==> r == item.enclosureUrl
    ensures r.Some? ==> r.value != ""
    ensures r.None? <==>
      !Truthy(item.enclosureUrl) &&
      (!Truthy(item.content) || forall t: nat, s: nat :: !ImageSniff.MatchAt(item.content.value, t, s))
    ensures r.Some? && !Truthy(item.enclosureUrl) ==>
      Truthy(item.content) &&
      exists t: nat, s: nat :: ImageSniff.Selected(item.content.value, t, s) &&
                               r.value == ImageSniff.Capture(item.content.value, s)
  {
    if Truthy(item.enclosureUrl) then item.enclosureUrl
    else if Truthy(item.content) then
      var found := ImageSniff.FirstImgSrc(item.content.value);
      if found.Some? then ImageSniff.FirstImgSrcShape(item.content.value); found else None
    else None
  }

  /** The row inserted for a new item of the feed labelled `source`. */
  function NewArticle(item: Item, source: string): (a: Article)
    requires Truthy(item.link)
    ensures a.url == item.link.value && a.source == source && a.category == None
    ensures a.title == if Truthy(item.title) then item.title.value else ""
    ensures Truthy(item.contentSnippet) ==> a.description == item.contentSnippet
    ensures !Truthy(item.contentSnippet) && Truthy(item.content) ==> a.description == item.content
    ensures a.description.None? <==> !Truthy(item.contentSnippet) && !Truthy(item.content)
    ensures a.description.Some? ==> a.description.value != ""
    ensures a.imageUrl == ImageUrl(item)
    ensures a.publishedAt.Some? <==> Truthy(item.pubDate)
  {
    Article(
      url := item.link.value,
      title := if Truthy(item.title) then item.title.value else "",
      description := if Truthy(Or(item.contentSnippet, item.content)) then Or(item.contentSnippet, item.content) else None,
      imageUrl := ImageUrl(item),
      source := source,
      category := None,
      publishedAt := if Truthy(item.pubDate) then Some(DateOf(item.pubDate.value)) else None)
  }

  /** `b` holds every row of `a`, unchanged. */
  ghost predicate Grows(a: map<string, Article>, b: map<string, Article>) {
    forall u {:trigger u in a} :: u in a ==> u in b && b[u] == a[u]
  }

  /** Every row is stored under its own url. */
  ghost predicate Keyed(rows: map<string, Article>) {
    forall u {:trigger u in rows} :: u in rows ==> rows[u].url == u
  }

  /** The row `a` for url `u` was derived from item `i` of `items`. */
  ghost predicate DerivedFrom(a: Article, u: string, items: seq<Item>, i: int, source: string) {
    0 <= i < |items| && items[i].link == Some(u) && u != "" && a == NewArticle(items[i], source)
  }

  /** The state of a run: the table, the running count, and whether the current
      feed threw. */
  datatype Progress = Progress(rows: map<string, Article>, count: nat, failed: bool)

  /** Does the store lookup for item `i` throw? Only an item with a link reaches the store. */
  predicate FaultsAt(items: seq<Item>, fault: Option<nat>, i: nat) {
    fault == Some(i) && i < |items| && Truthy(items[i].link)
  }

  /** One item of a feed: skip it without a link; abandon the feed if the store
      throws; skip it if its link is stored; else insert it and count it. */
  function Step(p: Progress, source: string, item: Item, faults: bool): (r: Progress)
    ensures Grows(p.rows, r.rows)
    ensures r.count == p.count + |r.rows| - |p.rows|
    ensures p.failed ==> r == p
  {
    if p.failed || !Truthy(item.link) then p
    else if faults then p.(failed := true)
    else if item.link.value in p.rows then p
    else Progress(p.rows[item.link.value := NewArticle(item, source)], p.count + 1, false)
  }

  /** The state after the first `n` items of one feed. */
  function ItemsPrefix(p: Progress, source: string, items: seq<Item>, fault: Option<nat>, n: nat): (r: Progress)
    requires n <= |items|
    ensures Grows(p.rows, r.rows)
    ensures r.count == p.count + |r.rows| - |p.rows|
    ensures p.failed ==> r == p
    decreases n
  {
    if n == 0 then p
    else Step(ItemsPrefix(p, source, items, fault, n - 1), source, items[n - 1], FaultsAt(items, fault, n - 1))
  }

  /** One feed: its failure flag is cleared on entry (the previous feed's exception
      was caught); a parse failure contributes nothing. */
  function RunFeed(p: Progress, feed: FeedConfig, result: FeedResult): (r: Progress)
    ensures Grows(p.rows, r.rows)
    ensures r.count == p.count + |r.rows| - |p.rows|
  {
    var start := p.(failed := false);
    match result
    case ParseFailed => start.(failed := true)
    case Parsed(items, fault) => ItemsPrefix(start, feed.source, items, fault, |items|)
  }

  /** The state after the first `k` feeds. */
  function FeedsPrefix(p: Progress, feeds: seq<FeedConfig>, results: seq<FeedResult>, k: nat): (r: Progress)
    requires |results| == |feeds| && k <= |feeds|
    ensures Grows(p.rows, r.rows)
    ensures r.count == p.count + |r.rows| - |p.rows|
    decreases k
  {
    if k == 0 then p
    else RunFeed(FeedsPrefix(p, feeds, results, k - 1), feeds[k - 1], results[k - 1])
  }

  datatype Tally = Tally(rows: map<string, Article>, inserted: nat)

  /** A whole run of `fetchNews` over `feeds` starting from the table `rows`: the
      table afterwards and the count it returns. Nothing stored is changed, the
      count is the number of urls added, and each added row is the derivation of
      an item carrying that url. */
  function Ingest(rows: map<string, Article>, feeds: seq<FeedConfig>, results: seq<FeedResult>): (t: Tally)
    requires |results| == |feeds|
    ensures Grows(rows, t.rows)
    ensures rows.Keys <= t.rows.Keys && t.inserted == |t.rows.Keys - rows.Keys|
  {
    var p := FeedsPrefix(Progress(rows, 0, false), feeds, results, |feeds|);
    assert feeds[..|feeds|] == feeds && results[..|results|] == results;
    assert rows.Keys <= p.rows.Keys;
    assert |p.rows.Keys - rows.Keys| == |p.rows.Keys| - |rows.Keys|;
    Tally(p.rows, p.count)
  }

  /** The article table. */
  class ArticleStore {
    var rows: map<string, Article>

    ghost predicate Valid()
      reads this
    {
      Keyed(rows)
    }

    constructor ()
      ensures Valid() && rows == map[]
    {
      rows := map[];
    }

    /** `fetchNews()`: the loop over `FEEDS`, each fetched as `results` says. */
    method FetchNews(results: seq<FeedResult>) returns (insertedCount: nat)
      requires Valid()
      requires |results| == |FEEDS|
      modifies this
      ensures Valid()
      ensures Tally(rows, insertedCount) == Ingest(old(rows), FEEDS, results)
    {
      insertedCount := 0;
      for k := 0 to |FEEDS|
        invariant Valid()
        invariant var p := FeedsPrefix(Progress(old(rows), 0, false), FEEDS, results, k);
          p.rows == rows && p.count == insertedCount
      {
        match results[k]
        case ParseFailed =>
          // the exception is caught and the next feed is fetched
        case Parsed(items, fault) =>
          insertedCount := IngestItems(FEEDS[k].source, items, fault, insertedCount);
      }
      assert FEEDS[..|FEEDS|] == FEEDS && results[..|results|] == results;
    }

    /** The body of the `try` for one parsed feed: the loop over its items, which an
        exception from the store ends early. */
    method IngestItems(source: string, items: seq<Item>, fault: Option<nat>, counted: nat) returns (insertedCount: nat)
      requires Valid()
      modifies this
      ensures Valid()
      ensures var r := ItemsPrefix(Progress(old(rows), counted, false), source, items, fault, |items|);
        r.rows == rows && r.count == insertedCount
    {
      insertedCount := counted;
      var failed := false;
      var i := 0;
      while i < |items| && !failed
        invariant i <= |items|
        invariant Valid()
        invariant ItemsPrefix(Progress(old(rows), counted, false), source, items, fault, i)
          == Progress(rows, insertedCount, failed)
      {
        var item := items[i];
        assert ItemsPrefix(Progress(old(rows), counted, false), source, items, fault, i + 1)
          == Step(Progress(rows, insertedCount, failed), source, item, FaultsAt(items, fault, i));
        if Truthy(item.link) {
          if fault == Some(i) {
            failed := true;  // the lookup throws: the rest of this feed is abandoned
          } else if item.link.value !in rows {
            rows := rows[item.link.value := NewArticle(item, source)];
            insertedCount := insertedCount + 1;
          }
        }
        i := i + 1;
      }
      if failed {
        FailedStays(Progress(old(rows), counted, false), source, items, fault, i, |items|);
      }
    }
  }

  /** Once a feed has thrown, its remaining items change nothing. */
  lemma {:induction false} FailedStays(p: Progress, source: string, items: seq<Item>, fault: Option<nat>, i: nat, n: nat)
    requires i <= n <= |items|
    requires ItemsPrefix(p, source, items, fault, i).failed
    ensures ItemsPrefix(p, source, items, fault, n) == ItemsPrefix(p, source, items, fault, i)
    decreases n
  {
    if n > i {
      FailedStays(p, source, items, fault, i, n - 1);
    }
  }
  /** Every row a feed adds was derived from one of its first `n` items. */
  lemma {:induction false} ItemsProvenance(p: Progress, source: string, items: seq<Item>, fault: Option<nat>, n: nat)
    requires n <= |items|
    ensures var r := ItemsPrefix(p, source, items, fault, n);
      forall u :: u in r.rows && u !in p.rows ==> exists i :: i < n && DerivedFrom(r.rows[u], u, items, i, source)
    decreases n
  {
    if n > 0 {
      ItemsProvenance(p, source, items, fault, n - 1);
      var q := ItemsPrefix(p, source, items, fault, n - 1);
      var r := ItemsPrefix(p, source, items, fault, n);
      forall u | u in r.rows && u !in p.rows
        ensures exists i :: i < n && DerivedFrom(r.rows[u], u, items, i, source)
      {
        if u in q.rows {
          var i :| i < n - 1 && DerivedFrom(q.rows[u], u, items, i, source);
          assert DerivedFrom(r.rows[u], u, items, i, source);
        } else {
          assert DerivedFrom(r.rows[u], u, items, n - 1, source);
        }
      }
    }
  }

  /** The row `a` for url `u` was derived from an item of one of the first `k` feeds. */
  ghost predicate FromFeeds(a: Article, u: string, feeds: seq<FeedConfig>, results: seq<FeedResult>, k: nat) {
    exists j, i :: 0 <= j < k && j < |feeds| && j < |results| && results[j].Parsed? &&
      DerivedFrom(a, u, results[j].items, i, feeds[j].source)
  }

  /** Every row a run adds was derived from an item, carrying that url, of one of
      the first `k` feeds, labelled with that feed's source. */
  lemma {:induction false} FeedsProvenance(p: Progress, feeds: seq<FeedConfig>, results: seq<FeedResult>, k: nat)
    requires |results| == |feeds| && k <= |feeds|
    ensures var r := FeedsPrefix(p, feeds, results, k);
      forall u :: u in r.rows && u !in p.rows ==> FromFeeds(r.rows[u], u, feeds, results, k)
    decreases k
  {
    if k > 0 {
      FeedsProvenance(p, feeds, results, k - 1);
      var q := FeedsPrefix(p, feeds, results, k - 1);
      var r := FeedsPrefix(p, feeds, results, k);
      forall u | u in r.rows && u !in p.rows
        ensures FromFeeds(r.rows[u], u, feeds, results, k)
      {
        if u in q.rows {
          assert r.rows[u] == q.rows[u];
          var j, i :| 0 <= j < k - 1 && j < |feeds| && j < |results| && results[j].Parsed? &&
            DerivedFrom(q.rows[u], u, results[j].items, i, feeds[j].source);
        } else {
          var start := q.(failed := false);
          var items := results[k - 1].items;
          ItemsProvenance(start, feeds[k - 1].source, items, results[k - 1].storeFaultAt, |items|);
          var i :| i < |items| && DerivedFrom(r.rows[u], u, items, i, feeds[k - 1].source);
        }
      }
    }
  }

  /** Every row a whole run adds is the derivation of an item of some feed that
      carries its url, so every row stays stored under its own url. */
  lemma IngestProvenance(rows: map<string, Article>, feeds: seq<FeedConfig>, results: seq<FeedResult>)
    requires |results| == |feeds|
    ensures var t := Ingest(rows, feeds, results);
      && (forall u :: u in t.rows && u !in rows ==> FromFeeds(t.rows[u], u, feeds, results, |feeds|))
      && (Keyed(rows) ==> Keyed(t.rows))
  {
    FeedsProvenance(Progress(rows, 0, false), feeds, results, |feeds|);
  }

  /** Item `i` is processed: the feed's store fault, if it fires at all, comes later. */
  predicate Reached(items: seq<Item>, fault: Option<nat>, i: nat) {
    !(fault.Some? && FaultsAt(items, fault, fault.value) && fault.value <= i)
  }

  /** After the first `n` items every processed item's link is stored, and the
      feed has thrown exactly when its fault fired among those items. */
  lemma {:induction false} ItemsStoreReached(p: Progress, source: string, items: seq<Item>, fault: Option<nat>, n: nat)
    requires !p.failed && n <= |items|
    ensures var r := ItemsPrefix(p, source, items, fault, n);
      && (r.failed <==> fault.Some? && fault.value < n && FaultsAt(items, fault, fault.value))
      && forall i :: 0 <= i < n && Reached(items, fault, i) && Truthy(items[i].link) ==> items[i].link.value in r.rows
    decreases n
  {
    if n > 0 {
      ItemsStoreReached(p, source, items, fault, n - 1);
    }
  }

  /** A feed whose processed links are all stored changes nothing. */
  lemma {:induction false} ItemsNoop(p: Progress, source: string, items: seq<Item>, fault: Option<nat>, n: nat)
    requires !p.failed && n <= |items|
    requires forall i :: 0 <= i < |items| && Reached(items, fault, i) && Truthy(items[i].link) ==> items[i].link.value in p.rows
    ensures var r := ItemsPrefix(p, source, items, fault, n);
      r.rows == p.rows && r.count == p.count
    decreases n
  {
    if n > 0 {
      ItemsNoop(p, source, items, fault, n - 1);
      ItemsStoreReached(p, source, items, fault, n - 1);
    }
  }

  /** Every link of `result` that a run processes is a key of `rows`. */
  ghost predicate FeedStored(rows: map<string, Article>, result: FeedResult) {
    result.Parsed? ==>
      forall i :: 0 <= i < |result.items| && Reached(result.items, result.storeFaultAt, i) && Truthy(result.items[i].link)
        ==> result.items[i].link.value in rows
  }

  lemma {:induction false} FeedsStoreReached(p: Progress, feeds: seq<FeedConfig>, results: seq<FeedResult>, k: nat)
    requires |results| == |feeds| && k <= |feeds|
    ensures forall j :: 0 <= j < k ==> FeedStored(FeedsPrefix(p, feeds, results, k).rows, results[j])
    decreases k
  {
    if k > 0 {
      FeedsStoreReached(p, feeds, results, k - 1);
      var q := FeedsPrefix(p, feeds, results, k - 1);
      var r := FeedsPrefix(p, feeds, results, k);
      if results[k - 1].Parsed? {
        var items := results[k - 1].items;
        ItemsStoreReached(q.(failed := false), feeds[k - 1].source, items, results[k - 1].storeFaultAt, |items|);
      }
      forall j | 0 <= j < k ensures FeedStored(r.rows, results[j]) {
        if j < k - 1 {
          assert FeedStored(q.rows, results[j]);
        }
      }
    }
  }

  lemma {:induction false} FeedsNoop(p: Progress, feeds: seq<FeedConfig>, results: seq<FeedResult>, k: nat)
    requires |results| == |feeds| && k <= |feeds|
    requires forall j :: 0 <= j < |feeds| ==> FeedStored(p.rows, results[j])
    ensures var r := FeedsPrefix(p, feeds, results, k);
      r.rows == p.rows && r.count == p.count
    decreases k
  {
    if k > 0 {
      FeedsNoop(p, feeds, results, k - 1);
      var q := FeedsPrefix(p, feeds, results, k - 1);
      if results[k - 1].Parsed? {
        var items := results[k - 1].items;
        assert FeedStored(p.rows, results[k - 1]);
        ItemsNoop(q.(failed := false), feeds[k - 1].source, items, results[k - 1].storeFaultAt, |items|);
      }
    }
  }

  /** Re-running ingestion over the same feed contents inserts nothing and leaves
      the table as it is. */
  lemma RerunInsertsNothing(rows: map<string, Article>, feeds: seq<FeedConfig>, results: seq<FeedResult>)
    requires |results| == |feeds|
    ensures var once := Ingest(rows, feeds, results);
      Ingest(once.rows, feeds, results) == Tally(once.rows, 0)
  {
    var once := Ingest(rows, feeds, results);
    FeedsStoreReached(Progress(rows, 0, false), feeds, results, |feeds|);
    FeedsNoop(Progress(once.rows, 0, false), feeds, results, |feeds|);
  }

  /** A run reads only the first `n` feeds to reach the state after them. */
  lemma {:induction false} FeedsPrefixLocal(p: Progress, feeds: seq<FeedConfig>, results: seq<FeedResult>,
                                            feeds': seq<FeedConfig>, results': seq<FeedResult>, n: nat)
    requires |results| == |feeds| && |results'| == |feeds'| && n <= |feeds| && n <= |feeds'|
    requires feeds[..n] == feeds'[..n] && results[..n] == results'[..n]
    ensures FeedsPrefix(p, feeds, results, n) == FeedsPrefix(p, feeds', results', n)
    decreases n
  {
    if n > 0 {
      assert feeds[..n - 1] == feeds[..n][..n - 1] && feeds'[..n - 1] == feeds'[..n][..n - 1];
      assert results[..n - 1] == results[..n][..n - 1] && results'[..n - 1] == results'[..n][..n - 1];
      FeedsPrefixLocal(p, feeds, results, feeds', results', n - 1);
      assert feeds[n - 1] == feeds[..n][n - 1] && feeds'[n - 1] == feeds'[..n][n - 1];
      assert results[n - 1] == results[..n][n - 1] && results'[n - 1] == results'[..n][n - 1];
    }
  }

  /** With feed `k` removed, the state after the feeds past it is the same (up to
      the failure flag). */
  lemma {:induction false} FeedsPrefixSkip(p: Progress, feeds: seq<FeedConfig>, results: seq<FeedResult>, k: nat, n: nat)
    requires |results| == |feeds| && k < n <= |feeds| && results[k] == ParseFailed
    ensures var r := FeedsPrefix(p, feeds, results, n);
      var r' := FeedsPrefix(p, feeds[..k] + feeds[k + 1..], results[..k] + results[k + 1..], n - 1);
      r.rows == r'.rows && r.count == r'.count
    decreases n
  {
    var feeds', results' := feeds[..k] + feeds[k + 1..], results[..k] + results[k + 1..];
    if n == k + 1 {
      assert feeds[..k] == feeds'[..k] && results[..k] == results'[..k];
      FeedsPrefixLocal(p, feeds, results, feeds', results', k);
    } else {
      FeedsPrefixSkip(p, feeds, results, k, n - 1);
      assert feeds'[n - 2] == feeds[n - 1] && results'[n - 2] == results[n - 1];
    }
  }

  /** A feed whose parse fails contributes nothing and does not stop the others:
      the run is the run over the remaining feeds. */
  lemma FailedFeedSkipped(rows: map<string, Article>, feeds: seq<FeedConfig>, results: seq<FeedResult>, k: nat)
    requires |results| == |feeds| && k < |feeds| && results[k] == ParseFailed
    ensures Ingest(rows, feeds, results) == Ingest(rows, feeds[..k] + feeds[k + 1..], results[..k] + results[k + 1..])
  {
    var feeds', results' := feeds[..k] + feeds[k + 1..], results[..k] + results[k + 1..];
    assert |feeds'| == |results'| == |feeds| - 1;
    var r := FeedsPrefix(Progress(rows, 0, false), feeds, results, |feeds|);
    var r' := FeedsPrefix(Progress(rows, 0, false), feeds', results', |feeds'|);
    assert r.rows == r'.rows && r.count == r'.count by {
      FeedsPrefixSkip(Progress(rows, 0, false), feeds, results, k, |feeds|);
    }
  }

  /** Up to the fault, a faulting feed behaves like the same feed without one. */
  lemma {:induction false} BeforeFault(p: Progress, source: string, items: seq<Item>, f: nat, n: nat)
    requires n <= f < |items|
    ensures ItemsPrefix(p, source, items, Some(f), n) == ItemsPrefix(p, source, items[..f], None, n)
    decreases n
  {
    if n > 0 {
      BeforeFault(p, source, items, f, n - 1);
      assert items[..f][n - 1] == items[n - 1];
    }
  }

  /** A store exception at item `f` keeps, and keeps counted, exactly what the
      items before it inserted. */
  lemma FaultKeepsPrefix(p: Progress, source: string, items: seq<Item>, f: nat)
    requires !p.failed && f < |items| && Truthy(items[f].link)
    ensures var r := ItemsPrefix(p, source, items, Some(f), |items|);
      var q := ItemsPrefix(p, source, items[..f], None, f);
      r.rows == q.rows && r.count == q.count && r.failed
  {
    BeforeFault(p, source, items, f, f);
    ItemsStoreReached(p, source, items, Some(f), f);
    FailedStays(p, source, items, Some(f), f + 1, |items|);
  }

  /** When a link first appears at item `i` and is not yet stored, the row it
      ends up with is derived from item `i`: later items with the same link see
      the insert and are skipped. */
  lemma FirstOccurrenceWins(p: Progress, source: string, items: seq<Item>, fault: Option<nat>, i: nat)
    requires !p.failed && i < |items| && Reached(items, fault, i) && Truthy(items[i].link)
    requires items[i].link.value !in p.rows
    requires forall j :: 0 <= j < i ==> items[j].link != items[i].link
    requires !FaultsAt(items, fault, i)
    ensures var r := ItemsPrefix(p, source, items, fault, |items|);
      items[i].link.value in r.rows && r.rows[items[i].link.value] == NewArticle(items[i], source)
  {
    var u := items[i].link.value;
    ItemsProvenance(p, source, items, fault, i);
    ItemsStoreReached(p, source, items, fault, i);
    var q := ItemsPrefix(p, source, items, fault, i);
    assert u !in q.rows;
    var q' := ItemsPrefix(p, source, items, fault, i + 1);
    assert q'.rows[u] == NewArticle(items[i], source);
    GrowsLater(p, source, items, fault, i + 1, |items|);
  }

  lemma {:induction false} GrowsLater(p: Progress, source: string, items: seq<Item>, fault: Option<nat>, m: nat, n: nat)
    requires m <= n <= |items|
    ensures Grows(ItemsPrefix(p, source, items, fault, m).rows, ItemsPrefix(p, source, items, fault, n).rows)
    decreases n
  {
    if n > m {
      GrowsLater(p, source, items, fault, m, n - 1);
    }
  }
}
