/**
 * `fetch_rss`: the normalise-and-deduplicate pass over already fetched and
 * parsed feeds, in both versions of the package. The newer version drops
 * entries without a link; the older one keeps them and never deduplicates
 * an entry whose key is empty.
 *
 * `Fetch` is the specification, a left fold over the feeds and, inside
 * each feed, over its entries; `FetchRss` and `FetchRssLegacy` are the two
 * loops, each proved equal to it.
 */
module RssReader {
  import opened Wrappers
  import opened Timestamps
  import opened Models
  import opened Query

  /** A parsed feed entry; each field may be missing (`None`) or empty. */
  datatype Entry = Entry(
    id: Option<string>,
    guid: Option<string>,
    link: Option<string>,
    title: Option<string>,
    summary: Option<string>,
    description: Option<string>,
    publishedParsed: Option<TimeStruct>,
    updatedParsed: Option<TimeStruct>)

  /**
   * What fetching and parsing one URL gave: a request error (connection
   * failure or HTTP error status), or the parser's output with its
   * `bozo` flag, the feed's title if it has one, and its entries.
   */
  datatype FeedResult = FetchFailed | Parsed(bozo: bool, title: Option<string>, entries: seq<Entry>)

  datatype FeedFetch = FeedFetch(url: string, result: FeedResult)

  /** Which snapshot of `fetch_rss` runs. */
  datatype Version = Current | Legacy

  /** `parsed.feed.get("title", url)`: the title whenever the feed has one, even an empty one. */
  function SourceName(title: Option<string>, url: string): string {
    title.GetOr(url)
  }

  /** `entry.get("id") or entry.get("guid") or entry.get("link")`. */
  function EntryGuid(e: Entry): Option<string> {
    Or(Or(e.id, e.guid), e.link)
  }

  /** `guid or link`. */
  function EntryKey(e: Entry): Option<string> {
    Or(EntryGuid(e), e.link)
  }

  /** The same key read back from a produced item. */
  function ItemKey(item: FeedItem): Option<string> {
    Or(item.guid, item.link)
  }

  /** The dict built for an entry of the feed called `source`. */
  function NormalizeEntry(e: Entry, source: string): FeedItem {
    FeedItem(
      title := e.title,
      link := e.link,
      guid := EntryGuid(e),
      published := ToIso8601(if e.publishedParsed.Some? then e.publishedParsed else e.updatedParsed),
      summary := Or(e.summary, e.description),
      source := Some(source))
  }

  /** The loop's variables: the `items` list and the `seen` set. */
  datatype Batch = Batch(items: seq<FeedItem>, seen: set<string>)

  /** Whether the loop appends `e` given the keys seen so far. */
  predicate Admits(v: Version, seen: set<string>, e: Entry) {
    match v
    case Current => Present(e.link) && EntryKey(e).value !in seen
    case Legacy => !Present(EntryKey(e)) || EntryKey(e).value !in seen
  }

  /** One pass of the inner loop. */
  function StepEntry(v: Version, b: Batch, e: Entry, source: string): Batch {
    if !Admits(v, b.seen, e) then b
    else
      var key := EntryKey(e);
      Batch(b.items + [NormalizeEntry(e, source)], if Present(key) then b.seen + {key.value} else b.seen)
  }

  /** The inner loop over a feed's entries. */
  function StepEntries(v: Version, b: Batch, entries: seq<Entry>, source: string): Batch {
    if entries == [] then b
    else StepEntry(v, StepEntries(v, b, entries[..|entries| - 1], source), entries[|entries| - 1], source)
  }

  /** A feed that was fetched and parsed without the `bozo` flag. */
  predicate FeedOk(f: FeedFetch) {
    f.result.Parsed? && !f.result.bozo
  }

  /** One pass of the outer loop: a failed or malformed feed is skipped. */
  function FeedStep(v: Version, b: Batch, f: FeedFetch): Batch {
    if !FeedOk(f) then b
    else StepEntries(v, b, f.result.entries, SourceName(f.result.title, f.url))
  }

  /** The outer loop over the fetched feeds, from the empty list and set. */
  function Fetch(v: Version, feeds: seq<FeedFetch>): Batch {
    if feeds == [] then Batch([], {})
    else FeedStep(v, Fetch(v, feeds[..|feeds| - 1]), feeds[|feeds| - 1])
  }

  // ---------------------------------------------------------------------
  // The two loops
  // ---------------------------------------------------------------------

  /** The newer `fetch_rss`, on the fetched feeds in URL order. */
  method FetchRss(feeds: seq<FeedFetch>) returns (items: seq<FeedItem>)
    ensures items == Fetch(Current, feeds).items
  {
    items := [];
    var seen: set<string> := {};
    for i := 0 to |feeds|
      invariant Batch(items, seen) == Fetch(Current, feeds[..i])
    {
      assert feeds[..i + 1][..i] == feeds[..i];
      var feed := feeds[i];
      if feed.result.FetchFailed? || feed.result.bozo {
        continue;
      }
      var source := SourceName(feed.result.title, feed.url);
      var entries := feed.result.entries;
      ghost var start := Batch(items, seen);
      for j := 0 to |entries|
        invariant Batch(items, seen) == StepEntries(Current, start, entries[..j], source)
      {
        assert entries[..j + 1][..j] == entries[..j];
        var entry := entries[j];
        var link := entry.link;
        if !Present(link) {
          continue;
        }
        var guid := Or(Or(entry.id, entry.guid), link);
        var key := Or(guid, link);
        if key.value in seen {
          continue;
        }
        seen := seen + {key.value};
        items := items + [NormalizeEntry(entry, source)];
      }
      assert entries[..|entries|] == entries;
    }
    assert feeds[..|feeds|] == feeds;
  }

  /** The older `fetch_rss`: link-less entries are kept, empty keys are never deduplicated. */
  method FetchRssLegacy(feeds: seq<FeedFetch>) returns (items: seq<FeedItem>)
    ensures items == Fetch(Legacy, feeds).items
  {
    items := [];
    var seen: set<string> := {};
    for i := 0 to |feeds|
      invariant Batch(items, seen) == Fetch(Legacy, feeds[..i])
    {
      assert feeds[..i + 1][..i] == feeds[..i];
      var feed := feeds[i];
      if feed.result.FetchFailed? || feed.result.bozo {
        continue;
      }
      var source := SourceName(feed.result.title, feed.url);
      var entries := feed.result.entries;
      ghost var start := Batch(items, seen);
      for j := 0 to |entries|
        invariant Batch(items, seen) == StepEntries(Legacy, start, entries[..j], source)
      {
        assert entries[..j + 1][..j] == entries[..j];
        var entry := entries[j];
        var guid := Or(Or(entry.id, entry.guid), entry.link);
        var link := entry.link;
        var key := Or(guid, link);
        if Present(key) && key.value in seen {
          continue;
        }
        if Present(key) {
          seen := seen + {key.value};
        }
        items := items + [NormalizeEntry(entry, source)];
      }
      assert entries[..|entries|] == entries;
    }
    assert feeds[..|feeds|] == feeds;
  }

  // ---------------------------------------------------------------------
  // What the loops guarantee
  // ---------------------------------------------------------------------

  /** The non-empty keys of the items produced so far. */
  function PresentKeys(items: seq<FeedItem>): set<string> {
    set item | item in items && Present(ItemKey(item)) :: ItemKey(item).value
  }

  /** No two items share a non-empty key. */
  predicate KeysUnique(items: seq<FeedItem>) {
    forall i, j :: 0 <= i < j < |items| && Present(ItemKey(items[i])) ==> ItemKey(items[i]) != ItemKey(items[j])
  }

  /**
   * The invariant of both loops: `seen` holds exactly the non-empty keys of
   * the items produced, those keys are unique, and in the newer version
   * every item has a non-empty link and guid.
   */
  predicate BatchInv(v: Version, b: Batch) {
    && b.seen == PresentKeys(b.items)
    && KeysUnique(b.items)
    && (v == Current ==> forall k :: 0 <= k < |b.items| ==> Present(b.items[k].link) && Present(b.items[k].guid))
  }

  lemma KeyOfNormalized(e: Entry, source: string)
    ensures ItemKey(NormalizeEntry(e, source)) == EntryKey(e)
    ensures Present(e.link) ==> Present(EntryGuid(e)) && EntryKey(e) == EntryGuid(e)
  {
  }

  /**
   * One entry, against the items produced so far: the newer loop appends
   * it exactly when it has a link and its key is not already an item's; the
   * older one exactly when its key is empty or not already an item's.
   * Nothing else ever changes the list.
   */
  lemma StepEntryExactly(v: Version, b: Batch, e: Entry, source: string)
    requires BatchInv(v, b)
    ensures var appended := match v
        case Current => Present(e.link) && EntryKey(e).value !in PresentKeys(b.items)
        case Legacy => !Present(EntryKey(e)) || EntryKey(e).value !in PresentKeys(b.items);
      StepEntry(v, b, e, source).items == if appended then b.items + [NormalizeEntry(e, source)] else b.items
    ensures BatchInv(v, StepEntry(v, b, e, source))
  {
    var key := EntryKey(e);
    var x := NormalizeEntry(e, source);
    KeyOfNormalized(e, source);
    if Admits(v, b.seen, e) {
      var s := b.items + [x];
      assert PresentKeys(s) == PresentKeys(b.items) + (if Present(key) then {key.value} else {}) by {
        assert forall item :: item in s <==> item in b.items || item == x;
      }
      forall i, j | 0 <= i < j < |s| && Present(ItemKey(s[i])) ensures ItemKey(s[i]) != ItemKey(s[j]) {
        if j == |b.items| {
          assert s[i] in b.items;
        }
      }
    }
  }

  lemma {:induction false} StepEntriesInv(v: Version, b: Batch, entries: seq<Entry>, source: string)
    requires BatchInv(v, b)
    ensures BatchInv(v, StepEntries(v, b, entries, source))
  {
    if entries != [] {
      StepEntriesInv(v, b, entries[..|entries| - 1], source);
      StepEntryExactly(v, StepEntries(v, b, entries[..|entries| - 1], source), entries[|entries| - 1], source);
    }
  }

  /** Both loops keep their invariant over all the feeds. */
  lemma {:induction false} FetchInv(v: Version, feeds: seq<FeedFetch>)
    ensures BatchInv(v, Fetch(v, feeds))
  {
    if feeds != [] {
      FetchInv(v, feeds[..|feeds| - 1]);
      var f := feeds[|feeds| - 1];
      if FeedOk(f) {
        StepEntriesInv(v, Fetch(v, feeds[..|feeds| - 1]), f.result.entries, SourceName(f.result.title, f.url));
      }
    }
  }

  /**
   * The newer `fetch_rss`: every returned item has a non-empty link and a
   * non-empty guid, and no two returned items share a guid.
   */
  lemma FetchRssGuidsUnique(feeds: seq<FeedFetch>)
    ensures var items := Fetch(Current, feeds).items;
      && (forall k :: 0 <= k < |items| ==> Present(items[k].link) && Present(items[k].guid))
      && (forall i, j :: 0 <= i < j < |items| ==> items[i].guid != items[j].guid)
  {
    FetchInv(Current, feeds);
    var items := Fetch(Current, feeds).items;
    forall i, j | 0 <= i < j < |items| ensures items[i].guid != items[j].guid {
      assert ItemKey(items[i]) == items[i].guid && ItemKey(items[j]) == items[j].guid;
    }
  }

  /**
   * The older `fetch_rss`: no two returned items share a non-empty key
   * (`guid or link`), while items with an empty key may repeat.
   */
  lemma FetchRssLegacyKeysUnique(feeds: seq<FeedFetch>)
    ensures KeysUnique(Fetch(Legacy, feeds).items)
  {
    FetchInv(Legacy, feeds);
  }

  /** The older loop keeps every entry whose key is empty, however many there are. */
  lemma LegacyKeepsKeyless(b: Batch, entries: seq<Entry>, source: string)
    requires forall e :: e in entries ==> !Present(EntryKey(e))
    ensures StepEntries(Legacy, b, entries, source).items == b.items + seq(|entries|, k requires 0 <= k < |entries| => NormalizeEntry(entries[k], source))
    ensures StepEntries(Legacy, b, entries, source).seen == b.seen
  {
    if entries != [] {
      var init := entries[..|entries| - 1];
      LegacyKeepsKeyless(b, init, source);
      assert forall e :: e in init ==> e in entries;
    }
  }

  /** The newer loop drops every entry without a link. */
  lemma CurrentDropsLinkless(b: Batch, e: Entry, source: string)
    requires !Present(e.link)
    ensures StepEntry(Current, b, e, source) == b
  {
  }

  /** Skipping failed and malformed feeds: the result is that of the good feeds alone. */
  lemma FetchSnoc(v: Version, feeds: seq<FeedFetch>, f: FeedFetch)
    ensures Fetch(v, feeds + [f]) == FeedStep(v, Fetch(v, feeds), f)
  {
    assert (feeds + [f])[..|feeds|] == feeds;
  }

  lemma {:induction false} FetchSkipsBadFeeds(v: Version, feeds: seq<FeedFetch>)
    ensures Fetch(v, feeds) == Fetch(v, Filter(feeds, FeedOk))
  {
    if feeds != [] {
      var init, last := feeds[..|feeds| - 1], feeds[|feeds| - 1];
      var good := Filter(init, FeedOk);
      FetchSkipsBadFeeds(v, init);
      assert feeds == init + [last];
      FetchSnoc(v, init, last);
      assert Fetch(v, feeds) == FeedStep(v, Fetch(v, good), last);
      FilterSnoc(init, last, FeedOk);
      if FeedOk(last) {
        assert Filter(feeds, FeedOk) == good + [last];
        FetchSnoc(v, good, last);
      } else {
        assert Filter(feeds, FeedOk) == good + [];
        assert good + [] == good;
      }
    }
  }

  /**
   * The newer version deduplicates on `id or guid or link`, not on the
   * link: two linked entries with the same link but different ids are
   * both returned.
   */
  lemma SameLinkDifferentIdsKept(e1: Entry, e2: Entry, source: string)
    requires Present(e1.link) && e2.link == e1.link
    requires Present(e1.id) && Present(e2.id) && e1.id != e2.id
    ensures StepEntries(Current, Batch([], {}), [e1, e2], source).items
      == [NormalizeEntry(e1, source), NormalizeEntry(e2, source)]
  {
    var b0 := Batch([], {});
    assert EntryKey(e1) == e1.id && EntryKey(e2) == e2.id;
    assert [e1, e2][..1] == [e1] && [e1][..0] == [];
    assert StepEntries(Current, b0, [], source) == b0;
    var b1 := StepEntries(Current, b0, [e1], source);
    assert b1 == StepEntry(Current, b0, e1, source);
    assert b1 == Batch([NormalizeEntry(e1, source)], {e1.id.value});
  }

  /** The inner loop only ever appends, and its new items all carry the feed's source. */
  lemma {:induction false} StepEntriesAppends(v: Version, b: Batch, entries: seq<Entry>, source: string)
    ensures var r := StepEntries(v, b, entries, source).items;
      && |b.items| <= |r| <= |b.items| + |entries|
      && r[..|b.items|] == b.items
      && (forall k :: |b.items| <= k < |r| ==> r[k].source == Some(source))
      && b.seen <= StepEntries(v, b, entries, source).seen
  {
    if entries != [] {
      StepEntriesAppends(v, b, entries[..|entries| - 1], source);
    }
  }

  /**
   * Output order is feed order: the items of the first feeds are a prefix
   * of the items of all feeds, and every item a good feed adds carries that
   * feed's title, or its URL when the feed has no title.
   */
  lemma FetchFeedOrder(v: Version, feeds: seq<FeedFetch>, f: FeedFetch)
    ensures var before, after := Fetch(v, feeds).items, Fetch(v, feeds + [f]).items;
      && |before| <= |after|
      && after[..|before|] == before
      && (!FeedOk(f) ==> after == before)
      && (forall k :: |before| <= k < |after| ==> after[k].source == Some(SourceName(f.result.title, f.url)))
  {
    assert (feeds + [f])[..|feeds|] == feeds;
    if FeedOk(f) {
      StepEntriesAppends(v, Fetch(v, feeds), f.result.entries, SourceName(f.result.title, f.url));
    }
  }

  /** The set of seen keys only grows over the feeds. */
  lemma {:induction false} FetchSeenGrows(v: Version, feeds: seq<FeedFetch>, n: nat)
    requires n <= |feeds|
    ensures Fetch(v, feeds[..n]).seen <= Fetch(v, feeds).seen
    decreases |feeds| - n
  {
    if n < |feeds| {
      FetchSeenGrows(v, feeds, n + 1);
      var f := feeds[n];
      assert feeds[..n + 1][..n] == feeds[..n];
      if FeedOk(f) {
        StepEntriesAppends(v, Fetch(v, feeds[..n]), f.result.entries, SourceName(f.result.title, f.url));
      }
    } else {
      assert feeds[..n] == feeds;
    }
  }

  /** Every entry the loop looks at with a non-empty key leaves that key among the seen ones. */
  lemma {:induction false} StepEntriesSees(v: Version, b: Batch, entries: seq<Entry>, source: string, e: Entry)
    requires e in entries && Present(EntryKey(e)) && (v == Current ==> Present(e.link))
    ensures EntryKey(e).value in StepEntries(v, b, entries, source).seen
  {
    var init, last := entries[..|entries| - 1], entries[|entries| - 1];
    if e == last {
    } else {
      assert e in init by { assert entries == init + [last]; }
      StepEntriesSees(v, b, init, source, e);
    }
  }

  /**
   * Deduplication only drops what was already returned: for every entry a
   * good feed offers that the loop does not skip outright (newer version:
   * it has a link; both: its key is non-empty), some returned item has the
   * same key. In the newer version that key is the guid.
   */
  lemma FetchRepresentsEntries(v: Version, feeds: seq<FeedFetch>, i: nat, e: Entry)
    requires i < |feeds| && FeedOk(feeds[i]) && e in feeds[i].result.entries
    requires Present(EntryKey(e)) && (v == Current ==> Present(e.link))
    ensures exists item :: item in Fetch(v, feeds).items && ItemKey(item) == EntryKey(e)
  {
    var f := feeds[i];
    StepEntriesSees(v, Fetch(v, feeds[..i]), f.result.entries, SourceName(f.result.title, f.url), e);
    assert feeds[..i + 1][..i] == feeds[..i];
    FetchSeenGrows(v, feeds, i + 1);
    FetchInv(v, feeds);
  }
}
