/**
 * The article store: `upsert_articles`, the three read queries and
 * `save_ai_summary`, over an in-memory image of the `articles` and
 * `article_summaries` tables.
 *
 * `upsert_articles` is specified by `IngestPrefix`, the state of its loop
 * after the first `n` items, and by `Upsert`, the whole call including the
 * commit; the class method runs the loop and is proved equal to them.
 */
module Repository {
  import opened Wrappers
  import opened Timestamps
  import opened Models
  import opened Query

  const UnknownSource: string := "unknown"

  // ---------------------------------------------------------------------
  // upsert_articles: the loop
  // ---------------------------------------------------------------------

  /**
   * The row built for an item that is not a duplicate: placeholders for a
   * missing or empty title and source, `published` parsed from its text,
   * link, guid and summary taken as given, `created_at` the commit time.
   */
  function NewArticle(item: FeedItem, id: int, now: DateTime): (a: Article)
    requires Present(item.link)
    ensures a.id == id && a.link == item.link.value && a.guid == item.guid && a.summary == item.summary
    ensures a.title == (if Present(item.title) then item.title.value else UntitledTitle)
    ensures a.source == (if Present(item.source) then item.source.value else UnknownSource)
    ensures a.title != "" && a.source != ""
    ensures a.published == ParseDateTime(item.published) && a.createdAt == now
  {
    Article(
      id := id,
      title := Or(item.title, Some(UntitledTitle)).value,
      link := item.link.value,
      guid := item.guid,
      published := ParseDateTime(item.published),
      summary := item.summary,
      source := Or(item.source, Some(UnknownSource)).value,
      createdAt := now)
  }

  /** The loop's variables: `seen_links`, `seen_guids`, the rows added to the session, the two counters. */
  datatype Pending = Pending(
    seenLinks: set<string>,
    seenGuids: set<string>,
    added: seq<Article>,
    newCount: nat,
    duplicateCount: nat)

  /** The batch's truthy links (the `links` list of the source). */
  function BatchLinks(batch: seq<FeedItem>): set<string> {
    set item | item in batch && Present(item.link) :: item.link.value
  }

  /** The batch's truthy guids (the `guids` list of the source). */
  function BatchGuids(batch: seq<FeedItem>): set<string> {
    set item | item in batch && Present(item.guid) :: item.guid.value
  }

  /** Before the loop: the stored links and guids the batch mentions. */
  function Preload(stored: seq<Article>, batch: seq<FeedItem>): Pending {
    Pending(Links(stored) * BatchLinks(batch), Guids(stored) * BatchGuids(batch), [], 0, 0)
  }

  /** One iteration of the loop on `item`. */
  function Ingest(p: Pending, item: FeedItem, firstId: int, now: DateTime): Pending {
    if !Present(item.link) then p
    else if item.link.value in p.seenLinks || (Present(item.guid) && item.guid.value in p.seenGuids) then
      p.(duplicateCount := p.duplicateCount + 1)
    else
      Pending(
        p.seenLinks + {item.link.value},
        if Present(item.guid) then p.seenGuids + {item.guid.value} else p.seenGuids,
        p.added + [NewArticle(item, firstId + p.newCount, now)],
        p.newCount + 1,
        p.duplicateCount)
  }

  /** The loop's state after the first `n` items of the batch. */
  function IngestPrefix(stored: seq<Article>, batch: seq<FeedItem>, n: nat, firstId: int, now: DateTime): Pending
    requires n <= |batch|
  {
    if n == 0 then Preload(stored, batch)
    else Ingest(IngestPrefix(stored, batch, n - 1, firstId, now), batch[n - 1], firstId, now)
  }

  /** How many items have a truthy link. */
  function CountLinked(items: seq<FeedItem>): nat {
    if items == [] then 0
    else CountLinked(items[..|items| - 1]) + (if Present(items[|items| - 1].link) then 1 else 0)
  }

  /**
   * The independent reading of "duplicate": the item's link is already a
   * row of `arts`, or its truthy guid is.
   */
  predicate Known(arts: seq<Article>, item: FeedItem)
    requires Present(item.link)
  {
    item.link.value in Links(arts) || (Present(item.guid) && item.guid.value in Guids(arts))
  }

  /** Every guid value (NULL included) some batch item carries. */
  function BatchGuidValues(batch: seq<FeedItem>): set<Option<string>> {
    set item | item in batch :: item.guid
  }

  /** The loop invariant, stated against the table rather than the loop's own sets. */
  ghost predicate Tracks(stored: seq<Article>, batch: seq<FeedItem>, p: Pending, firstId: int) {
    && SeenMatches(stored, batch, p)
    && |p.added| == p.newCount
    && RowsFit(stored, batch, p.added, firstId)
  }

  /** The loop's seen sets are the table's links and truthy guids that the batch mentions, plus those added. */
  ghost predicate SeenMatches(stored: seq<Article>, batch: seq<FeedItem>, p: Pending) {
    && p.seenLinks == Links(stored) * BatchLinks(batch) + Links(p.added)
    && p.seenGuids == Guids(stored) * BatchGuids(batch) + PresentGuids(p.added)
  }

  /** The added rows carry ascending ids from `firstId`, filled fields, and keep the table unique. */
  ghost predicate RowsFit(stored: seq<Article>, batch: seq<FeedItem>, added: seq<Article>, firstId: int) {
    && (forall k :: 0 <= k < |added| ==> added[k].id == firstId + k)
    && (forall k :: 0 <= k < |added| ==>
          added[k].title != "" && added[k].source != "" && added[k].guid in BatchGuidValues(batch))
    && LinksUnique(stored + added)
    && PresentGuidsUnique(stored + added)
  }

  lemma LinksOfAppend(a: seq<Article>, b: seq<Article>)
    ensures Links(a + b) == Links(a) + Links(b)
    ensures Guids(a + b) == Guids(a) + Guids(b)
    ensures PresentGuids(a + b) == PresentGuids(a) + PresentGuids(b)
  {
    assert forall x :: x in a + b <==> x in a || x in b;
  }

  /** Adding a row whose link and truthy guid are new keeps both uniqueness properties. */
  lemma AppendFresh(arts: seq<Article>, x: Article)
    requires LinksUnique(arts) && PresentGuidsUnique(arts)
    requires x.link !in Links(arts)
    requires Present(x.guid) ==> x.guid.value !in PresentGuids(arts)
    ensures LinksUnique(arts + [x]) && PresentGuidsUnique(arts + [x])
  {
    var s := arts + [x];
    forall i, j | 0 <= i < j < |s| ensures s[i].link != s[j].link {
      if j == |arts| { assert s[i] in arts; }
    }
    forall i, j | 0 <= i < j < |s| && Present(s[i].guid) ensures s[i].guid != s[j].guid {
      if j == |arts| { assert s[i] in arts; }
    }
  }

  /** The first iteration starts from the invariant. */
  lemma PreloadTracks(stored: seq<Article>, batch: seq<FeedItem>, firstId: int)
    requires TableConstraints(stored)
    ensures Tracks(stored, batch, Preload(stored, batch), firstId)
  {
    assert stored + [] == stored;
  }

  /** The seen sets after storing `x`: the loop's updates match the table's new links and guids. */
  lemma SeenAfterAppend(stored: seq<Article>, batch: seq<FeedItem>, p: Pending, x: Article)
    requires p.seenLinks == Links(stored) * BatchLinks(batch) + Links(p.added)
    requires p.seenGuids == Guids(stored) * BatchGuids(batch) + PresentGuids(p.added)
    ensures p.seenLinks + {x.link} == Links(stored) * BatchLinks(batch) + Links(p.added + [x])
    ensures (if Present(x.guid) then p.seenGuids + {x.guid.value} else p.seenGuids)
      == Guids(stored) * BatchGuids(batch) + PresentGuids(p.added + [x])
  {
    LinksOfAppend(p.added, [x]);
    assert Links([x]) == {x.link};
    assert PresentGuids([x]) == if Present(x.guid) then {x.guid.value} else {};
  }

  /** Storing a row whose link and truthy guid are not among the seen ones keeps the table unique. */
  lemma UniqueAfterAppend(stored: seq<Article>, batch: seq<FeedItem>, p: Pending, x: Article)
    requires p.seenLinks == Links(stored) * BatchLinks(batch) + Links(p.added)
    requires p.seenGuids == Guids(stored) * BatchGuids(batch) + PresentGuids(p.added)
    requires LinksUnique(stored + p.added) && PresentGuidsUnique(stored + p.added)
    requires x.link in BatchLinks(batch) && x.link !in p.seenLinks
    requires Present(x.guid) ==> x.guid.value in BatchGuids(batch) && x.guid.value !in p.seenGuids
    ensures LinksUnique(stored + (p.added + [x])) && PresentGuidsUnique(stored + (p.added + [x]))
  {
    LinksOfAppend(stored, p.added);
    assert PresentGuids(stored) <= Guids(stored);
    AppendFresh(stored + p.added, x);
    assert stored + (p.added + [x]) == stored + p.added + [x];
  }

  /** One iteration keeps the invariant, in the case where the item is stored. */
  lemma IngestNewTracks(stored: seq<Article>, batch: seq<FeedItem>, p: Pending, item: FeedItem, firstId: int, now: DateTime)
    requires Tracks(stored, batch, p, firstId)
    requires item in batch && Present(item.link)
    requires item.link.value !in p.seenLinks && !(Present(item.guid) && item.guid.value in p.seenGuids)
    ensures Tracks(stored, batch, Ingest(p, item, firstId, now), firstId)
  {
    var x := NewArticle(item, firstId + p.newCount, now);
    var q := Ingest(p, item, firstId, now);
    assert q == Pending(
      p.seenLinks + {x.link},
      if Present(x.guid) then p.seenGuids + {x.guid.value} else p.seenGuids,
      p.added + [x], p.newCount + 1, p.duplicateCount);
    SeenAfterAppend(stored, batch, p, x);
    assert SeenMatches(stored, batch, q);
    NewRowFits(stored, batch, p, item, firstId, now);
  }

  /** The row stored for a fresh item keeps the added rows fitting the table. */
  lemma NewRowFits(stored: seq<Article>, batch: seq<FeedItem>, p: Pending, item: FeedItem, firstId: int, now: DateTime)
    requires Tracks(stored, batch, p, firstId)
    requires item in batch && Present(item.link)
    requires item.link.value !in p.seenLinks && !(Present(item.guid) && item.guid.value in p.seenGuids)
    ensures RowsFit(stored, batch, p.added + [NewArticle(item, firstId + p.newCount, now)], firstId)
  {
    var x := NewArticle(item, firstId + p.newCount, now);
    assert item.link.value in BatchLinks(batch);
    assert item.guid in BatchGuidValues(batch);
    assert Present(item.guid) ==> item.guid.value in BatchGuids(batch);
    UniqueAfterAppend(stored, batch, p, x);
    RowsAfterAppend(batch, p.added, x, firstId);
  }

  /** The rows added so far keep ascending ids and their field facts when one more is appended. */
  lemma RowsAfterAppend(batch: seq<FeedItem>, added: seq<Article>, x: Article, firstId: int)
    requires forall k :: 0 <= k < |added| ==> added[k].id == firstId + k
    requires forall k :: 0 <= k < |added| ==>
      added[k].title != "" && added[k].source != "" && added[k].guid in BatchGuidValues(batch)
    requires x.id == firstId + |added| && x.title != "" && x.source != "" && x.guid in BatchGuidValues(batch)
    ensures forall k :: 0 <= k < |added + [x]| ==> (added + [x])[k].id == firstId + k
    ensures forall k :: 0 <= k < |added + [x]| ==>
      (added + [x])[k].title != "" && (added + [x])[k].source != "" && (added + [x])[k].guid in BatchGuidValues(batch)
  {
  }

  /** One iteration keeps the invariant. */
  lemma IngestStepTracks(stored: seq<Article>, batch: seq<FeedItem>, p: Pending, item: FeedItem, firstId: int, now: DateTime)
    requires Tracks(stored, batch, p, firstId)
    requires item in batch
    ensures Tracks(stored, batch, Ingest(p, item, firstId, now), firstId)
  {
    if Present(item.link) && !(item.link.value in p.seenLinks || (Present(item.guid) && item.guid.value in p.seenGuids)) {
      IngestNewTracks(stored, batch, p, item, firstId, now);
    }
  }

  /** The loop keeps its invariant from the first item to the last. */
  lemma {:induction false} IngestTracks(stored: seq<Article>, batch: seq<FeedItem>, n: nat, firstId: int, now: DateTime)
    requires TableConstraints(stored)
    requires n <= |batch|
    ensures Tracks(stored, batch, IngestPrefix(stored, batch, n, firstId, now), firstId)
  {
    if n == 0 {
      PreloadTracks(stored, batch, firstId);
    } else {
      IngestTracks(stored, batch, n - 1, firstId, now);
      IngestStepTracks(stored, batch, IngestPrefix(stored, batch, n - 1, firstId, now), batch[n - 1], firstId, now);
    }
  }

  /**
   * Each iteration does exactly what the source promises: an item without a
   * link is skipped and counted nowhere; an item whose link or truthy guid
   * is already in the table or was inserted earlier in the batch is counted
   * as a duplicate and not stored; any other item is stored and counted as new.
   */
  lemma DuplicateExactlyWhen(stored: seq<Article>, batch: seq<FeedItem>, n: nat, firstId: int, now: DateTime)
    requires TableConstraints(stored)
    requires n < |batch|
    ensures var p, q, x := IngestPrefix(stored, batch, n, firstId, now), IngestPrefix(stored, batch, n + 1, firstId, now), batch[n];
      && (!Present(x.link) ==> q.added == p.added && q.newCount == p.newCount && q.duplicateCount == p.duplicateCount)
      && (Present(x.link) && Known(stored + p.added, x) ==>
            q.added == p.added && q.newCount == p.newCount && q.duplicateCount == p.duplicateCount + 1)
      && (Present(x.link) && !Known(stored + p.added, x) ==>
            q.added == p.added + [NewArticle(x, firstId + |p.added|, now)]
            && q.newCount == p.newCount + 1 && q.duplicateCount == p.duplicateCount)
  {
    SeenTestAt(stored, batch, n, firstId, now);
  }

  /** The loop's test on the `n`-th item, read against the table so far. */
  lemma SeenTestAt(stored: seq<Article>, batch: seq<FeedItem>, n: nat, firstId: int, now: DateTime)
    requires TableConstraints(stored)
    requires n < |batch|
    ensures var p, x := IngestPrefix(stored, batch, n, firstId, now), batch[n];
      && |p.added| == p.newCount
      && (Present(x.link) ==>
            ((x.link.value in p.seenLinks || (Present(x.guid) && x.guid.value in p.seenGuids)) <==> Known(stored + p.added, x)))
  {
    IngestTracks(stored, batch, n, firstId, now);
    var p := IngestPrefix(stored, batch, n, firstId, now);
    if Present(batch[n].link) {
      SeenIsKnown(stored, batch, p, batch[n], firstId);
    }
  }

  /** Under the invariant, the loop's test on its seen sets is exactly `Known` on the table so far. */
  lemma SeenIsKnown(stored: seq<Article>, batch: seq<FeedItem>, p: Pending, x: FeedItem, firstId: int)
    requires Tracks(stored, batch, p, firstId)
    requires x in batch && Present(x.link)
    ensures (x.link.value in p.seenLinks || (Present(x.guid) && x.guid.value in p.seenGuids)) <==> Known(stored + p.added, x)
  {
    LinksOfAppend(stored, p.added);
    assert x.link.value in BatchLinks(batch);
    if Present(x.guid) {
      assert x.guid.value in BatchGuids(batch);
      assert x.guid.value in PresentGuids(p.added) <==> x.guid.value in Guids(p.added);
    }
  }

  /** `new_count` counts the stored rows, and every item with a link is counted once. */
  lemma {:induction false} IngestCounts(stored: seq<Article>, batch: seq<FeedItem>, n: nat, firstId: int, now: DateTime)
    requires n <= |batch|
    ensures var p := IngestPrefix(stored, batch, n, firstId, now);
      |p.added| == p.newCount && p.newCount + p.duplicateCount == CountLinked(batch[..n])
  {
    if n == 0 {
      assert batch[..0] == [];
    } else {
      IngestCounts(stored, batch, n - 1, firstId, now);
      assert batch[..n][..n - 1] == batch[..n - 1];
    }
  }

  /** Rows are only ever appended while the loop runs. */
  lemma {:induction false} AddedGrows(stored: seq<Article>, batch: seq<FeedItem>, m: nat, n: nat, firstId: int, now: DateTime)
    requires m <= n <= |batch|
    ensures var pm, pn := IngestPrefix(stored, batch, m, firstId, now), IngestPrefix(stored, batch, n, firstId, now);
      |pm.added| <= |pn.added| && pm.added == pn.added[..|pm.added|]
    decreases n - m
  {
    if m < n {
      AddedGrows(stored, batch, m, n - 1, firstId, now);
    }
  }

  // ---------------------------------------------------------------------
  // upsert_articles: the whole call
  // ---------------------------------------------------------------------

  /** The call's result: the two counts, or the IntegrityError raised by `commit`. */
  datatype UpsertOutcome = Upserted(newCount: nat, duplicateCount: nat) | IntegrityError

  datatype UpsertResult = UpsertResult(added: seq<Article>, outcome: UpsertOutcome)

  /**
   * `upsert_articles`: an empty batch returns (0, 0) without touching the
   * table; otherwise the loop runs and the commit either stores all the new
   * rows (ids from `firstId` on) or, when a unique constraint would break,
   * stores none and fails.
   */
  function Upsert(stored: seq<Article>, batch: seq<FeedItem>, firstId: int, now: DateTime): UpsertResult {
    if |batch| == 0 then UpsertResult([], Upserted(0, 0))
    else
      var p := IngestPrefix(stored, batch, |batch|, firstId, now);
      if TableConstraints(stored + p.added) then UpsertResult(p.added, Upserted(p.newCount, p.duplicateCount))
      else UpsertResult([], IntegrityError)
  }

  /**
   * Accounting: on success `new + duplicate` is the number of items with a
   * link and exactly `new` rows are appended; on failure nothing is.
   */
  lemma UpsertCounts(stored: seq<Article>, batch: seq<FeedItem>, firstId: int, now: DateTime)
    ensures var r := Upsert(stored, batch, firstId, now);
      && (r.outcome.Upserted? ==> r.outcome.newCount + r.outcome.duplicateCount == CountLinked(batch)
                                  && |r.added| == r.outcome.newCount)
      && (r.outcome.IntegrityError? ==> r.added == [])
  {
    IngestCounts(stored, batch, |batch|, firstId, now);
    assert batch[..|batch|] == batch;
  }

  /**
   * The table invariant survives an upsert: links stay unique, non-NULL
   * guids stay unique, new rows get fresh ascending ids and non-empty
   * title and source, and the rows already stored are kept as they were.
   */
  lemma UpsertKeepsTableValid(stored: seq<Article>, batch: seq<FeedItem>, firstId: int, now: DateTime)
    requires ArticlesTableValid(stored)
    requires 1 <= firstId && forall a :: a in stored ==> a.id < firstId
    ensures var r := Upsert(stored, batch, firstId, now);
      && ArticlesTableValid(stored + r.added)
      && (forall k :: 0 <= k < |r.added| ==> r.added[k].id == firstId + k)
  {
    if |batch| > 0 {
      IngestTracks(stored, batch, |batch|, firstId, now);
      var r := Upsert(stored, batch, firstId, now);
      var s := stored + r.added;
      forall i, j | 0 <= i < j < |s| ensures s[i].id < s[j].id {
        if j >= |stored| && i < |stored| { assert s[i] in stored; }
      }
      forall i | 0 <= i < |s| ensures 1 <= s[i].id && s[i].title != "" && s[i].source != "" {
        if i >= |stored| {
          assert s[i] == r.added[i - |stored|];
          assert s[i] in r.added;
        }
      }
    }
  }

  /**
   * Without an item whose guid is the empty string the commit always
   * succeeds: the loop's own checks already rule out every clash.
   */
  lemma UpsertCommitsWithoutEmptyGuids(stored: seq<Article>, batch: seq<FeedItem>, firstId: int, now: DateTime)
    requires TableConstraints(stored)
    requires forall item :: item in batch ==> item.guid != Some("")
    ensures Upsert(stored, batch, firstId, now).outcome.Upserted?
  {
    if |batch| > 0 {
      IngestTracks(stored, batch, |batch|, firstId, now);
      var p := IngestPrefix(stored, batch, |batch|, firstId, now);
      var s := stored + p.added;
      forall i, j | 0 <= i < j < |s| && s[i].guid.Some? ensures s[i].guid != s[j].guid {
        if !Present(s[i].guid) {
          if j < |stored| {
            assert s[i] == stored[i] && s[j] == stored[j];
          } else {
            assert s[j] in p.added;
          }
        }
      }
    }
  }

  lemma KnownGrows(a: seq<Article>, b: seq<Article>, item: FeedItem)
    requires Present(item.link)
    requires Known(a, item)
    ensures Known(a + b, item)
  {
    LinksOfAppend(a, b);
  }

  /**
   * Idempotence on replay: running the same batch again on the table the
   * first run committed stores nothing and counts every item with a link
   * as a duplicate.
   */
  lemma UpsertReplay(stored: seq<Article>, batch: seq<FeedItem>, firstId: int, secondId: int, now: DateTime, later: DateTime)
    requires TableConstraints(stored)
    requires Upsert(stored, batch, firstId, now).outcome.Upserted?
    ensures var after := stored + Upsert(stored, batch, firstId, now).added;
      Upsert(after, batch, secondId, later) == UpsertResult([], Upserted(0, CountLinked(batch)))
  {
    if |batch| > 0 {
      var added := Upsert(stored, batch, firstId, now).added;
      var after := stored + added;
      assert after + [] == after;
      ReplayPrefix(stored, batch, |batch|, firstId, secondId, now, later);
      IngestCounts(after, batch, |batch|, secondId, later);
      assert batch[..|batch|] == batch;
    }
  }

  /** After a run, every item with a link is `Known` to the table the run leaves behind. */
  lemma KnownAfterRun(stored: seq<Article>, batch: seq<FeedItem>, i: nat, firstId: int, now: DateTime)
    requires TableConstraints(stored)
    requires i < |batch| && Present(batch[i].link)
    ensures Known(stored + IngestPrefix(stored, batch, |batch|, firstId, now).added, batch[i])
  {
    var final := IngestPrefix(stored, batch, |batch|, firstId, now).added;
    var p := IngestPrefix(stored, batch, i, firstId, now).added;
    var q := IngestPrefix(stored, batch, i + 1, firstId, now).added;
    var x := batch[i];
    DuplicateExactlyWhen(stored, batch, i, firstId, now);
    AddedGrows(stored, batch, i, |batch|, firstId, now);
    AddedGrows(stored, batch, i + 1, |batch|, firstId, now);
    if Known(stored + p, x) {
      assert final == p + final[|p|..];
      KnownGrows(stored + p, final[|p|..], x);
      assert stored + p + final[|p|..] == stored + final;
    } else {
      assert q[|p|] in final;
      LinksOfAppend(stored, final);
    }
  }

  lemma {:induction false} ReplayPrefix(stored: seq<Article>, batch: seq<FeedItem>, n: nat, firstId: int, secondId: int, now: DateTime, later: DateTime)
    requires TableConstraints(stored)
    requires n <= |batch|
    requires Upsert(stored, batch, firstId, now).outcome.Upserted?
    ensures var after := stored + IngestPrefix(stored, batch, |batch|, firstId, now).added;
      && IngestPrefix(after, batch, n, secondId, later).added == []
      && IngestPrefix(after, batch, n, secondId, later).newCount == 0
  {
    var after := stored + IngestPrefix(stored, batch, |batch|, firstId, now).added;
    if n > 0 {
      ReplayPrefix(stored, batch, n - 1, firstId, secondId, now, later);
      if Present(batch[n - 1].link) {
        KnownAfterRun(stored, batch, n - 1, firstId, now);
        assert after + [] == after;
        DuplicateExactlyWhen(after, batch, n - 1, secondId, later);
      }
    }
  }

  /** The scenario of the source's test: two identical items give (1, 1) and one row. */
  lemma TwoIdenticalItems(item: FeedItem, firstId: int, now: DateTime)
    requires Present(item.link)
    ensures var r := Upsert([], [item, item], firstId, now);
      r.outcome == Upserted(1, 1) && |r.added| == 1
  {
    SharedLinkDuplicate(item, item, firstId, now);
  }

  /**
   * Two items with the same link, whatever their guids: the first is
   * stored, the second only counts as a duplicate.
   */
  lemma SharedLinkDuplicate(a: FeedItem, b: FeedItem, firstId: int, now: DateTime)
    requires Present(a.link) && b.link == a.link
    ensures Upsert([], [a, b], firstId, now) == UpsertResult([NewArticle(a, firstId, now)], Upserted(1, 1))
  {
    var batch := [a, b];
    var p0 := IngestPrefix([], batch, 0, firstId, now);
    assert p0.seenLinks == {} && p0.seenGuids == {} && p0.added == [];
    var x := NewArticle(a, firstId, now);
    var p1 := IngestPrefix([], batch, 1, firstId, now);
    assert p1.seenLinks == {a.link.value} && p1.added == [x] && p1.newCount == 1 && p1.duplicateCount == 0;
    var p2 := IngestPrefix([], batch, 2, firstId, now);
    assert p2.added == [x] && p2.newCount == 1 && p2.duplicateCount == 1;
    assert [] + p2.added == [x];
  }

  /**
   * An item with a link never seen before whose truthy guid already belongs
   * to a stored article is counted as a duplicate and not stored.
   */
  lemma FreshLinkTakenGuid(stored: seq<Article>, item: FeedItem, firstId: int, now: DateTime)
    requires TableConstraints(stored)
    requires Present(item.link) && Present(item.guid) && item.guid.value in Guids(stored)
    ensures Upsert(stored, [item], firstId, now) == UpsertResult([], Upserted(0, 1))
  {
    DuplicateExactlyWhen(stored, [item], 0, firstId, now);
    assert stored + [] == stored;
  }

  /**
   * The empty-string guid: the loop ignores it when looking for duplicates,
   * yet stores it, so two items with different links and guid "" make the
   * commit fail on the unique guid index.
   */
  lemma EmptyGuidClash(a: FeedItem, b: FeedItem, firstId: int, now: DateTime)
    requires Present(a.link) && Present(b.link) && a.link != b.link
    requires a.guid == Some("") && b.guid == Some("")
    ensures Upsert([], [a, b], firstId, now) == UpsertResult([], IntegrityError)
  {
    var batch := [a, b];
    var p0 := IngestPrefix([], batch, 0, firstId, now);
    assert p0.seenLinks == {} && p0.seenGuids == {} && p0.added == [];
    var x := NewArticle(a, firstId, now);
    var p1 := IngestPrefix([], batch, 1, firstId, now);
    assert p1.seenLinks == {a.link.value} && p1.seenGuids == {} && p1.added == [x];
    var y := NewArticle(b, firstId + 1, now);
    var p2 := IngestPrefix([], batch, 2, firstId, now);
    assert p2.added == [x, y];
    assert x.guid == y.guid == Some("");
    var rows := [] + p2.added;
    assert rows[0].guid.Some? && rows[0].guid == rows[1].guid;
    assert !GuidsUnique(rows);
  }

  // ---------------------------------------------------------------------
  // save_ai_summary
  // ---------------------------------------------------------------------

  /**
   * `save_ai_summary` on the summary table: the record for `articleId` is
   * created with the next record id, or overwritten in place, keeping its id.
   */
  function SaveSummary(sums: map<int, ArticleSummary>, nextId: int, articleId: int, summary: string, bullets: seq<string>, now: DateTime): map<int, ArticleSummary> {
    var id := if articleId in sums then sums[articleId].id else nextId;
    sums[articleId := ArticleSummary(id, articleId, summary, bullets, now)]
  }

  /**
   * Upsert by key: the article has exactly one record, holding the latest
   * text, bullets and time; every other record is untouched.
   */
  lemma SaveSummaryUpserts(sums: map<int, ArticleSummary>, nextId: int, articleId: int, summary: string, bullets: seq<string>, now: DateTime)
    ensures var r := SaveSummary(sums, nextId, articleId, summary, bullets, now);
      && r.Keys == sums.Keys + {articleId}
      && r[articleId].summaryAi == summary && r[articleId].bulletsAi == bullets && r[articleId].summarizedAt == now
      && (articleId in sums ==> r[articleId].id == sums[articleId].id)
      && (forall k :: k in sums && k != articleId ==> r[k] == sums[k])
  {
  }

  /** The summary table's invariant survives a save, and the next record id stays fresh. */
  lemma SaveSummaryKeepsValid(sums: map<int, ArticleSummary>, nextId: int, articleId: int, summary: string, bullets: seq<string>, now: DateTime)
    requires SummariesTableValid(sums) && forall k :: k in sums ==> sums[k].id < nextId
    ensures var r := SaveSummary(sums, nextId, articleId, summary, bullets, now);
      var next := if articleId in sums then nextId else nextId + 1;
      && SummariesTableValid(r)
      && (forall k :: k in r ==> r[k].id < next)
  {
  }

  /** Every summary record names a stored article: the declared FOREIGN KEY. */
  predicate ReferencesArticles(arts: seq<Article>, sums: map<int, ArticleSummary>) {
    forall k :: k in sums ==> k in ArticleIds(arts)
  }

  /**
   * The foreign key holds as long as summaries are saved for stored
   * articles only, and upserts never break it; saving for an id no article
   * has leaves a dangling record, since SQLite does not check the key.
   */
  lemma ReferencesPreserved(arts: seq<Article>, added: seq<Article>, sums: map<int, ArticleSummary>, nextId: int,
                            articleId: int, summary: string, bullets: seq<string>, now: DateTime)
    requires ReferencesArticles(arts, sums)
    ensures ReferencesArticles(arts + added, sums)
    ensures ReferencesArticles(arts, SaveSummary(sums, nextId, articleId, summary, bullets, now)) <==> articleId in ArticleIds(arts)
  {
    forall k | k in sums ensures k in ArticleIds(arts + added) {
      var a :| a in arts && a.id == k;
      assert a in arts + added;
    }
  }

  /** Saving twice leaves one record: the first call's id with the second call's payload. */
  lemma SaveSummaryTwice(sums: map<int, ArticleSummary>, nextId: int, articleId: int,
                         s1: string, b1: seq<string>, t1: DateTime, s2: string, b2: seq<string>, t2: DateTime)
    ensures var once := SaveSummary(sums, nextId, articleId, s1, b1, t1);
      SaveSummary(once, nextId + 1, articleId, s2, b2, t2)
        == once[articleId := once[articleId].(summaryAi := s2, bulletsAi := b2, summarizedAt := t2)]
  {
  }

  // ---------------------------------------------------------------------
  // Read queries
  // ---------------------------------------------------------------------

  /** `coalesce(published, created_at)`. */
  function EffectiveDate(a: Article): DateTime {
    if a.published.Some? then a.published.value else a.createdAt
  }

  function RecencyKey(a: Article): SortKey {
    SortKey(Instant(EffectiveDate(a)), 0)
  }

  /** `ORDER BY published DESC, created_at DESC` on rows with a published date. */
  function PublishedKey(a: Article): SortKey {
    SortKey(if a.published.Some? then Instant(a.published.value) else 0, Instant(a.createdAt))
  }

  /** The WHERE of `get_recent_articles`: a source filter only when `source` is truthy. */
  function FromSource(articles: seq<Article>, source: Option<string>): seq<Article> {
    if Present(source) then
      var s := source.value;
      Filter(articles, (a: Article) => a.source == s)
    else articles
  }

  /** `get_recent_articles(limit, source)`. */
  function RecentArticles(articles: seq<Article>, limit: int, source: Option<string>): seq<Article> {
    TopK(FromSource(articles, source), RecencyKey, limit)
  }

  /** `get_articles_for_date(date)`: rows published on that calendar day, newest first. */
  function ArticlesForDate(articles: seq<Article>, day: Date): seq<Article> {
    SortDesc(Filter(articles, (a: Article) => a.published.Some? && DateOf(a.published.value) == day), PublishedKey)
  }

  /** The outer join of `get_articles_missing_ai_summary`: rows without a summary record. */
  function WithoutSummary(articles: seq<Article>, sums: map<int, ArticleSummary>): seq<Article> {
    Filter(articles, (a: Article) => a.id !in sums)
  }

  /** `get_articles_missing_ai_summary(limit)`. */
  function ArticlesMissingAiSummary(articles: seq<Article>, sums: map<int, ArticleSummary>, limit: int): seq<Article> {
    TopK(WithoutSummary(articles, sums), RecencyKey, limit)
  }

  /** `ORDER BY coalesce(published, created_at) DESC LIMIT limit` on the rows `m`. */
  lemma TopKRecency(m: seq<Article>, limit: int)
    ensures var r := TopK(m, RecencyKey, limit);
      && (forall a :: a in r ==> a in m)
      && |r| == (if 0 <= limit < |m| then limit else |m|)
      && (forall i, j :: 0 <= i < j < |r| ==> Instant(EffectiveDate(r[j])) <= Instant(EffectiveDate(r[i])))
      && (forall a, b :: a in m && a !in r && b in r ==> Instant(EffectiveDate(a)) <= Instant(EffectiveDate(b)))
  {
    TopKCorrect(m, RecencyKey, limit);
    var r := TopK(m, RecencyKey, limit);
    forall a | a in r ensures a in m {
      assert a in multiset(r);
    }
    forall i, j | 0 <= i < j < |r| ensures Instant(EffectiveDate(r[j])) <= Instant(EffectiveDate(r[i])) {
      assert KeyLe(RecencyKey(r[j]), RecencyKey(r[i]));
    }
    forall a, b | a in m && a !in r && b in r ensures Instant(EffectiveDate(a)) <= Instant(EffectiveDate(b)) {
      assert KeyLe(RecencyKey(a), RecencyKey(b));
    }
  }

  /**
   * `get_recent_articles`: only stored rows, of the requested source when one
   * is given; at most `limit` of them (all when fewer match); newest
   * effective date first; no matching row left out is newer than one returned.
   */
  lemma RecentArticlesCorrect(articles: seq<Article>, limit: int, source: Option<string>)
    ensures var r, m := RecentArticles(articles, limit, source), FromSource(articles, source);
      && (forall a :: a in m <==> a in articles && (Present(source) ==> a.source == source.value))
      && (forall a :: a in r ==> a in m)
      && |r| == (if 0 <= limit < |m| then limit else |m|)
      && (forall i, j :: 0 <= i < j < |r| ==> Instant(EffectiveDate(r[j])) <= Instant(EffectiveDate(r[i])))
      && (forall a, b :: a in m && a !in r && b in r ==> Instant(EffectiveDate(a)) <= Instant(EffectiveDate(b)))
  {
    var m := FromSource(articles, source);
    TopKRecency(m, limit);
  }

  /**
   * `get_articles_for_date`: exactly the rows whose published date falls on
   * `day` (rows without one are excluded), each once, ordered by published
   * then created_at, newest first.
   */
  lemma ArticlesForDateCorrect(articles: seq<Article>, day: Date)
    ensures var r := ArticlesForDate(articles, day);
      && (forall a :: a in r <==> a in articles && a.published.Some? && DateOf(a.published.value) == day)
      && (forall a :: multiset(r)[a] == if a.published.Some? && DateOf(a.published.value) == day then multiset(articles)[a] else 0)
      && (forall i, j :: 0 <= i < j < |r| ==>
            var pi, pj := Instant(r[i].published.value), Instant(r[j].published.value);
            pj < pi || (pj == pi && Instant(r[j].createdAt) <= Instant(r[i].createdAt)))
  {
    SortedMembers(Filter(articles, (a: Article) => a.published.Some? && DateOf(a.published.value) == day), PublishedKey);
    FilterCount(articles, (a: Article) => a.published.Some? && DateOf(a.published.value) == day);
    PublishedOrder(ArticlesForDate(articles, day));
  }

  /** Sorting keeps exactly the members of its input. */
  lemma SortedMembers<T(!new)>(s: seq<T>, key: T -> SortKey)
    ensures forall x :: x in SortDesc(s, key) <==> x in s
  {
    var r := SortDesc(s, key);
    forall x ensures x in r <==> x in s {
      assert x in r <==> x in multiset(r);
      assert x in s <==> x in multiset(s);
    }
  }

  /** On rows that all have a published date, the published key orders by published, then created_at. */
  lemma PublishedOrder(r: seq<Article>)
    requires forall a :: a in r ==> a.published.Some?
    requires SortedDesc(r, PublishedKey)
    ensures forall i, j :: 0 <= i < j < |r| ==>
      var pi, pj := Instant(r[i].published.value), Instant(r[j].published.value);
      pj < pi || (pj == pi && Instant(r[j].createdAt) <= Instant(r[i].createdAt))
  {
    forall i, j | 0 <= i < j < |r|
      ensures var pi, pj := Instant(r[i].published.value), Instant(r[j].published.value);
        pj < pi || (pj == pi && Instant(r[j].createdAt) <= Instant(r[i].createdAt))
    {
      assert KeyLe(PublishedKey(r[j]), PublishedKey(r[i]));
    }
  }

  /**
   * `get_articles_missing_ai_summary`: only rows without a summary record,
   * at most `limit`, newest effective date first, none left out newer than
   * one returned.
   */
  lemma MissingAiSummaryCorrect(articles: seq<Article>, sums: map<int, ArticleSummary>, limit: int)
    ensures var r, m := ArticlesMissingAiSummary(articles, sums, limit), WithoutSummary(articles, sums);
      && (forall a :: a in r ==> a in articles && a.id !in sums)
      && |r| == (if 0 <= limit < |m| then limit else |m|)
      && (forall i, j :: 0 <= i < j < |r| ==> Instant(EffectiveDate(r[j])) <= Instant(EffectiveDate(r[i])))
      && (forall a, b :: a in articles && a.id !in sums && a !in r && b in r ==> Instant(EffectiveDate(a)) <= Instant(EffectiveDate(b)))
  {
    TopKRecency(WithoutSummary(articles, sums), limit);
  }

  /** After `save_ai_summary` for an article, the missing-summary query no longer returns it. */
  lemma SavedNotMissing(articles: seq<Article>, sums: map<int, ArticleSummary>, nextId: int, articleId: int,
                        summary: string, bullets: seq<string>, now: DateTime, limit: int)
    ensures var after := SaveSummary(sums, nextId, articleId, summary, bullets, now);
      forall a :: a in ArticlesMissingAiSummary(articles, after, limit) ==> a.id != articleId
  {
    MissingAiSummaryCorrect(articles, SaveSummary(sums, nextId, articleId, summary, bullets, now), limit);
  }

  // ---------------------------------------------------------------------
  // The session
  // ---------------------------------------------------------------------

  /**
   * The loop of `upsert_articles` over the batch, before the commit: the
   * rows it adds to the session and its two counters.
   */
  method IngestBatch(stored: seq<Article>, batch: seq<FeedItem>, firstId: int, now: DateTime)
    returns (added: seq<Article>, newCount: nat, duplicateCount: nat)
    ensures var p := IngestPrefix(stored, batch, |batch|, firstId, now);
      added == p.added && newCount == p.newCount && duplicateCount == p.duplicateCount
  {
    var links := BatchLinks(batch);
    var guids := BatchGuids(batch);
    var seenLinks := Links(stored) * links;
    var seenGuids := Guids(stored) * guids;
    added := [];
    newCount, duplicateCount := 0, 0;
    var i := 0;
    while i < |batch|
      invariant 0 <= i <= |batch|
      invariant Pending(seenLinks, seenGuids, added, newCount, duplicateCount)
        == IngestPrefix(stored, batch, i, firstId, now)
    {
      var item := batch[i];
      i := i + 1;
      if !Present(item.link) {
        continue;
      }
      var link := item.link.value;
      if link in seenLinks || (Present(item.guid) && item.guid.value in seenGuids) {
        duplicateCount := duplicateCount + 1;
        continue;
      }
      added := added + [NewArticle(item, firstId + newCount, now)];
      seenLinks := seenLinks + {link};
      if Present(item.guid) {
        seenGuids := seenGuids + {item.guid.value};
      }
      newCount := newCount + 1;
    }
  }

  /** The database as a session sees it: both tables and the next ids SQLite will hand out. */
  class ArticleStore {
    var articles: seq<Article>
    var summaries: map<int, ArticleSummary>
    var nextArticleId: int
    var nextSummaryId: int

    ghost predicate Valid()
      reads this
    {
      && ArticlesTableValid(articles)
      && SummariesTableValid(summaries)
      && 1 <= nextArticleId && (forall a :: a in articles ==> a.id < nextArticleId)
      && 1 <= nextSummaryId && (forall k :: k in summaries ==> summaries[k].id < nextSummaryId)
    }

    /** Freshly created tables (`init_db`). */
    constructor ()
      ensures Valid() && articles == [] && summaries == map[]
    {
      articles := [];
      summaries := map[];
      nextArticleId := 1;
      nextSummaryId := 1;
    }

    /** `upsert_articles(session, batch)`, with `now` the database clock at commit. */
    method UpsertArticles(batch: seq<FeedItem>, now: DateTime) returns (outcome: UpsertOutcome)
      requires Valid()
      modifies this
      ensures Valid()
      ensures outcome == Upsert(old(articles), batch, old(nextArticleId), now).outcome
      ensures articles == old(articles) + Upsert(old(articles), batch, old(nextArticleId), now).added
      ensures summaries == old(summaries)
      ensures nextArticleId == old(nextArticleId) + |articles| - |old(articles)|
      ensures nextSummaryId == old(nextSummaryId)
    {
      if |batch| == 0 {
        return Upserted(0, 0);
      }
      var added, newCount, duplicateCount := IngestBatch(articles, batch, nextArticleId, now);
      UpsertKeepsTableValid(articles, batch, nextArticleId, now);
      UpsertCounts(articles, batch, nextArticleId, now);
      if TableConstraints(articles + added) {
        articles := articles + added;
        nextArticleId := nextArticleId + newCount;
        outcome := Upserted(newCount, duplicateCount);
      } else {
        outcome := IntegrityError;
      }
    }

    /**
     * `save_ai_summary(session, article_id, summary, bullets)`, with `now`
     * the clock reading: the record of the article is created or updated
     * in place, whether or not an article with that id exists.
     */
    method SaveAiSummary(articleId: int, summary: string, bullets: seq<string>, now: DateTime)
      requires Valid()
      modifies this
      ensures Valid()
      ensures articles == old(articles)
      ensures summaries == SaveSummary(old(summaries), old(nextSummaryId), articleId, summary, bullets, now)
      ensures nextArticleId == old(nextArticleId)
      ensures nextSummaryId == old(nextSummaryId) + (if articleId in old(summaries) then 0 else 1)
    {
      if articleId in summaries {
        var record := summaries[articleId];
        summaries := summaries[articleId := record.(summaryAi := summary, bulletsAi := bullets, summarizedAt := now)];
      } else {
        summaries := summaries[articleId := ArticleSummary(nextSummaryId, articleId, summary, bullets, now)];
        nextSummaryId := nextSummaryId + 1;
      }
    }
  }
}
