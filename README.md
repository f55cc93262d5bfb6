# Robotics & AI digest — a Dafny model

This project models the core of *robotics-ai-digest*, a small pipeline:
- read RSS feeds;
- store their articles in SQLite;
- attach a (mock) AI summary;
- render a Markdown digest for one day.

The repository holds two snapshots of the package. `robotics-ai-digest-main/` is the newer one; the top-level `src/` tree is the older one. The model covers both where they differ.

| module (file) | what it models |
|---|---|
| `Wrappers` (wrappers.dfy) | Optional values; Python truthiness of an optional string (`Present`: set and non-empty); `a or b` on optional strings |
| `Text` (text.dfy) | `str.isspace`, `str.split()`, `" ".join`, `str.strip()`, ASCII `lower()`, `str(n)` |
| `Timestamps` (timestamps.dfy) | Python `datetime`/`date` validity. `time.struct_time` fields. `_to_iso8601`. `_parse_datetime` (`datetime.fromisoformat`). `isoformat()` / `strftime` output. Instants used for ordering |
| `Models` (models.dfy) | The `articles` and `article_summaries` tables and the item dicts handed to the store. The schema's UNIQUE / NOT NULL constraints become predicates |
| `Query` (query.dfy) | WHERE, ORDER BY … DESC and LIMIT, which the read queries are built from |
| `Repository` (repository.dfy) | `upsert_articles`, `get_recent_articles`, `get_articles_for_date`, `get_articles_missing_ai_summary`, `save_ai_summary`. The session is the class `ArticleStore` |
| `RssReader` (rss_reader.dfy) | `fetch_rss` in both versions, after fetching and parsing |
| `Renderer` (renderer.dfy) | `_normalize_summary` and `render_digest` |
| `SqliteUrl` (sqlite_url.dfy) | `_build_sqlite_url` |
| `Summarization` (summarization.dfy) | The `Summarizer` protocol and both `MockSummarizer.summarize` implementations |

## How the model is built

**Upsert as a specification plus a loop.** `upsert_articles` is specified by two functions:
- `Repository.IngestPrefix` is the loop state after the first `n` items. It is a left fold of `Repository.Ingest`, one iteration.
- `Repository.Upsert` is the whole call, commit included.

`Repository.ArticleStore.UpsertArticles` runs the source's loop over the seen-link and seen-guid sets and the two counters. Its loop invariant equates its variables with `IngestPrefix`. The properties of the source are proved about the specification:
- uniqueness;
- the `new + duplicate` accounting;
- first occurrence wins;
- replay idempotence.

**Feed reader.** `fetch_rss` is handled the same way. `RssReader.Fetch` is a fold over the feeds, and inside each feed over its entries. A `Version` switch selects the newer or the older entry rule. `RssReader.FetchRss` and `RssReader.FetchRssLegacy` are the two nested loops, each proved equal to the fold.

**Renderer.** `render_digest` is split into two methods:
- `Renderer.GroupBySource` builds the `OrderedDict`: its keys in insertion order plus a map.
- `Renderer.RenderDigest` builds the list of lines; `Renderer.AppendSection` appends one section.

Both are proved equal to `Renderer.DigestLines`, which every digest lemma is about.

**Newer and older trees.** `upsert_articles`, `get_recent_articles`, `get_articles_for_date` and `_parse_datetime` are the same code in both trees. Each is modelled once, and the table below cites one of the two copies.

**Where the code and its tests disagree.**
- The renderer's footer says `Number of sources:`, but `tests/test_digest_renderer.py:35` looks for `Sources count:`. The model follows the code.
- The schema declares `article_summaries.article_id` as a foreign key to `articles.id`. SQLite only checks foreign keys when the connection enables them, and `init_db` does not. So `save_ai_summary` stores a record for any id. `Repository.ReferencesArticles` states the key as a predicate, and `Repository.ReferencesPreserved` says when it holds.

**The empty-string guid.** The loop checks guids only when they are truthy, so a guid of `""` never counts as a duplicate. It is still stored, and the guid column is UNIQUE. Two new items with different links and guid `""` therefore make `commit` fail with an integrity error, and nothing is stored. `Repository.Upsert` models that outcome as `IntegrityError`:
- `Repository.EmptyGuidClash` exhibits it;
- `Repository.UpsertCommitsWithoutEmptyGuids` proves the commit succeeds whenever no item has guid `""`.

## Model

| member | source | states |
|---|---|---|
| Wrappers.Or | robotics-ai-digest-main/src/robotics_ai_digest/feeds/rss_reader.py:67 | `a or b` on optional strings: `a` when it is truthy, otherwise `b`. The result is truthy exactly when one of the two is |
| Text.CollapseCorrect | src/robotics_ai_digest/digest/renderer_md.py:12 | `" ".join(s.split())` keeps exactly the words of `s`. The result is single-spaced, with no space at either end. It is idempotent, and empty exactly when `s` has no words |
| Text.WordsOfJoin | src/robotics_ai_digest/digest/renderer_md.py:12 | Splitting words joined by single spaces gives the same words back |
| Text.CollapseOfSingleSpaced | src/robotics_ai_digest/digest/renderer_md.py:12 | Text that is already single-spaced and does not start with whitespace is unchanged by collapsing |
| Text.WordsSkipSpaces | src/robotics_ai_digest/digest/renderer_md.py:12 | Leading whitespace does not change `split()` |
| Text.Strip | src/robotics_ai_digest/summarization/mock_summarizer.py:8 | `strip()` keeps the slice from the first to the last non-whitespace character. Everything before and after it is whitespace, and the result neither starts nor ends with whitespace |
| Text.AsciiLower | src/robotics_ai_digest/summarization/mock_summarizer.py:8 | `lower()` keeps the length of the text |
| Timestamps.ToIso8601 | robotics-ai-digest-main/src/robotics_ai_digest/feeds/rss_reader.py:10-26 | A missing structure, or fields `datetime` rejects, give None. A valid structure gives a 25-character UTC stamp `YYYY-MM-DDTHH:MM:SS+00:00`. The older tree's `_to_iso8601` (src/robotics_ai_digest/feeds/rss_reader.py, lines 10-25) behaves the same |
| Timestamps.ParseOfToIso8601 | robotics-ai-digest-main/src/robotics_ai_digest/storage/repository.py:52 | The `published` text the feed reader writes for a valid structure is parsed by the store back to exactly that moment |
| Timestamps.ParseOfIsoDateTimeUtc | robotics-ai-digest-main/src/robotics_ai_digest/storage/repository.py:13-20 | Parsing a UTC ISO-8601 stamp gives back the datetime it was written from |
| Timestamps.ParseOfDateText | src/robotics_ai_digest/storage/repository.py:15-18 | `fromisoformat` of `YYYY-MM-DD` is that day at midnight when the fields form a date. Otherwise (month 13, 30 February, year 0) the ValueError gives None |
| Timestamps.ParseOfStamp | src/robotics_ai_digest/storage/repository.py:15-18 | Every date-and-time text, with any separator character and any UTC designator, parses to the moment written when its fields are in range, and to None otherwise |
| Timestamps.FebruaryThirtiethRejected | src/robotics_ai_digest/storage/repository.py:12-18 | `_parse_datetime("2025-02-30")` is None |
| Timestamps.ParseDateTime | src/robotics_ai_digest/storage/repository.py:12-18 | None or `""` gives None. Any other text gives what `fromisoformat` gives, so accepted text has one of the ISO lengths 10, 19, 20 or 25 |
| Timestamps.ParseIsoDateTime | src/robotics_ai_digest/storage/repository.py:15-18 | Text without the `YYYY-MM-DD` shape gives None. Date-only text gives midnight of the day written exactly when the fields form a date. `YYYY-MM-DD?HH:MM:SS`, with any separator and no designator, `Z` or `+00:00`, gives the moment written exactly when the fields are in range. Any other form gives None |
| Timestamps.Checked | src/robotics_ai_digest/storage/repository.py:16-18 | Returns a datetime exactly when the fields are a valid date and time, and then returns those fields |
| Timestamps.IsoDate | src/robotics_ai_digest/digest/renderer_md.py:19 | `date.isoformat()` has 10 characters, with dashes at positions 4 and 7 |
| Timestamps.MinuteStamp | src/robotics_ai_digest/digest/renderer_md.py:32 | `strftime('%Y-%m-%d %H:%M')` has 16 characters |
| Timestamps.SecondStamp | src/robotics_ai_digest/digest/renderer_md.py:41 | `strftime('%Y-%m-%d %H:%M:%S')` has 19 characters |
| Timestamps.DaysInMonth | robotics-ai-digest-main/src/robotics_ai_digest/feeds/rss_reader.py:15-23 | The month lengths `datetime` checks day numbers against: 28 to 31 |
| Query.Filter | robotics-ai-digest-main/src/robotics_ai_digest/storage/repository.py:71-72 | WHERE keeps exactly the rows that satisfy the condition, never more rows, and no row more often than the input holds it |
| Query.FilterCount | robotics-ai-digest-main/src/robotics_ai_digest/storage/repository.py:71-72 | WHERE keeps every matching row exactly as often as the input holds it, and no other row |
| Query.FilterSnoc | src/robotics_ai_digest/digest/renderer_md.py:22-23 | Filtering keeps input order: a row appended to the input is appended to the result when it matches |
| Query.InsertDesc | robotics-ai-digest-main/src/robotics_ai_digest/storage/repository.py:73 | Inserting into a non-increasing sequence keeps it non-increasing and adds exactly that row |
| Query.SortDesc | robotics-ai-digest-main/src/robotics_ai_digest/storage/repository.py:73 | ORDER BY … DESC returns a permutation of the rows, non-increasing by the key |
| Query.Take | robotics-ai-digest-main/src/robotics_ai_digest/storage/repository.py:73 | LIMIT returns the first `limit` rows, or all of them when the limit is negative or at least the row count |
| Query.TopKCorrect | robotics-ai-digest-main/src/robotics_ai_digest/storage/repository.py:73 | ORDER BY DESC LIMIT returns at most `limit` rows (all when fewer), sorted, drawn from the input. No row left out has a larger key than a row returned |
| Repository.NewArticle | src/robotics_ai_digest/storage/repository.py:45-52 | A new row gets "(untitled)" for a missing or empty title and "unknown" for a missing or empty source. Link, guid and summary are taken as given, `published` is parsed from its text, and `created_at` is the commit time |
| Repository.PreloadTracks | robotics-ai-digest-main/src/robotics_ai_digest/storage/repository.py:28-37 | The sets loaded before the loop are the stored links and guids the batch mentions, so the loop invariant holds on entry |
| Repository.SeenAfterAppend | robotics-ai-digest-main/src/robotics_ai_digest/storage/repository.py:57-59 | Adding the link, and the guid when truthy, to the seen sets keeps them equal to the table's links and guids |
| Repository.UniqueAfterAppend | robotics-ai-digest-main/src/robotics_ai_digest/storage/repository.py:44-56 | Storing a row whose link and truthy guid are unseen keeps links unique and truthy guids unique |
| Repository.AppendFresh | robotics-ai-digest-main/src/robotics_ai_digest/storage/repository.py:56 | Appending a row with a new link and new truthy guid keeps both uniqueness properties |
| Repository.IngestNewTracks | robotics-ai-digest-main/src/robotics_ai_digest/storage/repository.py:48-60 | Storing an item keeps the loop invariant: ids ascending from the first, non-empty title and source, unique links and truthy guids |
| Repository.IngestStepTracks | robotics-ai-digest-main/src/robotics_ai_digest/storage/repository.py:39-60 | Every iteration keeps the loop invariant |
| Repository.IngestTracks | robotics-ai-digest-main/src/robotics_ai_digest/storage/repository.py:39-60 | The invariant holds after any number of iterations |
| Repository.SeenIsKnown | robotics-ai-digest-main/src/robotics_ai_digest/storage/repository.py:44 | The loop's test on its seen sets is exactly "the link, or the truthy guid, is already a row of the table so far" |
| Repository.DuplicateExactlyWhen | robotics-ai-digest-main/src/robotics_ai_digest/storage/repository.py:39-60 | A link-less item changes nothing. An item whose link or truthy guid is stored, or was inserted earlier in the batch, only counts as a duplicate. Any other item is stored with the next id and counts as new |
| Repository.SeenTestAt | robotics-ai-digest-main/src/robotics_ai_digest/storage/repository.py:44-46 | At every point of the loop, the test on the seen sets holds exactly when the item's link, or its truthy guid, is already in the table so far |
| Repository.IngestBatch | robotics-ai-digest-main/src/robotics_ai_digest/storage/repository.py:28-60 | The preload and the loop return the rows added, the new count and the duplicate count of the specification fold over the whole batch |
| Repository.IngestCounts | src/robotics_ai_digest/storage/repository.py:33-57 | `new_count` is the number of rows added. `new_count + duplicate_count` is the number of items with a link |
| Repository.AddedGrows | robotics-ai-digest-main/src/robotics_ai_digest/storage/repository.py:53-56 | Rows are only ever appended during the loop, so the first occurrence wins |
| Repository.UpsertCounts | robotics-ai-digest-main/src/robotics_ai_digest/storage/repository.py:39-63 | After a successful call, new + duplicate is the number of items with a link, and exactly `new` rows are appended. A failed commit appends nothing |
| Repository.UpsertKeepsTableValid | robotics-ai-digest-main/src/robotics_ai_digest/storage/repository.py:44-62 | After an upsert, links and guids are still unique and ids still ascend. New rows get fresh ids from the next one on and have non-empty title and source. Existing rows are unchanged |
| Repository.UpsertCommitsWithoutEmptyGuids | robotics-ai-digest-main/src/robotics_ai_digest/storage/repository.py:58-62 | When no item has guid `""`, the loop's own checks rule out every constraint violation, so the commit succeeds |
| Repository.EmptyGuidClash | robotics-ai-digest-main/src/robotics_ai_digest/storage/repository.py:44-62 | Two items with different links and guid `""` both pass the loop, and the commit then fails on the unique guid index |
| Repository.KnownGrows | robotics-ai-digest-main/src/robotics_ai_digest/storage/repository.py:31-32 | An item already known to a table stays known when rows are added |
| Repository.KnownAfterRun | robotics-ai-digest-main/src/robotics_ai_digest/storage/repository.py:44-59 | After a run, every item of the batch with a link is known to the resulting table |
| Repository.ReplayPrefix | robotics-ai-digest-main/src/robotics_ai_digest/storage/repository.py:31-46 | Replaying the batch on the table the first run committed adds nothing at any point of the loop |
| Repository.UpsertReplay | robotics-ai-digest-main/src/robotics_ai_digest/storage/repository.py:31-46 | Replaying the same batch returns (0, number of items with a link) and stores nothing |
| Repository.TwoIdenticalItems | robotics-ai-digest-main/tests/test_storage_repository.py:21-46 | Two identical items give (1, 1) and a single stored row |
| Repository.SharedLinkDuplicate | robotics-ai-digest-main/src/robotics_ai_digest/storage/repository.py:44-60 | Two items sharing a link, whatever their guids: the first is stored with the first id, the second only counts as a duplicate, giving (1, 1) |
| Repository.FreshLinkTakenGuid | robotics-ai-digest-main/src/robotics_ai_digest/storage/repository.py:44-46 | An item with a new link whose guid another article holds counts as a duplicate and is not stored |
| Repository.SaveSummaryUpserts | robotics-ai-digest-main/src/robotics_ai_digest/storage/repository.py:101-117 | The article ends up with exactly one record. It holds the new summary, bullets and time, and keeps its record id when it already existed. Other records are untouched |
| Repository.SaveSummaryTwice | robotics-ai-digest-main/src/robotics_ai_digest/storage/repository.py:113-116 | A second save overwrites summary, bullets and time in place, keeping the first call's record |
| Repository.SaveSummaryKeepsValid | src/robotics_ai_digest/storage/models.py:37-41 | A save keeps one record per article with distinct record ids, and the next record id stays fresh |
| Repository.ReferencesPreserved | src/robotics_ai_digest/storage/models.py:38 | Upserts never break the foreign key. A save keeps it exactly when the article id is stored |
| Repository.TopKRecency | robotics-ai-digest-main/src/robotics_ai_digest/storage/repository.py:73 | `ORDER BY coalesce(published, created_at) DESC LIMIT n`, stated on effective dates |
| Repository.RecentArticlesCorrect | src/robotics_ai_digest/storage/repository.py:63-70 | Filters by source only when `source` is truthy. Returns at most `limit` matching rows (all when fewer), newest effective date first, and no omitted matching row is newer than a returned one |
| Repository.ArticlesForDateCorrect | src/robotics_ai_digest/storage/repository.py:73-80 | Returns exactly the rows published on that calendar day, each once; rows with no published date are excluded. They are ordered by published, then created_at, newest first |
| Repository.PublishedOrder | src/robotics_ai_digest/storage/repository.py:78 | Rows sorted by the (published, created_at) key are ordered by published date, and by creation time among equal published dates |
| Repository.SortedMembers | src/robotics_ai_digest/storage/repository.py:73-80 | ORDER BY neither adds nor drops a row |
| Repository.MissingAiSummaryCorrect | robotics-ai-digest-main/src/robotics_ai_digest/storage/repository.py:89-98 | Returns only rows without a summary record, at most `limit` (all when fewer), newest effective date first. No omitted row without a summary is newer than a returned one |
| Repository.SavedNotMissing | robotics-ai-digest-main/tests/test_storage_repository.py:182-187 | After `save_ai_summary` for an article, the missing-summary query never returns it |
| Repository.ArticleStore.constructor | src/robotics_ai_digest/storage/models.py:13-43 | Fresh tables: empty and valid |
| Repository.ArticleStore.UpsertArticles | robotics-ai-digest-main/src/robotics_ai_digest/storage/repository.py:23-63 | The loop computes `Upsert`. Only `articles` changes, growing by the rows added; the summaries are untouched and the table invariant is kept. An empty batch returns (0, 0) and changes nothing. The next article id advances by the number of rows added, and the next summary id is unchanged |
| Repository.ArticleStore.SaveAiSummary | robotics-ai-digest-main/src/robotics_ai_digest/storage/repository.py:101-117 | Creates or updates the article's record as `SaveSummary` says, leaves the articles alone, and keeps the table invariant. The next article id is unchanged, and the next summary id advances by one exactly when a record is created |
| RssReader.FetchRss | robotics-ai-digest-main/src/robotics_ai_digest/feeds/rss_reader.py:29-73 | The nested loops produce exactly the items of the specification fold `Fetch(Current, …)` |
| RssReader.FetchRssLegacy | src/robotics_ai_digest/feeds/rss_reader.py:28-66 | The older nested loops produce exactly the items of `Fetch(Legacy, …)` |
| RssReader.KeyOfNormalized | robotics-ai-digest-main/src/robotics_ai_digest/feeds/rss_reader.py:54-55 | An item's `guid or link` is its entry's dedupe key. When the entry has a link, its guid is non-empty and is the key |
| RssReader.StepEntryExactly | src/robotics_ai_digest/feeds/rss_reader.py:45-64 | Newer version: an entry is appended exactly when it has a link and its key is not yet among the items. Older version: exactly when its key is empty or not yet among them. Nothing else changes the list, and the invariant is kept |
| RssReader.StepEntriesInv | robotics-ai-digest-main/src/robotics_ai_digest/feeds/rss_reader.py:50-71 | The inner loop keeps `seen` equal to the items' keys, with those keys unique |
| RssReader.FetchInv | robotics-ai-digest-main/src/robotics_ai_digest/feeds/rss_reader.py:35-73 | The invariant holds over all feeds, in both versions |
| RssReader.FetchRssGuidsUnique | robotics-ai-digest-main/src/robotics_ai_digest/feeds/rss_reader.py:51-58 | Every returned item has a non-empty link and a non-empty guid, and no two returned items share a guid |
| RssReader.FetchRssLegacyKeysUnique | src/robotics_ai_digest/feeds/rss_reader.py:47-51 | No two returned items share a non-empty `guid or link` key |
| RssReader.LegacyKeepsKeyless | src/robotics_ai_digest/feeds/rss_reader.py:45-51 | In the older version, entries whose key is empty are all kept, in order, and `seen` is unchanged |
| RssReader.CurrentDropsLinkless | robotics-ai-digest-main/src/robotics_ai_digest/feeds/rss_reader.py:51-53 | In the newer version, an entry without a link changes nothing |
| RssReader.SameLinkDifferentIdsKept | robotics-ai-digest-main/src/robotics_ai_digest/feeds/rss_reader.py:54-58 | The newer version deduplicates on `id or guid or link`: two linked entries with the same link and different ids are both returned, in order |
| RssReader.FetchSnoc | robotics-ai-digest-main/src/robotics_ai_digest/feeds/rss_reader.py:38 | The result for a further feed is the previous state followed by that feed's pass |
| RssReader.FetchSkipsBadFeeds | robotics-ai-digest-main/src/robotics_ai_digest/feeds/rss_reader.py:39-47 | Failed or `bozo` feeds contribute nothing, and processing continues: the result is that of the good feeds alone |
| RssReader.StepEntriesAppends | robotics-ai-digest-main/src/robotics_ai_digest/feeds/rss_reader.py:49-71 | One feed's pass only appends, at most one item per entry, each carrying the feed's source name |
| RssReader.FetchFeedOrder | robotics-ai-digest-main/src/robotics_ai_digest/feeds/rss_reader.py:38-71 | Output is in feed order: earlier feeds' items are a prefix. A bad feed adds nothing. Every item a feed adds carries its title, or its URL when it has none |
| RssReader.FetchSeenGrows | robotics-ai-digest-main/src/robotics_ai_digest/feeds/rss_reader.py:36-58 | The set of seen keys only grows |
| RssReader.StepEntriesSees | robotics-ai-digest-main/src/robotics_ai_digest/feeds/rss_reader.py:55-58 | After a pass, the key of every entry that was looked at is among the seen keys |
| RssReader.FetchRepresentsEntries | robotics-ai-digest-main/src/robotics_ai_digest/feeds/rss_reader.py:50-71 | Deduplication only drops what was already returned: every linked entry of a good feed has its guid on some returned item |
| Renderer.NormalizeSummary | src/robotics_ai_digest/digest/renderer_md.py:9-15 | None exactly for a missing or empty summary; otherwise at most 240 characters |
| Renderer.NormalizeSummaryCorrect | src/robotics_ai_digest/digest/renderer_md.py:12-15 | The result is single-spaced. Short text keeps exactly the input's words. Longer text becomes its first 237 collapsed characters plus "...", 240 in all |
| Renderer.TruncatedSingleSpaced | src/robotics_ai_digest/digest/renderer_md.py:15 | Cutting collapsed text and adding "..." keeps it single-spaced |
| Renderer.NormalizeSummaryIdempotent | src/robotics_ai_digest/digest/renderer_md.py:9-15 | Normalising a non-empty normalised summary again changes nothing |
| Renderer.BlankSummaryNormalizesEmpty | src/robotics_ai_digest/digest/renderer_md.py:10-14 | Every non-empty whitespace-only summary is truthy but normalises to "", so it gets no Summary line |
| Renderer.SourceOrderCorrect | src/robotics_ai_digest/digest/renderer_md.py:21-25 | The section headings name every source of the input exactly once and nothing else |
| Renderer.SourceOrderPrefix | src/robotics_ai_digest/digest/renderer_md.py:22-23 | Headings appear in order of first appearance: the headings of a prefix of the input are a prefix of the headings |
| Renderer.SourceOrderSnoc | src/robotics_ai_digest/digest/renderer_md.py:23 | A new source becomes the last key; a known source leaves the keys alone |
| Renderer.DistinctCard | src/robotics_ai_digest/digest/renderer_md.py:40 | A sequence without repeats has as many elements as its set |
| Renderer.SourceCount | src/robotics_ai_digest/digest/renderer_md.py:40 | `len(grouped)` is the number of distinct sources |
| Renderer.NewSourceGroup | src/robotics_ai_digest/digest/renderer_md.py:23 | The first article of a new source starts that source's list |
| Renderer.GroupedSnocKey | src/robotics_ai_digest/digest/renderer_md.py:25 | Sections are laid out in key order |
| Renderer.GroupedSnoc | src/robotics_ai_digest/digest/renderer_md.py:22-23 | Appending an article adds it to exactly one group |
| Renderer.GroupedIsPermutation | src/robotics_ai_digest/digest/renderer_md.py:21-28 | Every article appears in exactly one section, and the sections contain nothing else |
| Renderer.GroupingStep | src/robotics_ai_digest/digest/renderer_md.py:23 | `setdefault(source, []).append(article)` keeps the dict equal to the grouping of the articles so far |
| Renderer.GroupingListsStep | src/robotics_ai_digest/digest/renderer_md.py:23 | After `setdefault(...).append(article)`, every source's list is that source's articles so far, in input order |
| Renderer.GroupLookup | src/robotics_ai_digest/digest/renderer_md.py:25 | Each key's list is that source's articles in input order |
| Renderer.GroupBySource | src/robotics_ai_digest/digest/renderer_md.py:21-23 | The grouping loop builds the source order and, for each source, its articles in input order |
| Renderer.ArticlesLinesSnoc | src/robotics_ai_digest/digest/renderer_md.py:28 | A section's article blocks follow the article order |
| Renderer.SectionsLinesNext | src/robotics_ai_digest/digest/renderer_md.py:25 | Each further key adds its own section after the previous ones |
| Renderer.ArticleBlockLines | src/robotics_ai_digest/digest/renderer_md.py:29-35 | The lines appended for one article are its block as `ArticleLines` specifies it |
| Renderer.AppendSection | src/robotics_ai_digest/digest/renderer_md.py:26-36 | One pass of the outer loop appends the heading, a blank line, each article's block in order, and a blank line |
| Renderer.RenderDigest | src/robotics_ai_digest/digest/renderer_md.py:18-44 | The text is the newline-joined `DigestLines` |
| Renderer.DigestFrame | src/robotics_ai_digest/digest/renderer_md.py:19-42 | The first line is "# Robotics & AI Digest — " plus the ISO date, then a blank line. The footer gives the number of articles, the number of distinct sources and the generation time |
| Renderer.ArticleBlock | src/robotics_ai_digest/digest/renderer_md.py:29-35 | Each article block is a link line with the title, or "(untitled)" when the title is empty. A Published line appears exactly when a publication time is set. A Summary line appears exactly when the normalised summary is non-empty |
| Renderer.NoLinkLines | src/robotics_ai_digest/digest/renderer_md.py:30 | Lines that are too short, or do not start with '-', are not link lines |
| Renderer.CountLinkLinesAppend | src/robotics_ai_digest/digest/renderer_md.py:30 | Link lines of concatenated lists add up |
| Renderer.ArticleLinesOneLink | src/robotics_ai_digest/digest/renderer_md.py:29-35 | An article's block holds exactly one link line |
| Renderer.ArticlesLinesLinks | src/robotics_ai_digest/digest/renderer_md.py:28-35 | A run of article blocks holds one link line per article |
| Renderer.SectionLinesLinks | src/robotics_ai_digest/digest/renderer_md.py:26-36 | A section holds one link line per article of its source |
| Renderer.SectionsLinesLinks | src/robotics_ai_digest/digest/renderer_md.py:25-36 | All sections together hold one link line per grouped article |
| Renderer.DigestLinkLines | src/robotics_ai_digest/digest/renderer_md.py:19-44 | Each input article yields exactly one link line: the digest has as many as there are articles |
| SqliteUrl.ReplaceBackslashes | src/robotics_ai_digest/storage/db.py:16 | `replace(chr(92), '/')` keeps the length and maps each backslash to '/' and every other character to itself |
| SqliteUrl.BuildSqliteUrl | src/robotics_ai_digest/storage/db.py:12-16 | ":memory:" gives "sqlite:///:memory:". Every result starts with "sqlite:///", contains no backslash, and is 10 characters longer than the path |
| SqliteUrl.MemoryCaseAgrees | src/robotics_ai_digest/storage/db.py:13-16 | The ":memory:" special case gives what the general rule would |
| SqliteUrl.UrlCarriesPath | src/robotics_ai_digest/storage/db.py:16 | The URL after "sqlite:///" is the path with backslashes read as '/'. A path without backslashes comes back unchanged |
| SqliteUrl.SameUrlForSlashSpelling | src/robotics_ai_digest/storage/db.py:16 | A Windows path and its forward-slash spelling give the same URL |
| Summarization.Summarize | robotics-ai-digest-main/src/robotics_ai_digest/summarization/summarizer.py:6-8 | A summary payload always has exactly three bullets |
| Summarization.QuoteOccurs | robotics-ai-digest-main/src/robotics_ai_digest/summarization/mock_summarizer.py:12-15 | The summary text quotes the title right after its lead, and ends with the lowered title and ")." |
| Summarization.PayloadQuotes | robotics-ai-digest-main/src/robotics_ai_digest/summarization/mock_summarizer.py:10-15 | The summary contains the title verbatim after the lead, and ends with `title.lower().strip()` in parentheses. The older tree's French mock (src/robotics_ai_digest/summarization/mock_summarizer.py, lines 8-11) has the same shape with its own wording |
| Summarization.PayloadBullets | robotics-ai-digest-main/src/robotics_ai_digest/summarization/mock_summarizer.py:16-20 | Three bullets: the context label followed by the title, then two bullets that are the same for every title. The older tree's French mock (lines 12-16 of its mock_summarizer.py) leads with "Contexte principal: " plus the title |
| Summarization.PayloadDeterminesTitle | robotics-ai-digest-main/src/robotics_ai_digest/summarization/mock_summarizer.py:9-21 | Two titles give the same payload exactly when they are equal |
| Summarization.SummarizeDeterminesTitle | robotics-ai-digest-main/src/robotics_ai_digest/summarization/mock_summarizer.py:9-21 | The output depends on the title alone. Equal titles give equal payloads whatever the text, and different titles never share a payload |

## Left out

- HTTP and feed parsing (`requests.get`, `raise_for_status`, `feedparser.parse`) are outside the model. Each URL's outcome is an input: failed, or parsed with its `bozo` flag, title and entries.
- SQLAlchemy sessions, engines, `selectinload` and `init_db` are outside the model. The database is the in-memory `ArticleStore`, updated once per call. New ids are counters, which is what SQLite assigns when rows are never deleted.
- Sort ties are outside the model. `ORDER BY` leaves their order open, so the lemmas only promise a non-increasing order; `SortDesc` picks one order.
- SQLite compares the stored datetime text, and the model compares the date and time fields. The two agree except for a `published` and a `created_at` in the same second.
- Sub-second precision is outside the model.
- `json.dumps` of the bullets is not modelled: bullets are stored as a list of strings.
- `datetime.now()` and the server `now()` are outside the model. The commit time, the save time and the footer's clock reading are parameters.
- `src/robotics_ai_digest/summarization/openai_summarizer.py` is not part of this model. It is a network call to OpenAI plus JSON decoding.
- `robotics-ai-digest-main/src/robotics_ai_digest/summarization/cost_estimator.py` is not part of this model. It is floating-point pricing over tokenizer counts.
- The command-line interface (`cli.py`) and its tests are not modelled: they are argument parsing and printing.
- The AI-summary precedence and bullet list that the newer tree's digest tests expect are left out. The renderer that would implement them is not among the modelled files, and the modelled renderer has no such branch.
- Summarization.Summarize: the `Summarizer` protocol becomes a datatype naming its two mock implementations, not an open interface.
- Text.AsciiLower: `lower()` is modelled on ASCII letters only; Unicode case mapping is not.
- Timestamps.ParseIsoDateTime: accepts only these forms of `datetime.fromisoformat`:
  - `YYYY-MM-DD`;
  - `YYYY-MM-DD`, any one separator character, then `HH:MM:SS`;
  - the same followed by `Z` or `+00:00`.

  Fractional seconds, other UTC offsets, reduced precision and the further forms Python 3.11 added give None here. The repository pins no Python version. `Z` is accepted as Python 3.11 and later accept it; Python 3.7 to 3.10 reject it with a ValueError.
- Deduplication in the newer `fetch_rss` is on `id or guid or link`, not on the link: entries sharing a link but with different ids are all returned (`SameLinkDifferentIdsKept`). `upsert_articles` then stores the first and counts each later one as a duplicate (`SharedLinkDuplicate`).
- Renderer.DigestLinkLines: counts link lines in the list of lines before they are joined. A title, link or source name containing a newline would add lines to the joined text (a summary cannot, since it is collapsed to one line first); the model does not state the count on the text.
- Default arguments are not modelled as defaults. `limit=10` of `get_recent_articles` and `get_articles_missing_ai_summary` and `source=None` are explicit parameters. `max_len=240` of `_normalize_summary` is the constant `MaxSummaryLength`, since the renderer never passes another value.
- Timestamps.ToIso8601: the `TypeError` branch is not modelled, because the structure's fields are integers here.
- Timestamps.MinuteStamp: pads years below 1000 to four digits, while some platforms' `strftime('%Y')` does not.
