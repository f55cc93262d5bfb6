/**
 * The two persisted tables, `articles` and `article_summaries`, and the
 * item records handed to the store. The column constraints of the schema
 * become predicates over table contents.
 */
module Models {
  import opened Wrappers
  import opened Timestamps

  /**
   * One dict handed to `upsert_articles`; every key may be missing
   * (`None`) or empty. `published` is still ISO-8601 text here.
   */
  datatype FeedItem = FeedItem(
    title: Option<string>,
    link: Option<string>,
    guid: Option<string>,
    published: Option<string>,
    summary: Option<string>,
    source: Option<string>)

  /**
   * A row of `articles`. `title`, `link`, `source` and `created_at` are
   * NOT NULL; `guid`, `published` and `summary` are nullable.
   */
  datatype Article = Article(
    id: int,
    title: string,
    link: string,
    guid: Option<string>,
    published: Option<DateTime>,
    summary: Option<string>,
    source: string,
    createdAt: DateTime)

  /** A row of `article_summaries`; all columns NOT NULL, bullets kept as a list. */
  datatype ArticleSummary = ArticleSummary(
    id: int,
    articleId: int,
    summaryAi: string,
    bulletsAi: seq<string>,
    summarizedAt: DateTime)

  /** The title stored, and shown, for an article without one. */
  const UntitledTitle: string := "(untitled)"

  function Links(arts: seq<Article>): set<string> {
    set a | a in arts :: a.link
  }

  /** Every non-NULL guid, the empty string included. */
  function Guids(arts: seq<Article>): set<string> {
    set a | a in arts && a.guid.Some? :: a.guid.value
  }

  /** The guids Python treats as truthy. */
  function PresentGuids(arts: seq<Article>): set<string> {
    set a | a in arts && Present(a.guid) :: a.guid.value
  }

  function ArticleIds(arts: seq<Article>): set<int> {
    set a | a in arts :: a.id
  }

  /** UNIQUE on `articles.link`. */
  predicate LinksUnique(arts: seq<Article>) {
    forall i, j :: 0 <= i < j < |arts| ==> arts[i].link != arts[j].link
  }

  /** UNIQUE on the nullable `articles.guid`: NULLs never clash, equal strings (even "") do. */
  predicate GuidsUnique(arts: seq<Article>) {
    forall i, j :: 0 <= i < j < |arts| && arts[i].guid.Some? ==> arts[i].guid != arts[j].guid
  }

  /** What the upsert's own duplicate check guarantees: no two rows share a non-empty guid. */
  predicate PresentGuidsUnique(arts: seq<Article>) {
    forall i, j :: 0 <= i < j < |arts| && Present(arts[i].guid) ==> arts[i].guid != arts[j].guid
  }

  /** The constraints the database enforces at commit. */
  predicate TableConstraints(arts: seq<Article>) {
    LinksUnique(arts) && GuidsUnique(arts)
  }

  /**
   * The invariant of the `articles` table: its unique constraints, ids
   * ascending in insertion order, and the placeholders the upsert fills in
   * keep `title` and `source` non-empty.
   */
  predicate ArticlesTableValid(arts: seq<Article>) {
    && TableConstraints(arts)
    && (forall i, j :: 0 <= i < j < |arts| ==> arts[i].id < arts[j].id)
    && (forall i :: 0 <= i < |arts| ==> 1 <= arts[i].id && arts[i].title != "" && arts[i].source != "")
  }

  /**
   * The invariant of `article_summaries`, keyed by `article_id` (UNIQUE):
   * each record names its key and record ids are distinct. The FOREIGN KEY
   * to `articles` is declared but SQLite does not enforce it unless the
   * connection enables it, which `init_db` does not.
   */
  predicate SummariesTableValid(sums: map<int, ArticleSummary>) {
    && (forall k :: k in sums ==> sums[k].articleId == k)
    && (forall k1, k2 :: k1 in sums && k2 in sums && k1 != k2 ==> sums[k1].id != sums[k2].id)
  }
}
