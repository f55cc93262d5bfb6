/**
 * The Markdown digest: `_normalize_summary` and `render_digest`.
 *
 * `DigestLines` specifies the list of lines `render_digest` builds; the
 * method `RenderDigest` builds it with the source's loops (an ordered
 * grouping by source, then one section per source) and is proved equal to it.
 */
module Renderer {
  import opened Wrappers
  import opened Text
  import opened Timestamps
  import opened Models
  import opened Query

  const MaxSummaryLength: nat := 240
  const Ellipsis: string := "..."

  // ---------------------------------------------------------------------
  // _normalize_summary
  // ---------------------------------------------------------------------

  /**
   * `_normalize_summary(summary)` with the default `max_len` of 240: None
   * for a missing or empty summary, otherwise the whitespace-collapsed text,
   * cut to 237 characters plus "..." when it is longer than 240.
   */
  function NormalizeSummary(summary: Option<string>): (r: Option<string>)
    ensures r.Some? <==> Present(summary)
    ensures r.Some? ==> |r.value| <= MaxSummaryLength
  {
    if !Present(summary) then None
    else
      var oneLine := Collapse(summary.value);
      if |oneLine| <= MaxSummaryLength then Some(oneLine)
      else Some(oneLine[..MaxSummaryLength - |Ellipsis|] + Ellipsis)
  }

  /** A single-spaced text cut short and marked with "..." is still single-spaced. */
  lemma TruncatedSingleSpaced(c: string)
    requires SingleSpaced(c) && |c| > MaxSummaryLength
    ensures SingleSpaced(c[..MaxSummaryLength - |Ellipsis|] + Ellipsis)
  {
    var t := c[..MaxSummaryLength - |Ellipsis|] + Ellipsis;
    forall i | 0 <= i < |t| && IsSpace(t[i])
      ensures t[i] == ' ' && 0 < i && i + 1 < |t| && !IsSpace(t[i + 1])
    {
      assert i < MaxSummaryLength - |Ellipsis| && t[i] == c[i];
      if i + 1 < MaxSummaryLength - |Ellipsis| {
        assert t[i + 1] == c[i + 1];
      }
    }
  }

  /**
   * What `_normalize_summary` promises: a result that fits in 240
   * characters; when the collapsed text fits, exactly its words, single
   * spaced with no space at either end; when it does not, its first 237
   * characters followed by "...", 240 in all.
   */
  lemma NormalizeSummaryCorrect(summary: Option<string>)
    requires Present(summary)
    ensures var r := NormalizeSummary(summary).value;
      && SingleSpaced(r)
      && (r == [] || !IsSpace(r[0]))
      && (|Collapse(summary.value)| <= MaxSummaryLength ==> Words(r) == Words(summary.value))
      && (|Collapse(summary.value)| > MaxSummaryLength ==>
            |r| == MaxSummaryLength && r[MaxSummaryLength - |Ellipsis|..] == Ellipsis
            && r[..MaxSummaryLength - |Ellipsis|] == Collapse(summary.value)[..MaxSummaryLength - |Ellipsis|])
  {
    var c := Collapse(summary.value);
    CollapseCorrect(summary.value);
    if |c| > MaxSummaryLength {
      TruncatedSingleSpaced(c);
    }
  }

  /**
   * Normalising a non-empty normalised summary changes nothing. (A summary
   * of whitespace alone normalises to "", which a second pass turns into None.)
   */
  lemma NormalizeSummaryIdempotent(summary: Option<string>)
    requires Present(NormalizeSummary(summary))
    ensures NormalizeSummary(NormalizeSummary(summary)) == NormalizeSummary(summary)
  {
    var r := NormalizeSummary(summary).value;
    NormalizeSummaryCorrect(summary);
    CollapseOfSingleSpaced(r);
  }

  /** A summary of whitespace alone: present, yet normalised to the empty string, so no Summary line. */
  lemma BlankSummaryNormalizesEmpty(s: string)
    requires s != [] && forall i :: 0 <= i < |s| ==> IsSpace(s[i])
    ensures NormalizeSummary(Some(s)) == Some("")
  {
    WordsSkipSpaces(s, []);
    assert s + [] == s;
  }

  // ---------------------------------------------------------------------
  // render_digest: grouping
  // ---------------------------------------------------------------------

  /** The keys of the `grouped` OrderedDict: each source once, in order of first appearance. */
  function SourceOrder(articles: seq<Article>): seq<string> {
    if articles == [] then []
    else
      var order := SourceOrder(articles[..|articles| - 1]);
      var source := articles[|articles| - 1].source;
      if source in order then order else order + [source]
  }

  /** `grouped[source]`: the articles of that source, in input order. */
  function Group(articles: seq<Article>, source: string): seq<Article> {
    Filter(articles, (a: Article) => a.source == source)
  }

  function Sources(articles: seq<Article>): set<string> {
    set a | a in articles :: a.source
  }

  predicate Distinct(s: seq<string>) {
    forall i, j :: 0 <= i < j < |s| ==> s[i] != s[j]
  }

  /** The headings name every source once and nothing else. */
  lemma {:induction false} SourceOrderCorrect(articles: seq<Article>)
    ensures Distinct(SourceOrder(articles))
    ensures forall s :: s in SourceOrder(articles) <==> s in Sources(articles)
  {
    if articles != [] {
      var init := articles[..|articles| - 1];
      SourceOrderCorrect(init);
      assert articles == init + [articles[|articles| - 1]];
      assert forall a :: a in articles <==> a in init || a == articles[|articles| - 1];
    }
  }

  /** First-appearance order: the headings of a prefix of the input are a prefix of the headings. */
  lemma {:induction false} SourceOrderPrefix(articles: seq<Article>, n: nat)
    requires n <= |articles|
    ensures var o, p := SourceOrder(articles), SourceOrder(articles[..n]);
      |p| <= |o| && p == o[..|p|]
    decreases |articles| - n
  {
    if n < |articles| {
      SourceOrderPrefix(articles, n + 1);
      assert articles[..n + 1][..n] == articles[..n];
    } else {
      assert articles[..n] == articles;
    }
  }

  lemma {:induction false} DistinctCard(s: seq<string>)
    requires Distinct(s)
    ensures |set x | x in s| == |s|
  {
    if s != [] {
      var init := s[..|s| - 1];
      DistinctCard(init);
      assert (set x | x in s) == (set x | x in init) + {s[|s| - 1]};
    }
  }

  /** `len(grouped)` is the number of distinct sources. */
  lemma SourceCount(articles: seq<Article>)
    ensures |SourceOrder(articles)| == |Sources(articles)|
  {
    SourceOrderCorrect(articles);
    DistinctCard(SourceOrder(articles));
    assert (set x | x in SourceOrder(articles)) == Sources(articles);
  }

  /** The groups, in heading order, laid end to end. */
  function Grouped(keys: seq<string>, articles: seq<Article>): seq<Article> {
    if keys == [] then []
    else Grouped(keys[..|keys| - 1], articles) + Group(articles, keys[|keys| - 1])
  }

  lemma {:induction false} GroupedSnoc(keys: seq<string>, articles: seq<Article>, a: Article)
    requires Distinct(keys)
    ensures multiset(Grouped(keys, articles + [a])) == multiset(Grouped(keys, articles)) + (if a.source in keys then multiset{a} else multiset{})
  {
    if keys != [] {
      var init, last := keys[..|keys| - 1], keys[|keys| - 1];
      DistinctSnoc(keys);
      GroupedSnoc(init, articles, a);
      GroupSnoc(articles, a, last);
      var more := articles + [a];
      assert Grouped(keys, articles) == Grouped(init, articles) + Group(articles, last);
      assert Grouped(keys, more) == Grouped(init, more) + Group(more, last);
      SumOfSteps(multiset(Grouped(init, articles)), multiset(Group(articles, last)), a, a.source in init, a.source == last);
    }
  }

  /** Two parts each growing by `a` at most once, never both. */
  lemma SumOfSteps(m: multiset<Article>, g: multiset<Article>, a: Article, inInit: bool, isLast: bool)
    requires !(inInit && isLast)
    ensures var one := multiset{a}; var none: multiset<Article> := multiset{};
      (m + (if inInit then one else none)) + (g + (if isLast then one else none))
      == (m + g) + (if inInit || isLast then one else none)
  {
  }

  /** The last key of a sequence without repeats is not among the others, which have none either. */
  lemma DistinctSnoc(keys: seq<string>)
    requires Distinct(keys) && keys != []
    ensures Distinct(keys[..|keys| - 1]) && keys[|keys| - 1] !in keys[..|keys| - 1]
  {
  }

  /** The first article of a new source starts that source's group. */
  lemma NewSourceGroup(init: seq<Article>, a: Article)
    requires a.source !in Sources(init)
    ensures Group(init, a.source) == []
    ensures Group(init + [a], a.source) == [a]
  {
    FilterSnoc(init, a, (x: Article) => x.source == a.source);
  }

  lemma SourceOrderSnoc(init: seq<Article>, a: Article)
    ensures SourceOrder(init + [a]) == if a.source in SourceOrder(init) then SourceOrder(init) else SourceOrder(init) + [a.source]
  {
    assert (init + [a])[..|init|] == init;
  }

  lemma GroupedSnocKey(keys: seq<string>, k: string, articles: seq<Article>)
    ensures Grouped(keys + [k], articles) == Grouped(keys, articles) + Group(articles, k)
  {
    assert (keys + [k])[..|keys|] == keys;
  }

  /** Every article appears in exactly one section, and the sections hold nothing else. */
  lemma {:induction false} GroupedIsPermutation(articles: seq<Article>)
    ensures multiset(Grouped(SourceOrder(articles), articles)) == multiset(articles)
  {
    if articles != [] {
      var init, a := articles[..|articles| - 1], articles[|articles| - 1];
      assert articles == init + [a];
      GroupedIsPermutation(init);
      var o := SourceOrder(init);
      SourceOrderCorrect(init);
      SourceOrderSnoc(init, a);
      GroupedSnoc(o, init, a);
      if a.source !in o {
        GroupedSnocKey(o, a.source, articles);
        NewSourceGroup(init, a);
      }
    }
  }

  // ---------------------------------------------------------------------
  // render_digest: lines
  // ---------------------------------------------------------------------

  function Header(day: Date): string {
    "# Robotics & AI Digest — " + IsoDate(day)
  }

  function LinkLine(title: string, link: string): string {
    "- **[" + title + "](" + link + ")**"
  }

  function PublishedLine(published: DateTime): string {
    "  - Published: " + MinuteStamp(published)
  }

  function SummaryLine(summary: string): string {
    "  - Summary: " + summary
  }

  function SectionHeading(source: string): string {
    "## " + source
  }

  /** The lines of one article: its link, then its publication time and summary when it has them. */
  function ArticleLines(a: Article): seq<string> {
    var summary := NormalizeSummary(a.summary);
    [LinkLine(if a.title != "" then a.title else UntitledTitle, a.link)]
    + (if a.published.Some? then [PublishedLine(a.published.value)] else [])
    + (if Present(summary) then [SummaryLine(summary.value)] else [])
  }

  function ArticlesLines(articles: seq<Article>): seq<string> {
    if articles == [] then []
    else ArticlesLines(articles[..|articles| - 1]) + ArticleLines(articles[|articles| - 1])
  }

  function SectionLines(source: string, articles: seq<Article>): seq<string> {
    [SectionHeading(source), ""] + ArticlesLines(articles) + [""]
  }

  /** One section per key, each holding that source's group. */
  function SectionsLines(keys: seq<string>, articles: seq<Article>): seq<string> {
    if keys == [] then []
    else SectionsLines(keys[..|keys| - 1], articles) + SectionLines(keys[|keys| - 1], Group(articles, keys[|keys| - 1]))
  }

  function Footer(total: nat, sources: nat, now: DateTime): seq<string> {
    ["---",
     "Total articles: " + NatToString(total),
     "Number of sources: " + NatToString(sources),
     "Generated at: " + SecondStamp(now),
     ""]
  }

  /** The `lines` list of `render_digest`, with `now` the clock reading for the footer. */
  function DigestLines(day: Date, articles: seq<Article>, now: DateTime): seq<string> {
    var keys := SourceOrder(articles);
    [Header(day), ""] + SectionsLines(keys, articles) + Footer(|articles|, |keys|, now)
  }

  /** The list `grouped.setdefault(source, [])` returns. */
  function Existing(grouped: map<string, seq<Article>>, source: string): seq<Article> {
    if source in grouped then grouped[source] else []
  }

  /** `keys` and `grouped` are the OrderedDict built from `articles`. */
  ghost predicate IsGrouping(articles: seq<Article>, keys: seq<string>, grouped: map<string, seq<Article>>) {
    && keys == SourceOrder(articles)
    && (forall s :: s in grouped <==> s in keys)
    && (forall s :: s in grouped ==> grouped[s] == Group(articles, s))
  }

  /** One step of the grouping loop: `grouped.setdefault(article.source, []).append(article)`. */
  lemma GroupingStep(prefix: seq<Article>, a: Article, keys: seq<string>, grouped: map<string, seq<Article>>)
    requires IsGrouping(prefix, keys, grouped)
    ensures IsGrouping(prefix + [a],
                       if a.source in grouped then keys else keys + [a.source],
                       grouped[a.source := Existing(grouped, a.source) + [a]])
  {
    SourceOrderSnoc(prefix, a);
    GroupingListsStep(prefix, a, keys, grouped);
  }

  /** After one step every list of the dict is still its source's group. */
  lemma GroupingListsStep(prefix: seq<Article>, a: Article, keys: seq<string>, grouped: map<string, seq<Article>>)
    requires IsGrouping(prefix, keys, grouped)
    ensures var g := grouped[a.source := Existing(grouped, a.source) + [a]];
      forall s :: s in g ==> g[s] == Group(prefix + [a], s)
  {
    if a.source !in grouped {
      SourceOrderCorrect(prefix);
      assert a.source !in Sources(prefix);
      NewSourceGroup(prefix, a);
    }
    var g := grouped[a.source := Existing(grouped, a.source) + [a]];
    forall s | s in g
      ensures g[s] == Group(prefix + [a], s)
    {
      GroupSnoc(prefix, a, s);
    }
  }

  /** Appending an article extends its own source's group and no other. */
  lemma GroupSnoc(init: seq<Article>, a: Article, s: string)
    ensures Group(init + [a], s) == Group(init, s) + (if a.source == s then [a] else [])
  {
    FilterSnoc(init, a, (x: Article) => x.source == s);
  }

  /** Looking up a key of the OrderedDict gives that source's group. */
  lemma GroupLookup(articles: seq<Article>, keys: seq<string>, grouped: map<string, seq<Article>>, k: nat)
    requires IsGrouping(articles, keys, grouped) && k < |keys|
    ensures keys[k] in grouped && grouped[keys[k]] == Group(articles, keys[k])
  {
  }

  /**
   * The first loop of `render_digest`: the `grouped` OrderedDict, as its
   * keys in insertion order and the map from each key to its list.
   */
  method GroupBySource(articles: seq<Article>) returns (keys: seq<string>, grouped: map<string, seq<Article>>)
    ensures IsGrouping(articles, keys, grouped)
  {
    keys := [];
    grouped := map[];
    for i := 0 to |articles|
      invariant IsGrouping(articles[..i], keys, grouped)
    {
      var article := articles[i];
      assert articles[..i + 1] == articles[..i] + [article];
      GroupingStep(articles[..i], article, keys, grouped);
      // grouped.setdefault(article.source, []).append(article)
      var list := Existing(grouped, article.source);
      if article.source !in grouped {
        keys := keys + [article.source];
      }
      grouped := grouped[article.source := list + [article]];
    }
    assert articles[..|articles|] == articles;
  }

  lemma ArticlesLinesSnoc(xs: seq<Article>, x: Article)
    ensures ArticlesLines(xs + [x]) == ArticlesLines(xs) + ArticleLines(x)
  {
    assert (xs + [x])[..|xs|] == xs;
  }

  lemma SectionsLinesNext(keys: seq<string>, k: nat, articles: seq<Article>)
    requires k < |keys|
    ensures SectionsLines(keys[..k + 1], articles) == SectionsLines(keys[..k], articles) + SectionLines(keys[k], Group(articles, keys[k]))
  {
    assert keys[..k + 1][..k] == keys[..k];
  }

  lemma ConcatAssoc(a: seq<string>, b: seq<string>, c: seq<string>)
    ensures (a + b) + c == a + (b + c)
  {
  }

  /**
   * One pass of the outer loop of `render_digest`: the section heading, the
   * lines of each article of the section in order, and a blank line.
   */
  method AppendSection(lines: seq<string>, source: string, articles: seq<Article>) returns (out: seq<string>)
    ensures out == lines + SectionLines(source, articles)
  {
    out := lines + [SectionHeading(source), ""];
    ghost var head := out;
    for j := 0 to |articles|
      invariant out == head + ArticlesLines(articles[..j])
    {
      var article := articles[j];
      ArticlesLinesSnoc(articles[..j], article);
      assert articles[..j + 1] == articles[..j] + [article];
      var block := ArticleBlockLines(article);
      ConcatAssoc(head, ArticlesLines(articles[..j]), block);
      out := out + block;
    }
    assert articles[..|articles|] == articles;
    out := out + [""];
  }

  /** The body of the inner loop of `render_digest`: the lines for one article. */
  method ArticleBlockLines(article: Article) returns (block: seq<string>)
    ensures block == ArticleLines(article)
  {
    var title := if article.title != "" then article.title else UntitledTitle;
    block := [LinkLine(title, article.link)];
    if article.published.Some? {
      block := block + [PublishedLine(article.published.value)];
    }
    var summary := NormalizeSummary(article.summary);
    if Present(summary) {
      block := block + [SummaryLine(summary.value)];
    }
  }

  /** `render_digest(date, articles)`, with `now` the clock reading the footer shows. */
  method RenderDigest(day: Date, articles: seq<Article>, now: DateTime) returns (text: string)
    ensures text == Join(DigestLines(day, articles, now), '\n')
  {
    var lines := [Header(day), ""];
    ghost var head := lines;
    var keys, grouped := GroupBySource(articles);
    for k := 0 to |keys|
      invariant lines == head + SectionsLines(keys[..k], articles)
    {
      var source := keys[k];
      SectionsLinesNext(keys, k, articles);
      GroupLookup(articles, keys, grouped, k);
      lines := AppendSection(lines, source, grouped[source]);
      ConcatAssoc(head, SectionsLines(keys[..k], articles), SectionLines(source, grouped[source]));
    }
    assert keys[..|keys|] == keys;
    lines := lines + Footer(|articles|, |keys|, now);
    text := Join(lines, '\n');
  }

  // ---------------------------------------------------------------------
  // What the digest shows
  // ---------------------------------------------------------------------

  /**
   * The digest opens with the title line for the date and a blank line, and
   * ends with the footer: the number of input articles, the number of
   * distinct sources, and the generation time.
   */
  lemma DigestFrame(day: Date, articles: seq<Article>, now: DateTime)
    ensures var lines := DigestLines(day, articles, now);
      && |lines| >= 7
      && lines[0] == "# Robotics & AI Digest — " + IsoDate(day) && lines[1] == ""
      && lines[|lines| - 5..] == ["---",
                                 "Total articles: " + NatToString(|articles|),
                                 "Number of sources: " + NatToString(|Sources(articles)|),
                                 "Generated at: " + SecondStamp(now),
                                 ""]
  {
    var keys := SourceOrder(articles);
    var foot := Footer(|articles|, |keys|, now);
    SourceCount(articles);
    assert DigestLines(day, articles, now) == [Header(day), ""] + SectionsLines(keys, articles) + foot;
  }

  /**
   * One block per article: a link line with the title, or "(untitled)"
   * when it is empty; a Published line exactly when the article has a
   * publication time; a Summary line exactly when its normalised summary
   * is non-empty.
   */
  lemma ArticleBlock(a: Article)
    ensures var lines, summary := ArticleLines(a), NormalizeSummary(a.summary);
      && |lines| == 1 + (if a.published.Some? then 1 else 0) + (if Present(summary) then 1 else 0)
      && lines[0] == "- **[" + (if a.title == "" then "(untitled)" else a.title) + "](" + a.link + ")**"
      && (a.published.Some? ==> lines[1] == "  - Published: " + MinuteStamp(a.published.value))
      && (Present(summary) ==> lines[|lines| - 1] == "  - Summary: " + summary.value)
  {
  }

  /** A line that starts like an article's link line. */
  predicate IsLinkLine(line: string) {
    |line| >= 5 && line[..5] == "- **["
  }

  function CountLinkLines(lines: seq<string>): nat {
    if lines == [] then 0
    else CountLinkLines(lines[..|lines| - 1]) + (if IsLinkLine(lines[|lines| - 1]) then 1 else 0)
  }

  lemma {:induction false} CountLinkLinesAppend(a: seq<string>, b: seq<string>)
    ensures CountLinkLines(a + b) == CountLinkLines(a) + CountLinkLines(b)
    decreases |b|
  {
    if b == [] {
      assert a + b == a;
    } else {
      CountLinkLinesAppend(a, b[..|b| - 1]);
      assert (a + b)[..|a + b| - 1] == a + b[..|b| - 1];
    }
  }

  /** Lines that are too short or do not start with '-' hold no link line. */
  lemma {:induction false} NoLinkLines(lines: seq<string>)
    requires forall i :: 0 <= i < |lines| ==> |lines[i]| < 5 || lines[i][0] != '-'
    ensures CountLinkLines(lines) == 0
  {
    if lines != [] {
      var last := lines[|lines| - 1];
      NoLinkLines(lines[..|lines| - 1]);
      if |last| >= 5 {
        assert last[..5][0] == last[0];
      }
    }
  }

  /** An article's block holds exactly one link line: the first. */
  lemma ArticleLinesOneLink(a: Article)
    ensures CountLinkLines(ArticleLines(a)) == 1
  {
    var title := if a.title != "" then a.title else UntitledTitle;
    var summary := NormalizeSummary(a.summary);
    var link := [LinkLine(title, a.link)];
    var published := if a.published.Some? then [PublishedLine(a.published.value)] else [];
    var summaryLine := if Present(summary) then [SummaryLine(summary.value)] else [];
    assert LinkLine(title, a.link)[..5] == "- **[";
    assert CountLinkLines(link) == 1 by {
      assert link[..0] == [];
    }
    assert CountLinkLines(published) == 0 by {
      if a.published.Some? {
        assert published[..0] == [];
        assert PublishedLine(a.published.value)[0] == ' ';
      }
    }
    assert CountLinkLines(summaryLine) == 0 by {
      if Present(summary) {
        assert summaryLine[..0] == [];
        assert SummaryLine(summary.value)[0] == ' ';
      }
    }
    CountLinkLinesAppend(link, published);
    CountLinkLinesAppend(link + published, summaryLine);
  }

  lemma {:induction false} ArticlesLinesLinks(xs: seq<Article>)
    ensures CountLinkLines(ArticlesLines(xs)) == |xs|
  {
    if xs != [] {
      ArticlesLinesLinks(xs[..|xs| - 1]);
      ArticleLinesOneLink(xs[|xs| - 1]);
      CountLinkLinesAppend(ArticlesLines(xs[..|xs| - 1]), ArticleLines(xs[|xs| - 1]));
    }
  }

  lemma SectionLinesLinks(source: string, xs: seq<Article>)
    ensures CountLinkLines(SectionLines(source, xs)) == |xs|
  {
    var head: seq<string> := [SectionHeading(source), ""];
    assert SectionHeading(source)[0] == '#';
    NoLinkLines(head);
    NoLinkLines([""]);
    ArticlesLinesLinks(xs);
    CountLinkLinesAppend(head, ArticlesLines(xs));
    CountLinkLinesAppend(head + ArticlesLines(xs), [""]);
  }

  lemma {:induction false} SectionsLinesLinks(keys: seq<string>, articles: seq<Article>)
    ensures CountLinkLines(SectionsLines(keys, articles)) == |Grouped(keys, articles)|
  {
    if keys != [] {
      var init, last := keys[..|keys| - 1], keys[|keys| - 1];
      SectionsLinesLinks(init, articles);
      SectionLinesLinks(last, Group(articles, last));
      CountLinkLinesAppend(SectionsLines(init, articles), SectionLines(last, Group(articles, last)));
    }
  }

  /**
   * Each input article yields exactly one link line: the digest holds as
   * many link lines as there are articles (the header, headings, detail
   * lines and footer are never link lines).
   */
  lemma DigestLinkLines(day: Date, articles: seq<Article>, now: DateTime)
    ensures CountLinkLines(DigestLines(day, articles, now)) == |articles|
  {
    var keys := SourceOrder(articles);
    var head: seq<string> := [Header(day), ""];
    var foot := Footer(|articles|, |keys|, now);
    assert Header(day)[0] == '#';
    NoLinkLines(head);
    assert foot[1][0] == 'T' && foot[2][0] == 'N' && foot[3][0] == 'G';
    NoLinkLines(foot);
    SectionsLinesLinks(keys, articles);
    GroupedIsPermutation(articles);
    assert |Grouped(keys, articles)| == |multiset(Grouped(keys, articles))|;
    CountLinkLinesAppend(head, SectionsLines(keys, articles));
    CountLinkLinesAppend(head + SectionsLines(keys, articles), foot);
  }
}
