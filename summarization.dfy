/**
 * The `Summarizer` protocol and its two deterministic mock implementations,
 * the English one of the newer package and the French one of the older.
 */
module Summarization {
  import opened Text

  /** The dict `summarize` returns: `{"summary": ..., "bullets": [...]}`. */
  datatype SummaryPayload = SummaryPayload(summary: string, bullets: seq<string>)

  /** The implementations of the `Summarizer` protocol that are modelled. */
  datatype Summarizer = MockSummarizer | LegacyMockSummarizer

  /**
   * The fixed wording a mock fills the title into: the summary is
   * `lead + title + middle + title.lower().strip() + ")."`, the bullets are
   * `context + title` followed by the fixed `second` and `third`.
   */
  datatype Wording = Wording(lead: string, middle: string, context: string, second: string, third: string)

  const SummaryEnd: string := ")."

  /** The wording of each mock. */
  function WordingOf(s: Summarizer): Wording {
    match s
    case MockSummarizer =>
      Wording(
        "Mock summary: the article '",
        "' highlights key robotics and AI points. This output is generated locally for tests without external API calls (",
        "Main context: ",
        "Technical points generated automatically",
        "Confidence level: mock mode")
    case LegacyMockSummarizer =>
      Wording(
        "Résumé mock: l'article '",
        "' présente les points clés en robotique/IA. Ce contenu est généré localement pour tests sans API externe (",
        "Contexte principal: ",
        "Points techniques synthétisés automatiquement",
        "Niveau de confiance: mode mock")
  }

  /** `title.lower().strip()`. */
  function Lowered(title: string): string {
    Strip(AsciiLower(title))
  }

  /** The summary text a wording gives for a title and its lowered form. */
  function Quote(w: Wording, title: string, lowered: string): string {
    w.lead + title + w.middle + lowered + SummaryEnd
  }

  /** The payload a wording gives for a title. */
  function Payload(w: Wording, title: string): SummaryPayload {
    SummaryPayload(Quote(w, title, Lowered(title)), [w.context + title, w.second, w.third])
  }

  /**
   * `summarizer.summarize(title, text)`: the English mock of the newer
   * package or the French one of the older; the text is accepted and never read.
   */
  function Summarize(s: Summarizer, title: string, text: string): (p: SummaryPayload)
    ensures |p.bullets| == 3
  {
    Payload(WordingOf(s), title)
  }

  /** A quote holds the title right after the lead, and ends with the lowered title and ")." */
  lemma QuoteOccurs(w: Wording, title: string, lowered: string)
    ensures OccursAt(Quote(w, title, lowered), title, |w.lead|)
    ensures OccursAt(Quote(w, title, lowered), lowered + SummaryEnd, |Quote(w, title, lowered)| - |lowered + SummaryEnd|)
  {
    var q := Quote(w, title, lowered);
    assert q[|w.lead|..|w.lead| + |title|] == title;
    assert q[|q| - |lowered + SummaryEnd|..] == lowered + SummaryEnd;
  }

  /**
   * The bullets both mocks promise: three of them, the first the context
   * label followed by the title, the other two fixed whatever the title.
   */
  lemma PayloadBullets(w: Wording, title: string, other: string)
    ensures var b := Payload(w, title).bullets;
      && |b| == 3 && b[0] == w.context + title && b[1..] == [w.second, w.third]
      && b[1..] == Payload(w, other).bullets[1..]
  {
  }

  /**
   * The summary both mocks promise: it quotes the title verbatim after the
   * lead and ends with the lowered, stripped title in parentheses.
   */
  lemma PayloadQuotes(w: Wording, title: string)
    ensures var summary := Payload(w, title).summary;
      && OccursAt(summary, title, |w.lead|)
      && OccursAt(summary, Lowered(title) + SummaryEnd, |summary| - |Lowered(title) + SummaryEnd|)
  {
    var lowered := Lowered(title);
    assert Payload(w, title).summary == Quote(w, title, lowered);
    QuoteOccurs(w, title, lowered);
  }

  /**
   * The payload determines the title: the first bullet gives it back, so
   * different titles never share a payload.
   */
  lemma PayloadDeterminesTitle(w: Wording, t1: string, t2: string)
    ensures Payload(w, t1) == Payload(w, t2) <==> t1 == t2
  {
    if Payload(w, t1) == Payload(w, t2) {
      var b1, b2 := Payload(w, t1).bullets[0], Payload(w, t2).bullets[0];
      assert b1[|w.context|..] == t1;
      assert b2[|w.context|..] == t2;
    }
  }

  /**
   * A mock's answer depends on the title alone: equal titles give equal
   * payloads whatever the texts, and different titles never share one.
   */
  lemma SummarizeDeterminesTitle(s: Summarizer, t1: string, x1: string, t2: string, x2: string)
    ensures Summarize(s, t1, x1) == Summarize(s, t2, x2) <==> t1 == t2
  {
    PayloadDeterminesTitle(WordingOf(s), t1, t2);
  }
}
