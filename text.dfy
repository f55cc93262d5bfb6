/**
 * String helpers shared by the renderer, the summarizers and the URL builder:
 * Python's whitespace test, `str.split()` / `str.join`, `str.strip()`,
 * decimal formatting and substring occurrence.
 */
module Text {

  /** Python's `str.isspace()` for a single character. */
  predicate IsSpace(c: char) {
    || ('\t' <= c <= '\r')               // \t \n \v \f \r
    || ('\U{1C}' <= c <= ' ')            // file/group/record/unit separators and space
    || c == '\U{85}' || c == '\U{A0}' || c == '\U{1680}'
    || ('\U{2000}' <= c <= '\U{200A}')
    || c == '\U{2028}' || c == '\U{2029}' || c == '\U{202F}' || c == '\U{205F}'
    || c == '\U{3000}'
  }

  /** A word as `str.split()` yields it: non-empty, without whitespace. */
  predicate IsWord(w: string) {
    |w| > 0 && forall i :: 0 <= i < |w| ==> !IsSpace(w[i])
  }

  /** Length of the run of non-whitespace characters that starts `s`. */
  function WordLength(s: string): (n: nat)
    ensures n <= |s|
    ensures forall i :: 0 <= i < n ==> !IsSpace(s[i])
    ensures n < |s| ==> IsSpace(s[n])
  {
    if s == [] || IsSpace(s[0]) then 0 else 1 + WordLength(s[1..])
  }

  /** Python's `s.split()` with no argument: the maximal whitespace-free runs, in order. */
  function Words(s: string): (ws: seq<string>)
    decreases |s|
  {
    if s == [] then []
    else if IsSpace(s[0]) then Words(s[1..])
    else
      var n := WordLength(s);
      [s[..n]] + Words(s[n..])
  }

  /** Python's `sep.join(parts)` for a one-character separator. */
  function Join(parts: seq<string>, sep: char): string {
    if |parts| == 0 then ""
    else if |parts| == 1 then parts[0]
    else parts[0] + [sep] + Join(parts[1..], sep)
  }

  /** `" ".join(s.split())`: runs of whitespace become one space, none at either end. */
  function Collapse(s: string): string {
    Join(Words(s), ' ')
  }

  /**
   * The shape `Collapse` produces: the only whitespace is the plain space,
   * never first, never last, never followed by another whitespace character.
   */
  predicate SingleSpaced(s: string) {
    forall i :: 0 <= i < |s| && IsSpace(s[i]) ==>
      s[i] == ' ' && 0 < i && i + 1 < |s| && !IsSpace(s[i + 1])
  }

  lemma {:induction false} WordsAreWords(s: string)
    ensures forall k :: 0 <= k < |Words(s)| ==> IsWord(Words(s)[k])
    decreases |s|
  {
    if s == [] {
    } else if IsSpace(s[0]) {
      WordsAreWords(s[1..]);
    } else {
      var n := WordLength(s);
      WordsAreWords(s[n..]);
    }
  }

  /** Splitting skips any whitespace in front of the text. */
  lemma {:induction false} WordsSkipSpaces(sp: string, t: string)
    requires forall i :: 0 <= i < |sp| ==> IsSpace(sp[i])
    ensures Words(sp + t) == Words(t)
    decreases |sp|
  {
    if sp != [] {
      assert (sp + t)[0] == sp[0] && (sp + t)[1..] == sp[1..] + t;
      assert Words(sp + t) == Words(sp[1..] + t);
      WordsSkipSpaces(sp[1..], t);
    } else {
      assert sp + t == t;
    }
  }

  /** A word followed by nothing or by whitespace is split off whole. */
  lemma WordsOfWordThen(w: string, t: string)
    requires IsWord(w)
    requires t == [] || IsSpace(t[0])
    ensures Words(w + t) == [w] + Words(t)
  {
    WordLengthOfWordThen(w, t);
    assert (w + t)[..|w|] == w;
    assert (w + t)[|w|..] == t;
  }

  lemma {:induction false} WordLengthOfWordThen(w: string, t: string)
    requires forall i :: 0 <= i < |w| ==> !IsSpace(w[i])
    requires t == [] || IsSpace(t[0])
    ensures WordLength(w + t) == |w|
    decreases |w|
  {
    if w != [] {
      assert (w + t)[1..] == w[1..] + t;
      WordLengthOfWordThen(w[1..], t);
    }
  }

  lemma JoinStartsWithFirst(parts: seq<string>, sep: char)
    requires |parts| > 0 && |parts[0]| > 0
    ensures |Join(parts, sep)| > 0 && Join(parts, sep)[0] == parts[0][0]
  {
  }

  /** Round trip: splitting a space-joined list of words gives the words back. */
  lemma {:induction false} WordsOfJoin(ws: seq<string>)
    requires forall k :: 0 <= k < |ws| ==> IsWord(ws[k])
    ensures Words(Join(ws, ' ')) == ws
  {
    if |ws| == 0 {
    } else if |ws| == 1 {
      WordsOfWordThen(ws[0], []);
      assert ws[0] + [] == ws[0];
    } else {
      var rest := Join(ws[1..], ' ');
      assert Join(ws, ' ') == ws[0] + ([' '] + rest);
      WordsOfWordThen(ws[0], [' '] + rest);
      WordsSkipSpaces([' '], rest);
      WordsOfJoin(ws[1..]);
    }
  }

  /** Joining words with single spaces gives the collapsed shape. */
  lemma {:induction false} JoinIsSingleSpaced(ws: seq<string>)
    requires forall k :: 0 <= k < |ws| ==> IsWord(ws[k])
    ensures SingleSpaced(Join(ws, ' '))
    ensures |ws| > 0 ==> |Join(ws, ' ')| > 0 && !IsSpace(Join(ws, ' ')[|Join(ws, ' ')| - 1])
  {
    if |ws| == 1 {
    } else if |ws| > 1 {
      var w, rest := ws[0], Join(ws[1..], ' ');
      JoinIsSingleSpaced(ws[1..]);
      JoinStartsWithFirst(ws[1..], ' ');
      var s := Join(ws, ' ');
      assert s == w + [' '] + rest;
      forall i | 0 <= i < |s| && IsSpace(s[i])
        ensures s[i] == ' ' && 0 < i && i + 1 < |s| && !IsSpace(s[i + 1])
      {
        if i > |w| {
          assert s[i] == rest[i - |w| - 1];
          assert i + 1 < |s| ==> s[i + 1] == rest[i - |w|];
        }
      }
    }
  }

  /** After the first word of collapsed text comes one space and more collapsed text. */
  lemma SingleSpacedRest(s: string, n: nat)
    requires SingleSpaced(s)
    requires n < |s| && IsSpace(s[n])
    ensures s[n] == ' ' && n + 1 < |s| && !IsSpace(s[n + 1])
    ensures SingleSpaced(s[n + 1..])
  {
    var t := s[n + 1..];
    forall i | 0 <= i < |t| && IsSpace(t[i])
      ensures t[i] == ' ' && 0 < i && i + 1 < |t| && !IsSpace(t[i + 1])
    {
      assert s[n + 1 + i] == t[i];
    }
  }

  /** Text that starts with a non-space character has at least one word. */
  lemma WordsNonEmpty(t: string)
    requires t != [] && !IsSpace(t[0])
    ensures |Words(t)| > 0
  {
    assert Words(t) == [t[..WordLength(t)]] + Words(t[WordLength(t)..]);
  }

  /** Text already in collapsed shape is left alone by `Collapse`. */
  lemma {:induction false} CollapseOfSingleSpaced(s: string)
    requires SingleSpaced(s)
    requires s == [] || !IsSpace(s[0])
    ensures Collapse(s) == s
    decreases |s|
  {
    if s != [] {
      var n := WordLength(s);
      var w := s[..n];
      assert IsWord(w);
      if n == |s| {
        WordsOfWordThen(w, []);
        assert s == w + [];
      } else {
        SingleSpacedRest(s, n);
        var t := s[n + 1..];
        assert s == w + ([' '] + t);
        CollapseOfSingleSpaced(t);
        WordsOfWordThen(w, [' '] + t);
        WordsSkipSpaces([' '], t);
        assert Words(s) == [w] + Words(t);
        WordsAreWords(t);
        WordsNonEmpty(t);
        JoinStartsWithFirst(Words(t), ' ');
        assert Join(Words(s), ' ') == w + [' '] + Join(Words(t), ' ');
      }
    }
  }

  /** What `Collapse` promises: the same words, single-spaced, and nothing more to collapse. */
  lemma CollapseCorrect(s: string)
    ensures Words(Collapse(s)) == Words(s)
    ensures SingleSpaced(Collapse(s))
    ensures Collapse(Collapse(s)) == Collapse(s)
    ensures Collapse(s) == [] <==> Words(s) == []
  {
    WordsAreWords(s);
    WordsOfJoin(Words(s));
    JoinIsSingleSpaced(Words(s));
    if Words(s) != [] {
      JoinStartsWithFirst(Words(s), ' ');
    }
  }

  /**
   * Python's `str.strip()` with no argument: whitespace removed from both
   * ends, and everything from the first to the last other character kept.
   */
  function Strip(s: string): (r: string)
    ensures |r| <= |s|
    ensures r == [] || (!IsSpace(r[0]) && !IsSpace(r[|r| - 1]))
    ensures var i := |s| - |StripStart(s)|;
      && i + |r| <= |s| && r == s[i..i + |r|]
      && (forall k :: 0 <= k < i ==> IsSpace(s[k]))
      && (forall k :: i + |r| <= k < |s| ==> IsSpace(s[k]))
  {
    var t := StripStart(s);
    StripMiddle(s, t, StripEnd(t));
    StripEnd(t)
  }

  /** Cutting trailing whitespace from a suffix of `s` leaves a slice of `s` followed by whitespace only. */
  lemma StripMiddle(s: string, t: string, r: string)
    requires |t| <= |s| && t == s[|s| - |t|..]
    requires |r| <= |t| && r == t[..|r|]
    requires forall k :: |r| <= k < |t| ==> IsSpace(t[k])
    ensures var i := |s| - |t|; r == s[i..i + |r|] && forall k :: i + |r| <= k < |s| ==> IsSpace(s[k])
  {
    var i := |s| - |t|;
    forall k | i + |r| <= k < |s| ensures IsSpace(s[k]) {
      assert s[k] == t[k - i];
    }
  }

  /** `lstrip()`: the leading whitespace removed, the rest kept. */
  function StripStart(s: string): (r: string)
    ensures |r| <= |s| && (r == [] || !IsSpace(r[0]))
    ensures r == s[|s| - |r|..]
    ensures forall k :: 0 <= k < |s| - |r| ==> IsSpace(s[k])
  {
    if s != [] && IsSpace(s[0]) then StripStart(s[1..]) else s
  }

  /** `rstrip()`: the trailing whitespace removed, the rest kept. */
  function StripEnd(s: string): (r: string)
    ensures |r| <= |s| && (r == [] || !IsSpace(r[|r| - 1]))
    ensures r == s[..|r|]
    ensures forall k :: |r| <= k < |s| ==> IsSpace(s[k])
  {
    if s != [] && IsSpace(s[|s| - 1]) then StripEnd(s[..|s| - 1]) else s
  }

  /** `str.lower()` restricted to ASCII letters. */
  function AsciiLower(s: string): (r: string)
    ensures |r| == |s|
  {
    seq(|s|, i requires 0 <= i < |s| =>
      if 'A' <= s[i] <= 'Z' then (s[i] as int + 32) as char else s[i])
  }

  function Digit(n: int): char
    requires 0 <= n < 10
  {
    (48 + n) as char
  }

  /** `str(n)` for a non-negative integer. */
  function NatToString(n: nat): (r: string)
    ensures |r| > 0
    ensures forall i :: 0 <= i < |r| ==> '0' <= r[i] <= '9'
  {
    if n < 10 then [Digit(n)] else NatToString(n / 10) + [Digit(n % 10)]
  }

  /** `sub` occurs in `s` starting at index `k`. */
  predicate OccursAt(s: string, sub: string, k: int) {
    0 <= k && k + |sub| <= |s| && s[k..k + |sub|] == sub
  }

  lemma OccursAtConcat(a: string, sub: string, b: string)
    ensures OccursAt(a + sub + b, sub, |a|)
  {
    assert (a + sub + b)[|a|..|a| + |sub|] == sub;
  }
}
