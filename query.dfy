/**
 * The relational steps the store's queries are made of: WHERE (filter),
 * ORDER BY ... DESC (sort by a key, largest first) and LIMIT (take).
 */
module Query {

  function Filter<T(!new)>(s: seq<T>, p: T -> bool): (r: seq<T>)
    ensures |r| <= |s|
    ensures forall x :: x in r <==> x in s && p(x)
    ensures multiset(r) <= multiset(s)
  {
    if s == [] then []
    else
      assert s == [s[0]] + s[1..];
      (if p(s[0]) then [s[0]] else []) + Filter(s[1..], p)
  }

  lemma {:induction false} FilterSnoc<T(!new)>(s: seq<T>, x: T, p: T -> bool)
    ensures Filter(s + [x], p) == Filter(s, p) + (if p(x) then [x] else [])
  {
    if s == [] {
      assert [] + [x] == [x];
    } else {
      assert (s + [x])[1..] == s[1..] + [x];
      FilterSnoc(s[1..], x, p);
    }
  }

  /** WHERE keeps every matching row as often as it occurs, and no other row. */
  lemma {:induction false} FilterCount<T(!new)>(s: seq<T>, p: T -> bool)
    ensures forall x :: multiset(Filter(s, p))[x] == if p(x) then multiset(s)[x] else 0
  {
    if s != [] {
      assert s == [s[0]] + s[1..];
      FilterCount(s[1..], p);
    }
  }

  /** A sort key compared lexicographically: `ORDER BY primary DESC, secondary DESC`. */
  datatype SortKey = SortKey(primary: int, secondary: int)

  predicate KeyLe(a: SortKey, b: SortKey) {
    a.primary < b.primary || (a.primary == b.primary && a.secondary <= b.secondary)
  }

  /** Non-increasing by key; the order among equal keys is left open. */
  ghost predicate SortedDesc<T>(s: seq<T>, key: T -> SortKey) {
    forall i, j :: 0 <= i < j < |s| ==> KeyLe(key(s[j]), key(s[i]))
  }

  function InsertDesc<T(!new)>(x: T, s: seq<T>, key: T -> SortKey): (r: seq<T>)
    ensures multiset(r) == multiset(s) + multiset{x}
    ensures forall y :: y in r ==> y == x || y in s
    ensures SortedDesc(s, key) ==> SortedDesc(r, key)
  {
    if s == [] || KeyLe(key(s[0]), key(x)) then [x] + s
    else
      assert s == [s[0]] + s[1..];
      var rest := InsertDesc(x, s[1..], key);
      assert SortedDesc(s, key) ==> forall y :: y in rest ==> KeyLe(key(y), key(s[0]));
      [s[0]] + rest
  }

  /** An ORDER BY ... DESC: a non-increasing permutation of `s`. */
  function SortDesc<T(!new)>(s: seq<T>, key: T -> SortKey): (r: seq<T>)
    ensures multiset(r) == multiset(s)
    ensures SortedDesc(r, key)
  {
    if s == [] then []
    else
      assert s == [s[0]] + s[1..];
      InsertDesc(s[0], SortDesc(s[1..], key), key)
  }

  /** SQL LIMIT as SQLite reads it: a negative limit means no limit. */
  function Take<T>(s: seq<T>, limit: int): (r: seq<T>)
    ensures |r| == if 0 <= limit < |s| then limit else |s|
    ensures r == s[..|r|]
  {
    if 0 <= limit < |s| then s[..limit] else s
  }

  /** ORDER BY key DESC LIMIT limit. */
  function TopK<T(!new)>(s: seq<T>, key: T -> SortKey, limit: int): seq<T> {
    Take(SortDesc(s, key), limit)
  }

  /**
   * What ORDER BY DESC LIMIT returns: at most `limit` of the rows (all of
   * them when the limit is negative or large enough), largest key first,
   * and no row left out has a larger key than any row returned.
   */
  lemma TopKCorrect<T(!new)>(s: seq<T>, key: T -> SortKey, limit: int)
    ensures |TopK(s, key, limit)| == if 0 <= limit < |s| then limit else |s|
    ensures multiset(TopK(s, key, limit)) <= multiset(s)
    ensures SortedDesc(TopK(s, key, limit), key)
    ensures forall x, y :: x in s && x !in TopK(s, key, limit) && y in TopK(s, key, limit) ==> KeyLe(key(x), key(y))
  {
    var t := SortDesc(s, key);
    var r := TopK(s, key, limit);
    assert t == r + t[|r|..];
    assert multiset(t) == multiset(r) + multiset(t[|r|..]);
    forall x, y | x in s && x !in r && y in r ensures KeyLe(key(x), key(y)) {
      assert x in multiset(t);
      var i :| 0 <= i < |t| && t[i] == x;
      var j :| 0 <= j < |r| && r[j] == y;
      assert forall k :: 0 <= k < |r| ==> t[k] == r[k];
      assert t[j] == y;
    }
  }
}
