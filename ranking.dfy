/**
  Ordering rows for display: the platform sorts with Python's stable `list.sort`
  and with SQL `ORDER BY`. Both are modelled by one stable insertion sort over a
  "goes strictly before" relation; rows that neither precedes keep their input order.
*/
module Ranking {

  /** `before` is a strict weak order: irreflexive, transitive, and whenever `a` goes
      before `c`, every `b` goes after `a` or before `c`. Every key-based ordering is one. */
  ghost predicate StrictWeakOrder<T(!new)>(before: (T, T) -> bool) {
    && (forall a :: !before(a, a))
    && (forall a, b, c :: before(a, b) && before(b, c) ==> before(a, c))
    && (forall a, b, c :: before(a, c) ==> before(a, b) || before(b, c))
  }

  /** No later element goes strictly before an earlier one. */
  ghost predicate SortedBy<T>(s: seq<T>, before: (T, T) -> bool) {
    forall i, j :: 0 <= i < j < |s| ==> !before(s[j], s[i])
  }

  /** Inserts `x` ahead of the first element that does not go strictly before it. */
  function Insert<T>(x: T, s: seq<T>, before: (T, T) -> bool): (r: seq<T>)
    ensures multiset(r) == multiset(s) + multiset{x}
    ensures |r| == |s| + 1
  {
    if s == [] then [x]
    else if before(s[0], x) then
      assert s == [s[0]] + s[1..];
      [s[0]] + Insert(x, s[1..], before)
    else [x] + s
  }

  /** Stable insertion sort. */
  function Sort<T>(s: seq<T>, before: (T, T) -> bool): (r: seq<T>)
    ensures multiset(r) == multiset(s)
    ensures |r| == |s|
  {
    if s == [] then []
    else
      assert s == [s[0]] + s[1..];
      Insert(s[0], Sort(s[1..], before), before)
  }

  /** When `x` goes after the head of sorted `s`, nothing in `s`'s tail with `x` added goes
      strictly before that head. */
  lemma InsertedNotAhead<T(!new)>(x: T, s: seq<T>, before: (T, T) -> bool, y: T)
    requires StrictWeakOrder(before) && SortedBy(s, before)
    requires s != [] && before(s[0], x) && y in multiset(s[1..]) + multiset{x}
    ensures !before(y, s[0])
  {
    if y != x {
      assert y in s[1..];
      var k :| 0 <= k < |s[1..]| && s[1..][k] == y;
      assert s[k + 1] == y;
    }
  }

  lemma {:induction false} InsertSorted<T(!new)>(x: T, s: seq<T>, before: (T, T) -> bool)
    requires StrictWeakOrder(before)
    requires SortedBy(s, before)
    ensures SortedBy(Insert(x, s, before), before)
  {
    if s == [] {
    } else if before(s[0], x) {
      var rest := Insert(x, s[1..], before);
      InsertSorted(x, s[1..], before);
      var r := [s[0]] + rest;
      forall i, j | 0 <= i < j < |r| ensures !before(r[j], r[i]) {
        if i == 0 {
          assert r[j] in multiset(rest);
          InsertedNotAhead(x, s, before, r[j]);
        } else {
          assert r[j] == rest[j - 1] && r[i] == rest[i - 1];
        }
      }
    } else {
      var r := [x] + s;
      forall i, j | 0 <= i < j < |r| ensures !before(r[j], r[i]) {
        if i == 0 {
          assert r[j] == s[j - 1];
          if j - 1 > 0 {
            assert !before(s[j - 1], s[0]);
          }
        } else {
          assert r[j] == s[j - 1] && r[i] == s[i - 1];
        }
      }
    }
  }

  /** The sort's output is ordered by `before` and is a permutation of its input. */
  lemma {:induction false} SortSorted<T(!new)>(s: seq<T>, before: (T, T) -> bool)
    requires StrictWeakOrder(before)
    ensures SortedBy(Sort(s, before), before)
    ensures multiset(Sort(s, before)) == multiset(s)
  {
    if s != [] {
      SortSorted(s[1..], before);
      InsertSorted(s[0], Sort(s[1..], before), before);
    }
  }

  /** In a sorted sequence an element strictly before another sits at a smaller index. */
  lemma AheadIndex<T(!new)>(s: seq<T>, before: (T, T) -> bool, i: int, j: int)
    requires StrictWeakOrder(before) && SortedBy(s, before)
    requires 0 <= i < |s| && 0 <= j < |s| && before(s[i], s[j])
    ensures i < j
  {
  }

  /** `rows[:limit]`. */
  function Take<T>(s: seq<T>, limit: nat): (r: seq<T>)
    ensures |r| == if |s| < limit then |s| else limit
    ensures r == s[..|r|]
  {
    if |s| <= limit then s else s[..limit]
  }

  /** `sorted(rows)[:limit]` keeps the best: every row left out goes strictly before no
      kept row, and when nothing needs cutting every row is kept. */
  lemma TakeSortedKeepsBest<T(!new)>(s: seq<T>, before: (T, T) -> bool, limit: nat)
    requires StrictWeakOrder(before)
    ensures var r := Take(Sort(s, before), limit);
            && (|s| <= limit ==> multiset(r) == multiset(s))
            && forall x, y :: x in multiset(s) - multiset(r) && y in r ==> !before(x, y)
  {
    var sorted := Sort(s, before);
    SortSorted(s, before);
    var n := |Take(sorted, limit)|;
    LeftOutIsSuffix(sorted, n);
    SuffixNotBefore(sorted, before, n);
  }

  /** Cutting a sequence at `n` leaves out exactly its suffix from `n`. */
  lemma LeftOutIsSuffix<T>(s: seq<T>, n: nat)
    requires n <= |s|
    ensures multiset(s) - multiset(s[..n]) == multiset(s[n..])
  {
    assert s == s[..n] + s[n..];
  }

  /** In a sorted sequence nothing after position `n` goes before anything ahead of it. */
  lemma SuffixNotBefore<T>(s: seq<T>, before: (T, T) -> bool, n: nat)
    requires SortedBy(s, before) && n <= |s|
    ensures forall x, y :: x in multiset(s[n..]) && y in s[..n] ==> !before(x, y)
  {
    forall x, y | x in multiset(s[n..]) && y in s[..n] ensures !before(x, y) {
      assert x in s[n..];
      var i :| 0 <= i < |s[n..]| && s[n..][i] == x;
      var j :| 0 <= j < n && s[..n][j] == y;
      assert s[n + i] == x && s[j] == y;
    }
  }
}
