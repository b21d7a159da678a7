/** Ordering of result tables: a stable insertion sort by a caller-chosen
    "goes before" relation, and pandas' `head(n)` after it. Both screeners
    and the ranker sort their rows with `sort_values(..., ascending=False)`
    and then keep the first rows. */
module Sorting {
  import opened Stats

  /** Any two elements are comparable. */
  ghost predicate Total<T(!new)>(before: (T, T) -> bool)
  {
    forall a, b :: before(a, b) || before(b, a)
  }

  ghost predicate Transitive<T(!new)>(before: (T, T) -> bool)
  {
    forall a, b, c :: before(a, b) && before(b, c) ==> before(a, c)
  }

  /** Every element goes before (or ties with) every later one. */
  predicate SortedBy<T>(s: seq<T>, before: (T, T) -> bool)
  {
    forall i, j :: 0 <= i < j < |s| ==> before(s[i], s[j])
  }

  /** `a` goes strictly before `b`: before it and not tied with it. */
  predicate StrictlyBefore<T>(a: T, b: T, before: (T, T) -> bool)
  {
    before(a, b) && !before(b, a)
  }

  /** Put `x` in front of the first element it goes strictly before, so
      that it stays behind the elements it ties with. */
  function Insert<T>(x: T, s: seq<T>, before: (T, T) -> bool): (r: seq<T>)
    ensures |r| == |s| + 1
    ensures multiset(r) == multiset(s) + multiset{x}
    decreases |s|
  {
    if |s| == 0 then [x]
    else if StrictlyBefore(x, s[0], before) then [x] + s
    else
      assert s == [s[0]] + s[1..];
      [s[0]] + Insert(x, s[1..], before)
  }

  function SortBy<T>(s: seq<T>, before: (T, T) -> bool): (r: seq<T>)
    ensures |r| == |s|
    ensures multiset(r) == multiset(s)
    decreases |s|
  {
    if |s| == 0 then []
    else
      assert s == s[..|s| - 1] + [s[|s| - 1]];
      Insert(s[|s| - 1], SortBy(s[..|s| - 1], before), before)
  }

  lemma {:induction false} InsertSorted<T(!new)>(x: T, s: seq<T>, before: (T, T) -> bool)
    requires Total(before) && Transitive(before)
    requires SortedBy(s, before)
    ensures SortedBy(Insert(x, s, before), before)
    decreases |s|
  {
    if |s| == 0 {
    } else if StrictlyBefore(x, s[0], before) {
      ConsSorted(x, s, before);
    } else {
      var t := s[1..];
      assert SortedBy(t, before) by {
        forall i, j | 0 <= i < j < |t| ensures before(t[i], t[j]) {
          assert t[i] == s[i + 1] && t[j] == s[j + 1];
        }
      }
      InsertSorted(x, t, before);
      HeadBeforeInsert(x, s, before);
    }
  }

  /** An element that goes before the head of a sorted sequence may lead it. */
  lemma ConsSorted<T(!new)>(x: T, s: seq<T>, before: (T, T) -> bool)
    requires Transitive(before)
    requires SortedBy(s, before) && |s| > 0 && before(x, s[0])
    ensures SortedBy([x] + s, before)
  {
    var r := [x] + s;
    forall i, j | 0 <= i < j < |r| ensures before(r[i], r[j]) {
      if i > 0 {
        assert r[i] == s[i - 1] && r[j] == s[j - 1];
      } else {
        assert r[j] == s[j - 1];
        if j > 1 {
          assert before(s[0], s[j - 1]);
        }
      }
    }
  }

  /** When `x` does not go strictly before the head, the head still leads
      the sorted insertion of `x` into the rest. */
  lemma HeadBeforeInsert<T(!new)>(x: T, s: seq<T>, before: (T, T) -> bool)
    requires Total(before)
    requires SortedBy(s, before) && |s| > 0 && !StrictlyBefore(x, s[0], before)
    requires SortedBy(Insert(x, s[1..], before), before)
    ensures SortedBy([s[0]] + Insert(x, s[1..], before), before)
  {
    var t := s[1..];
    var u := Insert(x, t, before);
    var r := [s[0]] + u;
    assert before(s[0], x);
    forall k | 0 <= k < |u| ensures before(s[0], u[k]) {
      assert u[k] in multiset(u);
      assert u[k] in multiset(t) + multiset{x};
      if u[k] != x {
        assert u[k] in multiset(t);
        var m :| 0 <= m < |t| && t[m] == u[k];
        assert t[m] == s[m + 1];
      }
    }
    forall i, j | 0 <= i < j < |r| ensures before(r[i], r[j]) {
      if i == 0 {
        assert r[j] == u[j - 1];
      } else {
        assert r[i] == u[i - 1] && r[j] == u[j - 1];
      }
    }
  }

  lemma {:induction false} SortBySorted<T(!new)>(s: seq<T>, before: (T, T) -> bool)
    requires Total(before) && Transitive(before)
    ensures SortedBy(SortBy(s, before), before)
    decreases |s|
  {
    if |s| > 0 {
      SortBySorted(s[..|s| - 1], before);
      InsertSorted(s[|s| - 1], SortBy(s[..|s| - 1], before), before);
    }
  }

  /** An element that every element of `s` goes before (or ties with) is
      put last. */
  lemma {:induction false} InsertAfterAll<T>(x: T, s: seq<T>, before: (T, T) -> bool)
    requires forall k :: 0 <= k < |s| ==> before(s[k], x)
    ensures Insert(x, s, before) == s + [x]
    decreases |s|
  {
    if |s| > 0 {
      assert s[1..] + [x] == (s + [x])[1..];
      InsertAfterAll(x, s[1..], before);
      assert s == [s[0]] + s[1..];
    }
  }

  /** The sort is stable: rows that all tie keep their input order. */
  lemma {:induction false} SortByKeepsTies<T>(s: seq<T>, before: (T, T) -> bool)
    requires forall i, j :: 0 <= i < |s| && 0 <= j < |s| ==> before(s[i], s[j])
    ensures SortBy(s, before) == s
    decreases |s|
  {
    if |s| > 0 {
      var p := s[..|s| - 1];
      SortByKeepsTies(p, before);
      InsertAfterAll(s[|s| - 1], p, before);
      assert p + [s[|s| - 1]] == s;
    }
  }

  /** `sort_values(...).head(n)`: at most `n` rows, drawn from the input. */
  function TopN<T>(s: seq<T>, n: nat, before: (T, T) -> bool): (r: seq<T>)
    ensures |r| == MinNat(n, |s|)
    ensures multiset(r) <= multiset(s)
  {
    var t := SortBy(s, before);
    assert t == t[..MinNat(n, |s|)] + t[MinNat(n, |s|)..];
    Head(t, n)
  }

  /** The kept rows are in order, and every row that was cut goes after
      every kept one. */
  lemma TopNIsBest<T(!new)>(s: seq<T>, n: nat, before: (T, T) -> bool)
    requires Total(before) && Transitive(before)
    ensures SortedBy(TopN(s, n, before), before)
    ensures forall i, j :: 0 <= i < |TopN(s, n, before)| <= j < |s|
              ==> before(TopN(s, n, before)[i], SortBy(s, before)[j])
  {
    SortBySorted(s, before);
  }
}
