/**
 * The in-place `Array.prototype.sort` calls the views make on report arrays,
 * ordered by `createdAt` either oldest first (`a - b`) or newest first
 * (`b - a`). Both orders are "ascending by rank", where the rank is the
 * timestamp or its negation. The sort is stable, as `Array.prototype.sort`
 * must be: reports of equal rank keep their input order.
 */
module Sorting {
  import opened Types

  /** The value the comparator effectively sorts by, ascending. */
  function Rank(r: Report, newestFirst: bool): int {
    if newestFirst then -r.createdAt.millis else r.createdAt.millis
  }

  /** `s` lists its reports oldest first, or newest first when `newestFirst`. */
  predicate Chronological(s: seq<Report>, newestFirst: bool) {
    forall i, j :: 0 <= i < j < |s| ==> Rank(s[i], newestFirst) <= Rank(s[j], newestFirst)
  }

  /** Newest first means no later entry was created after an earlier one. */
  lemma NewestFirstMeaning(s: seq<Report>)
    requires Chronological(s, true)
    ensures forall i, j :: 0 <= i < j < |s| ==> s[i].createdAt.millis >= s[j].createdAt.millis
  {
    forall i, j | 0 <= i < j < |s|
      ensures s[i].createdAt.millis >= s[j].createdAt.millis
    {
      assert Rank(s[i], true) <= Rank(s[j], true);
    }
  }

  /** The reports of `s` whose rank is `key`, in the order `s` lists them. */
  function Tied(s: seq<Report>, key: int, newestFirst: bool): seq<Report>
    decreases |s|
  {
    if |s| == 0 then []
    else Tied(s[..|s| - 1], key, newestFirst)
         + (if Rank(s[|s| - 1], newestFirst) == key then [s[|s| - 1]] else [])
  }

  lemma {:induction false} TiedAppend(s: seq<Report>, t: seq<Report>, key: int, newestFirst: bool)
    ensures Tied(s + t, key, newestFirst) == Tied(s, key, newestFirst) + Tied(t, key, newestFirst)
    decreases |t|
  {
    if |t| == 0 {
      assert s + t == s;
    } else {
      var u := t[..|t| - 1];
      assert (s + t)[..|s + t| - 1] == s + u;
      TiedAppend(s, u, key, newestFirst);
    }
  }

  /** The tied reports of a prefix are a prefix of the tied reports of the whole. */
  lemma {:induction false} PrefixKeepsTies(s: seq<Report>, k: int, key: int, newestFirst: bool)
    requires 0 <= k <= |s|
    ensures Tied(s[..k], key, newestFirst) <= Tied(s, key, newestFirst)
  {
    assert s == s[..k] + s[k..];
    TiedAppend(s[..k], s[k..], key, newestFirst);
  }

  /**
   * Inserting `x` into `t` the way one step of insertion sort does: `x`
   * moves left past every entry of strictly higher rank, and no further.
   */
  function Insert(t: seq<Report>, x: Report, newestFirst: bool): (r: seq<Report>)
    ensures |r| == |t| + 1
    decreases |t|
  {
    if |t| == 0 || Rank(t[|t| - 1], newestFirst) <= Rank(x, newestFirst) then t + [x]
    else Insert(t[..|t| - 1], x, newestFirst) + [t[|t| - 1]]
  }

  /** The stable sort by rank: each report in turn inserted into the sorted reports before it. */
  function InsertionSorted(s: seq<Report>, newestFirst: bool): (r: seq<Report>)
    ensures |r| == |s|
    decreases |s|
  {
    if |s| == 0 then []
    else Insert(InsertionSorted(s[..|s| - 1], newestFirst), s[|s| - 1], newestFirst)
  }

  lemma {:induction false} InsertPermutes(t: seq<Report>, x: Report, newestFirst: bool)
    ensures multiset(Insert(t, x, newestFirst)) == multiset(t) + multiset{x}
    decreases |t|
  {
    if !(|t| == 0 || Rank(t[|t| - 1], newestFirst) <= Rank(x, newestFirst)) {
      var u := t[..|t| - 1];
      InsertPermutes(u, x, newestFirst);
      assert t == u + [t[|t| - 1]];
    }
  }

  lemma {:induction false} InsertOrdered(t: seq<Report>, x: Report, newestFirst: bool)
    requires Chronological(t, newestFirst)
    ensures Chronological(Insert(t, x, newestFirst), newestFirst)
    decreases |t|
  {
    if !(|t| == 0 || Rank(t[|t| - 1], newestFirst) <= Rank(x, newestFirst)) {
      var u := t[..|t| - 1];
      var y := t[|t| - 1];
      var v := Insert(u, x, newestFirst);
      InsertOrdered(u, x, newestFirst);
      InsertPermutes(u, x, newestFirst);
      forall k | 0 <= k < |v|
        ensures Rank(v[k], newestFirst) <= Rank(y, newestFirst)
      {
        assert v[k] in multiset(v);
        if v[k] != x {
          assert v[k] in multiset(u);
          var m :| 0 <= m < |u| && u[m] == v[k];
          assert t[m] == u[m];
        }
      }
    }
  }

  /** Insertion passes only entries of another rank, so each rank's entries keep their order. */
  lemma {:induction false} InsertStable(t: seq<Report>, x: Report, key: int, newestFirst: bool)
    ensures Tied(Insert(t, x, newestFirst), key, newestFirst) == Tied(t + [x], key, newestFirst)
    decreases |t|
  {
    if !(|t| == 0 || Rank(t[|t| - 1], newestFirst) <= Rank(x, newestFirst)) {
      var u := t[..|t| - 1];
      var y := t[|t| - 1];
      InsertStable(u, x, key, newestFirst);
      TiedAppend(Insert(u, x, newestFirst), [y], key, newestFirst);
      TiedAppend(u, [x], key, newestFirst);
      TiedAppend(u + [y], [x], key, newestFirst);
      TiedAppend(u, [y], key, newestFirst);
      assert t == u + [y];
      assert Tied([x], key, newestFirst) + Tied([y], key, newestFirst)
          == Tied([y], key, newestFirst) + Tied([x], key, newestFirst);
    }
  }

  /** The sorted reports are in order. */
  lemma {:induction false} InsertionSortedOrdered(s: seq<Report>, newestFirst: bool)
    ensures Chronological(InsertionSorted(s, newestFirst), newestFirst)
    decreases |s|
  {
    if |s| > 0 {
      InsertionSortedOrdered(s[..|s| - 1], newestFirst);
      InsertOrdered(InsertionSorted(s[..|s| - 1], newestFirst), s[|s| - 1], newestFirst);
    }
  }

  /** The sorted reports are the input's reports, each as often. */
  lemma {:induction false} InsertionSortedPermutes(s: seq<Report>, newestFirst: bool)
    ensures multiset(InsertionSorted(s, newestFirst)) == multiset(s)
    decreases |s|
  {
    if |s| > 0 {
      var u := s[..|s| - 1];
      var x := s[|s| - 1];
      var sorted := InsertionSorted(u, newestFirst);
      calc {
        multiset(InsertionSorted(s, newestFirst));
        multiset(Insert(sorted, x, newestFirst));
        { InsertPermutes(sorted, x, newestFirst); }
        multiset(sorted) + multiset{x};
        { InsertionSortedPermutes(u, newestFirst); }
        multiset(u) + multiset{x};
        { assert s == u + [x]; }
        multiset(s);
      }
    }
  }

  /** The sort is stable: the reports of any one rank come out in their input order. */
  lemma {:induction false} InsertionSortedStable(s: seq<Report>, key: int, newestFirst: bool)
    ensures Tied(InsertionSorted(s, newestFirst), key, newestFirst) == Tied(s, key, newestFirst)
    decreases |s|
  {
    if |s| > 0 {
      var u := s[..|s| - 1];
      var x := s[|s| - 1];
      var sorted := InsertionSorted(u, newestFirst);
      var last := if Rank(x, newestFirst) == key then [x] else [];
      calc {
        Tied(InsertionSorted(s, newestFirst), key, newestFirst);
        Tied(Insert(sorted, x, newestFirst), key, newestFirst);
        { InsertStable(sorted, x, key, newestFirst); }
        Tied(sorted + [x], key, newestFirst);
        { assert (sorted + [x])[..|sorted + [x]| - 1] == sorted; }
        Tied(sorted, key, newestFirst) + last;
        { InsertionSortedStable(u, key, newestFirst); }
        Tied(u, key, newestFirst) + last;
        Tied(s, key, newestFirst);
      }
    }
  }

  /** One swap of insertion: `x` at `j` passes its higher-ranked left neighbour. */
  lemma {:induction false} SwapKeepsInsert(b: seq<Report>, j: int, i: int, newestFirst: bool)
    requires 0 < j <= i < |b| && Rank(b[j], newestFirst) < Rank(b[j - 1], newestFirst)
    ensures var c := b[j - 1 := b[j]][j := b[j - 1]];
      Insert(b[..j], b[j], newestFirst) + b[j + 1..i + 1] == Insert(c[..j - 1], b[j], newestFirst) + c[j..i + 1]
  {
    var c := b[j - 1 := b[j]][j := b[j - 1]];
    assert b[..j][..j - 1] == b[..j - 1] == c[..j - 1];
    assert c[j..i + 1] == [b[j - 1]] + b[j + 1..i + 1];
  }

  /** Insertion stops at `j` when the left neighbour ranks no higher. */
  lemma {:induction false} StopKeepsInsert(b: seq<Report>, j: int, i: int, newestFirst: bool)
    requires 0 <= j <= i < |b| && (j == 0 || Rank(b[j - 1], newestFirst) <= Rank(b[j], newestFirst))
    ensures Insert(b[..j], b[j], newestFirst) + b[j + 1..i + 1] == b[..i + 1]
  {
    assert b[..i + 1] == b[..j] + [b[j]] + b[j + 1..i + 1];
  }

  /** Moves `a[i]` left past every entry of higher rank: the prefix `a[..i + 1]` becomes `Insert(a[..i], a[i])`. */
  method InsertLeft(a: array<Report>, i: int, newestFirst: bool)
    requires 0 <= i < a.Length
    modifies a
    ensures a[..i + 1] == Insert(old(a[..i]), old(a[i]), newestFirst)
    ensures a[i + 1..] == old(a[i + 1..])
  {
    ghost var prefix := a[..i];
    ghost var x := a[i];
    var j := i;
    assert a[..j] == prefix && a[j + 1..i + 1] == [];
    while j > 0 && Rank(a[j], newestFirst) < Rank(a[j - 1], newestFirst)
      invariant 0 <= j <= i
      invariant a[j] == x
      invariant a[i + 1..] == old(a[i + 1..])
      invariant Insert(prefix, x, newestFirst) == Insert(a[..j], x, newestFirst) + a[j + 1..i + 1]
    {
      SwapKeepsInsert(a[..], j, i, newestFirst);
      a[j - 1], a[j] := a[j], a[j - 1];
      j := j - 1;
    }
    StopKeepsInsert(a[..], j, i, newestFirst);
  }

  /**
   * Sorts `a` in place by creation time (an insertion sort): the array ends
   * as the stable sort of its old contents, so it is in order, holds the
   * same reports, and keeps equal-time reports in their old order.
   */
  method SortByCreatedAt(a: array<Report>, newestFirst: bool)
    modifies a
    ensures a[..] == InsertionSorted(old(a[..]), newestFirst)
    ensures Chronological(a[..], newestFirst)
    ensures multiset(a[..]) == multiset(old(a[..]))
    ensures forall key :: Tied(a[..], key, newestFirst) == Tied(old(a[..]), key, newestFirst)
  {
    ghost var s := a[..];
    var i := 0;
    while i < a.Length
      invariant 0 <= i <= a.Length
      invariant a[..i] == InsertionSorted(s[..i], newestFirst)
      invariant a[i..] == s[i..]
    {
      assert a[i] == s[i] && a[i + 1..] == s[i + 1..];
      InsertLeft(a, i, newestFirst);
      assert s[..i + 1][..i] == s[..i];
      i := i + 1;
    }
    assert a[..] == a[..a.Length] && s == s[..a.Length];
    InsertionSortedOrdered(s, newestFirst);
    InsertionSortedPermutes(s, newestFirst);
    forall key
      ensures Tied(a[..], key, newestFirst) == Tied(s, key, newestFirst)
    {
      InsertionSortedStable(s, key, newestFirst);
    }
  }
}
