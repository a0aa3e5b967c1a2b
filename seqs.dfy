/** Sequence operations the source takes from `Array.prototype`: `filter`, `map`, `find`, `flatMap`. */
module Seqs {
  import opened Wrappers

  /** `r` is obtained from `s` by deleting elements, keeping the order of the rest. */
  ghost predicate IsSubsequence<T>(r: seq<T>, s: seq<T>)
    decreases |s|
  {
    if r == [] then true
    else if s == [] then false
    else if r[0] == s[0] then IsSubsequence(r[1..], s[1..])
    else IsSubsequence(r, s[1..])
  }

  /** `Array.prototype.filter`: the elements of `s` that satisfy `keep`, in their order, each as often as in `s`. */
  function Filter<T(==,!new)>(s: seq<T>, keep: T -> bool): (r: seq<T>)
    ensures |r| <= |s|
    ensures forall x :: x in r <==> x in s && keep(x)
    ensures forall x :: multiset(r)[x] == if keep(x) then multiset(s)[x] else 0
    ensures IsSubsequence(r, s)
  {
    if s == [] then []
    else
      var rest := Filter(s[1..], keep);
      assert s == [s[0]] + s[1..];
      if keep(s[0]) then
        assert ([s[0]] + rest)[1..] == rest;
        [s[0]] + rest
      else
        assert rest != [] ==> rest[0] != s[0] && keep(rest[0]);
        SubsequenceSkip(rest, s);
        rest
  }

  /** Dropping the head of `s` preserves being a subsequence when `r` does not start with it. */
  lemma {:induction false} SubsequenceSkip<T>(r: seq<T>, s: seq<T>)
    requires s != [] && IsSubsequence(r, s[1..])
    requires r != [] ==> r[0] != s[0]
    ensures IsSubsequence(r, s)
  {
  }

  /** Filtering distributes over concatenation: the order of the input is the order of the output. */
  lemma {:induction false} FilterAppend<T(!new)>(a: seq<T>, b: seq<T>, keep: T -> bool)
    ensures Filter(a + b, keep) == Filter(a, keep) + Filter(b, keep)
  {
    if a == [] {
      assert a + b == b;
    } else {
      assert (a + b)[0] == a[0];
      assert (a + b)[1..] == a[1..] + b;
      FilterAppend(a[1..], b, keep);
      var rest := Filter(a[1..], keep);
      var tail := Filter(b, keep);
      if keep(a[0]) {
        assert Filter(a + b, keep) == [a[0]] + (rest + tail);
        assert Filter(a, keep) == [a[0]] + rest;
        AppendAssoc([a[0]], rest, tail);
      } else {
        assert Filter(a + b, keep) == rest + tail;
        assert Filter(a, keep) == rest;
      }
    }
  }

  /** A filter that keeps everything is the identity. */
  lemma {:induction false} FilterKeepsAll<T(!new)>(s: seq<T>, keep: T -> bool)
    requires forall x :: x in s ==> keep(x)
    ensures Filter(s, keep) == s
  {
    if s != [] {
      assert forall x :: x in s[1..] ==> x in s;
      FilterKeepsAll(s[1..], keep);
    }
  }

  /** `Array.prototype.map`. */
  function Map<A, B>(f: A -> B, s: seq<A>): (r: seq<B>)
    ensures |r| == |s|
    ensures forall i :: 0 <= i < |s| ==> r[i] == f(s[i])
  {
    seq(|s|, i requires 0 <= i < |s| => f(s[i]))
  }

  lemma MapAppend<A, B>(f: A -> B, a: seq<A>, b: seq<A>)
    ensures Map(f, a + b) == Map(f, a) + Map(f, b)
  {
  }

  /** In two mapped sequences laid end to end, the second's images start right after the first's. */
  lemma MapConcatAt<A, B, C>(f: A -> C, a: seq<A>, g: B -> C, b: seq<B>, i: int)
    requires 0 <= i < |a| + |b|
    ensures |Map(f, a) + Map(g, b)| == |a| + |b|
    ensures (Map(f, a) + Map(g, b))[i] == if i < |a| then f(a[i]) else g(b[i - |a|])
  {
  }

  lemma AppendAssoc<T>(a: seq<T>, b: seq<T>, c: seq<T>)
    ensures a + b + c == a + (b + c)
  {
  }

  /** Slicing a concatenation at the first part's length gives back both parts. */
  lemma AppendParts<T>(a: seq<T>, b: seq<T>)
    ensures (a + b)[..|a|] == a && (a + b)[|a|..] == b
  {
  }

  /** Regrouping a concatenation of five pieces, for texts whose pieces are long literals. */
  lemma Regroup<T>(a: seq<T>, b: seq<T>, c: seq<T>, d: seq<T>, e: seq<T>)
    ensures a + b + c + d + e == a + b + (c + d + e)
    ensures a + b + c + d + e == (a + b + c) + (d + e)
  {
  }

  /** The index of the first element that satisfies `test`, or -1 (`Array.prototype.findIndex`). */
  function FindIndex<T>(s: seq<T>, test: T -> bool): (k: int)
    ensures -1 <= k < |s|
    ensures k >= 0 ==> test(s[k]) && forall i :: 0 <= i < k ==> !test(s[i])
    ensures k < 0 ==> forall i :: 0 <= i < |s| ==> !test(s[i])
  {
    if s == [] then -1
    else if test(s[0]) then 0
    else
      var k := FindIndex(s[1..], test);
      assert forall i :: 1 <= i < |s| ==> s[i] == s[1..][i - 1];
      if k < 0 then -1 else k + 1
  }

  /** Filtering and mapping a prefix one element longer adds that element's image when it is kept. */
  lemma {:induction false} FilterMapStep<A(!new), B>(s: seq<A>, i: int, keep: A -> bool, f: A -> B)
    requires 0 <= i < |s|
    ensures Map(f, Filter(s[..i + 1], keep)) ==
            Map(f, Filter(s[..i], keep)) + (if keep(s[i]) then [f(s[i])] else [])
  {
    var last := Filter([s[i]], keep);
    assert s[..i + 1] == s[..i] + [s[i]];
    FilterAppend(s[..i], [s[i]], keep);
    assert [s[i]][1..] == [];
    assert last == if keep(s[i]) then [s[i]] else [];
    assert Map(f, last) == if keep(s[i]) then [f(s[i])] else [];
    MapAppend(f, Filter(s[..i], keep), last);
  }

  /** `Array.prototype.find`: the first element that satisfies `test`, or `None` (`undefined`). */
  function Find<T>(s: seq<T>, test: T -> bool): (r: Option<T>)
    ensures r.None? <==> forall i :: 0 <= i < |s| ==> !test(s[i])
    ensures r.Some? ==> exists k :: 0 <= k < |s| && s[k] == r.value && test(s[k]) &&
                                    forall i :: 0 <= i < k ==> !test(s[i])
  {
    var k := FindIndex(s, test);
    if k < 0 then None else Some(s[k])
  }

  /** A copy of the set with `x` removed if present and added otherwise (the selection toggles). */
  function Toggled<T(!new)>(s: set<T>, x: T): (r: set<T>)
    ensures x in r <==> x !in s
    ensures forall y :: y != x ==> (y in r <==> y in s)
  {
    if x in s then s - {x} else s + {x}
  }

  /** Toggling the same element twice restores the set. */
  lemma ToggledTwice<T(!new)>(s: set<T>, x: T)
    ensures Toggled(Toggled(s, x), x) == s
  {
  }
}
