/**
 * Array operations the components use on their lists, stated once:
 * `filter`, de-duplication in the style of `[...new Set(xs)]`, the
 * remove-then-insert `splice` pair used by drag and drop, and what "keeps
 * relative order" means (being a subsequence).
 */
module Seqs {

  lemma ConcatAssoc<T>(a: seq<T>, b: seq<T>, c: seq<T>)
    ensures (a + b) + c == a + (b + c)
  {
  }

  /** `s.filter(p)`. */
  function Filter<T(!new)>(s: seq<T>, p: T -> bool): (r: seq<T>)
    ensures |r| <= |s|
    ensures forall x :: x in r <==> x in s && p(x)
    ensures forall i :: 0 <= i < |r| ==> p(r[i])
    ensures (forall i :: 0 <= i < |s| ==> p(s[i])) ==> r == s
  {
    if s == [] then []
    else
      var f := Filter(s[..|s| - 1], p);
      assert s == s[..|s| - 1] + [s[|s| - 1]];
      if p(s[|s| - 1]) then f + [s[|s| - 1]] else f
  }

  /** Filtering distributes over concatenation: the kept elements stay in their order. */
  lemma {:induction false} FilterConcat<T(!new)>(a: seq<T>, b: seq<T>, p: T -> bool)
    ensures Filter(a + b, p) == Filter(a, p) + Filter(b, p)
    decreases |b|
  {
    if b == [] {
      assert a + b == a;
    } else {
      var b' := b[..|b| - 1];
      assert (a + b)[..|a + b| - 1] == a + b';
      assert (a + b)[|a + b| - 1] == b[|b| - 1];
      FilterConcat(a, b', p);
    }
  }

  /** Filtering keeps every copy of a kept element and no copy of a dropped one. */
  lemma {:induction false} FilterMultiset<T(!new)>(s: seq<T>, p: T -> bool, x: T)
    ensures multiset(Filter(s, p))[x] == if p(x) then multiset(s)[x] else 0
  {
    if s != [] {
      var s' := s[..|s| - 1];
      assert s == s' + [s[|s| - 1]];
      FilterMultiset(s', p, x);
    }
  }

  /** `FilterMultiset` for every value at once. */
  lemma FilterKeepsCopies<T(!new)>(s: seq<T>, p: T -> bool)
    ensures forall x :: multiset(Filter(s, p))[x] == if p(x) then multiset(s)[x] else 0
  {
    forall x ensures multiset(Filter(s, p))[x] == if p(x) then multiset(s)[x] else 0 {
      FilterMultiset(s, p, x);
    }
  }

  /** The number of elements satisfying `p`. */
  function Count<T>(s: seq<T>, p: T -> bool): nat
  {
    if s == [] then 0 else Count(s[..|s| - 1], p) + (if p(s[|s| - 1]) then 1 else 0)
  }

  /** The length of a filter is the count of elements satisfying the predicate (`xs.filter(p).length`). */
  lemma {:induction false} FilterLength<T(!new)>(s: seq<T>, p: T -> bool)
    ensures |Filter(s, p)| == Count(s, p)
  {
    if s != [] { FilterLength(s[..|s| - 1], p); }
  }

  /** `a` is obtained from `b` by deleting elements: `a` keeps `b`'s relative order. */
  ghost predicate IsSubsequence<T>(a: seq<T>, b: seq<T>)
    decreases |b|
  {
    if a == [] then true
    else if b == [] then false
    else (a[|a| - 1] == b[|b| - 1] && IsSubsequence(a[..|a| - 1], b[..|b| - 1]))
         || IsSubsequence(a, b[..|b| - 1])
  }

  lemma {:induction false} FilterIsSubsequence<T(!new)>(s: seq<T>, p: T -> bool)
    ensures IsSubsequence(Filter(s, p), s)
  {
    if s != [] {
      var s' := s[..|s| - 1];
      FilterIsSubsequence(s', p);
    }
  }

  /** True when no value occurs twice. */
  predicate NoDuplicates<T(==)>(s: seq<T>)
  {
    forall i, j :: 0 <= i < j < |s| ==> s[i] != s[j]
  }

  /** `[...new Set(s)]`: the first occurrence of every value, in order of first occurrence. */
  function Dedup<T(==,!new)>(s: seq<T>): (r: seq<T>)
    ensures forall x :: x in r <==> x in s
    ensures NoDuplicates(r)
    ensures |r| <= |s|
    ensures NoDuplicates(s) ==> r == s
  {
    if s == [] then []
    else
      var d := Dedup(s[..|s| - 1]);
      assert s == s[..|s| - 1] + [s[|s| - 1]];
      if s[|s| - 1] in d then d else d + [s[|s| - 1]]
  }

  /** De-duplication keeps the order of first occurrences: it is a subsequence of its input. */
  lemma {:induction false} DedupIsSubsequence<T(!new)>(s: seq<T>)
    ensures IsSubsequence(Dedup(s), s)
  {
    if s != [] { DedupIsSubsequence(s[..|s| - 1]); }
  }

  /** The de-duplicated prefix is a prefix of the de-duplicated whole: earlier values come first. */
  lemma {:induction false} DedupPrefix<T(!new)>(a: seq<T>, b: seq<T>)
    ensures |Dedup(a)| <= |Dedup(a + b)| && Dedup(a + b)[..|Dedup(a)|] == Dedup(a)
    decreases |b|
  {
    if b == [] {
      assert a + b == a;
    } else {
      var b' := b[..|b| - 1];
      assert (a + b)[..|a + b| - 1] == a + b';
      DedupPrefix(a, b');
    }
  }

  /** `s` with the element at `i` removed (`splice(i, 1)`). */
  function RemoveAt<T>(s: seq<T>, i: nat): (r: seq<T>)
    requires i < |s|
    ensures |r| == |s| - 1
    ensures forall k :: 0 <= k < i ==> r[k] == s[k]
    ensures forall k :: i <= k < |r| ==> r[k] == s[k + 1]
  {
    s[..i] + s[i + 1..]
  }

  /** `s` with `x` inserted at `i` (`splice(i, 0, x)`). */
  function InsertAt<T>(s: seq<T>, i: nat, x: T): (r: seq<T>)
    requires i <= |s|
    ensures |r| == |s| + 1 && r[i] == x
    ensures RemoveAt(r, i) == s
  {
    var r := s[..i] + [x] + s[i..];
    assert RemoveAt(r, i) == s;
    r
  }

  /**
   * The drag-and-drop splice pair: take the element at `from` out and insert it at `to`.
   * The moved element lands at `to`, the others keep their relative order, and
   * the result is a permutation of `s`.
   */
  function Move<T>(s: seq<T>, from: nat, to: nat): (r: seq<T>)
    requires from < |s| && to < |s|
    ensures |r| == |s| && r[to] == s[from]
    ensures RemoveAt(r, to) == RemoveAt(s, from)
    ensures multiset(r) == multiset(s)
  {
    var rest := RemoveAt(s, from);
    var r := InsertAt(rest, to, s[from]);
    assert s == s[..from] + [s[from]] + s[from + 1..];
    assert rest == s[..from] + s[from + 1..];
    assert multiset(s) == multiset(rest) + multiset{s[from]};
    assert r == rest[..to] + [s[from]] + rest[to..];
    assert rest == rest[..to] + rest[to..];
    assert multiset(r) == multiset(rest) + multiset{s[from]};
    r
  }

  /** Moving an element onto its own position changes nothing. */
  lemma MoveToSelf<T>(s: seq<T>, i: nat)
    requires i < |s|
    ensures Move(s, i, i) == s
  {
    assert Move(s, i, i) == s[..i] + [s[i]] + s[i + 1..];
  }

  /**
   * `xs.forEach((x, i) => { if (skip(x)) return; out.push(f(x, i, out.length)); })`
   * from index `i` on, with `n` elements already in `out`: the elements pushed.
   * Each pushed element sees the index of the element it came from and the
   * position it lands at.
   */
  function PushEach<A, B>(xs: seq<A>, i: nat, n: nat, skip: A -> bool, f: (A, nat, nat) -> B): (r: seq<B>)
    ensures i <= |xs| ==> |r| <= |xs| - i
    decreases |xs| - i
  {
    if i >= |xs| then []
    else if skip(xs[i]) then PushEach(xs, i + 1, n, skip, f)
    else [f(xs[i], i, n)] + PushEach(xs, i + 1, n + 1, skip, f)
  }

  /** When nothing is skipped, the `k`-th pushed element comes from `xs[i + k]` and lands at `n + k`. */
  lemma {:induction false} PushEachAll<A, B>(xs: seq<A>, i: nat, n: nat, skip: A -> bool, f: (A, nat, nat) -> B)
    requires i <= |xs|
    requires forall j :: i <= j < |xs| ==> !skip(xs[j])
    ensures |PushEach(xs, i, n, skip, f)| == |xs| - i
    ensures forall k :: 0 <= k < |xs| - i ==> PushEach(xs, i, n, skip, f)[k] == f(xs[i + k], i + k, n + k)
    decreases |xs| - i
  {
    if i < |xs| {
      PushEachAll(xs, i + 1, n + 1, skip, f);
      var rest := PushEach(xs, i + 1, n + 1, skip, f);
      assert PushEach(xs, i, n, skip, f) == [f(xs[i], i, n)] + rest;
    }
  }

  /** `PushEachAll` from the start of `xs`: element `k` is built from `xs[k]`. */
  lemma PushEachFromStart<A, B>(xs: seq<A>, n: nat, skip: A -> bool, f: (A, nat, nat) -> B)
    requires forall j :: 0 <= j < |xs| ==> !skip(xs[j])
    ensures |PushEach(xs, 0, n, skip, f)| == |xs|
    ensures forall k :: 0 <= k < |xs| ==> PushEach(xs, 0, n, skip, f)[k] == f(xs[k], k, n + k)
  {
    PushEachAll(xs, 0, n, skip, f);
  }

  /**
   * A property every call of `f` gives its result with respect to the landing
   * position holds of every pushed element at its own position.
   */
  lemma {:induction false} PushEachKeeps<A, B>(xs: seq<A>, i: nat, n: nat, skip: A -> bool, f: (A, nat, nat) -> B, q: (B, nat) -> bool)
    requires forall x, j, p :: q(f(x, j, p), p)
    ensures forall k :: 0 <= k < |PushEach(xs, i, n, skip, f)| ==> q(PushEach(xs, i, n, skip, f)[k], n + k)
    decreases |xs| - i
  {
    if i < |xs| {
      if skip(xs[i]) {
        PushEachKeeps(xs, i + 1, n, skip, f, q);
      } else {
        PushEachKeeps(xs, i + 1, n + 1, skip, f, q);
        var rest := PushEach(xs, i + 1, n + 1, skip, f);
        assert PushEach(xs, i, n, skip, f) == [f(xs[i], i, n)] + rest;
        assert q(f(xs[i], i, n), n);
      }
    }
  }
}
