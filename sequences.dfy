/** The LINQ operators the handlers compose (`Where`, `Skip`, `Take`) and the subsequence order
    that relates their output to their input. */
module Sequences {

  /** `Enumerable.Where`: each element satisfying the predicate is kept as often as it occurs,
      every other element is dropped. */
  function Filter<T>(p: T -> bool, s: seq<T>): (r: seq<T>)
    ensures |r| <= |s|
    ensures forall k :: 0 <= k < |r| ==> p(r[k])
    ensures forall x :: x in s ==> multiset(r)[x] == if p(x) then multiset(s)[x] else 0
    ensures forall x :: x in s && p(x) ==> x in r
    ensures forall x :: x in r ==> x in s
  {
    if s == [] then []
    else
      assert s == [s[0]] + s[1..];
      if p(s[0]) then [s[0]] + Filter(p, s[1..])
      else Filter(p, s[1..])
  }

  /** `Enumerable.Skip`: a count of zero or less skips nothing, one past the end skips all. */
  function Skip<T>(s: seq<T>, n: int): (r: seq<T>)
    ensures n <= 0 ==> r == s
    ensures 0 < n <= |s| ==> r == s[n..]
    ensures n > |s| ==> r == []
  {
    if n <= 0 then s else if n >= |s| then [] else s[n..]
  }

  /** `Enumerable.Take`: the first `n` elements, all when there are fewer, none for `n <= 0`. */
  function Take<T>(s: seq<T>, n: int): (r: seq<T>)
    ensures n <= 0 ==> r == []
    ensures 0 < n <= |s| ==> r == s[..n]
    ensures n > |s| ==> r == s
  {
    if n <= 0 then [] else if n >= |s| then s else s[..n]
  }

  /** `a` is obtained from `b` by deleting elements, keeping the order of the rest. */
  predicate IsSubsequence<T(==)>(a: seq<T>, b: seq<T>)
    decreases |b|
  {
    a == [] || (b != [] && ((a[0] == b[0] && IsSubsequence(a[1..], b[1..])) || IsSubsequence(a, b[1..])))
  }

  lemma {:induction false} SubsequenceReflexive<T>(s: seq<T>)
    ensures IsSubsequence(s, s)
    decreases |s|
  {
    if s != [] {
      SubsequenceReflexive(s[1..]);
    }
  }

  lemma {:induction false} SubsequenceTransitive<T>(a: seq<T>, b: seq<T>, c: seq<T>)
    requires IsSubsequence(a, b) && IsSubsequence(b, c)
    ensures IsSubsequence(a, c)
    decreases |c|
  {
    if a == [] {
    } else if IsSubsequence(b, c[1..]) {
      SubsequenceTransitive(a, b, c[1..]);
    } else if IsSubsequence(a, b[1..]) {
      SubsequenceTransitive(a, b[1..], c[1..]);
    } else {
      SubsequenceTransitive(a[1..], b[1..], c[1..]);
    }
  }

  /** Every suffix and every prefix is a subsequence. */
  lemma {:induction false} SuffixIsSubsequence<T>(s: seq<T>, n: nat)
    requires n <= |s|
    ensures IsSubsequence(s[n..], s)
    decreases n
  {
    if n == 0 {
      SubsequenceReflexive(s);
    } else {
      SuffixIsSubsequence(s[1..], n - 1);
      assert s[1..][n - 1..] == s[n..];
    }
  }

  lemma {:induction false} PrefixIsSubsequence<T>(s: seq<T>, n: nat)
    requires n <= |s|
    ensures IsSubsequence(s[..n], s)
    decreases n
  {
    if n > 0 {
      PrefixIsSubsequence(s[1..], n - 1);
      assert s[..n][1..] == s[1..][..n - 1];
    }
  }

  lemma {:induction false} FilterIsSubsequence<T>(p: T -> bool, s: seq<T>)
    ensures IsSubsequence(Filter(p, s), s)
    decreases |s|
  {
    if s != [] {
      FilterIsSubsequence(p, s[1..]);
      if p(s[0]) {
        assert Filter(p, s)[1..] == Filter(p, s[1..]);
      }
    }
  }

  lemma SkipIsSubsequence<T>(s: seq<T>, n: int)
    ensures IsSubsequence(Skip(s, n), s)
  {
    if n <= 0 {
      SubsequenceReflexive(s);
    } else if n >= |s| {
    } else {
      SuffixIsSubsequence(s, n);
    }
  }

  lemma TakeIsSubsequence<T>(s: seq<T>, n: int)
    ensures IsSubsequence(Take(s, n), s)
  {
    if n <= 0 {
    } else if n >= |s| {
      SubsequenceReflexive(s);
    } else {
      PrefixIsSubsequence(s, n);
    }
  }

  /** `Skip` then `Take` is the slice `[n, n + m)` of `s`, cut at both ends. */
  lemma SkipTakeIsSlice<T>(s: seq<T>, n: int, m: int)
    requires 0 <= n && 0 < m
    ensures Take(Skip(s, n), m) == s[if n <= |s| then n else |s|..if n + m <= |s| then n + m else |s|]
  {
  }
}
