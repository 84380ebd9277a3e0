/** Searching and splitting sequences: the parts of Go's `bytes` and `strings`
    packages that the gateway relies on. */
module Sequences {

  datatype Option<+T> = None | Some(value: T)

  predicate OccursAt<T(==)>(s: seq<T>, pattern: seq<T>, i: int) {
    0 <= i <= |s| - |pattern| && s[i..i + |pattern|] == pattern
  }

  /** `bytes.Contains` / `strings.Contains`. */
  predicate Contains<T(==)>(s: seq<T>, pattern: seq<T>) {
    exists i | 0 <= i <= |s| - |pattern| :: OccursAt(s, pattern, i)
  }

  /** The first occurrence at or after `start`, or -1. */
  function IndexFrom<T(==)>(s: seq<T>, pattern: seq<T>, start: nat): (i: int)
    ensures i == -1 || (start <= i && OccursAt(s, pattern, i))
    ensures forall j :: start <= j && (i == -1 || j < i) ==> !OccursAt(s, pattern, j)
    decreases |s| - start
  {
    if |s| - start < |pattern| || start > |s| then -1
    else if OccursAt(s, pattern, start) then start
    else IndexFrom(s, pattern, start + 1)
  }

  /** `strings.Index`. */
  function Index<T(==)>(s: seq<T>, pattern: seq<T>): (i: int)
    ensures i == -1 || OccursAt(s, pattern, i)
    ensures -1 <= i
    ensures forall j :: i == -1 || j < i ==> !OccursAt(s, pattern, j)
  {
    IndexFrom(s, pattern, 0)
  }

  /** `strings.LastIndex`: the last occurrence at or before `start`, or -1. */
  function LastIndexFrom<T(==)>(s: seq<T>, pattern: seq<T>, start: int): (i: int)
    requires -1 <= start
    ensures i == -1 || (0 <= i <= start && OccursAt(s, pattern, i))
    ensures forall j :: i < j <= start ==> !OccursAt(s, pattern, j)
    decreases start
  {
    if start == -1 || OccursAt(s, pattern, start) then start
    else LastIndexFrom(s, pattern, start - 1)
  }

  function LastIndex<T(==)>(s: seq<T>, pattern: seq<T>): (i: int)
    ensures i == -1 || OccursAt(s, pattern, i)
    ensures -1 <= i
    ensures forall j :: i < j ==> !OccursAt(s, pattern, j)
  {
    LastIndexFrom(s, pattern, |s|)
  }

  /** `strings.HasPrefix`. */
  predicate HasPrefix<T(==)>(s: seq<T>, prefix: seq<T>) {
    prefix <= s
  }

  /** `strings.Split` for a non-empty separator: leftmost, non-overlapping. */
  function Split<T(==)>(s: seq<T>, separator: seq<T>): (parts: seq<seq<T>>)
    requires separator != []
    ensures parts != []
    decreases |s|
  {
    var i := Index(s, separator);
    if i == -1 then [s] else [s[..i]] + Split(s[i + |separator|..], separator)
  }

  lemma ConcatAssociative<T>(a: seq<T>, b: seq<T>, c: seq<T>)
    ensures a + (b + c) == a + b + c
  {
  }

  lemma FrontAndLast<T>(s: seq<T>)
    requires s != []
    ensures s[..|s| - 1] + [s[|s| - 1]] == s
  {
  }

  lemma Appended<T>(s: seq<T>, x: T)
    ensures (s + [x])[..|s|] == s && (s + [x])[|s|] == x
  {
  }

  lemma OccursAtElement<T>(s: seq<T>, x: T, i: int)
    ensures OccursAt(s, [x], i) <==> 0 <= i < |s| && s[i] == x
  {
    if 0 <= i < |s| { assert s[i..i + 1] == [s[i]]; }
  }

  /** `i` is the position of the first `x`. */
  ghost predicate IsFirst<T>(s: seq<T>, x: T, i: nat) {
    i < |s| && s[i] == x && forall k :: 0 <= k < i ==> s[k] != x
  }

  lemma IndexOfFirst<T>(s: seq<T>, x: T, i: nat)
    requires IsFirst(s, x, i)
    ensures Index(s, [x]) == i
  {
    OccursAtElement(s, x, i);
    OccursAtElement(s, x, Index(s, [x]));
  }

  lemma SplitAtFirst<T>(s: seq<T>, x: T, i: nat)
    requires IsFirst(s, x, i)
    ensures Split(s, [x]) == [s[..i]] + Split(s[i + 1..], [x])
  {
    IndexOfFirst(s, x, i);
  }

  lemma SplitWhole<T>(s: seq<T>, x: T)
    requires x !in s
    ensures Split(s, [x]) == [s]
  {
    OccursAtElement(s, x, Index(s, [x]));
  }

  lemma FirstPosition<T>(s: seq<T>, x: T) returns (i: nat)
    requires x in s
    ensures IsFirst(s, x, i)
  {
    var last :| 0 <= last < |s| && s[last] == x;
    i := 0;
    while s[i] != x
      invariant i <= last && forall k :: 0 <= k < i ==> s[k] != x
      decreases last - i
    {
      i := i + 1;
    }
  }

  /** Splitting at a one-element separator distributes over that separator. */
  lemma {:induction false} SplitJoin<T>(a: seq<T>, x: T, b: seq<T>)
    ensures Split(a + [x] + b, [x]) == Split(a, [x]) + Split(b, [x])
    decreases |a|
  {
    if x !in a {
      SplitJoinWhole(a, x, b);
    } else {
      var i := FirstPosition(a, x);
      SplitJoin(a[i + 1..], x, b);
      SplitJoinFirst(a, x, b, i);
    }
  }

  lemma SplitJoinWhole<T>(a: seq<T>, x: T, b: seq<T>)
    requires x !in a
    ensures Split(a + [x] + b, [x]) == Split(a, [x]) + Split(b, [x])
  {
    var s := a + [x] + b;
    assert s[..|a|] == a && s[|a| + 1..] == b;
    SplitWhole(a, x);
    SplitAtFirst(s, x, |a|);
  }

  lemma SplitJoinFirst<T>(a: seq<T>, x: T, b: seq<T>, i: nat)
    requires IsFirst(a, x, i)
    requires Split(a[i + 1..] + [x] + b, [x]) == Split(a[i + 1..], [x]) + Split(b, [x])
    ensures Split(a + [x] + b, [x]) == Split(a, [x]) + Split(b, [x])
  {
    var s, rest, tail := a + [x] + b, a[i + 1..], a[i + 1..] + [x] + b;
    SliceJoin(a, x, b, i);
    SplitAtFirst(s, x, i);
    assert Split(s, [x]) == [a[..i]] + Split(tail, [x]);
    SplitAtFirst(a, x, i);
    ConcatAssociative([a[..i]], Split(rest, [x]), Split(b, [x]));
  }

  lemma SliceJoin<T>(a: seq<T>, x: T, b: seq<T>, i: nat)
    requires i < |a|
    ensures (a + [x] + b)[..i] == a[..i]
    ensures (a + [x] + b)[i] == a[i]
    ensures (a + [x] + b)[i + 1..] == a[i + 1..] + [x] + b
  {
  }

  function Map<T, U>(f: T -> U, s: seq<T>): (r: seq<U>)
    ensures |r| == |s| && forall i :: 0 <= i < |s| ==> r[i] == f(s[i])
  {
    seq(|s|, i requires 0 <= i < |s| => f(s[i]))
  }

  lemma MapUpdate<T, U>(f: T -> U, s: seq<T>, i: nat, x: T)
    requires i < |s|
    ensures Map(f, s[i := x]) == Map(f, s)[i := f(x)]
  {
  }

  lemma MapAppend<T, U>(f: T -> U, s: seq<T>, x: T)
    ensures Map(f, s + [x]) == Map(f, s) + [f(x)]
  {
  }
}
