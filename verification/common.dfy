/** Shared building blocks: an optional value, the two array combinators the
    pages use (`filter` and `map`), and the string helpers behind the search
    boxes (`toLowerCase` and `includes`). */

module Wrappers {

  /** A value that may be missing: `undefined` / `null` in the original. */
  datatype Option<+T> = None | Some(value: T)
}

module Seqs {

  /** `r` is obtained from `s` by deleting elements, keeping the order of the
      rest (stated from the back, as `FilterPrefix` builds its result). */
  ghost predicate IsSubsequence<T>(r: seq<T>, s: seq<T>)
    decreases |s|
  {
    if r == [] then true
    else if s == [] then false
    else
      (r[|r| - 1] == s[|s| - 1] && IsSubsequence(r[..|r| - 1], s[..|s| - 1])) ||
      IsSubsequence(r, s[..|s| - 1])
  }

  /** The elements of `s[..n]` that satisfy `p`, in order. */
  function FilterPrefix<T>(s: seq<T>, p: T -> bool, n: nat): seq<T>
    requires n <= |s|
  {
    if n == 0 then [] else FilterPrefix(s, p, n - 1) + (if p(s[n - 1]) then [s[n - 1]] else [])
  }

  /** `Array.prototype.filter`: keep, in order, the elements that satisfy `p`. */
  function Filter<T>(s: seq<T>, p: T -> bool): seq<T>
  {
    FilterPrefix(s, p, |s|)
  }

  lemma {:induction false} FilterPrefixMembers<T>(s: seq<T>, p: T -> bool, n: nat)
    requires n <= |s|
    ensures |FilterPrefix(s, p, n)| <= n
    ensures forall x :: x in FilterPrefix(s, p, n) ==> x in s[..n] && p(x)
    ensures forall x :: x in s[..n] && p(x) ==> x in FilterPrefix(s, p, n)
  {
    if n > 0 {
      FilterPrefixMembers(s, p, n - 1);
      assert s[..n] == s[..n - 1] + [s[n - 1]];
    }
  }

  /** The filter keeps exactly the elements that satisfy `p`, and no more of
      them than there were. */
  lemma FilterMembers<T>(s: seq<T>, p: T -> bool)
    ensures |Filter(s, p)| <= |s|
    ensures forall x :: x in Filter(s, p) ==> x in s && p(x)
    ensures forall x :: x in s && p(x) ==> x in Filter(s, p)
  {
    FilterPrefixMembers(s, p, |s|);
    assert s[..|s|] == s;
  }

  lemma {:induction false} FilterPrefixIsSubsequence<T>(s: seq<T>, p: T -> bool, n: nat)
    requires n <= |s|
    ensures IsSubsequence(FilterPrefix(s, p, n), s[..n])
  {
    if n > 0 {
      FilterPrefixIsSubsequence(s, p, n - 1);
      var r := FilterPrefix(s, p, n);
      assert s[..n][..n - 1] == s[..n - 1];
      if p(s[n - 1]) {
        assert r[..|r| - 1] == FilterPrefix(s, p, n - 1);
      } else {
        assert r == FilterPrefix(s, p, n - 1);
      }
    }
  }

  /** The filter keeps the order of `s`. */
  lemma FilterIsSubsequence<T>(s: seq<T>, p: T -> bool)
    ensures IsSubsequence(Filter(s, p), s)
  {
    FilterPrefixIsSubsequence(s, p, |s|);
    assert s[..|s|] == s;
  }

  lemma {:induction false} FilterPrefixKeepsAll<T>(s: seq<T>, p: T -> bool, n: nat)
    requires n <= |s|
    requires forall x :: x in s ==> p(x)
    ensures FilterPrefix(s, p, n) == s[..n]
  {
    if n > 0 {
      FilterPrefixKeepsAll(s, p, n - 1);
      assert s[..n] == s[..n - 1] + [s[n - 1]];
    }
  }

  /** A filter whose predicate holds everywhere keeps the whole sequence. */
  lemma FilterKeepsAll<T>(s: seq<T>, p: T -> bool)
    requires forall x :: x in s ==> p(x)
    ensures Filter(s, p) == s
  {
    FilterPrefixKeepsAll(s, p, |s|);
    assert s[..|s|] == s;
  }

  lemma {:induction false} FilterPrefixCons<T>(x: T, s: seq<T>, p: T -> bool, n: nat)
    requires n <= |s|
    ensures FilterPrefix([x] + s, p, n + 1) == (if p(x) then [x] else []) + FilterPrefix(s, p, n)
  {
    if n > 0 {
      FilterPrefixCons(x, s, p, n - 1);
      assert ([x] + s)[n] == s[n - 1];
    }
  }

  lemma {:induction false} FilterPrefixCounts<T>(s: seq<T>, p: T -> bool, n: nat)
    requires n <= |s|
    ensures forall x :: multiset(FilterPrefix(s, p, n))[x] == if p(x) then multiset(s[..n])[x] else 0
  {
    if n > 0 {
      FilterPrefixCounts(s, p, n - 1);
      assert s[..n] == s[..n - 1] + [s[n - 1]];
    }
  }

  /** The filter keeps every element that satisfies `p` as many times as it
      occurs, and no other element. */
  lemma FilterCounts<T>(s: seq<T>, p: T -> bool)
    ensures forall x :: multiset(Filter(s, p))[x] == if p(x) then multiset(s)[x] else 0
  {
    FilterPrefixCounts(s, p, |s|);
    assert s[..|s|] == s;
  }

  /** Filtering a sequence with a new first element filters that element,
      then the rest. */
  lemma FilterCons<T>(x: T, s: seq<T>, p: T -> bool)
    ensures Filter([x] + s, p) == (if p(x) then [x] else []) + Filter(s, p)
  {
    FilterPrefixCons(x, s, p, |s|);
  }

  /** `Array.prototype.map`: a new sequence holding `f` of every element, in
      the same positions. */
  function Map<T, U>(s: seq<T>, f: T -> U): (r: seq<U>)
    ensures |r| == |s|
    ensures forall i :: 0 <= i < |s| ==> r[i] == f(s[i])
  {
    if s == [] then [] else [f(s[0])] + Map(s[1..], f)
  }
}

module Text {

  /** `String.prototype.toLowerCase` on one character (ASCII letters only). */
  function LowerChar(c: char): (r: char)
    ensures 'A' <= c <= 'Z' ==> 'a' <= r <= 'z'
    ensures !('A' <= c <= 'Z') ==> r == c
  {
    if 'A' <= c <= 'Z' then (c as int - 'A' as int + 'a' as int) as char else c
  }

  /** `String.prototype.toLowerCase`: lower-cases every character, keeps the length. */
  function Lower(s: string): (r: string)
    ensures |r| == |s|
    ensures forall i :: 0 <= i < |s| ==> r[i] == LowerChar(s[i])
  {
    if s == [] then [] else [LowerChar(s[0])] + Lower(s[1..])
  }

  /** `String.prototype.includes`: `t` occurs in `s` as a contiguous block,
      that is, `t` is a prefix of some suffix of `s`. */
  predicate Includes(s: string, t: string)
    decreases |s|
  {
    t <= s || (s != [] && Includes(s[1..], t))
  }

  /** A case-insensitive search with the empty term matches everything. */
  lemma LowerIncludesEmpty(s: string)
    ensures Includes(Lower(s), Lower(""))
  {
  }
}
