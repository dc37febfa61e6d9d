/** Sequence operations shared by the pages: JavaScript's `Array.prototype.filter`
    with a predicate, the index-based `filter((_, i) => i !== index)` removal, and the
    order-preserving subsequence relation used to state what a filter keeps. */
module Seqs {

  /** A value that may be absent: JavaScript's `null`, or a request that failed. */
  datatype Option<T> = None | Some(value: T)

  /** `s.filter(p)`: the elements of `s` that satisfy `p`, left to right. */
  function Filter<T>(s: seq<T>, p: T -> bool): (r: seq<T>)
    ensures |r| <= |s|
    ensures forall i :: 0 <= i < |r| ==> r[i] in s && p(r[i])
    ensures forall i :: 0 <= i < |s| && p(s[i]) ==> s[i] in r
  {
    if s == [] then []
    else if p(s[0]) then [s[0]] + Filter(s[1..], p)
    else Filter(s[1..], p)
  }

  /** `a` is obtained from `b` by deleting zero or more elements (order kept). */
  ghost predicate IsSubsequence<T>(a: seq<T>, b: seq<T>)
    decreases |b|
  {
    if a == [] then true
    else if b == [] then false
    else (a[0] == b[0] && IsSubsequence(a[1..], b[1..])) || IsSubsequence(a, b[1..])
  }

  lemma {:induction false} FilterIsSubsequence<T>(s: seq<T>, p: T -> bool)
    ensures IsSubsequence(Filter(s, p), s)
  {
    if s != [] {
      FilterIsSubsequence(s[1..], p);
      var rest := Filter(s[1..], p);
      if p(s[0]) {
        assert Filter(s, p) == [s[0]] + rest;
        assert ([s[0]] + rest)[1..] == rest;
      } else {
        assert Filter(s, p) == rest;
        if rest != [] {
          assert IsSubsequence(rest, s[1..]);
        }
      }
    }
  }

  /** The filter keeps every copy of a satisfying element and no copy of any other:
      together with `FilterIsSubsequence` this pins the result down completely. */
  lemma {:induction false} FilterCount<T>(s: seq<T>, p: T -> bool, x: T)
    ensures multiset(Filter(s, p))[x] == if p(x) then multiset(s)[x] else 0
  {
    if s != [] {
      FilterCount(s[1..], p, x);
      assert s == [s[0]] + s[1..];
      assert multiset(s) == multiset([s[0]]) + multiset(s[1..]);
      if p(s[0]) {
        assert multiset(Filter(s, p)) == multiset([s[0]]) + multiset(Filter(s[1..], p));
      }
    }
  }

  /** A predicate that holds of every element keeps the whole sequence. */
  lemma {:induction false} FilterKeepsAll<T>(s: seq<T>, p: T -> bool)
    requires forall i :: 0 <= i < |s| ==> p(s[i])
    ensures Filter(s, p) == s
  {
    if s != [] {
      FilterKeepsAll(s[1..], p);
      assert [s[0]] + s[1..] == s;
    }
  }

  /** A predicate that holds of no element keeps nothing. */
  lemma {:induction false} FilterKeepsNone<T>(s: seq<T>, p: T -> bool)
    requires forall i :: 0 <= i < |s| ==> !p(s[i])
    ensures Filter(s, p) == []
  {
    if s != [] {
      FilterKeepsNone(s[1..], p);
    }
  }

  /** Two predicates that agree on every element filter alike. */
  lemma {:induction false} FilterCongruent<T>(s: seq<T>, p: T -> bool, q: T -> bool)
    requires forall i :: 0 <= i < |s| ==> p(s[i]) == q(s[i])
    ensures Filter(s, p) == Filter(s, q)
  {
    if s != [] {
      FilterCongruent(s[1..], p, q);
    }
  }

  /** A predicate that fails at position `k` alone removes just that position. */
  lemma {:induction false} FilterDropsOne<T>(s: seq<T>, p: T -> bool, k: int)
    requires 0 <= k < |s| && !p(s[k])
    requires forall j :: 0 <= j < |s| && j != k ==> p(s[j])
    ensures Filter(s, p) == s[..k] + s[k + 1..]
  {
    var tail := s[1..];
    if k == 0 {
      forall i | 0 <= i < |tail| ensures p(tail[i]) {
        assert tail[i] == s[i + 1];
      }
      FilterKeepsAll(tail, p);
    } else {
      forall j | 0 <= j < |tail| && j != k - 1 ensures p(tail[j]) {
        assert tail[j] == s[j + 1];
      }
      FilterDropsOne(tail, p, k - 1);
      assert [s[0]] + (tail[..k - 1] + tail[k..]) == s[..k] + s[k + 1..];
    }
  }

  /** Filtering twice with the same predicate is filtering once. */
  lemma FilterIdempotent<T>(s: seq<T>, p: T -> bool)
    ensures Filter(Filter(s, p), p) == Filter(s, p)
  {
    var r := Filter(s, p);
    assert forall i :: 0 <= i < |r| ==> p(r[i]);
    FilterKeepsAll(r, p);
  }

  /** Filtering distributes over concatenation. */
  lemma {:induction false} FilterAppend<T>(a: seq<T>, b: seq<T>, p: T -> bool)
    ensures Filter(a + b, p) == Filter(a, p) + Filter(b, p)
  {
    if a == [] {
      assert a + b == b;
    } else {
      assert (a + b)[0] == a[0];
      assert (a + b)[1..] == a[1..] + b;
      FilterAppend(a[1..], b, p);
    }
  }

  /** `s.filter((_, i) => i !== index)`: every element except the one at position
      `index`; an index outside the sequence removes nothing. */
  function RemoveAt<T>(s: seq<T>, index: int): (r: seq<T>)
    ensures 0 <= index < |s| ==> r == s[..index] + s[index + 1..]
    ensures !(0 <= index < |s|) ==> r == s
    decreases |s|
  {
    if s == [] then []
    else (if index == 0 then [] else [s[0]]) + RemoveAt(s[1..], index - 1)
  }

  /** Element-wise view of `RemoveAt`: positions before `index` are kept, positions
      after it shift down by one. */
  lemma RemoveAtShifts<T>(s: seq<T>, index: int, j: int)
    requires 0 <= index < |s| && 0 <= j < |s| - 1
    ensures |RemoveAt(s, index)| == |s| - 1
    ensures RemoveAt(s, index)[j] == if j < index then s[j] else s[j + 1]
  {
  }

  /** Removing a position takes out exactly one copy of the element there. */
  lemma {:induction false} RemoveAtCount<T>(s: seq<T>, index: int)
    requires 0 <= index < |s|
    ensures |RemoveAt(s, index)| == |s| - 1
    ensures multiset(RemoveAt(s, index)) + multiset{s[index]} == multiset(s)
  {
    var before, after := s[..index], s[index + 1..];
    assert multiset(RemoveAt(s, index)) == multiset(before) + multiset(after) by {
      assert RemoveAt(s, index) == before + after;
    }
    assert multiset(s) == multiset(before) + (multiset{s[index]} + multiset(after)) by {
      assert s == before + ([s[index]] + after);
    }
  }
}
