/** Sequence operations the dashboard performs through JavaScript array
    built-ins: `splice` to take out or put in one element, `filter`, and the
    uniqueness of a list's elements. */
module Collections {

  function Min(a: int, b: int): int { if a <= b then a else b }

  /** `s.splice(i, 1)` with a valid index: the element at `i` leaves, the rest close up. */
  function RemoveAt<T>(s: seq<T>, i: nat): (r: seq<T>)
    requires i < |s|
    ensures |r| == |s| - 1
    ensures forall k :: 0 <= k < i ==> r[k] == s[k]
    ensures forall k :: i <= k < |r| ==> r[k] == s[k + 1]
  {
    s[..i] + s[i + 1..]
  }

  /** Taking one element out removes exactly one occurrence of it. */
  lemma RemoveAtMultiset<T>(s: seq<T>, i: nat)
    requires i < |s|
    ensures multiset(RemoveAt(s, i)) + multiset{s[i]} == multiset(s)
  {
    assert s == s[..i] + [s[i]] + s[i + 1..];
  }

  /** `s.splice(i, 0, x)`: `x` goes in before position `i`, or at the end when
      `i` is past the end (splice clamps its start to the length). */
  function InsertAt<T>(s: seq<T>, i: nat, x: T): (r: seq<T>)
    ensures |r| == |s| + 1
    ensures r[Min(i, |s|)] == x
    ensures forall k :: 0 <= k < Min(i, |s|) ==> r[k] == s[k]
    ensures forall k :: Min(i, |s|) <= k < |s| ==> r[k + 1] == s[k]
  {
    var j := Min(i, |s|);
    s[..j] + [x] + s[j..]
  }

  /** Putting one element in adds exactly one occurrence of it. */
  lemma InsertAtMultiset<T>(s: seq<T>, i: nat, x: T)
    ensures multiset(InsertAt(s, i, x)) == multiset(s) + multiset{x}
  {
    var j := Min(i, |s|);
    assert s == s[..j] + s[j..];
  }

  /** Taking one element out keeps every other value in the list. */
  lemma RemoveKeepsOthers<T>(s: seq<T>, i: nat, x: T)
    requires i < |s| && x in s && x != s[i]
    ensures x in RemoveAt(s, i)
  {
    RemoveAtMultiset(s, i);
    assert x in multiset(s);
    assert x !in multiset{s[i]};
    assert x in multiset(RemoveAt(s, i));
  }

  /** Putting one element in keeps every value already in the list. */
  lemma InsertKeepsOthers<T>(s: seq<T>, i: nat, x: T, y: T)
    requires y in s
    ensures y in InsertAt(s, i, x)
  {
    InsertAtMultiset(s, i, x);
    assert y in multiset(s);
    assert y in multiset(InsertAt(s, i, x));
  }

  /** Concatenation is associative. */
  lemma ConcatAssoc<T>(a: seq<T>, b: seq<T>, c: seq<T>)
    ensures a + (b + c) == (a + b) + c
  {
  }

  /** A non-empty sequence is its first element followed by the rest. */
  lemma HeadTail<T>(s: seq<T>)
    requires |s| > 0
    ensures s == [s[0]] + s[1..]
  {
  }

  /** A non-empty sequence is its front followed by its last element. */
  lemma InitLast<T>(s: seq<T>)
    requires |s| > 0
    ensures s == s[..|s| - 1] + [s[|s| - 1]]
  {
  }

  /** An insertion index at or past the end appends. */
  lemma InsertPastEnd<T>(s: seq<T>, i: nat, x: T)
    requires i >= |s|
    ensures InsertAt(s, i, x) == s + [x]
  {
  }

  /** Splicing an element out and back in at the same place restores the list. */
  lemma RemoveInsertSameIndex<T>(s: seq<T>, i: nat)
    requires i < |s|
    ensures InsertAt(RemoveAt(s, i), i, s[i]) == s
  {
    var r := InsertAt(RemoveAt(s, i), i, s[i]);
    forall k | 0 <= k < |s| ensures r[k] == s[k] {
      if k > i {
        assert r[(k - 1) + 1] == RemoveAt(s, i)[k - 1];
      }
    }
  }

  predicate Distinct<T(==)>(s: seq<T>)
  {
    forall i, j :: 0 <= i < j < |s| ==> s[i] != s[j]
  }

  /** Appending a new value keeps a list free of repeats. */
  lemma DistinctAppend<T>(s: seq<T>, x: T)
    requires Distinct(s) && x !in s
    ensures Distinct(s + [x])
  {
  }

  lemma {:induction false} DistinctCount<T>(s: seq<T>, x: T)
    requires Distinct(s)
    ensures multiset(s)[x] <= 1
    decreases |s|
  {
    if |s| > 0 {
      assert s == [s[0]] + s[1..];
      DistinctCount(s[1..], x);
      if s[0] == x {
        assert x !in s[1..];
      }
    }
  }

  lemma RepeatCount<T>(s: seq<T>, i: nat, j: nat)
    requires i < j < |s| && s[i] == s[j]
    ensures multiset(s)[s[i]] >= 2
  {
    assert s == s[..i] + [s[i]] + s[i + 1..j] + [s[j]] + s[j + 1..];
  }

  /** `s.filter(keep)`: the elements that pass, in their original order. */
  function Filter<T>(s: seq<T>, keep: T -> bool): (r: seq<T>)
    ensures |r| <= |s|
    ensures forall i :: 0 <= i < |r| ==> r[i] in s && keep(r[i])
    ensures forall i :: 0 <= i < |s| && keep(s[i]) ==> s[i] in r
  {
    if |s| == 0 then []
    else (if keep(s[0]) then [s[0]] else []) + Filter(s[1..], keep)
  }

  /** `r` lists the elements of `s` at the strictly increasing positions `pos`. */
  ghost predicate SubsequenceAt<T>(r: seq<T>, s: seq<T>, pos: seq<nat>)
  {
    && |pos| == |r|
    && (forall k :: 0 <= k < |pos| ==> pos[k] < |s| && r[k] == s[pos[k]])
    && (forall k, l :: 0 <= k < l < |pos| ==> pos[k] < pos[l])
  }

  /** `r` is `s` with some elements left out and the rest in their order. */
  ghost predicate Subsequence<T>(r: seq<T>, s: seq<T>)
  {
    exists pos :: SubsequenceAt(r, s, pos)
  }

  /** The positions of `s` whose elements pass `keep`, in increasing order. */
  function KeptPositions<T>(s: seq<T>, keep: T -> bool): (pos: seq<nat>)
    ensures forall k :: 0 <= k < |pos| ==> pos[k] < |s|
    ensures |pos| == |Filter(s, keep)|
  {
    if |s| == 0 then []
    else (if keep(s[0]) then [0] else []) + Shifted(KeptPositions(s[1..], keep))
  }

  /** Every position moved one place on. */
  function Shifted(pos: seq<nat>): (r: seq<nat>)
    ensures |r| == |pos| && forall k :: 0 <= k < |pos| ==> r[k] == pos[k] + 1
  {
    seq(|pos|, k requires 0 <= k < |pos| => pos[k] + 1)
  }

  /** `filter` keeps the passing elements at their increasing positions. */
  lemma {:induction false} FilterAtKeptPositions<T>(s: seq<T>, keep: T -> bool)
    ensures SubsequenceAt(Filter(s, keep), s, KeptPositions(s, keep))
    decreases |s|
  {
    if |s| > 0 {
      var t := s[1..];
      FilterAtKeptPositions(t, keep);
      assert s == [s[0]] + t;
      if keep(s[0]) {
        SubsequenceTake(s[0], Filter(t, keep), t, KeptPositions(t, keep));
      } else {
        SubsequenceSkip(s[0], Filter(t, keep), t, KeptPositions(t, keep));
      }
    }
  }

  /** Dropping a new first element keeps a subsequence, one place further on. */
  lemma SubsequenceSkip<T>(x: T, r: seq<T>, t: seq<T>, pos: seq<nat>)
    requires SubsequenceAt(r, t, pos)
    ensures SubsequenceAt(r, [x] + t, Shifted(pos))
  {
  }

  /** Taking a new first element extends a subsequence at the front. */
  lemma SubsequenceTake<T>(x: T, r: seq<T>, t: seq<T>, pos: seq<nat>)
    requires SubsequenceAt(r, t, pos)
    ensures SubsequenceAt([x] + r, [x] + t, [0] + Shifted(pos))
  {
    var p := [0] + Shifted(pos);
    forall k | 0 <= k < |p| ensures p[k] < |[x] + t| && ([x] + r)[k] == ([x] + t)[p[k]] {
      if k > 0 { assert p[k] == pos[k - 1] + 1; }
    }
  }

  /** `filter` keeps every occurrence of a passing value and none of a failing one. */
  lemma {:induction false} FilterCount<T>(s: seq<T>, keep: T -> bool, x: T)
    ensures multiset(Filter(s, keep))[x] == if keep(x) then multiset(s)[x] else 0
    decreases |s|
  {
    if |s| > 0 {
      var h: seq<T> := if keep(s[0]) then [s[0]] else [];
      FilterCount(s[1..], keep, x);
      HeadTail(s);
      assert multiset(s) == multiset{s[0]} + multiset(s[1..]);
      assert multiset(Filter(s, keep)) == multiset(h) + multiset(Filter(s[1..], keep));
    }
  }

  /** `filter` in full: the result is a subsequence of the input (the order
      is kept), holding each passing value exactly as often as the input
      and no failing value. */
  lemma FilterSelects<T>(s: seq<T>, keep: T -> bool)
    ensures Subsequence(Filter(s, keep), s)
    ensures forall x :: multiset(Filter(s, keep))[x] == if keep(x) then multiset(s)[x] else 0
  {
    FilterAtKeptPositions(s, keep);
    forall x ensures multiset(Filter(s, keep))[x] == if keep(x) then multiset(s)[x] else 0 {
      FilterCount(s, keep, x);
    }
  }

  /** Filtering distributes over concatenation (the order is kept). */
  lemma {:induction false} FilterAppend<T>(a: seq<T>, b: seq<T>, keep: T -> bool)
    ensures Filter(a + b, keep) == Filter(a, keep) + Filter(b, keep)
    decreases |a|
  {
    if |a| > 0 {
      assert (a + b)[1..] == a[1..] + b;
      FilterAppend(a[1..], b, keep);
    } else {
      assert a + b == b;
    }
  }

  /** A filter that every element passes keeps the sequence as it is. */
  lemma {:induction false} FilterKeepsAll<T>(s: seq<T>, keep: T -> bool)
    requires forall i :: 0 <= i < |s| ==> keep(s[i])
    ensures Filter(s, keep) == s
    decreases |s|
  {
    if |s| > 0 {
      FilterKeepsAll(s[1..], keep);
    }
  }

  /** A filter that no element passes leaves nothing. */
  lemma {:induction false} FilterKeepsNone<T>(s: seq<T>, keep: T -> bool)
    requires forall i :: 0 <= i < |s| ==> !keep(s[i])
    ensures Filter(s, keep) == []
    decreases |s|
  {
    if |s| > 0 {
      FilterKeepsNone(s[1..], keep);
    }
  }
}
