/** Generic models of the JavaScript array operations the storefront builds on:
    `filter`, `new Set(...)` spread back into an array, `slice`, and the stable
    `Array.prototype.sort` with a comparator. */
module Sequences {

  /** `r` is `s` with some elements left out, the rest in their original order. */
  predicate IsSubsequence<T(==)>(r: seq<T>, s: seq<T>)
    decreases |s|
  {
    r == [] || (s != [] && ((r[0] == s[0] && IsSubsequence(r[1..], s[1..])) || IsSubsequence(r, s[1..])))
  }

  /** `s.filter(keep)`. */
  function Filter<T(!new)>(s: seq<T>, keep: T -> bool): (r: seq<T>)
    ensures |r| <= |s|
    ensures forall x :: x in r <==> x in s && keep(x)
    ensures multiset(r) <= multiset(s)
    ensures IsSubsequence(r, s)
    decreases |s|
  {
    if s == [] then []
    else
      assert s == [s[0]] + s[1..];
      if keep(s[0]) then [s[0]] + Filter(s[1..], keep) else Filter(s[1..], keep)
  }

  /** `Filter` keeps every copy of a passing element and none of the others. */
  lemma {:induction false} FilterMultiplicity<T(!new)>(s: seq<T>, keep: T -> bool)
    ensures forall x :: multiset(Filter(s, keep))[x] == if keep(x) then multiset(s)[x] else 0
    decreases |s|
  {
    if s != [] {
      FilterMultiplicity(s[1..], keep);
      assert s == [s[0]] + s[1..];
      assert multiset(s) == multiset{s[0]} + multiset(s[1..]);
      if keep(s[0]) {
        assert Filter(s, keep) == [s[0]] + Filter(s[1..], keep);
      }
    }
  }

  /** `Filter` keeps every element, and so is as long as its input, exactly
      when the test holds of every element. */
  lemma {:induction false} FilterKeepsAll<T(!new)>(s: seq<T>, keep: T -> bool)
    ensures Filter(s, keep) == s <==> forall i :: 0 <= i < |s| ==> keep(s[i])
    ensures |Filter(s, keep)| == |s| <==> forall i :: 0 <= i < |s| ==> keep(s[i])
    decreases |s|
  {
    if s != [] {
      FilterKeepsAll(s[1..], keep);
      assert forall i :: 1 <= i < |s| ==> s[i] == s[1..][i - 1];
    }
  }

  /** Filtering depends only on the test's verdict on the elements of `s`. */
  lemma {:induction false} FilterExtensional<T(!new)>(s: seq<T>, keep: T -> bool, keep': T -> bool)
    requires forall x :: x in s ==> keep(x) == keep'(x)
    ensures Filter(s, keep) == Filter(s, keep')
    decreases |s|
  {
    if s != [] {
      assert forall x :: x in s[1..] ==> x in s;
      FilterExtensional(s[1..], keep, keep');
    }
  }

  /** A prefix of a subsequence of `s` is a subsequence of `s`. */
  lemma {:induction false} SubsequencePrefix<T>(r: seq<T>, s: seq<T>, k: nat)
    requires IsSubsequence(r, s) && k <= |r|
    ensures IsSubsequence(r[..k], s)
    decreases |s|
  {
    if k > 0 {
      if r[0] == s[0] && IsSubsequence(r[1..], s[1..]) {
        SubsequencePrefix(r[1..], s[1..], k - 1);
        assert r[..k][0] == s[0] && r[..k][1..] == r[1..][..k - 1];
      } else {
        SubsequencePrefix(r, s[1..], k);
      }
    }
  }

  /** Every element of a subsequence of `s` is an element of `s`. */
  lemma {:induction false} SubsequenceElements<T>(r: seq<T>, s: seq<T>)
    requires IsSubsequence(r, s)
    ensures forall x :: x in r ==> x in s
  {
    if r != [] && s != [] {
      if r[0] == s[0] && IsSubsequence(r[1..], s[1..]) {
        SubsequenceElements(r[1..], s[1..]);
        assert forall x :: x in r ==> x == r[0] || x in r[1..];
      } else {
        SubsequenceElements(r, s[1..]);
      }
    }
  }

  /** The number of elements of `s` that pass `keep`: `s.filter(keep).length`. */
  function Count<T(!new)>(s: seq<T>, keep: T -> bool): (n: nat)
    ensures n <= |s|
    ensures n == |Filter(s, keep)|
    decreases |s|
  {
    if s == [] then 0 else (if keep(s[0]) then 1 else 0) + Count(s[1..], keep)
  }

  /** Counting over a concatenation adds the counts of its parts. */
  lemma {:induction false} CountAppend<T(!new)>(s: seq<T>, t: seq<T>, keep: T -> bool)
    ensures Count(s + t, keep) == Count(s, keep) + Count(t, keep)
    decreases |s|
  {
    if s == [] {
      assert s + t == t;
    } else {
      assert (s + t)[0] == s[0] && (s + t)[1..] == s[1..] + t;
      CountAppend(s[1..], t, keep);
    }
  }

  /** Every element passes exactly one of a test and its negation. */
  lemma {:induction false} CountComplement<T(!new)>(s: seq<T>, keep: T -> bool, drop: T -> bool)
    requires forall x :: x in s ==> (drop(x) <==> !keep(x))
    ensures Count(s, keep) + Count(s, drop) == |s|
    decreases |s|
  {
    if s != [] {
      assert forall x :: x in s[1..] ==> x in s;
      CountComplement(s[1..], keep, drop);
    }
  }

  predicate Distinct<T(==)>(s: seq<T>) {
    forall i, j :: 0 <= i < j < |s| ==> s[i] != s[j]
  }

  /** A sequence without repetitions has as many distinct elements as entries. */
  lemma {:induction false} DistinctSetSize<T>(s: seq<T>)
    requires Distinct(s)
    ensures |set x | x in s| == |s|
  {
    if s != [] {
      var t := s[1..];
      assert Distinct(t) by {
        forall i, j | 0 <= i < j < |t| ensures t[i] != t[j] {
          assert t[i] == s[i + 1] && t[j] == s[j + 1];
        }
      }
      DistinctSetSize(t);
      assert forall k :: 0 <= k < |t| ==> t[k] == s[k + 1] && t[k] != s[0];
      assert s[0] !in t;
      assert (set x | x in s) == {s[0]} + (set x | x in t) by {
        assert forall x :: x in s <==> x == s[0] || x in t;
      }
    }
  }

  /** Appending an element not yet present keeps a sequence free of repetitions. */
  lemma AppendFreshDistinct<T>(s: seq<T>, x: T)
    requires Distinct(s) && x !in s
    ensures Distinct(s + [x])
  {
    var r := s + [x];
    forall i, j | 0 <= i < j < |r| ensures r[i] != r[j] {
      assert r[i] == s[i] && s[i] in s;
    }
  }

  lemma {:induction false} DistinctIffSingleOccurrences<T>(s: seq<T>)
    ensures Distinct(s) <==> forall x :: multiset(s)[x] <= 1
    decreases |s|
  {
    if s != [] {
      var t := s[1..];
      assert s == [s[0]] + t;
      DistinctIffSingleOccurrences(t);
      if Distinct(s) {
        assert s[0] !in t;
        assert Distinct(t) by {
          forall i, j | 0 <= i < j < |t| ensures t[i] != t[j] {
            assert t[i] == s[i + 1] && t[j] == s[j + 1];
          }
        }
      }
      if forall x :: multiset(s)[x] <= 1 {
        assert forall x :: multiset(t)[x] <= multiset(s)[x];
        assert multiset(t)[s[0]] == 0;
        forall i, j | 0 <= i < j < |s| ensures s[i] != s[j] {
          if i == 0 {
            assert s[j] in t;
          } else {
            assert s[i] == t[i - 1] && s[j] == t[j - 1];
          }
        }
      }
    }
  }

  /** `[...new Set(s)]`: the first occurrence of each value, in order. */
  function Dedup<T(==,!new)>(s: seq<T>): (r: seq<T>)
    ensures Distinct(r)
    ensures forall x :: x in r <==> x in s
    decreases |s|
  {
    if s == [] then []
    else
      var d := Dedup(s[..|s| - 1]);
      assert forall x :: x in s <==> x in s[..|s| - 1] || x == s[|s| - 1];
      if s[|s| - 1] in d then d else d + [s[|s| - 1]]
  }

  /** `s.slice(0, end)` with JavaScript's rules for an end that is negative
      (counted from the back) or past the length. */
  function SliceEnd(len: nat, end: int): (k: nat)
    ensures k <= len
    ensures 0 <= end <= len ==> k == end
    ensures end > len ==> k == len
    ensures end < 0 ==> k == if len + end < 0 then 0 else len + end
  {
    if end < 0 then (if len + end < 0 then 0 else len + end)
    else if end > len then len
    else end
  }

  /** `le` is a total preorder: what a consistent sort comparator gives. */
  ghost predicate TotalPreorder<T(!new)>(le: (T, T) -> bool) {
    && (forall a, b :: le(a, b) || le(b, a))
    && (forall a, b, c :: le(a, b) && le(b, c) ==> le(a, c))
  }

  predicate SortedBy<T>(s: seq<T>, le: (T, T) -> bool) {
    forall i, j :: 0 <= i < j < |s| ==> le(s[i], s[j])
  }

  /** One step of a stable insertion sort: `x` goes after every element that
      does not compare greater than it. */
  function Insert<T>(r: seq<T>, x: T, le: (T, T) -> bool): (o: seq<T>)
    ensures multiset(o) == multiset(r) + multiset{x}
    ensures |o| == |r| + 1
    decreases |r|
  {
    if r == [] then [x]
    else if le(r[|r| - 1], x) then r + [x]
    else
      assert r == r[..|r| - 1] + [r[|r| - 1]];
      Insert(r[..|r| - 1], x, le) + [r[|r| - 1]]
  }

  /** The stable sort of `s` by the comparator whose "not greater" test is `le`,
      as `Array.prototype.sort` on a copy computes it. */
  function SortBy<T>(s: seq<T>, le: (T, T) -> bool): (o: seq<T>)
    ensures multiset(o) == multiset(s)
    ensures |o| == |s|
    decreases |s|
  {
    if s == [] then []
    else
      assert s == s[..|s| - 1] + [s[|s| - 1]];
      Insert(SortBy(s[..|s| - 1], le), s[|s| - 1], le)
  }

  lemma {:induction false} InsertSorted<T(!new)>(r: seq<T>, x: T, le: (T, T) -> bool)
    requires TotalPreorder(le)
    requires SortedBy(r, le)
    ensures SortedBy(Insert(r, x, le), le)
    decreases |r|
  {
    if r != [] {
      var last := r[|r| - 1];
      if !le(last, x) {
        var r' := r[..|r| - 1];
        assert SortedBy(r', le);
        InsertSorted(r', x, le);
        var o' := Insert(r', x, le);
        assert le(x, last);
        forall y | y in o' ensures le(y, last) {
          assert y in multiset(o');
          if y != x {
            assert y in multiset(r');
            assert y in r';
          }
        }
        var o := o' + [last];
        forall i, j | 0 <= i < j < |o| ensures le(o[i], o[j]) {
          if j == |o| - 1 {
            assert o[i] in o';
          }
        }
      }
    }
  }

  /** `SortBy` returns its input ordered by `le`. */
  lemma {:induction false} SortByIsSorted<T(!new)>(s: seq<T>, le: (T, T) -> bool)
    requires TotalPreorder(le)
    ensures SortedBy(SortBy(s, le), le)
    decreases |s|
  {
    if s != [] {
      SortByIsSorted(s[..|s| - 1], le);
      InsertSorted(SortBy(s[..|s| - 1], le), s[|s| - 1], le);
    }
  }
}
