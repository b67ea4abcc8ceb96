/** Order-preserving filtering and summation over sequences: the `Array.filter` and
    summing `reduce` idioms the application uses everywhere. */
module Seqs {

  /** The elements of `s` that satisfy `p`, in their original order. */
  function Filter<T>(s: seq<T>, p: T -> bool): (r: seq<T>)
    ensures |r| <= |s|
    ensures forall i :: 0 <= i < |r| ==> r[i] in s && p(r[i])
    ensures forall i :: 0 <= i < |s| && p(s[i]) ==> s[i] in r
  {
    if |s| == 0 then []
    else if p(s[0]) then [s[0]] + Filter(s[1..], p) else Filter(s[1..], p)
  }

  /** Filtering keeps every element satisfying `p` exactly as often as it occurs in `s`, and
      no other element: it neither repeats nor invents anything. */
  lemma {:induction false} FilterCounts<T>(s: seq<T>, p: T -> bool)
    ensures multiset(Filter(s, p)) <= multiset(s)
    ensures forall x :: x in s && p(x) ==> multiset(Filter(s, p))[x] == multiset(s)[x]
  {
    if |s| > 0 {
      FilterCounts(s[1..], p);
      assert s == [s[0]] + s[1..];
    }
  }

  /** Filtering keeps distinct keys distinct. */
  lemma {:induction false} FilterKeepsDistinct<T>(s: seq<T>, p: T -> bool, key: T -> string)
    requires forall i, j :: 0 <= i < j < |s| ==> key(s[i]) != key(s[j])
    ensures forall i, j :: 0 <= i < j < |Filter(s, p)| ==> key(Filter(s, p)[i]) != key(Filter(s, p)[j])
  {
    if |s| > 0 {
      FilterKeepsDistinct(s[1..], p, key);
      var rest := Filter(s[1..], p);
      if p(s[0]) {
        var r := [s[0]] + rest;
        forall i, j | 0 <= i < j < |r| ensures key(r[i]) != key(r[j]) {
          if i == 0 {
            assert r[j] == rest[j - 1];
            var m :| 0 <= m < |s[1..]| && s[1..][m] == rest[j - 1];
            assert s[m + 1] == r[j];
          } else {
            assert r[i] == rest[i - 1] && r[j] == rest[j - 1];
          }
        }
      }
    }
  }

  /** The sum of `f` over `s`, starting from zero. */
  function SumBy<T>(s: seq<T>, f: T -> real): real
  {
    if |s| == 0 then 0.0 else f(s[0]) + SumBy(s[1..], f)
  }

  /** Every element whose key is `id` replaced by `y`, in place; the others kept. */
  function ReplaceKeyed<T>(s: seq<T>, key: T -> string, id: string, y: T): (r: seq<T>)
    ensures |r| == |s|
    ensures forall i :: 0 <= i < |r| ==> r[i] == if key(s[i]) == id then y else s[i]
    ensures key(y) == id ==> forall i :: 0 <= i < |r| ==> key(r[i]) == key(s[i])
    ensures (exists i :: 0 <= i < |s| && key(s[i]) == id) ==> y in r
    ensures forall x :: x in r && x != y ==> x in s && key(x) != id
  {
    seq(|s|, i requires 0 <= i < |s| => if key(s[i]) == id then y else s[i])
  }

  /** Replacing under a key nothing carries changes nothing, and replacing twice is replacing once. */
  lemma ReplaceKeyedLaws<T>(s: seq<T>, key: T -> string, id: string, y: T)
    ensures (forall i :: 0 <= i < |s| ==> key(s[i]) != id) ==> ReplaceKeyed(s, key, id, y) == s
    ensures ReplaceKeyed(ReplaceKeyed(s, key, id, y), key, id, y) == ReplaceKeyed(s, key, id, y)
  {
    var r := ReplaceKeyed(s, key, id, y);
    var rr := ReplaceKeyed(r, key, id, y);
    assert |rr| == |r|;
    forall i | 0 <= i < |r| ensures rr[i] == r[i] {
    }
  }

  /** Filtering distributes over concatenation: the relative order of kept elements is preserved. */
  lemma {:induction false} FilterAppend<T>(s: seq<T>, t: seq<T>, p: T -> bool)
    ensures Filter(s + t, p) == Filter(s, p) + Filter(t, p)
  {
    if |s| == 0 {
      assert s + t == t;
    } else {
      assert (s + t)[1..] == s[1..] + t;
      FilterAppend(s[1..], t, p);
    }
  }

  /** A predicate that holds of every element keeps the whole sequence. */
  lemma {:induction false} FilterKeepsAll<T>(s: seq<T>, p: T -> bool)
    requires forall i :: 0 <= i < |s| ==> p(s[i])
    ensures Filter(s, p) == s
  {
    if |s| > 0 {
      FilterKeepsAll(s[1..], p);
    }
  }

  /** A predicate that holds of no element keeps nothing. */
  lemma {:induction false} FilterKeepsNone<T>(s: seq<T>, p: T -> bool)
    requires forall i :: 0 <= i < |s| ==> !p(s[i])
    ensures Filter(s, p) == []
  {
    if |s| > 0 {
      FilterKeepsNone(s[1..], p);
    }
  }

  /** Sums add up over concatenation. */
  lemma {:induction false} SumByAppend<T>(s: seq<T>, t: seq<T>, f: T -> real)
    ensures SumBy(s + t, f) == SumBy(s, f) + SumBy(t, f)
  {
    if |s| == 0 {
      assert s + t == t;
    } else {
      assert (s + t)[1..] == s[1..] + t;
      SumByAppend(s[1..], t, f);
    }
  }

  /** Replacing one element changes the sum by exactly the difference of the two elements. */
  lemma {:induction false} SumByUpdate<T>(s: seq<T>, k: nat, x: T, f: T -> real)
    requires k < |s|
    ensures SumBy(s[k := x], f) == SumBy(s, f) - f(s[k]) + f(x)
  {
    if k == 0 {
      assert s[k := x][1..] == s[1..];
    } else {
      assert s[k := x][1..] == s[1..][k - 1 := x];
      SumByUpdate(s[1..], k - 1, x, f);
    }
  }

  /** Splitting a sequence by complementary predicates splits its sum. */
  lemma {:induction false} SumByPartition<T>(s: seq<T>, f: T -> real, p: T -> bool, q: T -> bool)
    requires forall i :: 0 <= i < |s| ==> q(s[i]) == !p(s[i])
    ensures SumBy(s, f) == SumBy(Filter(s, p), f) + SumBy(Filter(s, q), f)
  {
    if |s| > 0 {
      SumByPartition(s[1..], f, p, q);
    }
  }

  /** Complementary predicates split a sequence into two filters whose lengths add up. */
  lemma {:induction false} FilterPartitionLength<T>(s: seq<T>, p: T -> bool, q: T -> bool)
    requires forall i :: 0 <= i < |s| ==> q(s[i]) == !p(s[i])
    ensures |Filter(s, p)| + |Filter(s, q)| == |s|
  {
    if |s| > 0 {
      FilterPartitionLength(s[1..], p, q);
    }
  }

  /** A sum of non-negative terms is non-negative and at least each of its terms. */
  lemma {:induction false} SumByNonNegative<T>(s: seq<T>, f: T -> real)
    requires forall i :: 0 <= i < |s| ==> f(s[i]) >= 0.0
    ensures SumBy(s, f) >= 0.0
    ensures forall i :: 0 <= i < |s| ==> f(s[i]) <= SumBy(s, f)
  {
    if |s| > 0 {
      SumByNonNegative(s[1..], f);
      forall i | 1 <= i < |s| ensures f(s[i]) <= SumBy(s, f) {
        assert s[1..][i - 1] == s[i];
      }
    }
  }

  /** `SumByNonNegative` for whichever sequence has only non-negative terms. */
  lemma SumByBounds<T>(s: seq<T>, f: T -> real)
    ensures (forall i :: 0 <= i < |s| ==> f(s[i]) >= 0.0) ==>
      SumBy(s, f) >= 0.0 && forall i :: 0 <= i < |s| ==> f(s[i]) <= SumBy(s, f)
  {
    if forall i :: 0 <= i < |s| ==> f(s[i]) >= 0.0 {
      SumByNonNegative(s, f);
    }
  }
}
