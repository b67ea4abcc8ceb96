/** A stable sort by a numeric key, the behaviour of JavaScript's `Array.prototype.sort` with a
    comparator `(a, b) => key(a) - key(b)` (the sort is stable since ECMAScript 2019).

    Stability is stated on elements tagged with their input position: the result is ordered by
    the key and, among equal keys, by input position. */
module StableSort {

  /** Pairs each element with its position in `s`. */
  function Tag<T>(s: seq<T>): (r: seq<(nat, T)>)
    ensures |r| == |s|
    ensures forall i :: 0 <= i < |r| ==> r[i] == (i, s[i])
  {
    seq(|s|, i requires 0 <= i < |s| => (i, s[i]))
  }

  /** Drops the position tags. */
  function Untag<T>(s: seq<(nat, T)>): (r: seq<T>)
    ensures |r| == |s|
    ensures forall i :: 0 <= i < |r| ==> r[i] == s[i].1
  {
    if |s| == 0 then [] else [s[0].1] + Untag(s[1..])
  }

  /** `x` may precede `y`: a smaller key, or an equal key and an earlier input position. */
  predicate NotAfter<T>(key: T -> real, x: (nat, T), y: (nat, T)) {
    key(x.1) < key(y.1) || (key(x.1) == key(y.1) && x.0 <= y.0)
  }

  predicate Sorted<T>(key: T -> real, s: seq<(nat, T)>) {
    forall i, j :: 0 <= i < j < |s| ==> NotAfter(key, s[i], s[j])
  }

  /** Inserts `x` before the first element it may precede. */
  function Insert<T>(key: T -> real, x: (nat, T), s: seq<(nat, T)>): (r: seq<(nat, T)>)
    ensures |r| == |s| + 1
    ensures multiset(r) == multiset(s) + multiset{x}
    ensures multiset(Untag(r)) == multiset(Untag(s)) + multiset{x.1}
  {
    if |s| == 0 || NotAfter(key, x, s[0]) then
      assert ([x] + s)[1..] == s;
      [x] + s
    else
      var r := [s[0]] + Insert(key, x, s[1..]);
      assert r[1..] == Insert(key, x, s[1..]);
      assert s == [s[0]] + s[1..];
      r
  }

  /** Every entry of `Insert(key, x, s)` is `x` or an entry of `s`. */
  lemma InsertDrawsFrom<T>(key: T -> real, x: (nat, T), s: seq<(nat, T)>, k: nat)
    requires k < |Insert(key, x, s)|
    ensures Insert(key, x, s)[k] == x || Insert(key, x, s)[k] in s
  {
    var r := Insert(key, x, s);
    assert r[k] in multiset(r);
  }

  /** Everything `s[0]` may precede in a sorted `s`, it may precede after inserting `x` too. */
  lemma HeadPrecedesInsert<T>(key: T -> real, x: (nat, T), s: seq<(nat, T)>)
    requires Sorted(key, s) && |s| > 0 && NotAfter(key, s[0], x)
    ensures forall k :: 0 <= k < |Insert(key, x, s[1..])| ==> NotAfter(key, s[0], Insert(key, x, s[1..])[k])
  {
    var tail := Insert(key, x, s[1..]);
    forall k | 0 <= k < |tail| ensures NotAfter(key, s[0], tail[k]) {
      InsertDrawsFrom(key, x, s[1..], k);
      if tail[k] != x {
        var m :| 0 <= m < |s[1..]| && s[1..][m] == tail[k];
        assert s[m + 1] == tail[k];
      }
    }
  }

  lemma NotAfterTransitive<T>(key: T -> real, x: (nat, T), y: (nat, T), z: (nat, T))
    requires NotAfter(key, x, y) && NotAfter(key, y, z)
    ensures NotAfter(key, x, z)
  {
  }

  /** Putting in front of a sorted sequence an element that may precede its head keeps it sorted. */
  lemma ConsSorted<T>(key: T -> real, x: (nat, T), s: seq<(nat, T)>)
    requires Sorted(key, s)
    requires |s| == 0 || NotAfter(key, x, s[0])
    ensures Sorted(key, [x] + s)
  {
    var r := [x] + s;
    forall i, j | 0 <= i < j < |r| ensures NotAfter(key, r[i], r[j]) {
      if i == 0 {
        if j > 1 {
          NotAfterTransitive(key, x, s[0], s[j - 1]);
        }
      } else {
        assert r[i] == s[i - 1] && r[j] == s[j - 1];
      }
    }
  }

  lemma {:induction false} InsertSorted<T>(key: T -> real, x: (nat, T), s: seq<(nat, T)>)
    requires Sorted(key, s)
    ensures Sorted(key, Insert(key, x, s))
  {
    if |s| == 0 || NotAfter(key, x, s[0]) {
      ConsSorted(key, x, s);
    } else {
      InsertSorted(key, x, s[1..]);
      HeadPrecedesInsert(key, x, s);
      assert Sorted(key, s[1..]);
      ConsSorted(key, s[0], Insert(key, x, s[1..]));
    }
  }

  /** Insertion sort of tagged elements. */
  function SortTagged<T>(key: T -> real, s: seq<(nat, T)>): (r: seq<(nat, T)>)
    ensures |r| == |s|
    ensures multiset(r) == multiset(s)
    ensures multiset(Untag(r)) == multiset(Untag(s))
  {
    if |s| == 0 then []
    else
      assert s == [s[0]] + s[1..];
      assert Untag(s) == [s[0].1] + Untag(s[1..]);
      Insert(key, s[0], SortTagged(key, s[1..]))
  }

  lemma {:induction false} SortTaggedSorted<T>(key: T -> real, s: seq<(nat, T)>)
    ensures Sorted(key, SortTagged(key, s))
  {
    if |s| > 0 {
      SortTaggedSorted(key, s[1..]);
      InsertSorted(key, s[0], SortTagged(key, s[1..]));
    }
  }

  /** Two equal entries at different positions occur at least twice in the multiset. */
  lemma RepeatedEntryCountsTwice<T>(q: seq<T>, i: nat, j: nat)
    requires i < j < |q| && q[i] == q[j]
    ensures multiset(q)[q[i]] >= 2
  {
    assert q == q[..j] + q[j..];
    assert q[i] in q[..j];
    assert q[j] in q[j..];
    assert multiset(q) == multiset(q[..j]) + multiset(q[j..]);
  }

  /** Every tag of `Tag(s)` occurs once. */
  lemma {:induction false} TagOccursOnce<T>(s: seq<T>, p: (nat, T))
    ensures multiset(Tag(s))[p] <= 1
  {
    if |s| > 0 {
      var n := |s| - 1;
      var front := s[..n];
      assert Tag(s) == Tag(front) + [(n, s[n])];
      TagOccursOnce(front, p);
      if p == (n, s[n]) {
        assert p !in Tag(front);
      }
    }
  }

  /** The stable sort of `s` by `key`: each result entry is an element of `s` with its position. */
  function SortStable<T>(s: seq<T>, key: T -> real): (r: seq<(nat, T)>)
    ensures |r| == |s|
    ensures multiset(Untag(r)) == multiset(s)
    ensures Sorted(key, r)
    ensures forall i :: 0 <= i < |r| ==> r[i].0 < |s| && s[r[i].0] == r[i].1
    ensures forall i, j :: 0 <= i < j < |r| ==> r[i].0 != r[j].0
  {
    var r := SortTagged(key, Tag(s));
    SortTaggedSorted(key, Tag(s));
    assert Untag(Tag(s)) == s;
    assert forall i :: 0 <= i < |r| ==> r[i] in multiset(Tag(s));
    DistinctPositions(s, r);
    r
  }

  /** A permutation of `Tag(s)` never repeats a position. */
  lemma DistinctPositions<T>(s: seq<T>, r: seq<(nat, T)>)
    requires multiset(r) == multiset(Tag(s))
    requires forall i :: 0 <= i < |r| ==> r[i].0 < |s| && s[r[i].0] == r[i].1
    ensures forall i, j :: 0 <= i < j < |r| ==> r[i].0 != r[j].0
  {
    forall i, j | 0 <= i < j < |r| ensures r[i].0 != r[j].0 {
      if r[i].0 == r[j].0 {
        RepeatedEntryCountsTwice(r, i, j);
        TagOccursOnce(s, r[i]);
      }
    }
  }

  /** The first `k` entries of the stable sort (`sort(...).slice(0, k)`). */
  function SortedPrefix<T>(s: seq<T>, key: T -> real, k: nat): (r: seq<(nat, T)>)
    ensures |r| == if k < |s| then k else |s|
    ensures Sorted(key, r)
    ensures forall i :: 0 <= i < |r| ==> r[i].0 < |s| && s[r[i].0] == r[i].1
    ensures forall i, j :: 0 <= i < j < |r| ==> r[i].0 != r[j].0
    ensures multiset(Untag(r)) <= multiset(s)
  {
    var all := SortStable(s, key);
    var m := if k < |s| then k else |s|;
    PrefixSorted(key, all, m);
    assert Positions(s, all);
    PrefixPositions(s, all, m);
    PrefixUntagged(all, m);
    PrefixDistinct(all, m);
    all[..m]
  }

  /** The elements of a prefix are among the elements of the whole. */
  lemma PrefixUntagged<T>(r: seq<(nat, T)>, m: nat)
    requires m <= |r|
    ensures multiset(Untag(r[..m])) <= multiset(Untag(r))
  {
    var u := Untag(r);
    var v := Untag(r[..m]);
    assert |v| == |u[..m]|;
    assert forall i :: 0 <= i < m ==> v[i] == u[..m][i];
    assert v == u[..m];
    PrefixMultiset(u, m);
  }

  lemma PrefixMultiset<T>(u: seq<T>, m: nat)
    requires m <= |u|
    ensures multiset(u[..m]) <= multiset(u)
  {
    assert u == u[..m] + u[m..];
  }

  lemma PrefixDistinct<T>(r: seq<(nat, T)>, m: nat)
    requires m <= |r|
    requires forall i, j :: 0 <= i < j < |r| ==> r[i].0 != r[j].0
    ensures forall i, j :: 0 <= i < j < |r[..m]| ==> r[..m][i].0 != r[..m][j].0
  {
    forall i, j | 0 <= i < j < m ensures r[..m][i].0 != r[..m][j].0 {
      assert r[..m][i] == r[i] && r[..m][j] == r[j];
    }
  }

  /** Every entry of `r` is an element of `s` paired with its position. */
  ghost predicate Positions<T>(s: seq<T>, r: seq<(nat, T)>) {
    forall i :: 0 <= i < |r| ==> r[i].0 < |s| && s[r[i].0] == r[i].1
  }

  lemma PrefixPositions<T>(s: seq<T>, r: seq<(nat, T)>, m: nat)
    requires Positions(s, r) && m <= |r|
    ensures Positions(s, r[..m])
  {
    assert forall i :: 0 <= i < m ==> r[..m][i] == r[i];
  }

  lemma PrefixSorted<T>(key: T -> real, s: seq<(nat, T)>, m: nat)
    requires Sorted(key, s) && m <= |s|
    ensures Sorted(key, s[..m])
  {
    forall i, j | 0 <= i < j < m ensures NotAfter(key, s[..m][i], s[..m][j]) {
      assert s[..m][i] == s[i] && s[..m][j] == s[j];
    }
  }

  /** An element left out of the first `k` entries has a key no smaller than any of theirs. */
  lemma SortedPrefixIsLeast<T>(s: seq<T>, key: T -> real, k: nat, x: nat)
    requires x < |s|
    ensures s[x] in Untag(SortedPrefix(s, key, k))
         || forall i :: 0 <= i < |SortedPrefix(s, key, k)| ==> key(SortedPrefix(s, key, k)[i].1) <= key(s[x])
  {
    var all := SortStable(s, key);
    var m := if k < |s| then k else |s|;
    var u := Untag(all);
    assert s[x] in multiset(s);
    assert s[x] in multiset(u);
    var j :| 0 <= j < |u| && u[j] == s[x];
    var top := Untag(all[..m]);
    if j < m {
      assert top[j] == all[j].1;
    } else {
      forall i | 0 <= i < m ensures key(all[..m][i].1) <= key(s[x]) {
        assert NotAfter(key, all[i], all[j]);
      }
    }
  }

  /** Every input position appears as a tag of the stable sort. */
  lemma SortStableHasPosition<T>(s: seq<T>, key: T -> real, x: nat)
    requires x < |s|
    ensures exists j :: 0 <= j < |SortStable(s, key)| && SortStable(s, key)[j] == (x, s[x])
  {
    var r := SortTagged(key, Tag(s));
    assert SortStable(s, key) == r;
    assert Tag(s)[x] == (x, s[x]);
    assert (x, s[x]) in multiset(Tag(s));
    assert (x, s[x]) in multiset(r);
  }

  /** The cut keeps the earliest of tied elements: a position that is not among the first `k`
      entries is preceded by each of them, by a smaller key or by an equal key and an earlier
      position. */
  lemma SortedPrefixKeepsEarliest<T>(s: seq<T>, key: T -> real, k: nat, x: nat)
    requires x < |s|
    ensures (exists i :: 0 <= i < |SortedPrefix(s, key, k)| && SortedPrefix(s, key, k)[i].0 == x)
         || forall i :: 0 <= i < |SortedPrefix(s, key, k)| ==>
              key(SortedPrefix(s, key, k)[i].1) < key(s[x])
              || (key(SortedPrefix(s, key, k)[i].1) == key(s[x]) && SortedPrefix(s, key, k)[i].0 < x)
  {
    var all := SortStable(s, key);
    var m := if k < |s| then k else |s|;
    var top := SortedPrefix(s, key, k);
    assert top == all[..m];
    SortStableHasPosition(s, key, x);
    var j :| 0 <= j < |all| && all[j] == (x, s[x]);
    if j < m {
      assert top[j] == all[j];
    } else {
      forall i | 0 <= i < m
        ensures key(top[i].1) < key(s[x]) || (key(top[i].1) == key(s[x]) && top[i].0 < x)
      {
        assert top[i] == all[i];
        assert NotAfter(key, all[i], all[j]);
        assert all[i].0 != all[j].0;
      }
    }
  }

  /** Stability: entries with equal keys keep their input order. */
  lemma SortStableKeepsTies<T>(s: seq<T>, key: T -> real, i: nat, j: nat)
    requires i < j < |s|
    ensures key(SortStable(s, key)[i].1) == key(SortStable(s, key)[j].1) ==>
      SortStable(s, key)[i].0 < SortStable(s, key)[j].0
  {
    var r := SortStable(s, key);
    assert NotAfter(key, r[i], r[j]);
  }
}
