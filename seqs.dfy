/** Generic sequence helpers: order-preserving filter, reversal and pairwise relations. */
module Seqs {

  /** The elements of `s` that satisfy `keep`, in their original order (JavaScript's `Array.filter`). */
  function Filter<T>(s: seq<T>, keep: T -> bool): (r: seq<T>)
    ensures |r| <= |s|
    ensures forall i :: 0 <= i < |r| ==> keep(r[i]) && r[i] in s
  {
    if s == [] then [] else (if keep(s[0]) then [s[0]] else []) + Filter(s[1..], keep)
  }

  /** An element is kept exactly when it occurs in the input and satisfies `keep`. */
  lemma {:induction false} FilterMembers<T>(s: seq<T>, keep: T -> bool)
    ensures forall x :: x in Filter(s, keep) <==> x in s && keep(x)
  {
    if s != [] {
      FilterMembers(s[1..], keep);
      assert s == [s[0]] + s[1..];
    }
  }

  /** A filter every element passes returns the input. */
  lemma {:induction false} FilterAll<T>(s: seq<T>, keep: T -> bool)
    requires forall i :: 0 <= i < |s| ==> keep(s[i])
    ensures Filter(s, keep) == s
  {
    if s != [] {
      FilterAll(s[1..], keep);
      assert s == [s[0]] + s[1..];
    }
  }

  /** Filtering distributes over concatenation. */
  lemma {:induction false} FilterAppend<T>(a: seq<T>, b: seq<T>, keep: T -> bool)
    ensures Filter(a + b, keep) == Filter(a, keep) + Filter(b, keep)
  {
    if a == [] {
      assert a + b == b;
    } else {
      assert (a + b)[1..] == a[1..] + b;
      FilterAppend(a[1..], b, keep);
    }
  }

  /** Filtering out a single rejected element between two accepted runs leaves the two runs. */
  lemma FilterDropsOne<T>(a: seq<T>, x: T, b: seq<T>, keep: T -> bool)
    requires forall i :: 0 <= i < |a| ==> keep(a[i])
    requires forall i :: 0 <= i < |b| ==> keep(b[i])
    requires !keep(x)
    ensures Filter(a + [x] + b, keep) == a + b
  {
    assert Filter([x], keep) == [] by {
      assert [x][1..] == [];
    }
    assert Filter(a, keep) == a by {
      FilterAll(a, keep);
    }
    assert Filter(b, keep) == b by {
      FilterAll(b, keep);
    }
    assert Filter(a + [x] + b, keep) == Filter(a, keep) + Filter([x], keep) + Filter(b, keep) by {
      FilterAppend(a + [x], b, keep);
      FilterAppend(a, [x], keep);
    }
    assert a + [] == a;
  }

  /** `rel` holds of every pair of elements taken in sequence order. */
  ghost predicate Pairwise<T>(s: seq<T>, rel: (T, T) -> bool) {
    forall i, j :: 0 <= i < j < |s| ==> rel(s[i], s[j])
  }

  /** An element related to everything before it can be appended. */
  lemma PairwiseAppend<T>(s: seq<T>, x: T, rel: (T, T) -> bool)
    requires Pairwise(s, rel)
    requires forall i :: 0 <= i < |s| ==> rel(s[i], x)
    ensures Pairwise(s + [x], rel)
  {
    var t := s + [x];
    forall i, j | 0 <= i < j < |t| ensures rel(t[i], t[j]) {
      if j < |s| {
        assert t[i] == s[i] && t[j] == s[j];
      } else {
        assert t[i] == s[i] && t[j] == x;
      }
    }
  }

  function Reverse<T>(s: seq<T>): (r: seq<T>)
    ensures |r| == |s|
  {
    if s == [] then [] else Reverse(s[1..]) + [s[0]]
  }

  lemma {:induction false} ReverseAt<T>(s: seq<T>, k: nat)
    requires k < |s|
    ensures Reverse(s)[k] == s[|s| - 1 - k]
  {
    if k < |s| - 1 {
      ReverseAt(s[1..], k);
    }
  }

  /** Splitting by a predicate and its negation loses and duplicates nothing. */
  lemma {:induction false} FilterKeepsMultiset<T>(s: seq<T>, keep: T -> bool, drop: T -> bool)
    requires forall i :: 0 <= i < |s| ==> drop(s[i]) == !keep(s[i])
    ensures multiset(Filter(s, keep)) + multiset(Filter(s, drop)) == multiset(s)
  {
    if s != [] {
      var t := s[1..];
      FilterKeepsMultiset(t, keep, drop);
      assert s == [s[0]] + t;
      if keep(s[0]) {
        assert Filter(s, keep) == [s[0]] + Filter(t, keep);
        assert Filter(s, drop) == Filter(t, drop);
      } else {
        assert Filter(s, keep) == Filter(t, keep);
        assert Filter(s, drop) == [s[0]] + Filter(t, drop);
      }
    }
  }

  /** Filtering keeps a subsequence, so every pairwise relation of the input survives. */
  lemma {:induction false} FilterKeepsPairwise<T>(s: seq<T>, keep: T -> bool, rel: (T, T) -> bool)
    requires Pairwise(s, rel)
    ensures Pairwise(Filter(s, keep), rel)
  {
    if s != [] {
      PairwiseTail(s, rel);
      FilterKeepsPairwise(s[1..], keep, rel);
      if keep(s[0]) {
        var t := Filter(s[1..], keep);
        forall i | 0 <= i < |t| ensures rel(s[0], t[i]) {
          var k :| 0 <= k < |s[1..]| && s[1..][k] == t[i];
          assert rel(s[0], s[k + 1]);
        }
        PairwiseCons(s[0], t, rel);
        assert Filter(s, keep) == [s[0]] + t;
      } else {
        assert Filter(s, keep) == Filter(s[1..], keep);
      }
    }
  }

  lemma PairwiseTail<T>(s: seq<T>, rel: (T, T) -> bool)
    requires s != [] && Pairwise(s, rel)
    ensures Pairwise(s[1..], rel)
  {
    forall i, j | 0 <= i < j < |s[1..]| ensures rel(s[1..][i], s[1..][j]) {
      assert s[1..][i] == s[i + 1] && s[1..][j] == s[j + 1];
    }
  }

  lemma PairwiseCons<T>(x: T, t: seq<T>, rel: (T, T) -> bool)
    requires Pairwise(t, rel)
    requires forall i :: 0 <= i < |t| ==> rel(x, t[i])
    ensures Pairwise([x] + t, rel)
  {
    var r := [x] + t;
    forall i, j | 0 <= i < j < |r| ensures rel(r[i], r[j]) {
      assert r[j] == t[j - 1];
      if i > 0 {
        assert r[i] == t[i - 1];
      }
    }
  }

  /** Reversing flips every pairwise relation. */
  lemma ReverseFlipsPairwise<T>(s: seq<T>, rel: (T, T) -> bool, flipped: (T, T) -> bool)
    requires Pairwise(s, rel)
    requires forall a, b :: rel(a, b) ==> flipped(b, a)
    ensures Pairwise(Reverse(s), flipped)
  {
    var r := Reverse(s);
    forall i, j | 0 <= i < j < |r| ensures flipped(r[i], r[j]) {
      ReverseAt(s, i);
      ReverseAt(s, j);
      assert rel(s[|s| - 1 - j], s[|s| - 1 - i]);
    }
  }

  lemma {:induction false} ReverseKeepsMembers<T>(s: seq<T>)
    ensures forall x :: x in Reverse(s) <==> x in s
  {
    if s != [] {
      ReverseKeepsMembers(s[1..]);
      assert s == [s[0]] + s[1..];
    }
  }
}
