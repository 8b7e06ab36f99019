/** The array operations the store is built from: `filter`, `find`/`findIndex`
    and `indexOf`, as functions on sequences. */
module Seqs {

  import opened Records

  /** `xs.filter(p)`: the elements satisfying `p`, in their original order. */
  function Filter<T(!new)>(xs: seq<T>, p: T -> bool): (r: seq<T>)
    ensures |r| <= |xs|
  {
    if xs == [] then []
    else (if p(xs[0]) then [xs[0]] else []) + Filter(xs[1..], p)
  }

  /** The result of a filter holds exactly the elements of the input that pass. */
  lemma {:induction false} FilterMembers<T(!new)>(xs: seq<T>, p: T -> bool)
    ensures forall x :: x in Filter(xs, p) <==> x in xs && p(x)
  {
    if xs != [] {
      FilterMembers(xs[1..], p);
      assert forall x :: x in xs <==> x == xs[0] || x in xs[1..];
    }
  }

  /** The key of every element, in order (`xs.map(key)`). */
  function Map<T, K>(xs: seq<T>, key: T -> K): (r: seq<K>)
    ensures |r| == |xs| && forall i :: 0 <= i < |xs| ==> r[i] == key(xs[i])
  {
    seq(|xs|, i requires 0 <= i < |xs| => key(xs[i]))
  }

  /** A filter by "the key equals `k`" keeps as many elements as `k` occurs among
      the keys. */
  lemma {:induction false} FilterCount<T(!new), K>(xs: seq<T>, p: T -> bool, key: T -> K, k: K)
    requires forall x :: p(x) == (key(x) == k)
    ensures |Filter(xs, p)| == multiset(Map(xs, key))[k]
  {
    if xs != [] {
      FilterCount(xs[1..], p, key, k);
      assert Map(xs, key) == [key(xs[0])] + Map(xs[1..], key);
      if p(xs[0]) {
        FilterKeepsHead(xs, p);
      } else {
        FilterSkipsHead(xs, p);
      }
    }
  }

  /** `r` is laid out inside `xs` at the strictly increasing positions `idx`. */
  ghost predicate EmbedsAt<T>(r: seq<T>, xs: seq<T>, idx: seq<nat>)
  {
    && |idx| == |r|
    && (forall k :: 0 <= k < |idx| ==> idx[k] < |xs| && r[k] == xs[idx[k]])
    && (forall j, k :: 0 <= j < k < |idx| ==> idx[j] < idx[k])
  }

  /** Every position moved one place to the right. */
  function Shift(idx: seq<nat>): (r: seq<nat>)
    ensures |r| == |idx|
    ensures forall k :: 0 <= k < |idx| ==> r[k] == idx[k] + 1
  {
    seq(|idx|, k requires 0 <= k < |idx| => idx[k] + 1)
  }

  lemma EmbedsInTail<T>(r: seq<T>, xs: seq<T>, idx: seq<nat>)
    requires xs != [] && EmbedsAt(r, xs[1..], idx)
    ensures EmbedsAt(r, xs, Shift(idx))
    ensures EmbedsAt([xs[0]] + r, xs, [0] + Shift(idx))
  {
    var s := Shift(idx);
    forall k | 0 <= k < |idx| ensures s[k] < |xs| && r[k] == xs[s[k]] {
      assert xs[1..][idx[k]] == xs[idx[k] + 1];
    }
    var r', s' := [xs[0]] + r, [0] + s;
    forall k | 0 <= k < |s'| ensures s'[k] < |xs| && r'[k] == xs[s'[k]] {
      if k > 0 {
        assert r'[k] == r[k - 1] && s'[k] == s[k - 1];
      }
    }
  }

  /** The result of a filter is an order-preserving subsequence of its input:
      the positions it was taken from are returned as a witness. */
  lemma {:induction false} FilterIsSubsequence<T(!new)>(xs: seq<T>, p: T -> bool) returns (idx: seq<nat>)
    ensures EmbedsAt(Filter(xs, p), xs, idx)
    ensures forall i :: 0 <= i < |xs| && p(xs[i]) ==> i in idx
  {
    if xs == [] {
      idx := [];
    } else {
      var rest := FilterIsSubsequence(xs[1..], p);
      EmbedsInTail(Filter(xs[1..], p), xs, rest);
      ShiftCovers(xs, p, rest);
      if p(xs[0]) {
        idx := [0] + Shift(rest);
        assert forall i :: i in Shift(rest) ==> i in idx;
      } else {
        idx := Shift(rest);
      }
    }
  }

  lemma ShiftCovers<T>(xs: seq<T>, p: T -> bool, rest: seq<nat>)
    requires xs != []
    requires forall i :: 0 <= i < |xs[1..]| && p(xs[1..][i]) ==> i in rest
    ensures forall i :: 1 <= i < |xs| && p(xs[i]) ==> i in Shift(rest)
  {
    forall i | 1 <= i < |xs| && p(xs[i]) ensures i in Shift(rest) {
      assert xs[1..][i - 1] == xs[i];
      var k :| 0 <= k < |rest| && rest[k] == i - 1;
      assert Shift(rest)[k] == i;
    }
  }

  lemma {:induction false} FilterConcat<T(!new)>(a: seq<T>, b: seq<T>, p: T -> bool)
    ensures Filter(a + b, p) == Filter(a, p) + Filter(b, p)
  {
    if a == [] {
      assert a + b == b;
    } else {
      var ab := a + b;
      assert ab[0] == a[0] && ab[1..] == a[1..] + b;
      FilterConcat(a[1..], b, p);
      if p(a[0]) {
        FilterKeepsHead(ab, p);
        FilterKeepsHead(a, p);
        assert [a[0]] + (Filter(a[1..], p) + Filter(b, p)) == ([a[0]] + Filter(a[1..], p)) + Filter(b, p);
      } else {
        FilterSkipsHead(ab, p);
        FilterSkipsHead(a, p);
      }
    }
  }

  /** Two filters in a row keep exactly what one filter by the conjunction keeps. */
  lemma {:induction false} FilterFilter<T(!new)>(xs: seq<T>, p: T -> bool, q: T -> bool, pq: T -> bool)
    requires forall x :: pq(x) == (p(x) && q(x))
    ensures Filter(Filter(xs, p), q) == Filter(xs, pq)
  {
    if xs != [] {
      var head := if p(xs[0]) then [xs[0]] else [];
      FilterConcat(head, Filter(xs[1..], p), q);
      FilterFilter(xs[1..], p, q, pq);
    }
  }

  /** A filter that keeps every element is the identity. */
  lemma {:induction false} FilterAll<T(!new)>(xs: seq<T>, p: T -> bool)
    requires forall i :: 0 <= i < |xs| ==> p(xs[i])
    ensures Filter(xs, p) == xs
  {
    if xs != [] {
      FilterAll(xs[1..], p);
    }
  }

  /** A filter that rejects the element at `k` and keeps every other one removes
      exactly that element. */
  lemma {:induction false} FilterDropsOne<T(!new)>(xs: seq<T>, k: nat, p: T -> bool)
    requires k < |xs| && !p(xs[k])
    requires forall i :: 0 <= i < |xs| && i != k ==> p(xs[i])
    ensures Filter(xs, p) == xs[..k] + xs[k + 1..]
  {
    if k == 0 {
      FilterAll(xs[1..], p);
      FilterSkipsHead(xs, p);
    } else {
      FilterDropsOne(xs[1..], k - 1, p);
      FilterKeepsHead(xs, p);
      assert xs[..k] == [xs[0]] + xs[1..][..k - 1];
      assert xs[k + 1..] == xs[1..][k..];
    }
  }

  lemma FilterSkipsHead<T(!new)>(xs: seq<T>, p: T -> bool)
    requires xs != [] && !p(xs[0])
    ensures Filter(xs, p) == Filter(xs[1..], p)
  {
  }

  lemma FilterKeepsHead<T(!new)>(xs: seq<T>, p: T -> bool)
    requires xs != [] && p(xs[0])
    ensures Filter(xs, p) == [xs[0]] + Filter(xs[1..], p)
  {
  }

  lemma SplitAt<T>(xs: seq<T>, k: nat)
    requires k < |xs|
    ensures xs == (xs[..k] + [xs[k]]) + xs[k + 1..]
  {
  }

  /** Elements that satisfy neither of two exclusive tests: the two filters never
      take more than the whole sequence together. */
  lemma {:induction false} FilterDisjointCounts<T(!new)>(xs: seq<T>, p: T -> bool, q: T -> bool)
    requires forall x :: !(p(x) && q(x))
    ensures |Filter(xs, p)| + |Filter(xs, q)| <= |xs|
  {
    if xs != [] {
      FilterDisjointCounts(xs[1..], p, q);
    }
  }

  /** `xs.findIndex(p)`, with -1 rendered as None: the first position satisfying `p`. */
  function FirstIndex<T>(xs: seq<T>, p: T -> bool): (r: Option<nat>)
    ensures r.Some? ==> r.value < |xs| && p(xs[r.value])
    ensures r.Some? ==> forall j :: 0 <= j < r.value ==> !p(xs[j])
    ensures r.None? ==> forall j :: 0 <= j < |xs| ==> !p(xs[j])
  {
    if xs == [] then None
    else if p(xs[0]) then Some(0)
    else match FirstIndex(xs[1..], p)
      case None => None
      case Some(i) => Some(i + 1)
  }

  /** `xs.indexOf(x)`: the first position holding `x`, or -1. */
  function IndexOf<T(==)>(xs: seq<T>, x: T): (r: int)
    ensures -1 <= r < |xs|
    ensures r >= 0 ==> xs[r] == x && x !in xs[..r]
    ensures r == -1 <==> x !in xs
  {
    if xs == [] then -1
    else if xs[0] == x then 0
    else
      var i := IndexOf(xs[1..], x);
      assert xs[1..][..if i < 0 then 0 else i] == xs[1..if i < 0 then 1 else i + 1];
      if i < 0 then -1 else i + 1
  }
}
