/** The array helpers the game calls on its tables: `filter`, `findIndex`,
    `find`, `slice(0, n)` and the element swap of a shuffle. */
module Seqs {
  import opened Wrappers

  /** `s.filter(p)`: the elements of `s` that satisfy `p`, in their order. */
  function Filter<T>(s: seq<T>, p: T -> bool): (r: seq<T>)
    ensures |r| <= |s|
    decreases |s|
  {
    if s == [] then [] else (if p(s[0]) then [s[0]] else []) + Filter(s[1..], p)
  }

  /** What the filter keeps: exactly the elements of `s` that satisfy `p`. */
  lemma {:induction false} FilterMembers<T>(s: seq<T>, p: T -> bool)
    ensures forall i :: 0 <= i < |Filter(s, p)| ==> Filter(s, p)[i] in s && p(Filter(s, p)[i])
    ensures forall i :: 0 <= i < |s| && p(s[i]) ==> s[i] in Filter(s, p)
    decreases |s|
  {
    if s != [] {
      FilterMembers(s[1..], p);
      var r := Filter(s, p);
      var t := Filter(s[1..], p);
      assert r == (if p(s[0]) then [s[0]] else []) + t;
      forall i | 0 <= i < |s| && p(s[i]) ensures s[i] in r {
        if i > 0 {
          assert s[i] == s[1..][i - 1];
        }
      }
    }
  }

  /** `idx` places `r` inside `s` in order: entry `k` of `r` is entry
      `idx[k]` of `s`, and the positions strictly increase. */
  ghost predicate EmbedsAt<T>(r: seq<T>, s: seq<T>, idx: seq<nat>) {
    && |idx| == |r|
    && (forall k :: 0 <= k < |idx| ==> idx[k] < |s| && r[k] == s[idx[k]])
    && (forall a, b :: 0 <= a < b < |idx| ==> idx[a] < idx[b])
  }

  /** An embedding into the tail of `s` is one into `s`, one position on. */
  lemma EmbedInTail<T>(r: seq<T>, s: seq<T>, idx: seq<nat>) returns (shifted: seq<nat>)
    requires s != [] && EmbedsAt(r, s[1..], idx)
    ensures EmbedsAt(r, s, shifted)
    ensures forall k :: 0 <= k < |shifted| ==> shifted[k] > 0
  {
    shifted := seq(|idx|, k requires 0 <= k < |idx| => idx[k] + 1);
    forall k | 0 <= k < |shifted| ensures shifted[k] < |s| && r[k] == s[shifted[k]] {
      assert r[k] == s[1..][idx[k]];
    }
  }

  /** The head of `s` goes in front of an embedding that avoids position 0. */
  lemma EmbedHead<T>(r: seq<T>, s: seq<T>, idx: seq<nat>)
    requires s != [] && EmbedsAt(r, s, idx)
    requires forall k :: 0 <= k < |idx| ==> idx[k] > 0
    ensures EmbedsAt([s[0]] + r, s, [0] + idx)
  {
    var r', idx' := [s[0]] + r, [0] + idx;
    forall k | 0 < k < |idx'| ensures idx'[k] < |s| && r'[k] == s[idx'[k]] {
      assert r'[k] == r[k - 1] && idx'[k] == idx[k - 1];
    }
  }

  /** The positions in `s` of the elements the filter keeps, in order. */
  lemma {:induction false} FilterIndices<T>(s: seq<T>, p: T -> bool) returns (idx: seq<nat>)
    ensures EmbedsAt(Filter(s, p), s, idx)
    decreases |s|
  {
    if s == [] {
      idx := [];
    } else {
      var t := Filter(s[1..], p);
      var tail := FilterIndices(s[1..], p);
      var shifted := EmbedInTail(t, s, tail);
      if p(s[0]) {
        EmbedHead(t, s, shifted);
        idx := [0] + shifted;
      } else {
        idx := shifted;
      }
    }
  }

  /** The filter keeps the input's order: its result is a subsequence of `s`. */
  lemma FilterKeepsOrder<T>(s: seq<T>, p: T -> bool)
    ensures exists idx :: EmbedsAt(Filter(s, p), s, idx)
  {
    var idx := FilterIndices(s, p);
  }

  /** The filter takes no element more often than `s` has it. */
  lemma {:induction false} FilterSubMultiset<T>(s: seq<T>, p: T -> bool)
    ensures multiset(Filter(s, p)) <= multiset(s)
    decreases |s|
  {
    if s != [] {
      FilterSubMultiset(s[1..], p);
      assert s == [s[0]] + s[1..];
      assert Filter(s, p) == (if p(s[0]) then [s[0]] else []) + Filter(s[1..], p);
    }
  }

  /** `s.findIndex(p)`: the index of the first element satisfying `p`, or -1. */
  function FindIndex<T>(s: seq<T>, p: T -> bool): (r: int)
    ensures -1 <= r < |s|
    ensures r == -1 <==> forall i :: 0 <= i < |s| ==> !p(s[i])
    ensures r >= 0 ==> p(s[r]) && forall i :: 0 <= i < r ==> !p(s[i])
    decreases |s|
  {
    if s == [] then -1
    else if p(s[0]) then 0
    else
      var k := FindIndex(s[1..], p);
      if k == -1 then -1 else k + 1
  }

  /** `s.find(p)`: the first element satisfying `p`, or nothing. */
  function Find<T>(s: seq<T>, p: T -> bool): (r: Option<T>)
    ensures r.None? <==> forall i :: 0 <= i < |s| ==> !p(s[i])
    ensures r.Some? ==> exists i :: 0 <= i < |s| && s[i] == r.value && p(s[i]) &&
                                   forall k :: 0 <= k < i ==> !p(s[k])
  {
    var i := FindIndex(s, p);
    if i == -1 then None else Some(s[i])
  }

  /** `s.slice(0, n)`: at most the first `n` elements. */
  function Take<T>(s: seq<T>, n: nat): (r: seq<T>)
    ensures |r| == if |s| < n then |s| else n
    ensures forall i :: 0 <= i < |r| ==> r[i] == s[i]
  {
    if |s| < n then s else s[..n]
  }

  /** The destructuring swap `[a[i], a[j]] = [a[j], a[i]]` on a value. */
  function Swap<T>(s: seq<T>, i: nat, j: nat): (r: seq<T>)
    requires i < |s| && j < |s|
    ensures |r| == |s|
  {
    s[i := s[j]][j := s[i]]
  }

  /** The swap exchanges the two elements, keeps the others in place and
      so rearranges without adding or losing any. */
  lemma SwapFacts<T>(s: seq<T>, i: nat, j: nat)
    requires i < |s| && j < |s|
    ensures Swap(s, i, j)[i] == s[j] && Swap(s, i, j)[j] == s[i]
    ensures forall k :: 0 <= k < |s| && k != i && k != j ==> Swap(s, i, j)[k] == s[k]
    ensures multiset(Swap(s, i, j)) == multiset(s)
  {
  }

  /** The filter of the suffix `s[k..]`, when exactly the elements at
      positions `lo` to `hi - 1` pass: what remains of that segment. */
  lemma {:induction false} FilterSuffixSegment<T>(s: seq<T>, p: T -> bool, lo: nat, hi: nat, k: nat)
    requires lo <= hi <= |s| && k <= |s|
    requires forall i :: 0 <= i < |s| ==> (p(s[i]) <==> lo <= i < hi)
    ensures Filter(s[k..], p) == if k <= lo then s[lo..hi] else if k < hi then s[k..hi] else []
    decreases |s| - k
  {
    if k < |s| {
      var t := s[k..];
      assert t[0] == s[k] && t[1..] == s[k + 1..];
      FilterSuffixSegment(s, p, lo, hi, k + 1);
      if lo <= k < hi {
        assert [s[k]] + s[k + 1..hi] == s[k..hi];
      }
    }
  }

  /** A filter passed exactly by the elements at positions `lo` to `hi - 1`
      yields that segment. */
  lemma FilterSegment<T>(s: seq<T>, p: T -> bool, lo: nat, hi: nat)
    requires lo <= hi <= |s|
    requires forall i :: 0 <= i < |s| ==> (p(s[i]) <==> lo <= i < hi)
    ensures Filter(s, p) == s[lo..hi]
  {
    FilterSuffixSegment(s, p, lo, hi, 0);
    assert s[0..] == s;
  }

  /** When exactly the elements at positions `lo` to `hi - 1` pass and
      there is at least one, the first to pass is at `lo`. */
  lemma FindSegmentStart<T>(s: seq<T>, p: T -> bool, lo: nat, hi: nat)
    requires lo < hi <= |s|
    requires forall i :: 0 <= i < |s| ==> (p(s[i]) <==> lo <= i < hi)
    ensures FindIndex(s, p) == lo
    ensures Find(s, p) == Some(s[lo])
  {
    assert p(s[lo]);
  }

  /** No two elements of `s` share a key. */
  predicate DistinctBy<T, K(==)>(s: seq<T>, key: T -> K) {
    forall x, y :: 0 <= x < y < |s| ==> key(s[x]) != key(s[y])
  }

  /** Swapping two elements keeps the keys distinct. */
  lemma SwapKeepsDistinct<T, K>(s: seq<T>, i: nat, j: nat, key: T -> K)
    requires i < |s| && j < |s| && DistinctBy(s, key)
    ensures DistinctBy(Swap(s, i, j), key)
  {
    var r := Swap(s, i, j);
    SwapFacts(s, i, j);
    forall x, y | 0 <= x < y < |r| ensures key(r[x]) != key(r[y]) {
      var sx := if x == i then j else if x == j then i else x;
      var sy := if y == i then j else if y == j then i else y;
      assert r[x] == s[sx] && r[y] == s[sy];
      assert sx != sy;
    }
  }
}
