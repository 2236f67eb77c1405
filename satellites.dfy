/** Which satellites the globe view draws (star3map.cpp, IndexedSatDirCompare
    and DisplayViewGlobe): satellite indices sorted by decreasing dot product
    of the position with the view direction, then the first
    min(app_maxSatellites, n) of them. */
module Satellites {
  import opened Numbers

  /** A satellite as the view uses it: its name and current position (the
      orbit propagation that produces it is not part of this model). */
  datatype Satellite = Satellite(name: string, pos: Vec3)

  /** How far along `dir` satellite `s` lies (0 for an index that names no
      satellite, which never occurs in the view). */
  function Key(sats: seq<Satellite>, dir: Vec3, s: int): real
  {
    if 0 <= s < |sats| then Dot(dir, sats[s].pos) else 0.0
  }

  ghost predicate ValidIndices(idx: seq<int>, n: nat)
  {
    forall p :: 0 <= p < |idx| ==> 0 <= idx[p] < n
  }

  /** Indices in non-increasing order of their key: no index is placed after
      one that IndexedSatDirCompare would put behind it. */
  ghost predicate SortedDesc(idx: seq<int>, sats: seq<Satellite>, dir: Vec3)
  {
    forall p, q :: 0 <= p < q < |idx| ==> Key(sats, dir, idx[p]) >= Key(sats, dir, idx[q])
  }

  /** 0, 1, ..., n-1. */
  function Iota(n: nat): seq<int>
  {
    seq(n, k => k)
  }

  /** The key of every satellite, `keys[s] == Key(sats, dir, s)`. The
      comparator recomputes the dot product on every call; since it depends on
      nothing else, computing it once per satellite orders the same way. */
  function Keys(sats: seq<Satellite>, dir: Vec3): seq<real>
  {
    seq(|sats|, s requires 0 <= s < |sats| => Dot(dir, sats[s].pos))
  }

  /** Indices in non-increasing order of a precomputed key. */
  ghost predicate SortedBy(idx: seq<int>, keys: seq<real>)
    requires ValidIndices(idx, |keys|)
  {
    forall p, q :: 0 <= p < q < |idx| ==> keys[idx[p]] >= keys[idx[q]]
  }

  /** The sort of the index vector (std::sort with IndexedSatDirCompare),
      written as an insertion sort: the result is a permutation of the input
      in non-increasing key order. */
  method SortByDescendingDot(a: array<int>, sats: seq<Satellite>, dir: Vec3)
    requires ValidIndices(a[..], |sats|)
    modifies a
    ensures ValidIndices(a[..], |sats|)
    ensures SortedDesc(a[..], sats, dir)
    ensures multiset(a[..]) == old(multiset(a[..]))
  {
    var keys := Keys(sats, dir);
    if a.Length == 0 {
      return;
    }
    var i := 1;
    while i < a.Length
      invariant 1 <= i <= a.Length
      invariant ValidIndices(a[..], |keys|)
      invariant SortedBy(a[..i], keys)
      invariant multiset(a[..]) == old(multiset(a[..]))
    {
      InsertAt(a, i, keys);
      i := i + 1;
    }
    assert a[..i] == a[..];
  }

  /** One insertion step: moves `a[i]` left past every entry with a smaller
      key, so that the prefix `a[..i+1]` is sorted. */
  method InsertAt(a: array<int>, i: nat, keys: seq<real>)
    requires i < a.Length
    requires ValidIndices(a[..], |keys|)
    requires SortedBy(a[..i], keys)
    modifies a
    ensures ValidIndices(a[..], |keys|)
    ensures SortedBy(a[..i + 1], keys)
    ensures multiset(a[..]) == old(multiset(a[..]))
  {
    var j := i;
    while j > 0 && keys[a[j]] > keys[a[j - 1]]
      invariant 0 <= j <= i
      invariant ValidIndices(a[..], |keys|)
      invariant multiset(a[..]) == old(multiset(a[..]))
      invariant forall p, q :: 0 <= p < q <= i && p != j && q != j ==> keys[a[p]] >= keys[a[q]]
      invariant forall q :: j < q <= i ==> keys[a[j]] > keys[a[q]]
    {
      a[j - 1], a[j] := a[j], a[j - 1];
      j := j - 1;
    }
  }

  /** The satellites the globe view draws, in drawing order: all indices
      sorted by decreasing dot product with `dir`, cut after
      min(maxSatellites, n) entries (none when that is not positive). */
  method SatelliteDrawOrder(sats: seq<Satellite>, dir: Vec3, maxSatellites: int) returns (drawn: seq<int>)
    ensures |drawn| == if maxSatellites <= 0 then 0 else if maxSatellites < |sats| then maxSatellites else |sats|
    ensures ValidIndices(drawn, |sats|)
    ensures forall p, q :: 0 <= p < q < |drawn| ==> drawn[p] != drawn[q]
    ensures SortedDesc(drawn, sats, dir)
    ensures forall s, p :: 0 <= s < |sats| && s !in drawn && 0 <= p < |drawn| ==>
      Key(sats, dir, drawn[p]) >= Key(sats, dir, s)
  {
    var indexes := new int[|sats|];
    for i := 0 to indexes.Length
      invariant forall k :: 0 <= k < i ==> indexes[k] == k
    {
      indexes[i] := i;
    }
    assert indexes[..] == Iota(|sats|);
    SortByDescendingDot(indexes, sats, dir);
    var num := if |sats| < maxSatellites then |sats| else maxSatellites;
    drawn := [];
    for i := 0 to if num < 0 then 0 else num
      invariant drawn == indexes[..i]
    {
      drawn := drawn + [indexes[i]];
    }
    PermutationFacts(indexes[..], |sats|, |drawn|);
    forall s, p | 0 <= s < |sats| && s !in drawn && 0 <= p < |drawn|
      ensures Key(sats, dir, drawn[p]) >= Key(sats, dir, s)
    {
      assert s in indexes[..];
      var r :| 0 <= r < |indexes[..]| && indexes[..][r] == s;
      assert forall k :: 0 <= k < |drawn| ==> drawn[k] == indexes[k];
      assert r >= |drawn|;
    }
  }

  /** A permutation of 0..n-1 has no repeated entry and contains every index. */
  lemma PermutationFacts(idx: seq<int>, n: nat, cut: nat)
    requires multiset(idx) == multiset(Iota(n)) && cut <= |idx|
    ensures |idx| == n
    ensures forall p, q :: 0 <= p < q < cut ==> idx[p] != idx[q]
    ensures forall s :: 0 <= s < n ==> s in idx
  {
    assert |idx| == |multiset(idx)| == |multiset(Iota(n))| == n;
    forall s | 0 <= s < n
      ensures s in idx
    {
      assert Iota(n)[s] == s;
      assert s in multiset(Iota(n));
      assert s in idx;
    }
    forall p, q | 0 <= p < q < cut
      ensures idx[p] != idx[q]
    {
      if idx[p] == idx[q] {
        var v := idx[p];
        DistinctInIota(n, v);
        TwoOccurrences(idx, p, q);
        assert false;
      }
    }
  }

  lemma DistinctInIota(n: nat, v: int)
    ensures multiset(Iota(n))[v] <= 1
  {
    if n > 0 {
      var s := Iota(n);
      assert s == Iota(n - 1) + [n - 1];
      DistinctInIota(n - 1, v);
      assert multiset(s) == multiset(Iota(n - 1)) + multiset{n - 1};
      if v == n - 1 {
        assert v !in Iota(n - 1);
      }
    }
  }

  lemma TwoOccurrences(s: seq<int>, p: nat, q: nat)
    requires p < q < |s| && s[p] == s[q]
    ensures multiset(s)[s[p]] >= 2
  {
    var v := s[p];
    assert s == s[..p] + [v] + s[p + 1..q] + [v] + s[q + 1..];
    assert multiset(s) == multiset(s[..p]) + multiset{v} + multiset(s[p + 1..q]) + multiset{v} + multiset(s[q + 1..]);
  }
}
