/**
 * PairwiseSimilarities (similarity.go): lists the keys of the descriptor map
 * in the map's iteration order, then computes the vector of every pair of
 * positions i < j.  The vectors are returned in the order the program
 * prints them.
 */
module Pairwise {
  import opened Similarity

  /** A descriptor map as the parser builds it: keyed by full-length fingerprints. */
  predicate WellFormed(descs: map<string, RouterDescriptor>)
  {
    forall fpr :: fpr in descs ==> descs[fpr].fingerprint == fpr && |fpr| >= FprDigits
  }

  /** Every entry of keys is a key of the map. */
  predicate Listed(keys: seq<string>, descs: map<string, RouterDescriptor>)
  {
    forall k :: 0 <= k < |keys| ==> keys[k] in descs
  }

  /** No key is listed twice. */
  predicate Distinct(keys: seq<string>)
  {
    forall k, l :: 0 <= k < l < |keys| ==> keys[k] != keys[l]
  }

  /**
   * keys lists keys of the map, none twice, as many as the map has: so every
   * key of the map exactly once (EnumerationComplete).
   */
  predicate IsEnumeration(keys: seq<string>, descs: map<string, RouterDescriptor>)
  {
    |keys| == |descs| && Listed(keys, descs) && Distinct(keys)
  }

  /** The set of entries of a list. */
  function Elements(keys: seq<string>): (s: set<string>)
    ensures forall k :: 0 <= k < |keys| ==> keys[k] in s
    ensures forall x :: x in s ==> x in keys
  {
    if keys == [] then {} else {keys[0]} + Elements(keys[1..])
  }

  /** A list without repetitions has as many elements as entries. */
  lemma {:induction false} DistinctElements(keys: seq<string>)
    requires Distinct(keys)
    ensures |Elements(keys)| == |keys|
  {
    if keys != [] {
      DistinctElements(keys[1..]);
      assert keys[0] !in Elements(keys[1..]);
    }
  }

  /** A subset is no larger than its superset. */
  lemma {:induction false} SubsetCardinality(a: set<string>, b: set<string>)
    requires a <= b
    ensures |a| <= |b|
  {
    if a != {} {
      var y :| y in a;
      SubsetCardinality(a - {y}, b - {y});
    }
  }

  /** An enumeration lists every key of the map. */
  lemma EnumerationComplete(keys: seq<string>, descs: map<string, RouterDescriptor>, x: string)
    requires IsEnumeration(keys, descs) && x in descs
    ensures x in keys
  {
    var listed := Elements(keys);
    DistinctElements(keys);
    if x !in keys {
      SubsetCardinality(listed, descs.Keys - {x});
    }
  }

  /** Position of x in a list of keys. */
  function IndexOf(keys: seq<string>, x: string): (i: nat)
    requires x in keys
    ensures i < |keys| && keys[i] == x
  {
    if keys[0] == x then 0 else 1 + IndexOf(keys[1..], x)
  }

  /** Lexicographic order on index pairs: the order the nested loops visit them. */
  predicate LexLess(p: (nat, nat), q: (nat, nat))
  {
    p.0 < q.0 || (p.0 == q.0 && p.1 < q.1)
  }

  /** The pairs (i, lo), (i, lo + 1), ..., (i, hi - 1). */
  function RowPairs(i: nat, lo: nat, hi: nat): (ps: seq<(nat, nat)>)
    requires lo <= hi
    ensures |ps| == hi - lo
    ensures forall k :: 0 <= k < |ps| ==> ps[k] == (i, lo + k)
    decreases hi - lo
  {
    if lo == hi then [] else RowPairs(i, lo, hi - 1) + [(i, hi - 1)]
  }

  /** The pairs (a, b) with a < i and a < b < n, in the order of the nested loops. */
  function PairsBefore(i: nat, n: nat): (ps: seq<(nat, nat)>)
    requires i <= n
    ensures forall k :: 0 <= k < |ps| ==> ps[k].0 < i && ps[k].0 < ps[k].1 < n
  {
    if i == 0 then [] else PairsBefore(i - 1, n) + RowPairs(i - 1, i, n)
  }

  /** Rows 0 .. i - 1 hold (n - 1) + (n - 2) + ... + (n - i) pairs. */
  lemma {:induction false} PairsBeforeLength(i: nat, n: nat)
    requires i <= n
    ensures 2 * |PairsBefore(i, n)| == i * (2 * n - i - 1)
  {
    if i > 0 {
      PairsBeforeLength(i - 1, n);
      assert i * (2 * n - i - 1) == (i - 1) * (2 * n - (i - 1) - 1) + 2 * (n - i);
    }
  }

  /** Every pair a < b < n with a < i is among the pairs of rows 0 .. i - 1. */
  lemma {:induction false} PairsBeforeComplete(i: nat, n: nat, a: nat, b: nat)
    requires i <= n && a < i && a < b < n
    ensures (a, b) in PairsBefore(i, n)
  {
    if a < i - 1 {
      PairsBeforeComplete(i - 1, n, a, b);
    } else {
      var row := RowPairs(i - 1, i, n);
      assert row[b - i] == (a, b);
    }
  }

  /** The nested loops visit pairs in strictly increasing lexicographic order. */
  lemma {:induction false} PairsBeforeOrdered(i: nat, n: nat)
    requires i <= n
    ensures forall k, l :: 0 <= k < l < |PairsBefore(i, n)| ==> LexLess(PairsBefore(i, n)[k], PairsBefore(i, n)[l])
  {
    if i > 0 {
      PairsBeforeOrdered(i - 1, n);
    }
  }

  /** Every pair of positions a < b < n, each once: n * (n - 1) / 2 of them. */
  function AllPairs(n: nat): (ps: seq<(nat, nat)>)
    ensures |ps| == n * (n - 1) / 2
    ensures forall k :: 0 <= k < |ps| ==> ps[k].0 < ps[k].1 < n
    ensures forall a: nat, b: nat :: a < b < n ==> (a, b) in ps
    ensures forall k, l :: 0 <= k < l < |ps| ==> ps[k] != ps[l]
  {
    PairsBeforeLength(n, n);
    PairsBeforeOrdered(n, n);
    forall a: nat, b: nat | a < b < n ensures (a, b) in PairsBefore(n, n) {
      PairsBeforeComplete(n, n, a, b);
    }
    PairsBefore(n, n)
  }

  /** The vector of the descriptors at positions p.0 and p.1 of the key list. */
  function Vector(descs: map<string, RouterDescriptor>, fprs: seq<string>, p: (nat, nat)): (v: DescriptorSimilarity)
    requires WellFormed(descs) && Listed(fprs, descs)
    requires p.0 < |fprs| && p.1 < |fprs|
    ensures v.fingerprint1 == fprs[p.0] && v.fingerprint2 == fprs[p.1]
  {
    SimilarityOf(descs[fprs[p.0]], descs[fprs[p.1]])
  }

  /** sims holds, in order, the vectors of the index pairs ps. */
  predicate VectorsOf(sims: seq<DescriptorSimilarity>, descs: map<string, RouterDescriptor>,
                      fprs: seq<string>, ps: seq<(nat, nat)>)
    requires WellFormed(descs) && Listed(fprs, descs)
  {
    |sims| == |ps| &&
    forall k {:trigger sims[k]} :: 0 <= k < |ps| ==>
      ps[k].0 < |fprs| && ps[k].1 < |fprs| && sims[k] == Vector(descs, fprs, ps[k])
  }

  /** Appending the vector of one more pair extends a VectorsOf relation. */
  lemma VectorsOfAppend(sims: seq<DescriptorSimilarity>, descs: map<string, RouterDescriptor>,
                        fprs: seq<string>, ps: seq<(nat, nat)>, p: (nat, nat))
    requires WellFormed(descs) && Listed(fprs, descs)
    requires p.0 < |fprs| && p.1 < |fprs|
    requires VectorsOf(sims, descs, fprs, ps)
    ensures VectorsOf(sims + [Vector(descs, fprs, p)], descs, fprs, ps + [p])
  {
    var sims', ps' := sims + [Vector(descs, fprs, p)], ps + [p];
    forall k | 0 <= k < |ps'|
      ensures ps'[k].0 < |fprs| && ps'[k].1 < |fprs| && sims'[k] == Vector(descs, fprs, ps'[k])
    {
      if k < |ps| {
        assert sims'[k] == sims[k] && ps'[k] == ps[k];
      }
    }
  }

  /** The vector s is about the unordered pair {x, y}. */
  predicate SamePair(s: DescriptorSimilarity, x: string, y: string)
  {
    (s.fingerprint1 == x && s.fingerprint2 == y) || (s.fingerprint1 == y && s.fingerprint2 == x)
  }

  /** The keys of the map, in the map's (unspecified) iteration order, in a fresh array. */
  method ListKeys(descs: map<string, RouterDescriptor>) returns (fprs: seq<string>)
    ensures IsEnumeration(fprs, descs)
  {
    var size := |descs|;
    var keys := new string[size];
    var remaining := descs.Keys;
    var i := 0;
    ghost var listed: seq<string> := [];
    assert |descs.Keys| == size;
    while remaining != {}
      invariant i + |remaining| == size && |listed| == i
      invariant keys[..i] == listed
      invariant remaining <= descs.Keys
      invariant forall k :: 0 <= k < i ==> listed[k] in descs && listed[k] !in remaining
      invariant forall k, l :: 0 <= k < l < i ==> listed[k] != listed[l]
      decreases |remaining|
    {
      var fpr :| fpr in remaining;
      keys[i] := fpr;
      remaining := remaining - {fpr};
      listed := listed + [fpr];
      i := i + 1;
    }
    fprs := keys[..];
    assert fprs == listed;
  }

  /** Two VectorsOf relations concatenate. */
  lemma VectorsOfConcat(sims: seq<DescriptorSimilarity>, more: seq<DescriptorSimilarity>,
                        descs: map<string, RouterDescriptor>, fprs: seq<string>,
                        ps: seq<(nat, nat)>, qs: seq<(nat, nat)>)
    requires WellFormed(descs) && Listed(fprs, descs)
    requires VectorsOf(sims, descs, fprs, ps) && VectorsOf(more, descs, fprs, qs)
    ensures VectorsOf(sims + more, descs, fprs, ps + qs)
  {
    forall k | 0 <= k < |ps| + |qs|
      ensures (ps + qs)[k].0 < |fprs| && (ps + qs)[k].1 < |fprs|
      ensures (sims + more)[k] == Vector(descs, fprs, (ps + qs)[k])
    {
      if k < |ps| {
        assert (sims + more)[k] == sims[k];
      } else {
        assert (sims + more)[k] == more[k - |ps|];
      }
    }
  }

  /** The vector of (i, j) extends the vectors of (i, i + 1), ..., (i, j - 1). */
  lemma NextColumn(row: seq<DescriptorSimilarity>, descs: map<string, RouterDescriptor>,
                   fprs: seq<string>, i: nat, j: nat, s: DescriptorSimilarity)
    requires WellFormed(descs) && Listed(fprs, descs) && i < j < |fprs|
    requires VectorsOf(row, descs, fprs, RowPairs(i, i + 1, j))
    requires s == SimilarityOf(descs[fprs[i]], descs[fprs[j]])
    ensures VectorsOf(row + [s], descs, fprs, RowPairs(i, i + 1, j + 1))
  {
    VectorsOfAppend(row, descs, fprs, RowPairs(i, i + 1, j), (i, j));
    assert RowPairs(i, i + 1, j + 1) == RowPairs(i, i + 1, j) + [(i, j)];
  }

  /** The inner loop of PairwiseSimilarities: the vectors of (i, i + 1), ..., (i, n - 1). */
  method RowSimilarities(descs: map<string, RouterDescriptor>, fprs: seq<string>, i: nat)
    returns (row: seq<DescriptorSimilarity>)
    requires WellFormed(descs) && Listed(fprs, descs) && i < |fprs|
    ensures VectorsOf(row, descs, fprs, RowPairs(i, i + 1, |fprs|))
  {
    var j := i + 1;
    row := [];
    while j < |fprs|
      invariant i + 1 <= j <= |fprs|
      invariant VectorsOf(row, descs, fprs, RowPairs(i, i + 1, j))
    {
      var s := CalcDescSimilarity(descs[fprs[i]], descs[fprs[j]]);
      NextColumn(row, descs, fprs, i, j, s);
      row := row + [s];
      j := j + 1;
    }
  }

  /** Appending row i's vectors to rows 0 .. i - 1 gives rows 0 .. i. */
  lemma NextRow(sims: seq<DescriptorSimilarity>, row: seq<DescriptorSimilarity>,
                descs: map<string, RouterDescriptor>, fprs: seq<string>, i: nat)
    requires WellFormed(descs) && Listed(fprs, descs) && i < |fprs|
    requires VectorsOf(sims, descs, fprs, PairsBefore(i, |fprs|))
    requires VectorsOf(row, descs, fprs, RowPairs(i, i + 1, |fprs|))
    ensures VectorsOf(sims + row, descs, fprs, PairsBefore(i + 1, |fprs|))
  {
    VectorsOfConcat(sims, row, descs, fprs, PairsBefore(i, |fprs|), RowPairs(i, i + 1, |fprs|));
  }

  /** Once every row is done, every pair has its vector. */
  lemma LastRow(sims: seq<DescriptorSimilarity>, descs: map<string, RouterDescriptor>, fprs: seq<string>)
    requires WellFormed(descs) && Listed(fprs, descs)
    requires VectorsOf(sims, descs, fprs, PairsBefore(|fprs|, |fprs|))
    ensures VectorsOf(sims, descs, fprs, AllPairs(|fprs|))
  {
    assert PairsBefore(|fprs|, |fprs|) == AllPairs(|fprs|);
  }

  /** PairwiseSimilarities: the key list in map order, then one vector per pair of positions i < j. */
  method PairwiseSimilarities(descs: map<string, RouterDescriptor>)
    returns (fprs: seq<string>, sims: seq<DescriptorSimilarity>)
    requires WellFormed(descs)
    ensures IsEnumeration(fprs, descs)
    ensures VectorsOf(sims, descs, fprs, AllPairs(|descs|))
  {
    fprs := ListKeys(descs);
    var i := 0;
    sims := [];
    while i < |fprs|
      invariant i <= |fprs|
      invariant VectorsOf(sims, descs, fprs, PairsBefore(i, |fprs|))
    {
      var row := RowSimilarities(descs, fprs, i);
      NextRow(sims, row, descs, fprs, i);
      sims := sims + row;
      i := i + 1;
    }
    LastRow(sims, descs, fprs);
  }

  /** n descriptors give n * (n - 1) / 2 vectors. */
  lemma VectorCount(descs: map<string, RouterDescriptor>, fprs: seq<string>, sims: seq<DescriptorSimilarity>)
    requires WellFormed(descs) && IsEnumeration(fprs, descs)
    requires VectorsOf(sims, descs, fprs, AllPairs(|descs|))
    ensures |sims| == |descs| * (|descs| - 1) / 2
  {
  }

  /** The pair (min(a, b), max(a, b)). */
  function Ordered(a: nat, b: nat): (p: (nat, nat))
    ensures p.0 <= p.1 && {p.0, p.1} == {a, b}
  {
    if a < b then (a, b) else (b, a)
  }

  /** The fingerprint fields of sims name, in order, the positions ps of the key list. */
  predicate PairedAs(sims: seq<DescriptorSimilarity>, fprs: seq<string>, ps: seq<(nat, nat)>)
  {
    |sims| == |ps| &&
    forall k :: 0 <= k < |ps| ==>
      ps[k].0 < |fprs| && ps[k].1 < |fprs| &&
      sims[k].fingerprint1 == fprs[ps[k].0] && sims[k].fingerprint2 == fprs[ps[k].1]
  }

  /** The vectors name the fingerprints of their pairs. */
  lemma VectorsArePaired(sims: seq<DescriptorSimilarity>, descs: map<string, RouterDescriptor>,
                         fprs: seq<string>, ps: seq<(nat, nat)>)
    requires WellFormed(descs) && Listed(fprs, descs)
    requires VectorsOf(sims, descs, fprs, ps)
    ensures PairedAs(sims, fprs, ps)
  {
    forall k | 0 <= k < |ps|
      ensures ps[k].0 < |fprs| && ps[k].1 < |fprs|
      ensures sims[k].fingerprint1 == fprs[ps[k].0] && sims[k].fingerprint2 == fprs[ps[k].1]
    {
      var v := sims[k];
      assert v == Vector(descs, fprs, ps[k]);
    }
  }

  /** A vector about {x, y} sits where the pair of their positions sits, listed-first first. */
  lemma PairPosition(fprs: seq<string>, sims: seq<DescriptorSimilarity>, x: string, y: string, k: nat)
    requires Distinct(fprs) && PairedAs(sims, fprs, AllPairs(|fprs|))
    requires x in fprs && y in fprs && x != y
    requires k < |sims| && SamePair(sims[k], x, y)
    ensures AllPairs(|fprs|)[k] == Ordered(IndexOf(fprs, x), IndexOf(fprs, y))
    ensures sims[k].fingerprint1 == x <==> IndexOf(fprs, x) < IndexOf(fprs, y)
  {
    var p := AllPairs(|fprs|)[k];
    var a, b := IndexOf(fprs, x), IndexOf(fprs, y);
    assert p.0 < p.1;
    assert fprs[p.0] == x ==> p.0 == a;
    assert fprs[p.0] == y ==> p.0 == b;
    assert fprs[p.1] == x ==> p.1 == a;
    assert fprs[p.1] == y ==> p.1 == b;
  }

  /** EachUnorderedPairOnce, stated on fingerprints alone. */
  lemma PairedOnce(fprs: seq<string>, sims: seq<DescriptorSimilarity>, x: string, y: string)
    requires Distinct(fprs) && PairedAs(sims, fprs, AllPairs(|fprs|))
    requires x in fprs && y in fprs && x != y
    ensures exists k :: 0 <= k < |sims| && SamePair(sims[k], x, y)
    ensures forall k, l :: 0 <= k < |sims| && 0 <= l < |sims| && SamePair(sims[k], x, y) && SamePair(sims[l], x, y) ==> k == l
    ensures forall k :: 0 <= k < |sims| && SamePair(sims[k], x, y) ==>
      (sims[k].fingerprint1 == x <==> IndexOf(fprs, x) < IndexOf(fprs, y))
  {
    var ps := AllPairs(|fprs|);
    var p := Ordered(IndexOf(fprs, x), IndexOf(fprs, y));
    assert p in ps;
    var k :| 0 <= k < |ps| && ps[k] == p;
    assert SamePair(sims[k], x, y);
    forall k1 | 0 <= k1 < |sims| && SamePair(sims[k1], x, y)
      ensures ps[k1] == p && (sims[k1].fingerprint1 == x <==> IndexOf(fprs, x) < IndexOf(fprs, y))
    {
      PairPosition(fprs, sims, x, y, k1);
    }
  }

  /**
   * Each unordered pair of distinct fingerprints gets exactly one vector, and
   * its first fingerprint is the one listed earlier.
   */
  lemma EachUnorderedPairOnce(descs: map<string, RouterDescriptor>, fprs: seq<string>,
                              sims: seq<DescriptorSimilarity>, x: string, y: string)
    requires WellFormed(descs) && IsEnumeration(fprs, descs)
    requires VectorsOf(sims, descs, fprs, AllPairs(|fprs|))
    requires x in descs && y in descs && x != y
    ensures exists k :: 0 <= k < |sims| && SamePair(sims[k], x, y)
    ensures forall k, l :: 0 <= k < |sims| && 0 <= l < |sims| && SamePair(sims[k], x, y) && SamePair(sims[l], x, y) ==> k == l
    ensures forall k :: 0 <= k < |sims| && SamePair(sims[k], x, y) ==>
      (sims[k].fingerprint1 == x <==> IndexOf(fprs, x) < IndexOf(fprs, y))
  {
    EnumerationComplete(fprs, descs, x);
    EnumerationComplete(fprs, descs, y);
    VectorsArePaired(sims, descs, fprs, AllPairs(|fprs|));
    PairedOnce(fprs, sims, x, y);
  }
}
