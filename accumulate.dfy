/**
 * Cumulative mode of the similarity analysis (similarity.go): every file the
 * walk visits is parsed, and the router descriptors of each parsed set are
 * copied, one Set at a time, into one shared descriptor map.
 */
module Accumulate {
  import opened Wrappers
  import opened Similarity
  import Pairwise

  /** What the parser makes of a file: an error, a descriptor set, or some other kind of document. */
  datatype Parsed =
    | ParseError(msg: string)
    | DescriptorSet(descriptors: map<string, RouterDescriptor>)
    | OtherObjects

  /**
   * One visit of the walk: the path, the error the walk reports for it (if
   * any), whether the path still exists, whether it is a directory, and what
   * the parser would make of it.
   */
  datatype WalkEntry = WalkEntry(path: string, walkError: Option<string>, present: bool, isDir: bool, parsed: Parsed)

  /** extractObjects: a missing path or a directory is an error; otherwise the parser's verdict. */
  function ExtractObjects(e: WalkEntry): (r: Parsed)
    ensures !e.present ==> r == ParseError("File \"" + e.path + "\" does not exist.")
    ensures e.present && e.isDir ==> r == ParseError("\"" + e.path + "\" is a directory.")
    ensures e.present && !e.isDir ==> r == e.parsed
  {
    if !e.present then ParseError("File \"" + e.path + "\" does not exist.")
    else if e.isDir then ParseError("\"" + e.path + "\" is a directory.")
    else e.parsed
  }

  /** The descriptors one visit contributes: those of a parsed descriptor set, and nothing otherwise. */
  function Contribution(e: WalkEntry): (m: map<string, RouterDescriptor>)
    ensures e.walkError.Some? || !e.present || e.isDir || !e.parsed.DescriptorSet? ==> m == map[]
    ensures e.walkError.None? && e.present && !e.isDir && e.parsed.DescriptorSet? ==> m == e.parsed.descriptors
  {
    if e.walkError.Some? then map[]
    else match ExtractObjects(e)
      case DescriptorSet(ds) => ds
      case _ => map[]
  }

  /** The map after visiting the entries in order, each visit overriding earlier values. */
  function Accumulated(base: map<string, RouterDescriptor>, entries: seq<WalkEntry>): map<string, RouterDescriptor>
    decreases |entries|
  {
    if entries == [] then base else Accumulated(base + Contribution(entries[0]), entries[1..])
  }

  /** The descriptors of the entries, restricted to the keys already copied. */
  function CopiedPart(v: map<string, RouterDescriptor>, remaining: set<string>): map<string, RouterDescriptor>
  {
    map fpr | fpr in v && fpr !in remaining :: v[fpr]
  }

  /** tor.RouterDescriptors as the walk function sees it: a map from fingerprint to descriptor. */
  class RouterDescriptors {
    var descriptors: map<string, RouterDescriptor>

    /** NewRouterDescriptors: an empty map. */
    constructor ()
      ensures descriptors == map[]
    {
      descriptors := map[];
    }

    /** Set: stores d under fpr, replacing any earlier descriptor. */
    method Set(fpr: string, d: RouterDescriptor)
      modifies this
      ensures descriptors == old(descriptors)[fpr := d]
    {
      descriptors := descriptors[fpr := d];
    }

    /** The loop over a parsed set: one Set per fingerprint, in no particular order. */
    method SetAll(v: map<string, RouterDescriptor>)
      modifies this
      ensures descriptors == old(descriptors) + v
    {
      var remaining := v.Keys;
      while remaining != {}
        invariant remaining <= v.Keys
        invariant descriptors == old(descriptors) + CopiedPart(v, remaining)
        decreases |remaining|
      {
        var fpr :| fpr in remaining;
        Set(fpr, v[fpr]);
        remaining := remaining - {fpr};
      }
      assert CopiedPart(v, remaining) == v;
    }

    /** The walk function of accumulateDescriptors: logs every error, never stops the walk. */
    method Visit(e: WalkEntry) returns (err: Option<string>)
      modifies this
      ensures err == None
      ensures descriptors == old(descriptors) + Contribution(e)
    {
      err := None;
      if e.walkError.Some? {
        return;
      }
      var objects := ExtractObjects(e);
      match objects {
        case DescriptorSet(v) =>
          SetAll(v);
        case ParseError(_) =>
          assert Contribution(e) == map[];
        case OtherObjects =>
          assert Contribution(e) == map[];
      }
    }

    /** filepath.Walk with that walk function: every entry visited, in walk order. */
    method Walk(entries: seq<WalkEntry>)
      modifies this
      ensures descriptors == Accumulated(old(descriptors), entries)
    {
      var i := 0;
      while i < |entries|
        invariant i <= |entries|
        invariant Accumulated(old(descriptors), entries) == Accumulated(descriptors, entries[i..])
      {
        assert entries[i..][1..] == entries[i + 1..];
        var _ := Visit(entries[i]);
        i := i + 1;
      }
    }
  }

  /**
   * The cumulative branch of AnalyseSimilarities: a fresh descriptor map,
   * the walk over every entry, then the pairwise vectors of the merged map.
   * The parser keys every descriptor set by full-length fingerprints.
   */
  method AnalyseCumulatively(entries: seq<WalkEntry>)
    returns (fprs: seq<string>, sims: seq<DescriptorSimilarity>)
    requires forall j :: 0 <= j < |entries| ==> Pairwise.WellFormed(Contribution(entries[j]))
    ensures Pairwise.WellFormed(Accumulated(map[], entries))
    ensures Pairwise.IsEnumeration(fprs, Accumulated(map[], entries))
    ensures Pairwise.VectorsOf(sims, Accumulated(map[], entries), fprs, Pairwise.AllPairs(|Accumulated(map[], entries)|))
  {
    var descs := new RouterDescriptors();
    descs.Walk(entries);
    AccumulatedWellFormed(map[], entries);
    fprs, sims := Pairwise.PairwiseSimilarities(descs.descriptors);
  }

  /** Some entry contributes fpr. */
  predicate Seen(entries: seq<WalkEntry>, fpr: string)
  {
    exists i :: 0 <= i < |entries| && fpr in Contribution(entries[i])
  }

  /** The keys after accumulating are the old keys and every fingerprint some entry contributes, and no others. */
  lemma {:induction false} AccumulatedKeys(base: map<string, RouterDescriptor>, entries: seq<WalkEntry>, fpr: string)
    ensures fpr in Accumulated(base, entries) <==> fpr in base || Seen(entries, fpr)
    decreases |entries|
  {
    if entries != [] {
      AccumulatedKeys(base + Contribution(entries[0]), entries[1..], fpr);
      if Seen(entries[1..], fpr) {
        var i :| 0 <= i < |entries[1..]| && fpr in Contribution(entries[1..][i]);
        assert fpr in Contribution(entries[i + 1]);
      }
      if Seen(entries, fpr) && fpr !in Contribution(entries[0]) {
        var i :| 0 <= i < |entries| && fpr in Contribution(entries[i]);
        assert i != 0 && fpr in Contribution(entries[1..][i - 1]);
      }
    }
  }

  /** The value of fpr comes from the last entry that contributes it. */
  lemma {:induction false} LastWriterWins(base: map<string, RouterDescriptor>, entries: seq<WalkEntry>, fpr: string, i: nat)
    requires i < |entries| && fpr in Contribution(entries[i])
    requires forall j :: i < j < |entries| ==> fpr !in Contribution(entries[j])
    ensures fpr in Accumulated(base, entries)
    ensures Accumulated(base, entries)[fpr] == Contribution(entries[i])[fpr]
    decreases |entries|
  {
    if i == 0 {
      Untouched(base + Contribution(entries[0]), entries[1..], fpr);
    } else {
      LastWriterWins(base + Contribution(entries[0]), entries[1..], fpr, i - 1);
    }
  }

  /** A fingerprint no entry contributes keeps its old value (or stays absent). */
  lemma {:induction false} Untouched(base: map<string, RouterDescriptor>, entries: seq<WalkEntry>, fpr: string)
    requires forall j :: 0 <= j < |entries| ==> fpr !in Contribution(entries[j])
    ensures fpr in Accumulated(base, entries) <==> fpr in base
    ensures fpr in base ==> Accumulated(base, entries)[fpr] == base[fpr]
    decreases |entries|
  {
    if entries != [] {
      assert fpr !in Contribution(entries[0]);
      Untouched(base + Contribution(entries[0]), entries[1..], fpr);
    }
  }

  /** A set the parser keys by fingerprint stays so keyed when accumulated. */
  lemma {:induction false} AccumulatedWellFormed(base: map<string, RouterDescriptor>, entries: seq<WalkEntry>)
    requires Pairwise.WellFormed(base)
    requires forall j :: 0 <= j < |entries| ==> Pairwise.WellFormed(Contribution(entries[j]))
    ensures Pairwise.WellFormed(Accumulated(base, entries))
    decreases |entries|
  {
    if entries != [] {
      var next := base + Contribution(entries[0]);
      assert Pairwise.WellFormed(next);
      AccumulatedWellFormed(next, entries[1..]);
    }
  }
}
