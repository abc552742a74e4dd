/**
 * The file pipeline of sybilhunter (sybilhunter.go): the archive is walked,
 * every entry that is a file inside the date window and parses is handed on,
 * either to every analysis channel as it comes (independent mode) or merged
 * into one object set that every channel receives at the end (cumulative
 * mode).  Channels are modelled as logs: one sequence per analysis of the
 * object sets it received, in order.
 */
module Pipeline {
  import opened Wrappers

  /** A parsed Tor document (a router status or descriptor), keyed by fingerprint in an object set. */
  datatype TorObject = TorObject(fingerprint: string, raw: string)

  /** tor.ObjectSet: the documents of one file, keyed by fingerprint. */
  type ObjectSet = map<string, TorObject>

  /** What tor.ParseUnknown makes of an entry: an error, or a (possibly nil) object set. */
  datatype ParseOutcome = ParseFailed(err: string) | Parsed(objects: Option<ObjectSet>)

  /** An entry the walk hands to the callback: its name, whether it is a directory, and its parse. */
  datatype Entry = Entry(path: string, isDir: bool, parsed: ParseOutcome)

  /** The date window: file time stamps are integers; time.Parse on a base name is a parameter. */
  datatype Window = Window(startDate: int, endDate: int, parseStamp: string -> Option<int>)

  /** How GatherObjects was set up: with channels (independent) or with an accumulator. */
  datatype Config = Config(independent: bool, window: Window)

  /** What the callback can change: the accumulator and the channel logs. */
  datatype GatherState = GatherState(objs: Option<ObjectSet>, channels: seq<seq<ObjectSet>>)

  const EmptyMessage := "Gathered object set empty.  Are we parsing the right files?"
  const TarXZSuffix := ".tar.xz"

  // ---------------------------------------------------------------------------
  // path.Base

  /** s without its trailing slashes. */
  function TrimTrailingSlashes(s: string): string
  {
    if s != [] && s[|s| - 1] == '/' then TrimTrailingSlashes(s[..|s| - 1]) else s
  }

  /** TrimTrailingSlashes removes a run of slashes at the end of s, and only that. */
  lemma {:induction false} TrimTrailingSlashesSpec(s: string)
    ensures var r := TrimTrailingSlashes(s);
      && |r| <= |s| && r == s[..|r|]
      && (r == [] || r[|r| - 1] != '/')
      && forall k :: |r| <= k < |s| ==> s[k] == '/'
  {
    if s != [] && s[|s| - 1] == '/' {
      TrimTrailingSlashesSpec(s[..|s| - 1]);
    }
  }

  /** The part of s after its last slash (all of s when it has none). */
  function LastElement(s: string): string
  {
    if s == [] || s[|s| - 1] == '/' then [] else LastElement(s[..|s| - 1]) + [s[|s| - 1]]
  }

  /** LastElement is the longest suffix of s without a slash. */
  lemma {:induction false} LastElementSpec(s: string)
    ensures var r := LastElement(s);
      && |r| <= |s| && r == s[|s| - |r|..]
      && '/' !in r
      && (|r| < |s| ==> s[|s| - |r| - 1] == '/')
  {
    if s != [] && s[|s| - 1] != '/' {
      var p, c := s[..|s| - 1], s[|s| - 1];
      LastElementSpec(p);
      var rp := LastElement(p);
      assert LastElement(s) == rp + [c];
      assert s[|s| - |rp| - 1..] == p[|p| - |rp|..] + [c];
      if |rp| < |p| {
        assert s[|s| - |rp| - 2] == p[|p| - |rp| - 1];
      }
    }
  }

  /** Go's path.Base: the last element of a slash-separated path; "." for "" and "/" for only slashes. */
  function Base(p: string): (r: string)
    ensures r != []
    ensures r == "/" || '/' !in r
  {
    if p == [] then "."
    else
      var t := TrimTrailingSlashes(p);
      LastElementSpec(t);
      var last := LastElement(t);
      if last == [] then "/" else last
  }

  // ---------------------------------------------------------------------------
  // fileInRange

  /**
   * fileInRange: a base name that does not parse as a time stamp lets the file
   * in (fail open); a time stamp lets it in iff it lies strictly inside the window.
   */
  function FileInRange(fileName: string, w: Window): (r: bool)
    ensures w.parseStamp(Base(fileName)).None? ==> r
    ensures w.parseStamp(Base(fileName)).Some? ==>
      (r <==> w.startDate < w.parseStamp(Base(fileName)).value < w.endDate)
  {
    match w.parseStamp(Base(fileName))
    case None => true
    case Some(date) => w.startDate < date && date < w.endDate
  }

  /** The window only admits time stamps strictly inside it: its own end points are out. */
  lemma WindowEndsExcluded(fileName: string, w: Window)
    requires w.parseStamp(Base(fileName)) == Some(w.startDate) || w.parseStamp(Base(fileName)) == Some(w.endDate)
    ensures !FileInRange(fileName, w)
  {
  }

  // ---------------------------------------------------------------------------
  // GatherObjects, as functions

  /** Merge: the documents of b are added to a, replacing those with the same fingerprint. */
  function Merge(a: ObjectSet, b: ObjectSet): (r: ObjectSet)
    ensures r.Keys == a.Keys + b.Keys
    ensures forall fpr :: fpr in b ==> r[fpr] == b[fpr]
    ensures forall fpr :: fpr in a && fpr !in b ==> r[fpr] == a[fpr]
  {
    a + b
  }

  /** The callback accepts an entry: a file, inside the window, that parses. */
  predicate Accepts(w: Window, e: Entry)
    ensures e.isDir ==> !Accepts(w, e)
    ensures !FileInRange(e.path, w) ==> !Accepts(w, e)
    ensures e.parsed.ParseFailed? ==> !Accepts(w, e)
    ensures !e.isDir && FileInRange(e.path, w) && e.parsed.Parsed? ==> Accepts(w, e)
  {
    !e.isDir && FileInRange(e.path, w) && e.parsed.Parsed?
  }

  /** What one entry offers the analyses: its object set if it is accepted and not nil. */
  function Offered(w: Window, e: Entry): (r: seq<ObjectSet>)
    ensures |r| <= 1
    ensures r != [] <==> Accepts(w, e) && e.parsed.objects.Some?
  {
    if Accepts(w, e) && e.parsed.objects.Some? then [e.parsed.objects.value] else []
  }

  /** The accumulator after one more parsed set: the first set is taken as is, later ones merged in; nil changes nothing. */
  function MergeOne(objs: Option<ObjectSet>, objects: Option<ObjectSet>): (r: Option<ObjectSet>)
    ensures objects.None? ==> r == objs
    ensures objs.None? ==> r == objects
    ensures objs.Some? && objects.Some? ==> r == Some(Merge(objs.value, objects.value))
  {
    if objs.None? then objects
    else if objects.None? then objs
    else Some(Merge(objs.value, objects.value))
  }

  /** Every channel log with x appended. */
  function Broadcast(channels: seq<seq<ObjectSet>>, x: ObjectSet): (r: seq<seq<ObjectSet>>)
    ensures |r| == |channels|
    ensures forall k :: 0 <= k < |r| ==> r[k] == channels[k] + [x]
  {
    if channels == [] then [] else [channels[0] + [x]] + Broadcast(channels[1..], x)
  }

  /** The effect of the GatherObjects callback on one entry. */
  function Step(c: Config, st: GatherState, e: Entry): (r: GatherState)
    ensures !Accepts(c.window, e) ==> r == st
    ensures c.independent ==> r.objs == st.objs && |r.channels| == |st.channels|
    ensures c.independent ==> forall k :: 0 <= k < |st.channels| ==> r.channels[k] == st.channels[k] + Offered(c.window, e)
    ensures !c.independent ==> r.channels == st.channels
    ensures !c.independent && Accepts(c.window, e) ==> r.objs == MergeOne(st.objs, e.parsed.objects)
  {
    if !Accepts(c.window, e) then st
    else if c.independent then
      if e.parsed.objects.Some? then st.(channels := Broadcast(st.channels, e.parsed.objects.value)) else st
    else
      st.(objs := MergeOne(st.objs, e.parsed.objects))
  }

  /** The callback applied to the entries in order. */
  function GatherAll(c: Config, st: GatherState, entries: seq<Entry>): GatherState
    decreases |entries|
  {
    if entries == [] then st else GatherAll(c, Step(c, st, entries[0]), entries[1..])
  }

  /** The object sets the entries offer, in order. */
  function OfferedAll(w: Window, entries: seq<Entry>): seq<ObjectSet>
    decreases |entries|
  {
    if entries == [] then [] else Offered(w, entries[0]) + OfferedAll(w, entries[1..])
  }

  /** The accumulator after merging the sets in order. */
  function MergeAll(objs: Option<ObjectSet>, sets: seq<ObjectSet>): Option<ObjectSet>
    decreases |sets|
  {
    if sets == [] then objs else MergeAll(MergeOne(objs, Some(sets[0])), sets[1..])
  }

  /** Fingerprints of all the sets. */
  function KeysOf(sets: seq<ObjectSet>): set<string>
    decreases |sets|
  {
    if sets == [] then {} else sets[0].Keys + KeysOf(sets[1..])
  }

  // ---------------------------------------------------------------------------
  // Properties of the two modes

  /** Independent mode: the accumulator is untouched and no channel is added or removed. */
  lemma {:induction false} IndependentShape(c: Config, st: GatherState, entries: seq<Entry>)
    requires c.independent
    ensures GatherAll(c, st, entries).objs == st.objs
    ensures |GatherAll(c, st, entries).channels| == |st.channels|
    decreases |entries|
  {
    if entries != [] {
      IndependentShape(c, Step(c, st, entries[0]), entries[1..]);
    }
  }

  /** Independent mode: channel k receives exactly the offered sets, in walk order. */
  lemma {:induction false} IndependentDelivery(c: Config, st: GatherState, entries: seq<Entry>, k: nat)
    requires c.independent && k < |st.channels|
    ensures k < |GatherAll(c, st, entries).channels|
    ensures GatherAll(c, st, entries).channels[k] == st.channels[k] + OfferedAll(c.window, entries)
    decreases |entries|
  {
    if entries != [] {
      IndependentDelivery(c, Step(c, st, entries[0]), entries[1..], k);
    }
  }

  /** Merging the sets of x and then those of rest is merging x + rest. */
  lemma {:induction false} MergeAllCons(objs: Option<ObjectSet>, x: seq<ObjectSet>, rest: seq<ObjectSet>)
    ensures MergeAll(objs, x + rest) == MergeAll(MergeAll(objs, x), rest)
    decreases |x|
  {
    if x != [] {
      assert (x + rest)[1..] == x[1..] + rest;
      MergeAllCons(MergeOne(objs, Some(x[0])), x[1..], rest);
    } else {
      assert x + rest == rest;
    }
  }

  /** Cumulative mode: the accumulator is the merge of the offered sets, in walk order; no channel receives anything. */
  lemma {:induction false} CumulativeGather(c: Config, st: GatherState, entries: seq<Entry>)
    requires !c.independent
    ensures GatherAll(c, st, entries).channels == st.channels
    ensures GatherAll(c, st, entries).objs == MergeAll(st.objs, OfferedAll(c.window, entries))
    decreases |entries|
  {
    if entries != [] {
      var e := entries[0];
      var next := Step(c, st, e);
      CumulativeGather(c, next, entries[1..]);
      MergeAllCons(st.objs, Offered(c.window, e), OfferedAll(c.window, entries[1..]));
      assert next.objs == MergeAll(st.objs, Offered(c.window, e));
    }
  }

  /** The accumulator stays nil iff it started nil and no set was offered. */
  lemma {:induction false} MergeAllNone(objs: Option<ObjectSet>, sets: seq<ObjectSet>)
    ensures MergeAll(objs, sets).None? <==> objs.None? && sets == []
    decreases |sets|
  {
    if sets != [] {
      MergeAllNone(MergeOne(objs, Some(sets[0])), sets[1..]);
    }
  }

  /** The merged set holds exactly the fingerprints of the accumulator and of the merged sets. */
  lemma {:induction false} MergeAllKeys(objs: Option<ObjectSet>, sets: seq<ObjectSet>)
    requires objs.Some? || sets != []
    ensures MergeAll(objs, sets).Some?
    ensures MergeAll(objs, sets).value.Keys == (if objs.Some? then objs.value.Keys else {}) + KeysOf(sets)
    decreases |sets|
  {
    if sets != [] {
      MergeAllKeys(MergeOne(objs, Some(sets[0])), sets[1..]);
    }
  }

  // ---------------------------------------------------------------------------
  // GatherObjects, as the object that holds the accumulator and the channels

  /** The state GatherObjects closes over: the accumulator pointer and the channels. */
  class Gatherer {
    const independent: bool
    const window: Window
    var objs: Option<ObjectSet>
    var channels: seq<seq<ObjectSet>>

    function Cfg(): Config
    {
      Config(independent, window)
    }

    function State(): GatherState
      reads this
    {
      GatherState(objs, channels)
    }

    /** GatherObjects(objs, channels, params): independent iff it is given channels. */
    constructor (independent: bool, window: Window, channels: seq<seq<ObjectSet>>)
      ensures this.independent == independent && this.window == window
      ensures objs == None && this.channels == channels
    {
      this.independent := independent;
      this.window := window;
      objs := None;
      this.channels := channels;
    }

    /** The callback GatherObjects returns: never fails, and acts as Step says. */
    method Handle(e: Entry) returns (err: Option<string>)
      modifies this
      ensures err == None
      ensures State() == Step(Cfg(), old(State()), e)
    {
      err := None;
      if e.isDir {
        return;
      }
      if !FileInRange(e.path, window) {
        return;
      }
      if e.parsed.ParseFailed? {
        return;
      }
      var objects := e.parsed.objects;
      if independent {
        var k := 0;
        while k < |channels|
          invariant k <= |channels| == |old(channels)|
          invariant objs == old(objs)
          invariant forall m :: 0 <= m < k ==> channels[m] == old(channels)[m] + Offered(window, e)
          invariant forall m :: k <= m < |channels| ==> channels[m] == old(channels)[m]
        {
          if objects.Some? {
            channels := channels[k := channels[k] + [objects.value]];
          }
          k := k + 1;
        }
        assert channels == Step(Cfg(), old(State()), e).channels;
      } else {
        if objs.None? {
          objs := objects;
        } else if objects.Some? {
          objs := Some(Merge(objs.value, objects.value));
        }
      }
    }
  }

  // ---------------------------------------------------------------------------
  // The walkers

  /** A tar.xz archive as the walk sees it: an open error, or its headers and how reading ends (None: io.EOF). */
  datatype TarArchive = TarArchive(openError: Option<string>, headers: seq<Entry>, end: Option<string>)

  /** The entries walkTarXZFile hands to the callback. */
  function TarVisited(a: TarArchive): seq<Entry>
  {
    if a.openError.Some? then [] else a.headers
  }

  /** The error walkTarXZFile returns. */
  function TarResult(a: TarArchive): Option<string>
  {
    if a.openError.Some? then a.openError else a.end
  }

  /** walkTarXZFile: the callback once per header, in archive order; stops at the first error. */
  method WalkTarXZFile(g: Gatherer, a: TarArchive) returns (err: Option<string>)
    modifies g
    ensures err == TarResult(a)
    ensures g.State() == GatherAll(g.Cfg(), old(g.State()), TarVisited(a))
  {
    if a.openError.Some? {
      return a.openError;
    }
    var i := 0;
    while i < |a.headers|
      invariant i <= |a.headers|
      invariant GatherAll(g.Cfg(), old(g.State()), a.headers) == GatherAll(g.Cfg(), g.State(), a.headers[i..])
    {
      assert a.headers[i..][1..] == a.headers[i + 1..];
      err := g.Handle(a.headers[i]);
      if err.Some? {
        return;
      }
      i := i + 1;
    }
    return a.end;
  }

  /** One item of a directory walk: the entry, and the error os.Open reports for it, if any. */
  datatype PathItem = PathItem(entry: Entry, openError: Option<string>)

  /** The entries walkPath hands to the callback: those before the first item that fails to open. */
  function PathVisited(items: seq<PathItem>): (r: seq<Entry>)
    ensures |r| <= |items|
    ensures forall k :: 0 <= k < |r| ==> r[k] == items[k].entry && items[k].openError.None?
    ensures |r| < |items| ==> items[|r|].openError.Some?
  {
    if items == [] || items[0].openError.Some? then [] else [items[0].entry] + PathVisited(items[1..])
  }

  /** The error walkPath returns: that of the first item that fails to open. */
  function PathResult(items: seq<PathItem>): Option<string>
  {
    if items == [] then None
    else if items[0].openError.Some? then items[0].openError
    else PathResult(items[1..])
  }

  /** walkPath: opens each item in walk order and hands it to the callback; the first open error ends the walk. */
  method WalkPath(g: Gatherer, items: seq<PathItem>) returns (err: Option<string>)
    modifies g
    ensures err == PathResult(items)
    ensures g.State() == GatherAll(g.Cfg(), old(g.State()), PathVisited(items))
  {
    var i := 0;
    while i < |items|
      invariant i <= |items|
      invariant PathResult(items) == PathResult(items[i..])
      invariant GatherAll(g.Cfg(), old(g.State()), PathVisited(items)) == GatherAll(g.Cfg(), g.State(), PathVisited(items[i..]))
    {
      assert items[i..][1..] == items[i + 1..];
      if items[i].openError.Some? {
        return items[i].openError;
      }
      err := g.Handle(items[i].entry);
      if err.Some? {
        return;
      }
      i := i + 1;
    }
    return None;
  }

  /** strings.HasSuffix. */
  predicate HasSuffix(s: string, suffix: string)
    ensures HasSuffix(s, suffix) <==> exists p :: s == p + suffix
  {
    assert |suffix| <= |s| ==> s == s[..|s| - |suffix|] + suffix || s[|s| - |suffix|..] != suffix;
    assert forall p :: s == p + suffix ==> s[|s| - |suffix|..] == suffix;
    |suffix| <= |s| && s[|s| - |suffix|..] == suffix
  }

  /** The entries walkArchiveData hands to the callback. */
  function Visited(path: string, a: TarArchive, items: seq<PathItem>): (r: seq<Entry>)
    ensures HasSuffix(path, TarXZSuffix) ==> r == TarVisited(a)
    ensures !HasSuffix(path, TarXZSuffix) ==> r == PathVisited(items)
  {
    if HasSuffix(path, TarXZSuffix) then TarVisited(a) else PathVisited(items)
  }

  /** walkArchiveData: the tar walker for a ".tar.xz" path, the directory walker otherwise. */
  method WalkArchiveData(g: Gatherer, path: string, a: TarArchive, items: seq<PathItem>) returns (err: Option<string>)
    modifies g
    ensures err == (if HasSuffix(path, TarXZSuffix) then TarResult(a) else PathResult(items))
    ensures g.State() == GatherAll(g.Cfg(), old(g.State()), Visited(path, a, items))
  {
    if HasSuffix(path, TarXZSuffix) {
      err := WalkTarXZFile(g, a);
    } else {
      err := WalkPath(g, items);
    }
  }

  // ---------------------------------------------------------------------------
  // ParseFiles

  /** The parameters ParseFiles reads. */
  datatype Params = Params(cumulative: bool, callbacks: nat, archiveData: string, window: Window)

  /**
   * ParseFiles: one channel per analysis, then the walk (whose error is
   * dropped), then in cumulative mode the empty check and one delivery of
   * the accumulated set per channel.  The archive and the directory tree
   * under archiveData are given as a and items.  Independent mode needs at
   * least one analysis: without channels GatherObjects would take the
   * cumulative branch through a nil accumulator.
   */
  method ParseFiles(params: Params, a: TarArchive, items: seq<PathItem>)
    returns (err: Option<string>, delivered: seq<seq<ObjectSet>>)
    requires params.cumulative || params.callbacks >= 1
    ensures |delivered| == params.callbacks
    ensures var offered := OfferedAll(params.window, Visited(params.archiveData, a, items));
      && (!params.cumulative ==> err == None && forall k :: 0 <= k < |delivered| ==> delivered[k] == offered)
      && (params.cumulative && offered == [] ==> err == Some(EmptyMessage) && forall k :: 0 <= k < |delivered| ==> delivered[k] == [])
      && (params.cumulative && offered != [] ==>
            && err == None
            && MergeAll(None, offered).Some?
            && forall k :: 0 <= k < |delivered| ==> delivered[k] == [MergeAll(None, offered).value])
  {
    var channels: seq<seq<ObjectSet>> := [];
    var n := 0;
    while n < params.callbacks
      invariant n <= params.callbacks && |channels| == n
      invariant forall k :: 0 <= k < n ==> channels[k] == []
    {
      channels := channels + [[]];
      n := n + 1;
    }
    ghost var entries := Visited(params.archiveData, a, items);
    ghost var offered := OfferedAll(params.window, entries);
    if params.cumulative {
      var g := new Gatherer(false, params.window, []);
      var _ := WalkArchiveData(g, params.archiveData, a, items);
      CumulativeGather(g.Cfg(), GatherState(None, []), entries);
      MergeAllNone(None, offered);
      if g.objs.None? {
        return Some(EmptyMessage), channels;
      }
      var k := 0;
      while k < |channels|
        invariant k <= |channels| == params.callbacks
        invariant forall m :: 0 <= m < k ==> channels[m] == [g.objs.value]
        invariant forall m :: k <= m < |channels| ==> channels[m] == []
      {
        channels := channels[k := channels[k] + [g.objs.value]];
        k := k + 1;
      }
      err := None;
    } else {
      var g := new Gatherer(true, params.window, channels);
      var _ := WalkArchiveData(g, params.archiveData, a, items);
      IndependentShape(g.Cfg(), GatherState(None, channels), entries);
      forall k | 0 <= k < |channels|
        ensures g.channels[k] == offered
      {
        IndependentDelivery(g.Cfg(), GatherState(None, channels), entries, k);
      }
      channels := g.channels;
      err := None;
    }
    delivered := channels;
  }
}
