# sybilhunter core, modelled in Dafny

sybilhunter hunts for Sybil relays in the Tor network. This project models
two parts of it and proves properties about them.

- **The similarity engine** (`similarity.go`):
  - `CalcDescSimilarity` turns two router descriptors into a similarity
    vector. The vector holds:
    - the absolute differences of uptime, bandwidth and ORPort;
    - the number of shared leading fingerprint digits;
    - the nickname edit distance;
    - six boolean flags.
  - `PairwiseSimilarities` lists the keys of a descriptor map and computes
    one vector per pair of positions i < j.
  - `accumulateDescriptors` merges the descriptor sets of many files into one
    map. A later file overrides an earlier one.
- **The file pipeline** (`sybilhunter.go`):
  - `fileInRange` admits files by the time stamp in their name.
  - `walkArchiveData`, `walkTarXZFile` and `walkPath` walk a tar.xz archive
    or a directory tree.
  - The `GatherObjects` callback either broadcasts each parsed object set to
    every analysis channel (independent mode) or merges it into one
    accumulator (cumulative mode).
  - `ParseFiles` wires the channels up. In cumulative mode it rejects an
    empty accumulator and delivers the accumulated set to every channel.

Modules:

| file | module | what |
|---|---|---|
| `wrappers.dfy` | `Wrappers` | `Option` |
| `levenshtein.dfy` | `Levenshtein` | the edit distance the nickname comparison uses |
| `similarity.dfy` | `Similarity` | descriptor record, similarity vector, `CalcDescSimilarity` |
| `pairwise.dfy` | `Pairwise` | `PairwiseSimilarities` and the each-pair-once theorem |
| `accumulate.dfy` | `Accumulate` | `extractObjects`, `accumulateDescriptors` (class `RouterDescriptors`), the cumulative analysis |
| `pipeline.dfy` | `Pipeline` | `path.Base`, `fileInRange`, `GatherObjects` (class `Gatherer`), the walkers, `ParseFiles` |

The model is built in four layers:

1. Stateful Go code becomes methods with loops.
   - `CalcDescSimilarity`'s digit-counting loop becomes `CountSharedDigits`.
   - `PairwiseSimilarities`'s key array and nested i/j loops keep their shape.
   - The `Set` loop of `accumulateDescriptors` becomes
     `RouterDescriptors.SetAll`.
   - The channel loop of `GatherObjects` stays a loop.
   - The header loop of `walkTarXZFile` and the entry loop of `walkPath` stay loops.
2. Each method is proved against a specification function:
   - `SimilarityOf`, `VectorsOf`/`AllPairs`, `Accumulated`, `Step`/`GatherAll`;
   - `TarVisited`/`TarResult`, `PathVisited`/`PathResult`, `OfferedAll`/`MergeAll`.
3. The source's promises are proved as lemmas about those functions.
4. The analysis channels are modelled as logs: one sequence per analysis,
   holding the object sets it received, in order.

## Model

| member | source | states |
|---|---|---|
| Similarity.UInt64Diff | similarity.go:76-79 | max − min of two uint64 values equals the absolute difference, so it never underflows |
| Similarity.UInt16Diff | similarity.go:80-81 | the ORPort difference is the absolute difference and is at most the larger port, so it fits in uint16 |
| Similarity.TrimSpace | similarity.go:26 | strings.TrimSpace: the result is a slice s[a..b] with only white space before a and after b, it neither starts nor ends with white space, and a string without white-space ends is unchanged |
| Similarity.HasDefaultExitPolicy | similarity.go:18-27 | the trimmed policy equals the default template built from the relay's own address; such a policy is never "*:*" and is at least as long as the template |
| Similarity.DefaultRejectPolicyInjective | similarity.go:20-24 | the default reject template built from an address determines that address |
| Similarity.SamePolicy | similarity.go:104-107 | false when desc1's trimmed policy is its default template or "*:*"; otherwise true iff the two raw policies are equal |
| Similarity.CommonPrefixLength | similarity.go:88-94 | the length of the longest common prefix: the prefixes agree and the next characters differ |
| Similarity.CommonPrefixLengthUnique | similarity.go:88-94 | those three properties determine the common-prefix length |
| Similarity.FprPrefixLength | similarity.go:88-94 | the shared prefix of the first 40 digits lies in [0, 40] and is 40 iff those 40 digits are identical |
| Similarity.CountSharedDigits | similarity.go:88-94 | the counting loop with its early break computes exactly FprPrefixLength |
| Similarity.SimilarityOf | similarity.go:69-110 | each field of the vector: fingerprints; absolute differences; shared prefix in [0, 40], agreeing up to it and differing at the next digit (40 iff the first 40 digits agree); edit distance; family only if mutual; contact only if non-empty; dir ports both non-zero; no policy match when desc1's policy is its default or "*:*", and otherwise a match iff the raw policies are equal |
| Similarity.CalcDescSimilarity | similarity.go:69-110 | the imperative construction yields exactly SimilarityOf(d1, d2) |
| Similarity.FprPrefixLengthSymmetric | similarity.go:88-94 | the shared-prefix count does not depend on argument order |
| Similarity.SimilaritySymmetric | similarity.go:73-102 | swapping the descriptors swaps the fingerprints and keeps every other field except samePolicy |
| Similarity.SamePolicySymmetricAtSameAddress | similarity.go:104-107 | for two relays at one address, the policy flag does not depend on order |
| Similarity.SamePolicyOrderDependent | similarity.go:104-107 | a default policy copied to a relay at another address matches in one order and not the other |
| Levenshtein.EditDistance | similarity.go:96 | the nickname edit distance lies between the length difference and the longer length |
| Levenshtein.EditDistanceSymmetric | similarity.go:96 | the nickname distance does not depend on argument order |
| Levenshtein.EditDistanceZeroIff | similarity.go:96 | the distance is 0 iff the nicknames are equal |
| Levenshtein.EditDistanceAppend | similarity.go:96 | appending t to a nickname gives distance exactly \|t\| |
| Pairwise.ListKeys | similarity.go:117-125 | the key array lists every map key exactly once, in the map's iteration order |
| Pairwise.EnumerationComplete | similarity.go:117-125 | a duplicate-free key list as long as the map contains every key |
| Pairwise.RowPairs | similarity.go:131 | the inner loop visits (i, i+1), …, (i, n−1) |
| Pairwise.PairsBefore | similarity.go:128-131 | the pairs of rows 0 … i−1 all have a < b < n |
| Pairwise.PairsBeforeLength | similarity.go:127-139 | rows 0 … i−1 hold i(2n−i−1)/2 pairs |
| Pairwise.PairsBeforeComplete | similarity.go:127-139 | every pair a < b < n with a < i is visited by row i |
| Pairwise.PairsBeforeOrdered | similarity.go:127-139 | the nested loops visit pairs in strictly increasing lexicographic order |
| Pairwise.AllPairs | similarity.go:127-139 | exactly n(n−1)/2 pairs, each with a < b < n, every such pair present, none repeated |
| Pairwise.Vector | similarity.go:133-137 | the vector of positions p names fprs[p.0] first and fprs[p.1] second |
| Pairwise.RowSimilarities | similarity.go:131-138 | the inner loop produces the vectors of (i, j) for j = i+1 … n−1, in order |
| Pairwise.PairwiseSimilarities | similarity.go:115-140 | the key list enumerates the map, and the output is the vector of every pair in AllPairs, in loop order |
| Pairwise.VectorCount | similarity.go:127-139 | n descriptors yield n(n−1)/2 vectors |
| Pairwise.EachUnorderedPairOnce | similarity.go:127-139 | every unordered pair of distinct fingerprints gets exactly one vector, whose Fingerprint1 is the key listed earlier |
| Accumulate.ExtractObjects | similarity.go:145-161 | a missing path and a directory give their error messages; otherwise the parser's result |
| Accumulate.Contribution | similarity.go:167-187 | a walk error, a failed extraction or a non-descriptor file contributes nothing; a descriptor set contributes all its descriptors |
| Accumulate.RouterDescriptors.constructor | similarity.go:220 | NewRouterDescriptors is empty |
| Accumulate.RouterDescriptors.Set | similarity.go:183 | Set stores the descriptor under its fingerprint, replacing any earlier one |
| Accumulate.RouterDescriptors.SetAll | similarity.go:182-184 | the Set loop, in any key order, leaves old map + parsed set |
| Accumulate.RouterDescriptors.Visit | similarity.go:167-190 | the walk function always returns nil and adds the entry's contribution |
| Accumulate.RouterDescriptors.Walk | similarity.go:221 | after the walk the map is Accumulated(old map, entries) |
| Accumulate.AnalyseCumulatively | similarity.go:216-222 | the accumulated map stays keyed by fingerprints, and its pairwise vectors are computed as PairwiseSimilarities promises |
| Accumulate.AccumulatedKeys | similarity.go:180-184 | after accumulating, the keys are the old keys plus every fingerprint some file contributes, and no others |
| Accumulate.LastWriterWins | similarity.go:180-184 | a fingerprint maps to the descriptor from the last file that contained it |
| Accumulate.Untouched | similarity.go:180-184 | a fingerprint no file contains keeps its old presence and value |
| Accumulate.AccumulatedWellFormed | similarity.go:180-184 | merging sets keyed by their own fingerprints keeps the map so keyed |
| Pipeline.TrimTrailingSlashesSpec | sybilhunter.go:330 | path.Base's first step removes exactly the trailing run of slashes |
| Pipeline.LastElementSpec | sybilhunter.go:330 | path.Base's second step takes the longest slash-free suffix |
| Pipeline.Base | sybilhunter.go:330 | path.Base is never empty, and it contains no slash unless it is "/" |
| Pipeline.FileInRange | sybilhunter.go:328-337 | true when the base name does not parse as a time stamp; otherwise true iff startDate < stamp < endDate |
| Pipeline.WindowEndsExcluded | sybilhunter.go:336 | a stamp equal to startDate or endDate is rejected |
| Pipeline.Merge | sybilhunter.go:375 | the merged set has the keys of both, and the newer set wins on shared keys |
| Pipeline.Accepts | sybilhunter.go:348-361 | a directory, a file outside the window and a file that fails to parse are rejected; every other entry is accepted |
| Pipeline.Offered | sybilhunter.go:346-369 | an entry offers its set iff it is a file, in range, parses, and its set is not nil |
| Pipeline.MergeOne | sybilhunter.go:370-377 | a nil accumulator takes the new set; a nil set changes nothing; otherwise the new set is merged in |
| Pipeline.Broadcast | sybilhunter.go:364-368 | every channel log gets the set appended once |
| Pipeline.Step | sybilhunter.go:346-379 | a directory, an out-of-range file or a parse error changes nothing; independent mode appends the offered set to every channel and leaves the accumulator alone; cumulative mode merges into the accumulator and leaves the channels alone |
| Pipeline.Gatherer.constructor | sybilhunter.go:344 | the callback starts with a nil accumulator and the given channels |
| Pipeline.Gatherer.Handle | sybilhunter.go:346-380 | the callback always returns nil, and its new state is Step of its old state |
| Pipeline.IndependentShape | sybilhunter.go:363-369 | independent mode never touches the accumulator and keeps the number of channels |
| Pipeline.IndependentDelivery | sybilhunter.go:363-369 | in independent mode each channel receives exactly the offered sets, in walk order |
| Pipeline.MergeAllCons | sybilhunter.go:370-377 | merging the sets of any prefix x and then the rest equals merging x + rest |
| Pipeline.CumulativeGather | sybilhunter.go:370-377 | in cumulative mode the accumulator is the ordered merge of the offered sets, and the channels are untouched |
| Pipeline.MergeAllNone | sybilhunter.go:370-377 | the accumulator stays nil iff it started nil and nothing was offered |
| Pipeline.MergeAllKeys | sybilhunter.go:370-377 | the accumulated set holds exactly the fingerprints of all offered sets |
| Pipeline.WalkTarXZFile | sybilhunter.go:404-427 | an open error is returned with no callback; otherwise the callback runs once per header, in order; the end error (nil for EOF) is returned |
| Pipeline.PathVisited | sybilhunter.go:384-398 | the visited entries are exactly those before the first one that fails to open |
| Pipeline.WalkPath | sybilhunter.go:384-398 | the callback runs on the entries before the first open error, and that error is returned |
| Pipeline.HasSuffix | sybilhunter.go:434 | strings.HasSuffix: s ends in suffix iff s is some p followed by suffix |
| Pipeline.Visited | sybilhunter.go:432-439 | the tar walker's entries iff the path ends in ".tar.xz", else the directory walker's |
| Pipeline.WalkArchiveData | sybilhunter.go:432-439 | dispatches on the ".tar.xz" suffix, and returns the chosen walker's error and effect |
| Pipeline.ParseFiles | sybilhunter.go:444-483 | one channel per analysis; the walk error is discarded; independent mode gives every channel the offered sets in order; cumulative mode returns "Gathered object set empty…" with nothing delivered when nothing was offered, and otherwise delivers exactly one set, the merge of all offered sets, to every channel |

## Left out

- Goroutines, unbuffered channels, `sync.WaitGroup`, and closing and waiting
  on the channels (sybilhunter.go:448-480). Deliveries are sequential appends
  to per-analysis logs.
- `main`, flag and config-file parsing, `parseDate` and
  `setNonPrimitiveParams` (sybilhunter.go:81-321). They are command-line
  plumbing.
- Filesystem and archive I/O is an input, not an action:
  - `filepath.Walk`, `os.Open`, `os.Stat` and the xz decompression of
    `openTarXZFile` are not modelled;
  - a walk is its list of entries, each with its open or walk error;
  - a tar.xz archive is its open error, its headers, and the error that ends
    the header loop.
- filepath.Walk's second call of the walk function for a directory that
  cannot be read. It is not modelled, and neither is the lexical order of
  the walk (entries arrive in the order given).
- `time.Parse` is a parameter `parseStamp`, mapping a base name to an
  optional integer time stamp.
- `path.Base` is modelled directly. `strings.TrimSpace` uses Go's Unicode
  white-space set.
- zoossh internals are treated abstractly:
  - `ParseUnknown` and `ParseUnknownFile` are a given parse result per entry;
  - an object set is a map from fingerprint to document;
  - `Merge` is map override;
  - `HasFamily` is membership in the family set;
  - `Address.String()` is a string field;
  - the lazy `getVal` closures of the descriptor map are plain values.
- MergeOne: merging a nil parse result into a non-nil accumulator is
  modelled as no change. zoossh's `Merge` is not part of this model.
- The external `levenshtein.Distance` is replaced by the textbook recursive
  edit distance in `Levenshtein.EditDistance`.
  - The pairs "alice"/"alice" (0) and "alice"/"alicee" (1) follow from
    `EditDistanceZeroIff` and `EditDistanceAppend`.
  - The "kitten"/"sitting" value is not proved.
- The `String()` formatting (similarity.go:50-65) and the `fmt.Println` of
  each vector (similarity.go:137) are rendering. `PairwiseSimilarities`
  returns the vectors in print order instead.
- `processDescriptors` and the independent branch of `AnalyseSimilarities`
  (similarity.go:195-211, 224-225) only call `PairwiseSimilarities` on each
  parsed file. They are not modelled separately.
- CalcDescSimilarity: requires both fingerprints to have at least 40
  characters. The Go loop indexes the first 40 characters, so it only
  avoids a panic on a shorter fingerprint when a mismatch comes first.
  Relay fingerprints are always 40 hex digits.
- Pairwise.WellFormed: assumes every descriptor map is keyed by the
  descriptors' own fingerprints. The program never checks this; it holds
  because zoossh keys each parsed set by the descriptor's fingerprint.
- Pipeline.ParseFiles: requires at least one analysis in independent mode.
  `main` exits when none is selected (sybilhunter.go:314-316). Without
  channels, `GatherObjects` would take the cumulative branch through a nil
  pointer.
- Map iteration order is an arbitrary choice (`:|`) in `ListKeys` and
  `SetAll`. The theorems hold for every order.

Behaviour a reader might not expect, as the code has it:

- The policy flag is not symmetric. The default-policy exemption is built
  from desc1's address only (`SamePolicyOrderDependent`). Every other field
  is symmetric (`SimilaritySymmetric`).
- `fileInRange` excludes both ends of the window (`WindowEndsExcluded`). It
  does not use a half-open interval.
- `ParseFiles` discards the error of `walkArchiveData` (sybilhunter.go:461
  and 473), so an unreadable archive is not fatal. In cumulative mode it
  surfaces only as the empty-set error.
- `walkPath` ends the whole walk at the first entry that `os.Open` cannot
  open (sybilhunter.go:388-391 and 397). Later entries are never handed to
  the callback (`PathVisited`).
