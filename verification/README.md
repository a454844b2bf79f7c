# The fraud index, verified

A Dafny model of the fraud-scoring service's core: the 14-dimensional vectors, the two-tier IVF
nearest-neighbour index with its construction, its binary file format, and the scanner that turns a
JSON payload into a vector. The code that works step by step (collectors, scan loops, counting sorts,
k-means, buffer packing, stream decoding, byte scanning) is modelled by methods and classes over arrays
and mutable fields, each proved against a function of its inputs; the theorems are about those functions.

`dafny verify dfyconfig.toml` checks everything.

## Reading order

| files | content |
|---|---|
| `Grid`, `GridError`, `RoundingLimits` | codes, hard buckets, the exact and the integer metric, and how far they are apart |
| `Ranking`, `Collectors` | the stable k-smallest as a function, and the in-place collectors that compute it |
| `Words`, `Layout`, `Kernel` | bit sets, the dim-major layout with its CSR cells, the 8-lane distance kernel |
| `Scan`, `ScanFacts`, `Search` | what a search feeds to its collector, and the index object that feeds it |
| `Tiers`, `WorkCap`, `Escalation` | no row twice, the scan cap, incremental against fresh scans |
| `Exactness`, `Certified` | when the answer is the brute-force answer |
| `CountingSort`, `Permutation`, `Packing`, `Lloyd`, `Training`, `Build`, `Builder`, `Oracle` | building an index |
| `Piles`, `ForkedIndex`, `PayloadQueries` | built indexes that can be written down, and queries of payloads, on which searching goes wrong |
| `Eviction`, `EscalationLimits`, `FlagLimits` | the exact limits of exactness and of escalation |
| `Wrappers`, `Bytes`, `Serialize`, `Persist` | saving and loading |
| `Json`, `FieldScan`, `FieldFacts`, `FirstMention` | printed payloads, the byte scanner, and what the scanner finds in them |
| `Timestamps`, `Vectorizer`, `Payloads`, `Misreading` | from payload bytes to the vector |

## Results

* **Exactness.** When all cells are probed and the home bucket fills the collector, a gap of four grid
  steps between the fifth collected distance and the last certifies the five brute-force distances, and
  the brute-force vote unless the fifth and sixth neighbours tie (`Certified.GapCertifiesExactness`,
  `Exactness.CertifiedExact`). Without looking at the collector, a full search is exact for every built
  index of n rows and every query **if and only if** n <= 64 (`Eviction.AlwaysExactIff`).
* **Escalation.** Extending the cheap collector equals one fresh wide scan when the home bucket settles
  it, or when no row of the other null flag is stored (`Escalation.IncrementalEqualsFresh`), and then the
  reported distances agree when the 64th and 65th collected ones differ, and the vote unless the fifth and
  sixth neighbours tie (`Escalation.EscalationKeepsAnswer`). With h stored rows of the query's null flag
  and o of the other, the two collect the same for all built indexes and queries **if and only if** o = 0
  or h + o <= 64
  (`FlagLimits.SameWithIff`), and over all built indexes of n rows even the five reported distances agree
  only up to n = 64 (`FlagLimits.AlwaysSameAnswersIff`). A built index with 64 rows of either flag answers
  five frauds one way and none the other (`EscalationLimits.AnswersDiffer`). The queries that fail are
  vectors of payloads (`PayloadQueries.LimitQueryIsVector`).
* **The wide tier runs** exactly for the votes within the margin of three, or from the trigger radius on
  (`Search.Index.SearchTopK`, `Scan.InDoubtWhen`). The work cap cuts nothing off the cheap tier before it is
  reached, nothing at all when it is at least the number of rows, and nothing off the wide tier
  (`WorkCap.CheapIsCut`, `WorkCap.LargeCapChangesNothing`, `WorkCap.WideIsUncapped`).
* **No neighbour votes twice**, for every query, tuning and cap (`Tiers.NoRowTwice`).
* **Rounding.** The bound that the program states for the gap between its two metrics holds for all rows at
  integer distance n **if and only if** n is not one of fifteen numbers, the largest of them 49
  (`RoundingLimits.CommentBoundIff`); a vector of a payload breaks it (`PayloadQueries.VectorBreaksBound`).
* **The prune** can be seen by the collector if and only if the bucket's least integer distance is below
  the worst collected one (`GridError.PruneSoundIff`). Inside the query's null flag its margin covers the
  rounding of both metrics (`Escalation.PruneLeavesNearer`).
* **Build** places every added vector at exactly one row, sorted by bucket, cell and order of adding, where
  the search reads back its codes and label. The cells are those of Lloyd's algorithm, started on
  evenly spaced rows of the bucket and trained with an evenly spaced sample of them (`Builder.Builder.Build`,
  `Builder.EveryVectorOnce`, `Training.TrainedNeverWorse`, `Training.TrainingStarts`, `Training.TrainingMoves`).
  Rows that come in equal blocks of one value each are clustered into their blocks, for every number of
  iterations (`Training.BlocksTrained`, `Builder.BlocksBuilt`).
* **Storage is lossless** for a value if and only if it is -1 or a multiple of 1/10000 in [0, 1]
  (`Grid.LosslessIff`). On such data brute force over the built index is brute force over the vectors as
  added (`Oracle.BruteOverAdded`), on other data over their stored codes (`Oracle.BruteOverStored`).
* **Save and load** undo each other on all images, no image is a strict prefix of another, and a reloaded
  index gives the same votes (`Serialize.ParseOfPrint`, `Serialize.PrintOfParse`,
  `Serialize.PrefixRejected`, `Persist.ReloadVotesAlike`). Every byte of a file is known
  (`Serialize.PrintIsFile`, `Serialize.AcceptedIsFile`).
* **Vectors** can be read back: flags, hour, weekday and every scaled value within its cap, from either
  vectorizer (`Vectorizer.VectorDescribes`).
* **The field scanner** finds, in every printed object, the value a small state machine names, or the text
  after a colon inside a string when that comes first (`FirstMention.FieldTextOfPrinted`). It returns the field
  it is asked for, whatever that field's value, **if and only if** no other colon comes between the first
  mention of the name and the field's own (`FirstMention.RightIff`). An escaped string literal is taken whole
  **if and only if** its text does not end with a backslash (`FieldFacts.EscapedTakenIff`).
* **The fast vectorizer**, on a printed payload in which each name that is read occurs once in its object, up to
  case, and is reached in that sense, reads the inputs of the plain one **if and only if** both read the
  timestamps alike (`Payloads.ScanRefinesDecode`), as they do printed dates (`Payloads.PrintedTimesAgree`,
  `Timestamps.ParseIff`). On a payload in which a name is not reached the two vectors differ
  (`Misreading.VectorsDiffer`).

## Where the code and its comments disagree

The model follows the code.

* internal/index/index.go:562-564 bounds the rounding error of the integer metric by 1e4·sqrt(14·d). That holds
  beyond 6.5 grid steps (`RoundingLimits.OvershootsNear`) and fails at fifteen integer distances
  (`RoundingLimits.CommentBoundIff`). What always holds is 1e4·sqrt(11·d) + 2.75 (`GridError.ErrorBound`).
* internal/index/index.go:334-337 and 564-568 read the integer metric as an approximation of the exact one
  for all rows, so that the prune never drops a row that belongs in the collector. Across the null flag the
  integer metric charges as little as 2 where the exact one charges 2e8, so neither holds there
  (`GridError.PruneSoundIff`, `Eviction.AlwaysExactIff`).
* internal/index/index.go:517-520 and 626-629 say that escalation collects what a fresh scan would, with
  identical neighbours. See `FlagLimits.SameWithIff` and `FlagLimits.AlwaysSameAnswersIff`.
* internal/vectorize/fast.go:12-14 describes a faster way to the same vector. The scanner goes by the first
  mention of a name, so a string value can lead it astray (`Misreading.VectorsDiffer`). It takes a backslash before
  a closing quote for an escape, even when that backslash is itself escaped (`FieldFacts.EscapedTakenIff`).
* internal/index/serialize.go:133-135 is meant to compare the number of codes with the number of rows. It
  does so exactly when the product does not wrap around (`Serialize.SizeCheckExact`); a stored count of
  2^63 passes (`Serialize.HugeCountAccepted`).

## Model

| member | source | states |
|---|---|---|
| Grid.QuantizeInvertsDequant | internal/index/index.go:72-93 | every stored code survives the trip through its value |
| Grid.LosslessIff | internal/index/index.go:72-93 | a value comes back from its code unchanged if and only if it is the sentinel -1 or k/10000 with 0 <= k <= 10000 |
| Grid.StoredDistance | internal/index/index.go:308-320 | to a row stored from grid values the exact distance is that to the vector as added |
| Grid.QuantizeMonotone | internal/index/index.go:72-80 | quantization keeps the order of values, the null sentinel included |
| Grid.BucketBits | internal/index/index.go:95-112 | each bit of the bucket number is one of the four key tests |
| Grid.QuantizedInBucket | internal/index/build.go:55-62 | the codes of a well-formed vector show the flags and the null sentinel of the bucket it hashes to |
| Grid.PenaltyBoundsDist2 | internal/index/index.go:114-152 | the bucket penalty never exceeds the exact distance to a row of that bucket, for all 16 buckets and both null directions |
| Grid.PenaltyIsLeast | internal/index/index.go:114-152 | the bucket penalty is the least exact distance of a well-formed vector of that bucket: none is nearer and one is as near |
| Grid.IntFloorIsLowerBound | internal/index/index.go:114-152 | the least integer distance of a bucket; inside the query's null flag it is 1e8 times the penalty |
| Grid.IntDist | internal/index/index.go:338-346 | no integer distance is negative or reaches the empty-slot sentinel |
| GridError.MarginTransfers | internal/index/index.go:562-566 | same null flag: integer distance at most a² means exact distance at most (a+2)² grid steps, at least (a+4)² means at least (a+2)² |
| GridError.ErrorBound | internal/index/index.go:562-566 | same null flag: the integer distance exceeds the exact one by at most 1e4·sqrt(11·d) + 2.75 and falls short of it by at most 1e4·sqrt(11·d) |
| RoundingLimits.CommentBoundIff | internal/index/index.go:562-566 | 1e4·sqrt(14·d) bounds the gap for every well-formed query and every row of its null flag at integer distance n if and only if n is not 7 to 14, 17, 20, 35, 38, 41, 44 or 49 |
| RoundingLimits.OvershootsNear | internal/index/index.go:562-566 | a row that breaks that bound has the larger integer distance and lies within 6.5 grid steps |
| PayloadQueries.VectorBreaksBound | internal/index/index.go:562-566 | the vector of a payload, under the constants the program is run with, and a row of its bucket that break it |
| GridError.NearestMeetsFloor | internal/index/index.go:117-152 | some row of every bucket attains the bucket's least integer distance |
| GridError.PruneSoundIff | internal/index/index.go:579-583 | a firing prune hides no acceptable row of the bucket if and only if the bucket's least integer distance reaches the worst |
| Ranking.SortIsStableSort | internal/index/index.go:766-783 | repeated insertion is a sort that keeps the feeding order among equal distances |
| Ranking.StableSortUnique | internal/index/index.go:766-783 | sortedness and stability determine the result, so insertion computes the only stable sort |
| Ranking.BestStep | internal/index/index.go:768-783 | inserting into the k best and dropping the last gives the k best of the longer feed |
| Ranking.BestForgets | internal/index/index.go:562-569 | what a collector held determines what it will hold, whatever it was fed |
| Ranking.BestNeverRises | internal/index/index.go:763-783 | feeding more never raises any slot |
| Ranking.BestPrefix | internal/index/index.go:623-629 | the j best are a prefix of the k best for j <= k |
| Ranking.BestKeysRearranged | internal/index/index.go:562-569 | the collected distances do not depend on the feeding order |
| Ranking.BestRearrangedAtGap | internal/index/index.go:787-799 | at a strict gap the collected entries do not depend on it either |
| Collectors.ShiftInts | internal/index/index.go:768-779 | the shift loop makes room at the first place beyond which all distances are larger |
| Collectors.InsertProbe | internal/index/index.go:407-422 | the probe buffer holds the np best of everything offered |
| Collectors.IntTopK.constructor | internal/index/index.go:755-761 | an empty collector: all slots at the sentinel |
| Collectors.IntTopK.Worst | internal/index/index.go:763-764 | the worst collected distance, the sentinel while a slot is free; full exactly after 64 entries |
| Collectors.IntTopK.Consider | internal/index/index.go:766-783 | the collector holds the 64 best of everything considered, first seen first |
| Collectors.TopK.constructor | internal/index/index.go:734-740 | an empty buffer of five |
| Collectors.TopK.Consider | internal/index/index.go:785-799 | the buffer holds the five best of everything considered that is below the empty-slot value, first seen first |
| Collectors.TopK.Vote | internal/index/index.go:608-616 | the fraud labels among the five nearest; empty slots do not vote |
| Collectors.FraudCountRearranged | internal/index/index.go:608-616 | the vote does not depend on the order of the neighbours |
| Words.SetBitSets | internal/index/build.go:143-147 | setting a bit sets that bit and no other |
| Words.SetBitFits | internal/index/build.go:142-147 | a word stays a 64-bit word |
| Layout.RowRead | internal/index/index.go:322-332 | the strided address of every code of every row is in range |
| Layout.BucketOfRow | internal/index/index.go:297-306 | the bucket found for a row contains it |
| Layout.CellInBucket | internal/index/index.go:173-176 | the CSR range of a cell lies inside its bucket |
| Kernel.ScalarIntDist | internal/index/index.go:338-346 | the scalar loop sums the squared code differences, reading in range, without wrapping 32 bits |
| Kernel.BlockDist | internal/index/simd_amd64.s:258-274 | eight lanes, each the scalar distance of its own row |
| Kernel.DistSoAi16 | internal/index/simd_amd64.s:241-281 | every output slot is the scalar distance of its row; all loads are in range |
| Search.Index.constructor | internal/index/build.go:69-82 | a fresh index keeps its layout and centroids, with no cap and no escalation; it is valid when the layout is and at least one cell is probed |
| Search.Index.SetNProbe | internal/index/index.go:209-222 | between 1 and min(nlist, 512) cells are probed, non-positive arguments change nothing; validity is kept |
| Search.Index.SetMaxScan | internal/index/index.go:224-230 | the cap, 0 for none; nothing else changes |
| Search.Index.SetNProbeHigh | internal/index/index.go:232-253 | afterwards every vote escalates to the clamped number of cells, or none does |
| Search.Index.SetNProbeHighForCount | internal/index/index.go:255-273 | afterwards this vote escalates to the clamped number of cells, or to the common wide tier; other votes as before |
| Search.Index.SetTriggerRadius | internal/index/index.go:275-284 | the radius; non-positive arguments change nothing |
| Search.Index.SetTriggerMargin | internal/index/index.go:286-291 | the margin |
| Search.Index.FindBucket | internal/index/index.go:297-306 | the loop finds the bucket that contains the row |
| Search.Index.RowDist2 | internal/index/index.go:308-332 | the exact distance of the row that was stored |
| Search.Index.ScanChunk | internal/index/index.go:356-376 | with and without the kernel the collector is fed the same entries in the same order |
| Search.Index.ScanCellCollect | internal/index/index.go:348-377 | a cell feeds each of its rows once, in order, whatever the chunking |
| Search.Index.RankChunk | internal/index/index.go:666-684 | a chunk of centroids, with and without the kernel, extends the ranking by exactly its cells |
| Search.Index.SelectCells | internal/index/index.go:651-685 | the np nearest cells, nearest first, ties to the lower cell |
| Search.Index.ProbeBucketRange | internal/index/index.go:618-705 | feeds the rows of the cells ranked [npLo, npHi), stopping after the cell that reaches the cap; counts them |
| Search.Index.ScanBuckets | internal/index/index.go:556-585 | the home bucket first, then every bucket the cap and the prune admit |
| Search.Index.Refine | internal/index/index.go:587-595 | the five exact-nearest of the collected rows, for every query |
| Search.Index.HighProbeForCount | internal/index/index.go:535-540 | between 0 and min(nlist, 512) cells: the count's override when one is set, else the common wide tier |
| Search.Index.ShouldEscalateOn | internal/index/index.go:542-555 | by margin, when the vote is within it of three; by radius when no margin is set |
| Search.Index.SearchTopK | internal/index/index.go:484-533 | cheap tier, decision, wide tier into the same collector; by cheap vote, margin and radius, exactly when the wide tier runs; the row counts of both tiers, which add up to at most the rows stored |
| Search.Index.ScoreCount | internal/index/index.go:434-450 | the fraud vote of the search's five nearest, 0 for an empty index |
| Search.Index.BruteDebug | internal/index/index.go:714-725 | the vote and radius of the five nearest of all rows |
| Scan.InDoubtWhen | internal/index/index.go:542-555 | an answer is in doubt at vote 3 for margins below 1, at 2 to 4 below 2, at 1 to 5 below 3, always from 3 on; without a margin when the fifth distance reaches the radius, or, with fewer than five neighbours, when the radius is finite |
| Scan.WellFormedDistance | internal/index/index.go:734-740 | a well-formed query is at most 56 away from every row, far below the empty-slot value |
| Scan.WellFormedSeesAll | internal/index/index.go:785-799 | so for well-formed queries no row is ever ignored by the exact buffer |
| ScanFacts.SearchFacts | internal/index/index.go:587-595 | every entry ever fed is a stored row with its own distance, so refining never reads out of range |
| Tiers.FullSplit | internal/index/index.go:618-629 | ranks [0, np) and [np, hi) together feed what a fresh probe of [0, hi) feeds, in the same order |
| Tiers.NearestCellsFirst | internal/index/index.go:651-685 | of the probed cells the i-th has a centroid at least as near as every cell of the bucket that is not among the first i |
| Tiers.FullWithinBucket | internal/index/index.go:618-629 | the ranks of a probe hold distinct rows of the bucket; all ranks hold all of them |
| Tiers.NoRowTwice | internal/index/index.go:495-533 | both tiers together feed no row twice, for every query, tuning and cap, so at most n rows are scanned |
| WorkCap.CheapWorkBounded | internal/index/index.go:570-585 | with a cap the cheap tier visits at most cap - 1 rows plus one largest cell |
| WorkCap.CheapIsCut | internal/index/index.go:570-585 | what a cap leaves of the cheap tier is a beginning of what it feeds without one, and all of it unless the cap has been reached |
| WorkCap.LargeCapChangesNothing | internal/index/index.go:699-704 | a cap of at least the rows that the uncapped cheap tier scans, or of at least all rows, changes neither feed nor answer nor vote |
| WorkCap.WideIsUncapped | internal/index/index.go:521-531 | whatever the cap, an escalated search feeds all rows of the ranks [nprobe, high) of the home bucket and of every other bucket that is not pruned |
| Escalation.PruneInvisible | internal/index/index.go:579-581 | skipping a bucket of the query's null flag leaves the collector as if it had been scanned |
| Escalation.OtherFlagPruned | internal/index/index.go:579-581 | a settled collector skips every bucket of the other null flag |
| Escalation.PruneLeavesNearer | internal/index/index.go:562-566 | the margin of the prune covers the rounding of both distances: inside the query's null flag each collected row is exactly nearer, by 0.000425, than every row of a skipped bucket |
| Escalation.IncrementalEqualsFresh | internal/index/index.go:515-531 | settled by the cheap home cells, or with one null flag stored: the 64 distances of a fresh wide scan, the same rows strictly below the worst, and the same 64 rows when the 64th and 65th distances differ |
| Escalation.EscalationKeepsAnswer | internal/index/index.go:517-520 | then also the same five reported distances as after a fresh wide scan, and the same vote at a strict gap |
| EscalationLimits.SmallIndexSame | internal/index/index.go:515-531 | an index of at most 64 rows always collects the same either way |
| EscalationLimits.AlwaysSameIff | internal/index/index.go:517-520 | incremental and fresh scans agree for all built indexes of n rows and all queries if and only if n <= 64 |
| EscalationLimits.SettledWhenWide | internal/index/index.go:515-531 | a built index and a query, of either null flag, that are settled with two cells probed and not with one |
| EscalationLimits.AnswersDiffer | internal/index/index.go:517-520 | a built index and a query, of either null flag: nearest reported neighbour at 2 and five frauds after escalating, at 0.0001 and no fraud after one wide pass |
| FlagLimits.SameWithIff | internal/index/index.go:517-520 | for all built indexes with h rows of the query's null flag and o of the other, and all such queries, incremental and fresh scans agree if and only if o = 0 or h + o <= 64 |
| FlagLimits.AlwaysSameAnswersIff | internal/index/index.go:517-520 | the five reported distances are those of a fresh scan for all built indexes of n rows and all queries if and only if n <= 64 |
| Exactness.RefineIsBrute | internal/index/index.go:587-595 | refining a set of rows that all others are at least as far as gives the brute-force answer |
| Exactness.ExhaustiveSettles | internal/index/index.go:570-585 | when the last tier reaches every rank, each stored row was fed or is too far to matter |
| Exactness.CertifiedExact | internal/index/index.go:495-533 | a certificate read off the collector makes the answer the brute-force answer, for every index |
| Exactness.SmallIndexExact | internal/index/index.go:57-62 | at most 64 rows: always the brute-force distances |
| Certified.CheapOwnFlag | internal/index/index.go:570-585 | a settled scan collects rows of the query's null flag only |
| Certified.GapCertifiesExactness | internal/index/index.go:495-533 | all cells probed, home bucket settled, gap of four grid steps: the brute-force distances, and the vote at a strict gap |
| Eviction.AlwaysExactIff | internal/index/index.go:57-62 | a full search is exact for all built indexes of n rows and all queries if and only if n <= 64 |
| Eviction.Evicted | internal/index/index.go:334-337 | on such an index a neighbour within 0.000001 is lost to 64 rows at 2.0 that the integer metric puts at distance 2 |
| Piles.PiledIsBuilt | internal/index/build.go:67-175 | the written-down layout of one row and copies of another in each of four buckets is what a build of well-formed vectors gives, trained centroids included |
| ForkedIndex.CrowdedIsFork | internal/index/index.go:570-585 | rows of the query's bucket, one alone in its first cell, and rows across the null flag that the integer metric puts nearest: their distances, labels and first cells |
| ForkedIndex.BesideIsFlank | internal/index/index.go:570-585 | the same with far rows across the null flag and one row beyond both null flag and merchant flag |
| PayloadQueries.LimitQueryIsVector | internal/vectorize/vectorize.go:62-96 | the query of these families, of either null flag, is the vector of a payload |
| CountingSort.OrderAtSlot | internal/index/build.go:95-106 | the scatter cursor sends each element to the place the stable order gives it |
| CountingSort.SortedStablePermutation | internal/index/build.go:83-106 | read by slot, the elements are a rearrangement, sorted by key, earlier elements first among equal keys |
| Build.Offsets | internal/index/build.go:83-93 | histogram and running sum mark where each key's run begins |
| Build.Scatter | internal/index/build.go:95-106 | afterwards the destination lists rows and labels in the stable order of their keys; nothing else is touched |
| Build.BuildBucket | internal/index/build.go:111-139 | one bucket: rows sorted stably by their nearest centroid, the centroids being those trained on the bucket's sample; offsets of the runs; other buckets untouched |
| Build.SortCells | internal/index/build.go:108-139 | all buckets: cells tile buckets, offsets never decrease and end at n, empty buckets and nlist > rows included |
| Build.TransposeAll | internal/index/build.go:149-170 | every bucket stored dimension by dimension, zero tail |
| Build.StoredReads | internal/index/index.go:322-332 | the search's strided read of a stored row gives the codes that went in |
| Build.CentroidTwin | internal/index/build.go:177-196 | the dim-major quantized centroids |
| Build.TwinUnique | internal/index/build.go:177-196 | the twin is determined by the centroids |
| Packing.PackBits | internal/index/build.go:141-147 | binary digit r % 64 of word r / 64 is the label of row r |
| Packing.BlockIndexInjective | internal/index/build.go:163-168 | no two codes of a block share an address |
| Packing.TransposeBlock | internal/index/build.go:156-169 | one bucket's rows in dim-major order; nothing outside the block changes |
| Lloyd.MeanIsBest | internal/index/build.go:253-263 | the mean of a cell's rows minimises their summed squared distance |
| Lloyd.StepIsBest | internal/index/build.go:253-263 | after an iteration each centroid minimises the summed squared distance of the rows its cell won; one that won none has not moved |
| Lloyd.ReassignHelps | internal/index/build.go:242-252 | assigning rows to their nearest centroid never costs more than keeping the old assignment |
| Lloyd.StepNeverWorse | internal/index/build.go:235-264 | one iteration never raises the sample's cost, cells left empty included |
| Lloyd.TrainingNeverWorse | internal/index/build.go:235-264 | more iterations never cost more |
| Training.SampleRows | internal/index/build.go:296-313 | min(size, hi - lo) distinct rows, all in [lo, hi), at equal steps from lo |
| Training.NearestCentroid | internal/index/build.go:277-294 | the lowest-index nearest centroid |
| Training.ChunkOwner | internal/index/build.go:327-336 | the workers' chunks cover [0, n) |
| Training.ChunksDisjoint | internal/index/build.go:327-336 | the workers' chunks do not overlap |
| Training.ProgressStep | internal/index/build.go:318-345 | any worker may do its next row at any moment without disturbing another's results |
| Training.ParallelAssign | internal/index/build.go:268-274 | under every interleaving each row ends with its lowest-index nearest centroid |
| Training.SequentialAssign | internal/index/build.go:315-323 | and so it does in the single-threaded branch |
| Training.LloydIteration | internal/index/build.go:235-264 | the in-place iteration computes one step of Lloyd's algorithm |
| Training.Run | internal/index/build.go:207-275 | the centroids are those of Lloyd's algorithm on the evenly spaced sample from evenly spaced seeds (what these are: TrainingStarts, BlocksTrained); every row goes to its lowest-index nearest; other buckets' centroids untouched |
| Training.TrainedNeverWorse | internal/index/build.go:207-275 | the trained centroids never cost more on the sample than with fewer iterations, nor than the seeds |
| Training.TrainingStarts | internal/index/build.go:221-233 | before the first iteration centroid c is row c·(m/k) of the m rows; the sample is all rows, or 50000 of them at equal steps |
| Training.TrainingMoves | internal/index/build.go:235-264 | every iteration of a bucket's training moves each centroid to the best point for the sampled rows nearest to it, and leaves the others where they are |
| Training.BlocksTrained | internal/index/build.go:221-264 | rows that come in k equal blocks of one value each: after any number of iterations the k centroids are those values, in order |
| Builder.Builder.constructor | internal/index/build.go:32-52 | non-positive parameters mean the defaults, 1024 cells and 10 iterations |
| Builder.Builder.Add | internal/index/build.go:54-62 | one more vector with its label, after the others |
| Builder.Builder.SortBuckets | internal/index/build.go:83-106 | rows sorted stably by bucket, bucket runs tile [0, n) |
| Builder.Builder.Build | internal/index/build.go:67-175 | every final row is an added vector under its own bucket, in the CSR range of its nearest cell, with its codes and label; rows sorted by bucket, cell, order of adding; cells around the centroids trained on the vectors of the bucket |
| Builder.RunIsBucketRows | internal/index/build.go:83-106 | after the bucket sort each bucket's run holds the codes of exactly its added vectors, in the order of adding |
| Builder.EveryVectorOnce | internal/index/build.go:67-175 | each added vector lands at exactly one final row |
| Builder.BlocksBuilt | internal/index/build.go:111-139 | the stored centroids of a bucket whose rows come in such blocks are their values, in order, and each row lies in the first cell of its value |
| Builder.BuiltIsValid | internal/index/build.go:67-175 | an index built from well-formed vectors meets the hypotheses of the search theorems |
| Oracle.BruteOverStored | internal/index/index.go:707-725 | on all data it reports the five nearest by stored codes, whatever the arrangement of the rows |
| Oracle.BruteOverAdded | internal/index/index.go:707-725 | on grid data brute force on a built index reports the five nearest of the vectors as added, and their vote at a strict gap |
| Bytes.ValueOfLe | internal/index/serialize.go:161-173 | decoding a little-endian word gives the value encoded |
| Bytes.LeOfValue | internal/index/serialize.go:225-239 | encoding a decoded word gives its bytes |
| Bytes.ByteOfLe | internal/index/serialize.go:161-173 | byte i of a written word is its digit of weight 256^i, negative numbers in two's complement |
| Bytes.UnpackedOfFixed | internal/index/serialize.go:241-255 | unpacking a packed run of words gives the words |
| Bytes.FixedOfUnpacked | internal/index/serialize.go:241-255 | packing an unpacked run gives its bytes |
| Bytes.Reader.ReadFull | internal/index/serialize.go:225-231 | all the bytes asked for, or an error |
| Serialize.Put | internal/index/serialize.go:175-185 | one word into a buffer, nothing else changed |
| Serialize.WriteSlice | internal/index/serialize.go:175-221 | a length-prefixed slice is appended to the stream |
| Serialize.WriteTo | internal/index/serialize.go:54-82 | the whole image is appended to the stream: RFI2, 4, 14, 5, the two counts, then codes, labels, bucket offsets, centroids and cell offsets, each after its length, every byte in its place |
| Serialize.ReadSlice | internal/index/serialize.go:241-303 | follows the slice format on every input: value, error or panic, and the stream after it |
| Serialize.ReadFrom | internal/index/serialize.go:84-157 | follows the image format on every input; an error for every stream that does not begin with those 16 bytes; what is read stands in the bytes consumed, and its sizes fit together |
| Serialize.PrintIsFile | internal/index/serialize.go:54-82 | the printed form, byte by byte |
| Serialize.AcceptedIsFile | internal/index/serialize.go:84-157 | accepted bytes hold, at those places, the image they are read as |
| Serialize.BadLength | internal/index/serialize.go:241-303 | a length beyond what can be allocated is a panic, one beyond the end of the stream an error |
| Serialize.ParseOfPrint | internal/index/serialize.go:54-157 | reading what was written restores every field and stops at its end |
| Serialize.PrintOfParse | internal/index/serialize.go:54-157 | accepted bytes are exactly the printed form of the image returned |
| Serialize.PrefixRejected | internal/index/serialize.go:54-157 | an image cut short anywhere is not accepted |
| Serialize.SizeCheckExact | internal/index/serialize.go:133-135 | the size check holds the codes to the row count if and only if the count is not negative and the product does not wrap |
| Serialize.HugeCountAccepted | internal/index/serialize.go:133-135 | an image with a stored count of 2^63 is accepted and loads a negative number of rows |
| Persist.SaveIndex | internal/index/serialize.go:28-41 | all stored fields of the index go out, its float centroids included; knobs and the integer centroids do not |
| Persist.LoadIndex | internal/index/serialize.go:43-157 | on every stream: the image restored with its integer centroids recomputed from the float ones and all cells probed, or the error |
| Persist.EncodedAt | internal/index/serialize.go:211-221 | the centroids are written one after the other, coordinate by coordinate |
| Persist.LoadRestores | internal/index/serialize.go:142-157 | loading a saved index restores the layout, recomputed integer centroids included |
| Persist.SaveAndLoad | internal/index/serialize.go:28-51 | save, then load: the same layout and the same centroids, untuned |
| Persist.ReloadVotesAlike | internal/index/index.go:630-649 | probe counts that agree up to 512 give the same rows and votes for every query and other tuning |
| FieldScan.RawField | internal/vectorize/fast.go:135-174 | on every input, the text after the first quoted key, or none |
| FieldScan.FindClose | internal/vectorize/fast.go:189-218 | the depth loop finds the first closing that brings the depth to zero |
| FieldScan.ObjectFromValue | internal/vectorize/fast.go:184-202 | a leading object up to its balancing brace |
| FieldScan.ArrayFromValue | internal/vectorize/fast.go:204-218 | a leading array up to its balancing bracket |
| FieldScan.ObjectField | internal/vectorize/fast.go:176-182 | the object under a key |
| FieldScan.StringField | internal/vectorize/fast.go:220-226 | the contents of the string under a key |
| FieldScan.ContainsQuoted | internal/vectorize/fast.go:261-276 | whether some string token is the target |
| FieldFacts.QuietString | internal/vectorize/fast.go:135-140 | the quoted name does not occur in another printed string, not even across the gap after it |
| FieldFacts.ClosesPair | internal/vectorize/fast.go:184-218 | the brace that balances the first is the one printed with it, whatever is nested inside |
| FieldFacts.ValueOfPrinted | internal/vectorize/fast.go:151-173 | a printed value is taken as it was printed, whatever is nested inside; a bare one with the blanks after it |
| FieldFacts.TokensOfPrinted | internal/vectorize/fast.go:261-276 | on every printed list of strings the token search is membership, for every target |
| FieldFacts.EscapedTakenIff | internal/vectorize/fast.go:155-163 | a string literal with escaped quotes and backslashes is taken whole, as a value and as a token, whatever follows it, if and only if its text does not end with a backslash |
| FieldFacts.TrimPadded | internal/vectorize/fast.go:232-248 | the six white-space characters around a text are trimmed off, and nothing else |
| FirstMention.FieldTextOfPrinted | internal/vectorize/fast.go:135-174 | on every printed object: the value whose field's colon comes first after the first mention of the name, be that a field name or a string value; when a colon inside a string comes first, what follows it there up to a delimiter or past the closing quote; nothing when no colon follows |
| FirstMention.RightIff | internal/vectorize/fast.go:135-174 | the field of that name is returned, for each value it may have, if and only if no other colon lies between the first mention of the name and its own |
| Timestamps.Digits | internal/vectorize/fast.go:294-303 | the loop reads the number at those places, or -1 |
| Timestamps.ParseRfc3339Z | internal/vectorize/fast.go:278-292 | on every input, the date and time at the fixed places or a refusal |
| Timestamps.NumberIffPadded | internal/vectorize/fast.go:294-303 | a text is read as n if and only if it is n padded with zeros to its length |
| Timestamps.ParseIff | internal/vectorize/fast.go:278-303 | a text is read as a date if and only if it agrees with the printed date everywhere but in the two colons and after the seconds, and month and day are not 0 |
| Vectorizer.VectorWellFormed | internal/vectorize/vectorize.go:62-96 | flags are 0 or 1, dims 5 and 6 are -1 together exactly when there is no last transaction, everything else lies in [0, 1] |
| Vectorizer.VectorDescribes | internal/vectorize/vectorize.go:62-96 | hour, weekday, flags and risk can be read back from a vector, and every scaled value within its cap; 0 at or below nothing, 1 from the cap on; the four bucket bits are is_online, card_present, unknown merchant and no last transaction; under the shipped constants too |
| Vectorizer.WeekStartsOnMonday | internal/vectorize/vectorize.go:115-118 | Monday is 0, Sunday is 6 |
| Vectorizer.Contains | internal/vectorize/vectorize.go:137-144 | list membership |
| Vectorizer.Vectorize | internal/vectorize/vectorize.go:65-96 | the vector that describes the payload in that sense, field by field, well formed when hour, weekday and risks are in range; not a number exactly when the average is zero |
| Vectorizer.FastRiskIsTable | internal/vectorize/fast.go:321-349 | the switch is the lookup in mcc_risk.json with its default, and every risk lies in [0, 1] |
| Vectorizer.RisksListed | internal/vectorize/fast.go:321-349 | the risks of the ten listed codes, and 0.5 for all others |
| Vectorizer.ReadInputs | internal/vectorize/fast.go:19-120 | the field reads, failing when any fails |
| Vectorizer.VectorizeJson | internal/vectorize/fast.go:15-133 | the vector that describes the scanned inputs in that sense, well formed; a rejected payload and a zero average apart |
| Payloads.ScanRefinesDecode | internal/vectorize/fast.go:12-133 | on a printed payload whose names are unique up to case and reached by the scanner, the scan reads exactly the inputs of the decoded payload if and only if both readers agree on its timestamps |
| Payloads.TextScanned | internal/vectorize/fast.go:220-226 | the string under a name that the scanner reaches, and a refusal of a value of another kind |
| Payloads.ObjectScanned | internal/vectorize/fast.go:176-202 | the object under a name that the scanner reaches, and a refusal of a value of another kind |
| Payloads.PrintedTimesAgree | internal/vectorize/fast.go:278-292 | they agree on printed dates, given that the library parser reads those as their instant |
| Misreading.ScanMisreads | internal/vectorize/fast.go:53-64 | for every payload whose customer is printed with a known merchant called avg_amount, then the count, then the average: the count is read as the average, everything else is read right |
| Misreading.VectorsDiffer | internal/vectorize/fast.go:12-133 | a payload on which the third dimension is 0.03 from one vectorizer and 1 from the other |

## Left out

- Escalation.IncrementalEqualsFresh: the hypothesis on the home bucket is sufficient for one query, not necessary; the exact condition is given for all queries together (FlagLimits.SameWithIff).
- Exactness.CertifiedExact: the certificate is sufficient for one query, not necessary; the exact condition is given for all queries together (Eviction.AlwaysExactIff).
- Builder.Builder.Build: asks for at most 2^31 - 1 rows, because the program keeps row offsets in int32; what happens beyond is not modelled.
- FirstMention.RightIff: for printed payloads whose strings hold no control character, quote, backslash, brace or bracket.
- Payloads.ScanRefinesDecode: asks that the scanner reaches every field, which is exact field by field (FirstMention.RightIff). Decoding asks for every field to be present, where encoding/json fills in zeros, and does not merge repeated objects.
- FieldScan.Trim: trims ASCII white space only; bytes above 127 are not modelled.
- Training.ParallelAssign: interleaves workers row by row; reads and writes of one row are one step.
- Arrays of rows and centroids during a build hold 14-code rows rather than flat slices; the dim-major data, which the search addresses, is flat.
- IEEE rounding, infinities and NaN: values and distances are exact reals, and a customer average of zero is a separate outcome.
- A float64 in a file is its 64-bit pattern; its value is a parameter.
- strconv, time.Parse and the instant that time.Date gives a date: parameters of the vectorizer; that time.Parse reads a printed date as that instant is a hypothesis.
- Allocation limits of the runtime are a parameter of the reader; file access and buffering are not modelled.
- Centroid-evaluation counters of the search trace, Score as a quotient of ScoreCount, and the diagnostic wrappers around the search.
- The AVX kernels the search does not call, and CPU detection.
- The HTTP server, the load balancer, dataset streaming and the command-line tools.
