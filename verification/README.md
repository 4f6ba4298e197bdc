# FRTB sensitivities: rollups, aggregation and services, verified

A Dafny model of the parts of this repository that keep numbers consistent, and proofs about them.
`dafny verify dfyconfig.toml` checks everything.

Rows of market-risk sensitivities are enriched with risk weights, stored as flat HASHes and summed into
rollup hashes per class, bucket, type and tenor. Calculation reads the rollups and aggregates them by the
sensitivities-based method of the Basel Framework (sections 21.4 and 21.5 of MAR21). The project models:

- **documents and rollups** (`Docs`, `Figures`, `Keys`, `Rollup`, `HashForm`, `Spelled`, `RoundTrip`): enrichment,
  flattening, rebuilding, the rollup keys as text, and the one figure every writer has to agree with,
  `Rollup.Recompute`; `Figures` and `Spelled` say which number a row yields and which name it goes under without the
  functions that compute it;
- **the three writers** (`Writers`, `SeenSets`, `Backfill`, `ThreeWriters`): per-row increments, the batching direct
  writer, the backfill, and the same rows through all three;
- **the ingest protocol** (`Deltas`, `Ingest`, `Reconcile`, `Tracking`, `Runs`, `Exactness`, `Consumer`): concurrent
  consumers of any number of shard streams over one Redis, WATCH with versions, retries, markers, crashes and redelivery
  at any point, as a state machine over steps, exact conditions for its promises, and the retry loops as methods that
  produce runs of it;
- **the arithmetic** (`SbmDelta`, `Curvature`, `CurvatureCharge`, `CurvatureClamps`, `Oracles`, `EndToEnd`,
  `GirrEndToEnd`): closed forms, clamps, the cross-bucket reduce, the charge told from the rows, and raw rows to bucket
  figures;
- **the bulk loader** (`BulkWorker`, `Dispatcher`, `Padding`, `SlimFields`): the worker between awaits, the high-water
  gate, the fields written for a row, dense padding;
- **the api** (`Bootstrap`, `BootOutcomes`, `RepeatedBoots`, `Pool`) and **the generator's quotas** (`Quotas`).

`Sums`, `Listing`, `Tokens` and `Json` hold shared definitions.

Conventions: amounts are reals; the square root is a function parameter, and `IsRoot` says where its meaning is used;
Redis is a map, and rollup hashes, markers and seen-sets are addressed by their key text, so names with a colon can
collide as they do there; a number and its printed form are one value; a class, bucket or type is absent or a text,
and a present empty one is stored, overwrites what was stored, and counts as no name.
WATCH/MULTI/EXEC is a watch step and a commit step enabled only if the key's version did not move; an abort is possible
at any time. Loops of the source are methods proved against specification functions, about which the lemmas speak.

Where code and comment disagree the code is followed. The comment on the three ingest phases
(services/ingest/src/consumer.ts:1172-1175) says that after a failure between the phases the rollup re-applies
cleanly; `Consumer.CrashLosesTheRow` shows that the row's figures are lost instead, because the replay reads the
document it wrote itself. `Reconcile.GapRun` accounts for every such loss in every run.

Some promises hold only under a condition, and then the condition is proved exact, with a run or an input that breaks
the promise outside of it:

- an acknowledged row is committed once unless two rows share a marker, whose key leaves the stream out
  (`Exactness.CommitsExactlyOnceExactly`, `SharedMarkerDropsARow`); the difference lost there is one of the losses of
  `Reconcile.GapRun` and `Tracking.RollupsTrackDocuments`;
- counts stay within documents unless a row takes a counted id to another group or two groups share a key
  (`Exactness.CountsBoundedExactly`, `OverridingOverstatesACount`, `SharingOverstatesACount`, and for the way there
  `EmptyBucketOrColonOverstates`);
- rollups follow a re-ingest of a per-tenor row under the condition of `Deltas.TenorReingestExactly`;
- a document survives its HASH when its tenors carry its scalar figure (`RoundTrip.RoundTripExactly`), and the three
  writers agree on distinct ids when all documents do (`ThreeWriters.AgreeExactly`), on any row list under the condition
  of `ThreeWriters.WritersAgreeExactly`;
- repeated boots go quiet at the second, third or fourth boot, or never (`RepeatedBoots.QuietExactly`,
  `SecondBootMayRebuild`, `ThirdBootMayMigrate`, `LegacyLookingIndexUnsettles`, `EmptySuffixUnsettled`);
- ingest and the Delta references read the same rows alike (`EndToEnd.EquityRowExactly`, `GirrEndToEnd.GirrRowExactly`,
  `ArrayRowsExactly`, `BaseArrayRowsExactly`);
- unlike the Delta ones, the two clamps of the curvature charge are idle for zero correlations only
  (`CurvatureClamps.ClampDeadExactly`, `FloorDeadExactly`);
- worker buffers cannot strand when the idle flush is on or the batch size is one (`BulkWorker.NeverStrandsExactly`);
- sensitivity types are emitted evenly when the coverage floor is on (`Quotas.EvenlyEmittedExactly`).

## Model

| member | source | states |
|---|---|---|
| `Reconcile.GapStep` | services/ingest/src/consumer.ts:1228-1390 | Every step of the ingest protocol changes "stored documents minus rollup minus differences in flight" by exactly what the step throws away plus what a document write miscounts. |
| `Reconcile.GapRun` | services/ingest/src/consumer.ts:1228-1390 | In every run from an empty Redis the gap is the sum of those losses and miscounts, for every document shape. |
| `Tracking.RollupsTrackDocuments` | services/ingest/src/consumer.ts:1228-1347 | Streams that mix scalar and per-tenor rows of any classes, any number of shard streams, at any rollup field: in every interleaving and at every moment, rollup plus differences in flight equals the worth of the stored documents, short exactly of what crashes, exhausted retries and entries under an existing marker lost and of what each write left off, told from the stored HASH and the row. |
| `Tracking.SteadyRollupsTrackDocuments` | services/ingest/src/consumer.ts:922-998 | When the rows of the key's groups carry their figures and keep their tenors, writes leave off nothing but the replaced figures of per-tenor base sums: tenor rollups, counts and scalar base sums never drift. |
| `Tracking.ScalarRollupsTrackDocuments` | services/ingest/src/consumer.ts:1228-1347 | At a key of scalar rows nothing is left off, whatever rows of other classes share the streams: sums for all such rows, counts when each carries its figure. |
| `Tracking.QuiescentExactly` | services/ingest/src/backfill-rollups.ts:56-116 | At rest, on mixed streams, the rollup field equals a recomputation from a scan of the HASHes if and only if losses and omissions balance; for steady rows, if and only if what was lost is what was replaced. |
| `Tracking.BackfillRepairs` | services/ingest/src/backfill-rollups.ts:211-294 | After a loss-free run on a mixed stream has come to rest, a backfill adds at every field it writes, but for a count both kinds of document share, exactly what the writes had left off, and changes no other. |
| `Tracking.BackfillIsIdle` | services/ingest/src/backfill-rollups.ts:211-294 | For steady rows it leaves a field alone if and only if it does not write it, or no base figure was replaced and the count is not one that Curvature and other documents share. |
| `Exactness.CountsBoundedExactly` | services/ingest/src/consumer.ts:922-998 | In every run, with crashes and redeliveries anywhere, no count at any key of a group that occurs exceeds the number of stored documents of that class, bucket and type, if and only if no row overrides, by empty text or any other, an attribute under which a row of the same id counts, and no row counts at a key of another row's group. |
| `Exactness.CommitsExactlyOnceExactly` | services/ingest/src/consumer.ts:1228-1390 | In every run every acknowledged row with a group is committed exactly once, if and only if no two such rows share a marker. |
| `Ingest.CommitsOnce` | services/ingest/src/consumer.ts:1228-1390 | In every run, over any shard streams, an entry's difference commits at most once; an acknowledged row has its document and, if it has a group, its marker, set by a committed entry, its own or one that shares the marker. |
| `Consumer.CrashLosesTheRow` | services/ingest/src/consumer.ts:1172-1175 | Against the comment there: for every scalar row, a crash between the two commits followed by a clean replay leaves the entry acknowledged and marked, the document stored and the rollups without it. |
| `Deltas.ScalarReingest` | services/ingest/src/consumer.ts:864-998 | The only miscount a scalar row can cause: its figure arrives under an id already stored without one, and the count then misses it by one. |
| `Deltas.TenorReingest` | services/ingest/src/consumer.ts:922-998 | Any per-tenor row (Delta, Vega, Curvature) over any stored tenors: the base fields are over by the figure they still hold, a tenor the row adds is not counted, a tenor it no longer mentions leaves the sums although the HASH keeps it; every other field is exact. |
| `Deltas.TenorReingestExactly` | services/ingest/src/consumer.ts:922-998 | Any such re-ingest, labels repeated or not, is right in every field if and only if every tenor it adds is already stored, every tenor it drops is stored as zero, and old figure, new figure and total of the new tenors fit: one of the first two is zero and the other is the total, or what is stored stays. |
| `RoundTrip.RoundTripExactly` | services/ingest/src/backfill-rollups.ts:133-189 | A document of a known type contributes the same to every rollup field after flattening and rebuilding if and only if each tenor map is nonempty and adds up to its scalar figure. |
| `RoundTrip.RowRoundTripExactly` | services/ingest/src/consumer.ts:252-362 | On raw rows: if and only if every leg yields a numeric tenor and nothing of value is overwritten by a repeated label. |
| `ThreeWriters.WriteThreeWays` | services/generator/src/direct-writer.ts:123-235 | Any rows, ids repeated or not: row by row and through the batching writer with any batch size and flushes every field is the recomputation over the rows; the backfill, in any scan order, is what the stored HASHes are worth, but for a count that Curvature and other documents share, which is the Curvature one. |
| `ThreeWriters.WritersAgreeExactly` | services/ingest/src/backfill-rollups.ts:133-189 | For every row list: the HASHes are worth after every row and in every field what the rows add up to, if and only if, at every key, each row either adds nothing and leaves the worth of its HASH alone, or lands on a HASH worth nothing there and makes it worth exactly what it adds. |
| `ThreeWriters.AgreeExactly` | services/ingest/src/backfill-rollups.ts:133-189 | Under distinct ids the writers agree after every row and in every field if and only if every document survives its HASH. |
| `EndToEnd.EquityRollupsExactly` | services/calc/src/equityDeltaReference.ts:36-66 | Whatever the rows, every rollup field of an Equity Delta bucket is the reference's figure plus the rows' excesses, told from the raw rows, plus what rows of other groups add under the same key text. |
| `EndToEnd.EquityRollupsMeetReference` | services/calc/src/equityDeltaReference.ts:36-66 | Without excesses, and with no row of another group under the key, the three fields, fed to the constant-correlation formula, give the S_b, K_b squared and count of the reference. |
| `GirrEndToEnd.GirrRollupsExactly` | services/calc/src/girrDeltaReference.ts:36-94 | Whatever the rows: each GIRR Delta tenor rollup weighs the numbers last given under its label, the base rollup all numbers given under any, where the reference weighs the number at the tenor's position; the base count is the reference's plus the bare-number rows less the arrays without labels; each plus what rows of other groups add under the same key text. |
| `GirrEndToEnd.GirrRollupsMeetReference` | services/calc/src/girrDeltaReference.ts:36-94 | On rows read alike, with no row of another group under the keys, each tenor rollup is the reference's WS_k and the base rollup its S_b. |
| `GirrEndToEnd.ArrayRowsExactly` | services/calc/src/girrDeltaReference.ts:58-66 | For all arrays of values and at all tenors an array row's tenor map meets the reference, if and only if its labels put every tenor of non-zero weight at its position and nowhere else. |
| `GirrEndToEnd.BaseArrayRowsExactly` | services/calc/src/girrDeltaReference.ts:81-92 | For all arrays of values an array row's base figure meets the reference's S_b, if and only if the label at each position weighs what the position does and labels past the last tenor weigh nothing. |
| `SbmDelta.FallbackDeadIffGammaAtMostRho` | tools/reference-sbm/sbm.py:158-174 | With all buckets from the kernel, the negative branch of the cross-bucket reduce is unreachable if and only if gamma <= rho. |
| `SbmDelta.KernelMeetsStandardExactly` | tools/reference-sbm/sbm.py:144-152 | The kernel equals the double sum of section 21.4 of MAR21 if and only if rho is zero or the square of the sum is at least the sum of squares. |
| `SbmDelta.ClippedInteriorBound` | tools/reference-sbm/sbm.py:170-174 | For K_b >= 0 and 0 <= gamma <= 1 the clipped interior is at least (1 - gamma) times the sum of K_b squared. |
| `Curvature.KbSquaredClosed` | services/calc/src/curvatureCommon.ts:62-78 | The gated double loop equals Q + rho((S^2 - Q) - (N^2 - Q_N)), S and Q over all CVRs, N and Q_N over the negative ones. |
| `Curvature.EquityChargeOrderIndependent` | services/calc/src/equityCurvatureReference.ts:68-107 | The whole Equity curvature charge does not depend on the order of the rows. |
| `CurvatureClamps.ClampDeadExactly` | services/calc/src/curvatureCommon.ts:62-78 | The interior of K_b is non-negative for all CVR vectors if and only if rho is zero: for every other rho the clamp under the root is live. |
| `CurvatureClamps.FloorDeadExactly` | services/calc/src/curvatureCommon.ts:128-139 | Over all bucket lists the resolution can return, whatever its rho, the floor after the fallback never fires if and only if gamma is zero. |
| `CurvatureCharge.EquityChargeExactly` | services/calc/src/equityCurvatureReference.ts:68-107 | For every row list: one bucket for each name some row counts in, in the given or ascending order; its K_b squared is the larger of the two clamped interiors, at rho squared, of the cvr_up and the cvr_down numbers of its rows, its S_b their sum on the worse side; the charge squares to the interior at the squared gammas, or to the clipped one, and its direction is told from the buckets. |
| `BulkWorker.NeverStrandsExactly` | services/bulk-loader/src/worker.ts:368-399 | Every reachable worker state with a nonempty buffer has a running flush loop or an armed timer if and only if the idle flush is on or the batch size is one. |
| `BulkWorker.SendsBounded` | services/bulk-loader/src/worker.ts:529-554 | In every run a row is sent at most max(1, maxRetries) times for each time it was accepted. |
| `BulkWorker.LoopProgress` | services/bulk-loader/src/worker.ts:386-558 | Every step of the flush loop uses up allowed attempts, or moves the loop to where the next step, or the one after, will. |
| `BulkWorker.Worker.Drain` | services/bulk-loader/src/worker.ts:574-580 | Whatever the pipeline answers, round by round and slot by slot, and whatever rows arrive while it runs, a drain terminates with no loop and no promise, and every row handed over is settled, but for rows that arrived after the loop's last test, which an armed timer covers when the configuration is safe. If every answer is Ok, all writable rows end up flushed, but for those refused before. |
| `BulkWorker.FlushedExactly` | services/bulk-loader/src/worker.ts:518-527 | In every run the flushed copies of a row are its Ok answers that have been walked. |
| `BulkWorker.DeadExactly` | services/bulk-loader/src/worker.ts:529-554 | In every run the dead copies of a writable row are its refusals (a permanent error, or a transient one with attempts + 1 at the limit) that have been walked and dead-lettered. |
| `Dispatcher.Gate.Drain` | services/bulk-loader/src/dispatcher.ts:123-125 | All workers drain side by side, in any interleaving, whatever the pipelines answer and producers and timers do meanwhile: the drain terminates with no loop running and at most as many rows in flight as were admitted since it began; with none admitted every row is settled exactly once and no producer waits; and with nothing in flight and nobody waiting or woken at the end, every row enqueued before or meanwhile is settled exactly once. |
| `Dispatcher.EnqueuedSettledOnce` | services/bulk-loader/src/dispatcher.ts:113-121 | In every run a row is settled at most as often as producers enqueued it, and exactly as often when nothing is in flight and nobody waits or is woken. |
| `Dispatcher.SettledOnce` | services/bulk-loader/src/dispatcher.ts:80-121 | In every run an admitted row is settled at most once, flushed or dead-lettered, and exactly once when nothing is in flight. |
| `Dispatcher.InvRun` | services/bulk-loader/src/dispatcher.ts:80-121 | In every run inFlight is what the workers hold, never above the high-water mark, and producers wait only while the gate is closed. |
| `Dispatcher.RowsSpreadEvenly` | services/bulk-loader/src/dispatcher.ts:105-121 | At every moment of every run each worker has been handed its even share of the admitted rows: no two differ by more than one. |
| `RepeatedBoots.SecondBootQuietExactly` | services/api/src/bootstrap.ts:428-707 | From any cluster: the second boot with the same schema issues no create or drop, whatever it is listed, if and only if the first neither adopts an unversioned index some master lacks nor a listed suffix that reads back as something else. |
| `RepeatedBoots.QuietExactly` | services/api/src/bootstrap.ts:428-707 | From which boot on all boots are quiet and resolve one index, the one readers resolve, both directions: the second under the condition above if besides the first boot does not relapse; the third if it neither relapses nor adopts the empty suffix; the fourth and every later one if it does not adopt the empty suffix. |
| `RepeatedBoots.UniformQuietExactly` | services/api/src/bootstrap.ts:428-707 | With equal masters all boots from the second on are quiet if and only if the adopted suffix, if any, reads back. |
| `BootOutcomes.AdoptsExactly` | services/api/src/bootstrap.ts:428-707 | A boot resolves a versioned index other than its own if and only if the mode is on, no legacy branch applies, and the index of the recorded suffix, or without one of the first foreign suffix listed, is on every master and compatible; then it records the suffix and touches nothing. Otherwise it resolves its own or the unversioned index, and whatever it builds leaves its own on every master. |
| `Pool.BreakerSoundExactly` | services/api/src/active-target.ts:1487-1566 | Over every event sequence the breaker keeps its invariant (closed: no timer, no backoff, below threshold; half-open: no timer; open: armed; delay min(cap, initial*2^k) after k failed probes) if and only if the threshold is at least one and 0 < initial <= cap. |
| `Pool.RoundRobin` | services/api/src/active-target.ts:1353-1368 | With the circuits as they are, as many consecutive acquisitions as there are slots not open visit each of them exactly once and no other. |
| `Quotas.EvenlyEmittedExactly` | services/generator/src/row-generator.ts:172-180 | As many rows as planned give every sensitivity type its even share for all uniform draws, if and only if the floor is on, or there is one type, or no row. |
| `Quotas.FloorReachedExactly` | services/generator/src/row-generator.ts:340-353 | Without a plan every type reaches the floor for all uniform draws, if and only if the floor is off or there are at least types times floor rows. |
| `Padding.PaddingIsConservative` | services/bulk-loader/src/worker.ts:259-287 | Padding keeps every field a row had, covers every declared tenor of its legs, and adds nothing but declared zeros. |
| `Docs.EnrichDoc` | services/ingest/src/consumer.ts:252-362 | The loops of the enrichment leave the document `Enrich` describes, whatever the shape of the row. |
| `Figures.UnweightedRow` | services/ingest/src/consumer.ts:197-205 | A Vega row is stored with its numbers as they are: a bare number or lone spot as the value; of labelled numbers the last under each label, and the total of all as the value. So is a Curvature row that is no object. |
| `Figures.ConstantWeightRow` | services/ingest/src/consumer.ts:172-205 | A Delta row of a class with one weight: the same figures, each number times that weight. |
| `Figures.BucketWeightRow` | services/ingest/src/consumer.ts:172-205 | With a weight for each bucket: times the row's, and zero for a bucket without an entry. |
| `Figures.TenorWeightRow` | services/ingest/src/consumer.ts:172-205 | With a weight for each tenor: times that of the label, and zero without an entry or for a single number. |
| `Figures.NoTableRow` | services/ingest/src/consumer.ts:172-177 | Without a weight table every figure is zero. |
| `Figures.CurvatureRow` | services/ingest/src/consumer.ts:271-305 | A Curvature object, whatever the weights: the up figures are the numbers under cvr_up, the down figures those under cvr_down, two numbers as they are, two arrays position by position against the class's nodes. |
| `Figures.NoFigureRow` | services/ingest/src/consumer.ts:252-305 | A Curvature object without one of the legs, and a row of an unknown class, get no figure. |
| `Figures.AttributesKept` | services/ingest/src/consumer.ts:164-176 | The attributes a HASH can hold pass through, and the calibration stamp is set. |
| `Docs.WeighFields` | services/ingest/src/consumer.ts:319-330 | One pass over an object: later labels overwrite in the map, every entry counts in the sum. |
| `Docs.WeighCvr` | services/ingest/src/consumer.ts:279-297 | The same for one curvature leg against the class's tenor nodes. |
| `Docs.AddedIsTotalPlusOverwritten` | services/ingest/src/consumer.ts:306-350 | The scalar figure exceeds the sum of the stored tenors by exactly what repeated labels overwrote. |
| `Docs.EnrichKeepsGroup` | services/ingest/src/consumer.ts:252-270 | Enrichment leaves class, bucket and type alone. |
| `Rollup.EmitRollupHincrs` | services/ingest/src/consumer.ts:414-473 | The increments a row sends address every rollup field with exactly the row's contribution, in any enumeration of its tenors. |
| `Spelled.BaseRollup` | services/ingest/src/consumer.ts:414-473 | Under rollup:class:bucket:type a document adds its scalar figure, its square and one; a Curvature one its up and down figures, their squares and one; without figures nothing. |
| `Spelled.TenorRollup` | services/ingest/src/consumer.ts:414-473 | Under the same key with :tenor:label it adds the figures of that label, or nothing. |
| `Spelled.NoOtherRollup` | services/ingest/src/consumer.ts:414-473 | Under any other key it adds nothing, and without class, bucket or type nothing at all. |
| `Rollup.Pipeline` | services/ingest/src/consumer.ts:414-473 | A pipeline of increments moves each field by the total addressed to it. |
| `Rollup.IngestRows` | services/ingest/src/consumer.ts:404-473 | Rows ingested one by one add the recomputation over them. |
| `Rollup.RecomputeOrderIndependent` | services/ingest/src/backfill-rollups.ts:56-102 | The recomputation does not depend on the order of the documents. |
| `HashForm.CollectTenors` | services/ingest/src/backfill-rollups.ts:173-180 | The scan over a HASH collects exactly the numeric fields under the prefix, label by label. |
| `HashForm.ReconstructDocFromHash` | services/ingest/src/backfill-rollups.ts:133-189 | The rebuilt document of a HASH: tenors when there are any, their sum as the scalar, else the scalar fields. |
| `Spelled.StoredAttributes` | services/ingest/src/consumer.ts:531-545 | Class, bucket, type and the six further attributes are stored under their own names if and only if the document has them. |
| `Spelled.StoredScalar` | services/ingest/src/consumer.ts:546-575 | A scalar Delta or Vega figure is the one number stored, as ws_class_delta or ws_class_vega, the class in lower case. |
| `Spelled.StoredTenors` | services/ingest/src/consumer.ts:546-575 | Figures by tenor are the numbers stored, one field for each label after that name, and no scalar. |
| `Spelled.StoredCurvature` | services/ingest/src/consumer.ts:546-575 | Scalar curvature figures are stored as ws_class_cvr_up and ws_class_cvr_down, each under its own. |
| `Spelled.StoredCurvatureTenors` | services/ingest/src/consumer.ts:546-575 | Curvature figures by tenor are stored under the two names and the label, each leg under its own. |
| `HashForm.StrippedPrefixed` | services/ingest/src/consumer.ts:563-572 | Prefixing and stripping tenor labels are inverse among any other fields. |
| `HashForm.UpAndDownDiffer` | services/ingest/src/backfill-rollups.ts:142-155 | No field belongs to both curvature legs, so the order of the two prefix tests does not matter. |
| `RoundTrip.EnrichShape` | services/ingest/src/consumer.ts:252-362 | Enriched documents carry scalar and tenor figures together, and both curvature legs on the same tenors. |
| `RoundTrip.ScalarMergeReconstructs` | services/ingest/src/consumer.ts:531-575 | Writing a scalar document over a stored HASH without tenor fields and rebuilding gives that document's figures. |
| `RoundTrip.ScalarMergeHasNoTenors` | services/ingest/src/consumer.ts:531-575 | Such a write leaves the HASH without tenor fields. |
| `RoundTrip.DistinctTenorsRoundTrip` | services/ingest/src/consumer.ts:252-362 | Distinct labels and a tenor on every leg suffice for the round trip. |
| `RoundTrip.NoGroupRoundTrips` | services/ingest/src/backfill-rollups.ts:61-64 | A document without class, bucket or type counts nowhere, before or after. |
| `RoundTrip.OtherTypeRoundTrip` | services/ingest/src/consumer.ts:517-522 | A sensitivity type without a HASH leg round-trips if and only if it has no figure. |
| `Writers.WriteDirect` | services/generator/src/direct-writer.ts:123-180 | Rows cut into batches anyhow: rollups end at the recomputation, seen-sets at the members of the split keys, which for colon-free names are those of the per-row writer. |
| `Writers.DirectWriter.AccumulateRollup` | services/generator/src/direct-writer.ts:182-235 | The in-memory batch gains exactly the row's contribution. |
| `Writers.DirectWriter.AccumulateSeen` | services/generator/src/direct-writer.ts:97-110 | The batch's members gain exactly those of the row. |
| `Writers.DirectWriter.Dispatch` | services/generator/src/direct-writer.ts:134-161 | After a dispatch Redis holds everything added so far and the batch is empty. |
| `Writers.DirectWriter.Add` | services/generator/src/direct-writer.ts:164-173 | Redis and batch together stay balanced with the rows so far. |
| `Writers.DirectWriter.BumpScalar` | services/generator/src/direct-writer.ts:91-95 | The batch gains value, square and one under the key and nothing elsewhere. |
| `Writers.DirectWriter.BumpCurvature` | services/generator/src/direct-writer.ts:91-95 | The batch gains both values, both squares and one under the key and nothing elsewhere. |
| `SeenSets.FirstTwoExact` | services/generator/src/direct-writer.ts:152-155 | Splitting and re-joining a class:bucket key keeps it if and only if neither name contains a colon. |
| `SeenSets.SaddsSpelled` | services/ingest/src/consumer.ts:404-412 | A row with class, bucket and type enters three sets, under the keys readers spell, and no other row enters any. |
| `SeenSets.SaddsBySplitExact` | services/generator/src/direct-writer.ts:152-155 | So a row's members are the per-row ones if and only if its names are colon-free. |
| `SeenSets.SeenSetsAgree` | services/ingest/src/consumer.ts:404-412 | For colon-free names the deduplicated seen-sets equal the per-row ones. |
| `Backfill.BackfillRollups` | services/ingest/src/backfill-rollups.ts:211-294 | Touched fields become the recomputation over the rebuilt documents; every other field keeps its value. |
| `Backfill.Accumulators.AccumulateRollup` | services/ingest/src/backfill-rollups.ts:56-102 | The two maps read as one store gain exactly the document's contribution. |
| `Backfill.Accumulators.BumpScalar` | services/ingest/src/backfill-rollups.ts:104-108 | A scalar accumulator gains value, square and one. |
| `Backfill.Accumulators.BumpCurv` | services/ingest/src/backfill-rollups.ts:110-116 | A curvature accumulator gains both values, both squares and one. |
| `Backfill.BackfillExactly` | services/ingest/src/backfill-rollups.ts:260-292 | A field is right after a backfill if and only if it is written and not a count both kinds of document share, or is not written and was zero. |
| `Backfill.ColonFreeCounts` | services/ingest/src/backfill-rollups.ts:260-292 | No count is shared when the names of the documents hold no colon. |
| `Keys.SameKeyExactly` | shared/calc/src/rollup-keys.ts:19-27 | Two rollup keys are one text if and only if their parts, cut at every colon, are the same. |
| `Keys.ColonFreeKeys` | shared/calc/src/rollup-keys.ts:19-27 | Among names without a colon a key is of one class, bucket, type and tenor, whatever the tenor label. |
| `Keys.KeysCollide` | shared/calc/src/rollup-keys.ts:19-27 | With a colon two groups share a base key, and a type can pass for a tenor. |
| `ThreeWriters.SurvivesExactly` | services/ingest/src/backfill-rollups.ts:133-189 | Which enriched documents of any type contribute the same after their HASH, told from the document. |
| `ThreeWriters.RewritingBreaksAgreement` | services/ingest/src/consumer.ts:404-473 | A row that counts at a key where its HASH is already worth something breaks the agreement of the writers. |
| `ThreeWriters.RewrittenCountsTwice` | services/ingest/src/consumer.ts:404-473 | A document written twice under one id counts twice row by row and once in the backfill. |
| `Deltas.ParseOldContribution` | services/ingest/src/consumer.ts:864-915 | What a stored HASH says it contributed, scalar and tenor fields looked up independently. |
| `Deltas.EmitRollupDelta` | services/ingest/src/consumer.ts:922-998 | The increments sent address every field with exactly new minus old, the count only for a new row, over old and new tenors. |
| `Deltas.FirstIngestSendsAll` | services/ingest/src/consumer.ts:922-998 | A first ingestion sends the whole contribution, for every enriched document. |
| `Deltas.FirstIngestExactly` | services/ingest/src/consumer.ts:922-998 | A first ingestion leaves no gap if and only if the document round-trips. |
| `Deltas.ValuelessMerge` | services/ingest/src/consumer.ts:531-575 | A row without figures leaves the stored ones in place. |
| `Ingest.DecodedExactly` | services/ingest/src/consumer.ts:1205-1219 | A message is malformed if and only if it has no id, an empty tag, or no tag and no class or no bucket; any other becomes its own id and the enrichment of its own row. |
| `Ingest.DecodedOk` | services/ingest/src/consumer.ts:1205-1219 | Well-formed messages decode to enriched documents with the calibration stamp. |
| `Ingest.InvStep` | services/ingest/src/consumer.ts:1228-1390 | What consumers past a phase rely on, and at most one commit per marked entry, survives every step of every consumer. |
| `Ingest.InvRun` | services/ingest/src/consumer.ts:1228-1390 | So it holds in every reachable state. |
| `Reconcile.GapMoved` | services/ingest/src/consumer.ts:1228-1390 | A consumer moving on changes the differences in flight by its own old and new share. |
| `Tracking.KeptMerge` | services/ingest/src/consumer.ts:1228-1262 | A write of a scalar or per-tenor row keeps the HASH of its id one of its group and kind and, when steady, with its figures or exactly its tenors. |
| `Tracking.WriteMisses` | services/ingest/src/consumer.ts:922-998 | For scalar, per-tenor and foreign rows alike: a write's miscount at a field is a late scalar figure's count, the amounts repeated labels overwrote in a first write, or what `Deltas.TenorReingest` says. |
| `Tracking.MissedRun` | services/ingest/src/consumer.ts:1228-1347 | So in every run the miscounts at a field are the sum of what its writes missed. |
| `Reconcile.ScanWorth` | services/ingest/src/backfill-rollups.ts:226-258 | A full scan of the HASHes recomputes what the stored documents are worth. |
| `Exactness.CountsNeverExceedDocuments` | services/ingest/src/consumer.ts:922-998 | Where no counting row's group is overridden, the count at a key at which one group alone counts never exceeds the stored documents of that group, in every run. |
| `Exactness.OverridingOverstatesACount` | services/ingest/src/consumer.ts:922-998 | A run in which a second row takes a counted id to another group: the count is one, and no document of the group is stored. |
| `Exactness.SharingOverstatesACount` | shared/calc/src/rollup-keys.ts:19-27 | A run of one row that counts at a key of another group: the count there is one, and no document of that group is stored. |
| `Exactness.EmptyBucketOrColonOverstates` | services/ingest/src/consumer.ts:531-545 | Two ways to get there: a counted id sent again with an empty bucket, and rows of FX:1 / 2 and FX / 1:2. |
| `Exactness.ColonFreeCountsBoundedExactly` | services/ingest/src/consumer.ts:922-998 | When class, bucket and type hold no colon, overriding alone decides. |
| `Exactness.SharedMarkerDropsARow` | services/ingest/src/consumer.ts:1283-1347 | A run of two rows under one marker: both acknowledged and stored, only the first one's difference sent. |
| `Ingest.MarkersAgreeExactly` | shared/calc/src/rollup-keys.ts:79-81 | Marker keys leave the stream out: two agree if and only if their parts, cut at every colon, do; for colon-free names, if and only if class, bucket and entry id do. |
| `Tracking.SteadyMisses` | services/ingest/src/consumer.ts:922-998 | Over a HASH of the same kind, figures and tenors a write misses the base figure it replaces, if per-tenor, and nothing else. |
| `Consumer.DocumentPhase` | services/ingest/src/consumer.ts:1228-1274 | The first retry loop follows the protocol and commits if and only if some of its nine attempts is undisturbed. |
| `Consumer.RollupPhase` | services/ingest/src/consumer.ts:1283-1347 | The second likewise; under an existing marker it commits nothing. |
| `Consumer.CommitRollup` | services/ingest/src/consumer.ts:1290-1318 | The queued commands apply exactly the difference computed from the first phase's HASH, with the marker. |
| `Consumer.ProcessEntry` | services/ingest/src/consumer.ts:1205-1390 | A whole entry is a run of the protocol and is acknowledged if and only if it is malformed or both phases get through. |
| `SbmDelta.DoubleSumClosed` | tools/reference-sbm/sbm.py:144-152 | The double sum over pairs k != l is the closed form over two running sums. |
| `SbmDelta.KernelIsMaxOfStandardAndUncorrelated` | tools/reference-sbm/sbm.py:144-152 | For 0 <= rho <= 1 the kernel is the larger of the sum of squares and the standard's figure. |
| `SbmDelta.KernelForAnyRho` | tools/reference-sbm/sbm.py:144-152 | For any rho, also a negative one, the kernel is the double sum, or the sum of squares where the square of the sum falls below it, and never below zero. |
| `SbmDelta.KernelBounds` | tools/reference-sbm/sbm.py:144-152 | It lies between rho times S_b squared and the larger of S_b squared and the sum of squares. |
| `SbmDelta.ComputeKbScalar` | tools/reference-sbm/sbm.py:109-141 | One pass gives count, S_b and the root of the kernel over the weighted scalars of the rows. |
| `SbmDelta.WeighedOnce` | tools/reference-sbm/sbm.py:109-141 | The weighted scalars are the numbers of the rows of the type, the first of a list, in row order, each times the weight. |
| `SbmDelta.ComputedBucketIsFromKernel` | tools/reference-sbm/sbm.py:109-152 | Every bucket computed this way, the empty one included, is a kernel bucket. |
| `SbmDelta.InteriorIsDoubleSum` | tools/reference-sbm/sbm.py:158-169 | The grouped interior is the double sum over pairs of distinct buckets. |
| `SbmDelta.InteriorNonNegative` | tools/reference-sbm/sbm.py:158-169 | With kernel buckets and gamma <= rho the interior is not negative and the charge is its root. |
| `SbmDelta.NegativeInteriorReachable` | tools/reference-sbm/sbm.py:158-169 | For gamma > rho, long against short unit positions drive it below zero. |
| `SbmDelta.FloorNeverFires` | tools/reference-sbm/sbm.py:170-174 | The final floor at zero never changes the charge. |
| `SbmDelta.ReduceChargeSquares` | tools/reference-sbm/sbm.py:158-174 | The charge is non-negative and its square is the chosen interior. |
| `SbmDelta.ChargeExactly` | tools/reference-sbm/sbm.py:158-174 | The charge squares to the pair sum of the buckets, or where that is negative to the one with each S_b cut to plus or minus K_b, or to zero. |
| `Curvature.KbSquaredForDirection` | services/calc/src/curvatureCommon.ts:62-78 | The nested loops compute the gated double sum. |
| `Curvature.KbSquaredPermutation` | services/calc/src/curvatureCommon.ts:62-78 | K_b squared does not depend on the order of the CVRs. |
| `Curvature.KbSquaredZeroPadding` | services/calc/src/curvatureCommon.ts:62-78 | Appending zeros changes neither K_b squared nor S_b. |
| `CurvatureClamps.ClampIsLive` | services/calc/src/curvatureCommon.ts:62-78 | At full correlation one long of two against three unit shorts makes the interior -5. |
| `Curvature.ResolveBucketCurvature` | services/calc/src/curvatureCommon.ts:145-177 | The method returns the bucket the specification resolves. |
| `Curvature.ResolveBucketIsWorst` | services/calc/src/curvatureCommon.ts:145-177 | K_b squared is the larger of the two clamped directions, and S_b belongs to the chosen one. |
| `Curvature.AggregateAcrossBuckets` | services/calc/src/curvatureCommon.ts:103-140 | The nested loops, clip and floor compute the aggregate of the specification. |
| `Curvature.InteriorClosed` | services/calc/src/curvatureCommon.ts:113-125 | For a constant gamma the gated cross-bucket sum has the same closed form. |
| `CurvatureClamps.FloorIsLive` | services/calc/src/curvatureCommon.ts:128-139 | For every gamma but zero some resolved buckets have a negative interior and are charged the root of zero, by the fallback. |
| `Curvature.ComputeEquityCurvatureCharge` | services/calc/src/equityCurvatureReference.ts:68-107 | Grouping by bucket, ordering the names and aggregating give the charge of the specification. |
| `CurvatureCharge.ConstantInterior` | services/calc/src/curvatureCommon.ts:113-125 | With one gamma the interior is the sum of K_b squared plus gamma squared times ((S^2 - Q) - (N^2 - Q_N)), S and Q over all S_b, N and Q_N over the negative ones. |
| `CurvatureCharge.GammaSquared` | services/calc/src/curvatureCommon.ts:38-52 | The correlation used between two buckets is the square of the given one, constant or matrix entry. |
| `CurvatureCharge.EntryOf` | services/calc/src/curvatureCommon.ts:80-91 | The entry of a matrix is the one where the two labels last stand. |
| `CurvatureCharge.EntryMissing` | services/calc/src/curvatureCommon.ts:80-91 | Without an entry there it is zero. |
| `CurvatureCharge.UnlabelledBuckets` | services/calc/src/curvatureCommon.ts:80-91 | It is zero, too, if a bucket has no label. |
| `CurvatureCharge.ChargedBuckets` | services/calc/src/equityCurvatureReference.ts:68-107 | A bucket is charged if and only if some row counts in it and a given order lists it. |
| `Oracles.ComputeKbEquityDelta` | services/calc/src/equityDeltaReference.ts:36-66 | One pass gives the weighted values in row order, their sum, count and the root of their kernel. |
| `Oracles.ComputeKbDelta` | services/calc/src/girrDeltaReference.ts:36-94 | The array loops give WS_k = w_k times the raw sum per tenor, their sum, the root of their kernel and the count. |
| `Oracles.AddRow` | services/calc/src/girrDeltaReference.ts:56-79 | One row adds its sensitivity at each tenor and is counted exactly when it is an array or a labelled object. |
| `Oracles.TenorSums` | services/calc/src/girrDeltaReference.ts:56-79 | Over all rows a tenor has the Delta arrays' numbers at its position and, if no weight lacks a label, the Delta objects' numbers under its label. |
| `Oracles.RowsCounted` | services/calc/src/girrDeltaReference.ts:56-79 | Counted are the Delta arrays and, if no weight lacks a label, the Delta objects. |
| `EndToEnd.EquityRowExactly` | services/calc/src/equityDeltaReference.ts:47-61 | Ingest and reference read the same figure from a row if and only if it is an array without labels, an object with a lone spot, an object whose numbers add up to its spot (or weight zero, or per-tenor weighted numbers that cancel), or neither array nor object. |
| `EndToEnd.NoExcessExactly` | services/calc/src/equityDeltaReference.ts:47-61 | On exactly these rows the excess is zero in every field. |
| `EndToEnd.AddedIsWeightedTotal` | services/ingest/src/consumer.ts:319-330 | The scalar figure of an object or labelled array is the sum of all its numbers, each times the weight of its label. |
| `EndToEnd.ObjectsWithoutSpotDisagree` | services/calc/src/equityDeltaReference.ts:52-56 | Every object without a numeric spot is skipped by the reference and counted by ingest. |
| `EndToEnd.OnlyBucketRowsCount` | services/ingest/src/consumer.ts:414-473 | What the rows of a group add to its rollups comes from the rows of its bucket alone. |
| `EndToEnd.RollupByBucketRow` | services/ingest/src/consumer.ts:414-473 | A rollup field is what its group's rows add plus what rows of other groups add under the same key text. |
| `EndToEnd.ColonFreeRowsDoNotStray` | shared/calc/src/rollup-keys.ts:19-27 | Rows whose names hold no colon never add to another group's rollup. |
| `GirrEndToEnd.GirrRowExactly` | services/calc/src/girrDeltaReference.ts:58-80 | At one tenor a row's own share of the rollup meets the reference if and only if the weight is zero or the number last given under the label is the one at the position. |
| `GirrEndToEnd.SwappedLabelsDisagree` | services/calc/src/girrDeltaReference.ts:58-66 | A row of two values under swapped labels, which the two sides read differently. |
| `GirrEndToEnd.LabelsAgreeExactly` | services/calc/src/girrDeltaReference.ts:58-66 | For all arrays of values reading under a label and reading at a position agree if and only if the label stands at that position alone. |
| `GirrEndToEnd.ExchangedTotal` | services/calc/src/girrDeltaReference.ts:81-92 | The weighted total of a row's labelled numbers is the sum over the tenors of weight times what is given under the tenor. |
| `GirrEndToEnd.LastNumbersWritten` | services/ingest/src/consumer.ts:321-330 | The weighing loop keeps the last number of every label, weighed, repeated labels included. |
| `BulkWorker.StepConserves` | services/bulk-loader/src/worker.ts:386-580 | Each step keeps the copies of every row, still owed or settled, and adds only the pushed one. |
| `BulkWorker.ConservedRun` | services/bulk-loader/src/worker.ts:386-580 | In every run each accepted row is in exactly one place: buffer, running batch, flushed or dead. |
| `BulkWorker.StepInv` | services/bulk-loader/src/worker.ts:368-399 | A set promise means a loop; a loop ends only with an empty buffer; attempts stay below the limit; nothing gets stranded when timer or batch size allow. |
| `BulkWorker.InvRun` | services/bulk-loader/src/worker.ts:368-580 | So in every reachable state. |
| `BulkWorker.WalkWork` | services/bulk-loader/src/worker.ts:488-554 | Walking replies never adds allowed attempts and removes some unless it stops at the first. |
| `BulkWorker.Worker.Accept` | services/bulk-loader/src/worker.ts:560-572 | Push: append, then flush at a full batch or arm the timer. |
| `BulkWorker.Worker.OnIdle` | services/bulk-loader/src/worker.ts:375-384 | The idle timer fires. |
| `BulkWorker.Worker.Flush` | services/bulk-loader/src/worker.ts:386-399 | A flush is scheduled unless its promise is set. |
| `BulkWorker.Worker.NextBatch` | services/bulk-loader/src/worker.ts:390-396 | The loop's test, an await after the batch: the next batch, malformed rows apart, or the end and a cleared promise. |
| `BulkWorker.Worker.OnMalformedSettled` | services/bulk-loader/src/worker.ts:467-477 | A malformed row is dead-lettered and settled; the rest of the batch goes on. |
| `BulkWorker.Worker.WalkReplies` | services/bulk-loader/src/worker.ts:488-554 | Replies in order: flushed, put back in front with one more attempt, or stopped for a dead letter. |
| `BulkWorker.WalkedExactly` | services/bulk-loader/src/worker.ts:488-554 | A walk passes the replies up to the first refused one: the Ok rows are flushed in order, the transient ones go back to the front of the buffer with one more attempt, and the refused one awaits its dead letter with the replies after it. |
| `BulkWorker.MalformedNeverFlushed` | services/bulk-loader/src/worker.ts:467-477 | In every run a row that is not writable gets no Ok answer and is never flushed. |
| `BulkWorker.SentExactly` | services/bulk-loader/src/worker.ts:479-487 | In every run the rows sent to the pipeline are those of the answered batches, in order. |
| `BulkWorker.TakenExactly` | services/bulk-loader/src/worker.ts:390-396 | A batch is the front of the buffer up to the batch size, parted into malformed and writable rows, both in order; malformed ones are dead-lettered first. |
| `BulkWorker.BatchInHand` | services/bulk-loader/src/worker.ts:390-396 | In every run at most a batch is in hand. |
| `BulkWorker.PushedExactly` | services/bulk-loader/src/worker.ts:560-572 | A push that fills a batch starts the loop and stops the timer, any other arms it if the idle flush is on; under a running loop the row waits in the buffer. |
| `BulkWorker.Worker.OnReplies` | services/bulk-loader/src/worker.ts:479-554 | The pipeline's answer to the sent rows. |
| `BulkWorker.Worker.OnDeadSettled` | services/bulk-loader/src/worker.ts:538-548 | A failed row's dead letter is out and the walk resumes. |
| `Dispatcher.StepInv` | services/bulk-loader/src/dispatcher.ts:80-121 | In-flight count, high-water bound and the reason to wait survive every step. |
| `Dispatcher.LocatedRun` | services/bulk-loader/src/dispatcher.ts:80-121 | In every run the workers hold or have settled each admitted row exactly as often as it was admitted. |
| `Dispatcher.ClampNeverFires` | services/bulk-loader/src/dispatcher.ts:80-87 | In no run does a settle find the counter at zero, so its clamp changes nothing. |
| `Dispatcher.SettleSubtracts` | services/bulk-loader/src/dispatcher.ts:80-87 | Settling subtracts exactly, keeps the order of producers and opens the gate for all of them at once. |
| `Dispatcher.SettleWakes` | services/bulk-loader/src/dispatcher.ts:80-87 | A settle that opens the gate wakes everybody waiting, in order; one that leaves it shut wakes nobody. |
| `Dispatcher.EnqueuedRun` | services/bulk-loader/src/dispatcher.ts:113-121 | In every run the copies of a row among the producers' calls are its copies admitted, waiting and woken. |
| `Dispatcher.Gate.OnSettle` | services/bulk-loader/src/dispatcher.ts:80-87 | The release loop wakes waiters in arrival order while the gate is open. |
| `Dispatcher.Gate.TryEnqueue` | services/bulk-loader/src/dispatcher.ts:113-121 | Wait at the closed gate, else count the row and hand it to the next worker. |
| `Dispatcher.Gate.OnWoken` | services/bulk-loader/src/dispatcher.ts:113-121 | A woken producer tests the gate again. |
| `Dispatcher.Gate.RunWorker` | services/bulk-loader/src/dispatcher.ts:89-103 | A worker runs to its next await and settles one by one what it reports. |
| `Padding.RowToHashFields` | services/bulk-loader/src/worker.ts:189-288 | The loops build the row's own arguments, present empty attributes included, followed by the padding. |
| `SlimFields.SlimSingle` | services/bulk-loader/src/worker.ts:189-258 | A bare number or lone spot goes out as s_class_delta or s_class_vega, the class in lower case. |
| `SlimFields.SlimObject` | services/bulk-loader/src/worker.ts:230-240 | Of an object, the number last given under a label goes out under that name and the label, and there is no other field of that name. |
| `SlimFields.SlimArray` | services/bulk-loader/src/worker.ts:241-258 | Of an array, the number last given at a position of a text goes out under that text. |
| `SlimFields.SlimCurvature` | services/bulk-loader/src/worker.ts:203-229 | Two curvature numbers go out as s_class_cvr_up and s_class_cvr_down, each under its own. |
| `SlimFields.SlimCurvatureArrays` | services/bulk-loader/src/worker.ts:203-229 | Two curvature arrays: each leg's numbers under its own name and the text at their position. |
| `SlimFields.SlimAttributes` | services/bulk-loader/src/worker.ts:189-202 | The seven attributes go out as they are, and no other. |
| `SlimFields.PaddedExactly` | services/bulk-loader/src/worker.ts:259-287 | The padded row has the fields it had and a zero under every other name of its type, both legs of Curvature, for a declared tenor, and no more. |
| `Padding.PaddedRowReadsAsReference` | services/bulk-loader/src/worker.ts:230-240 | A padded Delta row reads, tenor by tenor, as the GIRR reference reads the raw row. |
| `Padding.GirrReferenceIgnoresPadding` | services/calc/src/girrDeltaReference.ts:56-94 | The GIRR reference computes the same WS vector and count on dense and sparse rows. |
| `Padding.CurvatureIgnoresPadding` | services/calc/src/curvatureCommon.ts:62-78 | K_b squared of a curvature leg is the same before and after padding. |
| `Bootstrap.BootstrapIndex` | services/api/src/bootstrap.ts:428-707 | The flags and branches of the source decide as the decision tree `Boot` does. |
| `BootOutcomes.TakingBase` | services/api/src/bootstrap.ts:428-524 | Nothing recorded, or an empty recorded index, beside a filled unversioned index: that is taken under the legacy tag; else the legacy or the versioned branch runs. |
| `BootOutcomes.LegacyTagged` | services/api/src/bootstrap.ts:525-560 | Under a legacy tag, ours over an unversioned index on every master stays; any other is dropped and ours built. |
| `BootOutcomes.Versioned` | services/api/src/bootstrap.ts:561-707 | Without one, ours if recorded and on every master; else the kept one; else ours is built on every master and the recorded one dropped. |
| `Bootstrap.RunIndexRebuild` | services/api/src/bootstrap.ts:335-378 | Per master: the old index goes if its name differs, the new one is there afterwards, and each master costs one or two commands. |
| `Bootstrap.IndexPresentOnAll` | services/api/src/bootstrap.ts:195-204 | The probe answers whether every master has the index. |
| `Bootstrap.FindForeign` | services/api/src/bootstrap.ts:587-609 | The first listed versioned index that is not ours, by its suffix. |
| `RepeatedBoots.FirstBoot` | services/api/src/bootstrap.ts:428-707 | Where a boot leaves any cluster, told from the cluster before it: on a listed suffix, on the legacy tag, or on a versioned index present on all masters, and when the next boots migrate. |
| `RepeatedBoots.EmptySuffixUnsettled` | services/api/src/bootstrap.ts:587-655 | While an index with an empty suffix is listed and adopted, no boot number is the last noisy one. |
| `RepeatedBoots.ThirdBootMayMigrate` | services/api/src/bootstrap.ts:445-537 | An empty new index over an unversioned one some master lacks: the second boot is quiet and the third drops and creates. |
| `Bootstrap.StrandedRecovers` | services/api/src/bootstrap.ts:445-510 | An empty recorded index beside a populated unversioned one is given up without touching either. |
| `Bootstrap.LegacySettles` | services/api/src/bootstrap.ts:512-536 | A legacy tag over a present unversioned index is a fixed point. |
| `Bootstrap.LegacyMigrates` | services/api/src/bootstrap.ts:537-560 | A legacy tag without its index everywhere is migrated to a fixed point. |
| `Bootstrap.VersionedSettles` | services/api/src/bootstrap.ts:561-707 | A versioned index that is not stranded is a fixed point. |
| `RepeatedBoots.SettledForever` | services/api/src/bootstrap.ts:428-707 | Once settled, all later boots repeat. |
| `RepeatedBoots.SecondBootMayRebuild` | services/api/src/bootstrap.ts:525-537 | Masters that disagree: the second boot drops and creates. |
| `RepeatedBoots.LegacyLookingIndexUnsettles` | services/api/src/bootstrap.ts:587-655 | An index whose suffix reads as a legacy tag is adopted and then migrated away from. |
| `Pool.StepInv` | services/api/src/active-target.ts:1487-1566 | Every event keeps the breaker's invariant when the threshold is at least one and 0 < initial <= cap. |
| `Pool.CircuitMoves` | services/api/src/active-target.ts:1487-1566 | Which events leave the circuit open, and which closed, from every state. |
| `Pool.FailuresAreStreak` | services/api/src/active-target.ts:1487-1523 | In every run the failure count is the number of failures since the last success or swap. |
| `Pool.OpenedThen` | services/api/src/active-target.ts:1525-1566 | In every run the opening time is that of the event that last opened the circuit, and zero when it is closed. |
| `Pool.DelayDoubles` | services/api/src/active-target.ts:1542-1546 | Doubling under the cap is min(cap, initial*2^(k+1)). |
| `Pool.PoolMember.Transition` | services/api/src/active-target.ts:1525-1566 | The field updates of a circuit transition. |
| `Pool.PoolMember.OnFailure` | services/api/src/active-target.ts:1487-1513 | A failure: half-open, fatal or at the threshold opens the circuit. |
| `Pool.PoolMember.OnSuccess` | services/api/src/active-target.ts:1518-1523 | A success closes a half-open circuit and clears the count. |
| `Pool.PoolMember.OnProbeTimer` | services/api/src/active-target.ts:1738-1765 | The probe timer puts an open member half-open. |
| `Pool.PoolMember.OnSwap` | services/api/src/active-target.ts:1041-1062 | A target swap starts the member over. |
| `Pool.NextTurns` | services/api/src/active-target.ts:1353-1372 | An acquisition moves the chosen slot to the back of the queue of usable slots. |
| `Pool.Slots.Acquire` | services/api/src/active-target.ts:1353-1372 | The loop takes the first usable slot from the index on; with none, the longest open one goes half-open. |
| `Pool.Slots.PromoteOldest` | services/api/src/active-target.ts:1420-1446 | The promoted member has the least opening time. |
| `Quotas.ComputeCoverageQuotas` | services/generator/src/row-generator.ts:496-530 | Quotas are the even split, sum to the planned rows, and none is below min(floor, rows/n); the raise never acts. |
| `Quotas.EmitRows` | services/generator/src/row-generator.ts:316-356 | With floor off, with a plan, or without one, the loop emits the sequence `Emitted` describes, one draw a row. |
| `Quotas.PlannedPick` | services/generator/src/row-generator.ts:322-339 | Every pick of a planned sequence, told from the picks before it: the first type with most of its quota left, or the row's own draw once none has any. |
| `Quotas.BiasedPick` | services/generator/src/row-generator.ts:341-353 | Every pick without a plan: the first type still short of the floor, or the row's own draw once none is. |
| `Quotas.QuotasUsedUp` | services/generator/src/row-generator.ts:322-339 | As many draws as quota left use up every type's quota exactly. |
| `Quotas.ShortageUsedUp` | services/generator/src/row-generator.ts:341-353 | Without a plan every row goes to a type short of the floor while there is one. |
| `Quotas.RaiseToFloor` | services/generator/src/row-generator.ts:505-529 | On any quotas, the raise keeps the sum and lowers none below its old value or the floor. |
| `Quotas.PickPlanned` | services/generator/src/row-generator.ts:322-339 | The first largest quota is used; the uniform draw only when all are used up. |
| `Quotas.PickBiased` | services/generator/src/row-generator.ts:341-353 | The first type short of the floor is used; the uniform draw only when none is. |

## Left out

- Floating-point rounding, NaN, infinities and string-to-number parsing: reals, and number printing is assumed to round-trip; a weighted field whose text is not a number is not modelled.
- Tracking.RollupsTrackDocuments: rows of one id keep their class, bucket and type, else an id that changes group leaves its old rollup behind, as `Reconcile.GapRun` accounts for; the rows of the key's own groups are of a known type, carry at least one tenor if per-tenor, and do not change between scalar and per-tenor under one id. Rows of other groups are unrestricted.
- Tracking.SteadyRollupsTrackDocuments: asks the key's rows for their figures, tenors that carry them and one tenor set per id; without that `Tracking.RollupsTrackDocuments` says what each write leaves off.
- ThreeWriters.WritersAgreeExactly: compares with the worth of the stored HASHes; a backfilled count that Curvature and other documents share is the Curvature one (`ThreeWriters.WriteThreeWays`), which needs a colon in a name (`Backfill.ColonFreeCounts`).
- CurvatureClamps.FloorDeadExactly: one gamma for all pairs and any number of buckets; gamma matrices and a bound on the number of buckets are not treated.
- Ingest.CommitsOnce: assumes markers do not expire and that no single command inside a committed MULTI fails.
- Backfill.BackfillRollups: takes the HGETALL replies of a complete scan, each key once; duplicate keys from SCAN, replies that are not HASHes and per-key errors are not modelled.
- Dispatcher.Gate.Drain: runs until no worker has a loop, at or after the moment the source's drain returns; the rounds in which producers and timers act are a finite list.
- Padding.RowToHashFields: an attribute is absent or a text; one that is null is not told from an absent one.
- Dispatcher.SettledOnce: speaks of runs without `stop`; rows pushed after it are refused by the worker.
- Dispatcher.Gate.RunWorker: the gate holds its workers as values and applies the step functions that `BulkWorker.Worker` implements; references between the two objects are not modelled.
- Pool.Slots.Acquire: sockets, readiness waits, resizing of the pool and the rebuild of a slot are not modelled.
- BulkWorker.Worker.Drain: the rounds in which rows arrive are a finite list, so the drain is not shown to end under an unending supply.
- Pool.RoundRobin: holds the members' circuits fixed between the acquisitions.
- RepeatedBoots.QuietExactly: no command fails, `force` is off and a target label is given; document counts of existing indexes do not change between boots.
- Row exclusion in the Delta references, and the per-tenor Delta and Vega kernels of the Python reference: the same formula over other row shapes.
- Sorting of bucket names compares characters; code units outside the basic plane may order differently.
- Live-tail mode, suggesters, the slim index, the side table of raw values, FUNCTION LOAD, rollup warnings and forced rebuilds.
- JSON storage variants: only the flat HASH is read back.
- The HTTP producer's slot counter, the bulk loader's resume watermark and the api's target-switch coordinator: they keep no invariant worth stating.
- The rollup-reading calculation path and the remaining Vega and FX references: the same formula.
- HTTP handlers, logging, metrics, command lines, TLS, timers' actual delays and jitter.
