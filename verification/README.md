# GlassOps: verified models of its hardest procedures

GlassOps watches Linux servers: agents send snapshots to a backend that keeps them in SQLite,
averages them into one- and five-minute history and reclaims the raw rows. This project models, in
Dafny, the parts of it whose correctness is hardest to see, and proves what they promise.

`dafny verify dfyconfig.toml` checks everything. Larger proofs hide the definitions they talk about and
call small lemmas that each unfold one of them, which is why many lemmas have an empty or short body.

## The components

**Metric aggregation and retention** (`backend/app/database.py:2808-3520`) is the core. `StoreModel`
gives every transaction as a function from tables to tables: raw rows, per-row coverage, per-bucket
provenance, generations in flight with their resume cursor, summaries, and the scan floor of each
agent. `Store.MetricStore` is the procedure itself, on mutable tables with its loops, batches and
chunks, proved equal to those functions; `Accumulators.Accumulator` is the fold record that `_agg_add`
updates in place. `StoreInvariant` states what every reachable state satisfies, with the history the
tables forget (every row ever stored, every clock a cleanup ran with, every generation a pruned bucket
had published), and `StoreSteps`, `StoreTransactions` and `StoreCleanup` prove each transaction keeps
it. On top of it stand the theorems about whole runs: `StoreRuns` (nothing lost, summaries exact,
deletion safe, sealing final), `CatchUp` and `ScanFloor` (an exact measure of what is owed, and when
the floor skips nothing), `StoreRetirement`, and concrete runs in `StoreWitnesses` and `StoreSplits`.
`StoreReclaims` says of the tables before and after what a cleanup takes and spares, and
`StorePublishes` what a downsampling call touches and counts. `Averaging` says what the averages mean,
`Summaries` what every figure of a summary is, and `Batches` what saving a fold as JSON between two
batches does to it.

**The scrub of exception graphs** (`PublicLinks`, `PublicGraph`) rewrites `__cause__` and `__context__` links of a
possibly cyclic graph in place, so that no private classification can be reached from what is raised;
`PublicLinks.Accounted` says what may have become of each link.

**The database boundary** (`DbBoundary`, `DbShutdown`): one lock, two connections, and a worker thread
that may answer, fail, come back cancelled or stay silent while the caller is cancelled at any await.

**The host fence and its claim** (`Fence`, `FenceClaims`, `FenceRestores`, `FenceHost`): record files and
restart policies, moved by any number of processes that may die between any two steps.

**The WAL recovery run** (`Recovery`): a backup proved durable and identical before the one step that
cannot be taken back, under an authority that is spent exactly once.

**Installing the secret key** (`KeyInstall`): what a process sees and what a power loss may leave are
kept apart.

**The agent**: who may be signalled when pids are reaped by two reapers and recycled (`Terminals`,
`TerminalAgent`), and the connection log and rollups derived from successive snapshots (`NetAudit`).

## Where the code and its comments part ways

Each of these is a theorem below: the exact condition, or a concrete run.

1. The scan floor is documented to skip nothing (`backend/app/database.py:3118-3120`). When every
   candidate the LIMIT let in was decided, the floor goes right below the agent's lowest row that is
   not due, past due rows the LIMIT had left out. `ScanFloor.FloorSkipsNothingIff` says exactly when;
   `StoreWitnesses.FloorRunsPastARow` is a run of three rows; `ScanFloor.RunPastForGood` says such a
   row is in no later scan. It cannot happen when nothing is in flight and the batch limit covers the
   candidates, or when every row is due.
2. A summary can leave out rows of its bucket. `_PRUNE_BUCKET_SQL` (`backend/app/database.py:3411-3427`)
   asks whether coverage names the bucket, and a row nobody has decided has none. Once the bucket row
   is pruned, the next generation averages what is left. The ingest clamp and a forward-moving clock do
   not prevent it (`StoreRetirement.LateRowAveragedAlone`). A summary is complete exactly when its
   bucket row was never pruned (`StoreRuns.CompleteUnlessRetired`), and always in runs in which no
   bucket row is pruned under a raw row (`StoreRetirement.TidyRunsAreComplete`). What holds without any
   assumption is that a summary averages every row of the bucket's present life
   (`StoreRuns.PublishedIsOneShot`).
3. The comment on the `except` of `_agg_add` (`backend/app/database.py:3209-3216`) says a malformed
   snapshot cannot abort the fold. `float("text")` raises ValueError, and adding an integer that no float
   holds raises OverflowError, in the host-wide half too; neither is in the tuple.
   `Averaging.FoldRaisesIff` says exactly which batches raise, field by field over both halves, and
   `StoreWitnesses.BadRowStopsForGood` shows one such row stopping aggregation for every agent.
4. The running fold is saved as JSON between two batches (`backend/app/database.py:2995-3007`), which
   turns every key into a text. A container named 5 is then looked up as 5, not found under "5", and
   listed twice in the summary (`StoreSplits.NumberedNamesSplit`). Batching is harmless exactly when
   everything that was ever saved is under texts (`Batches.BatchingIsHarmlessIff`); the host-wide means
   are right in any case (`Batches.BatchedSummaryIsMean`).
5. Restart policies can be left pinned with no way back. `fence` does not consult the release record, so
   a second fence after a release from PREPARED alone pins what no release will restore
   (`FenceClaims.SecondFenceStrands`); a claim file created and never written blocks every release
   (`FenceRestores.TornClaimStrands`); and a policy that counts retries it does not use is not restored
   as it was (`FenceRestores.OddPolicyIsLost`) and stops every restore before what comes after it.
   `FenceRestores.CanReleaseIff` and
   `FenceRestores.PoliciesReturnIff` say exactly when there is a way back.
6. `_finish` suppresses a failing rewrite of the live claim (`backend/app/wal_fence.py:2319-2387`). Then
   a `begin_apply` already past its checks takes the claim to APPLYING although it was recorded as failed
   and the fence released (`FenceClaims.BeginCanFollowFailure`); `FenceClaims.BeginReturnsIff` says that
   this happens exactly when that rewrite failed.
7. In `rehearse_wal_recovery` the report is built after the authority was accepted and outside the
   handler that ends it (`backend/app/wal_recovery.py:1041-1050`), and the handler itself puts the
   failure into words before it closes the authority out (`backend/app/wal_recovery.py:1071`). An
   accepted authority is sent exactly one outcome when the arguments can be rendered and nothing raised
   in the run is without a text (`Recovery.Run.Rehearse`). Otherwise the claim can stay live: always
   when the arguments cannot be rendered, and when the exception that reaches the handler before
   anything was sent cannot; and when what the authority itself raised cannot, it is closed out twice
   (`backend/app/wal_recovery.py:1577`).
8. A body that swallows the error of a statement with which SQLite rolled the transaction back goes on
   without one: what it wrote before is lost, what it writes afterwards is durable at once, and the
   COMMIT succeeds over nothing (`DbBoundary.CutOffBody`). `DbBoundary.Database.WriteTransaction`
   accounts for it, and for a body that swallows nothing it is all or nothing.

## Model

| member | source | states |
|---|---|---|
| StoreRuns.NoSampleLost | backend/app/database.py:3359-3520 | In every reachable state and at each resolution, a row ever stored above the cutover is still raw, or is one of the rows averaged into the live summary of its own bucket, or some cleanup already ran with a clock more than seven days past that bucket |
| StoreRuns.PublishedIsOneShot | backend/app/database.py:2883-3032 | For any batch limits and any interleaving of inserts, both resolutions and cleanups, a published summary averages every row stored in the bucket's present life up to its published generation, in (timestamp, id) order, in batches whose record is saved and read back in between; and it is the one-shot average of those rows if what was saved had its containers under texts |
| StoreRuns.CompleteUnlessRetired | backend/app/database.py:3411-3427 | That generation is every row ever stored in the bucket above the cutover if and only if the bucket's provenance row was never pruned |
| StoreRuns.LostRowSeals | backend/app/database.py:3429-3440 | A bucket that lost a row of its present life is SEALED and has no generation in flight |
| StoreRuns.SealedAbsorbs | backend/app/database.py:2948-2953 | Although publication upserts OPEN, no step re-opens a SEALED bucket or rewrites its summary; it can only be pruned, summary first, past the seven days |
| StoreRuns.ProofSurvives | backend/app/database.py:3398-3409 | A folded row at or below its bucket's published generation keeps the summary and the bucket row its deletion proof needs, unless a generation is in flight |
| StoreRuns.DeletableIsAveraged | backend/app/database.py:3359-3392 | A row a cleanup may delete is averaged into the live summary of its own bucket, at both resolutions |
| StoreRuns.CoverageNeverOutlives | backend/app/database.py:3442 | Coverage is dropped together with the raw row it covers |
| StoreRuns.RunKeeps | backend/app/database.py:2883-3520 | The invariant of tables and history holds in every state of every run |
| StoreRetirement.TidyRunsAreComplete | backend/app/database.py:3411-3520 | With clamped timestamps, a non-decreasing clock and no bucket row pruned under a raw row of its bucket, every live summary averages every row ever stored in its bucket above the cutover (in batches; at once when what was saved was under texts) |
| StoreRetirement.LateRowAveragedAlone | backend/app/database.py:3411-3427 | Clamp and clock alone are not enough: a reachable state whose live summary is not the average of the rows stored in its bucket |
| StoreSplits.NumberedNamesSplit | backend/app/database.py:2995-3007 | A reachable state, by clamp and clock, whose summary is of every row stored in its bucket and is still not their average: a container named 5 was saved under the text "5" and listed twice |
| Batches.BatchingIsHarmlessIff | backend/app/database.py:2974-3032 | For every sequence of snapshots that folds: every way of cutting it into saved and resumed batches ends in the one-shot record if and only if that record before the last snapshot has every container under a text |
| Batches.ReloadChangesNothingIff | backend/app/database.py:2968-2974 | Writing a record to JSON and reading it back changes nothing if and only if all its containers are under texts |
| Batches.TextIsOneShot | backend/app/database.py:2974-3032 | A summary made in any batches is the one-shot average when what was saved was under texts |
| Batches.TextNamesSave | backend/app/database.py:3234-3245 | It is enough that the containers of every snapshot but the last have texts for names |
| Batches.BatchedSummaryIsMean | backend/app/database.py:3292-3351 | Whatever the batches and the names, a summary's CPU, memory and disk figures are the sum of all the readings over their number |
| StoreTransactions.AdvanceKeeps | backend/app/database.py:2883-3032 | Advancing any bucket by any positive budget keeps the invariant, and uses some of the budget whenever there is something to do |
| StoreTransactions.DownsampleKeeps | backend/app/database.py:3035-3147 | A whole call keeps the invariant; it changes nothing at the other resolution, no raw row and no sealed bucket |
| StoreTransactions.FloorsExact | backend/app/database.py:3118-3145 | The raised floors leave every undecided row above them exactly when no agent's floor ran past a due row outside the candidate window |
| StoreCleanup.CleanupKeeps | backend/app/database.py:3461-3520 | A cleanup with any clock, age, limit and any choice the unordered LIMITs allow keeps the invariant |
| StoreCleanup.StoreKeeps | backend/app/database.py:2681-2687 | A stored row, however old its timestamp, keeps every published average and every generation in flight exact |
| StoreReclaims.CleanupReclaims | backend/app/database.py:3387-3392 | Of the tables before and after a cleanup: a row goes only if it is older than the asked age, above the cutover, and at both resolutions folded behind a published generation with a live summary in a settled bucket; the lowest such ids go first, up to the limit, and when fewer went no such row is left; each takes its coverage with it and nothing else goes |
| StoreReclaims.CleanupSeals | backend/app/database.py:3429-3440 | A cleanup seals a bucket if and only if one of its own rows goes, and moves no published generation |
| StoreReclaims.CleanupPrunesSummaries | backend/app/database.py:3398-3409 | A summary goes only if its bucket is more than seven days old and no folded coverage left and no generation in flight names it; up to the limit, and when fewer went no such summary is left |
| StoreReclaims.CleanupPrunesBuckets | backend/app/database.py:3411-3427 | And so with bucket rows, once summary, coverage and generation are gone |
| StorePublishes.DueIffClosed | backend/app/database.py:3062-3063 | A row is due exactly when its bucket has closed |
| StorePublishes.OnlyClosedAreTouched | backend/app/database.py:3073-3116 | A downsampling call leaves a bucket as it is until it has closed, but to finish a generation in flight there |
| StorePublishes.DownsampleCounts | backend/app/database.py:3035-3147 | What the call returns is the number of buckets it published a new summary for, all at its own resolution |
| CatchUp.AdvanceOwes | backend/app/database.py:2883-3032 | Advancing a bucket lowers the rows owed by exactly the rows used |
| CatchUp.DownsampleOwes | backend/app/database.py:3035-3147 | Each call uses at most its batch limit and lowers the potential (rows left in flight, whole buckets needing a generation, undecided rows of unprovable buckets) by exactly the rows it used |
| CatchUp.SettledWhenNothingOwed | backend/app/database.py:3035-3147 | The potential is zero if and only if every due row above the cutover is PENDING or behind a published generation and nothing is in flight |
| CatchUp.NeverStalls | backend/app/database.py:3090-3115 | While the floor skips nothing, a call with something owed uses some of its budget or raises |
| ScanFloor.FloorSkipsNothingIff | backend/app/database.py:3118-3145 | After a call the floor skips nothing if and only if it ran past no due, undecided row that the LIMIT had left out of the window |
| ScanFloor.LargeBatchSkipsNothing | backend/app/database.py:3090-3145 | With nothing in flight and a batch limit covering the candidates, the floor skips nothing |
| ScanFloor.QuietNeverOverruns | backend/app/database.py:3118-3145 | With every row of the agents due, the floor cannot run past anything |
| ScanFloor.CompleteScanNeverOverruns | backend/app/database.py:3090-3145 | A candidate scan its LIMIT did not cut short leaves no row to run past |
| ScanFloor.RunPastForGood | backend/app/database.py:3090-3102 | A row behind the floor stays behind it through every later call, at any clock, and is in no candidate scan |
| ScanFloor.CatchesUp | backend/app/database.py:3035-3147 | From any state whose floor has skipped nothing, at a fixed clock, at most as many calls as there are rows owed come to a point where everything is settled, or the next call raises, or its floor runs past a row |
| ScanFloor.QuietCatchesUp | backend/app/database.py:3035-3147 | With every row due the third end is out: the calls settle everything unless one raises |
| StoreWitnesses.FloorRunsPastARow | backend/app/database.py:3118-3145 | Three stored rows and a batch limit of one: a reachable state in which a due, undecided row is behind the floor |
| StoreWitnesses.OneBadRowStopsEveryAgent | backend/app/database.py:3209-3229 | A stored snapshot no fold can start with makes the call raise and change nothing, whatever the limit and the clock |
| StoreWitnesses.BadRowStopsForGood | backend/app/database.py:3209-3229 | However many calls follow, nothing is written for any agent |
| StoreWitnesses.BothAreBad | backend/app/database.py:3200-3231 | A text in a numeric container field is such a snapshot, and an integer no float holds among the host-wide figures is another |
| StoreModel.RangeIsBucket | backend/app/database.py:2924-2926 | The SQL range over an aligned bucket finds exactly the rows whose own bucket it is |
| StoreModel.BucketStart | backend/app/database.py:3107 | A timestamp lies in the aligned bucket computed for it, negative ones included |
| StoreModel.BucketsOf | backend/app/database.py:3104-3109 | Every candidate's bucket is grouped, and every group has a candidate |
| StoreInvariant.FoldResumes | backend/app/database.py:2974-2990 | Folding a generation in two bounded calls is folding it at once, when the second part comes later in averaging order |
| StoreSteps.FoldBatchKeeps | backend/app/database.py:2962-3032 | Folding the next batch of a live generation keeps the invariant, up to and through its publication |
| Store.BucketsByLowestId | backend/app/database.py:3111 | Groups in order of first appearance are already in order of their lowest id: the sort changes nothing |
| Store.ReclaimChunks | backend/app/database.py:3492-3512 | Deleting the doomed rows chunk by chunk, sealing first each time, is deleting them at once |
| Store.MetricStore.MarkPending | backend/app/database.py:2860-2880 | The method's new coverage is that of the transaction function: the lowest undecided ids of the bucket, up to the budget, become PENDING |
| Store.MetricStore.FoldRows | backend/app/database.py:2980-2990 | The loop folds the rows in order, covers each and moves the cursor behind it; an exception is an undefined fold |
| Store.MetricStore.FoldBatch | backend/app/database.py:2974-3032 | Fold, cursor, publication and provenance on the mutable tables are those of the transaction function |
| Store.MetricStore.AdvanceBucket | backend/app/database.py:2883-3032 | Resuming, skipping, marking or starting a generation, decided and done as the transaction function says |
| Store.MetricStore.AdvanceEach | backend/app/database.py:3071-3116 | Bucket after bucket until the budget is spent or one raises, visiting each once |
| Store.MetricStore.SettledIds | backend/app/database.py:3150-3166 | The ids looked up in chunks of 400 are exactly the ids with coverage |
| Store.MetricStore.RaiseFloors | backend/app/database.py:3118-3145 | Agent by agent, the floors become those of the transaction function, and no other agent's floor moves |
| Store.MetricStore.DownsampleOnce | backend/app/database.py:3058-3147 | One transaction: summaries, coverage, cursors and floors are those of the specification, or all as they were when something raised |
| Store.MetricStore.DownsampleMetrics | backend/app/database.py:3035-3147 | A label and a width that do not belong together change nothing; otherwise the call does what its specification says and keeps the invariant |
| Store.MetricStore.Seal | backend/app/database.py:3435-3440 | Exactly the open buckets looked up become SEALED |
| Store.MetricStore.ReclaimAll | backend/app/database.py:3492-3512 | The chunked deletion leaves the tables of the one-shot deletion |
| Store.MetricStore.CleanupOldMetrics | backend/app/database.py:3461-3520 | The whole cleanup on the mutable tables, chunk by chunk, leaves the tables its specification allows, counts what it deleted and keeps the invariant; what the specification takes and spares is StoreReclaims |
| Store.MetricStore.StoreMetric | backend/app/database.py:2681-2687 | A stored row gets the next id and changes nothing else |
| Averaging.FoldRaisesIff | backend/app/database.py:3185-3231 | A fold raises if and only if in one of its two halves, unless that is latched already, the first fault over all the snapshots, field by field, is a value no float can be made of; any other first fault latches |
| Averaging.ContainersEscapeIff | backend/app/database.py:3234-3289 | Reading a list of containers escapes if and only if its first fault, field by field, is a text that is no float or an integer that no float holds; nan, inf and every other malformed shape do not |
| Averaging.HostEscapesIff | backend/app/database.py:3192-3215 | Adding the host-wide readings of a snapshot escapes if and only if their first fault, cores and devices included, is an integer that no float holds, whatever they are added to |
| Averaging.PoisonRaises | backend/app/database.py:3209-3231 | A text for a container's CPU share raises whatever was folded before it, unless the container latch was already set |
| Averaging.OversizedRaises | backend/app/database.py:3200-3225 | An integer of 309 digits as the host's CPU share raises unless the host-wide latch was already set, with every container readable |
| Averaging.MergedIsTallied | backend/app/database.py:3234-3289 | Merging interleaved containers gives one entry per name, in order of first appearance, equal to tallying that name's readings alone |
| Averaging.TallyIsSums | backend/app/database.py:3262-3289 | A tally holds the sums over all readings of a container, and GPU sums only over the readings that were positive, each with its own divisor |
| Averaging.ContainersAreTallied | backend/app/database.py:3234-3289 | The containers of a one-shot fold are one per name, each the tally of its own readings over the whole bucket |
| Averaging.FoldSums | backend/app/database.py:3185-3208 | Without a host-wide failure the count and sums are those of all the readings, and the template is the first snapshot |
| Averaging.SummaryIsMean | backend/app/database.py:3292-3351 | A one-shot average's CPU, memory and disk figures are the sum of all readings over their number |
| Summaries.ContainersAreListed | backend/app/database.py:3321-3341 | A one-shot summary lists one container per name in order of first appearance: CPU share and memory are the sums of that name's readings over their number, GPU figures the sums over their own divisors, and id, image, status, state, ports and limit are the latest ones |
| Summaries.CoresAreMeans | backend/app/database.py:3305-3308 | However it was batched, each core of a summary is the sum of all the readings of that core over the number of snapshots |
| Summaries.DevicesAreMeans | backend/app/database.py:3310-3315 | However it was batched, each averaged field of a device is the mean over the snapshots that report the device, zero when none does; its other fields are those of the first snapshot, without its processes |
| Summaries.RestIsFirst | backend/app/database.py:3297-3348 | What else a summary says is what the first snapshot says, without processes and network |
| Summaries.LatchedIsFirst | backend/app/database.py:3300-3348 | Once the host-wide half has failed the summary is the first snapshot without processes and network |
| Summaries.LatchedContainersAreFirst | backend/app/database.py:3317-3341 | Once only the containers have failed, the summary has those of the first snapshot |
| Summaries.UnsectionedIsCutShort | backend/app/database.py:3300-3344 | A first snapshot without one of the three sections ends the averaging there: the figures before it are means, and all the rest, devices and containers included, is as that snapshot has it |
| Accumulators.AlikeStays | backend/app/database.py:3191-3231 | What a latched half left half-updated changes no later step |
| Accumulators.AlikeFinalizes | backend/app/database.py:3292-3348 | Nor does it show in the summary |
| Accumulators.AlikeFolds | backend/app/database.py:3185-3231 | Two records that differ only in latched halves stay so over any further snapshots, and raise together |
| Accumulators.Accumulator.Add | backend/app/database.py:3185-3231 | Updating the record in place is the fold step, up to what a half that just failed had already changed; it escapes exactly when the step is undefined |
| Accumulators.Accumulator.AddContainers | backend/app/database.py:3234-3289 | The in-place loop over containers ends as the fold over them does: done, contained or escaping |
| Accumulators.Average | backend/app/database.py:3351-3356 | Averaging on the mutable record equals the one-shot average, of which Summaries says every figure |
| PublicGraph.Scrubbed | backend/app/database.py:543-627 | Terminates on every finite graph, cyclic or not; the result lies in a set of public exceptions no link leaves; display flags, private exceptions' own links and links between public exceptions are as before; and every link of every exception handed out is accounted for: it leads to what its own link stands for, or to what the private exception it replaced led to, or, in a free context, to the second branch of a private exception; a private exception gave way to its stand-in if that was new, else to the first of its branches that says something else |
| PublicGraph.NothingIsBlanked | backend/app/database.py:556-571 | Where a link led to something public or to a cancellation with an error, it still leads somewhere, unless its owner is the only thing left to lead to and stands for a private exception |
| PublicGraph.WorkerErrorsAreKept | backend/app/database.py:573-601 | The error a cancellation carried is among the exceptions handed out, wherever in the graph the cancellation was |
| PublicGraph.CarriedIsPromoted | backend/app/database.py:581-601 | An exception that took a private one's place leads where that one led, as far as its own link was free; only a context can have been filled by a second branch before |
| PublicLinks.ChainsStayPublic | backend/app/database.py:543-627 | No chain of links from such a set meets a private classification |
| PublicLinks.Exc.Relink | backend/app/database.py:522-540 | A link is repointed without changing the other link or what is displayed |
| PublicGraph.Reaches | backend/app/database.py:695-707 | True comes with a chain of links, false with a closed set of visited exceptions that misses the target |
| PublicGraph.CarryRaisedFrom | backend/app/database.py:710-742 | The slot one link below the stand-in is filled when it is free and no chain leads from what would be hung there back to it; nothing else changes, and every loop there is afterwards was there before |
| PublicGraph.PublicReason | backend/app/database.py:473-506 | A private exception is stood in for by the public one at the end of its worker-error chain, or by a new one with no links |
| PublicGraph.AsPublic | backend/app/database.py:630-656 | A public exception is handed back; a private one gets a public stand-in whose cause, if it owes one, is another public exception, its worker's error where there is one |
| PublicGraph.PublicForm | backend/app/database.py:745-771 | Whatever private classification comes in, what is raised is public and so is everything reachable from it; a cancellation keeps its worker's error as the cause and hangs what it was raised from under that, unless the slot is taken or a chain of links leads back; any other stand-in keeps the public exception it was raised from, and each the public context it had |
| DbBoundary.CancellationSurvives | backend/app/database.py:252-262 | A cancellation absorbed anywhere on the way is what the caller sees at the end |
| DbBoundary.ReclassifyIs | backend/app/database.py:1852-1891 | A cancellation outranks a stuck abort and any error; a plain error comes out only when nothing else happened |
| DbBoundary.Database.Submit | backend/app/database.py:1109-1168 | An ending that is not terminal latches the fail-stop and registers the submission; a terminal one did what it says to the connection |
| DbBoundary.Database.CleanupCursors | backend/app/database.py:1600-1632 | Afterwards no cursor is open, or a problem is on the outcome that will latch |
| DbBoundary.Database.ForceClose | backend/app/database.py:1649-1712 | Afterwards no transaction is open, or a problem is recorded; a state that cannot be read is never called closed |
| DbBoundary.Database.CommitTransaction | backend/app/database.py:1715-1807 | Returning means all of it is durable; an ordinary error means none of it and no new fail-stop; never anything in between, unless a COMMIT or statement may still land, which has the fail-stop latched; when every answer is done and nobody is cancelled it returns |
| DbBoundary.Database.AbortTransaction | backend/app/database.py:1825-1849 | Nothing kept becomes durable, and the transaction is over or the fail-stop latched; a fail-stop is only newly latched by an abort that is stuck |
| DbBoundary.Database.RunStatement | backend/app/database.py:1529-1577 | A statement's cursor is released before its caller hears of it, and what the caller hears is public |
| DbBoundary.Database.RunBody | backend/app/database.py:1917-1977 | A body may stop at the first error or swallow errors and go on, and raise an error or be cancelled on its own: the tally says exactly which writes are still open, which are already durable because SQLite had rolled the transaction back; a cancellation comes out unless the body swallowed one, and no fail-stop is latched unless it swallowed that |
| DbBoundary.CutOffBody | backend/app/database.py:1917-1977 | Answers a worker may give to a body that swallows an error with which SQLite rolled back: its earlier write is lost, its later one durable, the COMMIT succeeds and nothing is left open |
| DbBoundary.Database.WriteTransaction | backend/app/database.py:1917-1977 | For every combination of worker answers and cancellations and every body, swallowing ones included: the lock is freed with nothing open or with the fail-stop latched, nothing is admitted once it is; a cancellation comes out unless the body swallowed one; returning means everything kept is durable, an ordinary error none of it; of a body that swallowed nothing that is the whole body. Admitted, with every worker answer done and no cancellation: it ends in the body's own error and nothing else, and without one all the body wrote is durable |
| DbBoundary.Database.ReadAll | backend/app/database.py:1980-2018 | The read counterpart: cursor closed or fail-stop latched, nothing written, a cancellation never replaced; admitted, with every answer done and no cancellation, it raises nothing |
| DbShutdown.Registry.Adjudicate | backend/app/database.py:913-966 | An entry leaves the registry only once its outcome can be read, and what it handed back moves to the late results; none stays when every worker answers |
| DbShutdown.Registry.DisposeLate | backend/app/database.py:969-1041 | A late resource is confirmed closed or stays on a registry, and what stays latches the fail-stop |
| DbShutdown.Registry.CloseDb | backend/app/database.py:2078-2224 | CLOSED means every registry is empty, everything a worker ever handed back is confirmed closed and no worker thread runs; every way out leaves the database closed; before its deadline the verdict is CLOSED exactly when all is accounted for, and so it is when the workers answer and close what they are told to |
| Fence.FormatRoundTrips | backend/app/wal_fence.py:1700-1705 | A policy survives being written down and applied if and only if it counts no retries it does not use |
| Fence.ReleaseRestores | backend/app/wal_fence.py:2798-2833 | However many fence attempts died or refused and wherever, a release that succeeds leaves every scoped container on the policy it had before the first, and no other container was touched |
| Fence.ReleaseStarts | backend/app/wal_fence.py:2834-2851 | In every run, after a release that succeeds the scoped containers that run are exactly those still running and, if it was to start any, those that ran before the first fence attempt or that it was told to start |
| FenceClaims.ClaimIsOneShot | backend/app/wal_fence.py:2442-2545 | At most one claim id is issued, a claim is rewritten to APPLYING at most once, and COMPLETED is recorded only after it was, for that claim |
| FenceClaims.FirstOutcomeStands | backend/app/wal_fence.py:2319-2387 | No step changes a recorded terminal outcome |
| FenceClaims.ClaimStands | backend/app/wal_fence.py:2442-2545 | A claim once created is never taken back and never becomes another |
| FenceClaims.ReleaseSparesLiveClaim | backend/app/wal_fence.py:2636-2687 | In every run the only step that lets a container go is a release, and then no claim was ever created or the terminal record of that very claim, lease and manifest is there |
| FenceClaims.LiveClaimHolds | backend/app/wal_fence.py:2715-2796 | While a claim is live, what is pinned and stopped stays so through every step of every process |
| FenceClaims.BeginReturnsIff | backend/app/wal_fence.py:2118-2157 | In every run, begin_apply past its exclusive create takes the claim to APPLYING, and so may return, if and only if no outcome was recorded whose rewrite of the live claim went through; so it does on a finished claim exactly when the step that recorded the outcome failed to rewrite it |
| FenceClaims.BeginReturnsActive | backend/app/wal_fence.py:2118-2157 | If the rewrite of the live claim never fails, begin_apply takes the claim to APPLYING only while it is unfinished and the fence not released |
| FenceClaims.BeginCanFollowFailure | backend/app/wal_fence.py:2319-2387 | If it may fail, begin_apply can take the claim to APPLYING after it was recorded FAILED and the fence released |
| FenceClaims.SecondFenceStrands | backend/app/wal_fence.py:1911-1921 | A second fence after a release from PREPARED alone leaves a container on policy no in every continuation |
| FenceRestores.CanReleaseIff | backend/app/wal_fence.py:2636-2833 | From every reachable state with PREPARED written, some continuation releases the fence if and only if none has yet, no claim file is torn and every scoped policy counts no retries it does not use |
| FenceRestores.PoliciesReturnIff | backend/app/wal_fence.py:2798-2833 | From every reachable state with PREPARED written, some continuation has every scoped container back on its first policy if and only if they all are already; or no release got through yet, no claim file is torn, and each one is back or comes in PREPARED before the first policy that does not survive being written down |
| FenceRestores.ReleaseSucceedsIff | backend/app/wal_fence.py:2690-2875 | In every run a release gets through if and only if its questions are answered, every scoped policy survives being written down, and the daemon does one command per scoped container and one per container to start |
| FenceRestores.TornClaimStrands | backend/app/wal_fence.py:2480-2545 | A process that dies between the exclusive create of the claim file and its write leaves the containers on policy no in every continuation |
| FenceRestores.BlockedForGood | backend/app/wal_fence.py:2636-2687 | Once a release got through or a claim file is torn, a container not on its first policy never changes policy again |
| FenceRestores.OddPolicyIsLost | backend/app/wal_fence.py:1700-1705 | A policy that does not survive being written down is not restored by any step once it was changed |
| FenceHost.HostFence.RestorePolicies | backend/app/wal_fence.py:2798-2833 | The loop over the entries leaves the host the specification of a restore says, and says whether it got through |
| FenceHost.HostFence.PinScope | backend/app/wal_fence.py:1924-1939 | The pinning loop on the mutable host is a run of pin steps that ends at the first container that cannot be confirmed |
| FenceHost.HostFence.StopScope | backend/app/wal_fence.py:1941-1969 | The stopping loop is a run of stop steps that ends at the first container not seen stopped |
| FenceHost.HostFence.QuiesceScope | backend/app/wal_fence.py:1921-1970 | Pinning and stopping the scope is a run of the fence's own pin and stop steps; true means every scoped container was seen pinned and stopped; nothing outside the scope changes and nothing is started; and it is true when every scoped container is there and every command does what it is asked and is seen to |
| FenceHost.HostFence.ReleaseFence | backend/app/wal_fence.py:2690-2875 | The release on the mutable records and host is the release step of the runs, and true exactly when it wrote the release record |
| FenceHost.HostFence.CreateClaimFile | backend/app/wal_fence.py:2480-2545 | The exclusive create has one winner, and the winner's capability names the claim on disk |
| FenceHost.HostFence.CreateApplyMarker | backend/app/wal_fence.py:2118-2157 | The exclusive create of the apply marker, past the checks of begin_apply, has one winner |
| FenceHost.HostFence.RewriteApplying | backend/app/wal_fence.py:2145-2157 | The claim goes to APPLYING exactly when its record still said CLAIMED, as the step of the runs |
| FenceHost.HostFence.FinishClaim | backend/app/wal_fence.py:2319-2387 | Success means exactly that the claim on disk is the caller's and the outcome asked for is the one on record; an outcome already there is kept |
| Recovery.Run.Rehearse | backend/app/wal_recovery.py:1011-1076 | Wherever a step raises: an accepted authority is sent exactly one complete or fail when the arguments can be rendered and nothing raised is without a text, none when they cannot, and the contract names exactly when it is none or two otherwise; complete only after the source read back as the copy did; and once the source was opened for writing a power loss still leaves the database and log as first recorded. When nothing raises, nobody else writes and the checks are met, an accepted authority over a database with something in its log is completed |
| Recovery.Run.RunRehearsal | backend/app/wal_recovery.py:1118-1320 | Returning normally means the claim was completed over a source that was written; any raise leaves the same safety, and the authority is sent at most one outcome; it does return normally when nothing raises, nobody else writes and the checks are met |
| Recovery.Run.OpenSource | backend/app/wal_recovery.py:1449-1450 | The source is opened for writing only over a durable identical backup, a verified checkpointed copy, a matching grant and claim, and an APPLYING record read back from disk; on a quiesced host these are then still the files first recorded, byte for byte (the log's device excepted, which nothing compares with the record) |
| Recovery.Run.ApplyToSource | backend/app/wal_recovery.py:1409-1490 | Returns normally only if the source was checkpointed and reads back as the baseline; it cannot touch the backup |
| Recovery.Run.RehearseOnCopy | backend/app/wal_recovery.py:1212-1285 | Past it the sentinel was shown to be in the log alone, and the disposable copy was checkpointed and reads back as it did before |
| Recovery.Run.Ask | backend/app/wal_recovery.py:1287-1297 | Past it the source was unchanged, the grant fits this very file and the claim record on disk is the one the grant came from |
| Recovery.Run.TakeSnapshot | backend/app/wal_recovery.py:1186-1210 | Whatever bytes the copy read, past this step a power loss leaves the database and log exactly as recorded |
| Recovery.Run.SpendClaim | backend/app/wal_recovery.py:1553-1594 | The authority is closed out once; a second call does nothing, a problem on the failure path is only recorded, and one without a text leaves nothing noted |
| KeyInstall.CommittedKeyIsDurable | backend/app/account_state_transfer.py:881-902 | At every power-loss point of every sequence of restore attempts, over a secret.key that was ever flushed or not, committed rows imply secret.key durably holds that bundle's key |
| KeyInstall.KeyIsNeverTorn | backend/app/account_state_transfer.py:582-608 | From a first file that has reached the disk: whatever a power loss leaves under the name is that file, whole, or the whole key of some bundle a restore tried to install |
| KeyInstall.Target.Reconfirm | backend/app/account_state_transfer.py:734-755 | Same bytes found, flushed before or not, are made durable, file and name, exactly when both flushes succeed; every call it makes is a step of the runs |
| KeyInstall.Target.WritePrivateFile | backend/app/account_state_transfer.py:582-608 | It succeeds exactly when all five calls do and no stale temporary file is in the way, and then the file and its name are durable; failing at any call never leaves half a key, an earlier rename not yet flushed included; every call it makes is a step of the runs |
| KeyInstall.Target.InstallSecretKey | backend/app/account_state_transfer.py:758-772 | True exactly when the calls that are needed succeed, two over the same bytes and five without a stale temporary file otherwise, and then the key, its file and its name are on the disk; nothing is torn on any other way out; a run of the steps |
| KeyInstall.Target.CommitWithKey | backend/app/account_state_transfer.py:858-902 | The rows are committed exactly when the key was installed and the COMMIT succeeds, so only over a durable key; the whole attempt is a run of the steps, so the theorems about runs hold of it |
| Terminals.SignalsAreSafe | agent/agent/terminal.py:23-96 | However spawns, exits, both reapers, kills, grace periods and recycled pids interleave, every signal goes to a child of the session that sent it that nobody has reaped |
| Terminals.SignalsHitTheirChild | agent/agent/terminal.py:58-76 | With one spawn per session every SIGTERM and SIGKILL hits the very child it was meant for |
| Terminals.LivePidIsOwn | agent/agent/terminal.py:119-134 | A session's pid is an unreaped child of its own, the last it forked, and the session owns it |
| Terminals.EveryChildIsOwned | agent/agent/terminal.py:23-55 | As long as signalling is never refused and the loop runs, the owners are exactly the unreaped children |
| Terminals.GraceRunsOut | agent/agent/terminal.py:58-76 | An escalation sends its SIGKILL after exactly its thirty turns and not before, if the child is still its session's |
| Terminals.KillSignals | agent/agent/terminal.py:58-76 | What ending a session signals: SIGTERM first, to its own live child; SIGKILL at once without a loop, after exactly the grace with one if nobody else interferes, and not at all when the SIGTERM was refused |
| Terminals.TermComesFirst | agent/agent/terminal.py:224-242 | In every run a SIGKILL comes only after a SIGTERM of the same session, to the same pid, meant for the same child |
| Terminals.SecondSpawnIsHit | agent/agent/terminal.py:58-76 | Why one spawn per session is assumed, as the handler has it: without it an escalation could hit the session's second child |
| TerminalAgent.Agent.Spawn | agent/agent/terminal.py:136-194 | Registering a forked child on the mutable books is the spawn step of the runs |
| TerminalAgent.Agent.ChildExits | agent/agent/terminal.py:32-55 | An exit leaves a zombie for either reaper and changes no session's books |
| TerminalAgent.Agent.IsAlive | agent/agent/terminal.py:119-134 | Reaping, clearing and forgetting on the mutable books is the step of the runs, and the answer is whether the session still has a child |
| TerminalAgent.Agent.ReapOrphans | agent/agent/terminal.py:32-55 | The loop reaps every exited child and tells each owner |
| TerminalAgent.Agent.EndSession | agent/agent/terminal.py:224-242 | SIGTERM, closing the terminal and scheduling the escalation are the kill step of the runs |
| TerminalAgent.Agent.TickEscalation | agent/agent/terminal.py:58-76 | One turn of the grace loop on the mutable books is the tick step of the runs |
| NetAudit.LogReplays | agent/agent/collectors/net_audit.py:265-325 | Over any sequence of good and failed snapshots with the cap not hit, the log opens nothing twice, closes only what is open, as what it was opened and with the right duration, and replays to exactly the last good connection set |
| NetAudit.DiffReplays | agent/agent/collectors/net_audit.py:279-301 | The events between two good snapshots replay the one set into the other, owners and states included |
| NetAudit.OpensTellRows | agent/agent/collectors/net_audit.py:279-325 | Whatever the cap, every open in the log carries the time of a snapshot and the state, pid and process of that connection's last row in it |
| NetAudit.OpenTellsRow | agent/agent/collectors/net_audit.py:279-301 | Between two snapshots, what is opened was not in the earlier one, and is told as its last row in the later one has it |
| NetAudit.ClosesFirst | agent/agent/collectors/net_audit.py:301-311 | At the cap it is opens that are dropped first, and what is dropped is counted |
| NetAudit.RollupsAddUp | agent/agent/collectors/net_audit.py:327-373 | For non-decreasing counters an interface's rollups sum to at most last minus first, and to exactly that when it is in every table read and no bucket was discarded |
| NetAudit.QuietRunsDiscardNothing | agent/agent/collectors/net_audit.py:327-373 | A bucket is discarded only if an outage crossed a minute |
| NetAudit.PeersAreDistinctConnections | agent/agent/collectors/net_audit.py:327-373 | A rollup counts for each peer the distinct connections seen in its bucket, those still open from earlier included |
| NetAudit.NetAuditCollector.Compare | agent/agent/collectors/net_audit.py:279-301 | The in-place update of the previous set and its events are those of the diff |
| NetAudit.NetAuditCollector.MaybeRollup | agent/agent/collectors/net_audit.py:327-373 | The in-place flush of a bucket is that of the runs |
| NetAudit.NetAuditCollector.Collect | agent/agent/collectors/net_audit.py:265-317 | One turn of the collector on its mutable fields is one step of the runs |

## Left out

- `init_db` migrations from older table shapes: runs start from freshly installed coverage tracking with the cutover as it then is.
- Floating-point rounding: finite sums and means are exact reals, however large. Recursion depth and memory are unlimited. A number as a dictionary key is written to at most 17 decimals, without an exponent; JSON's integers and decimals are one kind of number, so 5.0 is written as 5.
- SQL itself: a statement is what it selects or writes; COMMIT is atomic and durable, ROLLBACK restores every table, and an unordered LIMIT picks any rows.
- ScanFloor.FloorSkipsNothingIff: the promise that the floor never skips work is false of the code, so it is stated with its exact condition, on the tables and the candidate window of the call.
- StoreRetirement.TidyRunsAreComplete: complete summaries under clamp and clock alone are false of the code (StoreRetirement.LateRowAveragedAlone), so no bucket row may be pruned under a raw row; StoreRuns.CompleteUnlessRetired is the exact condition.
- ScanFloor.CatchesUp: a floor that runs past a row ends the count of calls, because that row is then never found again (ScanFloor.RunPastForGood); and nothing is stored between the calls.
- Reading the history back (range queries, container history) and the storage of the connection audit.
- Opening and configuring connections, journal-mode checks, the grouping of problems by incident and their wording, deadlines as wall-clock time (running out is a choice), the read-only check of statements, `init_db` under the lock.
- Asynchronous interrupts between two bytecodes: cancellation and interrupts arrive at the calls that can raise them, so a signal landing between a call's return and the assignment of its result is not modelled.
- PublicGraph.Scrubbed: worker-error chains are assumed acyclic (an exception's rank), as every constructor of a private classification makes them.
- The fence's preflight of mounts, inodes and holders, its descriptor probe and witness process, lease deadlines, acknowledgements and digests; a record is read back as it was written or refused.
- `release` and `_finish` against each other: the code takes no lock there, so each is a single step.
- FenceClaims.BeginReturnsActive: the rewrite of the live claim is assumed never to fail; FenceClaims.BeginReturnsIff has no such assumption.
- KeyInstall.KeyIsNeverTorn: the file that was there at first has to have reached the disk; nothing a restore does can make good a file that was never flushed before the restore looked at it.
- StoreRuns.PublishedIsOneShot: one-shot only when what was saved was under texts, because otherwise it is false of the code (StoreSplits.NumberedNamesSplit).
- Terminals.SignalsHitTheirChild: one spawn per session, as the terminal handler has it (`agent/agent/rpc/handlers.py:300-302`); Terminals.SecondSpawnIsHit shows what the assumption is for.
- The recovery's space plan, probes' SQL, argument checks and stage list; looking at the source's database and log is one observation. What the authority does to its own records is the fence's part of the model.
- Account transfer other than the key: the bundle's encoding and manifest, freshness checks of the target tables and autoincrement counters.
- The choice of shell and user in `spawn`, unexpected errors of waitpid other than no-such-child, `shutdown_reap`'s polling, reading and writing the terminal.
- Parsing of /proc tables, attribution of sockets to processes, the cut to the busiest peers and the rounding of durations in the connection audit.
- The REST and WebSocket handlers, authentication, mail, rate limiting, the metric collectors and the frontend.
