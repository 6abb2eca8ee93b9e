# Verification model of the format benchmark and its repository tools

This project models the stateful protocols and the data paths of the repository in Dafny
and proves what they promise.  Each cluster has a specification by functions and
predicates; the parts of the program that work by changing state are classes and
methods proved against it.

- **Review closeout** (`Closeout*.dfy`).  The sweep that turns open review threads into
  tracking issues is a client of a remote repository.  Each client call is a step before
  which the outside world may move and at which the run may be cut, with its effect landed
  or lost.  Safety holds over every history of sweeps; after any history of interrupted
  sweeps one uninterrupted sweep finishes the work and a further one changes nothing.
  `CloseoutConduct.dfy` says what every mutation is sent for, `CloseoutOutcome.dfy` what
  the two main results mean, and `CloseoutSuccess.dfy` what a returning run has done, all
  three by the comments' badges and links and the issues' labels alone.
- **Artifact digest** (`ArtifactFraming.dfy`, `ArtifactTree.dfy`, `ArtifactDigest.dfy`,
  `Ordering.dfy`).  The byte stream a directory is hashed by: a decoder that inverts it,
  equality of streams exactly for equal trees, and the two walkers giving one stream.
- **Audit synchronizer** (`AuditGraph.dfy`, `AuditPlan.dfy`, `AuditSync.dfy`).  The cycle
  check is exact; the planner and its apply loop converge within three rounds whichever
  responses are lost.
- **Bounded runner and evidence budget** (`OutputTails.dfy`, `ProcessRunner.dfy`,
  `EvidenceStore.dfy`).  Two output tails under one budget, the event loop with its two
  deadlines, and a store that cannot run over once a worker is launched.
- **NYC keyset capture** (`NycCapture.dfy`).  Pagination, the capture record and the
  consumer's publication, with a failure possible at every step outside the record's own
  writes.
- **Workload evaluators** (`Workloads.dfy`, `WorkloadScans.dfy`, `WorkloadSql.dfy`).  The
  row scan, the batch scan and the compiled SQL against the reference semantics, up to the
  order the evidence tolerates.
- **Equivalence evidence** (`Equivalence.dfy`, `SizeEvidence.dfy`, `EquivalenceCompare.dfy`,
  `Shards.dfy`).  Bootstrap order statistics over exact reals, the chain from a run's size
  observations to a storage verdict, and the merge of shards.
- **Atomic publication** (`AtomicJson.dfy`).  Every state a failing write can leave.

Where the code does less than its description suggests, the model follows the code and
the exact condition is proved:

- `SizeEvidence.RecordedNumbered`: the recorded attempt indices are 0 to k-1 unless a
  repeated encoding was measured and could then not be removed; the source then records
  its index twice, once measured and once failed.
- `WorkloadScans.AvroScan`: a filter on a column the table does not have gives no rows,
  where the reference raises; in every other case the two agree.
- `WorkloadScans.JsonlScan`: the same happens only when the reader yields no batch at all.
- `WorkloadSql.SqlAgreesExactly`: the SQL compiler projects a workload's columns whatever
  its kind, so it agrees with the reference exactly when a workload that is not a
  projection names no columns, or all of them in order.

## Model

| member | source | states |
|---|---|---|
| CloseoutClient.Sweeper.Get | tools/review_closeout.py:103-111 | one read is one step of the remote, at which the outside may move and the run may be cut |
| CloseoutClient.Sweeper.Mutate | tools/review_closeout.py:106-123 | one mutation is one step; a cut one may or may not have been performed |
| CloseoutClient.Sweeper.GetIssue | tools/review_closeout.py:317-327 | the targeted readback returns the issue only if it belongs to exactly this thread |
| CloseoutClient.Sweeper.GetThread | tools/review_closeout.py:174-193 | the thread readback, or the raised error |
| CloseoutClient.Sweeper.GetPending | tools/review_closeout.py:341-352 | readback of an issue that is open, classified and pending, under the URL expected |
| CloseoutClient.Sweeper.Retire | tools/review_closeout.py:499-510 | the lifecycle swap does what its specification says, call for call |
| CloseoutClient.Sweeper.Finish | tools/review_closeout.py:483-510 | reply, resolution and lifecycle swap follow the specification from any thread state |
| CloseoutClient.Sweeper.Close | tools/review_closeout.py:463-510 | one thread's closeout follows the specification, including a terminal issue left alone |
| CloseoutClient.Sweeper.CreateAndClose | tools/review_closeout.py:448-510 | the creation loop and then the closeout loop over the work, in order, to the first exception |
| CloseoutClient.Sweeper.IndexIssues | tools/review_closeout.py:279-314 | the loop over the listing builds the index of tracking issues or raises |
| CloseoutClient.Sweeper.Run | tools/review_closeout.py:410-513 | the whole run as statements equals the specified run: final remote, mutations sent, number of calls and result; what that run does is said without its functions by EveryMutationIsProper, RecoveryInWords and StatusMeans |
| CloseoutSafety.ApplyKeepsSafe | tools/review_closeout.py:448-510 | each mutation keeps the invariant when what the readbacks check holds on the remote it is performed on |
| CloseoutSafety.ReplyPhaseFollows | tools/review_closeout.py:483-491 | the reply phase sends only a permitted mutation, however it is cut, and leaves a canonical link |
| CloseoutSafety.ResolvePhaseFollows | tools/review_closeout.py:492-496 | a thread is resolved only with its one canonical reply in place |
| CloseoutSafety.LifecyclePhaseFollows | tools/review_closeout.py:499-510 | source-closed is added only for a thread seen closed, and pending removed only under source-closed |
| CloseoutSafety.CloseThreadFollows | tools/review_closeout.py:463-510 | a thread's closeout keeps the invariant from every safe state, at every cut |
| CloseoutSafety.ListingComplete | tools/review_closeout.py:279-314 | a thread the index does not hold is claimed by no issue, so creating one makes no second |
| CloseoutSafety.RunFollows | tools/review_closeout.py:410-513 | every run from a safe remote, at whatever call it ends, leaves a safe one |
| CloseoutSafety.SweepsSafe | tools/review_closeout.py:410-513 | over all histories of interrupted sweeps under outside interference: a created issue carries a lifecycle label; source-closed only on a resolved or outdated thread; a resolved thread has one reply, naming its issue; at most one reply and one issue per thread |
| CloseoutRecovery.GoodIsPending | tools/review_closeout.py:330-338 | an issue at a pending stage of the protocol passes the validation the run makes of it |
| CloseoutRecovery.GoodIsClosed | tools/review_closeout.py:330-338 | an issue at the terminal stage passes the terminal validation |
| CloseoutRecovery.ReplyPhaseQuiet | tools/review_closeout.py:483-491 | from a healthy pair the reply phase stops only by a cut, and changes only its thread |
| CloseoutRecovery.LifecyclePhaseQuiet | tools/review_closeout.py:499-510 | from a healthy closed pair the lifecycle swap ends with source-closed alone, or was cut |
| CloseoutRecovery.CloseThreadQuiet | tools/review_closeout.py:463-510 | a tracked thread with a healthy pair is closed out or the run was cut; a finished one is not touched |
| CloseoutSweeps.CloseAllQuiet | tools/review_closeout.py:463-510 | the closeout loop finishes all its work or was cut, and undoes nothing done before |
| CloseoutSweeps.WorkCovers | tools/review_closeout.py:421-431 | the work a sweep picks is everything left: closed tracked threads not finished, and eligible current ones |
| CloseoutSweeps.SweepsHealthy | tools/review_closeout.py:410-513 | every cut of every sweep leaves each issue and its thread at a stage from which the protocol can go on |
| CloseoutSweeps.CrashRecovery | tools/review_closeout.py:410-513 | after any history of cut sweeps one uninterrupted sweep succeeds and closes out every eligible and every closed tracked thread, with one issue and at most one reply each; a further sweep changes nothing |
| CloseoutConduct.PriorityIsLeast | tools/review_closeout.py:196-198 | the priority is Pk exactly when some comment carries badge k and none a smaller one, and unclassified exactly when none carries 0 to 3 |
| CloseoutConduct.OneLinkMeans | tools/review_closeout.py:355-357 | the tracking links are exactly one when the owner's comments hold that link once and no other |
| CloseoutConduct.ValidMeans | tools/review_closeout.py:330-338 | a valid issue, label by label: open, a bug from review with this priority and one class, under this lifecycle and, while pending, perhaps source-closed |
| CloseoutConduct.ValidAnyMeans | tools/review_closeout.py:330-338 | the same where any one priority will do |
| CloseoutConduct.EligibleMeans | tools/review_closeout.py:421-423 | an open thread is eligible exactly when enough pull requests are merged or some comment of it carries badge 0 or 1 |
| CloseoutConduct.RecoveryMeans | tools/review_closeout.py:427-428 | a tracked thread is recovered exactly when its issue is shown pending and it is not open |
| CloseoutConduct.RequiredMeans | tools/review_closeout.py:396-407 | the labels the repository must declare, one by one, for recovered and for eligible threads |
| CloseoutConduct.EveryMutationIsProper | tools/review_closeout.py:410-513 | from any repository nobody else changes and at any cut: an issue is created only for an open thread that presses, under its least badge; a reply goes only to a thread without one, a resolution only to one whose reply names its valid issue; labels are swapped only on a closed, linked thread; and nothing is sent unless every issue concerned was valid before |
| CloseoutOutcome.SweepsSafeInWords | tools/review_closeout.py:410-513 | safety over every history, word by word: among others a thread the sweep resolved has one link of the owner's, and it names the thread's own issue by number and URL |
| CloseoutOutcome.RecoveryInWords | tools/review_closeout.py:410-513 | after any history of cut sweeps one whole sweep works on an open thread exactly when enough are merged or a comment carries badge 0 or 1; what it worked on and every closed tracked thread ends closed, linked and under a terminal bug; every priority label is the least badge |
| CloseoutSuccess.StaleStops | tools/review_closeout.py:497-498 | however the outside moves, a thread read back open or with another least badge gets no lifecycle label |
| CloseoutSuccess.CloseThreadDone | tools/review_closeout.py:463-510 | a thread's closeout that succeeds leaves it closed, its link in place and its issue a terminal bug of its least badge, whatever state it was found in |
| CloseoutSuccess.StatusMeans | tools/review_closeout.py:410-513 | a returning run has done what its status says, from any repository nobody else changes: no open thread; none that presses; or every pressing and every left-over thread finished, the issues named being those created |
| ArtifactFraming.BigEndianInverse | src/format_bench/artifact_digest.py:143-146 | the eight-byte length reads back as the length |
| ArtifactFraming.DecodeInverts | src/format_bench/artifact_digest.py:140-176 | a decoder recovers the artifact from root tag, framed entries and sized contents |
| ArtifactFraming.LengthMeans | src/format_bench/artifact_digest.py:143-146 | the eight bytes have the length as their value, most significant first |
| ArtifactFraming.RootLayout | src/format_bench/artifact_digest.py:140-160 | the bytes a root feeds, literally: tag, eight zeros, and a file's size and content or the entries |
| ArtifactFraming.EntryLayout | src/format_bench/artifact_digest.py:161-175 | the bytes an entry feeds, literally: tag, path length, path, and a file's size and content |
| ArtifactTree.PosixInjective | src/format_bench/artifact_digest.py:161-163 | different relative paths have different encoded names |
| ArtifactTree.PosixMeans | src/format_bench/artifact_digest.py:161-163 | a path's name is its components joined by slashes |
| ArtifactTree.RootMeans | src/format_bench/artifact_digest.py:149-160 | the root is a file with this content or a directory |
| ArtifactTree.ListedInOrder | src/format_bench/artifact_digest.py:161-161 | a directory's entries are fed in the byte order of their names |
| Ordering.LessMeans | src/format_bench/artifact_digest.py:161-161 | that order: the first difference decides, and a proper prefix comes first |
| ArtifactTree.AnyEnumeration | src/format_bench/artifact_digest.py:202-203 | however a tree's entries are enumerated, sorting them gives one artifact |
| ArtifactTree.ListingOrderIrrelevant | src/format_bench/artifact_digest.py:95-121 | trees that differ only in listing order have one artifact |
| ArtifactTree.StreamDeterminesTree | src/format_bench/artifact_digest.py:140-178 | equal streams exactly for trees with the same paths, kinds and contents |
| ArtifactDigest.Digest.AddFile | src/format_bench/artifact_digest.py:37-46 | a file feeds its size and its content in any chunks, or raises for a size beyond eight bytes |
| ArtifactDigest.Digest.AddEntries | src/format_bench/artifact_digest.py:162-175 | the sorted entries feed their frames one after another, to the first that does not fit |
| ArtifactDigest.Collector.Collect | src/format_bench/artifact_digest.py:95-121 | the recursion collects each directory's entries in name order, a subdirectory's after its own |
| ArtifactDigest.FlattenSort | src/format_bench/artifact_digest.py:100-121 | sorting the names of each directory changes nothing of what is collected |
| ArtifactDigest.WholePathOrder | src/format_bench/artifact_digest.py:202-203 | sorting whole paths below one base sorts the relative ones |
| ArtifactDigest.DescriptorStream | src/format_bench/artifact_digest.py:140-178 | the descriptor walk feeds the canonical stream, or raises exactly when a length does not fit |
| ArtifactDigest.PathStream | src/format_bench/artifact_digest.py:181-215 | the flat walk feeds the same stream for every order the glob yields |
| ArtifactDigest.DotSortsBeforeNested | src/format_bench/artifact_digest.py:161-161 | `a.txt` sorts between `a` and `a/nested`, so the global sort is not the recursive order |
| AuditGraph.Search.Visit | tools/audit_tracker.py:192-203 | a visit completes its node and restores the active set, or finds a real cycle or unknown dependency; it ends because fewer nodes are off the active path |
| AuditGraph.NoReturn | tools/audit_tracker.py:188-206 | no path leads back into a node when all nodes finished in dependency order |
| AuditGraph.AssertGraphAcyclic | tools/audit_tracker.py:188-206 | returns normally if and only if every dependency is a node and no node reaches itself; each error has its witness |
| AuditPlan.IndexLabels | tools/github_labels.py:26-32 | the case-folded index, or an error exactly for two labels that fold alike |
| AuditPlan.PlanLabels | tools/github_labels.py:35-48 | one creation or update for each label that is absent or differs, in key order |
| AuditSync.KeysInOrder | tools/github_labels.py:40-40 | labels are planned in the alphabetical order of their folded names |
| AuditPlan.PlanFoundation | tools/audit_github.py:271-302 | labels and milestones first, and nothing else while any is unsettled |
| AuditPlan.Build | tools/audit_github.py:271-342 | the phased plan as the loops build it |
| AuditSync.EmptyPlanIsSettled | tools/audit_github.py:271-342 | the plan exists, and is empty exactly when labels, milestones, issues and the existing issue are all as wanted |
| AuditSync.FoldMeans | tools/github_labels.py:29-29 | two names fold alike exactly when they are equal letter for letter up to case |
| AuditSync.SettledMeans | tools/audit_github.py:271-342 | settled means, field by field: each label's name and color up to case and its description; each milestone; each issue's title, body, milestone, its own labels and no label only others claim |
| AuditSync.KeepsMeans | tools/audit_github.py:318-328 | what is kept: labels nobody manages, unnamed repository labels, other milestones and issues, and every issue's state |
| AuditSync.IndexedMeans | tools/github_labels.py:26-32 | the labels can be indexed exactly when no two names are equal up to case |
| AuditSync.FoundationCovered | tools/audit_github.py:272-302 | every unsettled label or milestone has its own step, and no step is for another item |
| AuditSync.ContentIsCovered | tools/audit_github.py:303-342 | with the foundation settled, every unsettled issue has its own step, which writes exactly what is wanted |
| AuditSync.GoodContentKept | tools/audit_github.py:306-341 | performing one issue's step does not spoil another's |
| AuditSync.TransitionSync | tools/audit_github.py:31-36 | states only advance from planned to applied to verified |
| AuditSync.Perform | tools/audit_github.py:358-364 | after a lost response the re-planned state no longer holds the mutation's key |
| AuditSync.ApplyPlan | tools/audit_github.py:358-365 | a plan sent whole settles what it was for, whichever responses are lost, and touches nothing else |
| AuditSync.Synchronize | tools/audit_github.py:345-366 | convergence within three rounds from every well-formed state; on success every label, milestone and issue literally has the registry's description, name, color, title, body, labels and milestone; unmanaged labels and issue state are kept; a verified registry sends nothing and is confirmed exactly when that already holds, and otherwise rejected as drifted |
| OutputTails.Tails.Append | src/format_bench/robustness/runner.py:205-231 | the tails after one chunk are suffixes of the lengths the trimming rule gives |
| OutputTails.AppendRetains | src/format_bench/robustness/runner.py:205-231 | one append keeps the tails at the lengths that the totals alone decide |
| OutputTails.RetainAll | src/format_bench/robustness/runner.py:205-231 | for every interleaving the tails are exact suffixes of length (a,b), (a,B-a), (B-b,b) or (h,B-h), with h half the budget rounded down |
| OutputTails.RetainedMeans | src/format_bench/robustness/runner.py:205-231 | what retained means: suffixes of both streams, with the four lengths by half of the budget rounded down |
| OutputTails.SaidMeans | src/format_bench/robustness/runner.py:205-231 | what a stream said is its own chunks one after another |
| OutputTails.ExhaustedIsTruncated | src/format_bench/robustness/runner.py:349-365 | output is exhausted exactly when a stream is truncated, and the tails fill the budget and no more |
| ProcessRunner.Runner.CheckDeadlines | src/format_bench/robustness/runner.py:289-297 | exit or overall deadline kills the group once and sets the drain deadline once |
| ProcessRunner.Runner.ReadEvents | src/format_bench/robustness/runner.py:318-336 | what select reports is received in order; an empty read closes its pipe |
| ProcessRunner.Runner.Loop | src/format_bench/robustness/runner.py:288-336 | for every schedule: left at the first check at or after the drain deadline, else with both pipes closed and the leader gone; received bytes, drain deadline and timeout flag are those of the schedule |
| ProcessRunner.Runner.Finish | src/format_bench/robustness/runner.py:338-365 | exactly one of timed out, exit code and signal; an incomplete cleanup is a timeout; truncation flags are exact |
| ProcessRunner.DrainSetOnce | src/format_bench/robustness/runner.py:289-297 | once set, the drain deadline never moves |
| ProcessRunner.DrainIsBounded | src/format_bench/robustness/runner.py:288-308 | an iteration that goes on checked the clock less than the grace period after the exit or deadline |
| EvidenceStore.TotalUnion | src/format_bench/robustness/evidence.py:32-32 | the byte count of disjoint files adds up |
| EvidenceStore.FreeMeans | src/format_bench/robustness/evidence.py:38-58 | a path can be stored under exactly when it is relative, has no `..` and no file is stored at, above or below it |
| EvidenceStore.Store.StoreBytes | src/format_bench/robustness/evidence.py:55-63 | stores exactly one new file within the budget, or changes nothing; each refusal has its exact condition by the stored paths |
| EvidenceStore.Store.ImportPath | src/format_bench/robustness/evidence.py:65-85 | copies exactly the source's files to new paths within the budget, or changes nothing |
| EvidenceStore.StoreOutputs | src/format_bench/robustness/profile.py:255-269 | with the reserve left, tails and result cannot exceed the budget, and in a fresh directory exactly stdout.txt, stderr.txt and result.json are added, with these bytes |
| EvidenceStore.Execute | src/format_bench/robustness/profile.py:207-270 | once the worker is launched no budget error can occur, whatever its output schedule; stored files stay as they are; a case that fits in a fresh directory is always stored, and then its files are its inputs, its decoded tails and its result |
| NycCapture.CheckCursors | src/format_bench/nyc_snapshot.py:214-219 | a page passes exactly when its ids are present, distinct and new |
| NycCapture.Directory.WriteCapture | src/format_bench/nyc_snapshot.py:65-84 | the record's states form a path of the transition table |
| NycCapture.LawfulMeans | src/format_bench/nyc_snapshot.py:65-84 | the lawful histories of a record are exactly six |
| NycCapture.Directory.FailActive | src/format_bench/nyc_snapshot.py:95-101 | only a capture under way is failed, once |
| NycCapture.HonestPagePasses | src/format_bench/nyc_snapshot.py:208-220 | a prefix of the rows above the cursor is the next stretch of the table and passes the checks |
| NycCapture.Directory.RecordPage | src/format_bench/nyc_snapshot.py:201-231 | a page is recorded exactly when its checks pass and it stays within the target |
| NycCapture.Directory.TakePage | src/format_bench/nyc_snapshot.py:186-234 | one page is recorded before any of its rows is handed on |
| NycCapture.Directory.Capture | src/format_bench/nyc_snapshot.py:178-254 | the loop ends with the target reached, counted and unchanged revisions, or fails |
| NycCapture.Directory.Materialize | src/format_bench/dataset_sources.py:147-193 | COMPLETE means exactly the target's rows of recorded pages, distinct ids, equal revisions and all of them in source.csv; any other end leaves no source and fails a begun record once; on an honest source the result is the table's prefix and success is exact |
| Workloads.ApplyMore | src/format_bench/workloads.py:106-113 | every workload but HEAD works batch by batch |
| Workloads.ApplyFilterMeans | src/format_bench/workloads.py:92-113 | for each of the five operators the reference keeps a row exactly as often as it occurs when its cell stands in that relation to the value, and never otherwise |
| Workloads.SortedUnique | src/format_bench/canonical.py:71-83 | the canonical order of a multiset of rows is unique |
| Workloads.CanonicalOrder | src/format_bench/canonical.py:71-83 | unordered rows are put in the order of `full_name`, or of the first column, and then of the whole row |
| Workloads.UnorderedPayload | src/format_bench/canonical.py:71-93 | unordered payloads are equal exactly when the rows are equal as multisets |
| Workloads.SameEvidence | src/format_bench/fair.py:127-150 | evidence is equal exactly when columns agree and rows agree in order for HEAD, as multisets otherwise |
| WorkloadScans.AvroScan | src/format_bench/formats/row.py:119-161 | the early-exit row scan returns the reference's table row for row, if and only if not a filter on an unknown column, and a filter keeps exactly the rows in the literal relation |
| WorkloadScans.JsonlScan | src/format_bench/formats/text.py:159-193 | the batch scan with its running limit returns the reference's table for every cutting into batches, and a filter keeps exactly the rows in the literal relation |
| WorkloadScans.RowMatchesAgree | src/format_bench/formats/row.py:139-147 | the scan's own table of operators agrees with the reference's |
| WorkloadSql.QueryParts | src/format_bench/formats/database.py:68-92 | the compiled query, or an error exactly for unknown columns |
| WorkloadSql.SymbolAgrees | src/format_bench/formats/database.py:84-88 | the comparison symbol written into the query means what the reference's operator means |
| WorkloadSql.ZipTuple | src/format_bench/formats/database.py:46-65 | fetched tuples give back the selected cells |
| WorkloadSql.ImagePermutes | src/format_bench/formats/database.py:79-92 | the engine's order changes neither which rows come out nor how often |
| WorkloadSql.OrderedById | src/format_bench/formats/database.py:39-43 | ordering by the stored row ids restores the table's order |
| WorkloadSql.SqlAgreesExactly | src/format_bench/formats/database.py:68-92 | under every engine order the SQL evidence is the reference's if and only if columns are named only as a projection or are all columns |
| WorkloadSql.EvaluatorsAgree | src/format_bench/fair.py:112-150 | row scan, batch scan and SQL give the reference's evidence for every table, batch cutting and engine order, and a filter's three results keep exactly the rows in the literal relation, as often as the table has them |
| Equivalence.ClassifyMetricsMeans | src/format_bench/equivalence.py:73-85 | each combined verdict in terms of the single intervals, both ways |
| Equivalence.VerdictMeans | src/format_bench/equivalence.py:62-70 | equivalent exactly when every ratio of the interval is within the metric's bound of one; different exactly when it is not and all lie below or all above that range |
| Equivalence.WideningKeepsOrBlurs | src/format_bench/equivalence.py:62-70 | a wider interval keeps its verdict or becomes inconclusive |
| Equivalence.WideningMetrics | src/format_bench/equivalence.py:73-85 | the same for several metrics together |
| Equivalence.IndicesMirror | src/format_bench/equivalence.py:118-119 | the two indices add up to samples - 1, are in range and in order |
| Equivalence.MedianMeans | src/format_bench/equivalence.py:109-115 | the median is the middle of the observations in ascending order, or halfway between the two middle ones |
| Equivalence.AnyDraw | src/format_bench/equivalence.py:114-115 | every choice of observations, with repetition, is some resample |
| Equivalence.IntervalMeans | src/format_bench/equivalence.py:117-124 | the ends are the k-th replicate from either side in ascending order, with k the rounded-down tail of alpha |
| Equivalence.RatiosDecide | src/format_bench/equivalence.py:88-124 | all ratios of the observations within the bound make the verdict equivalence; all above, or all below, make it a difference |
| Equivalence.ReplicateWithin | src/format_bench/equivalence.py:113-116 | every replicate lies between the extreme ratios of the two groups |
| Equivalence.IntervalWithin | src/format_bench/equivalence.py:109-124 | interval and point estimate are ordered and stay between the extreme ratios |
| Equivalence.SmallerAlphaWidens | src/format_bench/equivalence.py:117-124 | on the same replicates a smaller alpha gives a wider interval |
| Equivalence.Bootstrap | src/format_bench/equivalence.py:88-139 | the resampling loop and sort give the specified interval; it raises exactly for unacceptable input |
| SizeEvidence.Entry.Prepare | src/format_bench/workflow.py:203-292 | every path of preparation: the recorded attempts, their count, and the entry's state after the first fault |
| SizeEvidence.RecordedNumbered | src/format_bench/workflow.py:220-291 | indices are 0 to k-1 if and only if no measured repetition failed to be removed |
| SizeEvidence.Entry.Verify | src/format_bench/workflow.py:327-356 | only an encoded entry whose artifact is unchanged advances, marking its first attempt verified |
| SizeEvidence.VerifiedAdmission | src/format_bench/equivalence_admission.py:41-89 | prepared and verified evidence is admitted exactly with the expected count, positive sizes, sound digests and an unchanged artifact |
| SizeEvidence.AdmittedMeans | src/format_bench/equivalence_admission.py:41-89 | admission field by field: the number of attempts, each measured at its place with both sizes positive and sixty-four hexadecimal digits, and the artifact's digest |
| SizeEvidence.UnverifiedRefused | src/format_bench/equivalence_admission.py:63-80 | evidence that was not verified is never admitted |
| SizeEvidence.Admit | src/format_bench/equivalence_admission.py:41-110 | through the whole chain, what is admitted was verified, and when exactly |
| SizeEvidence.SizeSamples | src/format_bench/equivalence_compare.py:280-312 | the sample loop returns all sizes of sound evidence and none of any other |
| SizeEvidence.SamplesMean | src/format_bench/equivalence_compare.py:280-312 | samples are given exactly when every attempt is in order, verified, soundly digested and positive in the metric, and then are its sizes |
| SizeEvidence.AdmittedSamples | src/format_bench/equivalence_compare.py:280-312 | admitted evidence yields the expected number of samples of either size |
| SizeEvidence.SamplesAreTheSizes | src/format_bench/equivalence_compare.py:293-312 | the samples are the measured sizes in order |
| EquivalenceCompare.CompareCandidate | src/format_bench/equivalence_compare.py:374-503 | storage and timing evidence and the primary verdict as specified, or an exception; the verdict is said in numbers by SizesDecide and OperationPrimary |
| EquivalenceCompare.StoragePrimary | src/format_bench/equivalence_compare.py:257-277 | a storage endpoint resolves to the interval of its own metric's samples, over 2000 replicates at the comparison's alpha, and without one is not applicable |
| EquivalenceCompare.SizesDecide | src/format_bench/equivalence_compare.py:315-503 | the storage verdict from the sizes: equivalent when every candidate size over every reference size is within the bound of one, a difference when all exceed or all fall short of it, not applicable below two |
| EquivalenceCompare.OperationPrimary | src/format_bench/equivalence_compare.py:403-485 | a timing endpoint is decided by its own operation and percentile at the comparison's alpha, and with fewer than two observations of it the comparison is inconclusive |
| EquivalenceCompare.SecondaryAlpha | src/format_bench/equivalence_compare.py:434-441 | every other metric keeps 0.05 |
| EquivalenceCompare.GroupMeans | src/format_bench/equivalence_compare.py:450-463 | a group is what is given for a missing metric, else a difference if either is, equivalent if both are, else inconclusive |
| EquivalenceCompare.OnlyTheEndpointDecides | src/format_bench/equivalence_compare.py:315-503 | comparisons agreeing on status and native-byte samples agree on verdict and primary interval, whatever else differs |
| EquivalenceCompare.CompletesExactly | src/format_bench/equivalence_compare.py:403-463 | a comparison is cut short exactly by a missing operation or a timing that is not positive |
| EquivalenceCompare.AdmittedPairIsJudged | src/format_bench/equivalence_compare.py:464-503 | a measured pair of admitted entries never ends NOT_APPLICABLE |
| EquivalenceCompare.SharedAlphaKeepsOrBlurs | src/format_bench/equivalence_compare.py:166-192 | dividing the family's alpha can only turn the storage verdict into INCONCLUSIVE |
| EquivalenceCompare.PairEvidence | src/format_bench/equivalence_compare.py:506-568 | the candidates' comparisons and the pair verdict over them |
| EquivalenceCompare.PairVerdictMeans | src/format_bench/equivalence_compare.py:549-557 | any difference decides, else equivalence of all, else anything inconclusive, else not applicable |
| EquivalenceCompare.CandidateOrderIrrelevant | src/format_bench/equivalence_compare.py:549-557 | the order of the candidates changes neither evidence nor verdict |
| Shards.FormatIdentities | src/format_bench/shards.py:76-122 | the identities, or an error exactly for repeated names, refused paths and unverified states |
| Shards.IdentityIgnoresProgress | src/format_bench/shards.py:97-121 | a format measured or reported since keeps its identity, one that failed since does not |
| Shards.JobOfMeans | src/format_bench/shards.py:229-233 | a job is a format's when its name begins with the format's name and a slash |
| Shards.AddJobs | src/format_bench/shards.py:263-276 | jobs merge exactly when shared ones agree in status, result and evidence; each is counted once |
| Shards.MergeShards | src/format_bench/shards.py:168-334 | accepted exactly when every shard fits the base and all shards are pairwise compatible; the result is the union, merged and shared jobs add up to the shards' |
| Shards.AcceptableMeans | src/format_bench/shards.py:168-303 | acceptance in words: verified base, measured shards of the same dataset and source, the same formats with the same identities, agreeing jobs and endpoints, distinct pairs, one environment, measurement and contract |
| Shards.ProgressIsAccepted | src/format_bench/shards.py:97-121 | a shard that differs from an accepted base only in progress, jobs and pairs is accepted |
| Shards.StatesAfter | src/format_bench/shards.py:304-334 | what the merge makes of each format's state, in terms of the shards' jobs |
| Shards.SharedJobsAgree | src/format_bench/shards.py:266-276 | every shard that measured a job agrees with what is merged of it |
| Shards.OnlyMeasuredAdvance | src/format_bench/shards.py:223-233 | a failed or unsupported format is never benchmarked; a verified one is exactly when some shard measured it |
| Shards.ShardOrderIrrelevant | src/format_bench/shards.py:197-303 | shard order changes neither acceptance nor the merged jobs, pairs, endpoints and format states |
| AtomicJson.Writer.CreateTemporary | src/format_bench/json_contract.py:96-114 | an exclusive new empty file under one of a hundred names, or nothing; with nothing failing it succeeds exactly when one of them is free |
| AtomicJson.Writer.WriteAll | src/format_bench/json_contract.py:56-62 | short writes are continued; what is written is always a private prefix of the document; with nothing failing all of it is written |
| AtomicJson.Writer.Replace | src/format_bench/json_contract.py:143-154 | the complete document replaces the destination in one step, or nothing changes; with nothing failing it is replaced unless it is not a regular file |
| AtomicJson.Writer.AtomicWrite | src/format_bench/json_contract.py:209-275 | every state passed through holds the whole old or the whole new document, other files as they were, and unpublished bytes at 0600; success leaves the intended mode; with nothing failing it succeeds exactly in a trusted directory whose destination is absent or regular and where a temporary name is free |
| AtomicJson.SafeMeans | src/format_bench/json_contract.py:96-154 | what a safe state allows under each name: the old file, the complete document, or a part of it at mode 0600 |
| AtomicJson.IntendedMeans | src/format_bench/json_contract.py:255-265 | an existing document keeps its mode, a new one gets what the umask makes of 0666 |

## Left out

- Review closeout: bodies, markers and reply links are parsed values, not text; each paginated listing is one read; the pagination loops themselves are not modelled.
- Review closeout: the outside world is taken not to reopen threads, edit lifecycle labels or write the owner's markers and links by hand; recovery further assumes nobody else acts, and a listing that lags only in lifecycle labels.
- CloseoutClient.Sweeper.Run: the batch size, issue text and the counters of the result object are not in its contract, because nothing later depends on them.
- Artifact digest: names are their encoded bytes; undecodable names, symbolic links, files changing during the walk and SHA-256 itself are not modelled; Python's sort is an insertion sort.
- Audit synchronizer: case folding is ASCII; repository-side numbers of issues and milestones are names; the server stores payloads as sent and label renames do not reach issues; reading live state is one step.
- AuditSync.Synchronize: a server that refuses a mutation is not modelled, only lost responses, because the bound of three rounds is promised for a server that performs what it is sent.
- Runner: selectors, signals and the clock are a schedule of what each iteration observes; worker responses and outcome classification are left out as branching without state.
- EvidenceStore.Execute: takes as a precondition that the case result fits its reserve, instead of modelling the length of JSON text.
- NYC capture: writing capture.json is taken to succeed; CSV text and the quoting of the cursor are not modelled; ids are numbers.
- Workloads: a scalar is its place in its column's order, so comparisons between types are not modelled; schema evidence follows from the column names; decoding and the JSON reader are taken to return the encoded table.
- Workloads: quoting of SQL identifiers and the other engines' adapters.
- Equivalence.Bootstrap: exact reals and an arbitrary source of indices instead of floating point and Python's generator.
- SizeEvidence.Entry.Prepare: a failure to remove the kept artifact after a fault ends the whole run and is not modelled; path containment neither.
- EquivalenceCompare.CompareCandidate: the JSON layout, seeds' provenance and failure texts are left out.
- Shards.MergeShards: JSON values are compared and not looked into; linking the artifacts, reading files and the copied report fields are left out.
- AtomicJson.Writer.AtomicWrite: ownership and access lists are one flag; concurrent renames, descriptor identity and symbolic-link races are not modelled.
- Reports, the command line, release archives, prompt token counts, mutation recipes, summaries and gates: formatting or easy folds.
