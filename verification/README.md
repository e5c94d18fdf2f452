# The reporting engine, modelled and proved

The Go reporting engine of osvpy turns per-image scan responses, which arrive in any order, into one
frozen, indexed report that Python reads field by field. This project models that engine in Dafny and
proves what the engine is for: **whatever the interleaving of the workers, a batch that completes
answers every read exactly as a scan over the inputs, taken in one after the other, would answer it.**

The layers, from the bottom up:

- `Slabs` — the segmented table storage, a class over fixed-size blocks, proved to refine a sequence.
- `Indexes` — one frozen relationship index: count, prefix sum, fill, sort and in-place compaction.
- `Payloads`, `Records`, `Unpacking` — hash-consed strings and lists, packed records, and their decoding.
- `Aliases`, `AliasTables` — the union-find with path halving, and the vulnerability table it yields.
- `Fixes`, `Projection` — fix evidence, and what one response contributes to a batch; `Evidence`, `Reporting`,
  `Diagnostics` — what both mean, record by record, and that nothing else means the same.
- `Batches` — a batch as a value; `Logs` — which calls its rows stand for; `Interning` — hash-consing as a function on sequences; `Intakes` — the whole
  state of ingestion as a value: stored strings and lists, alias names, batch; `Builder` — the imperative
  builder, proved to hold exactly that value and to overflow exactly when it exceeds a counter.
- `Order` — the order of strings, sorting and duplicate removal.
- `Relations`, `Planning` — the sixteen relations and the visitor, the build plan, and building them all.
- `Finishing` — freezing a batch into tables and indexes: exactly when there is room, and that whatever has
  room has a frozen form.
- `Query`, `Answers`, `Closure` — reading a report, what a read must answer, and following references.
- `Coordinator`, `Runs` — the coordinator, its workers and channels as a state machine over every
  interleaving, with cancellation; `Operations` — the coordinator's own loops over the real builder;
  `Simulation` — each way these loops can go is a run of the state machine.
- `Lifecycle`, `Scans` — the operation object, and the Python scan with concurrent cancellation, down to
  the handles that cross the native boundary.
- `EndToEnd` — the composition of all layers.

How the source is rendered: `uint32` counters are naturals with an explicit overflow outcome; the panics
`report_overflow`, context cancellation and all others are the failures `Overflow`, `Canceled` and
`Internal`; polling a context that can be canceled may give either answer. A relation's position in
`Relations.RELATIONS` is its ABI slot. The list fingerprint is an arbitrary function, so every result
holds for a constant one. Upstream responses, version parsing and version comparison are inputs.

Two places where the proofs say exactly when the code meets its promise:

- A read agrees with the scan over the inputs for *all* reads if and only if no image has more than
  2^32 - 1 diagnostics, because that count is the one that no table limits (`Answers.ReadsAgreeExactly`,
  `Answers.DiagnosticsOverflow`). Projected images have at most seven (`Diagnostics.DiagnosticsAreFew`),
  so the composed results in `EndToEnd` need no such condition.
- Reports within all the limits of ingestion can still be too large to index: a key table of exactly
  2^32 - 1 rows has no room for its closing offset, and affected images can have more than 2^32 - 1 edges.
  Building the indexes overflows exactly then (`Planning.BuildIndexes`, `Planning.OnlyKeysOverflow`,
  `Planning.PlanTooLargeExactly`); 2^32 - 1 failed scans are such inputs (`Finishing.TooManyImages`,
  `Planning.FullKeyTable`). An operation that nobody cancels and whose scans all answer therefore ends with
  status zero if and only if its inputs, taken in one after the other, stay within the limits of ingestion and
  of freezing (`Runs.OutcomeIsDetermined`); the workers and the order of the results have no say in it
  (`EndToEnd.OutcomeIndependence`).

## Model

| member | source | states |
|---|---|---|
| Slabs.Slabs.At | go/slabs.go:13-18 | a row read through its block and offset is the row of the abstract table |
| Slabs.Slabs.Set | go/slabs.go:13-18 | a write through a row pointer changes that row of the table and nothing else, and replaces no block |
| Slabs.Slabs.Append | go/slabs.go:19-28 | the table grows by the row at its end, or overflows exactly at the uint32 maximum; blocks already there survive |
| Slabs.Slabs.Resize | go/slabs.go:29-39 | growing appends only zero rows, shrinking keeps a prefix, and only a size outside uint32 overflows |
| Slabs.Slabs.Truncate | go/slabs.go:43-54 | a prefix remains in exactly the blocks it needs, and the rest of the last block is zero again |
| Indexes.AddIndexCount | go/indexes.go:40-45 | addition of counts that is exact or overflows, never wrapped |
| Indexes.CountKeys | go/indexes.go:60-67 | the first replay counts every key exactly and overflows only for more than 2^32 - 1 edges |
| Indexes.PrefixIndexCounts | go/indexes.go:47-52 | the counts become the number of edges of all smaller keys, without overflow |
| Indexes.BelowAll | go/indexes.go:68-73 | the windows of all keys cover all edges, each once |
| Indexes.CursorRoom | go/indexes.go:74-77 | the fill cursor of a key always points into the window of that key |
| Indexes.FillMembers | go/indexes.go:77 | the second replay puts every value into the window of its key, in visiting order |
| Indexes.SortWindow | go/indexes.go:18-32 | the window is rearranged into ascending order and everything outside it is untouched |
| Indexes.CompactWindow | go/indexes.go:87-97 | the distinct values of a sorted window move to the write position, which never passes the read position |
| Indexes.OverwrittenRead | go/indexes.go:82-86 | offsets not read yet still hold window starts although earlier ones are already rewritten in the same pass |
| Indexes.SortAndCompact | go/indexes.go:78-99 | the pass over all keys leaves, for every key, the increasing enumeration of its distinct values |
| Indexes.MakeIndex | go/indexes.go:56-102 | for any replayed edge list the result is the range index or the member index of exactly these edges; overflow only when a count or value does not fit |
| Indexes.RangeIsSound | go/abi.go:153-167 | the row numbers between two offsets of a range index are exactly the values of the key |
| Indexes.MemberRowIsSound | go/abi.go:153-167 | the members between two offsets are exactly the distinct values of the key, increasing |
| Payloads.PayloadBuilder.StringID | go/payload.go:22-34 | a string gets the name it was stored under or the next free one; overflow exactly for a new string in a full table |
| Payloads.PayloadBuilder.FindWords | go/payload.go:87-102 | walking the collision chain finds the stored list equal to the words, if there is one, for any fingerprint |
| Payloads.PayloadBuilder.InternWords | go/payload.go:82-111 | interning a non-empty list yields its stored span or appends it, with the chain kept decreasing; overflow exactly for a new list that has no room |
| Payloads.PayloadBuilder.PackWords | go/payload.go:67-79 | nil, empty and non-empty lists get names that mean exactly them |
| Payloads.PayloadBuilder.PackStrings | go/payload.go:112-126 | the span returned names exactly the given strings, nil kept apart from empty |
| Payloads.PayloadBuilder.PackSeverities | go/payload.go:127-141 | the span returned names exactly the given severities |
| Payloads.PayloadBuilder.PackReferences | go/payload.go:142-156 | the span returned names exactly the given references |
| Payloads.NamesKept | go/payload.go:67-111 | a span keeps its meaning under all later appends |
| Payloads.NamesDecode | go/payload_test.go:20-29 | decoding a span gives back the list stored under it, nil and empty included; no stored list starts at the nil marker |
| Payloads.StringNamesAgree | go/payload.go:22-34 | two strings share a name exactly when they are equal |
| Payloads.ListNamesAgree | go/payload.go:67-111 | two lists share a span exactly when they are equal, nil, empty and non-empty told apart |
| Payloads.SeverityNamesAgree | go/payload.go:127-141 | two severity lists share a span exactly when they are equal |
| Payloads.ReferenceNamesAgree | go/payload.go:142-156 | two reference lists share a span exactly when they are equal |
| Records.StatusID | go/payload.go:59-66 | the number of a status name, and a panic exactly for unknown names |
| Records.OptionalBool | go/payload.go:47-55 | absent, false and true get different tags |
| Records.PackPackage | go/payload.go:167-169 | the packed row stands for exactly the given package |
| Records.PackAdvisory | go/payload.go:183-185 | the packed row stands for exactly the given advisory |
| Records.PackVulnerability | go/payload.go:192-194 | the packed row stands for exactly the given vulnerability |
| Records.PackContext | go/payload.go:203-205 | the packed row stands for exactly the given context |
| Records.PackAssessment | go/payload.go:213-215 | the packed row stands for exactly the given assessment |
| Records.PackLicense | go/payload.go:224-226 | the packed row stands for exactly the given license assessment; only an unknown status panics |
| Records.PackFix | go/payload.go:235-237 | the packed row stands for exactly the given fix evidence; only an unknown status panics |
| Records.PackageRowsAgree | go/store.go:16-26 | packed packages are equal exactly when the packages are, and stay so as the payload grows |
| Records.AdvisoryRowsAgree | go/store.go:16-26 | packed advisories are equal exactly when the advisories are, nil, empty and absent fields told apart |
| Records.ContextRowsAgree | go/store.go:16-26 | packed contexts are equal exactly when the contexts are |
| Records.AssessmentRowsAgree | go/store.go:16-26 | packed assessments are equal exactly when the assessments are |
| Records.LicenseRowsAgree | go/store.go:16-26 | packed licenses are equal exactly when the license assessments are, an unset policy told apart from an empty one |
| Records.FixRowsAgree | go/store.go:16-26 | packed fixes are equal exactly when the fix evidence is |
| Unpacking.SeveritiesDecode | go/payload_test.go:31-41 | decoding a severity span gives back the packed severities |
| Unpacking.ReferencesDecode | go/payload_test.go:43-53 | decoding a reference span gives back the packed references |
| Unpacking.RecordsDecodeLater | go/payload_test.go:55-88 | every packed record of all seven kinds decodes to itself in every later payload |
| Order.LessExactly | go/report.go:106-112 | strings are ordered by the first character that differs, ascending, and a proper prefix is smaller |
| Aliases.PreferenceTotal | go/store.go:72-75 | the preference never ties two different names and has no cycles |
| Aliases.PreferredIsLeast | go/store.go:72-75 | of any names it picks the least one that begins with `CVE-`, and the least of all when none does |
| Aliases.RankDecreases | go/store.go:64-71 | a parent is strictly preferred to its child, so climbing to the root terminates |
| Aliases.ForestHalve | go/store.go:64-71 | path halving keeps the forest and the root of every name |
| Aliases.ForestJoin | go/store.go:76-90 | attaching the less preferred root under the other keeps every root the preferred name of its tree |
| Aliases.AliasForest.InternAlias | go/store.go:53-63 | a new name becomes its own root; overflow exactly for a new name in a full table |
| Aliases.AliasForest.Root | go/store.go:64-71 | the root of the name, with no root changed by the halving |
| Aliases.AliasForest.Union | go/store.go:76-90 | the forest afterwards represents the alias graph with one more group |
| Aliases.PathSharesRoot | go/store.go:76-90 | names connected in the alias graph share their root |
| Aliases.ForestGivesComponents | go/store.go:53-90 | two names share a root exactly when connected, and the root is the preferred name of the component |
| AliasTables.GroupByRoot | go/store.go:290-315 | the counting sort lists the names of every root exactly once, roots in the order of their names |
| AliasTables.BuildRows | go/store.go:316-333 | one packed row per root with the other names of its tree sorted, and the row of every alias |
| AliasTables.RowsAreTable | go/store.go:290-333 | the rows are the connected components of the alias graph, each once, strictly increasing, with the preferred name as identifier and all others as sorted aliases |
| AliasTables.IdentifierIsCVE | go/store.go:72-90 | every vulnerability goes by the least CVE number of its component, and by its least name when the component has none |
| AliasTables.TableUnique | go/store.go:76-90 | the table depends only on which names are grouped together: reordering or repeating groups, or names in a group, changes nothing |
| AliasTables.RootsUnique | go/store.go:53-90 | the roots are determined by the groups alone, however the forest was built and halved |
| AliasTables.TableExists | go/store.go:290-333 | every alias graph has a component table, with a row for every component of its names |
| Fixes.PackageFixes | go/report.go:197-250 | the loops over entries, ranges and events compute the evidence, which `Evidence.EvidenceUnique` characterizes |
| Evidence.EvidenceIs | go/report.go:197-250 | status unknown exactly when no entry matches or some matching range or fix has no order, otherwise reported or no_reported_fix as there are versions or not; versions, severities and urgencies exactly those of matching entries, strictly sorted, nil when there are none |
| Evidence.EvidenceUnique | go/report.go:197-250 | these statements hold of the computed evidence and of no other |
| Evidence.UbuntuReleases | go/report.go:156-161 | a release of Ubuntu is the same ecosystem with and without its subscription and long-term support suffixes |
| Evidence.RemoveFirst | go/report.go:156-161 | the first occurrence of a suffix is removed and removal goes on behind it |
| Evidence.RemoveNone | go/report.go:156-161 | a text without the suffix stays as it is |
| Evidence.OtherEcosystems | go/report.go:156-161 | every other ecosystem is itself |
| Evidence.SeverityOrderExactly | go/report.go:114-119 | severities are ordered by type, then source, then vector |
| Evidence.ReferenceOrderExactly | go/report.go:130-146 | references are ordered by type, then address |
| Fixes.EvidenceVersions | go/report.go:203-239 | a version is listed exactly when some range of a matching entry reports it and it is not at or below the installed one |
| Fixes.ReportedIsAbove | go/report.go:224-247 | versions are strictly sorted, and status reported means at least one and all strictly above the installed version |
| Fixes.EvidenceUnordered | go/report.go:200-249 | permuting or repeating affected entries, ranges or events leaves the evidence unchanged |
| Projection.ProjectImage | go/store.go:91-213 | the projection makes exactly the sink calls and diagnostics of the response, in order, or is canceled; `Reporting.CallsUnique` and `Diagnostics.ImageIs` say which |
| Reporting.CallsAre | go/store.go:91-213 | package by package: only selected ones make calls; the occurrence's fields, layer, path and license status from the records; one union per group and advisory with exactly its names; one finding per listing of the advisory, with that group's assessment, all advisory fields and the evidence |
| Reporting.CallsUnique | go/store.go:91-213 | these statements hold of the projected calls and of no others |
| Projection.FactsAreProjected | go/store.go:91-213 | for every response a finding follows an occurrence and a union that names its advisory, one pointer is one advisory, and statuses are known |
| Diagnostics.DiagnosticsAreFew | go/store.go:91-113 | at most seven diagnostics per image, with different codes; a failed scan has its error as the only one |
| Diagnostics.ImageIs | go/store.go:91-213 | an image record has the requested name, system and status; a diagnostic with a code is there exactly when the response gives that reason for it, once, with its own message |
| Diagnostics.DiagnosticsInOrder | go/store.go:99-106 | the diagnostics kept are the first ones with their codes, in the order in which they were made |
| Batches.BufferHolds | go/store.go:221-248 | the buffer holds the unions, and everything else in order |
| Batches.ApplySplits | go/store.go:250-289 | unions touch state that occurrences and findings neither read nor write |
| Batches.MergeIsAdd | go/store.go:270-289 | buffering an image and merging it later gives exactly the batch of streaming it |
| Intakes.AbsorbIsStream | go/store.go:241-289 | holding an image and replaying it later leaves exactly the state of streaming it: the same strings and lists in the same places, the same alias names in the same order, the same batch |
| Intakes.StreamAllPacked | go/store.go:250-275 | every record that was taken in within the limits has a packed form, and the names are those of the alias groups |
| Batches.FoldComplete | go/store.go:250-289 | every history keeps rows in range, images and occurrences nondecreasing, and every advisory named in the alias graph |
| Logs.FoldHolds | go/store.go:250-289 | the fold has one row for every call and no other: occurrences with the number of their image and their values, findings on the occurrence before them, groups as united; no value is stored twice, and none that was in no call |
| Builder.InternRow | go/store.go:16-26 | the row found again or appended; overflow exactly for a new value in a full table |
| Builder.StandsInterned | go/store.go:16-26 | interning a packed row is interning its record |
| Builder.InternValue | go/store.go:16-26 | interning a packed record gives the row of its value; overflow only for a value too many |
| Builder.BatchBuilder.Occurrence | go/store.go:250-257 | the batch gains exactly this occurrence |
| Builder.BatchBuilder.AdvisoryRow | go/store.go:258-264 | the memoized row of an advisory pointer is the row that interning the advisory again would give |
| Builder.BatchBuilder.Finding | go/store.go:258-269 | the batch gains exactly this finding, on the occurrence added last |
| Builder.BatchBuilder.Union | go/store.go:76-90 | the batch gains exactly this alias group and no table changes |
| Builder.BatchBuilder.Add | go/store.go:270-275 | projecting and streaming a response leaves exactly the state with its facts streamed; overflow exactly when that state exceeds a counter |
| Builder.BatchBuilder.MergeFacts | go/store.go:276-289 | replaying a buffer, unions first, leaves exactly the state that absorbs it |
| Builder.BatchBuilder.Merge | go/store.go:276-289 | merging a buffered image leaves the state that `Add` leaves for its facts, payload and alias names included, and overflows in the same cases |
| Builder.StateDetermines | go/store.go:228-289 | builders of the same state have the same tables, lookup maps, strings, lists and alias roots |
| Builder.BatchBuilder.FinishAliases | go/store.go:290-343 | the finished tables hold the batch in packed form with the component table as vulnerabilities |
| Builder.Hold | go/operation.go:132-136 | projecting into a buffer holds exactly the projected facts and never panics for a missing occurrence |
| Closure.NavigationIsDual | README.md:150-154 | as read through indexes, an image lists a package exactly when the package lists the image, for presence, vulnerability and noncompliance, and so for vulnerabilities |
| Closure.AffectedNavigation | README.md:160-161 | as read through indexes, affected images are exactly the vulnerable and the noncompliant ones |
| Relations.VisitorIsNaive | go/indexes.go:192-249 | for each of the sixteen relations the values visited for a key are exactly what scanning the tables relates to it |
| Relations.EdgesInRange | go/indexes.go:192-249 | every visited key and value is a row of its table |
| Relations.ContiguousInRuns | go/indexes.go:125-126 | the three contiguous relations visit their members as consecutive row numbers by nondecreasing key |
| Planning.EdgesCounted | go/indexes.go:135-165 | the planned number of edges is the number visited, for each relation |
| Planning.MembersBounded | go/indexes.go:86-100 | distinct memberships never exceed the edges nor the number of key and value pairs |
| Planning.RetainedIsBound | go/indexes.go:145-175 | the memberships of a finished index never exceed the planned bound |
| Planning.PlanExactly | go/indexes.go:122-175 | for every slot the size of its key table, its exact edges, and what it retains: nothing for the three ranges, one member per edge or per pair, whichever is fewer, for the ten pair relations, one per edge for the three lists of findings |
| Planning.MemberBytesExactly | go/indexes.go:118-120 | member bytes are the least multiple of a block that holds the members |
| Planning.BuildFor | go/indexes.go:169-175 | the construction surplus accounts exactly for member and cursor blocks, and its subtraction never wraps |
| Planning.PlanFits | go/indexes.go:118-176 | with uint32 tables every planned quantity fits 64 bits |
| Planning.OrderOptimal | go/indexes.go:177-184 | no order of the builds has a smaller peak than descending surplus, for any retained sizes |
| Planning.LiveWithinPlan | go/indexes.go:177-183 | at every build the live member and cursor blocks stay within the planned peak |
| Planning.IndexBuildOrder | go/indexes.go:122-185 | the plan is a permutation of the sixteen builds with minimal peak, by surplus, then edges, then slot, and overflows only when a relation has more than 2^32 - 1 edges |
| Planning.Visit | go/indexes.go:192-249 | the loops visit exactly the edges of the relation |
| Planning.OnlyKeysOverflow | go/indexes.go:58-67 | a planned build overflows if and only if its key table has exactly 2^32 - 1 rows |
| Planning.PlanTooLargeExactly | go/indexes.go:122-165 | indexes cannot be built if and only if images, packages, occurrences, vulnerabilities or advisories fill their table, or affected images have more than 2^32 - 1 edges |
| Planning.FullKeyTable | go/indexes.go:58-67 | a report of 2^32 - 1 images and nothing else is too large to index, although no relation has an edge |
| Planning.BuildIndexes | go/indexes.go:187-253 | every ABI slot holds the index of its relation, whatever the build order; unless canceled it succeeds if and only if the plan is not too large |
| Finishing.AdvisoriesLinked | go/store.go:334-341 | every advisory has a vulnerability row, and it is the component of its identifier |
| Finishing.FinishedIsLinked | go/store.go:250-341 | in the tables of a complete batch rows only refer to rows |
| Finishing.Finish | go/store.go:345-354 | the frozen report holds exactly the batch and the indexes of all its relations; unless canceled it succeeds if and only if vulnerability rows and indexes have room |
| Finishing.PlanFitsExactly | go/indexes.go:122-165 | the plan of a finished batch is too large if and only if the batch and its number of vulnerabilities exceed what indexes hold |
| Finishing.FrozenExists | go/store.go:345-354 | every state that fits and has room has a frozen report |
| Finishing.TooManyImages | go/indexes.go:58-67 | 2^32 - 1 inputs that all fail can be taken in, but not indexed |
| Answers.MembersAre | go/indexes.go:192-249 | the relations over compact tables are the relations over the ingested records |
| Answers.RelationRead | go/abi.go:153-167 | length and members read through an index enumerate, strictly increasing, exactly the naive relation |
| Answers.ListRead | go/abi.go:133-141 | a stored string list reads as it was ingested |
| Answers.SeverityRead | go/abi.go:400-405 | every field of every severity reads as it was ingested |
| Answers.ReferenceRead | go/abi.go:406-411 | every field of every reference reads as it was ingested |
| Answers.ReadsAgree | go/abi.go:169-420 | every read, of every kind, row, field and index, answers what scanning the ingested records answers |
| Answers.ReadsAgreeExactly | go/abi.go:169-420 | all reads agree if and only if no image has more diagnostics than a uint32 counts |
| Answers.DiagnosticsOverflow | go/abi.go:226-233 | counting more diagnostics than that overflows |
| Closure.AnswerSucceeds | go/abi.go:169-420 | on a valid reference a read succeeds exactly for the fields of its kind below the reported length |
| Closure.AnswerIsValid | go/abi.go:169-420 | a reference that is read is again valid |
| Closure.ReachableReads | go/abi.go:169-420 | wherever a chain of reads from the root arrives, valid fields at indexes in range never panic and all others do |
| Closure.ListsMembers | go/abi.go:234-245 | at its indexes, a relation field gives exactly the members of its relation |
| Coordinator.StepKeeps | go/operation.go:51-155 | every step of coordinator, workers and caller keeps the window, the partition of inputs in flight, and the fold |
| Coordinator.AdvanceKeeps | go/operation.go:125-131 | merging the next image keeps the state that of the merged inputs streamed in order |
| Coordinator.HoldKeeps | go/operation.go:132-136 | holding an image out of turn loses no input and holds exactly its facts |
| Coordinator.HeldMerges | go/operation.go:138-147 | absorbing a held image is streaming it |
| Runs.WindowHolds | go/operation.go:106-151 | in every run merged images are admitted, the queues, workers and held images together never exceed the workers asked for, no input is in two places and none is lost; as many workers run as were asked for, but no more than inputs |
| Coordinator.RunKeeps | go/operation.go:51-155 | the invariant holds at every state of every run |
| Runs.RunSendsNeverBlock | go/operation.go:68-112 | in every run, whenever the coordinator or a worker sends, its channel has room |
| Runs.RunNeverStuck | go/operation.go:74-152 | in every run, until the operation is done the coordinator or a worker can step without anybody canceling |
| Runs.StepsDecrease | go/operation.go:106-152 | every step leaves strictly less to do |
| Runs.Completes | go/operation.go:51-155 | from every reachable state the operation completes within that measure, without anybody canceling |
| Runs.RunsAreBounded | go/operation.go:51-155 | no run is longer than its inputs and workers account for |
| Runs.RunDoneIsFinal | go/operation.go:51-73 | in every run completion is signalled only after every worker has left, and only a late cancellation can follow |
| Runs.RunStatus | go/operation.go:28-58 | in every run a nonzero status comes from cancellation, a panic in a scan, or inputs beyond the limits, and from nowhere else |
| Runs.DoneStatus | go/operation.go:28-58 | a run that is done has status 0, 1, 2 or 4: 1 only for a scan that panicked otherwise, 2 only for inputs beyond the limits or a scan that overflowed, 4 only for cancellation; uncanceled, 0 exactly when all scans answered within the limits |
| Runs.PanickedRun | go/operation.go:28-37 | where nothing else goes wrong, scans that panic with an internal error, an overflow or a cancellation give status 1, 2 or 4 |
| Runs.OutcomeIsDetermined | go/operation.go:51-155 | every run that is done, that nobody canceled and whose scans all answered has status zero if the inputs stay within the limits, and overflow otherwise |
| Runs.CompletedRunExists | go/operation.go:51-155 | inputs within the limits whose scans all answer have a run that completes with status zero |
| Runs.CompletedRun | go/operation.go:106-155 | a run that completes with status zero had an answer for every input and reports their sequential fold |
| Runs.FailedRun | go/operation.go:53-58 | any other status leaves no report |
| Simulation.Streams | go/operation.go:125-131 | taking in the result whose turn it is, and admitting the next input, is a continuation of a run, ending in overflow if the state does not fit |
| Simulation.Holds | go/operation.go:132-136 | so is holding any other result |
| Simulation.Absorbs | go/operation.go:138-147 | so is absorbing a held image |
| Simulation.Panics | go/operation.go:120-124 | a panic in a scan ends a run with its status and no report |
| Simulation.Freezing | go/operation.go:153-155 | any frozen product of the last state is the report of a run with status zero |
| Simulation.CanceledRun | go/operation.go:51-155 | a run that is canceled before its outcome stands ends with status 4 and no report |
| Operations.DrainHeld | go/operation.go:138-151 | the inner loop absorbs held images in order for as long as the next one is there, and stays in step with a run of the state machine |
| Operations.Receive | go/operation.go:120-137 | a result is added or held, window and fold are kept, in step with a run of the state machine |
| Operations.Ingest | go/operation.go:113-152 | the receive loop merges every input, for any order of the results, in step with a run of the state machine |
| Operations.Conclude | go/operation.go:153-155 | freezing succeeds, unless canceled, if and only if the inputs are within the limits, and gives the report of a run with status zero |
| Operations.Run | go/operation.go:51-155 | in whatever order results arrive, the report is frozen from the sequential fold of the replies and is the report of a run of the state machine; it overflows only for inputs beyond the limits, and completes only for inputs within them |
| Lifecycle.Operation.Start | go/operation.go:39-47 | the run is launched at most once |
| Lifecycle.Operation.Wait | go/operation.go:157-163 | cancellation wins over every other status, with status 4 |
| Lifecycle.Operation.Finish | go/operation.go:178-192 | the report moves out exactly when the status is zero, nobody canceled and it has not moved before; never twice |
| Lifecycle.Operation.Release | go/operation.go:165-174 | release cancels, waits for the end of a run that is under way, and drops what was not transferred |
| Lifecycle.Serve | go/operation.go:157-192 | around any run of the coordinator: its report is handed over once, and not at all if the operation was canceled or failed |
| Scans.StepKeeps | src/osvpy/_native.pyx:542-621 | every step of the scan and of concurrent cancellations keeps the lock exclusive and the handles accounted for |
| Scans.CancelIsSafe | src/osvpy/_native.pyx:550-569 | a native cancellation only ever reaches the live operation, never one released or being released |
| Scans.ReleasedOnce | src/osvpy/_native.pyx:575-621 | at any moment every handle ever made is alive or released exactly once |
| Scans.HandlesSettled | src/osvpy/_native.pyx:602-621 | when the scan has left, only the result that the returned view owns is alive |
| Scans.CanceledNeverReturns | src/osvpy/_native.pyx:614-616 | a scan canceled before its last look at the controller never returns a view |
| Scans.RunNeverStuck | src/osvpy/_native.pyx:550-573 | in every run, until the scan has left, it or the canceller that holds the lock can step |
| EndToEnd.FrozenAnswers | go/abi.go:169-420 | a report frozen from the replies answers every read as a scan over the replies in input order |
| EndToEnd.InOrderReports | go/operation.go:106-155 | the fold that reads are answered from holds exactly the calls and image records that the responses ask for, in input order |
| EndToEnd.CompletedReportAnswers | go/operation.go:106-155 | the same for every interleaving that completes |
| EndToEnd.ScheduleIndependence | go/operation.go:106-155 | two completed operations over the same inputs, with any workers and interleavings, give the same answers to every read |
| EndToEnd.OutcomeIndependence | go/operation.go:51-155 | two operations over the same inputs, done, not canceled and all scans answered, end with the same status: both complete or both overflow |
| EndToEnd.CompletedExists | go/operation.go:51-155 | inputs within the limits whose scans all answer have a completed operation |
| EndToEnd.NoInputsComplete | go/operation.go:51-155 | the operation without inputs completes, with the report of an empty batch |
| EndToEnd.CompletedReportIsClosed | go/abi.go:169-420 | in a completed report no chain of valid reads ever panics |

## Left out

- Registry access, authentication, image preparation, the scanner call and the upstream patches: a scan is an arbitrary response or panic per input.
- Native pointers, buffer copying, JSON decoding and the interpreter lock: handles are numbers that are alive or released.
- Version parsers, `versionKnown` and comparison: an arbitrary partial comparator.
- Timestamps and package URLs in `projectImage`: texts of the response.
- Exact garbage collection and resident memory: blocks count from allocation to release, and the offsets of indexes are outside the plan, as in the source.
- The builder's release of its ingestion-only maps before indexing: it has no effect on the report.
- Signals that interrupt the clean-up of a scan itself: only the statements that the clean-up protects can be interrupted.
- Property classes, slicing of collections and language tables of the Python layer: thin reads over `value`.
- Builder tables are sequences rather than `Slabs`: `Slabs` is proved to refine a sequence, and the index construction runs on it directly; scratch slices of `finishAliases` and of the packers are sequences too.
- `sort.Sort` is an insertion sort on the window and `slices.Sort` a sorting function: any sort with the same result is interchangeable.
- Projection.ProjectImage: does not model the panic on an invalid upstream timestamp, because timestamps are texts of the response here.
- Planning.LiveWithinPlan: counts member and cursor blocks, which is what the plan estimates, and assumes that blocks are freed as soon as a build is done.
- Text is a sequence of Unicode scalars compared by code point, the order of their UTF-8 bytes; byte strings that are not valid UTF-8 are not modelled.
