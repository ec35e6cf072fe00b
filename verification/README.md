# TRACE-Q: a verified model

TRACE-Q is an event-sourced quality system. Sources deliver signed facts about items; every fact is kept, encrypted and
chained by a MAC per source; each item's facts are replayed in business order into runs, observations and defects; every
defect gets the time window in which it was born; controllers decide, and decisions that release an item leave through
an outbox to an ERP system. This project models those parts in Dafny and proves what they keep over whole runs.

Each committed transaction is one atomic step. The state of the program is held by classes (`Database`,
`DefectRegister`, `RouteStore`, `ReleaseDesk`, `MessageTable`, `ErpState`, `AuthStore`) whose methods follow the program
text, loops included, and are proved against functions on values; the theorems are about those functions and about all
sequences of steps.

| module | what it models |
|---|---|
| Events, Trust, BirthWindow, Occurrences, Limitations | validated events and the pure quality rules |
| Framing, IntegrityChain, Verification | MAC framing, the per-source chain and its verification |
| RawLog, Replay, Routes, DefectBook | the raw log and its orders, the replay fold, route revisions and pins, occurrences with their analysis logs |
| Store, Ingestion, Projections, CacheAgreement, DeliveryOrder | the tables, ingestion, rebuild, recovery and invalidation, and the agreement of cache and replay |
| Release, ReleaseRuns | controller decisions, rework verification, the release gate |
| AnalysisReports | what the current analysis of a defect reports over runs: boundaries, evidence, item columns |
| Witnesses | runs from empty tables in which something one might expect does not happen |
| Outbox, Erp, DeliveryProtocol | the outbox worker, the receiver, and the protocol between them |
| RefreshTokens, Percentile | refresh-token rotation, percentile interpolation |

Cryptographic primitives are parameters: a MAC function and an encoding of metadata, assumed injective only where a
theorem says so, and a content hash. Times are integer microseconds; ids are strings, or positions where a row id is
freshly generated. Confidence, durations and percentiles are reals. Row locks appear where they matter: between workers
of the outbox.

## What does not hold

These were found while modelling. The code is modelled as it is; each has the exact condition under which it does what
one would expect, and a witness.

- A human device invalidation commits with its first rebuild. If a later rebuild raises, items left out may stay up to
  date although their replay has changed (`Projections.InvalidationCoherentIff`,
  `Witnesses.StoppedInvalidationDisagrees`).
- A failed rework verification records a REWORK_REQUIRED decision, but the release gate looks at the resolution type,
  which only a decision request or a passed verification sets (`ReleaseRuns.FailedVerificationGatesIff`,
  `Witnesses.ReworkDecisionReleased`).
- docs/quality-analysis.md (lines 11 to 18) computes the birth window of the first trusted defect of an occurrence. The
  code computes one for every trusted defect observation of the key, labels each FIRST_TRUSTED_DEFECT, and the last one
  becomes the current analysis (`AnalysisReports.NamesFirstDefectIff`, `AnalysisReports.CurrentBoundaryFirstIff`,
  `Witnesses.SecondDefectReported`).
- Analysis versions are compared by status and boundaries, so a late event inside an unchanged window does not reach the
  current evidence (`AnalysisReports.RebuildEvidenceIff`, `Witnesses.EvidenceStaysOld`).
- A rebuild is not idempotent on analysis logs when a key has several deciding observations with different findings
  (`DefectBook.RepeatAddsNothingIff`, `Witnesses.RepeatedRebuildAddsVersions`).
- An item row is not a function of replay: registration time and pin are those of its first rebuild
  (`AnalysisReports.RegistrationAgreesIff`, `Witnesses.RegistrationTimeStays`).
- `activate_revision` supersedes the former active revision of a route, `import_route` does not
  (`Routes.ImportKeepsSingleActiveIff`, `Routes.TwoActiveRevisions`).
- The linking query of a rebuild and `can_link_occurrence` differ on empty component ids and on components named like
  their item (`Occurrences.RuleAgreesIff`, `Occurrences.RuleDisagrees`).

## Model

| member | source | states |
|---|---|---|
| CacheAgreement.CacheAgreement | backend/app/projections/rebuild.py:213-529 | in every run of deliveries, rebuilds that succeed or fail, recoveries, human invalidations (complete or harmlessly stopped) and crashes between them, an up-to-date item shows exactly the observations, defect observations, runs, machine events and operator actions of replaying all its raw events under all invalidations; among items with raw events recovery picks exactly the others |
| CacheAgreement.RunsCoherent | backend/app/projections/rebuild.py:495-529 | the bookkeeping behind it holds after every run: latest ingest number is the maximum of the item's rows, the projected number never exceeds it, up to date means they are equal and the cache agrees |
| CacheAgreement.StepCoherent | backend/app/ingestion/service.py:292-317 | every kind of committed step keeps that bookkeeping |
| CacheAgreement.DeliverCoherent | backend/app/ingestion/service.py:145-353 | a delivery, whatever its outcome, keeps it: the stale marks cover every item whose replay changes |
| CacheAgreement.RecoveryCompletes | backend/app/projections/rebuild.py:514-529 | a recovery in which no rebuild raises leaves every item with raw events up to date and in agreement |
| CacheAgreement.RebuildConverges | backend/app/projections/rebuild.py:126-210 | after a rebuild the last version of an open key having a trusted or invalidated sighting carries the status and boundaries a from-scratch analysis of its last such sighting gives, whatever the log held |
| CacheAgreement.RepeatedRebuild | backend/app/projections/rebuild.py:213-501 | an immediately repeated rebuild changes no cached row, no route or item, opens nothing, and adds a version to a key if and only if the key's decided sightings do not all find the same |
| AnalysisReports.OpenKeysReported | backend/app/projections/rebuild.py:435-493 | in every run of deliveries, rebuilds, invalidations and decisions, the log of every open key of an up-to-date item ends in the status and boundaries a from-scratch replay finds for the last trusted or invalidated sighting of the key |
| AnalysisReports.RunsSettle | backend/app/projections/rebuild.py:213-529 | over the same runs: everything filed, cache and replay coherent, and every open log ending in what the cached rows ask for |
| AnalysisReports.RebuildEvidenceIff | backend/app/projections/rebuild.py:126-131 | after a rebuild the current analysis carries the evidence of the last decided sighting if and only if that sighting changed status or boundaries, or the version before already had that evidence |
| AnalysisReports.NamesFirstDefectIff | backend/app/quality/birth_window.py:39-47 | the FIRST_TRUSTED_DEFECT evidence of a trusted sighting names the first trusted defect of its key in business order if and only if no earlier observation of the item is a trusted defect of that key |
| AnalysisReports.FirstDefectEntry | backend/app/quality/birth_window.py:39-134 | every window holds exactly one FIRST_TRUSTED_DEFECT entry, which names the observation the window was computed for |
| AnalysisReports.CurrentBoundaryFirstIff | backend/app/projections/rebuild.py:477-491 | after a rebuild ending in a trusted sighting, the right boundary of the current analysis is the time of the last trusted defect of the key; it is that of the first if and only if all its trusted defects have the same time |
| AnalysisReports.RegistrationAgreesIff | backend/app/projections/rebuild.py:318-347 | after a rebuild the item row shows product, revision and line of the last registration; its registration time is that of the last registration if and only if the row is new or had this time already; a pin once given stays |
| DefectBook.EvidenceFreshIff | backend/app/projections/rebuild.py:126-210 | the same on logs: after any pass the last version carries the evidence of the last decided outcome if and only if that outcome changed the finding or had the recorded evidence |
| Witnesses.StoppedInvalidationDisagrees | backend/app/api/risk.py:154-161 | a run from empty tables after which a human invalidation, stopped at its second item, leaves an up-to-date item that disagrees with replay |
| Witnesses.RepeatedRebuildAddsVersions | backend/app/projections/rebuild.py:435-493 | a run from empty tables, with two trusted defects of one key, after which a repeated rebuild adds versions |
| Witnesses.SecondDefectReported | backend/app/projections/rebuild.py:477-491 | in the same store the current analysis ends at the second defect, and the second window does not name the first |
| Witnesses.EvidenceStaysOld | backend/app/projections/rebuild.py:126-131 | a run from empty tables after which a late operator action inside an unchanged window is missing from the current evidence |
| Witnesses.RegistrationTimeStays | backend/app/projections/rebuild.py:328-347 | a run from empty tables after which an item registered a second time keeps its first registration time |
| Witnesses.ReworkDecisionReleased | backend/app/api/nonconformances.py:333-345 | a run from empty tables in which a REWORK_REQUIRED decision is followed by an exported result of the same nonconformance, whose only verification failed |
| Projections.AffectedMissesNothing | backend/app/ingestion/service.py:309-317 | the affected-items query misses no agreeing item whose replay the new period would change |
| Projections.RebuildCoherent | backend/app/projections/rebuild.py:213-501 | a rebuild brings its item up to date and into agreement and leaves every other item's state and rows alone |
| Projections.FailureCoherent | backend/app/projections/rebuild.py:504-511 | a failed rebuild only marks its item failed |
| Projections.RecoverEachCoherent | backend/app/projections/rebuild.py:514-529 | after a loop of rebuilds only items outside it, or failing in it, may still be pending |
| Projections.PeriodCoherent | backend/app/api/risk.py:151-159 | recording a period leaves agreement pending for the affected items only |
| Projections.InvalidationCoherentIff | backend/app/api/risk.py:154-161 | a human invalidation keeps agreement if and only if its loop completes, or stops at its first item (nothing is committed then), or every up-to-date item it leaves out is settled with respect to the period |
| Projections.InvalidationCoherent | backend/app/api/risk.py:154-161 | so it does when all its rebuilds succeed, and a stop at the first item leaves the tables as they were |
| Projections.AgreementLeftIff | backend/app/api/risk.py:155-161 | an agreeing item left alone after a period was recorded still agrees if and only if every cached observation the period covers was already unassessable, invalidated or conflicted |
| Projections.RebuildItem | backend/app/projections/rebuild.py:213-501 | the program text of rebuild_item, loop by loop, produces exactly the tables the specification Rebuild describes |
| Projections.Publish | backend/app/projections/rebuild.py:318-347 | the item row, the missing checks and the defect loop together |
| Projections.WriteDefectRows | backend/app/projections/rebuild.py:371-405 | the defect_observations rows, one per defect, with the component falling back to the observation's |
| Projections.MarkProjectionFailed | backend/app/projections/rebuild.py:504-511 | only the status of the item changes |
| Projections.RecoverStale | backend/app/projections/rebuild.py:514-529 | the loop goes on after a failing item and reports exactly the items it rebuilt |
| Projections.InvalidateDevice | backend/app/api/risk.py:145-166 | the period is recorded, then the affected items are rebuilt in turn until one raises; the period is rolled back when that is the first |
| DeliveryOrder.OrderIndependent | backend/app/ingestion/service.py:196-226 | two runs of deliveries that admit the same set of events, in any order and with any duplicates, without id conflicts and with distinct time, source and sequence, give every item the same from-scratch projection, and after a rebuild the same rows |
| DeliveryOrder.RunReflects | backend/app/ingestion/service.py:196-317 | the raw log holds exactly the admitted events, each id once, and the periods are those of the stored invalidations |
| DeliveryOrder.SameBusinessOrder | backend/app/projections/rebuild.py:222-232 | two logs of the same events have the same business order |
| DeliveryOrder.PeriodsAsSet | backend/app/projections/rebuild.py:276-281 | replay reads invalidation periods as a set |
| RawLog.BusinessOrderTotal | backend/app/projections/rebuild.py:225-231 | the five-part order is total and transitive, and rows that tie have the same event id |
| Replay.ReplayEvents | backend/app/projections/rebuild.py:245-309 | the fold with its setdefault dict, lists and conflict pass computes exactly the from-scratch projection |
| Replay.RunsExact | backend/app/projections/rebuild.py:249-273 | one run per run id mentioned, saying what its last start and its last finish in business order say, whichever came first |
| Replay.MarkConflictGroups | backend/app/projections/rebuild.py:299-309 | the grouping dict and its loops mark exactly the contradicted observations |
| Replay.GroupObservations | backend/app/projections/rebuild.py:299-304 | every observation is in the group of its key and no group holds a stranger |
| Replay.ResolveGroup | backend/app/projections/rebuild.py:305-309 | a group is overwritten if and only if it holds two results |
| Replay.TrustedAfterConflicts | backend/app/projections/rebuild.py:305-309 | after the pass an observation is TRUSTED if and only if it was before and its group is unanimous; nothing but trust changes |
| Replay.TrustedExactlyWhen | backend/app/projections/rebuild.py:274-309 | a replayed observation is TRUSTED if and only if its own evaluation is and no observation of its group contradicts it |
| Replay.InvalidationAntitone | backend/app/projections/rebuild.py:276-309 | more invalidations only shrink the TRUSTED set; what stays TRUSTED is the very same observation |
| Replay.InvalidationWidensWindow | backend/app/projections/rebuild.py:276-309 | under more invalidations the left boundary of a given defect only moves earlier or opens |
| Replay.PeriodChangesReplayIff | backend/app/projections/rebuild.py:276-281 | a new period leaves the whole replay unchanged if and only if every observation it covers was already unassessable, invalidated or conflicted |
| Trust.TrustedExactly | backend/app/quality/trust.py:22-53 | TRUSTED if and only if the result is assessable, neither invalidated nor conflicted, and quality, confidence, device and media meet the policy |
| BirthWindow.CalculateBirthWindow | backend/app/quality/birth_window.py:27-140 | the list built by insert, append and extend is the specified window with its evidence in order |
| BirthWindow.FindOperations | backend/app/quality/birth_window.py:75-91 | the operations loop finds the selected runs in order |
| BirthWindow.FindMachineWarnings | backend/app/quality/birth_window.py:92-102 | the machine loop finds the selected machine events in order |
| BirthWindow.FindActions | backend/app/quality/birth_window.py:103-113 | the action loop finds the selected operator actions in order |
| BirthWindow.FindPoorObservations | backend/app/quality/birth_window.py:114-133 | the observation loop finds the selected observations in order |
| BirthWindow.LastGoodMaximal | backend/app/quality/birth_window.py:49-58 | the chosen good is a covering one and no covering one is later; there is one if and only if any covers |
| BirthWindow.WindowMaximal | backend/app/quality/birth_window.py:49-59 | BOUNDED if and only if a trusted covering good precedes the defect; left is the latest such time, strictly before right, and none lies strictly inside |
| BirthWindow.EvidenceExact | backend/app/quality/birth_window.py:39-134 | evidence is exactly the boundaries, the inputs in (left, right] that pass their filters, and the limitations passed in |
| BirthWindow.LeftMonotone | backend/app/quality/birth_window.py:49-59 | the left boundary depends monotonically on the covering goods |
| BirthWindow.AddingObservationKeepsLeft | backend/app/quality/birth_window.py:49-59 | adding an observation never moves left earlier |
| Limitations.FindMissingChecks | backend/app/projections/rebuild.py:80-123 | the loop over the route steps collects the specified limitations |
| Limitations.MissingExact | backend/app/projections/rebuild.py:95-122 | one limitation for every step whose demanded inspection is missing before its started successor, and no other |
| DefectBook.AmendAllConverges | backend/app/projections/rebuild.py:126-210 | whatever a log held, replaying outcomes leaves it ending in the last decided one |
| DefectBook.AmendAllGood | backend/app/projections/rebuild.py:160-210 | versions stay numbered 1..n, neighbours differ in status or a boundary, and a log is only appended to |
| DefectBook.SilentPass | backend/app/projections/rebuild.py:126-159 | a pass adds nothing if and only if every outcome finds what the log ends in |
| DefectBook.RepeatSilentIff | backend/app/projections/rebuild.py:126-210 | replaying the same outcomes again adds no version if and only if they all find the same |
| DefectBook.LogsFactor | backend/app/projections/rebuild.py:435-493 | each key's log evolves by the outcomes of its own sightings alone, and a key is open if and only if it was or was seen |
| DefectBook.AnalysisConverges | backend/app/projections/rebuild.py:435-493 | after a rebuild the open key of a decided sighting ends in the finding of its last one |
| DefectBook.RepeatAddsNothingIff | backend/app/projections/rebuild.py:435-493 | a repeat of the loop adds no version to a key if and only if its decided sightings all find the same |
| DefectBook.LinkSound | backend/app/projections/rebuild.py:440-476 | linking keeps: one nonconformance per occurrence, CLOSED if and only if closed_at, at most one OPEN occurrence per key, well-formed logs, current version = n |
| DefectBook.RebuildOnlyReanalyses | backend/app/projections/rebuild.py:435-493 | a rebuild touches existing rows only in the current observation and the growing log of this item's open occurrences |
| DefectBook.RepeatOpensNothing | backend/app/projections/rebuild.py:440-476 | an immediately repeated rebuild opens no occurrence and no nonconformance, although closed ones are followed by new ones |
| DefectBook.DefectRegister.CreateAnalysis | backend/app/projections/rebuild.py:134-187 | appends a version exactly when status or a boundary changed |
| DefectBook.DefectRegister.CreateInvalidatedAnalysis | backend/app/projections/rebuild.py:190-210 | appends one unless the last version is already withdrawn |
| DefectBook.DefectRegister.RecordDefect | backend/app/projections/rebuild.py:438-493 | one turn of the inner loop |
| DefectBook.DefectRegister.RecordObservation | backend/app/projections/rebuild.py:438-493 | the inner loop over the defects of one observation |
| DefectBook.DefectRegister.RecordDefects | backend/app/projections/rebuild.py:435-493 | the outer loop over defect observations in business order |
| Occurrences.RuleAgreesIff | backend/app/quality/occurrence.py:6-23 | on an open occurrence of one item and defect type, linking query and rule agree if and only if the components are equal or one of them is non-empty and differs from the item id |
| Occurrences.RuleAgrees | backend/app/quality/occurrence.py:6-23 | hence they agree whenever component ids are non-empty and differ from the item id |
| Occurrences.RuleDisagrees | backend/app/quality/occurrence.py:10-23 | a component named like its item is linked by the rule and not by the query |
| Occurrences.QueryImpliesRule | backend/app/projections/rebuild.py:440-449 | the query never links what the rule would not |
| Ingestion.IngestEvent | backend/app/ingestion/service.py:145-353 | the program text produces exactly the specified tables and error for every delivery |
| Ingestion.StoreEvent | backend/app/ingestion/service.py:240-326 | the accepting part: row, chain, stale marks, period and attempt |
| Ingestion.NoteItem | backend/app/ingestion/service.py:292-298 | the item's projection state follows its newest row and becomes stale |
| Ingestion.NoteInvalidation | backend/app/ingestion/service.py:300-317 | the period is added and the affected items become stale |
| Ingestion.StaleAffected | backend/app/ingestion/service.py:314-317 | exactly the affected items that have a state become stale |
| Ingestion.DeliveryAccounted | backend/app/ingestion/service.py:145-353 | exactly one attempt per delivery (nothing at all on an overflow), at most one new row, no earlier row touched; accepted attempts = raw events = sum of last_seq |
| Ingestion.AttemptTruthful | backend/app/ingestion/service.py:196-226 | the attempt's status tells what happened, and whatever was not accepted left rows, chains, periods and projection states untouched |
| Ingestion.RunsBalanced | backend/app/ingestion/service.py:145-353 | over every run the books balance and the first content of an event id is never changed |
| Ingestion.LastSequenceIsMaximum | backend/app/ingestion/service.py:181-182 | last_source_sequence is the maximum over accepted, duplicate and conflicting deliveries, and nothing else of a source changes |
| Ingestion.ReachableVerifiesClean | backend/app/ingestion/service.py:241-291 | every reachable store verifies clean, stream by stream, and each stream state equals its last row |
| Ingestion.IngestChained | backend/app/ingestion/service.py:241-291 | every delivery keeps all chains clean and described by their states |
| Framing.ParseInvertsFrame | backend/app/security/crypto.py:106-118 | the framed bytes decode to one input, and nothing but a frame decodes |
| Framing.FrameInjective | backend/app/security/crypto.py:106-118 | two inputs with the same frame are equal |
| Framing.FromToBytes | backend/app/security/crypto.py:108-114 | a length that fits its prefix is read back from its big-endian bytes |
| IntegrityChain.ChainUnique | backend/app/security/integrity.py:25-65 | two clean chains that end in the same MAC are the same chain in length and every covered field, unless the MAC collides on two of their own links |
| IntegrityChain.CleanMeans | backend/app/security/integrity.py:32-65 | clean means: numbers 1..n, each previous MAC equals the preceding one (empty at first), each MAC recomputes |
| IntegrityChain.VerificationExact | backend/app/security/integrity.py:26-65 | no failure is reported if and only if the stream is clean |
| IntegrityChain.FailureExact | backend/app/security/integrity.py:33-65 | every reported failure is true and every true one is reported |
| IntegrityChain.TruncationStaysClean | backend/app/security/integrity.py:26-65 | cutting off the end of a clean chain is not seen by the walk |
| Verification.CheckRow | backend/app/security/integrity.py:33-63 | the three checks on one row, or an overflow of its framing |
| Verification.WalkStream | backend/app/security/integrity.py:26-65 | the inner loop returns exactly the failures of the stream, or stops where a row overflows its framing |
| Verification.VerifyStream | backend/app/security/integrity.py:25-68 | the stream is judged failed if and only if its walk found something |
| Verification.VerifyStreams | backend/app/security/integrity.py:24-68 | all streams are walked and judged, in order |
| Verification.RaiseAlerts | backend/app/security/integrity.py:69-78 | alerts for exactly the failures whose event had none |
| Verification.VerifyIntegrity | backend/app/security/integrity.py:22-80 | returned failures, stream states and alerts together; if and only if some row overflows its framing it raises, and nothing changes |
| Verification.ReachableReportsNothing | backend/app/security/integrity.py:22-80 | on reachable tables verification neither raises nor reports anything |
| ReleaseRuns.ReworkDecisionGates | backend/app/api/nonconformances.py:247-352 | after a REWORK_REQUIRED decision, whatever happens before and after it, a later result for that nonconformance needs a passing verify_rework after the decision |
| ReleaseRuns.ReworkGate | backend/app/quality/release.py:16-47 | from any state in which a nonconformance waits for rework, a run either contains a passing verification of it or leaves it waiting with no new result |
| ReleaseRuns.PassMeans | backend/app/api/nonconformances.py:316-332 | a pass stands on a completed rework run for this very nonconformance and a TRUSTED no_defect observation at or after the finish of every such run |
| ReleaseRuns.DirectReleaseIff | backend/app/quality/release.py:16-47 | an exportable decision goes through if and only if the nonconformance exists, its evidence is intact and it does not wait for rework; it then closes it and exports one result with the decision's content |
| ReleaseRuns.FailedVerificationGatesIff | backend/app/api/nonconformances.py:333-345 | a failed verification writes a REWORK_REQUIRED decision but leaves the resolution type: a direct release right after it is refused if and only if a rework had been decided before |
| ReleaseRuns.RunsFiled | backend/app/quality/release.py:25-47 | over every run of decisions interleaved with rebuilds: one open occurrence per key, CLOSED if and only if closed_at is set if and only if a result was exported, the nonconformance carries the disposition of its latest decision, every result and outbox message traces to its own committed decision with exportable disposition, each decision names its predecessor |
| ReleaseRuns.BackgroundReanalyses | backend/app/projections/rebuild.py:435-493 | ingestion, rebuilds, recovery and invalidation never change a verdict, disposition, containment, verification or closing and never reopen an occurrence |
| ReleaseRuns.GateStep | backend/app/quality/release.py:16-23 | one step of any kind lets nothing out for a waiting nonconformance unless it is a passing verification |
| Release.ReleaseDesk.CreateResult | backend/app/quality/release.py:25-47 | result, outbox message, item status and closing, or an error that changes nothing |
| Release.ReleaseDesk.Decide | backend/app/api/nonconformances.py:247-304 | the committed decision, or an error after which everything is rolled back |
| Release.ReleaseDesk.WriteDecision | backend/app/api/nonconformances.py:264-285 | the decision row and the fields of the nonconformance and item before a result is created |
| Release.ReleaseDesk.VerifyRework | backend/app/api/nonconformances.py:307-352 | the committed verification with its decision and result, or an error after which everything is rolled back |
| Release.ReleaseDesk.WriteVerification | backend/app/api/nonconformances.py:331-345 | the decision row and the fields of the nonconformance before a result is created |
| Release.ReleaseDesk.RequestInspection | backend/app/api/nonconformances.py:355-395 | a decision row that keeps the disposition, and the containment |
| Release.ReleaseDesk.Review | backend/app/api/nonconformances.py:221-244 | only the verdict changes, and only with intact evidence |
| Release.ReworkFinish | backend/app/api/nonconformances.py:316-323 | the finish time is that of a completed rework run of this nonconformance and none is later; None means that there is no such run or one without a finish |
| Release.Latest | backend/app/api/nonconformances.py:258-263 | the previous decision is the latest one on the same nonconformance |
| DeliveryProtocol.ExactlyOnce | worker/main.py:38-127 | for every interleaving of decisions, workers, late requests, lost or damaged answers, rollbacks after a send and manual retries: at most one delivery per message id, each with its outbox payload and traced to a committed exportable decision; DELIVERED means held; no two workers on one row |
| DeliveryProtocol.RunSafe | worker/main.py:38-127 | from any safe state, whatever follows, DELIVERED rows never change, payloads never change, deliveries are never lost |
| DeliveryProtocol.StepSafe | worker/main.py:38-127 | every single step keeps all of this |
| DeliveryProtocol.StoreSafe | erp_emulator/app/main.py:91-102 | a late or repeated request is stored at most once and acknowledged truthfully, whether or not its sender still waits |
| DeliveryProtocol.ConcludeSafe | worker/main.py:58-121 | whatever outcome a worker sees, its commit or rollback keeps the system safe |
| DeliveryProtocol.RetrySafe | backend/app/api/integrations.py:127-153 | a manual retry of an unlocked row keeps the system safe |
| DeliveryProtocol.AttemptsBounded | worker/main.py:56-119 | over every interleaving RETRYING implies attempts < max, and attempts never exceed max plus the manual retries of the row |
| Outbox.StillWaitingIff | worker/main.py:81-119 | a message still waits after some tries if and only if all committed ones failed transiently and attempts are left; its counter counted each of them |
| Outbox.SettlesWithinMax | worker/main.py:56-120 | without manual retry a new message is delivered or given up within max committed attempts, however many rollbacks lie between |
| Outbox.BackoffBounded | worker/main.py:89-104 | waiting times are monotone, within 2..300 seconds, and 300 from the ninth attempt on |
| Outbox.MessageTable.Claim | worker/main.py:42-51 | the oldest due message that no other worker holds is locked, if there is one |
| Outbox.MessageTable.Conclude | worker/main.py:56-127 | the row after every class of outcome; a rollback leaves it untouched; either way the lock is freed |
| Outbox.MessageTable.Retry | backend/app/api/integrations.py:127-153 | unknown and delivered messages are refused; any other becomes PENDING and due |
| Erp.RecordIdempotent | erp_emulator/app/main.py:91-102 | recording twice changes nothing and returns the first acknowledgement |
| Erp.ErpState.Enter | erp_emulator/app/main.py:77-90 | the mode decides; the first request in TIMEOUT_ONCE is delayed and uses the timeout up |
| Erp.ErpState.Record | erp_emulator/app/main.py:91-102 | a known id gets its old acknowledgement, a new one is numbered and stored |
| Erp.ErpState.Behave | erp_emulator/app/main.py:113-118 | the mode is set and the timeout restored; deliveries stay |
| Routes.RunsConsistent | backend/app/api/routes.py:76-203 | over every run: revisions numbered per route, an active_revision_id names an active revision of that route, pins name existing revisions |
| Routes.NumbersAreOneToN | backend/app/api/routes.py:83-88 | a route's revision numbers are exactly 1..n, increasing |
| Routes.PinsNeverChange | backend/app/projections/rebuild.py:318-347 | whatever happens later in a run, an item keeps the revision (or none) of the moment its row was created; revision contents are frozen and statuses never go back |
| Routes.PinBelongsToRoute | backend/app/projections/rebuild.py:322-327 | a pin names a revision of the very route asked for, with the number asked for, or else its active one |
| Routes.ActivateKeepsSingleActive | backend/app/api/routes.py:171-177 | activation keeps at most one active revision |
| Routes.ImportKeepsSingleActiveIff | backend/app/api/routes.py:186-203 | an activating import keeps it if and only if the route had no active revision |
| Routes.TwoActiveRevisions | backend/app/api/routes.py:186-203 | importing the same code twice leaves two active revisions |
| Routes.RouteStore.InsertRevision | backend/app/api/routes.py:76-104 | the next number of the route, with the steps in order |
| Routes.RouteStore.CreateRoute | backend/app/api/routes.py:115-128 | a new code and its first draft revision, or a refusal |
| Routes.RouteStore.CreateRevision | backend/app/api/routes.py:143-155 | a further draft revision, or a refusal |
| Routes.RouteStore.Activate | backend/app/api/routes.py:158-183 | supersedes the former active revision; the database trigger refuses a superseded one |
| Routes.RouteStore.ImportRoute | backend/app/api/routes.py:186-203 | finds or creates the route and adds a revision, active if asked |
| Routes.RouteStore.RegisterItem | backend/app/projections/rebuild.py:318-347 | the item row is created with its pin, or updated without touching it |
| RefreshTokens.RunsChained | backend/app/api/auth.py:38-177 | in every run of login, refresh and logout hashes are unique and each session's tokens form one replaced_by chain in creation order |
| RefreshTokens.OneUnrevoked | backend/app/api/auth.py:121-150 | of two tokens of one session the older is revoked: at most one is unrevoked |
| RefreshTokens.LoggedOutForever | backend/app/api/auth.py:153-177 | after a logout with an unrevoked token its session has no unrevoked token in any continuation, although refresh does not read the session's flag |
| RefreshTokens.ReuseRefused | backend/app/api/auth.py:128-139 | a rotated token is refused from then on, at any time; its replacement is usable until it expires |
| RefreshTokens.AuthStore.IssueToken | backend/app/api/auth.py:38-65 | a new session unless one is given, whose expiry is renewed; one more token |
| RefreshTokens.AuthStore.Login | backend/app/api/auth.py:104-118 | a session with its first token |
| RefreshTokens.AuthStore.Refresh | backend/app/api/auth.py:121-150 | rotation of a usable token, or a refusal that changes nothing |
| RefreshTokens.AuthStore.Logout | backend/app/api/auth.py:153-177 | the loop over siblings revokes exactly the tokens of the session |
| Percentile.BetweenNeighbours | backend/app/api/analytics.py:66-73 | the percentile lies between the two elements around its position |
| Percentile.Extremes | backend/app/api/analytics.py:66-73 | ratio 0 gives the minimum, ratio 1 the maximum |
| Percentile.Monotone | backend/app/api/analytics.py:66-73 | it is monotone in the ratio, across elements too |

## Left out

- Authentication of sources, line and station scope, schema validation beyond the typed event: a delivery carries their
  outcome as given error codes.
- HMAC-SHA-256, SHA-256, AES-GCM, JSON printing: functions given as parameters; a delivery carries the ciphertext and
  nonce its encryption yields, and replay starts from decrypted events.
- The unique-key race of two simultaneous ingests of one event id, and gaps in the identity column of ingest numbers:
  deliveries are sequential transactions.
- projection_state: the declared column default 0 is taken as the initial value; the code reads the column of a row
  that was not flushed yet.
- Alerts, audit entries, integration health, heartbeats, notes and the bookkeeping of containment proposals: only the
  alerts of verification are modelled, and an approved proposal sets the containment.
- Free-form JSON parameters, descriptions, severities, structure_status and updated_at: nothing modelled reads them.
- Trust policies: one current policy per control point, constant during a run.
- Operation runs are kept per item: a run id used by two items, which the primary key would refuse, shows as a rebuild
  that fails.
- Rework references: rework_for_nonconformance_id is the number of the nonconformance; a text that is not an id, which
  makes a rebuild raise, shows as a rebuild that fails.
- Outbox.MessageTable.Retry: a manual retry is atomic and waits for the row lock; reading the row before a worker's
  commit and writing it after is not modelled.
- Truncation of a chain: verification does not compare it with the stream's `last_seq`, and every prefix of a clean
  chain passes (`IntegrityChain.TruncationStaysClean`); no detection is claimed.
- The order of outbox rows is their order of insertion; equal or reordered created_at values are not modelled.
- Permissions, login counters and locks, access tokens: a login step is one whose password check succeeded.
- RefreshTokens.AuthStore.Login: fresh token hashes that repeat an old one are refused by the unique index and change
  nothing.
- Percentile.Monotone: over reals and ratios in [0, 1]; floating-point rounding and other ratios, which no caller uses,
  are not modelled.
- Emulator reset, demo tampering, job and reference endpoints, dashboards, seeding and load generation.
