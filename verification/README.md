# City Finance backend: verified model of its stateful cores

A Dafny model of the parts of the NestJS backend that carry state across requests. Mongo collections are maps, Redis is
a map (with expiry where the service uses one), and each service that updates documents step by step is a class whose
methods are proved against pure functions; the properties are then lemmas about those functions, over every run.
`dafny verify dfyconfig.toml` checks everything. No lemma relies on automatic induction.

| module | what it models |
|---|---|
| `CacheAside` | readers and writers of a cache without expiry, in any interleaving |
| `FormJsons`, `UlbEligibility` | the two services that use such a cache, and their writers |
| `FormStatus`, `FormWorkflow` | form statuses, and operations that check on a snapshot and commit later |
| `AnnualAccounts`, `PdfMetadata`, `Duplicates`, `DuplicateFlags` | one annual account: metadata retries and duplicate flags |
| `Cursors`, `MetadataBackfill`, `DuplicateBackfill` | the backfills over all annual accounts |
| `Keywords`, `KeywordUpload` | keyword lists and their upload |
| `LegendRules`, `LegendImport`, `LegendSchema`, `LegendStore`, `LegendGaps` | line-item legends: rules, import, and what the schema makes of it |
| `LegendTree`, `LegendCache` | deletion of legends, and their validation cache |
| `Otp`, `LoginLock` | one-time codes and the login lock, with a clock |
| `Teams` | the Submitter of each central team |
| `DigitizationJob` | attempts and status marks of a digitization job |
| `Csv` | the CSV writer against a parser for RFC 4180 |
| `Basics`, `Text` | result types, white-space trimming |

## What came out

Where the modelled code departs from its comments or from the property one would expect, there is a lemma with the exact
condition or a concrete run:

- A reader that queries before a write and stores after the writer's last `del` leaves a value that no later command
  removes (`FormJsons.LateFillStaysStale`). Apart from pending commands this is the only way a cache can be wrong
  (`InterleavedCoherence` of `FormJsons`, `UlbEligibility` and `LegendCache`), and it takes a write that overtakes a
  value on its way into the cache (`CacheAside.OrderlyRunHasNoLateEntry`).
- An update of a form template reaches every key it changes if and only if the place it replaces, form key and year,
  is one it read or writes (`FormJsons.WriteCoversExactlyWhen`). With an outdated read it misses the form key or the
  sources of the year the document was moved to in between (`FormJsons.OutdatedReadLeavesThirdKey`,
  `FormJsons.OutdatedReadLeavesThirdSources`).
- An update of a ULB type drops every cycle it changes if and only if it has read or writes the cycles it replaces
  (`UlbEligibility.SaveCoversExactlyWhen`). Mongoose's version check guarantees that for documents with a version
  (`UlbEligibility.VersionedCoherence`); on one without, an outdated read misses a cycle
  (`UlbEligibility.UnversionedUpdateLeavesCycle`).
- `approveByState` asks for MoHUA review, which the transition table does not allow from state review, so approval
  always aborts and the workflow service never leaves statuses 1 to 4 (`FormWorkflow.ForwardingAlwaysAborts`).
- The backfill filters take a url of white space for a file and the code does not: such a document matches for ever
  (`PdfMetadata.BackfillConverges`, `DuplicateFlags.RefreshSettlesDocument`).
- "Same file as an earlier slot" is not what `findDuplicateSlots` flags: it only remembers originals, so a file that
  repeats a flagged file can be missed (`Duplicates.RepeatOfACopyIsMissed`,
  `Duplicates.FlagsEveryRepeatExactlyWhen`).
- After an accepted import the operands of its formulas are active normal legends if and only if none is given with
  white space around it, deactivated by the batch itself, or carried only by items that the schema cannot cast
  (`LegendStore.OperandsResolveAfterwards`). Each of the three happens, since the schema trims the code of a record and
  nothing that refers to it, the operand check looks at the batch, and an unordered bulk write leaves out what it cannot
  cast (`LegendGaps.AcceptedBatchMisspellsItsOperand`, `LegendGaps.AcceptedBatchDeactivatesItsOperand`,
  `LegendGaps.AcceptedBatchIsNotWritten`). The same of parentCode: `LegendStore.ParentsResolveAfterwards`.
- The schema trims the version of a query too, but not the key of the validation cache, so a write leaves a second
  spelling of its version stale (`LegendCache.WriteKeepsCacheExactlyWhen`).
- Deletions that name leaves as they are stored keep every parentCode resolvable if and only if every path contains its
  parent's (`LegendTree.DeletesKeepParents`), which an import does not check (`LegendGaps.AcceptedBatchLeavesOrphan`).
  White space around the code gets a legend deleted from above its children (`LegendTree.WhiteSpaceOrphansChild`).
- A subtree deletion never removes a computed legend, which is stored without a path
  (`LegendStore.ComputedLegendSurvivesSubtrees`).
- The comment that a cooldown implies a live code is wrong right after a success or a lockout
  (`Otp.CoolingMeansLiveCodeUnlessUsed`, `Otp.CoolingWithoutLiveCode`).
- A transfer whose demotion throws although it landed demotes both owners when its rollback lands
  (`Teams.TransferKeepsSubmitterExactlyWhen`).
- Requests of one team that overlap can leave it without a Submitter, since the writes do not repeat the checks: one
  transfer and one removal are enough (`Teams.RemovalInBetweenLosesSubmitter`), and so are two teams that restore the
  same user (`Teams.RestoreInBetweenLosesSubmitter`). If neither overlaps, every team always has one, whatever else is
  in flight (`Teams.OrderlyRunsKeepSubmitters`).

## Model

| member | source | states |
|---|---|---|
| `CacheAside.CoveredOpsKeepCoherence` | src/master/form-json/form-json.service.ts:107-176 | a write followed by commands for every key whose query it changes keeps cache and database in agreement |
| `CacheAside.RunKeepsExplained` | src/master/form-json/form-json.service.ts:40-87 | over every interleaving of readers and covered writers, away from pending commands an entry is stale iff it was outdated when stored |
| `CacheAside.QuietCacheCoherence` | src/master/form-json/form-json.service.ts:40-87 | between writers the cache agrees with the database iff no stored value came too late |
| `CacheAside.OrderlyRunHasNoLateEntry` | src/master/form-json/form-json.service.ts:40-87 | if no write changes an answer while a value for it is on its way into the cache, and write-throughs send current values, no entry is ever late |
| `CacheAside.CleanRunCoherence` | src/master/form-json/form-json.service.ts:40-207 | any service whose writes command every key they change: from a clean start each disagreement has a command pending or was stored too late |
| `FormJsons.WriteCoversExactlyWhen` | src/master/form-json/form-json.service.ts:107-207 | the commands of create, update and remove reach every form key and sources key whose answer changes iff the read of an update reaches the place it replaces; moves to another year or formId included |
| `FormJsons.RequestKeepsCoherenceExactlyWhen` | src/master/form-json/form-json.service.ts:107-207 | served on its own, a request keeps every coherent cache equal to the queries iff its read reaches what it replaces |
| `FormJsons.InterleavedCoherence` | src/master/form-json/form-json.service.ts:40-207 | any number of requests in flight, writers whose read reaches what they replace: a stale key has a pending command or was filled too late, and nothing else |
| `FormJsons.LateFillStaysStale` | src/master/form-json/form-json.service.ts:45-52 | query, write, both dels, fill: the key is stale and no writer is active, for every document and every in-place change |
| `FormJsons.OutdatedReadLeavesThirdKey` | src/master/form-json/form-json.service.ts:137-176 | an update whose read, if any, is of another place than the one it replaces leaves that form key untouched although its answer became empty |
| `FormJsons.OutdatedReadLeavesThirdSources` | src/master/form-json/form-json.service.ts:137-176 | and the sources of that year untouched although the document has left them |
| `FormJsons.FormJsonService.FindActiveByDesignYearAndFormId` | src/master/form-json/form-json.service.ts:40-53 | returns the one active template of that place or NotFound, whether cached or not, and caches it |
| `FormJsons.FormJsonService.FindEnabledClaimEligibilitySources` | src/master/form-json/form-json.service.ts:72-87 | returns exactly the active, enabled templates of the year |
| `FormJsons.FormJsonService.Create` | src/master/form-json/form-json.service.ts:107-130 | inserts, writes through when active with a formId, drops the year's sources, keeps the cache right; a duplicate changes nothing |
| `FormJsons.FormJsonService.Update` | src/master/form-json/form-json.service.ts:137-176 | patches, drops old and new keys, keeps the cache right; a missing document or an index conflict changes nothing |
| `FormJsons.FormJsonService.Remove` | src/master/form-json/form-json.service.ts:193-207 | deactivates, drops both keys, keeps the cache right |
| `FormJsons.FormJsonService.ClearCache` | src/master/form-json/form-json.service.ts:184-186 | deletes exactly the keys the pattern matches and returns their number |
| `FormJsons.UpdateWrites` | src/master/form-json/form-json.service.ts:137-176 | an update writes each field it gives and keeps every other, in its own document only |
| `FormJsons.RefusedExactlyWhen` | src/master/form-json/form-json.service.ts:107-207 | a request is refused iff its document is missing or the place it asks for is held by another active template or id |
| `FormJsons.CreateWrites` | src/master/form-json/form-json.service.ts:107-130 | a creation inserts the template as given under a fresh id |
| `FormJsons.RemoveWrites` | src/master/form-json/form-json.service.ts:193-207 | a removal always succeeds on a stored template and clears `isActive` alone |
| `FormJsons.QueriesFind` | src/master/form-json/form-json.service.ts:40-87 | the form query answers a template iff it is the active one of that year and formId, nothing iff there is none; the sources are the active, enabled ones of the year |
| `FormJsons.CreateCaches` | src/master/form-json/form-json.service.ts:107-130 | a creation caches an active template under its formId, forgets the sources of its year, and leaves every other entry |
| `FormJsons.UpdateClears` | src/master/form-json/form-json.service.ts:137-176 | an update leaves exactly the entries that are of no place the document had when read or has now |
| `FormJsons.RemoveClears` | src/master/form-json/form-json.service.ts:193-207 | a removal leaves exactly the entries that are of no place of the removed template |
| `FormJsons.MatchingExactly` | src/master/form-json/form-json.service.ts:25-28 | a cache clearing reaches the forms that agree with the year and formId given, and sources keys iff no formId is given |
| `UlbEligibility.CycleWriteCovers` | src/admin/ulb-types/ulb-types.service.ts:61-89 | the cycles before and after a write include every cycle whose excluded ids the write changes |
| `UlbEligibility.InvalidationKeepsCoherence` | src/admin/ulb-types/ulb-types.service.ts:86-114 | dropping those cycles keeps the cache equal to the query |
| `UlbEligibility.SaveCoversExactlyWhen` | src/admin/ulb-types/ulb-types.service.ts:61-100 | with reads that may be outdated when the save goes through, its version check included, the dropped cycles include every changed one iff the replaced cycles were read or are written |
| `UlbEligibility.UnversionedUpdateLeavesCycle` | src/admin/ulb-types/ulb-types.service.ts:61-89 | two updates that read the same document without a version: the cycle the first one wrote changes and is not dropped |
| `UlbEligibility.InterleavedCoherence` | src/admin/ulb-types/ulb-types.service.ts:27-114 | any number of readers and writers that reach what they replace in flight: a stale cycle has a pending drop or was filled too late, and nothing else |
| `UlbEligibility.VersionedCoherence` | src/admin/ulb-types/ulb-types.service.ts:27-114 | the same without a condition on reads, which may be of any earlier state, where all documents have a version |
| `UlbEligibility.UlbTypes.GetIneligibleUlbTypeIds` | src/module/ulb-eligibility/ulb-eligibility.service.ts:39-50 | returns the ids excluded from the cycle and caches them |
| `UlbEligibility.UlbTypes.IsUlbEligibleForGrantCycle` | src/module/ulb-eligibility/ulb-eligibility.service.ts:53-57 | eligible iff active and of a type not excluded now |
| `UlbEligibility.UlbTypes.InvalidateCycles` | src/admin/ulb-types/ulb-types.service.ts:111-114 | drops each listed cycle and nothing else |
| `UlbEligibility.UlbTypes.Create` | src/admin/ulb-types/ulb-types.service.ts:27-44 | inserts unless name and activity are taken, and leaves the cache right |
| `UlbEligibility.UlbTypes.Update` | src/admin/ulb-types/ulb-types.service.ts:61-89 | assigns unless missing or in conflict, raises the version if the cycles change, and leaves the cache right |
| `UlbEligibility.UlbTypes.Remove` | src/admin/ulb-types/ulb-types.service.ts:91-100 | deactivates a stored type unless its name is then taken by an inactive one, without changing any cycle's excluded ids |
| `UlbEligibility.CreationWrites` | src/admin/ulb-types/ulb-types.service.ts:27-44 | a type is stored as given, in version 0, and no other changes |
| `UlbEligibility.AssignmentWrites` | src/admin/ulb-types/ulb-types.service.ts:61-89 | an update writes each field it gives and keeps every other; the version is raised iff the list of cycles changes |
| `UlbEligibility.SaveWrites` | src/admin/ulb-types/ulb-types.service.ts:61-89 | saving an outdated read writes the fields that differ from that read and leaves the others as stored now |
| `UlbEligibility.NameIsFreeWhen` | src/admin/ulb-types/ulb-types.service.ts:27-44 | a write meets the index iff no other type has this name and activity |
| `UlbEligibility.QueryFinds` | src/module/ulb-eligibility/ulb-eligibility.service.ts:39-50 | the query finds exactly the types whose list names the cycle, active or not |
| `FormStatus.MohuaReviewIsEarned` | src/common/utils/form-status-transitions.ts:8-36 | on every table path from NOT_STARTED, MoHUA review follows PMU review or state review, approval and claim letter; acknowledgement follows MoHUA review and ends the path |
| `FormStatus.ReachableStatuses` | src/common/utils/form-status-transitions.ts:8-70 | exactly eleven statuses are reachable, each can reach acknowledgement, and only a terminal one has no successor |
| `FormStatus.CameFrom` | src/common/utils/form-status-transitions.ts:8-36 | the table read by columns: from which statuses each one can be entered |
| `FormStatus.OwnersOfStatuses` | src/common/constants/form-status.constants.ts:92-115 | which statuses PMU, MoHUA, state and ULB own; the ULB owns the reachable ones that can go on to, or are, in progress, but for a PMU return |
| `FormWorkflow.Workflow.FindOrCreate` | src/forms/services/form-submission-sync.service.ts:37-90 | returns the existing record or creates one in NOT_STARTED with its owner |
| `FormWorkflow.Workflow.UpdateFormStatus` | src/forms/services/form-submission-status.service.ts:32-115 | succeeds iff the record exists and the edge is a self-loop or in the table; then owner, action and submission fields and one history entry are written, otherwise nothing |
| `FormWorkflow.Workflow.Check` | src/forms/services/form-workflow.service.ts:42-48 | goes on to a transaction iff the actor is permitted and, for a draft, the form is not started |
| `FormWorkflow.Workflow.Transact` | src/forms/services/form-workflow.service.ts:195-254 | an operation whose transition or side effect fails changes nothing |
| `FormWorkflow.EveryRunKeepsStoreOk` | src/forms/services/form-submission-status.service.ts:32-80 | with any number of outdated checks in flight, every form's history is a connected chain from NOT_STARTED to its status of table edges or self-loops, its owner is the default, and its submission fields are those of the last SUBMIT |
| `FormWorkflow.ForwardingAlwaysAborts` | src/forms/services/form-workflow.service.ts:195-417 | in every reachable store approval, MoHUA return and acknowledgement abort |
| `FormWorkflow.SelfLoopMeansOutdatedCheck` | src/forms/services/form-submission-status.service.ts:49-53 | a committed self-loop means the form has moved since the check |
| `FormWorkflow.PermittedActorIsOwner` | src/common/services/form-workflow.permissions.ts:47-117 | in every reachable store whoever is permitted, platform admins aside, is the stored owner by type, role and id |
| `FormWorkflow.StatusesReached` | src/forms/services/form-workflow.service.ts:42-417 | the operations reach four statuses, not started to returned by the state, each of them and no other |
| `FormWorkflow.OwnerMayStartExactlyWhen` | src/forms/services/form-workflow.service.ts:42-48 | in every reachable store a ULB or state that the record names as owner may start exactly this: a draft of a form not started, a submission of one in progress or returned, a return or approval of one under review |
| `FormWorkflow.PermittedExactlyWhen` | src/common/services/form-workflow.permissions.ts:7-117 | per operation who is permitted, by role, own form and status, for all statuses, also those no reachable store has |
| `FormWorkflow.CommitsExactlyWhen` | src/forms/services/form-submission-status.service.ts:32-60 | per operation the statuses from which its status change goes through, self-loops included |
| `FormWorkflow.TransactionWrites` | src/forms/services/form-submission-status.service.ts:32-115 | what a committed operation leaves: status, owner, action and submission fields, one history entry, and nothing in other forms |
| `FormWorkflow.OpeningWrites` | src/forms/services/form-submission-sync.service.ts:37-90 | a form is opened not started, for its own ULB or state, and an existing one is left alone |
| `PdfMetadata.AnnualAccountRecord.CollectTasks` | src/admin/afs-digitization/afs-digitization.service.ts:190-217 | tasks, skipped and exhausted slots are exactly the ones the url and the retry count say |
| `PdfMetadata.AnnualAccountRecord.BuildPayload` | src/admin/afs-digitization/afs-digitization.service.ts:219-259 | the `$set` of each task turns its slot into what its fetch outcome demands |
| `PdfMetadata.AnnualAccountRecord.UpdatePdfMetadata` | src/admin/afs-digitization/afs-digitization.service.ts:164-284 | the document is visited slot by slot and the summary counts each slot once |
| `PdfMetadata.SummaryAddsUp` | src/admin/afs-digitization/afs-digitization.service.ts:210-279 | updated + failed = found, and found + skipped + exhausted = all slots |
| `PdfMetadata.BackfillConverges` | src/admin/afs-digitization/afs-digitization.service.ts:202-259 | after two or more visits a document matches the missing-metadata filter iff it has such a slot whose url is white space, and every other slot with a file has its metadata, null included, whatever the fetches gave |
| `PdfMetadata.MeasureDecreases` | src/admin/afs-digitization/afs-digitization.service.ts:202-259 | each visit strictly lowers the number of visits still needed as long as there are any |
| `PdfMetadata.RetryFieldsTrackTheLog` | src/admin/afs-digitization/afs-digitization.service.ts:202-248 | after any history of visits and url changes the stored retry fields equal the trailing failures at the last attempted url |
| `PdfMetadata.GiveUpNeedsTwoFailures` | src/admin/afs-digitization/afs-digitization.service.ts:236-257 | a failing attempt erases the metadata iff the last two attempts failed at the same url |
| `PdfMetadata.PassedOverExactlyWhen` | src/admin/afs-digitization/afs-digitization.service.ts:190-217 | after any history a visit passes a slot over iff it has no url but white space, or exhausted ones are skipped and the last two attempts failed at the present url |
| `PdfMetadata.VisitWrites` | src/admin/afs-digitization/afs-digitization.service.ts:219-259 | after any history a visit that succeeds stores the two numbers fetched, one that does not try changes nothing, and none touches url or flags |
| `PdfMetadata.VisitIsSlotwise` | src/admin/afs-digitization/afs-digitization.service.ts:164-284 | each slot ends as if it had been visited alone with its own outcome |
| `PdfMetadata.SummaryIsTally` | src/admin/afs-digitization/afs-digitization.service.ts:210-279 | the summary is the sum over the slots of what became of each: without file, given up, updated, or failed, as which all count if the write changed nothing |
| `Duplicates.FindDuplicateSlots` | src/admin/afs-digitization/helpers/afs-duplicate.helper.ts:25-49 | reports exactly the files that repeat an earlier original, each with its original, a same url before a same content |
| `Duplicates.SameFileExactlyWhen` | src/admin/afs-digitization/helpers/afs-duplicate.helper.ts:25-49 | two slots count as one file iff their urls agree up to white space around them, or both have the same size and page count |
| `Duplicates.CopyOfIsUnique` | src/admin/afs-digitization/helpers/afs-duplicate.helper.ts:38-45 | the reported original is determined by urls and metadata |
| `Duplicates.FlagsEveryRepeatExactlyWhen` | src/admin/afs-digitization/helpers/afs-duplicate.helper.ts:18-24 | the documented notion, same file as an earlier slot, is met iff every repeat also repeats a file that was new |
| `Duplicates.RepeatOfACopyIsMissed` | src/admin/afs-digitization/helpers/afs-duplicate.helper.ts:38-45 | three slots where a repeat is not reported |
| `Duplicates.ConsistentMetadataSuffices` | src/admin/afs-digitization/helpers/afs-duplicate.helper.ts:18-24 | if metadata depends only on the url, exactly the repeats are reported |
| `DuplicateFlags.BuildDuplicateUpdate` | src/admin/afs-digitization/afs-digitization.service.ts:534-580 | null iff the flags are right already; otherwise applying it gives the right flags; the three counters are the duplicates seen, newly marked and cleared slots |
| `DuplicateFlags.RefreshedFlagsAreTheReport` | src/admin/afs-digitization/afs-digitization.service.ts:555-570 | afterwards a file's flags say whether it is reported and name an earlier, unflagged slot with the same file |
| `DuplicateFlags.FoundIsFlagged` | src/admin/afs-digitization/afs-digitization.service.ts:561-562 | the duplicates a check counts are the slots flagged once its update is written |
| `DuplicateFlags.RefreshIsIdempotent` | src/admin/afs-digitization/afs-digitization.service.ts:561-578 | a second build finds nothing to do |
| `DuplicateFlags.RefreshSettlesDocument` | src/admin/afs-digitization/afs-digitization.service.ts:534-591 | nothing but the two flags changes, and the document leaves the onlyMissing filter unless it has a compared slot with a white-space url |
| `DuplicateFlags.RefreshOfOthers` | src/admin/afs-digitization/afs-digitization.service.ts:534-580 | a compared slot without a file loses its flag, and the auditor report is left alone |
| `DuplicateFlags.MarkedAndCleared` | src/admin/afs-digitization/afs-digitization.service.ts:555-578 | the counters of a check are the slots that become flagged by its update, and those that stop being flagged |
| `Cursors.CursorSeesTheRest` | src/admin/afs-digitization/afs-digitization.service.ts:330-352 | a page query from the cursor finds the next initially matching documents, whatever the visits did behind it |
| `Cursors.QuotaExactly` | src/admin/afs-digitization/afs-digitization.service.ts:302-307 | a run takes as many documents as its limit says, but one at least and the maximum at most, and all of them without a limit or with 0 |
| `MetadataBackfill.AnnualAccountCollection.BackfillPdfMetadata` | src/admin/afs-digitization/afs-digitization.service.ts:299-391 | terminates having visited exactly the first min(limit, n) initially matching documents once each in id order, with the totals of those visits and processed = documentsMatched |
| `MetadataBackfill.DocumentsAddUp` | src/admin/afs-digitization/afs-digitization.service.ts:352-376 | succeeded + failed documents = processed |
| `MetadataBackfill.FilesAddUp` | src/admin/afs-digitization/afs-digitization.service.ts:352-376 | updated + failed = found + one per call that threw |
| `MetadataBackfill.TotalAppends` | src/admin/afs-digitization/afs-digitization.service.ts:352-376 | each further document adds its own summary, or one failure if its call threw, and is a failed one iff it has a failure |
| `MetadataBackfill.FilterFinds` | src/admin/afs-digitization/afs-digitization.service.ts:393-437 | the filter finds the documents with a non-empty url, or only those where a number of such a slot is missing |
| `MetadataBackfill.TwoRunsFinish` | src/admin/afs-digitization/afs-digitization.service.ts:299-437 | after two unlimited runs without throws a document still matches iff it has a white-space url without metadata, and every other slot with a file has its metadata |
| `DuplicateBackfill.AnnualAccountCollection.FlagPage` | src/admin/afs-digitization/afs-digitization.service.ts:479-514 | one page is checked and bulk-written; a failed write lands only where it landed |
| `DuplicateBackfill.AnnualAccountCollection.BackfillDuplicates` | src/admin/afs-digitization/afs-digitization.service.ts:448-531 | visits a prefix of the initially matching documents, all min(limit, n) unless a bulk write fails, and then whole batches and the one that failed; updated and failed count changes and throws; duplicates found, marked and cleared are summed over all visits, including what a check that threw had counted |
| `DuplicateBackfill.FoundIsFlaggedOver` | src/admin/afs-digitization/afs-digitization.service.ts:448-531 | if no check throws, duplicatesFound is the number of flagged slots in the visited documents after the run |
| `DuplicateBackfill.OneRunFinishes` | src/admin/afs-digitization/afs-digitization.service.ts:448-591 | after one unlimited run a visited document matches again iff it has a white-space url, and a second run changes nothing |
| `DuplicateBackfill.TotalsOfRun` | src/admin/afs-digitization/afs-digitization.service.ts:479-531 | updated are the documents that have to change and whose batch was written; failed are those whose check threw and those that had to change and whose batch was not |
| `DuplicateBackfill.CountsAppend` | src/admin/afs-digitization/afs-digitization.service.ts:479-531 | each visit adds what its check counts, one that throws what it had counted by then |
| `DuplicateBackfill.AllFlaggedAfterwards` | src/admin/afs-digitization/afs-digitization.service.ts:448-591 | after one unlimited run every compared slot with a file is flagged, true or false |
| `DuplicateBackfill.FilterFinds` | src/admin/afs-digitization/afs-digitization.service.ts:582-600 | the filter finds the documents with a compared slot that has a non-empty url and, if asked, no flag yet |
| `Keywords.SplitGivesKeywords` | src/admin/afs-digitization/afs-digitization.service.ts:892-897 | splitting any string gives trimmed, non-empty, comma-free keywords |
| `Keywords.SplitJoinRoundTrip` | src/admin/afs-digitization/afs-digitization.service.ts:889-897 | a joined list of keywords splits into itself |
| `Keywords.MergeKeywords` | src/admin/afs-digitization/afs-digitization.service.ts:877-890 | computes the merge of two strings |
| `Keywords.MergeIsUnion` | src/admin/afs-digitization/afs-digitization.service.ts:877-890 | the old keywords stay a prefix, the result is the union up to case, and no added keyword repeats one |
| `Keywords.SplitAtComma` | src/admin/afs-digitization/afs-digitization.service.ts:892-897 | around any comma a string is split by itself on both sides |
| `Keywords.SplitOfPiece` | src/admin/afs-digitization/afs-digitization.service.ts:892-897 | a string without a comma is its trimmed self, or nothing if it is white space |
| `Keywords.MergeComesFrom` | src/admin/afs-digitization/afs-digitization.service.ts:877-890 | what merging adds is spelled as in the new keywords |
| `KeywordUpload.UlbCollection.UploadUlbKeywords` | src/admin/afs-digitization/afs-digitization.service.ts:745-822 | rows are folded over the ULBs in order; counts and rows not found are those of the fold; no valid row changes nothing |
| `KeywordUpload.RowsFoldPerUlb` | src/admin/afs-digitization/afs-digitization.service.ts:785-802 | a ULB ends with its own rows merged in order |
| `KeywordUpload.SecondUploadUpdatesNothing` | src/admin/afs-digitization/afs-digitization.service.ts:785-802 | uploading the same rows again produces no update |
| `KeywordUpload.FindExactly` | src/admin/afs-digitization/afs-digitization.service.ts:770-785 | of several ULBs whose normalised name is that of the row the last one is taken |
| `KeywordUpload.RowsAddUp` | src/admin/afs-digitization/afs-digitization.service.ts:785-802 | rows that change something, skipped rows and rows without a ULB add up to the valid rows |
| `KeywordUpload.NotFoundExactly` | src/admin/afs-digitization/afs-digitization.service.ts:785-802 | the rows reported as not found are those that name no ULB |
| `KeywordUpload.UpdatedAreChanged` | src/admin/afs-digitization/afs-digitization.service.ts:785-822 | the ULBs written are exactly those whose keywords differ afterwards |
| `LegendRules.ParseRule` | src/module/line-items-legends/types.ts:61-99 | returns the rule a raw value means, or null |
| `LegendRules.ValidateRuleShape` | src/module/line-items-legends/line-items-legend.service.ts:513-563 | accepts exactly the values that parse, except formulas with a linearOperands key |
| `LegendRules.MeaningIsSpelled` | src/module/line-items-legends/types.ts:61-99 | a raw value means a rule iff it spells it part by part: type, operation or operator, and each operand with its own code, sign or number, in order |
| `LegendRules.StoredRuleReadsBack` | src/module/line-items-legends/types.ts:61-99 | a stored rule passes the validator and parses to itself |
| `LegendImport.CheckOperandCodes` | src/module/line-items-legends/line-items-legend.service.ts:352-382 | accepts iff operand codes are distinct and none is computed |
| `LegendImport.ValidateItems` | src/module/line-items-legends/line-items-legend.service.ts:273-439 | the errors name exactly the items that break a field, code, kind, path, parent or rule condition |
| `LegendImport.NormalItemExactlyWhen` | src/module/line-items-legends/line-items-legend.service.ts:273-439 | a normal item is accepted iff its fields, code, version, head, paths, parent and rules are as listed |
| `LegendImport.ComputedItemExactlyWhen` | src/module/line-items-legends/line-items-legend.service.ts:273-439 | a computed item is accepted iff it has a known computed code, name, order, and valid rules with exactly one formula over distinct normal operands |
| `LegendStore.UnknownOperands` | src/module/line-items-legends/line-items-legend.service.ts:446-510 | reports the referenced codes found neither among the active normal codes of the batch nor by the query, which trims what it looks for |
| `LegendStore.UnknownAmongTrimmed` | src/module/line-items-legends/line-items-legend.service.ts:446-510 | where stored codes are trimmed, these are exactly the codes that are neither active in the batch nor active in the database |
| `LegendStore.CodesOfItemExactly` | src/module/line-items-legends/line-items-legend.service.ts:446-510 | the codes an item refers to are the operands of the rules it means, if it is computed |
| `LegendStore.BatchOffersExactly` | src/module/line-items-legends/line-items-legend.service.ts:446-510 | the batch offers the codes of its items that are not inactive and not computed by name |
| `LegendStore.NoRuleIsDropped` | src/module/line-items-legends/line-items-legend.service.ts:666-670 | of a validated list of rules sanitizing keeps every one, in order |
| `LegendStore.LegendCollection.ImportFromJson` | src/module/line-items-legends/line-items-legend.service.ts:209-265 | accepts iff every item and every operand reference is valid; only then and not on a dry run upserts, under the trimmed version and code, each item that can be cast, so that two spellings of a code write one record |
| `LegendStore.ImportedAt` | src/module/line-items-legends/entities/line-items-legend.schema.ts:10-44 | a record is that of the last item which can be cast and whose trimmed code it has, or as before |
| `LegendStore.RecordOfLastItem` | src/module/line-items-legends/line-items-legend.service.ts:227-252 | that record has each field as the item gives it, codes and version trimmed, rules as they are meant |
| `LegendStore.SanitizedIsOk` | src/module/line-items-legends/line-items-legend.service.ts:666-704 | an accepted item that can be cast is stored with the kind its code says, a computed one with exactly one formula of distinct normal operands; a path ends with the stored code iff the batch spelled the code without white space around it |
| `LegendStore.EveryImportRunIsSafe` | src/module/line-items-legends/line-items-legend.service.ts:209-265 | over any sequence of imports every stored legend is so, codes are trimmed, and no import flips a kind |
| `LegendStore.OperandsResolveAfterwards` | src/module/line-items-legends/line-items-legend.service.ts:446-510 | after an accepted import all operands are active, or equally active normal legends, iff none is misspelled with white space, written inactive by the batch, or unknown before and not written |
| `LegendStore.ParentsResolveAfterwards` | src/module/line-items-legends/line-items-legend.service.ts:417-424 | after an accepted import all parents it names are stored iff none is misspelled or unknown before and not written |
| `LegendGaps.AcceptedBatchDeactivatesItsOperand` | src/module/line-items-legends/line-items-legend.service.ts:446-510 | in every store with an active legend 110 a batch is accepted that leaves its own operand 110 inactive |
| `LegendGaps.AcceptedBatchMisspellsItsOperand` | src/module/line-items-legends/entities/line-items-legend.schema.ts:10-11 | in every store a batch is accepted whose operand is its own code with a space in front, under which nothing is stored |
| `LegendGaps.AcceptedBatchIsNotWritten` | src/module/line-items-legends/line-items-legend.service.ts:227-252 | wherever 110 is not active a batch is accepted whose operand 110 is not active afterwards, as its item cannot be cast |
| `LegendCache.WritesStayInVersion` | src/module/line-items-legends/line-items-legend.service.ts:152-265 | imports, both deletions, manual creation and manual update change legends of their own version only, up to white space |
| `LegendCache.QueryFinds` | src/module/line-items-legends/line-items-legend.service.ts:70-97 | the cached answer has exactly the active legends of the trimmed version, each under its code |
| `LegendCache.WriteKeepsCacheExactlyWhen` | src/module/line-items-legends/line-items-legend.service.ts:70-105 | such a write and its `del` leave the validation cache right iff no active legend changes or no other spelling of the version is cached |
| `LegendCache.ServiceWriteCovers` | src/module/line-items-legends/line-items-legend.service.ts:70-105 | if every version has one spelling, dropping its entry reaches every answer a write changes |
| `LegendCache.InterleavedCoherence` | src/module/line-items-legends/line-items-legend.service.ts:70-105 | if every version has one spelling, any number of readers and writers in flight, a failing `del` being one that stays pending: a stale version has a pending drop or was filled too late |
| `LegendStore.DeletedTree` | src/module/line-items-legends/line-items-legend.service.ts:610-656 | the tree of a version after a deletion from the collection is the deletion from its tree |
| `LegendStore.ComputedLegendSurvivesSubtrees` | src/module/line-items-legends/line-items-legend.service.ts:631-656 | no subtree deletion removes a computed legend that imports made |
| `LegendTree.LegendCollection.DeleteLegend` | src/module/line-items-legends/line-items-legend.service.ts:610-628 | refuses while a child refers to the code as given, otherwise removes just the legend of the trimmed code |
| `LegendTree.LegendCollection.DeleteLegendSubtree` | src/module/line-items-legends/line-items-legend.service.ts:638-656 | removes the records whose codePath contains the code, or reports that there are none |
| `LegendTree.SubtreeDeletionIsExactWhen` | src/module/line-items-legends/line-items-legend.service.ts:631-647 | for each legend with a path subtree deletion removes exactly the transitive parentCode-descendants iff, as a set, each path is the parent's path and the own code, and no path has a code to which parentCode does not lead |
| `LegendTree.WithoutCyclesIsExactWhen` | src/module/line-items-legends/line-items-legend.service.ts:631-647 | without a cycle through parentCode the first of these is enough |
| `LegendTree.CycleKeepsStrayCode` | src/module/line-items-legends/line-items-legend.service.ts:631-647 | two legends that name each other as parent, for which it is not |
| `LegendTree.PathConsistentIsEnough` | src/module/line-items-legends/line-items-legend.service.ts:631-647 | if each path is empty or the parent's path and the own code, subtree deletion removes exactly the legend and its descendants, and finds nothing iff the code is not stored or has no path, as a computed one |
| `LegendTree.SubtreeDeletionKeepsParentsExactlyWhen` | src/module/line-items-legends/line-items-legend.service.ts:638-656 | where all parentCodes resolve, every subtree deletion keeps them so iff each path contains the parent's |
| `LegendTree.LeafDeletionKeepsParentsExactlyWhen` | src/module/line-items-legends/line-items-legend.service.ts:610-628 | a leaf deletion keeps all parentCodes resolvable unless the code as given has no children and trimmed is that of a legend with others below it |
| `LegendTree.WhiteSpaceOrphansChild` | src/module/line-items-legends/line-items-legend.service.ts:610-628 | with a space in front of the code every legend with another below it is deleted from above that child |
| `LegendTree.DeletesKeepParents` | src/module/line-items-legends/line-items-legend.service.ts:610-656 | every sequence of deletions that names leaves as stored keeps every remaining parentCode resolvable iff all are at the start and each path contains the parent's |
| `LegendTree.DeletesKeepPathConsistency` | src/module/line-items-legends/line-items-legend.service.ts:610-656 | any such sequence keeps a path-consistent store path-consistent |
| `LegendGaps.AcceptedBatchLeavesOrphan` | src/module/line-items-legends/line-items-legend.service.ts:409-424 | in every store whose parentCodes resolve a batch is accepted that keeps them so and after which a subtree deletion leaves a dangling parentCode |
| `Otp.OtpService.SendOtp` | src/module/auth/otp.service.ts:50-85 | lock, cooldown and resend ceiling in this order, then state and cooldown are set; other accounts are untouched |
| `Otp.OtpService.VerifyOtp` | src/module/auth/otp.service.ts:105-151 | lock, presence, expiry, ceiling and comparison in this order, with the resulting keys |
| `Otp.OtpService.RejectCode` | src/module/auth/otp.service.ts:126-146 | a wrong code locks at the ceiling or is counted without extending the key |
| `Otp.WrongCodesBounded` | src/module/auth/otp.service.ts:53-146 | stored counters stay below their ceilings, the key outlives the code by at most a second, and a live key sees at most maxResend * (maxVerify - 1) + 1 wrong codes |
| `Otp.EveryLogIsSafe` | src/module/auth/otp.service.ts:50-151 | in every run sends are a cooldown apart, nothing happens during a lockout, only the code last sent is compared and in time, and an accepted code never again |
| `Otp.VerifyAnswersExactly` | src/module/auth/otp.service.ts:105-151 | after every run and at every time the reply to a code and what it sets off are determined by the log: accepted iff it is the code last sent, in its life, not used up, and no lockout is on; locking out iff it was wrong and the last one allowed |
| `Otp.SendAnswersExactly` | src/module/auth/otp.service.ts:50-85 | after every run, at every time but the rest of a second for which a key outlives its code, the reply to a send request is determined by the log: refused iff locked, cooling or sent as often as allowed since the last use or expiry |
| `Otp.CoolingMeansLiveCodeUnlessUsed` | src/module/auth/otp.service.ts:350-371 | while cooling, an enterable code exists iff no success or lockout came since the send and the life of the code is not over, which it cannot be if the cooldown is not the longer of the two |
| `Otp.CoolingWithoutLiveCode` | src/module/auth/otp.service.ts:356-359 | a run after which the comment's promise fails |
| `LoginLock.UserRecord.IncrementLoginAttempts` | src/module/users/users.repository.ts:58-68 | counts, and locks for an hour from five attempts on |
| `LoginLock.UserRecord.Login` | src/module/auth/login.service.ts:161-181 | refuses while locked, lifts an expired lock, then counts a failure or resets on success |
| `LoginLock.SixFailuresTakeAnHour` | src/module/auth/login.service.ts:161-181 | six failed comparisons without a success between them span at least an hour |
| `LoginLock.LockedMeansFiveFailures` | src/module/users/users.repository.ts:58-72 | locked iff five attempts are counted |
| `LoginLock.LoginAnswersExactly` | src/module/auth/login.service.ts:161-181 | in every run a login is refused as locked iff the number of failures in a row is a positive multiple of five and the last one less than an hour ago; otherwise the password decides |
| `LoginLock.StoredByLog` | src/module/users/users.repository.ts:58-72 | in every run counter, lock and its end are those of the failures in a row |
| `Teams.WriteEmptiesExactlyWhen` | src/module/users/users.service.ts:1301-1594 | a single write, whatever else went on, leaves a team without a Submitter iff it takes the role, the membership or the account from the only one |
| `Teams.UserCollection.InviteTeamMember` | src/module/users/users.service.ts:1301-1450 | creates or restores a plain member, or refuses, an undeliverable address included; the race guard cannot fire in serial runs |
| `Teams.UserCollection.UpdateTeamMemberSubrole` | src/module/users/users.service.ts:1484-1516 | changes a plain member's sub-role or nothing |
| `Teams.UserCollection.TransferTeamSubmitter` | src/module/users/users.service.ts:1518-1558 | promote, then demote, and on failure roll back; each write may throw and may have landed even so; the writes that landed are given in order |
| `Teams.UserCollection.SoftDeleteTeamMember` | src/module/users/users.service.ts:1560-1594 | removes a plain member other than the requester or nothing |
| `Teams.InvitationWrites` | src/module/users/users.service.ts:1301-1450 | an invitation changes the store iff it comes from the Submitter, can be delivered, and the address is free or that of a removed user to restore; the member is then a reviewer or viewer as asked, and nobody else changes |
| `Teams.SubroleWrites` | src/module/users/users.service.ts:1484-1516 | a granted change makes an editor a reviewer and anybody else a viewer, and changes nothing else |
| `Teams.TransferWrites` | src/module/users/users.service.ts:1518-1558 | which sub-roles a transfer leaves its two members with, for every combination of writes that throw and land |
| `Teams.RemovalWrites` | src/module/users/users.service.ts:1560-1594 | a granted removal of another member sets the two deletion flags, and changes nothing else |
| `Teams.TransferKeepsSubmitterExactlyWhen` | src/module/users/users.service.ts:1548-1555 | a transfer leaves a Submitter after each of its writes unless its demotion threw, landed, was followed by a rollback that landed, and the requester was the only one |
| `Teams.TransferEndsWithOneExactlyWhen` | src/module/users/users.service.ts:1548-1555 | from one Submitter a transfer ends with exactly one iff its writes succeed or its failed write is undone exactly if it did not land |
| `Teams.OrderlyRunsKeepSubmitters` | src/module/users/users.service.ts:1301-1594 | checks and writes of all requests interleaved: if none starts while another of its team or another restore of the same user is in flight, and no transfer loses both owners, every team has a Submitter after every write |
| `Teams.ExactlyOneSubmitter` | src/module/users/users.service.ts:1301-1594 | requests one after the other, every transfer settling: every team has exactly one Submitter after each |
| `Teams.RemovalInBetweenLosesSubmitter` | src/module/users/users.service.ts:1548-1594 | in every team with one Submitter, a removal served between the checks of a transfer and its writes ends with none |
| `Teams.RestoreInBetweenLosesSubmitter` | src/module/users/users.service.ts:1301-1412 | for every removed user, two teams that restore the user at the same time, with a verification and a transfer in between, leave one of them without a Submitter |
| `DigitizationJob.WaitForCompletion` | src/admin/afs-digitization/digitization-v3/afs-digitization-v3-queue.service.ts:259-280 | at most ceil(maxWait / poll) polls; success, recoverable and unrecoverable ends exactly as the last poll or the deadline says |
| `DigitizationJob.StatusLog.HandleJob` | src/admin/afs-digitization/digitization-v3/afs-digitization-v3-queue.service.ts:116-151 | the marks of one attempt and the error thrown on, from the dry run and the missing URL to a result that cannot be mapped |
| `DigitizationJob.StatusLog.RunJob` | src/admin/afs-digitization/digitization-v3/afs-digitization-v3-queue.service.ts:116-151 | attempts follow one another under the queue's rule and stop at the first that is not retried |
| `DigitizationJob.JobEndsOnce` | src/admin/afs-digitization/digitization-v3/afs-digitization-v3-queue.service.ts:145-149 | exactly one final mark, digitized or failed, and it is the last; one retry mark per repeated attempt, at most n - 1 |
| `DigitizationJob.NoEarlierUnrecoverable` | src/admin/afs-digitization/digitization-v3/afs-digitization-v3-queue.service.ts:145-149 | no attempt before the last was unrecoverable |
| `DigitizationJob.AttemptEndsExactly` | src/admin/afs-digitization/digitization-v3/afs-digitization-v3-queue.service.ts:116-151 | an attempt succeeds iff every step of it does, and is given up for good iff it is hopeless: a dry run, an unknown document type, a refusal by a 4xx status other than 408 and 429, or a job that ended unrecoverably |
| `DigitizationJob.AttemptMarksExactly` | src/admin/afs-digitization/digitization-v3/afs-digitization-v3-queue.service.ts:116-151 | the marks of an attempt are processing, submitted iff there is a job id, and one for how it ended |
| `DigitizationJob.JobStopsExactlyWhen` | src/admin/afs-digitization/digitization-v3/afs-digitization-v3-queue.service.ts:145-149 | a job stops at the first attempt that is flawless, hopeless or the last one allowed, and only there; one that is neither is attempted as often as the queue allows, at least once |
| `Csv.CsvRoundTrip` | src/shared/utils/csv.util.ts:3-11 | the parser of section 2 of RFC 4180 recovers header and rows iff neither the header nor a row is empty |
| `Csv.QuotedExactlyWhen` | src/shared/utils/csv.util.ts:3-6 | a field is quoted iff it has a quote, a comma or a line break, and written as it is otherwise |

## Left out

- FormJsons.FormJsonService.FindEnabledClaimEligibilitySources: returns a set, since the query sorts nothing; the order of the list is not modelled.
- FormJsons.FormJsonService.Update: reads and writes without another request in between; updates whose read is outdated are in FormJsons.WriteCoversExactlyWhen and FormJsons.InterleavedCoherence.
- UlbEligibility.UlbTypes.Create: as in all methods of services with a cache, `del` and `set` do not fail; in the interleaved runs a command that failed is one that stays pending.
- UlbEligibility.VersionedCoherence: the unique index, which refuses some of these writes, is left to the methods.
- FormWorkflow.Workflow.Transact: threads, messages and notifications are one side effect that may fail.
- PdfMetadata.AnnualAccountRecord.UpdatePdfMetadata: fetches are inputs; whether the modification time moves, and hence whether Mongo reports an equal write as a change, is an input too.
- MetadataBackfill.AnnualAccountCollection.BackfillPdfMetadata: no other writer runs meanwhile, a call that throws leaves its document alone, and time estimates and progress logs are not modelled.
- DuplicateBackfill.AnnualAccountCollection.BackfillDuplicates: no other writer runs meanwhile; the number of operations is kept beside the operations.
- KeywordUpload.UlbCollection.UploadUlbKeywords: starts from the rows of the sheet; lower case and the normalisation of names are arbitrary functions, and a sheet without rows and one without valid rows are two errors with the same effect.
- LegendImport.ValidateItems: problems are kinds, not messages, and one item has one problem per kind of check.
- LegendStore.LegendCollection.ImportFromJson: of a normal legend only account head, activity, rules, parent and path are kept; the counts reported back are not modelled; the upserts of the unordered bulk write are applied in list order, which matters only to two spellings of one code.
- LegendSchema.Casts: the text of a number, and which texts are numbers, are parameters.
- LegendCache.WritesStayInVersion: a manual creation or update writes some legend, not a modelled one.
- LegendStore.EveryImportRunIsSafe: imports are checked and written one after the other.
- LegendStore.DeletedTree: nulls on a path are skipped, as no code equals one.
- Otp.OtpService.VerifyOtp: one reading of the clock per request, the comparison of hashes is an input, and the three verify and two send flows share one model; what follows a success (tokens, password, profile) is not modelled.
- LoginLock.UserRecord.Login: starts after the account was found and its portal checked; the master password counts as a correct one; requests on one account are served one by one.
- Teams.UserCollection.InviteTeamMember: sending the mail, passwords and the fields of the profile are not modelled.
- Teams.ExactlyOneSubmitter: assumes, as Teams.OrderlyRunsKeepSubmitters does for the moment of the checks, that the requester's token agrees with the store.
- Teams.OrderlyRunsKeepSubmitters: the test of the race guard after a restore and the removal it causes are one step.
- DigitizationJob.StatusLog.HandleJob: status writes succeed, and what the mapping of the result and the choice of the Excel key give is not modelled.
- DigitizationJob.WaitForCompletion: assumes a positive poll interval and maximum wait, and that each round lasts at least the interval.
- Otp.SendAnswersExactly: leaves out the rest of a second for which a key outlives its code after a wrong one, in which a further wrong code, that leaves no trace in the log, makes the count of sends start again.
- Otp.EveryLogIsSafe: assumes, as the other lemmas over runs of one-time codes do, positive settings and requests served one by one.
- Csv.CsvRoundTrip: a number enters by its decimal text.
- Concurrent one-time-code requests and logins on one account, which are read-modify-write without atomicity.
- The state team's sub-role paths, the platform admin's overrides, and ULB code generation.
- Controllers, guards, schemas, S3, mail, SMS, tokens, hashing, Excel files, and the services of which only callers exist.
