# Verified model of the conversation service

This Dafny project models the parts of the conversation service whose correctness does not show in any one function: the
live reply protocol and its event stream, the render and export lifecycles, conversation trees and branch context, and
the loops that must equal a simple specification. `dafny verify dfyconfig.toml` checks all of it.

## How it is built

Code that shares stores with other actors is modelled twice. A *protocol* module (`ReplyProtocol`, `EventStream`,
`ArtifactLifecycle`, `ExportJobs`) is a state machine: one step is the code between two `await` points, any actor may run
in between, crash, or see a remote call fail with or without effect. The guarantees are invariants over all its runs. A
*service* module (`ReplyService`, `StreamService`, `ArtifactService`, `ExportService`, `MessageRepository`) is the code
as classes whose methods update their fields; each method is proved to be a run of the protocol, so what holds of all
runs holds of the code. What a method leaves in its stores is also written out in its contract; for `advance`, `ArtifactRounds`
says it for all answers and failures on the rows alone. Where a guarantee needs a condition, the condition is a predicate on single steps
(`ReplyGuarantees.Benign`, `StreamGuarantees.InOrder`, `ArtifactGuarantees.InTime`, `ArtifactVideo.Careful`,
`ArtifactBounds.AtomicRetry` and `NoFallback`, `ExportJobs.InTime` and `Timely`). Each guarantee has only the conditions it
needs, and lemmas show that it needs them: exactly so in `ReplyOutcomes.BenignIsExact`, `ArtifactGuarantees.InTimeIsExact`,
`ArtifactVideo.CarefulIsExact`, `ExportJobs.InTimeIsExact`, `ExportJobs.TimelyIsExact` and
`StreamReordering.LostIfOvertaken`, by runs that break the guarantee in `ArtifactVideo.OverlapRendersAgain`,
`ArtifactBounds.OverlapRendersTooOften`, `StaleRetriesHaveNoBound` and `FallbacksHaveNoBound`.

| file | models |
|---|---|
| `MessageRows`, `MessageRepository` | partitions of message rows, history queries, writes |
| `ReplyProtocol`, `ReplyGuarantees`, `ReplyOutcomes`, `ReplyService` | send, regenerate, the final-event handler, the timeout pass |
| `EventStream`, `StreamGuarantees`, `StreamReordering`, `StreamService` | publish, replay, a message-scoped connection |
| `Mp4Boxes`, `ArtifactLifecycle`, `ArtifactGuarantees`, `ArtifactVideo`, `ArtifactBounds`, `ArtifactRounds`, `ArtifactService` | video validation and the render lifecycle: leases, the stored video, bounds on renders |
| `ExportJobs`, `ExportService` | export jobs, their workers, retention, creation |
| `Hierarchy`, `HierarchyWalk`, `HierarchyOrder` | root, subtree and depth over arbitrary parent links |
| `ArchiveNames`, `ArchivePaths` | slugs, path validation, the archive plan |
| `BranchLineage`, `BranchContext`, `OldBranches`, `HistoryBudget` | what a branch inherits, history budgets |
| `ExportCollector` | paged collection up to a snapshot |
| `PreferencesMigration` | batched migration, dry runs, verification |
| `Uuids` | UUID version 7 packing, section 5.7 of RFC 9562 |
| `Sequences`, `Text`, `Wrappers` | reversing, filtering, `strip`, `Option` |

## Where the code does not do what its comments promise

Each point is a proved lemma, together with the condition under which the promise does hold.

- A `regenerate` call whose deadline passes before its batch reopens the row after the timeout pass has cleared the
  marker; nobody will ever fail it. Whenever a pass starts in such a state, this can follow
  (`ReplyOutcomes.LateScanStrands`; reached from the start in `ReplyOutcomes.LateRegenerationIsStranded`; exactly which steps
  can be followed by a stranding: `ReplyOutcomes.BenignIsExact`).
- A `send` whose batch took effect but was reported as failed clears the marker of a published request when the
  placeholder cannot be removed (`ReplyOutcomes.FailedCleanupStrands`; exactly when: `ReplyService.StrandedByFailedCleanup`).
- A handled error event shuts out a later success event for the same reply, since both share one inbox id
  (`ReplyOutcomes.ErrorShutsOutTheAnswer`; exactly when an answer is stored: `ReplyOutcomes.DeliveryStores`).
- Two publishers that publish in another order than they appended make a connection take an undelivered event for a
  duplicate (`StreamGuarantees.SwappedPublishesLoseAnEvent`; exactly which events are lost: `StreamReordering.LostIfOvertaken`).
- The lease release of `advance` is unconditional. Ending every advance within its lease does not keep advances apart: a row
  must not be retried or reported missing before the worker that finished it has released it either
  (`ArtifactGuarantees.LateReleaseLetsAdvancesOverlap`; exactly when they stay apart: `ArtifactGuarantees.InTimeIsExact`).
- Two advances that overlap share one object key, so a row can end ready with another video in the store than the one it
  records, although no object was lost from outside (`ArtifactVideo.OverlapLosesIt`; exactly which steps keep the video
  of a ready row safe: `ArtifactVideo.CarefulIsExact`). Nor is a stored video safe from being rendered again
  (`ArtifactVideo.OverlapRendersAgain`; without an overlap it is: `ArtifactVideo.NeverRenderedAgain`), nor does the limit on
  automatic attempts hold (`ArtifactBounds.OverlapRendersTooOften`; without an overlap: `ArtifactBounds.RendersPerReset`).
- Retries that have read the same count all take effect, one after the other, and count as one: neither the limit of
  retries nor the renders it allows are bounds then (`ArtifactBounds.StaleRetriesHaveNoBound`; with no such retry:
  `ArtifactBounds.RendersOfOneArtifact`, and in any case: `ArtifactBounds.RendersPerReset`).
- An export worker that comes back after its lease deletes the file of a ready job, from any state in which another
  worker can claim the job meanwhile (`ExportJobs.LateWorkerDeletesTheFile`). The file is safe exactly if no lease of a job
  with attempts left runs out on a worker that has not given up (`ExportJobs.TimelyIsExact`, `ExportJobs.ReadyIsStored`).
- A page of deleted rows ends the collection of an export (`ExportCollector.CollectsAllWithoutGaps`), and a marker that was
  deleted meanwhile limits nothing (`ExportCollector.DeletedMarkerLimitsNothing`; exactly when the export stays within it:
  `ExportCollector.StaysWithinTheSnapshot`).
- Branches without a recorded branch message lose inherited messages and documents when their parent grows
  (`OldBranches.AnOldBranchForgets`, `OldBranches.AnOldBranchForgetsItsDocument`; exactly when:
  `OldBranches.OldBranchesMayForgetMessages`, `OldBranches.OldBranchesMayForgetDocuments`).
- A dry run of the migration miscounts repeated user ids (`PreferencesMigration.DryRunMissesRepeats`; exactly when it
  counts right: `PreferencesMigration.DryRunPredicts`).
- A rerun of the migration is not idempotent for legacy rows without a time of their own, which get the time of the run: it
  can overwrite what was edited in the new application (`PreferencesMigration.RerunOverwritesAnEdit`; exactly when a rerun
  changes nothing: `PreferencesMigration.RerunLater`, told beforehand in `PreferencesMigration.RerunLaterOfUniqueUsers`).

## Model

| member | source | states |
|---|---|---|
| MessageRepository.Repository.CreateWithOutbox | app/repositories/message_repository.py:33-79 | exactly one row of one conversation is written, and the event with it |
| MessageRepository.Repository.CreateMessageDirect | app/repositories/message_repository.py:183-223 | an upsert of one row that keeps the files attached to it |
| MessageRepository.Repository.Delete | app/repositories/message_repository.py:170-181 | the status of one row alone becomes deleted; a missing row comes into being without a sender |
| MessageRepository.Repository.GetMessage | app/repositories/message_repository.py:144-168 | the row with that id, a deleted one as failed, or None |
| MessageRepository.Repository.History | app/repositories/message_repository.py:81-118 | a row is returned iff it is stored, not deleted, below the cursor, and fewer than `limit` stored rows, deleted ones included, lie between; newest first |
| MessageRepository.Repository.HistoryUpto | app/repositories/message_repository.py:120-142 | the same up to and including a message: iff stored, not deleted, its id at most that one, and fewer than `limit` stored rows between |
| MessageRows.PutIsMapUpdate | app/repositories/message_repository.py:33-79 | writing into the ordered partition is a map update by id |
| MessageRows.BelowMembers | app/repositories/message_repository.py:85-93 | the rows a cursor selects are exactly those with smaller ids |
| MessageRows.PageMembers | app/repositories/message_repository.py:81-142 | membership in a page, for both queries |
| ReplyService.Service.FinalizeAssistantMessage | app/services/message_service.py:465-488 | writes the answer unless the id is another sender's row, and nothing else |
| ReplyService.Service.FailAssistantMessage | app/services/message_service.py:490-512 | writes the error unless the id is another sender's row or a non-empty answer is stored |
| ReplyService.Service.RegisterPendingResponse | app/services/message_service.py:301-327 | key then deadline; whatever failed, what the clearing leaves |
| ReplyService.Service.ClearPendingResponse | app/services/message_service.py:329-337 | the second removal only after the first succeeded |
| ReplyService.Service.SendRequest | app/services/message_service.py:192-215 | for any outcomes of its calls, a run of the protocol from the placeholder to the return; accepted iff marker and batch succeeded, with exactly what it then leaves in each store; refused and cleaned up, no marker and a deleted placeholder |
| ReplyService.StrandedByFailedCleanup | app/services/message_service.py:273-299 | when an undisturbed request is left published, pending and without its marker: exact condition on the outcomes of its calls |
| ReplyService.Service.HandleResponseGenerated | app/events/consumers.py:193-281 | a duplicate or refused event changes nothing; any other is a run of the protocol from delivery to inbox, with exactly what it leaves in each store: an error replaces a timeout message, never a stored answer |
| ReplyService.Service.ProcessExpiredPending | app/workers/pending_timeout_worker.py:28-104 | a run of the protocol that takes up every overdue id, and the number of replies it failed; an entry without errors has no marker left and its reply the timeout message, unless it was answered; other ids stay as they are |
| ReplyService.HandlerRuns | app/events/consumers.py:239-281 | what one delivery leaves under the response id, and that it leaves everything else |
| ReplyService.SendRuns | app/services/message_service.py:192-211 | what one request leaves under its ids for every combination of failing calls |
| ReplyGuarantees.NobodyIsStranded | app/services/message_service.py:166-178 | in every reachable state a published request is answered, failed or deleted, or its key and deadline both exist |
| ReplyGuarantees.CleanPassSettlesOverdue | app/workers/pending_timeout_worker.py:28-33 | a pass without errors leaves no request pending that was overdue when it began, whatever runs in between |
| ReplyGuarantees.AnswerStays | app/services/message_service.py:496-503 | a stored non-empty answer survives errors, redelivery, batches and timeouts in every run that does not delete its row |
| ReplyOutcomes.PromptsNeverChange | app/services/message_service.py:450-463 | sender and text of a prompt never change, in every run whatever |
| ReplyOutcomes.Confluence | app/events/consumers.py:239-281 | once a success event was delivered, any redelivery, crash and timeout pass leave the row with its text |
| ReplyOutcomes.LateAnswerWins | app/workers/pending_timeout_worker.py:31-33 | a pass writes the timeout message, benign steps follow, the answer comes, benign steps follow: the row ends with the answer, unless deleted or the event was a duplicate |
| ReplyOutcomes.BenignIsExact | app/services/message_service.py:166-178 | the conditions are exact: a step is safe, whatever benign steps follow, iff it is benign itself |
| ReplyOutcomes.LateScanStrands | app/workers/pending_timeout_worker.py:28-104 | from every state in which a pass starts while the deadline of an unfinished regeneration has passed, benign steps end published, pending and unprotected |
| ReplyOutcomes.EarlyReplyStrands | app/events/consumers.py:239-281 | from every state in which a reply comes for a regeneration not yet published, benign steps end published, pending and unprotected |
| ReplyOutcomes.LateRegenerationIsStranded | app/services/message_service.py:366-437 | a run from the start in which a regeneration ends published, pending and unprotected |
| ReplyOutcomes.FailedCleanupStrands | app/services/message_service.py:289-299 | after a batch applied but reported as failed, with the placeholder kept, the compensation strands the request iff it is a regeneration or not settled yet |
| ReplyOutcomes.FailedCleanupIsStranded | app/services/message_service.py:289-299 | a run from the start in which a send ends published, pending and unprotected |
| ReplyOutcomes.ErrorShutsOutTheAnswer | app/events/consumers.py:219-222 | after a handled error the success event of the same reply is skipped |
| ReplyOutcomes.DeliveryStores | app/events/consumers.py:219-222 | a success event of a published reply is stored iff no final event was handled to the end before or it is the stored one; for a non-empty answer, iff no error event came through first |
| EventStream.ReplayRows | app/services/stream_service.py:111-142 | the message's events newer than `since` in the order of the log, without failures if one completes it; membership in the two parts of the ids |
| EventStream.ReplayHolds | app/services/stream_service.py:120-142 | an event is replayed iff it is logged, of the message, of a later millisecond than `since` or the same and a larger number, and no failure after a completion |
| StreamService.Bus.PublishToken | app/services/stream_service.py:84-109 | append then publish, with the id the append reported; a failed half leaves the other |
| StreamService.Subscription.ServeReplay | app/services/stream_service.py:193-204 | the connection after the replay loop, up to a terminal event |
| StreamService.Subscription.ServeLive | app/services/stream_service.py:206-233 | the connection after messages of the channel, without foreign and repeated ones, up to a terminal event |
| StreamService.NewerIsYielded | app/services/stream_service.py:217-233 | a live event is yielded iff it is of the message and has no id, a later millisecond than the last id, or the same and a larger number; the stream ends with it iff it is marked final or completed |
| StreamService.ReplayEndsAtTerminal | app/services/stream_service.py:200-204 | the replay is yielded up to the first event marked final or completed |
| StreamService.LiveFramesAreNew | app/services/stream_service.py:220-229 | every live frame is of the message and its id is above all yielded before |
| StreamGuarantees.NeverTwice | app/services/stream_service.py:84-233 | in every run the event ids a connection yields grow strictly |
| StreamGuarantees.DeliversExactly | app/services/stream_service.py:193-233 | what a settled connection has yielded: the replay, then newer published events, up to the first terminal one |
| StreamGuarantees.MissesNothing | app/services/stream_service.py:160-164 | every logged event newer than `since` is delivered or older than the end of the stream, or is a failure dropped after completion |
| StreamGuarantees.NothingForeign | app/services/stream_service.py:193-233 | only logged events of the message are delivered, and ones not newer than `since` only when the replay was empty |
| StreamGuarantees.DueAfterReplay | app/services/stream_service.py:193-226 | replay and live part together are the message's events newer than `since` |
| StreamGuarantees.SwappedPublishesLoseAnEvent | app/services/stream_service.py:222-225 | a run in which a logged event newer than `since` is never delivered |
| StreamReordering.YieldsTheRisers | app/services/stream_service.py:193-233 | in every run whatever: the replay, then the messages heard whose ids rise above it and each other, up to the first terminal one; all of it unless the client left |
| StreamReordering.LostIfOvertaken | app/services/stream_service.py:222-225 | with publishes in any order an event is lost iff it was not replayed and came after one of the message with a larger id |
| Mp4Boxes.WalkBoxes | app/artifacts/media.py:22-48 | accepts exactly the files that boxes of section 4.2 of ISO/IEC 14496-12 tile, `ftyp` first; returns exactly their types |
| Mp4Boxes.BoxEnds | app/artifacts/media.py:26-40 | where a box ends, byte by byte of its 32-bit or 64-bit size |
| Mp4Boxes.TilingIsUnique | app/artifacts/media.py:26-45 | a file is cut into boxes in at most one way |
| Mp4Boxes.TruncatedFileIsRejected | app/artifacts/media.py:23 | a file of boxes with explicit sizes, cut inside a box, is rejected |
| Mp4Boxes.ValidateMp4 | app/artifacts/media.py:51-70 | accepted iff within the size limits, well-formed, with moov and mdat; size and digest of the whole content |
| ArtifactService.Service.CasRow | app/artifacts/service.py:157-163 | the change if the status is among the allowed ones, else nothing, and which of the two |
| ArtifactService.Service.ClaimRow | app/artifacts/service.py:201-209 | claimed iff active and without a running lease |
| ArtifactService.Service.Retry | app/artifacts/service.py:179-191 | only a failed row with retries left moves, with its counters reset or raised |
| ArtifactService.Service.MarkObjectMissing | app/artifacts/service.py:193-197 | only a ready row goes back to pending, without any trace of its object |
| ArtifactService.Service.AdoptExistingObject | app/artifacts/service.py:328-347 | a stored valid video of an active row is adopted, an invalid one deleted, unless the await it is at breaks; exactly the steps up to there |
| ArtifactService.Service.Dispatch | app/artifacts/service.py:245-259 | the round of a pending row: for all answers and all failures the protocol worker's steps, and what they leave on the rows; with nothing stored and nothing breaking, queued with the job and one attempt more, or failed if refused or without attempts |
| ArtifactService.Service.PollJob | app/artifacts/service.py:261-280 | the same for a queued or rendering row: failed, cancelled, expired or overdue jobs fail the row, a ready one makes it uploading, a lost one pending without a job or failed at the maximum, others queued or rendering |
| ArtifactService.Service.Upload | app/artifacts/service.py:282-311 | the same for an uploading row: a valid video is stored and makes it ready, an invalid or refused one failed, a missing one pending without a job or failed at the maximum |
| ArtifactService.Service.Advance | app/artifacts/service.py:211-234 | nothing iff the row cannot be claimed; else exactly the claim, the steps of its rounds and the writes of the lease; and on the rows alone, for all answers and failures, what those rounds come to (`ArtifactRounds.RoundsOf`), a pause after an exception, the release otherwise; a render that failed, was cancelled or expired leaves the row failed |
| ArtifactRounds.OnePass | app/artifacts/service.py:220 | with a quick renderer one advance takes a new artifact from pending to ready, with its object, one attempt and its job |
| ArtifactRounds.LostRendersEnd | app/artifacts/service.py:264-268 | renders lost in every round are begun three times; the next advance fails the artifact |
| ArtifactRounds.BrokenAtOnce | app/artifacts/service.py:224-234 | an exception at the first await changes nothing and leaves a pause, a cancellation no pause |
| ArtifactService.ReadyRowIsVerified | app/artifacts/service.py:157-347 | what the service shows of its row is what the protocol guarantees |
| ArtifactGuarantees.StepSound | app/artifacts/service.py:157-197 | ready is left only by a report of a missing object, failed only by a retry, in every interleaving |
| ArtifactGuarantees.ReadyMeansVerified | app/artifacts/service.py:282-347 | a ready row has the deterministic key, and size and checksum of a valid video; any other has none; counters keep their maxima |
| ArtifactGuarantees.LeaseExcludes | app/artifacts/service.py:199-209 | in every run in time there is one worker at most, and no claim meets another |
| ArtifactGuarantees.InTimeIsExact | app/artifacts/service.py:165-168 | a step (time passing a held lease, a reset before the release) is in time iff no claim meets another worker in any continuation in time |
| ArtifactGuarantees.RunTracked | app/artifacts/service.py:211-311 | in every run in time the snapshot of a worker with more to do than its release is the row, its next call fits the status, and a pending row has an attempt left |
| ArtifactVideo.ReadyIsStored | app/artifacts/service.py:304-311 | in every careful run (in time, no object lost while somebody relies on it) a ready row's object is stored, with size and checksum |
| ArtifactVideo.NeverRenderedAgain | app/artifacts/service.py:245-249 | in every run in time without external loss, once a video is stored it stays and nothing is submitted or downloaded again |
| ArtifactVideo.CrashAfterUploadRecovers | app/artifacts/service.py:328-347 | after a crash between upload and update one advance makes the row ready |
| ArtifactVideo.OverlapLosesIt | app/artifacts/service.py:165-168 | from every state with an empty store and an active row that can be claimed beside a worker with only its release to make: a run without any loss to a ready row whose stored video is another one |
| ArtifactVideo.OverlapRendersAgain | app/artifacts/service.py:328-347 | from every pending or uploading row with a stored video that can be claimed beside a worker with only its release to make: a run without any loss in which the renderer is asked again |
| ArtifactVideo.CarefulIsExact | app/artifacts/service.py:282-347 | a step is careful iff no careful continuation has a ready row without its video |
| ArtifactBounds.ChangesAreBounded | app/artifacts/service.py:211-311 | in every run in time status changes are paid for by potential (attempts left, rank of the status), fallbacks of the renderer and resets; renders by attempts and resets |
| ArtifactBounds.FreshRowEnds | app/artifacts/service.py:211-311 | in every run in time: at most 4 * MAX_AUTO status changes, 2 more for each fallback, 1 + 4 * MAX_AUTO more for each reset; ready or failed once they are used up; a pending row has an attempt left |
| ArtifactBounds.RendersPerReset | app/artifacts/service.py:245-259 | in every run in time at most MAX_AUTO renders are taken note of for the registration and for each reset |
| ArtifactBounds.RetriesAreCounted | app/artifacts/service.py:179-197 | in every interleaving in which no retry acts on an outdated count, the retry count and the reports are the resets |
| ArtifactBounds.RendersOfOneArtifact | app/artifacts/service.py:179-197 | in time, with no retry on an outdated count: at most MAX_AUTO renders for the registration, each allowed retry and each reported loss |
| ArtifactBounds.WithoutFallbacks | app/artifacts/service.py:274-279 | in every interleaving there are no fallbacks unless a job seen working is reported as waiting |
| ArtifactBounds.StaleRetriesHaveNoBound | app/artifacts/service.py:179-191 | runs in time in which n retries on one count give MAX_AUTO * (1 + n) renders without any report, and the retry count is at most 1 |
| ArtifactBounds.OverlapRendersTooOften | app/artifacts/service.py:258-259 | a run from registration with an overlap and no reset in which MAX_AUTO + 1 renders are taken note of |
| ArtifactBounds.FallbacksHaveNoBound | app/artifacts/service.py:274-279 | runs in time with one render, no reset and n fallbacks, and 1 + 2n status changes |
| ArtifactGuarantees.LateReleaseLetsAdvancesOverlap | app/artifacts/service.py:165-168 | from every state in which a row is reset while its worker has yet to release it, two fresh advances can run at once, within the lease of the first |
| ArtifactGuarantees.RetryBeforeTheRelease | app/artifacts/service.py:179-191 | a run from registration in which no time passes and two advances overlap |
| ExportService.Exports.Create | app/exports/service.py:77-112 | an export under way, or finished and not past its retention, is reused untouched; else a new pending job, or at the owner's limit nothing; only this request's overdue exports change, to expired, unless refused; one live job per owner and request stays |
| ExportService.Service.ClaimJob | app/exports/service.py:122-132 | claimed iff open, attempts left and no running lease; attempts and lease raised together |
| ExportService.Service.Process | app/exports/service.py:145-196 | for any outcomes, a run of one worker of the protocol from the claim to its end, or nothing; and the exact job and objects: published until the end of the retention, back to pending for a pause, or failed for good or without attempts |
| ExportService.Service.Settle | app/exports/service.py:191-196 | publishes while processing; else the uploaded file is removed, if that call takes effect; settled iff no call it makes reports an error |
| ExportService.Service.FailExhaustedJobs | app/exports/service.py:241-247 | fails exactly the open job without attempts whose lease has run out |
| ExportService.Service.ExpireDue | app/exports/service.py:249-260 | exactly an overdue export loses its object, then expires |
| ExportJobs.RunSound | app/exports/service.py:122-197 | in every interleaving attempts equal claims, within the maximum; failed and expired are final, a ready job only expires |
| ExportJobs.ClaimsAreBounded | app/exports/service.py:122-132 | successful claims equal the attempt count, at most EXPORT_MAX_ATTEMPTS |
| ExportJobs.EveryJobSettles | app/exports/service.py:229-247 | found by worker passes once more than it has attempts left, a job is no longer open, whatever workers, crashes and cleaners do in between |
| ExportJobs.LeaseExcludes | app/exports/service.py:122-132 | while no time passes a held lease there is one worker at most, and neither a claim nor the failing of exhausted jobs meets it |
| ExportJobs.InTimeIsExact | app/exports/service.py:122-132 | a step is in time iff in no continuation in time a claim or the failing of exhausted jobs meets a worker |
| ExportJobs.ReadyIsStored | app/exports/service.py:187-194 | in every timely run a ready job not yet due has its object stored, with size and checksum, late workers that gave up or have no attempt left included |
| ExportJobs.TimelyIsExact | app/exports/service.py:187-196 | a step is timely (no lease of a job with attempts left runs out on a worker that has not given up) iff no timely continuation loses the file of a ready job |
| ExportJobs.LateWorkerDeletesTheFile | app/exports/service.py:195-196 | wherever a claim succeeds beside a worker that has not given up, a run ends with the job ready and its file removed |
| ExportJobs.OverdueWorkerMayDeleteTheFile | app/exports/service.py:195-196 | so wherever time passes the lease of such a worker while attempts are left |
| ExportJobs.OneLiveJobPerRequest | app/exports/service.py:88-112 | at most one live job per owner and request in every run |
| Hierarchy.RootOf | app/services/hierarchy_service.py:24-38 | ends at a node without parent or on a cycle, reachable from the start, with the parent that is missing or closes it |
| Hierarchy.BelowTopIsComponent | app/services/hierarchy_service.py:1-9 | what leads up to that end is exactly what is linked to the start through parents, in either direction |
| HierarchyWalk.BuildHierarchy | app/services/hierarchy_service.py:65-72 | nodes by id; each child list is exactly the children, by age and id |
| HierarchyWalk.Subtree | app/services/hierarchy_service.py:40-52 | the explicit stack computes the recursive pre-order walk, on any graph |
| HierarchyWalk.VisitsOnce | app/services/hierarchy_service.py:40-52 | no id twice, none outside the catalog |
| HierarchyWalk.SubtreeIsWhatReaches | app/services/hierarchy_service.py:40-52 | the subtree is exactly what leads up to its root |
| HierarchyWalk.TreesPartitionTheCatalog | app/services/hierarchy_service.py:1-9 | the tree of a conversation is exactly its linked component, whatever cycles there are |
| HierarchyWalk.MembersShareTheirTree | app/services/hierarchy_service.py:1-9 | every member of a tree resolves to the same tree |
| HierarchyOrder.SubtreeParentsFirst | app/services/hierarchy_service.py:41 | every non-root is listed after its parent |
| HierarchyOrder.SubtreeSiblingsByAge | app/services/hierarchy_service.py:41 | non-roots with one parent are listed by (created_at, id) |
| HierarchyOrder.SubtreeIsPreOrder | app/services/hierarchy_service.py:40-52 | on acyclic links the walk is plain recursive pre-order |
| HierarchyOrder.DepthOf | app/services/hierarchy_service.py:54-62 | the least number of parents up to the root; else where the chain ends or repeats |
| HierarchyOrder.DepthIsParentsPlusOne | app/services/hierarchy_service.py:54-62 | the depth of a listed non-root is its parent's plus one |
| ArchiveNames.Slug | app/exports/naming.py:12-17 | never empty, at most 40 safe characters between letters or digits, no device name |
| ArchiveNames.SlugKeepsSlugs | app/exports/naming.py:12-17 | a slug is its own slug |
| ArchiveNames.SlugOfWords | app/exports/naming.py:12-17 | the slug of words with gaps around and between them: the words in lower case, one dash between two |
| ArchiveNames.ValidByParts | app/exports/naming.py:33-40 | a path is accepted iff each component is safe and at most 120 long |
| ArchivePaths.PlanPaths | app/exports/archive.py:30-57 | total and injective; each directory directly under `conversations/` or under `branches/` of one that lists it, with letters added only while the shorter names are in use; at the top only roots and what no root leads to; all accepted without repeated names or with at most 72 conversations |
| ArchivePaths.PathsAreDistinct | app/exports/archive.py:30-57 | each conversation has a path and no two share one |
| ArchivePaths.ArchiveMirrorsBranches | app/exports/archive.py:30-57 | in a forest with distinct names every conversation is in its own directory under `branches/` of its parent's, and roots under `conversations/` |
| ArchivePaths.OnlyLengthIsRefused | app/exports/naming.py:33-40 | a planned path is refused exactly when the name of its conversation, or of one above it, has grown over 120 characters by the letters it got |
| ArchivePaths.PlannedPathsAreValid | app/exports/naming.py:24-40 | without repeated names, or with at most 72 conversations, every planned path is accepted |
| BranchLineage.ResolveLineage | app/services/branch_context_service.py:63-97 | the chain of readable, distinct ancestors with their boundaries, as long as possible, and why it ends |
| BranchLineage.LinksAre | app/services/branch_context_service.py:87-95 | each segment is of the parent of the conversation below it, with that one's branch message, or else its creation time |
| BranchLineage.EndIs | app/services/branch_context_service.py:69-86 | why a lineage ends, in terms of the conversations: no parent, 25 ancestors, a cycle, a missing, foreign or deleted parent, in this order |
| BranchLineage.LineageIgnoresOthers | app/services/branch_context_service.py:63-97 | the lineage is determined by its members and the conversation it stops at |
| BranchLineage.AncestorsAreDistinct | app/services/branch_context_service.py:66-76 | no ancestor twice and never the conversation itself |
| BranchContext.InheritedHistory | app/services/branch_context_service.py:128-155 | the longest fitting list of different messages, nearest ancestor first, given oldest first |
| BranchContext.InheritedIsLongest | app/services/branch_context_service.py:134-148 | within both budgets, and any fitting beginning of the candidates is part of it |
| BranchContext.SegmentHolds | app/services/branch_context_service.py:99-124 | which messages of an ancestor count: finished text, within its boundary, and among the newest stored rows up to the branch message |
| BranchContext.BranchMessageIsInherited | app/services/branch_context_service.py:128-155 | the text of the message a branch was taken at is the last turn of its inherited history |
| BranchContext.InheritedDocuments | app/services/branch_context_service.py:160-179 | the first 50 different files of the inherited prompts, root first |
| BranchContext.BranchFilesAreInherited | app/services/branch_context_service.py:160-179 | the files of a prompt at a boundary are candidates, and among the documents unless there are more than 50 |
| BranchContext.InheritsUpToBoundaries | app/services/branch_context_service.py:6-9 | two stores that agree up to the boundaries give the same history and documents |
| BranchContext.BranchesDoNotInterfere | app/services/branch_context_service.py:6-14 | any writes above the boundaries, and any elsewhere, change nothing inherited |
| BranchContext.OwnMessagesAreAbove | app/services/branch_context_service.py:66-76 | writes to the conversation itself are among those |
| OldBranches.OldBranchesMayForgetMessages | app/services/branch_context_service.py:128-155 | without a boundary a later parent message leaves the inherited history as it is iff the row it pushes out of the window contributes nothing, is picked already, or came when the pick was full and no farther message takes its place |
| OldBranches.OldBranchesMayForgetDocuments | app/services/branch_context_service.py:160-179 | the same for the documents: iff the row pushed out contributes nothing, or farther ancestors list its files or fill the list |
| OldBranches.OldAncestorsMayForget | app/services/branch_context_service.py:63-97 | both conditions at any place of any lineage |
| OldBranches.AnOldBranchForgets | app/services/branch_context_service.py:103-107 | a parent in which one later message makes the inherited history change |
| OldBranches.AnOldBranchForgetsItsDocument | app/services/branch_context_service.py:103-107 | a parent in which one later message makes the inherited documents change |
| HistoryBudget.FormatHistory | app/services/message_service.py:248-271 | the longest fitting list of the newest usable messages, oldest first |
| HistoryBudget.LongestIsMaximal | app/services/message_service.py:255-270 | nothing that fits is longer |
| ExportCollector.Messages | app/exports/collector.py:69-92 | pages up to where they stop, reversed, cut at the marker if it is there, finished text only |
| ExportCollector.CollectsAllWithoutGaps | app/exports/collector.py:73-78 | within the message limit everything is read iff no 100 deleted rows in a row come before an older message |
| ExportCollector.CollectsTheNewest | app/exports/collector.py:73-78 | without such a gap a longer conversation gives its newest messages, at least as many as the limit |
| ExportCollector.ExportMeetsThePromise | app/exports/collector.py:70 | with a stored marker and no gap: exactly the finished messages up to it, oldest first, each once |
| ExportCollector.ExportWithoutMarker | app/exports/collector.py:80-91 | without a marker and a gap: exactly the finished messages, oldest first |
| ExportCollector.StaysWithinTheSnapshot | app/exports/collector.py:80-84 | nothing beyond the marker iff, among the rows read, it is still a message or no finished text is newer; within the limit and without gaps that is all rows |
| ExportCollector.DeletedMarkerLimitsNothing | app/exports/collector.py:80-84 | a conversation whose marker was deleted and whose newer message is exported |
| ExportCollector.MarkerIsNewest | app/exports/collector.py:51-67 | the marker is the newest row, or nothing if that one is deleted |
| PreferencesMigration.Migrator.Migrate | app/migration/preferences_to_postgres.py:105-159 | table and report are those of the row-by-row run, for every batch size, dry or not |
| PreferencesMigration.Migrator.Flush | app/migration/preferences_to_postgres.py:116-140 | a batch counts and upserts as its rows would one by one |
| PreferencesMigration.CountersAddUp | app/migration/preferences_to_postgres.py:34-45 | examined = inserted + refreshed + skipped + rejected |
| PreferencesMigration.DryRunPredicts | app/migration/preferences_to_postgres.py:119-128 | a dry run predicts the counters iff no new user is repeated and, of one user, the rows newer than the stored one ascend in version and time |
| PreferencesMigration.DryRunCounts | app/migration/preferences_to_postgres.py:119-128 | what a dry run counts as inserted, refreshed and skipped |
| PreferencesMigration.DryRunMissesRepeats | app/migration/preferences_to_postgres.py:119-128 | a repeated new user is counted as inserted twice |
| PreferencesMigration.RerunChangesNothing | app/migration/preferences_to_postgres.py:6 | the same values again change nothing and are all skipped |
| PreferencesMigration.RerunLater | app/migration/preferences_to_postgres.py:6 | the same rows at a later time change nothing iff no row without a time of its own has a later version than its user's stored row, stored with a time before the rerun; then all are skipped |
| PreferencesMigration.RerunLaterOfUniqueUsers | app/migration/preferences_to_postgres.py:72-86 | without repeated users: iff every such row that the later run would apply to the table before both runs is already newer in the first run |
| PreferencesMigration.RerunOverwritesAnEdit | app/migration/preferences_to_postgres.py:8-10 | a row of the new application that the first run keeps and the second one overwrites |
| PreferencesMigration.ResumingIsTheFullRun | app/migration/preferences_to_postgres.py:6 | an interrupted run followed by a full one is the full run |
| PreferencesMigration.VersionsNeverDecrease | app/migration/preferences_to_postgres.py:90-102 | no row is lost, and no version or time goes back |
| PreferencesMigration.MigratedRow | app/migration/preferences_to_postgres.py:88-102 | the stored row of a user that occurs once, field by field: new, overwritten without the chosen mode, or as it was |
| PreferencesMigration.Verify | app/migration/preferences_to_postgres.py:169-189 | one mismatch for each legacy row that finds no row, or another content of no later version, in the order of the rows, and none else; all other accepted rows are verified or have a later version |
| PreferencesMigration.MigratedRowVerifies | app/migration/preferences_to_postgres.py:169-189 | after a run a row is reported iff a different content of no later version was kept because it is not older |
| PreferencesMigration.FreshMigrationVerifies | app/migration/preferences_to_postgres.py:169-189 | a migration into a table without these users verifies completely |
| Uuids.TimestampIsKept | app/utils/helpers.py:27-67 | the first 48 bits are the clock; version 7 and the variant are in place |
| Uuids.EarlierIsSmaller | app/utils/helpers.py:27-54 | an earlier millisecond gives a smaller id for any random bits |
| Uuids.EqualIdsAreEqualInputs | app/utils/helpers.py:32-53 | two ids are equal iff clock and all unmasked random bits are |
| Uuids.UuidV7After | app/utils/helpers.py:10-24 | above the floor unless the floor is all ones; the first candidate that is, else the floor plus one |

## Left out

- Interleavings inside a class method: the service classes run undisturbed; other actors between two awaits are in the protocol modules only.
- Message rows of several conversations in the reply protocol: it is about one conversation; `MessageRepository` has all of them.
- The expiry of the marker key after its grace period, and clock differences between processes (last-write-wins timestamps).
- Stream connections without a message id, ownership keys, heartbeats, time limits in seconds, and events that do not parse.
- The handler of chat.response.chunk: dedup and one publish, with a claim that would repeat the other handler's.
- ArtifactBounds.RendersOfOneArtifact: a render whose submission was reported as failed is not counted; the row knows nothing of it.
- ArtifactService.Service.Advance: thumbnails, titles and failure codes are not in the row; what expires when is given by the caller.
- Registration of artifacts and fingerprints: idempotent by a unique key, one statement.
- ExportJobs.Step: the orphan sweep reads the status and deletes in one step; the code has an await in between and relies on an hour's grace.
- ExportService.Exports.Create: transactions run one at a time; two at once can both pass the limit check, while the unique index still holds (`ExportJobs.OneLiveJobPerRequest`).
- ExportService.Service.Process: file names, progress and failure codes are not in the row; the content of the file is given.
- ArchiveNames.Slug: Unicode decomposition (NFKD) is applied before; from there on the function is complete.
- PreferencesMigration.Migrator.Migrate: `transform` of single fields is given, and so is the time of the run, one for all its rows; rate limiting is not modelled.
- BranchContext.InheritedHistory: a failed read gives an empty history; only successful reads are modelled.
- Hard deletion of conversations, caches, citations, attached notes, custom modes, outbox and retry workers.
- sha256 is taken to be injective; HTTP, settings, logging and the database, Redis, Kafka and object-store drivers are plumbing.
