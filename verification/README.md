# A verified model of the risk manager's synchronization

The repository is a risk, opportunity and help-desk manager whose desktop client works offline.
Each client keeps local rows, an outbox with at most one open change per row, and a watermark. The
server keeps versioned rows, a per-project change counter and a receipt per change id. A push is a
compare-and-swap on `base_version` that may be lost, repeated or regrouped; a pull pages the change
feed under a snapshot; a conflict is resolved by keeping mine, using the server's row, or merging fields.

The model is in three layers.

* **Rules as functions**: `PushRules` (what the server decides), `LocalDb` (what each client operation
  does), `PullFeed` (the feed and its pages), `ItemCodes` and `Decimal`.
* **The code in its own form**: classes and loops that update state in place, each proved to compute
  its rule. `PushEngine` (loaded rows, version claims, savepoints, one stamped flush), `OutboxStore` and
  `SyncService` (the client's writes), `PushReply` (the reply validator), `PagedPull` (text cursors and
  the paging loop).
* **The protocol**: `SyncModel` is a step relation over one server, its REST writers and any number of
  clients. The network is adversarial: the server may process any batch of changes that ever left a
  client, at any time, any number of times; local edits interleave with a running synchronization, and
  writers with the single queries of a pull.
  `SyncInvariant` is one inductive invariant, `SyncPreservation.StepKeeps` shows that all sixteen kinds
  of step keep it, and `SyncTheorems` reads the promises off it for every reachable state.
  `SyncExample` exhibits a complete run, so the theorems do not hold for want of states.
* **Where the protocol can still go**: `SyncProgress` builds, from any reachable state, a continuation in
  which a client catches up with the server, and `SyncStuck` shows that exactly the clients with a stuck
  delete have none. `SyncKeepMine` builds one that keeps the client's side of every conflict. `MergeWire` follows a merge by fields from the user's choices to the server's row.

Four further cores stand alone: `RefreshTokens` (rotation as described in section 10.4 of RFC 6749 and
section 4.14.2 of RFC 9700), `WriteTransaction`, `RateLimiter` and `ConflictMerge`.

History variables (`archive`, `sent`, `seen`, `minted`, `owner`, `at`, `born`, `log`) record what happened
and are read by no rule (`born` also dates the snapshot an outdated query sees). A client "knows" a version when it wrote it or has stored the server's exact copy of it.

## Hypotheses

The source does not enforce these by itself; the step relation assumes them.

* One synchronization at a time per client; edits may interleave with it.
* Selecting a batch and marking it attempted is one step. With edits in between, the client's invariant
  survives the late mark exactly if each selected change is still queued or its row has an unsent edit on a
  base (`SyncLateMark.LateMark`); `SyncLateMark.DiscardedReturns` is a run in which it fails.
* No conflict is resolved between fetching and applying a pull. A pull started at or below the present
  watermark is safe (`SyncHypotheses.PullFromBelowKeepsCoverage`), any other start has a failing state
  within the invariant (`SyncHypotheses.PullFromAboveLosesCoverage`), and
  `SyncStaleConflict.ResolvingDuringPullLosesRows` is a run in which a row is lost.
* A REST delete's version is still current when it is flushed. It reads its row without a lock; the
  invariant survives exactly then (`SyncHypotheses.LateDeleteKeepsInvariant`).
* An editor's own base version is one the client knows, hence at least one.
  `SyncHypotheses.EditorBaseBelowOne` gives the exact effect of a smaller value, zero included.
* Edits and deletes act on live rows; row and change ids are fresh; clients create no assessments.
* One account per client; the server is never restored to an older database; receipts are kept.

## Findings

* `_apply_pull` (client/riskapp_client/services/synchronization_service.py:740) writes the fetched watermark
  unconditionally. After a replayed conflict, "use server" during a pull leaves a stale row below the
  watermark, where pulls do not look again until the row changes (`SyncStaleConflict.ResolvingDuringPullLosesRows`).
* `delete_item` (server/riskapp_server/core/items_crud.py:273-286) and `delete_helpdesk_ticket`
  (server/riskapp_server/api/routers/helpdesk.py:142-170) neither lock nor claim the row they read. If a push
  commits before their flush, one version is written twice, the counter passes the sum of versions, and a
  client can overwrite a deletion it never saw (`SyncHypotheses.LateDeleteLosesUpdate`).
* A batch is selected (client/riskapp_client/services/synchronization_service.py:614) before it is marked (:558).
  A create discarded in between still leaves: the server stores it and the next pull brings the deleted row
  back (`SyncLateMark.DiscardedReturns`).
* A delete that the server refused, or that failed other than by a conflict, a login or a transient error, is
  never sent, replaced or dropped again, because its row can no longer be edited. The client never catches up
  from then on (`SyncStuck.ConvergesIff`; in the run of `SyncStuck.RefusedDelete` a member deletes a risk).
* `override_base_version` with 0 writes NULL and forgets that a sent create may exist
  (`SyncHypotheses.EditorBaseBelowOne`, `SyncHypotheses.EditorBaseZero`).
* Waiting exactly `retry_after` seconds may still be denied, because a hit on the window's edge counts
  (`RateLimiter.WaitingExactly`, `RateLimiter.EdgeStillCounts`).

## Model

| member | source | states |
|---|---|---|
| SyncTheorems.NoLostUpdate | server/riskapp_server/sync/mutations.py:225-280 | in every reachable state and for any batch of sent changes, each change touches only its own row, and if it overwrites a row then its base is the current version and its sender wrote that version or holds its exact copy |
| SyncTheorems.BasesAreKnown | client/riskapp_client/adapters/local_storage/sync_outbox_queue.py:681-737 | no queued or sent change is ever based on a version its client has not seen; a missing base only for rows the client minted itself |
| SyncTheorems.CoverageHolds | client/riskapp_client/services/synchronization_service.py:707-740 | every server row at or below a client's watermark has an open outbox entry there or equals the local row, through pending skips, acknowledgements and rewinds |
| SyncTheorems.Convergence | client/riskapp_client/adapters/local_storage/server_state.py:482-503 | an empty outbox and a watermark at the counter mean both sides hold the same live rows with the same contents |
| SyncTheorems.PulledConflictIsCurrent | client/riskapp_client/adapters/local_storage/server_state.py:64-98 | applying a pull gives each open conflict on a changed row that row's copy, and keeps the conflict's base and local change |
| SyncTheorems.SentPayloadsFixed | client/riskapp_client/adapters/local_storage/sync_outbox_queue.py:611-625 | a change that ever left keeps op, base and record while it can be sent, and an id names one payload only |
| SyncTheorems.HonestResendMatches | server/riskapp_server/sync/receipts.py:114-133 | however late, repeated or regrouped, an honest client's resend never meets a duplicate-id error |
| SyncTheorems.SentRowsAreDeletedRemotely | client/riskapp_client/adapters/local_storage/sync_outbox_queue.py:435-471 | once a request with a row's id left, deleting the live row never discards; it queues a delete at base one or higher, or turns the open conflict into a delete |
| SyncTheorems.DiscardedNeverLeft | client/riskapp_client/services/scored_entity_management_service.py:162-178 | a discard happens only if no request with that id was ever sent and the server has no such row |
| SyncTheorems.OutboxMatchesRows | client/riskapp_client/adapters/local_storage/entity_store.py:180-241 | at most one entry per row; its row exists, is dirty and is deleted iff the entry is a delete; every live dirty row has an entry |
| SyncTheorems.RepliesAlwaysApply | client/riskapp_client/adapters/local_storage/sync_outbox_queue.py:627-656 | a reply to the current request always applies in full, the watermark never passes the counter, and row sequences stay distinct |
| SyncTheorems.ServerLedger | server/riskapp_server/db/models.py:582-632 | in every reachable state the counter is the sum of all versions, each change id is audited at most once, exactly if its receipt carries server state, and pushes wrote as many versions as were audited |
| SyncTheorems.AcknowledgingKeepsCodesUnique | client/riskapp_client/adapters/local_storage/server_state.py:371-459 | after every single result of a reply, code swaps included, no two local rows of a kind share a code |
| SyncTheorems.PullingKeepsCodesUnique | client/riskapp_client/adapters/local_storage/server_state.py:155-210 | after every single row of a pull no two local rows of a kind share a code |
| SyncExample.FirstSync | client/riskapp_client/services/synchronization_service.py:596-627 | a run in which a row created on a client is pushed, acknowledged and pulled, and both sides agree |
| SyncPreservation.StepKeeps | client/riskapp_client/services/synchronization_service.py:551-627 | each of the sixteen kinds of step keeps the whole invariant of server and clients |
| SyncPreservation.RunKeeps | client/riskapp_client/services/synchronization_service.py:596-627 | the invariant holds in every state of every run from a fresh project |
| SyncPreservation.ProcessKeeps | server/riskapp_server/sync/engine.py:387-423 | processing any batch of sent changes keeps the invariant of the server and of every client |
| SyncPreservation.RestKeepsInv | server/riskapp_server/core/items_crud.py:187-286 | REST creates, updates and deletes whose read is current keep the invariant of the server and of every client |
| SyncServerSteps.PushFirstOk | server/riskapp_server/sync/engine.py:387-423 | after any prefix of a push, every result is one its client may rely on, and with one change per row each acknowledged record is the current row |
| SyncServerSteps.FreshStep | server/riskapp_server/sync/engine.py:333-384 | one new change keeps the invariant, evolves the server and overwrites only what its sender knew |
| SyncServerSteps.DuplicateStep | server/riskapp_server/sync/engine.py:118-150 | a replay changes no row, version, counter or receipt and adds one result its client may rely on |
| SyncServerSteps.HonestDuplicate | server/riskapp_server/sync/engine.py:118-150 | a repeated id of an honest client matches its first payload, whether answered earlier or in the same request |
| SyncServerSteps.ReplayIsOk | server/riskapp_server/sync/receipts.py:136-172 | a refreshed replay still names the version its sender wrote and carries the current row |
| SyncServerSteps.RepliesApart | server/riskapp_server/sync/engine.py:242-293 | the records of one reply never carry the same code twice |
| SyncQueueing.QueueKeeps | client/riskapp_client/adapters/local_storage/sync_outbox_queue.py:261-322 | replacing an open entry, or keeping its blocked conflict, keeps the invariant even while a request is in flight |
| SyncQueueing.ReplaceEffect | client/riskapp_client/adapters/local_storage/sync_outbox_queue.py:261-322 | a conflict keeps its id, base and saved copy; otherwise the row's one entry is new and unsent, on the squashed base |
| SyncEdits.SaveQueues | client/riskapp_client/services/scored_entity_management_service.py:56-160 | a create or edit leaves the row and one fitting entry whose base the client knows |
| SyncEdits.DeleteQueues | client/riskapp_client/services/helpdesk_service.py:71-92 | a queued delete fits its soft-deleted row and its base is known |
| SyncEdits.KeepMineQueues | client/riskapp_client/services/synchronization_service.py:446-462 | "keep mine" requeues the local change under a new id on the newest version either side has seen |
| SyncEdits.DiscardIsUnsent | client/riskapp_client/services/helpdesk_service.py:71-92 | the discard guard implies that nothing with this row's id ever left |
| SyncAcknowledge.DeliverKeeps | client/riskapp_client/services/synchronization_service.py:541-549 | acknowledging a whole reply never fails and keeps the invariant, with edits made while it was in flight |
| SyncAcknowledge.AckReplaced | client/riskapp_client/adapters/local_storage/sync_outbox_queue.py:681-737 | rebasing a newer edit on an acknowledged version, replays included, keeps its base known and the row covered |
| SyncAcknowledge.AckSentRow | client/riskapp_client/adapters/local_storage/sync_outbox_queue.py:658-679 | dropping the accepted entry and storing the server's row keeps coverage and codes |
| SyncSettling.SendKeeps | client/riskapp_client/services/synchronization_service.py:551-559 | selecting and marking a batch keeps the send boundary and fixes its payloads |
| SyncSettling.SettleKeeps | client/riskapp_client/services/synchronization_service.py:523-592 | blocking, deferring or dropping one result keeps the invariant and the results still to be settled |
| SyncSettling.ReleaseAuthenticationKeeps | client/riskapp_client/adapters/local_storage/sync_outbox_queue.py:802-817 | releasing login-blocked changes keeps the invariant |
| SyncPulling.ApplyPullKeeps | client/riskapp_client/services/synchronization_service.py:707-740 | applying all pulled rows and the new watermark keeps coverage although rows with open changes are skipped |
| SyncPulling.UseServerKeeps | client/riskapp_client/services/synchronization_service.py:509-516 | "use server" keeps the invariant by rewinding the watermark, also while a push is in flight |
| SyncPulling.FinishedDelivers | client/riskapp_client/services/synchronization_service.py:799-850 | a finished pull holds every row still current between the watermark and the snapshot |
| SyncMerging.MergeKeeps | client/riskapp_client/services/synchronization_service.py:470-507 | a merge keeps the invariant and queues its fields under a new id on the saved server version |
| SyncStores.TookCovers | client/riskapp_client/adapters/local_storage/server_state.py:199-210 | storing a current server copy covers its row and uncovers none, although it may clear another row's code |
| SyncStores.PutCopyKeepsCodes | client/riskapp_client/adapters/local_storage/server_state.py:199-210 | releasing a code before writing its new owner never breaks local uniqueness |
| SyncHypotheses.EditorBaseBelowOne | client/riskapp_client/adapters/local_storage/sync_outbox_queue.py:324-358 | after an edit over a create that may have left, that knowledge survives iff the editor's own base is absent or at least one |
| SyncHypotheses.EditorBaseZero | client/riskapp_client/adapters/local_storage/sync_outbox_queue.py:324-358 | an editor's base of zero over a sent create leaves an entry that looks as if nothing had left |
| SyncLateMark.LateMark | client/riskapp_client/services/synchronization_service.py:614-616 | after any edits between selecting a batch and marking it, with everyone else running, the client's invariant holds iff each selected change is still queued or its row has an unsent edit on a base |
| SyncLateMark.DiscardedReturns | client/riskapp_client/services/synchronization_service.py:551-559 | a reachable selection, a discard and the late request: after one push and one pull the deleted row is live again |
| SyncHypotheses.PullFromBelowKeepsCoverage | client/riskapp_client/services/synchronization_service.py:707-740 | a pull that started at or below the current watermark keeps coverage when applied |
| SyncHypotheses.PullFromAboveLosesCoverage | client/riskapp_client/services/synchronization_service.py:707-740 | for every start above the watermark there are a server, a client and a finished pull within the invariant whose application leaves a row uncovered |
| SyncStaleConflict.ResolvingDuringPullLosesRows | client/riskapp_client/services/synchronization_service.py:464-516 | in a reachable state a pull is fetched and a replayed conflict is open; taking the server's copy keeps the client covered, but then applying the pull leaves the newest version uncovered |
| SyncHypotheses.LateDeleteKeepsInvariant | server/riskapp_server/core/items_crud.py:273-286 | a REST delete flushed from any copy the row once had keeps the invariant of server and clients iff that copy is still current |
| SyncHypotheses.LateDeleteLosesUpdate | server/riskapp_server/api/routers/helpdesk.py:142-170 | a push between read and flush: the flush repeats a version, the counter passes the sum, and the pusher's next change overwrites the deletion |
| SyncProgress.CanConverge | client/riskapp_client/services/synchronization_service.py:596-627 | from every reachable state in which a client has no stuck delete, some continuation empties its outbox, brings its watermark to the counter and leaves both sides with the same live rows |
| SyncKeepMine.CanKeepMine | client/riskapp_client/services/synchronization_service.py:446-462 | from every such state some continuation keeps the client's side of every conflict: each waiting edit's fields end in its server row, each waiting delete is carried out or had been, and both sides agree |
| SyncKeepMine.FreshOnce | server/riskapp_server/sync/mutations.py:225-280 | a new change without a new code, pushed by a manager, is accepted and holds in its row iff its base is current; else it reports the current row and nothing is written |
| SyncStuck.StuckForever | client/riskapp_client/adapters/local_storage/sync_outbox_queue.py:802-817 | no step of any client, of the server or of a REST writer ever frees a stuck delete |
| SyncStuck.ConvergesIff | client/riskapp_client/adapters/local_storage/sync_outbox_queue.py:802-849 | from a reachable state a client can catch up with the server iff it holds no stuck delete |
| SyncStuck.RefusedDelete | server/riskapp_server/sync/engine.py:224-239 | a reachable state in which a member's delete of a risk was refused, from which that client never catches up |
| ServerHistory.EveryRunIsGood | server/riskapp_server/db/models.py:582-632 | for any requests from anyone, honest or not: the counter equals the sum of versions, sequences are distinct and bounded, codes unique, and applied ids are exactly the audited ones, once each |
| ServerHistory.DecideEffect | server/riskapp_server/sync/engine.py:242-384 | a new change writes exactly one row, one version and one audit entry on a matching base, or nothing but a receipt; a crash leaves nothing |
| ServerHistory.AcceptedContent | server/riskapp_server/sync/mutations.py:283-324 | an accepted upsert stores every field it carries, keeps every other one and sets the deletion flag it asks for |
| ServerHistory.RestKeeps | server/riskapp_server/core/items_crud.py:50-90 | a REST write whose read is current adds one to exactly one version and to the counter, or nothing |
| ServerHistory.LateDeleteKeeps | server/riskapp_server/core/items_crud.py:273-286 | a REST delete keeps counter, versions and history iff the version it read is still current at its flush |
| ServerHistory.LateDeleteRewrites | server/riskapp_server/db/models.py:73-78 | a delete from an outdated read writes a version number that was already written, and only such a delete does |
| ServerHistory.SumAfterWrite | server/riskapp_server/db/models.py:73-78 | replacing one row moves the sum of versions by the difference of that row's versions |
| PushEngine.PushChanges | server/riskapp_server/sync/engine.py:387-423 | the request loop over a database changed in place yields the server and the results of the push rules |
| PushEngine.PushContext.ProcessAll | server/riskapp_server/sync/engine.py:89-115 | the context's results, per-request results and hashes stand for the state of the push rules after each change |
| PushEngine.PushContext.RecordDuplicate | server/riskapp_server/sync/engine.py:118-150 | a repeated id adds one result, the replay or the error of the rules, and changes no table |
| PushEngine.PushContext.ApplyPushChange | server/riskapp_server/sync/engine.py:242-293 | a failed savepoint restores every table, whatever was claimed or flushed inside it |
| PushEngine.Database.ChangeExisting | server/riskapp_server/sync/mutations.py:225-324 | a claim in the table, an increment in memory, a possible soft delete and one flush add exactly one version and one sequence |
| PushEngine.Database.CreateNew | server/riskapp_server/sync/mutations.py:369-403 | a create writes version one with a code no item holds |
| PushEngine.Database.RestUpdateRow | server/riskapp_server/core/items_crud.py:187-227 | the REST update claims, changes the reloaded row and stamps it once, or leaves everything as it was |
| PushEngine.RestDeleteRow | server/riskapp_server/core/items_crud.py:273-286 | the delete reads without lock or claim and flushes the changed columns of what it read, over whatever a push wrote meanwhile; a missing row, or a deleted ticket, is refused unchanged |
| PushEngine.Loaded.Update | server/riskapp_server/sync/mutations.py:406-434 | overlay, status change and soft delete together count one version |
| PushEngine.Loaded.SoftDelete | server/riskapp_server/db/models.py:73-78 | a soft delete adds one version, sets the flag and the status of scored items |
| ItemCodes.Canonical | server/riskapp_server/sync/mutations.py:327-358 | a blank request stays without code, a free one is kept, and any code given is held by no item |
| ItemCodes.NextNumber | server/riskapp_server/sync/mutations.py:355-358 | the counting loop ends within one more than the used numbers and finds the least free one |
| Decimal.PrintedValue | server/riskapp_server/sync/mutations.py:358 | padded or not, printed numbers read back as themselves |
| OutboxStore.Store.ReplaceEntry | client/riskapp_client/adapters/local_storage/sync_outbox_queue.py:261-322 | in place: squash into the conflict, or delete and insert with the squashed base |
| OutboxStore.Store.OverrideBaseVersion | client/riskapp_client/adapters/local_storage/sync_outbox_queue.py:324-358 | in place: the base of the row's sendable entry, no value below one |
| OutboxStore.Store.SaveEdit | client/riskapp_client/services/scored_entity_management_service.py:56-160 | in place: row and queued upsert of a create or an edit |
| OutboxStore.Store.DeleteEdit | client/riskapp_client/services/helpdesk_service.py:71-92 | in place: discard, or soft delete and queue on the right base |
| OutboxStore.Store.MarkIdsAttempted | client/riskapp_client/adapters/local_storage/sync_outbox_queue.py:611-625 | after marking, a deleted or edited create of the batch counts as possibly on the server; nothing but the mark of the given entries changes |
| OutboxStore.Store.AcknowledgeAccepted | client/riskapp_client/adapters/local_storage/sync_outbox_queue.py:627-656 | in place: all acknowledgements in order, or no change at all if one does not fit |
| OutboxStore.Store.AdvanceReplaced | client/riskapp_client/adapters/local_storage/sync_outbox_queue.py:681-737 | in place: the newer edit's base and the row's version and code move on, its fields stay |
| OutboxStore.Store.ReleaseCodesFor | client/riskapp_client/adapters/local_storage/server_state.py:371-420 | in place: exactly the codes of acknowledged rows and of rows holding acknowledged codes are cleared |
| OutboxStore.Store.ApplyPull | client/riskapp_client/adapters/local_storage/server_state.py:100-210 | in place: every pulled row in order, pending ones skipped or noted in their conflict, then the watermark |
| SyncService.Service.SettleReply | client/riskapp_client/services/synchronization_service.py:541-592 | in place: acknowledge, drop, block and park a whole reply, or nothing if acknowledging fails |
| SyncService.Service.FailBatch | client/riskapp_client/services/synchronization_service.py:533-539 | in place: exactly the sent entries are deferred or blocked, as the failure says |
| SyncService.Service.ProcessPush | client/riskapp_client/services/synchronization_service.py:551-594 | in place: mark the batch, then settle an exact reply, fail the batch like the request or, for an inexact reply, as transient, or keep just the marks when acknowledging raises |
| SyncService.SettledPushIsSteps | client/riskapp_client/services/synchronization_service.py:551-594 | a settled push leaves the very database that the protocol's send, deliver and settle steps leave |
| SyncService.FailedPushIsSteps | client/riskapp_client/services/synchronization_service.py:533-570 | a failed push leaves the very database that the protocol's send, lose and settle steps leave |
| SyncService.SettleInAnyOrder | client/riskapp_client/services/synchronization_service.py:571-592 | results with distinct ids may be settled in any order with the same outbox |
| SyncService.Service.ResolveKeepMine | client/riskapp_client/services/synchronization_service.py:416-462 | in place: requeue on the newest version, or no change if there is no such conflict or version |
| SyncService.Service.ResolveUseServer | client/riskapp_client/services/synchronization_service.py:464-516 | in place: the saved copy replaces the row and the watermark rewinds, or no change |
| SyncService.Service.ResolveMerge | client/riskapp_client/services/synchronization_service.py:470-507 | in place: server row, merged fields, new entry and rewind together, or no change |
| SyncService.RestOfIsRest | client/riskapp_client/services/synchronization_service.py:541-592 | stateless acceptances, conflicts and errors are exactly the results acknowledging leaves, once each |
| PushReply.ValidatedResults | client/riskapp_client/services/synchronization_service.py:101-141 | accepts exactly the replies that give every sent id one result that does not contradict its change |
| PushReply.HonestReplyPasses | client/riskapp_client/services/synchronization_service.py:120-141 | in every reachable state the server's reply to distinct sent changes passes the validator |
| PushReply.UnsentEditSurvives | client/riskapp_client/adapters/local_storage/server_state.py:422-459 | an edit made while its predecessor was in flight keeps operation, fields and status through the whole acknowledgement, and so does its row |
| PushReply.ReplyDisposition | client/riskapp_client/services/synchronization_service.py:523-592 | each answered entry still queued ends removed, blocked or due for retry as its result says; no other entry changes but the replacement of an accepted one |
| PullFeed.FeedExact | server/riskapp_server/sync/pull.py:112-144 | the feed holds exactly the rows of a kind in the range, in sequence order |
| PullFeed.PageExact | server/riskapp_server/sync/pull.py:112-144 | a page is the feed up to its cursor, moves the cursor when more remain, and the last page leaves nothing |
| PullFeed.WritersKeepPull | server/riskapp_server/sync/pull.py:64-109 | writers between two queries never spoil what is already read |
| PullFeed.KindPageKeeps | server/riskapp_server/sync/pull.py:112-144 | one query of one kind keeps the pull sound and complete up to its cursors |
| PullFeed.NextPageKeeps | server/riskapp_server/sync/pull.py:147-188 | one more page, each kind read at a moment of its own, keeps the pull sound and complete up to its cursors |
| PullFeed.FinishedPull | client/riskapp_client/services/synchronization_service.py:799-850 | a finished pull holds rows as they stood at the snapshot, once each and in order; any row it misses now has a later sequence |
| PagedPull.PullPaginated | client/riskapp_client/services/synchronization_service.py:799-871 | with writers running between any two queries the loop ends, never fails or stalls and returns a complete pull of one snapshot; with none it equals one uncapped read |
| PagedPull.PrintedCursorParses | server/riskapp_server/sync/pull.py:49-61 | a printed cursor is accepted, as the same number, exactly within the snapshot |
| PagedPull.PageAdvances | server/riskapp_server/sync/pull.py:112-144 | each page that is not the last lowers the sum over kinds of what the cursors still have to cross |
| PagedPull.NeverStalls | client/riskapp_client/services/synchronization_service.py:853-871 | the client's stall check never fires against this server |
| PagedPull.ServedPages | server/riskapp_server/sync/pull.py:64-219 | the checks on since, snapshot and cursors pass for a continued pull, and the pages are those of the feed |
| RefreshTokens.FamilyIds | server/riskapp_server/auth/service.py:172-197 | the worklist search ends and returns exactly the connected component, on any graph |
| RefreshTokens.Service.LockedUserTokens | server/riskapp_server/auth/service.py:124-169 | following links from an outdated first query locks a set of tokens closed under replacement in both directions |
| RefreshTokens.Service.Claim | server/riskapp_server/auth/service.py:100-121 | the conditional update links a token exactly if it is active, unreplaced and unexpired |
| RefreshTokens.Service.RecoverOrRevoke | server/riskapp_server/auth/service.py:205-260 | recovery inside the grace window, otherwise revocation of the whole family, even when the locked set was loaded late |
| RefreshTokens.Service.RotateToken | server/riskapp_server/auth/service.py:263-294 | with any transactions committing before and within each attempt, it accepts only by one enabled rotation or recovery of its own, and otherwise changes nothing but a reused family |
| RefreshTokens.Service.RevokeUserTokens | server/riskapp_server/auth/service.py:297-309 | the loop revokes exactly the user's active tokens |
| RefreshTokens.RunKeepsChains | server/riskapp_server/auth/service.py:65-121 | in every run linked tokens are revoked, stay with their user and have one predecessor |
| RefreshTokens.FamilyIsChain | server/riskapp_server/auth/service.py:172-197 | a family is one simple chain and only its last token can be active |
| RefreshTokens.ReuseIsFinal | server/riskapp_server/auth/service.py:205-260 | after a reuse outside the grace window no later step ever accepts a token of that family |
| RefreshTokens.ReuseIsLocal | server/riskapp_server/auth/service.py:235-260 | revoking a reused family changes no token of any other family |
| WriteTransaction.UnitOfWork | client/riskapp_client/adapters/local_storage/sqlite_base.py:130-171 | for every tree of blocks and handlers the store ends with all writes iff no block at any depth failed, else unchanged, and depth and flag return to their start |
| WriteTransaction.Store.InTransaction | client/riskapp_client/adapters/local_storage/sqlite_base.py:130-171 | an inner block defers and dooms; the outermost commits or rolls back, also when the commit itself fails or a transaction was already open |
| WriteTransaction.BlockFailedIsSomeBlock | client/riskapp_client/adapters/local_storage/sqlite_base.py:152-171 | the rollback flag is set exactly when some block that was reached is left by an exception, caught outside it or not |
| RateLimiter.Limiter.Check | server/riskapp_server/core/rate_limit.py:58-80 | a key never evicted is allowed iff fewer than the limit of its allowed hits lie in the window; every bucket stays sorted, bounded and non-empty, the table bounded |
| RateLimiter.Limiter.MakeRoomFor | server/riskapp_server/core/rate_limit.py:35-56 | stale buckets go first, and only if the table is still full exactly the least recently used one is evicted |
| RateLimiter.QuietThenAllowed | server/riskapp_server/core/rate_limit.py:58-80 | after a denied check of a key, any checks of other keys and strictly more than the retry time, the key's next check is allowed, evicted meanwhile or not |
| RateLimiter.WaitingSuffices | server/riskapp_server/core/rate_limit.py:70-77 | strictly past the retry time of a full bucket fewer than the limit of its hits are in the window |
| RateLimiter.WaitingExactly | server/riskapp_server/core/rate_limit.py:70-77 | waiting exactly the retry time suffices iff that moment is past the oldest hit's window |
| RateLimiter.EdgeStillCounts | server/riskapp_server/core/rate_limit.py:70-77 | one hit at zero, limit one and window sixty: at the retry time itself the hit still counts |
| RateLimiter.DropOld | server/riskapp_server/core/rate_limit.py:70-71 | popping from the left keeps exactly the hits inside the window |
| ConflictMerge.MergedRecord | client/riskapp_client/services/conflict_merge.py:143-170 | accepts exactly complete choices with something kept and acceptable values, and builds mine where chosen, the server's elsewhere, impact from the dimensions |
| ConflictMerge.ServerAgrees | server/riskapp_server/core/scoring.py:10-24 | the server's update and recomputation store the very impact and dimensions the merge computed |
| ConflictMerge.ScoresStayInRange | client/riskapp_client/services/conflict_merge.py:102-123 | scores of a merge stay between one and five when the server copy's were |
| ConflictMerge.StoredScoreInRange | server/riskapp_server/core/scoring.py:10-24 | the stored score is probability times impact, between one and twenty-five |
| ConflictMerge.MaxDimensionIsMax | server/riskapp_server/core/scoring.py:18-22 | the derived impact is attained by a set dimension and bounds all of them |
| MergeWire.Resolve | client/riskapp_client/services/synchronization_service.py:470-507 | in place: accepts exactly acceptable choices on a current, live, unchanged conflict; then the row holds each chosen field of mine, the server's every other and the computed impact, and one unsent change on the saved version replaces the conflict; otherwise nothing changes |
| MergeWire.MergeLeaves | client/riskapp_client/adapters/local_storage/server_state.py:505-529 | the protocol's merge with the wired record leaves the merge, field by field, in the row and queues it on the saved version |
| MergeWire.MergeReachesServer | server/riskapp_server/sync/mutations.py:283-304 | in every reachable state the queued merge is accepted iff the saved copy is current and its code free, and then the server's row is the client's, one version on; else the server's rows stay |
| MergeWire.MergeIsStep | client/riskapp_client/services/synchronization_service.py:470-507 | such a merge is a step of the protocol iff its conflict may be resolved now, its copy is not stale and its code is free once the server's copy is taken |
| MergeWire.WireKeepsValue | client/riskapp_client/services/conflict_merge.py:157-170 | distinct values never share a text on the wire |

## Left out

- User interface, bootstrap, workers and the automatic timer: nothing about shared state to prove beyond capped delays.
- HTTP, JWT, password and HMAC code: payload hashes and token hashes are injective values here.
- SQL, sessions, locking and migrations: tables are maps, a savepoint is copy and restore, a lock makes a step atomic.
- Text details: trimming, date and UUID formats (a parameter of the merge), CSV, filters, reports and the matrix.
- Cursors in other spellings that Python's integer parser also accepts, such as signs or underscores; the client only sends printed ones.
- Validation of fields and relationships: whether the server refuses a change, or crashes on it, is an input of each push.
- Retry times and creation order: any list of sendable entries may be selected for a batch.
- `type_mismatch` conflicts and the refusal to change another user's assessment: unreachable while ids are fresh.
- Assessments created by clients: their ids are derived from item and user, so two devices can mint the same one.
- Local-project promotion, project lists, member management and backups: plumbing around remote calls.
- Pruning of receipts: its code is not part of this model.
- Non-integer impact dimensions in a saved server copy: the server's schema excludes them; the merge here ignores them.
- SyncPreservation.RestKeepsInv: a REST delete is one step there, as if its read were current; what an outdated read does is stated by the lemmas on late deletes.
- MergeWire.Resolve: column names are any names that keep fields apart, and derived scores of assessments are no fields of the protocol.
- SyncKeepMine.CanKeepMine: a new code an edit asks for is left out on the way, because another row may hold it; cleared codes are kept.
- SyncProgress.CanConverge: the continuation is chosen, not scheduled: a manager's account, an answering server and users who resolve conflicts; nothing is said about an unfair network.
- SyncService.Service.SettleReply: network calls are left out; the reply is its input, and edits made meanwhile are steps of `SyncModel`.
- RefreshTokens.Service.RotateToken: a user's deactivation between attempts is not modelled; the set of active users is an input.
