# A verified model of the room protocol

This project models the replicated room log of the messenger: one sequencer that
commits signed proposals, relays that store verified copies of its log, and
members whose clients keep their own copy, a live projection of the room state and
a one-slot journal of the operation being submitted. It also models smaller
mechanisms of the client and the node: the replay cache for direct messages, the
swap of the identity file, the calibrated sequencer clock and the token bucket,
and the backwards paging of the timeline with the window of the terminal viewer.

`dafny verify dfyconfig.toml` checks the whole project.

## How the program is represented

| file | what it holds |
|---|---|
| `base.dfy` | `Option`, `Result`, strictly increasing key lists |
| `community.dfy` | proposals, commits, genesis, signed state and their validation |
| `validity.dfy` | what the validation rules come to: signed exactly what verifies, sizes in bytes, domains by label |
| `replay.dfy`, `history.dfy` | the room state a log determines, what every replayable log satisfies, and how it follows from the last event about each thing |
| `projection.dfy` | the in-memory projection with Prepare and Commit, on heap slices |
| `tables.dfy`, `refinement.dfy` | the SQL tables as values, their transactions, and their agreement with the projection |
| `audit.dfy`, `replica.dfy`, `authority.dfy` | the full audit, runs of replica databases, runs of the sequencer's database |
| `store.dfy`, `sync.dfy`, `pages.dfy` | the store object, and the synchronization loops over it |
| `clientdb.dfy`, `clientstore.dfy` | the client's database: transactions as functions, and the object that performs them |
| `room.dfy`, `catchup.dfy`, `handle.dfy` | synchronizing over a session and processing one queued event: as operations, what they come to exactly, and as methods of the room handle |
| `member.dfy`, `pending.dfy` | one member as a state machine with program counters; sending the journaled operation as one method |
| `system.dfy`, `answers.dfy` | the whole system, the theorems over its runs, and what the sequencer answers to every submission |
| `submission.dfy`, `progress.dfy` | the courses of a submission, and how members connect, catch up and are told |
| `direct.dfy`, `identity.dfy`, `clock.dfy`, `limiter.dfy` | the smaller mechanisms |
| `timeline.dfy` | paging backwards, shrinking an answer to a line, the viewer's window |
| `answerline.dfy`, `jsonline.dfy` | the size of such a line, and the JSON text it is the size of |

Hashes and signatures are symbolic. A hash is the term it was computed from, a
proposal is its own event id, and a signature names the key it verifies under for
the object that carries it. Keys are their 32 bytes read as a number, instants are
nanoseconds since 1970. A database transaction is one atomic step. An operation
that the client runs under its history lock is one step too; what the network and
other threads do meanwhile (answers, a dropped session, an observer that has gone)
comes in as a script, so an operation can stop after any of its transactions. The
journal row is written and deleted by other threads between such steps; a write
that falls into the middle of an operation has the same effect as one just before
it, because a new proposal is in no stored event and deleting the row touches
nothing else.

A run of `Systems` is any sequence of moves. The environment may submit any
proposal, deliver any event, page or state in any order and any number of times,
lose any query or answer, crash a member between any two steps, and make the
sequencer's database fail before or after a commit is durable, and a member may
reset its identity whenever its journal is empty. It is bound by
four conditions (`Systems.Enabled`, `Members.Possible`): a commit signed with the
room key comes from the sequencer's log; a session's genesis has been verified,
and the room key signs only one genesis; a new proposal carries a fresh nonce, so
it is unlike every other; and nobody but its author and the sequencer submits a
proposal that was sent to the sequencer only.

Besides what must never happen, the model says what does happen. Rejection codes,
limits and times stand in these statements as numbers, and the conditions are read
off the stored log and the answers that arrive: which submissions are committed and
how every other one is answered (`SubmissionAnswers`), which event extends a log and
what it leaves (`Histories`), when a synchronization succeeds and what it leaves
(`Catchups.SyncSucceedsIff`), which queued event is stored and notified
(`Catchups.NextIsProcessed`, `Catchups.DurableIffStored`), and how an accepted, a
refused, a relayed and a repeated submission end (`Submissions`).

Two points where the code does something a reader may not expect:

- `InstallReplicaState` accepts a signed state of an older revision whose content
  happens to match the current one (`Replica.OlderRevisionInstalls`), and every room
  can come to that (`Replica.ReplicaCanInstallOlder`). The replica then is not ready,
  which the cheap check and the full audit agree about (`Replica.ReadyIffAuditPasses`).
- A synchronization that fails in the middle of a page leaves the live projection
  behind the database (`Rooms.StoppedRepairIsNotLive`, `Rooms.RepairCanStop`). What
  makes this safe is that the ingest loop closes the session before it takes another
  event (`Systems.ProjectionIsCurrent`).

Three properties hold only under a condition, and for each the condition is proved
exact:

- with given clock readings no run of arrivals delivers a direct message twice if and
  only if the clock never passes an expiry and steps back to before it
  (`DirectMessages.DeliveredOnceIff`); a clock that does not go back never does
  (`DirectMessages.AtMostOnce`);
- the identity swap survives every disturbance if and only if it starts with one
  of the two seeds at the path (`IdentityFiles.SwapSurvivesIff`);
- every position of a log is answered, under every limit, if and only if every event
  of the log fits a line of its own (`Timelines.TimelineServesIff`); the validation of
  bodies and profiles makes every event of every valid log fit
  (`AnswerLines.ValidLogFits`).

## Model

| member | source | states |
|---|---|---|
| `Systems.AllLogsArePrefixes` | internal/store/replica.go:72-154 | in every reachable state of one sequencer, any relays and any members, every stored log is a prefix of the sequencer's, event ids in it are unique, and nodes with equal head hashes store equal logs |
| `Systems.SuccessIsStoredOnce` | internal/client/pending.go:203-271 | a proposal reported as sent is in the member's rows and in the sequencer's log exactly once, however often it was resent |
| `Systems.RejectionIsFinal` | internal/client/pending.go:250-266 | a proposal whose row was cleared by a first-attempt rejection from the sequencer is not in the log, in this state or after any further run |
| `Systems.ProjectionIsCurrent` | internal/client/client.go:1154-1205 | whenever processing passes its session check the live projection is the fold of the stored rows at the stored head; neither interpreter fault is reachable; a durable answer names a stored event |
| `Systems.ReceiptIffStored` | internal/client/store.go:454-506 | in every reachable database the journal row has a receipt exactly when its event is stored, and the receipt is that event |
| `Systems.EveryDatabaseReopens` | internal/client/store.go:163-229 | every reachable client database reopens, and reopening changes nothing but a cached state that disagrees with the stored events, which is dropped |
| `Systems.NotificationsIncrease` | internal/client/client.go:1196-1226 | event notifications of one membership have strictly increasing numbers of stored events across reconnects and restarts, and later runs only append to them |
| `Systems.RunKeeps` | internal/node/community.go:322-358 | every reachable state satisfies the invariant behind the theorems above |
| `Systems.SubmissionWell` | internal/node/community.go:117-142 | one submission commits its proposal at most once and answers truthfully under every failure around it; a final rejection means nothing was committed; a commit means a bound connection, a readable and durable database and a resolving domain if one is claimed |
| `SubmissionAnswers.SubmissionCommitsIff` | internal/node/community.go:117-142 | the sequencer commits exactly the submissions that are bound, new, for this room, valid, of a resolving domain if any, with an unused nonce, by a permitted author and with a possible effect, when its database takes them; it answers Accepted exactly then |
| `SubmissionAnswers.SubmissionIsAnswered` | internal/node/community.go:322-358 | the answer to every other submission with its code as a number, in the order of the checks: 6 unbound, 10 unreadable, the stored event repeated, 2 wrong room, 3 or 5 invalid, 15 domain, 4 nonce, 6 not permitted, 7 to 9 impossible effect, 10 not durable |
| `SubmissionAnswers.RowsAnswer` | internal/store/commit.go:223-302 | an effect on the tables is refused exactly if it is impossible, with the code of unknown message, limit or conflict, the limit first |
| `Systems.RelayKeeps` | internal/store/replica.go:72-154 | whatever a relay is offered, its log stays a prefix of the sequencer's |
| `Systems.RunIsOnward` | internal/client/pending.go:203-271 | outcomes, notifications and rows of a member are never taken back by later moves |
| `Submissions.AcceptedSubmissionSucceeds` | internal/client/client.go:579-632 | a new proposal the sequencer would commit, sent by a caught-up member over a session to it, ends committed, stored, cleared from the journal, reported as sent and, if the observer takes it, notified once |
| `Submissions.RefusedSubmissionIsRejected` | internal/client/pending.go:250-266 | a new proposal answered with a code of 1 to 15 other than 10, 12 and 14 ends rejected, out of the journal and out of the log; for those three it stays journaled |
| `Submissions.RelayedSubmissionSucceeds` | internal/node/community.go:144-185 | the same proposal sent through a relay ends the same way as one sent to the sequencer |
| `Submissions.ResentSubmissionSucceeds` | internal/client/pending.go:152-176 | a committed proposal whose answer was lost is settled by sending it again: reported as sent, stored and cleared, however far behind the member is, without a second commit |
| `Submissions.NextIsDurable` | internal/client/client.go:1180-1226 | the next event of the log is always stored by a live member, and notified exactly once if the observer takes it |
| `Members.StepKeeps` | internal/client/client.go:1070-1128 | every step of a member (connect, process, close, save, send, receive, lose, offer, clear, discard, crash) keeps its rows a prefix of the log, its projection current or its session about to close, its journal true and its outcomes true |
| `Members.ResetKeeps` | internal/client/client.go:347-397 | an identity is replaced exactly when nothing is journaled or being sent; the key changes, the session goes, nothing else does, and the invariant stays |
| `Members.CrashForgets` | internal/client/store.go:163-229 | a crash loses session, submission and answers, and keeps rows, journal, identity, notifications and the queries on their way |
| `Members.DiscardKeeps` | internal/client/pending.go:178-201 | discarding frees the journal of an idle member and changes nothing else |
| `Members.JournalIsNotLost` | internal/client/pending.go:79-102 | every step keeps the journaled operation, or tells its outcome, or is its discarding |
| `Members.ArrivedKeeps` | internal/node/community.go:117-142 | the sequencer taking one of the member's queries, and its answer, keep the member's invariant |
| `Members.OutsideKeeps` | internal/node/community.go:144-185 | whatever others submit or expose keeps the member's invariant |
| `Members.BuryKeeps` | internal/client/pending.go:258-266 | clearing the row after a final rejection is sound when the proposal is on no way to the log |
| `Members.OfferKeepsHandle` | internal/client/client.go:1095-1128 | a nil result from ingesting a submitted event means its proposal is in the stored rows |
| `Members.StepIsOnward` | internal/client/pending.go:152-201 | a step never shrinks the rows, the notifications or the recorded outcomes |
| `Progressing.ConnectSucceedsIff` | internal/client/client.go:860-901 | a member ends up connected exactly if the genesis verifies, the deliveries continue its rows undisturbed, the closing state is the fold of them, and the connection notice is taken; and then it is live with that state cached and told once of each new event |
| `Progressing.MemberCatchesUp` | internal/client/client.go:921-1009 | in every reachable state a member without a session that connects to an honest peer ends with the sequencer's whole log, live and told once of every event it lacked |
| `Progressing.EventReachesMember` | internal/client/client.go:1154-1236 | in every reachable state any event of the log reaches a connected member by one processing, a gap before it repaired over an honest session, and it is notified of exactly the events it stores |
| `Progressing.OperationIsAccountedFor` | internal/client/pending.go:152-201 | over every run a journaled operation is still journaled, or reported as sent or rejected, or was discarded |
| `Members.ReopenOk` | internal/client/store.go:163-229 | opening a member's database succeeds and drops at most the cached state |
| `Pending.Submitter.SendPending` | internal/client/pending.go:203-271 | one attempt, with the ingest loop taking any queue meanwhile, does to the handle what the steps of the member do; a row of another author or genesis is refused unsent; each answer is reported as stated in numbers: a first-attempt rejection by the sequencer with code 1 to 15 other than 10, 12 and 14 as rejected with the row cleared, other known codes and lost answers as uncertain with the row kept, unknown codes and foreign events as protocol errors, and the right event as sent while the session stays |
| `Pending.Submitter.RunIngestLoop` | internal/client/client.go:1110-1128 | taking a queue of events does to the handle what the same steps of the member do, and keeps the journal row of the operation |
| `Pending.Submitter.Finish` | internal/client/pending.go:214-228 | ingesting the answered event: a foreign event is a protocol error and closes the session, the right one is reported as sent unless the queue, the delete or the session fails |
| `Pending.Submitter.CloseSessionIf` | internal/client/client.go:1280-1301 | detaches the session only if it is the expected one |
| `Pending.ProcessingTells` | internal/client/client.go:1154-1205 | after processing, the journal row is still there, and a durable answer means the proposal is stored |
| `Rooms.ProcessKeeps` | internal/client/client.go:1154-1236 | one queued event on a live handle: rows stay a replayable log, no interpreter fault, durable names a stored event, and no error means the handle is live |
| `Rooms.SyncKeeps` | internal/client/client.go:921-1009 | a synchronization keeps the database a replayable log whatever the answers and wherever it stops; success leaves the handle live |
| `Rooms.IngestKeeps` | internal/client/client.go:1180-1212 | preparing, storing and committing an event on a live handle |
| `Rooms.GapKeeps` | internal/client/client.go:1167-1179 | an event beyond the head is handled by repairing the gap first, and its own storage is looked up when the repair fails |
| `Rooms.AnnounceKeeps` | internal/client/client.go:1213-1236 | announcing keeps the handle live and any notification after all earlier ones; that it happens is said by Catchups.NextIsProcessed |
| `Rooms.RefreshKeeps` | internal/client/client.go:1238-1274 | refreshing the signed state changes no row and keeps the handle live |
| `Rooms.FinishKeeps` | internal/client/client.go:979-1008 | the closing state query succeeds only with the session current and the projection installed |
| `Rooms.DeliverAllKeeps` | internal/client/client.go:947-971 | the rows grow only by delivered events, and notified numbers follow them in order |
| `Catchups.AllDeliveredIff` | internal/client/client.go:947-971 | the deliveries of a synchronization are all taken exactly if nothing disturbs them and they continue the stored log; each is then stored and notified once, in order |
| `Catchups.SyncSucceedsIff` | internal/client/client.go:921-1009 | exactly when a synchronization succeeds, in terms of what arrives, and all it leaves: rows, pinned genesis, cached state, projection, head, session and notifications |
| `Catchups.HonestSyncCatchesUp` | internal/client/client.go:921-1009 | over a session to an honest peer every member ends with its whole log, a new one with the genesis pinned for the first time included |
| `Catchups.NextIsProcessed` | internal/client/client.go:1180-1226 | the next event on a live handle is stored, folded in and, if the observer takes it, notified exactly once, also when the refresh of the state fails; success and the cached state are stated exactly |
| `Catchups.DurableIffStored` | internal/client/client.go:1154-1179 | processing is durable exactly if it was over the current session and the event is stored afterwards, after a repair that stopped on the way too |
| `Catchups.StoredIsProcessedAgain` | internal/client/client.go:1187-1193 | a stored event offered again is durable without error, changes at most its receipt and is not notified again |
| `Catchups.LogEventIsDurable` | internal/client/client.go:1164-1179 | any event of the log becomes durable on a live handle, a gap before it repaired by an honest peer, which brings the whole log |
| `Catchups.HasEventIff` | internal/client/store.go:508-525 | present, absent or conflicting, in terms of the stored log |
| `Rooms.StoppedRepairIsNotLive` | internal/client/client.go:947-971 | a synchronization that stored events and failed with its session kept leaves the handle live exactly if it installed its own projection; with the old projection the handle is behind its database |
| `Rooms.RepairCanStop` | internal/client/client.go:947-971 | it does happen: the next event of the log followed by a lost answer fails the synchronization, keeps the session and the old projection, and has stored the event |
| `Handles.RoomHandle.SyncSessionLocked` | internal/client/client.go:921-1009 | the method does what the operation does, for the trace of the answers it got, and terminates against any peer; against an honest one, with a verified genesis that is pinned or not pinned yet, the rows end equal to the peer's log under that genesis, and with a covering closing reply it succeeds, live, told once of each new event |
| `Handles.RoomHandle.PullPages` | internal/client/client.go:936-978 | the page loop, which checks the session after every page, terminates because every accepted event is one of the sequencer's; an honest peer's log is pulled completely from any prefix |
| `Handles.RoomHandle.DeliverEvent` | internal/client/client.go:951-971 | verify, prepare, store, commit and notify one event, exactly as the operation does |
| `Handles.RoomHandle.ProcessCanonical` | internal/client/client.go:1154-1236 | the method equals the operation on the handle's value, whose outcome Catchups.NextIsProcessed and Catchups.DurableIffStored state |
| `Handles.RoomHandle.IngestEvent` | internal/client/client.go:1180-1236 | the method equals ingesting on the handle's value, with the projection updated in place |
| `Handles.RoomHandle.RefreshStateLocked` | internal/client/client.go:1238-1274 | the method equals the refresh on the handle's value |
| `Handles.RoomHandle.FinishSync` | internal/client/client.go:979-1008 | the method equals the end of the operation, and changes no row |
| `Handles.NextIsDelivered` | internal/client/client.go:951-971 | the next event of the log is accepted by every running synchronization |
| `Handles.HonestFinishSucceeds` | internal/client/client.go:979-1008 | with a covering state and a live session the closing query succeeds and caches that state |
| `ClientDbs.ReopenRepairsOnlyState` | internal/client/store.go:163-229 | a database that holds a log reopens; only a disagreeing cached state is dropped |
| `ClientDbs.ReopenAcceptsIff` | internal/client/store.go:163-229 | opening refuses exactly the databases whose rows do not replay under a verified pinned genesis to the stored head, or that have rows without one |
| `ClientDbs.AppendPrepared` | internal/client/store.go:454-506 | a prepared event is stored exactly when its id is not there yet, and the rows are then the longer log |
| `ClientDbs.ReceiptOnInsert` | internal/client/store.go:493-506 | storing an event keeps the journal row's receipt true |
| `ClientDbs.AppendStored` | internal/client/store.go:477-489 | meeting a stored event again changes only its receipt |
| `ClientDbs.ProjectRoomYieldsFold` | internal/client/store.go:362-398 | projecting a reachable database succeeds with the fold of its log |
| `ClientDbs.InstallStateIff` | internal/client/store.go:276-349 | over the projection of the rows exactly the covering states are cached |
| `ClientDbs.JournalIsOneSlot` | internal/client/pending.go:79-102 | a second journal row is refused, and only its own proposal clears a row |
| `ClientStores.ClientStore.AppendEvent` | internal/client/store.go:454-506 | the transaction on the store object equals the specified one; errors change nothing |
| `ClientStores.ClientStore.ProjectRoom` | internal/client/store.go:362-398 | the row loop computes the fold, or fails as specified |
| `ClientStores.ClientStore.FoldRows` | internal/client/store.go:371-386 | the loop succeeds exactly on replayable rows and leaves their fold |
| `ClientStores.ClientStore.ValidateOrRepair` | internal/client/store.go:163-229 | the method equals reopening |
| `ClientStores.ClientStore.PinGenesis` | internal/client/store.go:244-274 | the transaction equals the specified one, which Catchups.PinnedIff characterizes |
| `Catchups.PinnedIff` | internal/client/store.go:244-274 | a genesis is pinned exactly if it verifies, is of this room and no other is pinned, and is stored then |
| `ClientStores.ClientStore.InstallState` | internal/client/store.go:276-349 | a state is cached only if it agrees with a projection at the stored head |
| `ClientStores.ClientStore.HasEvent` | internal/client/store.go:508-525 | stored, absent or conflicting |
| `ClientStores.ClientStore.SavePending` | internal/client/pending.go:79-97 | at most one journal row |
| `ClientStores.ClientStore.ClearPending` | internal/client/pending.go:99-102 | deletes the row of that proposal only |
| `Refinement.AppendAgreesWithApply` | internal/store/replica.go:72-154 | on tables standing for a log, a verified contiguous event with a new id is accepted by the replica exactly when the projection accepts it |
| `Refinement.AppendRefinesApply` | internal/store/replica.go:72-154 | after an accepted append the tables stand for the longer log, and the projected content is the projection's |
| `Refinement.AuthorizationRefines` | internal/store/commit.go:136-165 | the table query authorizes exactly what the projection authorizes |
| `Refinement.BodyRefines` | internal/store/commit.go:167-213 | each of the nine bodies has the same effect on the tables as on the projection, although limit and conflict are tested in different orders |
| `Refinement.GrantRefines` | internal/store/commit.go:262-284 | granting a role in the tables agrees with granting it in the projection |
| `Refinement.RevokeRefines` | internal/store/commit.go:286-302 | revoking a role likewise |
| `Refinement.PinRefines` | internal/store/commit.go:223-245 | pinning likewise |
| `Refinement.UnpinRefines` | internal/store/commit.go:247-260 | unpinning likewise |
| `Refinement.InstallKeepsLog` | internal/store/replica.go:156-209 | installing a signed state never changes what the tables stand for, and its content is the replayed one |
| `Refinement.AppendIdempotent` | internal/store/replica.go:91-97 | a repeated event changes nothing |
| `Replay.FoldDescribes` | internal/community/projection.go:74-134 | every replayable log is numbered, chained and verified, and leaves strictly sorted lists within their limits, the owner never delegated, under the revision of the last change |
| `Replay.HeadDeterminesLog` | internal/community/crypto.go:333-358 | equal head hashes mean equal logs |
| `Replay.ApplyBodyKeepsCanonical` | internal/community/projection.go:154-255 | each accepted body keeps the lists sorted, within limits and free of the owner |
| `Replay.ContentSince` | internal/community/projection.go:84-117 | messages after the last change leave the content as it was |
| `Histories.HistoryDecides` | internal/community/projection.go:154-235 | the replayed roles, pins, name, description and write policy are what the last event about each says, or the genesis |
| `Histories.NextIsAcceptedIff` | internal/community/projection.go:84-152 | exactly which events extend a replayable log: verified, next in number and hash, by an author whose role permits them, with a possible effect within the limits 64, 256 and 100 |
| `Histories.PermittedIff` | internal/community/projection.go:237-275 | who may author what, by role |
| `Projections.PrepareThenCommitIsApply` | internal/community/projection.go:74-134 | Prepare and then Commit is Apply |
| `Projections.AtMostOneCommits` | internal/community/projection.go:119-134 | of all transitions prepared on one head, at most one ever commits |
| `Projections.Projection.Prepare` | internal/community/projection.go:84-117 | the prepared transition is the specified one, and nothing on the heap changes |
| `Projections.Projection.Commit` | internal/community/projection.go:119-134 | installs a transition exactly on the head it was prepared on, and otherwise changes nothing |
| `Projections.Projection.ApplyEvent` | internal/community/projection.go:74-80 | the object follows the specified fold; a refusal changes nothing |
| `Projections.Projection.ValidateState` | internal/community/projection.go:136-152 | true exactly for a signed state that agrees in every field |
| `Projections.Projection.constructor` | internal/community/projection.go:40-58 | starts from the genesis content |
| `Projections.ApplyProjectedStateBody` | internal/community/projection.go:154-200 | editing the copied slices in place equals the specified change |
| `Projections.RemoveItem` | internal/community/projection.go:276-301 | shifting in place removes the first occurrence and keeps the order |
| `Projections.GrantProjectedRole` | internal/community/projection.go:202-219 | granting in place equals the specified grant |
| `Projections.RevokeProjectedRole` | internal/community/projection.go:221-235 | revoking in place equals the specified revocation |
| `Ordered.SortAppend` | internal/community/projection.go:202-219 | appending a new key and sorting is the sorted list of the enlarged set |
| `Ordered.WithoutIncreasing` | internal/community/projection.go:276-301 | removing a key is the sorted list of the reduced set |
| `Ordered.OrderBy` | internal/store/commit.go:352-384 | the ordered query yields the members of the table in ascending order |
| `Community.CanonicalLongs` | internal/community/crypto.go:498-505 | the scan of adjacent pairs decides strict order of the whole list |
| `Community.SignCanonicalState` | internal/community/crypto.go:190-210 | a state with canonical lists is signed unchanged |
| `Validity.StateVerifiesIffSigned` | internal/community/crypto.go:190-227 | a state verifies exactly if the room signs it for some unsigned state |
| `Validity.CommitVerifiesIffSigned` | internal/community/crypto.go:310-360 | a commit verifies exactly if the room signs it for its proposal after 1970 and the proposal verifies for the node |
| `Validity.ProposalVerifiesIff` | internal/community/crypto.go:262-308 | a proposal verifies exactly if it is the author's for this node and within its sizes, and passes at the sequencer if it is also within 300 seconds |
| `Validity.GenesisVerifiesIff` | internal/community/crypto.go:136-174 | a genesis verifies exactly if it is signed by its room, at most 300 seconds ahead, with valid texts and at most 32 admins in strict order without the owner |
| `Validity.StateVerifiesIff` | internal/community/crypto.go:212-243 | a state verifies exactly within its limits 64, 256 and 100, with sorted lists and the room's signature |
| `Validity.SizeIsOfTheEncoding` | internal/community/crypto.go:485-487 | the size that the limits count is that of the UTF-8 encoding |
| `Validity.DomainByLabels` | internal/community/crypto.go:449-468 | the rules on neighbouring characters accept exactly the domains under .ton or .t.me, of at most 126 bytes, every label of which is good |
| `Authority.CommitAcceptsIff` | internal/store/commit.go:27-134 | the sequencer commits exactly the admitted new proposals whose event the projection applies; with the right key it never fails for persistence, so signing the snapshot cannot fail |
| `Authority.CommitRefines` | internal/store/commit.go:27-134 | a commit extends the represented log by its own event under a covering signature; duplicates and rejections leave the log |
| `Authority.CommitIsReplicable` | internal/store/replica.go:72-154 | every new commit is inserted by any replica holding the same log |
| `Authority.AuthorityAuditPasses` | internal/store/audit.go:11-167 | every authority database reached by commits passes the full audit |
| `Authority.AuthorityRepresents` | internal/store/store.go:224-286 | every authority database reached from initialization stands for its log and is covered by its signed state |
| `Authority.NonceWindow` | internal/store/commit.go:61-79 | two commits by one author with one nonce are 86400 s apart and their timestamps 85800 s |
| `Authority.NonceRefusedIff` | internal/store/commit.go:71-86 | a nonce is refused exactly if its author used it in an event committed less than 86400 seconds before |
| `Authority.SnapshotIsSigned` | internal/store/commit.go:304-321 | the snapshot over an applied event is always signed and covers the log |
| `Replica.ReadyIffAuditPasses` | internal/store/replica.go:211-245 | on every store reached by replica operations from any source, the cheap readiness check holds exactly when the full audit passes, the genesis clock aside |
| `Replica.RunReplicates` | internal/store/replica.go:14-209 | every reachable replica stands for its log, and its signed state names a stored revision |
| `Replica.ReadyMeaning` | internal/store/replica.go:211-245 | what the readiness query decides, in terms of the log |
| `Replica.OlderRevisionInstalls` | internal/store/replica.go:156-209 | a signed state of any stored older revision whose content is the current one is installed, and the replica is not ready after it |
| `Replica.ReplicaCanInstallOlder` | internal/store/replica.go:156-245 | in every room a reachable replica accepts the signature over the initial state after two state changes, and neither readiness nor the audit passes then |
| `Replica.InstallAcceptsIff` | internal/store/replica.go:156-209 | a state is installed exactly if the room signs it for a stored revision or the genesis and its content is the replayed one |
| `Replica.AppendRefusals` | internal/store/replica.go:72-115 | an offered event is invalid, a fork, a gap or a repetition, in terms of the stored log |
| `Replica.ReplicaRemembersNonces` | internal/store/replica.go:138-148 | the nonce table of every reachable replica holds the nonces of its events, each until a day after its first use |
| `Auditing.SoundIffCovered` | internal/store/audit.go:11-167 | on tables standing for a log the audit passes exactly when the genesis clock is right and the signed state covers the log |
| `Auditing.SoundTablesRepresent` | internal/store/audit.go:11-167 | whatever passes the audit, with unique ids and a truthful body-type column, stands for its stored log |
| `Auditing.MessageCheck` | internal/store/audit.go:79-88 | every message present and equal counts mean the messages table is exactly the log's |
| `Stores.Store.Commit` | internal/store/commit.go:27-134 | the transaction on the store object equals the specified one; duplicates and rejections change nothing, the expiry delete included |
| `Stores.Store.Record` | internal/store/commit.go:105-133 | the inserts of one commit, or the code they fail with |
| `Stores.Store.AppendReplica` | internal/store/replica.go:72-154 | the transaction equals the specified one; errors change nothing |
| `Stores.Store.InstallReplicaState` | internal/store/replica.go:156-209 | the transaction equals the specified one; errors change nothing |
| `Stores.Store.ReplicaReady` | internal/store/replica.go:211-245 | decides readiness as specified |
| `Stores.Store.Audit` | internal/store/audit.go:11-167 | the audit loop succeeds exactly on sound tables, the stored genesis hash included |
| `Stores.Store.AuditEvents` | internal/store/audit.go:26-78 | the row loop succeeds exactly when the rows replay and match their place in the chain |
| `Stores.Store.Initialize` | internal/store/store.go:224-286 | creates an authority database once, for a valid genesis and its own key |
| `Stores.Store.InitializeReplica` | internal/store/replica.go:14-70 | creates an unsigned replica database once |
| `Stores.Store.Events` | internal/store/query.go:21-39 | answers the next events after a position, and whether more follow |
| `Pages.PageIsNext` | internal/store/query.go:11-39 | a page is the next events, as many as 1 to 256 asked for or 100 by default, and says exactly whether more follow |
| `Stores.RepresentedIdsAreUnique` | internal/store/store.go:129-222 | the unique index on event ids holds on every represented database |
| `Sync.DownloadEvents` | internal/replica/sync.go:64-87 | the method equals paging as a function of the answers; whatever the peer answers the replica keeps a prefix of the sequencer's log and loses no event, and against an honest peer it ends with the whole log |
| `Sync.SyncReplicaLocked` | internal/node/community.go:253-287 | the method equals paging and then the closing state as a function of the answers; an honest peer makes it succeed, covered and ready |
| `Sync.SyncReplica` | internal/replica/sync.go:54-112 | success from any peer means ready and passing the audit over a prefix of the sequencer's log; an honest peer makes it succeed with the whole log |
| `Sync.SyncReplicaFromPeers` | internal/node/community.go:230-251 | the source if it is healthy, then the sequencer; with an honest healthy source, or with an honest sequencer when the source's synchronization fails for whatever it answers, the replica ends with the whole log and ready |
| `Sync.InstallStateFromPeer` | internal/node/community.go:289-298 | a failure changes nothing; a state accepted from an honest peer makes the replica ready, and one over the whole log is always accepted |
| `Sync.PersistReplicaEvent` | internal/node/community.go:199-228 | success means the event is stored, whoever offers it; with no source it succeeds exactly when the event can be appended; with an honest source, or an honest sequencer behind a source that fails, every event of the log succeeds, the gap before it repaired and the replica ready after a state change |
| `Sync.StateAgain` | internal/node/community.go:214-226 | a state change that was known and covered needs nothing; otherwise an honest source, or an honest sequencer behind one of which nothing comes, makes the replica ready again |
| `Sync.InstalledIsReady` | internal/node/community.go:289-298 | a covering state of the whole log that a prefix replica accepts makes it ready |
| `Sync.AppendOfLog` | internal/store/replica.go:72-154 | an event of the log is repeated, inserted or a gap, by its number |
| `Sync.TakeOne` | internal/store/replica.go:72-154 | one offered event that is not forged is inserted, repeated or refused, and the tables stand for a prefix of the sequencer's log after it |
| `Sync.NextIsInserted` | internal/store/replica.go:72-154 | the next event of the log is always inserted |
| `Sync.CoveringStateInstalls` | internal/store/replica.go:156-209 | a covering state is always installed |
| `DirectMessages.AtMostOnce` | internal/client/dm_replay.go:45-79 | under a clock that does not go back no message is delivered twice |
| `DirectMessages.DeliveredIff` | internal/client/dm_replay.go:45-79 | under a clock that does not go back, a message is delivered exactly if its session is current, the observer takes it, it arrives at most 300 seconds after its stamp, it was not delivered before, and fewer than 8192 delivered ones are unexpired |
| `DirectMessages.LiveIsNeverEvicted` | internal/client/dm_replay.go:21-43 | a delivered message stays in the cache until some clock reading has passed its expiry, whatever else arrives and however the clock moves |
| `DirectMessages.CacheIsBounded` | internal/client/dm_replay.go:71-73 | the cache never exceeds 8192 entries and holds each under its own expiry |
| `DirectMessages.SteppingBackRepeats` | internal/client/dm_replay.go:63-70 | for all readings that pass an expiry and return there is a run of arrivals at them that delivers a message twice |
| `DirectMessages.RepeatNeedsExpiry` | internal/client/dm_replay.go:45-79 | a message delivered twice means that some reading in between had passed its expiry |
| `DirectMessages.DeliveredOnceIff` | internal/client/dm_replay.go:45-79 | the exact condition on the clock: no run of arrivals at these readings delivers a message twice if and only if the readings never pass an expiry and return |
| `DirectMessages.ReplayCache.Prune` | internal/client/dm_replay.go:21-33 | the lazy prune leaves exactly what a full filter would keep |
| `DirectMessages.ReplayCache.Record` | internal/client/dm_replay.go:35-43 | adds the entry and keeps the earliest expiry a lower bound |
| `DirectMessages.ReplayCache.NotifyDirect` | internal/client/dm_replay.go:45-79 | delivers and records as specified |
| `IdentityFiles.SeedSurvives` | internal/client/client.go:1592-1664 | whatever interrupts the swap and the starts after it, the next undisturbed start finds the old or the new seed |
| `IdentityFiles.SwapSurvivesIff` | internal/client/client.go:1592-1664 | that holds for every disturbance if and only if the swap starts with one of the two seeds at the path |
| `IdentityFiles.SwapIsSafe` | internal/client/client.go:1592-1625 | wherever the swap stops and whichever operations fail, a seed is at the path or the old one is in the backup; success means the new seed |
| `IdentityFiles.RecoverIsSafe` | internal/client/client.go:1627-1664 | an interrupted recovery can be repeated, and recovery never replaces a seed at the path |
| `IdentityFiles.OneFailureRestores` | internal/client/client.go:1592-1625 | a swap that fails because of one operation has restored the old seed |
| `IdentityFiles.CalmSwapSucceeds` | internal/client/client.go:1592-1625 | an undisturbed swap succeeds and leaves only the new seed |
| `IdentityFiles.CalmRecovery` | internal/client/client.go:1627-1664 | an undisturbed recovery fails exactly if the file it would use is damaged, and otherwise leaves only that seed, at the path |
| `IdentityFiles.FileSystem.CommitStaged` | internal/client/client.go:1592-1625 | the sequence of file operations equals the specified swap |
| `IdentityFiles.FileSystem.RecoverSwap` | internal/client/client.go:1627-1664 | the sequence of file operations equals the specified recovery |
| `SequencerClocks.SequencerClock.SequencerTimestamp` | internal/client/client.go:648-722 | a timestamp is given exactly from a calibration of the session at most 300 s old, or from a completed exchange within 300 s of skew; it lags the sequencer by at least minus half a round trip and less than half a round trip plus two seconds |
| `SequencerClocks.SequencerClock.Invalidate` | internal/client/client.go:724-733 | forgets a calibration with its session |
| `SequencerClocks.ExtrapolationIsAccurate` | internal/client/client.go:653-658 | the bound holds for any age of the calibration |
| `SequencerClocks.StampedProposalArrivesInTime` | internal/community/crypto.go:262-284 | with a round trip of at most 3 s, a proposal arriving within 296 s passes the timestamp check |
| `SequencerClocks.StampCanBeAhead` | internal/client/client.go:700-722 | the low bound is reached |
| `Limiters.TokenBucket.Take` | internal/node/peers.go:557-574 | refills, caps and takes as specified |
| `Limiters.WindowBound` | internal/node/peers.go:543-574 | in every window of every run the bucket grants at most its capacity plus the refill |
| `Limiters.RefusalIsNeeded` | internal/node/peers.go:557-574 | a request within the capacity is refused only if granting it would break the bound of some window ending with it |
| `Limiters.GrantedPlusLeft` | internal/node/peers.go:557-574 | tokens granted and left never exceed tokens there and refilled |
| `Limiters.RefusalIsTemporary` | internal/node/peers.go:557-574 | a refused request within the capacity is granted once the missing tokens have flowed in |
| `Timelines.WalkBack` | internal/client/store.go:527-564 | paging backwards by the first item yields the whole log once, in order, however the answers were cut, and terminates |
| `Timelines.FittedTimelineServes` | internal/clientrpc/server.go:166-206 | if every event of the log fits a line of its own, the shrunk answer fits and is the newest non-empty stretch before the position, with has_more exactly if older events remain |
| `Timelines.OversizedEventIsNeverShown` | internal/clientrpc/server.go:166-206 | an event of any log that fits no line of its own is not shown where it stands alone, so its position is not served |
| `Timelines.TimelineServesIff` | internal/clientrpc/server.go:166-206 | every position of the log is served under every limit if and only if every event of the log, and the empty answer, fits a line |
| `Timelines.FittedBackendIsFaithful` | internal/clientrpc/server.go:166-206 | the timeline of a growing log behind the line limit is a backend as the walk and the viewer need it, and never fails |
| `Timelines.WalkStored` | internal/client/store.go:527-564 | walking backwards through stored timelines shrunk to lines, while the log grows, ends with the whole log it started on, once and in order |
| `AnswerLines.ValidLogFits` | internal/clientrpc/server.go:208-211 | every event of every valid log fits a line of 64 KiB on its own |
| `AnswerLines.ItemBound` | internal/client/client.go:1450-1493 | an event that passes verification takes less than 14000 bytes as JSON, escapes included |
| `AnswerLines.ValidLogIsServed` | internal/clientrpc/server.go:166-211 | so every position of every valid log is answered under every limit, and the answer fits its line |
| `JsonLines.LineIsSized` | internal/clientrpc/server.go:208-211 | the measured size is the size in bytes of the JSON line |
| `JsonLines.ServedLineFits` | internal/clientrpc/server.go:166-211 | every answer to a position of a valid log is a JSON line of at most 65536 bytes that serves the position |
| `Timelines.Timeline` | internal/client/store.go:527-564 | the descending query, cut and reversed in place, is the newest page before the position in ascending order |
| `Timelines.TimelineIsFull` | internal/client/store.go:527-564 | the answer holds as many of the events before the position as the limit allows, 1 to 256 as asked and 100 otherwise |
| `Timelines.ReverseFront` | internal/client/store.go:560-562 | the in-place loop reverses the kept rows |
| `Timelines.FitResponse` | internal/clientrpc/server.go:187-202 | the shrinking loop equals the specified one |
| `Timelines.FittedIsLongest` | internal/clientrpc/server.go:166-206 | a page that fits is answered whole, and otherwise the longest shorter one that fits |
| `Timelines.MergedStretches` | internal/clienttui/model.go:612-627 | two touching stretches of one log merge into one, without a gap or a duplicate |
| `Timelines.MergeEvents` | internal/clienttui/model.go:612-627 | the loop over both lists computes the merge |
| `Timelines.Window.LoadRecent` | internal/clienttui/model.go:568-603 | the loaded page reaches the window and the end of the log |
| `Timelines.Window.Refresh` | internal/clienttui/model.go:629-656 | the window stays one stretch and ends with the newest event |
| `Timelines.Window.Older` | internal/clienttui/model.go:605-610 | the window grows at its front by what precedes it |
| `Timelines.Window.MergePage` | internal/clienttui/model.go:629-642 | items and has_more after a merge |
| `Timelines.Browse` | internal/clienttui/model.go:568-656 | any mix of loads over a growing log keeps the window one gap-free, duplicate-free stretch with has_more exact |

## Left out

- Ed25519, SHA-256, X25519, AES-GCM and TL encoding: hashes and signatures are symbolic, encoding is injective.
- Keys, hashes and nonces of a wrong length, and text that is not valid UTF-8: they cannot be represented, so the branches that refuse them are absent; a malformed signature can be.
- 64-bit overflow of sequence numbers and times: numbers are unbounded.
- QUIC, DHT, DNS, overlay discovery and the control socket: only "answered, lost or failed" and "the domain resolves to the author or not" remain.
- SQL text, migrations, pragmas and file permissions: tables, unique indexes and atomic transactions remain; the integrity pragma of the audit does not.
- Several rooms in one client database: one room at a time; joining and leaving a room, which adds and deletes its rows, are not moves.
- Profile names and domains across an identity reset; the direct-message cache, which a reset empties, is modelled from one reset to the next.
- Goroutines, channels and the bounded event queue: the queue is any order of delivery with any loss; interleaving within one locked operation is reduced to scripts.
- The revision columns of room_state and the message queries by message id: they repeat stored fields and the event paging.
- SubmissionAnswers.SubmissionIsAnswered: handling a submission is one step, so the second look-up after a failed domain resolution never finds anything; a proposal stored meanwhile is a later arrival here.
- The checks of a relay on the answer it passes on: a relay's answer to a member may be anything but a forged commit.
- Systems.AllLogsArePrefixes: the sequencer's own database is not damaged from outside, and the room key signs one genesis only.
- Sync.DownloadEvents: a peer answers a bounded number of queries; in the code a dishonest one can repeat pages for ever, because a relay does not count repeated events as failures.
- Pending.Submitter.SendPending: the ingest loop runs while the answer is awaited and not between the later steps; Members.StepKeeps covers every interleaving.
- IdentityFiles.SeedSurvives: directory entries that were renamed are assumed to survive a crash in order; damaged file contents arise only from outside.
- Limiters.WindowBound: over real numbers, rounding of floating point aside.
- Timelines.Window.Refresh: scrolling position and unseen counter are not modelled.
- Timelines.Window.MergePage: scrolling position and unseen counter are not modelled.
- JsonLines.LineIsSized: the members of an item are written in a fixed order; the encoder sorts them by name, which does not change the size.
- AnswerLines.ValidLogFits: numbers have at most 19 digits, as 64-bit ones do, and the caller's own request id takes at most 50000 bytes; the join answer, which carries the room state beside the page, is not measured.
- DirectMessages.DeliveredOnceIff: the checks of signature, recipient and timestamp before a message reaches the cache read the clock earlier and are a given answer here.
- Stores.Store.Audit: the integrity pragma.
- Limiters.TokenBucket.Take: over real numbers, rounding of floating point aside.
- The dedup cache, the peer table, penalties and the rendering of views and errors: containers and presentation without a deep invariant.
- Batch queries and the control commands of the node: dispatch only.
