# OronBox-Server: a verified model

OronBox-Server reviews resources that creators submit and publishes them to
other sites. Its hard logic is a set of compare-and-set transactions over shared
tables, run concurrently by request handlers, a coordinator and a deletion
worker. This project models that logic in Dafny and proves what it keeps in
every interleaving.

`dafny verify dfyconfig.toml` checks the whole project.

## How the model is built

- **The protocol.** `Tables` holds the rows, `Steps` what each transaction and
  each database access of an executor or poller does to them. A run is any
  sequence of steps. A step whose guard fails changes nothing, like a rolled-back
  transaction. External answers, review input and the clock are parameters of the
  steps. `Invariants`, `Preservation`, `Submission` and `Decision` carry one
  invariant through every step; `Theorems`, `Lifecycle`, `Guarantees` and `Delays`
  draw the results, and `Witnesses` has the runs in which something goes wrong.
  `Batches` shows that a batch does not depend on row order.
- **The transition tables.** `Transitions` (publications), `RecordMoves` (revisions
  and resources), `SessionMoves` (executors, locks, pollers, reopen requests) and
  `Arrivals` (what is added and removed) say for every step exactly when it
  changes a row and what it writes, in the fields of the rows and without the
  guards and effects of the steps: the steps are proved to be these tables.
  `CollectionMoves`, and parts of `DeletionWorker` and `AdminSessions`, do the same
  for their tables. `Outcomes` says what a submission leaves behind.
- **The code.** `Database`, `Reviews` and `Coordinator` are the transactions as
  imperative methods over the shared tables, statement by statement, with their
  loops and early exits. Each is proved to succeed exactly when its step is
  allowed and to have exactly that step's effect. `publishOne`, `pollOne`
  and the reopen request are cut where they wait for an external site, so that
  other transactions may run between two parts.
- **Beside the protocol.** `Bindings` and `Targets` (BandBBS bindings and retry
  filtering), `DeletionWorker`, `AdminSessions`, `Collections`, `HomeFeed`,
  `RateLimiter`, `Attestation`, `Semver` and `Watchface` follow one pattern: a
  specification over values, a class or method with the code's own loops and
  updates proved against it, and lemmas over all inputs or all runs.
  `Common`, `Counting` and `Text` hold what they share.

Ids and lease tokens come from a counter, so none is issued twice. Review cases
are keyed by their revision, which is unique in the schema. The advisory lock
7319 is a map from locked resources to executors and one from locked resources to
the publications of reopen requests; a hash collision on it appears as a lock
attempt that fails for no reason, which the model allows. A failing
database access of an executor is the step `CheckFails`, `GiveBack` or `Crash`.

## What the code does not do

- A deleted resource does not stay deleted under an administrator's suspend,
  freeze or restore (`internal/store/resources/moderation.go:40-80`).
  `OnlyAdminRevives` is the exact condition. Since a resource has one deletion
  operation, a later deletion of a revived resource reports success and does
  nothing; `RepeatedDelete` is the exact condition.
- The comment on that function says that it cancels pending and running
  publications (`internal/store/resources/moderation.go:15-18`); the code cancels
  pending ones only. The model follows the code. `submitAdminDraft` likewise
  cancels pending rows only, and it does not look at the moderation state.
- A reopen request checks that its publication is not published, waits for the
  external site, and then writes it whatever it has become
  (`internal/creator/reviews.go:176-201`). A poller that records the merge during
  that wait is overwritten: published is final exactly when no such request is
  under way (`PublishedIsFinal`; `PublishedIsReopened` is a run).
- Retry delays grow with the attempt number, but failures of a requeued
  publication need not be recorded in the order of their attempts
  (`DelayShrinksIff`; `DelayShrinksSomewhere` is a run). That takes more than one
  coordinator process: a single one runs one attempt after the other
  (`internal/coordinator/coordinator.go:68-83`), and then the recorded delays of a
  publication always grow (`OneProcessDelaysGrow`).
- A completed BandBBS target is handed to the publisher again exactly when some
  target of the list has no key `category_id` (`DoneIsResentIff`). Other unusable
  values are refused before (`internal/coordinator/bandbbs.go:20-32`), and a
  creator's plan needs a positive number (`internal/creator/model.go:322-331`), so
  such a list can only come from an administrator's edit, whose submission does
  not look into the targets (`internal/store/admin_revision_edit.go:370-386`).
- Rewriting an old BandBBS row has no check of its own; without the identity
  index two resources could share a pair (`NormalizeNeedsIndex`).
- A replaced console credential loses what is left of its thirty seconds exactly
  when another refresh with the then current credential arrives and the server's
  clock has passed the end of the overlap, whatever the database's clock says
  (`OverlapIsCutIff`, `OverlapIsExact`; `OverlapCutShort` is a run).
- A worker whose lease ran out before its removal request may still send that
  request after another worker's was recorded (`LateRequestHappens`); its result
  is dropped (`ReceiptBlocksRemoval`).
- With the configured nonce lifetime one request can be accepted twice, exactly
  at both ends of the clock window (`ConfiguredReplayIsExact`).
- Numeric pre-release identifiers of more than 64 bits are compared as text, with
  each other and with identifiers that are not numeric. `DisagreesIff` is the exact
  condition under which the order of two versions is not the standard's.

## Model

| member | source | states |
|---|---|---|
| `Invariants.QuietKeeps` | internal/creator/resources.go:191-254 | Any step that leaves revisions, cases and executor records alone, such as moderation, retry, cancel, reopen and polling, keeps the whole invariant. |
| `Invariants.SessionsKept` | internal/coordinator/publication.go:44-70 | A step that spares what each running executor relies on keeps all executors consistent with the tables. |
| `Submission.SaveBundleKeeps` | internal/creator/bundle.go:189-346 | A creator's save or submit keeps the invariant: one submitted revision per resource, distinct numbers, a pending case for exactly the submitted revision, an OronBox row for every submitted revision. |
| `Submission.AdminSubmitKeeps` | internal/store/admin_revision_edit.go:335-441 | The second submission path keeps the same invariant although it cancels pending rows only. |
| `Submission.AdminCreateDraftKeeps` | internal/store/admin_revision_edit.go:147-208 | Cloning a base revision into an admin draft keeps the invariant. |
| `Submission.AdminUpdateDraftKeeps` | internal/store/admin_revision_edit.go:135-146 | Editing a draft or a revision under review keeps the invariant. |
| `Submission.AdminDiscardDraftKeeps` | internal/store/admin_revision_edit.go:248-272 | Discarding a draft or a revision under review, with its case and publications, keeps the invariant. |
| `Decision.DecideKeeps` | internal/creator/review_decision.go:155-256 | A decision keeps the invariant; overwriting the publications unconditionally is safe because an undecided revision's rows are only pending or cancelled, and executors past the lock are never affected. |
| `Decision.HideKeeps` | internal/creator/deletion.go:107-114 | A deletion that hides the resource keeps the invariant and strands no executor. |
| `Decision.EraseKeeps` | internal/creator/deletion.go:110-111 | A deletion that erases a resource without publication history keeps the invariant. |
| `Decision.StepKeeps` | internal/coordinator/publication.go:22-127 | Every step of every transaction, executor and poller keeps the invariant. |
| `Decision.RunKeeps` | internal/coordinator/publication.go:22-127 | So does every finite interleaving of such steps. |
| `Preservation.ClaimKeeps` | internal/coordinator/publication.go:24-40 | Claiming keeps the invariant; no two executors ever run the same attempt. |
| `Preservation.GiveBackKeeps` | internal/coordinator/publication.go:44-55 | Handing a claim back because the lock is busy keeps the invariant and uses up no retry. |
| `Preservation.LockKeeps` | internal/coordinator/publication.go:49-52 | Taking the advisory lock keeps one executor per locked resource. |
| `Preservation.CheckEligibleKeeps` | internal/coordinator/publication.go:63-70 | The second eligibility check keeps the invariant: an executor goes on only with a current approved revision. |
| `Preservation.FinishKeeps` | internal/coordinator/publication.go:129-177 | Recording success keeps the invariant, including the cancellation of older entries of the same pull request. |
| `Preservation.FailKeeps` | internal/coordinator/publication.go:91-127 | Recording a failure keeps the invariant: rescheduled attempts are distinct and below five. |
| `Preservation.LeaveKeeps` | internal/coordinator/publication.go:56-62 | Unlocking, or losing the session, keeps the invariant. |
| `Theorems.OneExecutorPerResource` | internal/coordinator/publication.go:49-62 | In every reachable state two executors that are past the lock work on different resources. |
| `Theorems.ExecutedRevisionIsCurrent` | internal/coordinator/publication.go:63-87 | From its eligibility check until it unlocks, an executor's revision is approved, is the current revision of its resource, and the resource is not deleted. |
| `Theorems.LockedResourceIsLeftAlone` | internal/creator/review_decision.go:175-181 | While an executor or a reopen request holds the lock of a resource, no other executor gets past its lock, and review decisions (also inside a batch), deletion and reopening of that resource change nothing. |
| `Theorems.ReopenExcludesExecutor` | internal/creator/reviews.go:187-194 | While a reopen request waits for the external site, no executor of that resource is past the lock. |
| `Theorems.DeleteCommits` | internal/creator/deletion.go:40-118 | A committed deletion hides the resource at once, with no external call in flight and every publication published or cancelled; the resource row goes exactly when there is neither history nor a remote copy. |
| `Theorems.DeletionIsFinal` | internal/coordinator/publication.go:24-70 | After a deletion, under any continuation without an administrator's moderation of that resource, it stays hidden and no external call for it is ever in flight, even if a later approval requeues its publications. |
| `Theorems.OnlyAdminRevives` | internal/store/resources/moderation.go:40-80 | A step un-deletes a resource if and only if it is an administrator's suspend, freeze or restore of it. |
| `Theorems.RepeatedDelete` | internal/creator/deletion.go:61-65 | A deletion request that reports success leaves the resource hidden if and only if it was the first one or the resource was still deleted. |
| `Theorems.RevivedIsReachable` | internal/store/resources/moderation.go:70-73 | A concrete run after which a resource is visible although its deletion operation exists. |
| `Theorems.RevivedResourceCannotBeDeleted` | internal/creator/deletion.go:61-65 | After that run a second deletion reports success and deletes nothing. |
| `Lifecycle.StepEvolves` | internal/creator/review_decision.go:226-244 | No step takes a publication out of published unless a reopen request is under way, lowers its attempts, brings a lost lease back, or removes a publication of a once approved revision. |
| `Transitions.StepMoves` | internal/coordinator/publication.go:22-177 | For every step of creators, administrators, executors and pollers: exactly when a publication enters each of its six states, and its attempts, next attempt, lease, pull request and history after it. |
| `RecordMoves.RevisionMoves` | internal/creator/review_decision.go:155-256 | For every step: exactly when a revision becomes submitted, approved, rejected or superseded. |
| `RecordMoves.ResourceMoves` | internal/store/resources/moderation.go:29-81 | For every step: exactly when moderation state, moderator, current revision and edit version of a resource change, and to what. |
| `RecordMoves.NoLostUpdate` | internal/creator/bundle.go:203-208 | Once an edit of a resource has gone ahead, no edit made for the same version goes ahead later, whatever happens in between. |
| `SessionMoves.SessionMoves` | internal/coordinator/publication.go:44-62 | For every step: exactly which executors, pollers and reopen requests start, move and end, and who holds the lock of each resource after it. |
| `Arrivals.RevisionsComeAndGo` | internal/creator/bundle.go:230-261 | For every step: exactly which revisions it adds and removes. |
| `Arrivals.SavedAsGiven` | internal/creator/bundle.go:258-346 | What a creator saves is the only draft of the resource or its submission, has the plan as given and the highest number; a draft has no publication. |
| `Arrivals.DraftAsGiven` | internal/store/admin_revision_edit.go:147-208 | An administrator's new draft has the given plan, or else the base revision's, and the highest number. |
| `Arrivals.RowsGo` | internal/store/admin_revision_edit.go:248-272 | A publication goes only with a revision that an administrator discards. |
| `Arrivals.ResourcesGo` | internal/creator/deletion.go:110-111 | A resource goes if and only if it is purged without revisions, or deleted by its owner with neither publications nor remote copies. |
| `Outcomes.SubmissionIsMade` | internal/creator/bundle.go:127-129 | After a creator's submission a target has exactly one publication of the revision if and only if it was asked for or is OronBox, pending and untouched. |
| `Outcomes.AdminSubmissionIsMade` | internal/store/admin_revision_edit.go:397-440 | The same after an administrator's submission for the stored plan, which then names exactly these targets. |
| `Guarantees.RevisionShape` | internal/creator/bundle.go:258-337 | In every reachable state: at most one submitted revision per resource; a case is pending exactly when its revision is submitted; a revision is approved exactly when it is the current one; numbers are distinct. |
| `Guarantees.PublishedIsFinal` | internal/creator/reviews.go:176-201 | A published publication stays published in every continuation if and only if no reopen request that passed its checks before is still under way. |
| `Guarantees.SettledIsFinal` | internal/coordinator/polling.go:97-108 | Published with no reopen request under way is absorbing over all runs: none can start later. |
| `Witnesses.PublishedIsReopened` | internal/creator/reviews.go:194-198 | A concrete run in which a poller records the merge while a reopen request waits, and the request then takes the publication out of published. |
| `Guarantees.ApprovedStaysListed` | internal/creator/review_decision.go:226-228 | The OronBox publication of a revision that was ever approved exists and is published in every continuation. |
| `Guarantees.UndecidedIsNeverDispatched` | internal/creator/bundle.go:319-346 | A publication of a revision that was not approved is only ever pending or cancelled. |
| `Guarantees.LeaseOnlyWhileReviewing` | internal/coordinator/polling.go:18-26 | A publication carries a lease token only while it is reviewing. |
| `Guarantees.LostLeaseStaysLost` | internal/coordinator/polling.go:21-23 | A lease token that is off a row never returns to it. |
| `Guarantees.StalePollerChangesNothing` | internal/coordinator/polling.go:97-150 | Once a cancel, deletion, reopen, newer claim, recorded outcome, retirement or newer entry hit the row, a poller that still holds the old token changes no publication at any later time. |
| `Guarantees.AtMostFourRetries` | internal/coordinator/publication.go:91-96 | Over its whole life, however often it is requeued, at most four failed executions of a publication are rescheduled. |
| `Guarantees.AttemptsNeverDrop` | internal/store/admin_publications.go:303 | The attempt counter is never reset or lowered. |
| `Guarantees.ClaimsAreNumbered` | internal/coordinator/publication.go:31 | Every claim of a publication has a higher attempt number than every claim before it. |
| `Delays.DelayBounds` | internal/coordinator/publication.go:95 | The delay lies between 30 and 3600 seconds, does not shrink with the attempt number, and is 30, 60, 120 and 240 seconds for the attempts that are made again. |
| `Delays.DelayShrinksIff` | internal/coordinator/publication.go:91-127 | In every reachable state: the delay that a failure records breaks the growing order of the delays in the history exactly when an attempt with a higher number was rescheduled before. |
| `Delays.OneProcessDelaysGrow` | internal/coordinator/coordinator.go:68-83 | If a claim is only made when the executor before has ended, as in a single coordinator process, the delays recorded for a publication grow from one failure to the next, however often it is requeued. |
| `Witnesses.DelayShrinksSomewhere` | internal/coordinator/publication.go:24-44 | A concrete run of three overlapping executors after which a recorded delay is shorter than the one before. |
| `Guarantees.PendingCasesDiffer` | internal/creator/review_decision.go:74-79 | No two pending cases are about the same resource. |
| `Guarantees.BatchSucceeds` | internal/creator/review_decision.go:117-127 | A batch of distinct cases goes through if and only if each case could have been decided alone. |
| `Guarantees.BatchDecidesEach` | internal/creator/review_decision.go:117-127 | After a batch every case of it is decided as asked, its revision current if approved; no decision of a batch undoes another. |
| `Batches.DecisionsCommute` | internal/creator/review_decision.go:155-256 | Two decisions made in one state give the same database in either order. |
| `Batches.OrderIsIrrelevant` | internal/creator/review_decision.go:74-110 | A batch gives the same result in whatever order the database returns its cases. |
| `Counting.CountDecides` | internal/creator/review_decision.go:114-116 | If as many distinct rows came back as ids were asked for, the ids are distinct and all were found. |
| `Database.Database.FindDraft` | internal/creator/bundle.go:230-233 | Finds the draft with the highest number, or none exactly when there is no draft. |
| `Database.Database.NextNumber` | internal/creator/bundle.go:258-261 | One more than the highest number of the resource's revisions. |
| `Database.Database.InsertPublications` | internal/creator/bundle.go:339-346 | Adds exactly one pending row per target, with new ids. |
| `Database.Database.SaveBundle` | internal/creator/bundle.go:189-261 | Succeeds exactly if the plan has no duplicates, the owner has the resource, the expected version is the current one and the resource is neither frozen nor deleted; then has exactly the effect of the step, and otherwise changes nothing. A submission leaves one untouched pending row for each target of the plan and one for OronBox, and no other row of the revision. |
| `Database.Database.WriteBundle` | internal/creator/bundle.go:230-346 | The statements in their order give the tables of the step: drafts replaced, number taken, other submissions and their cases superseded, live rows cancelled, case and rows created. |
| `Database.Database.Retire` | internal/creator/bundle.go:319-338 | The three supersession updates and the new case, in order. |
| `Database.SubmissionInOrder` | internal/creator/bundle.go:230-338 | Deleting the drafts and inserting the new row before the supersession updates gives the same tables as deciding per old row. |
| `Database.AdminSubmissionInOrder` | internal/store/admin_revision_edit.go:397-426 | The same for the admin submission, whose revision stays a draft until after the supersession updates. |
| `Database.Database.AdminCreateDraft` | internal/store/admin_revision_edit.go:117-208 | Creates one admin draft, numbered next, with the base revision's plan when none is given, exactly if version and base match and there is no admin draft. |
| `Database.Database.AdminUpdateDraft` | internal/store/admin_revision_edit.go:117-146 | Edits exactly an admin draft or a revision with a pending case. |
| `Database.Database.AdminSubmitDraft` | internal/store/admin_revision_edit.go:342-440 | Succeeds exactly when the step is allowed and has exactly its effect: one untouched pending row for each target of the stored plan and one for OronBox, and a stored plan of exactly these targets. |
| `Database.Database.AdminDiscardDraft` | internal/store/admin_revision_edit.go:248-272 | Removes the revision together with its case and publications. |
| `Database.Database.Purge` | internal/store/resources/moderation.go:54-62 | Removes a resource exactly when it has no revisions. |
| `Reviews.DecideReview` | internal/creator/review_decision.go:155-256 | Succeeds exactly when the case is pending and the lock is free, and then has exactly the effect of the decision step; the writes before the lock are undone by the caller. |
| `Reviews.ApprovalInOrder` | internal/creator/review_decision.go:182-241 | The seven updates of an approval, in order, give the step's tables: previous current revision superseded, pointer moved, rows released, suspension lifted. |
| `Reviews.Review` | internal/creator/review_decision.go:37-50 | All or nothing for one case. |
| `Reviews.ReviewBatch` | internal/creator/review_decision.go:61-132 | All or nothing for up to a hundred cases, whatever order they are read in; succeeds exactly when every case is decidable. |
| `Reviews.SetModeration` | internal/creator/resources.go:197-254 | Takedown and restore succeed exactly in the states the owner may change and have exactly the step's effect. |
| `Reviews.AdminModerate` | internal/store/resources/moderation.go:29-81 | Moderation to another state has exactly the step's effect, to the same state none. |
| `Reviews.Delete` | internal/creator/deletion.go:40-118 | Deletes exactly when the lock is free, the requester owns the resource and no operation exists; a repeated request succeeds without effect. |
| `Reviews.Requeue` | internal/store/admin_publications.go:282-319 | Requeues exactly failed or cancelled rows without a live lease whose revision is approved, current and visible, for the owner or an administrator. |
| `Reviews.CancelPublication` | internal/store/admin_publications.go:304-319 | Cancels exactly pending, failed or reviewing rows without a live lease. |
| `Reviews.RetryFailed` | internal/store/admin_publications.go:350-403 | The row-by-row loop has the effect of one set update, and counts what it retried. |
| `Reviews.NoCandidateIsSkipped` | internal/store/admin_publications.go:383-399 | In a reachable state every matching row is retried: the check for an approved revision skips none. |
| `Reviews.StartReopen` | internal/creator/reviews.go:169-193 | Goes on to the external site, with the lock held, exactly when owner, state, visibility, lock and the absence of a newer submission allow it. |
| `Reviews.FinishReopen` | internal/creator/reviews.go:194-201 | Afterwards the lock is free, and a performed request has put its publication into review without a lease, whatever state it was in by then. |
| `Coordinator.Claim` | internal/coordinator/publication.go:23-43 | Takes some due, eligible row; reports none only when there is none. |
| `Coordinator.AcquireLock` | internal/coordinator/publication.go:44-55 | Locks exactly when connected and free; otherwise the claim goes back for a minute. |
| `Coordinator.CheckEligible` | internal/coordinator/publication.go:63-70 | Goes on exactly when running and eligible; otherwise no running row is left behind. |
| `Coordinator.Finish` | internal/coordinator/publication.go:129-162 | Records success exactly when the row is still running and retires the entries that follow the same pull request. |
| `Coordinator.Fail` | internal/coordinator/publication.go:91-103 | Reschedules with the computed delay below five attempts and gives up at five. |
| `Coordinator.Unlock` | internal/coordinator/publication.go:56-62 | Afterwards the executor holds no lock. |
| `Coordinator.PublishOne` | internal/coordinator/publication.go:22-103 | Without interference the parts compose to one attempt. |
| `Coordinator.AttemptSettles` | internal/coordinator/publication.go:22-103 | An attempt that nothing interferes with is never refused, counts one attempt, leaves its row in the state that follows from connection, lock, answer and attempt number, and leaves locks and executors as they were. |
| `Coordinator.PollClaim` | internal/coordinator/polling.go:18-29 | Leases the row that has been due longest; reports none only when none is due. |
| `Coordinator.Retire` | internal/coordinator/polling.go:30-38 | Cancels the entry exactly when its lease stands and a newer revision follows the same pull request. |
| `Coordinator.RecordPoll` | internal/coordinator/polling.go:92-153 | Applies the outcome exactly when the lease still stands, and always gives the lease up: published if merged and in the catalogue, failed if closed without a merge and not reopening, otherwise due again after 15 or 300 seconds. |
| `Bindings.BindingsOnlyGrow` | internal/coordinator/bandbbs.go:153-191 | Over every run, and from reads however stale, a bound category keeps its remote id forever, across normalization, partial failures, retries and finishes. |
| `Bindings.OnlyEmptyIdsAreDropped` | internal/coordinator/bandbbs.go:241-245 | An upsert drops a category only if it was bound to the empty id, and a concrete upsert that does. |
| `Bindings.NoPairIsShared` | internal/store/schema/sql/binding_identities_v9.sql:2-22 | With the identity index no two resources ever hold the same category and remote id, whatever formats the table started out with. |
| `Bindings.CheckKeepsUnique` | internal/coordinator/bandbbs.go:247-266 | The upsert's own check keeps pairs unique even without the index. |
| `Bindings.IndexIsStricter` | internal/store/schema/sql/binding_identities_v9.sql:7-22 | The index refuses an upsert that passed the check exactly when another row uses a remote id under another category or in an old format. |
| `Bindings.UpsertIff` | internal/coordinator/bandbbs.go:223-272 | An upsert goes through if and only if it names a category, keeps every id that the row is bound to, and brings no id that another row uses in whatever format. |
| `Bindings.NormalizeIff` | internal/coordinator/bandbbs.go:193-221 | Which old rows can be read, that they are rewritten exactly when they bring no id that another row uses, and that what they say is kept. |
| `Bindings.NormalizeNeedsIndex` | internal/coordinator/bandbbs.go:38-49 | Without the index, rewriting an old row keeps pairs unique if and only if no other canonical row holds one of its pairs. |
| `Bindings.BareRowCollides` | internal/coordinator/bandbbs.go:215-219 | A concrete table in which the rewrite would share a pair and only the index stops it. |
| `Bindings.BindingTable.NormalizeRow` | internal/coordinator/bandbbs.go:34-49 | Has exactly the effect of the normalization step and hands on the parsed binding. |
| `Bindings.BindingTable.UpsertRow` | internal/coordinator/bandbbs.go:223-272 | The two checking loops accept exactly the allowed upserts; a refused one changes nothing. |
| `Bindings.BindingTable.RecordPartial` | internal/coordinator/bandbbs.go:167-191 | Partial progress is merged into what the row holds at that moment. |
| `Bindings.BindingTable.FinishBinding` | internal/coordinator/bandbbs.go:75-91 | The finished binding is what was read before the attempt overlaid with its results. |
| `Bindings.Overlay` | internal/coordinator/bandbbs.go:178-182 | The copying loop gives the right-biased union. |
| `Targets.FilterConfig` | internal/coordinator/bandbbs.go:96-151 | Filtering in place over the shared backing array gives nil exactly when every target has its resource, version and owed update on record, else exactly the targets that lack one of them, in order, or the raw configuration in the cases the specification names. |
| `Targets.KeepOwed` | internal/coordinator/bandbbs.go:129-141 | The loop keeps the targets that are not fully done as a prefix of the array that it reads, and gives up exactly at a target without a category id. |
| `Targets.RemainingIsFilter` | internal/coordinator/bandbbs.go:130-141 | What remains is a subsequence of the targets, and a target is in it exactly when it is not fully done. |
| `Targets.FinishedWhenAllDone` | internal/coordinator/bandbbs.go:142-144 | The result is nil if and only if every target is done. |
| `Targets.FinishedWhenSettled` | internal/coordinator/bandbbs.go:136-144 | The result is nil if and only if for every target resource, version and, when an update is to be made, update are on record. |
| `Targets.SentIff` | internal/coordinator/bandbbs.go:131-151 | A target is handed to the publisher if and only if one of these is missing, or some target of the list has no category id. |
| `Targets.DoneIsResentIff` | internal/coordinator/bandbbs.go:131-135 | A completed target is handed to the publisher again if and only if some target of the list has no category id. |
| `Targets.DoneIsResentForExample` | internal/coordinator/bandbbs.go:131-135 | A concrete configuration in which a completed target is handed over again. |
| `Targets.DoneStaysDone` | internal/coordinator/bandbbs.go:153-166 | Over any number of failed attempts with a publisher that only adds, what was done stays done. |
| `Targets.RetriesShrink` | internal/coordinator/bandbbs.go:96-166 | Each retry sends a subsequence of what an earlier attempt sent and none of the targets done by then. |
| `DeletionWorker.RunningIffLeased` | internal/creator/deletion.go:185-233 | In every reachable state a step is running exactly when it carries a lease token. |
| `DeletionWorker.CompletedIsFinal` | internal/creator/deletion.go:156-166 | A completed step never changes again, under claims, saves and retries. |
| `DeletionWorker.StepMoves` | internal/creator/deletion.go:181-236 | For every action, exactly when it changes a step and what it writes: claims, saves and retries, in the fields of step, job and answer. |
| `DeletionWorker.CompletedIff` | internal/creator/deletion.go:189-227 | A step becomes completed if and only if a worker saves under its lease, with a known owner, that BandBBS deleted the copy, or that AstroBox removed it without a request to wait for, or that the request on record is completed. |
| `DeletionWorker.CompletedHasSave` | internal/creator/deletion.go:189-236 | In every reachable state, behind a completed step there is such a save. |
| `DeletionWorker.TokenStaysGone` | internal/creator/deletion.go:185-185 | A claim's token that is off the row never returns. |
| `DeletionWorker.ClaimSavesAtMostOnce` | internal/creator/deletion.go:233-236 | After its save, or after a later claim of the step, a claim never changes any step again. |
| `DeletionWorker.ReceiptLeavesOnlyWhenClosed` | internal/creator/deletion.go:206-219 | A save removes a stored receipt exactly when the removal request was closed without being merged. |
| `DeletionWorker.ReceiptBlocksRemoval` | internal/creator/deletion.go:199-205 | While a receipt is stored, over every run without such a closing, no later claim sends another removal request, and nothing is recorded of a request that an earlier claim still sends. |
| `DeletionWorker.LateRequestHappens` | internal/creator/deletion.go:185-205 | A concrete run after which a worker that lost its lease is about to send a second removal request. |
| `DeletionWorker.FailureIsRetriedBelowFive` | internal/creator/deletion.go:220-228 | Failed work becomes pending below five attempts, with one to sixteen minutes of delay, and failed from then on. |
| `DeletionWorker.RetryRestarts` | internal/creator/deletion.go:156-166 | A retry changes exactly the failed steps of the operation: they are due at once with a fresh attempt count and their receipts kept. The lease condition excludes none of them, no failed step of the operation is left, and no worker loses its lease. |
| `DeletionWorker.OperationState` | internal/creator/deletion.go:141-153 | For any row order: failed iff some step failed, completed iff all are, else the state of the last row that is not completed. |
| `DeletionWorker.Worker.ClaimStep` | internal/creator/deletion.go:181-188 | Claims the due step with the earliest next attempt; reports none only when none is due. |
| `DeletionWorker.Worker.PerformAndSave` | internal/creator/deletion.go:189-238 | The branches give exactly the specified outcome, saved only under the claim's own lease: completed exactly when the copy is reported gone, and the other states, the receipt and the next attempt as told in the fields of job and answer. |
| `AdminSessions.ApplyKeeps` | internal/store/admin_sessions.go:19-67 | Every operation keeps: the stored credential is the one derived from session id and generation, the previous one belongs to the generation before, the overlap ends thirty seconds after the rotation, the idle expiry is within the absolute one. |
| `AdminSessions.AcceptedCredentials` | internal/store/admin_sessions.go:24-28 | Exactly the credential of the current generation and, for thirty seconds after a rotation, the one before it are accepted; no two sessions accept the same. |
| `AdminSessions.AcceptedIff` | internal/store/admin_sessions.go:24-28 | A credential is accepted if and only if idle and absolute expiry lie ahead and it is the current one, or the one before it during the overlap. |
| `AdminSessions.SessionMoves` | internal/store/admin_sessions.go:19-67 | For every step: exactly what it writes to a session, with twelve hours from the last activity, a week from the login, and thirty seconds of overlap. |
| `AdminSessions.AbsoluteExpiryIsFixed` | internal/store/admin_sessions.go:56-67 | Over every run the absolute expiry never moves, the idle expiry never passes it and the generation never falls. |
| `AdminSessions.ExpiredStaysExpired` | internal/store/admin_sessions.go:63-67 | An expired session is never revived. |
| `AdminSessions.RefreshIssuesCurrent` | internal/server/console_auth.go:134-155 | Whatever happens between admission and refresh, an answered refresh hands out the then current credential. |
| `AdminSessions.RefreshAnswers` | internal/store/admin_sessions.go:39-55 | A request that was let in, whatever happens before its refresh, is answered if and only if the session still lives and its credential is the current one, or the one before it while the server's clock has not reached the end of the overlap. |
| `AdminSessions.RequestIssuesCurrent` | internal/server/admin.go:166-181 | An accepted request re-issues the then current credential, whatever rotated in between. |
| `AdminSessions.RacingRefreshesConverge` | internal/server/console_auth.go:141-152 | Two refreshes are let in at one generation and the first rotates: whatever happens between them, the second does not rotate, and if it is answered both get the same credential exactly when nobody else rotated. |
| `AdminSessions.OverlapIsCutIff` | internal/store/admin_sessions.go:47-59 | A step takes an accepted replaced credential away if and only if it is a refresh with the current credential, let in at the current generation, when the server's clock has passed the end of the overlap. |
| `AdminSessions.OverlapIsExact` | internal/store/admin_sessions.go:24-59 | On every run a replaced credential is accepted later if and only if the session lives, thirty seconds have not passed and no further refresh has rotated the session. |
| `AdminSessions.OverlapLasts` | internal/store/admin_sessions.go:47-59 | If the server's clock is not ahead of the database's in any refresh, the replaced credential has its full thirty seconds. |
| `AdminSessions.OverlapCutShort` | internal/store/admin_sessions.go:50-59 | A concrete run in which a credential loses its whole overlap to a server clock that is thirty seconds ahead. |
| `AdminSessions.AdminSessionStore.CreateAdminSession` | internal/store/admin_sessions.go:19-23 | Creates a session exactly when the id is new. |
| `AdminSessions.AdminSessionStore.AdminSession` | internal/store/admin_sessions.go:24-28 | Finds the one session that accepts the credential, or none if none does. |
| `AdminSessions.AdminSessionStore.RotateAdminSession` | internal/store/admin_sessions.go:29-61 | The checks in order give the specified outcome and effect. |
| `AdminSessions.AdminSessionStore.TouchAdminSession` | internal/store/admin_sessions.go:63-67 | Extends exactly live sessions. |
| `AdminSessions.AdminSessionStore.HandleRefresh` | internal/server/console_auth.go:134-155 | Answers exactly the accepted cookies that are current or whose overlap has not ended by the server's clock, always with the current credential. |
| `AdminSessions.AdminSessionStore.HandleRequest` | internal/server/admin.go:166-181 | Answers exactly the accepted cookies, always with the current credential. |
| `Collections.MembershipIsSnapshot` | internal/creator/collections.go:296-346 | In every reachable state a collection has at most one pending revision, its approved one is its current one, and the resources placed in it are exactly that revision's members, each at its position, all of the collection's owner and kind. |
| `Collections.RowCountPlacesAll` | internal/creator/collections.go:330-340 | The number of rows changed equals the number of members if and only if every member has the owner and kind and is in no other collection. |
| `Collections.ApprovableIff` | internal/creator/collections.go:327-340 | A pending revision can be approved if and only if each member still has the owner and kind and is in no other collection. |
| `Collections.ReviewKeeps` | internal/creator/collections.go:311-345 | Approving or rejecting keeps the membership invariant. |
| `Collections.OthersMembersStay` | internal/creator/collections.go:327-330 | Only the approval of a revision of that very collection takes a resource out of it or moves it. |
| `Collections.LiveIsSnapshot` | internal/creator/collections.go:76-78 | The live members in position order are the approved snapshot. |
| `Collections.ResubmissionKeepsMembers` | internal/creator/collections.go:47-86 | A metadata update or deletion request proposes exactly the pending or else the approved membership; a deletion request disables it. |
| `Collections.ApplyKeeps` | internal/creator/collections.go:208-345 | Every collection operation, of creators and administrators, keeps the invariant. |
| `CollectionMoves.RevisionMoves` | internal/creator/collections.go:208-345 | For every operation, exactly which revision it proposes, with what content, and which it approves, rejects or supersedes. |
| `CollectionMoves.CollectionMoves` | internal/creator/collections.go:319-343 | For every operation, exactly when it changes the current revision, the enabled flag or the version of a collection. |
| `CollectionMoves.ResourceMoves` | internal/creator/collections.go:324-340 | Only an approval places resources, each member at its index, and releases the others; no operation changes an owner or a kind. |
| `Collections.CollectionService.SubmitCollection` | internal/creator/collection_submission.go:26-128 | Goes ahead exactly for one to two hundred distinct members that are the owner's, of the kind, not hidden and in no other collection, and for a collection of the owner's that is still as the request saw it; counting rows decides it. |
| `Collections.CollectionService.AdminUpdateCollectionMetadata` | internal/store/admin_collections.go:326-396 | Proposes the given members exactly if they are distinct, of the collection's owner and kind and in no other collection and, where a version was given, version and pending revision are the expected ones. |
| `Collections.CollectionService.ReviewCollection` | internal/creator/collections.go:296-346 | Release, placement and row count, in order, approve exactly the pending revisions whose members are all still the owner's, of the kind, and in no other collection. |
| `Collections.ReviewInOrder` | internal/creator/collections.go:311-343 | Releasing before placing does not change which rows can be placed. |
| `Collections.HasNoDuplicates` | internal/creator/collection_submission.go:66-72 | The loop over the seen set accepts exactly the lists without duplicates. |
| `HomeFeed.RowIsFull` | internal/creator/public_home.go:52-87 | A row is as long as the row size or as there are distinct eligible cards not used before, whichever is smaller. |
| `HomeFeed.NothingIsMissed` | internal/creator/public_home.go:52-87 | A row that is not full shows every candidate that is not excluded and whose type and id were not shown before. |
| `HomeFeed.PageHasNoDuplicates` | internal/creator/public_home.go:88-100 | No card appears twice on the page, within a row or across rows, and no excluded id appears. |
| `HomeFeed.Feed.SelectRow` | internal/creator/public_home.go:52-87 | The two passes give a fair prefix with at most two cards per named owner, then only cards of owners at the cap, and only if the fair part ran short. |
| `HomeFeed.Feed.Fair` | internal/creator/public_home.go:55-72 | The capped pass: what it leaves open belongs to an owner at the cap. |
| `HomeFeed.Feed.Fill` | internal/creator/public_home.go:73-85 | The relaxed pass leaves nothing open if it runs short. |
| `HomeFeed.Feed.PublicHomeFeed` | internal/creator/public_home.go:94-100 | Latest, recommended and featured are rows over what the ones before left. |
| `RateLimiter.EvictionIsInvisible` | internal/server/ratelimit.go:67-75 | On a clock that does not go back, no answer differs from that of a map that never evicts. |
| `RateLimiter.AtMostTwiceTheLimit` | internal/server/ratelimit.go:58-83 | Any half-open interval one window long contains at most twice the limit of charged events per key. |
| `RateLimiter.TwiceTheLimitIsReached` | internal/server/ratelimit.go:63-66 | A concrete history that reaches that bound. |
| `RateLimiter.Limiter.Record` | internal/server/ratelimit.go:58-83 | Answers and updates exactly as specified, the eviction sweep included. |
| `RateLimiter.Limiter.Evict` | internal/server/ratelimit.go:69-75 | The sweep removes exactly the windows older than twice the window length, and only above 4096 entries. |
| `RateLimiter.Limiter.Allow` | internal/server/ratelimit.go:42-44 | Lets an event through exactly when the budget is not used up, and charges it. |
| `RateLimiter.Limiter.Observe` | internal/server/ratelimit.go:46-50 | Charges an event without an answer. |
| `RateLimiter.Limiter.Exceeded` | internal/server/ratelimit.go:52-56 | Reports whether the budget is gone without charging it. |
| `Attestation.CacheIsLog` | internal/attestation/nonce.go:24-41 | The cache with expiry accepts a nonce exactly when an unbounded log holds no acceptance of it less than ttl ago. |
| `Attestation.AcceptancesAreApart` | internal/attestation/nonce.go:31-39 | Two acceptances of one nonce are at least ttl apart. |
| `Attestation.ReplayPossibleIff` | internal/attestation/derive.go:116-142 | Some run accepts one timestamp and nonce twice if and only if ttl is at most twice the skew. |
| `Attestation.ConfiguredReplayIsExact` | internal/server/server.go:84 | With the configured ttl a second acceptance can only happen exactly ttl after the first, from one edge of the window to the other. |
| `Attestation.NonceStore.Use` | internal/attestation/nonce.go:23-41 | The deletion loop and the insertion give exactly the specified answer and entries. |
| `Attestation.Verify` | internal/attestation/derive.go:97-144 | Verifies exactly when all earlier checks pass and the nonce is fresh; each refusal exactly in its case; a request that fails earlier leaves the nonces alone. |
| `Semver.OrderIsAntisymmetric` | internal/store/admin_releases.go:309-360 | On parsed versions the comparison is antisymmetric and zero only for equal versions. |
| `Semver.OrderIsTransitive` | internal/store/admin_releases.go:309-360 | On parsed versions the comparison is transitive. |
| `Semver.DisagreesIff` | internal/store/admin_releases.go:309-360 | On parsed versions the comparison departs from item 11 of Semantic Versioning 2.0.0 if and only if the three numbers agree and the first differing identifiers are misordered: both too large for 64 bits with text order against value order, or one such and the other not numeric and first as text. |
| `Semver.AgreesWithStandard` | internal/store/admin_releases.go:330-360 | The comparison is the precedence of item 11 of Semantic Versioning 2.0.0 when numeric identifiers fit in 64 bits. |
| `Semver.SpareZeroBreaksOrder` | internal/store/admin_releases.go:299-305 | Without the parser's rejection of leading zeros two versions would each come after the other. |
| `Semver.LargeIdentifiersDisagree` | internal/store/admin_releases.go:336-349 | For every n from 20 on two pairs of accepted versions that are put in the wrong order: 1.0.0-10^n before 1.0.0-(10^n - 1), and 1.0.0--x before 1.0.0-10^n. |
| `Semver.Parse` | internal/store/admin_releases.go:282-307 | Accepts exactly the specified strings, with no numeric identifier that has a spare zero. |
| `Semver.ParsedIff` | internal/store/admin_releases.go:251-307 | A text is accepted, as a given version, if and only if without the space around it it writes that version: an optional v, three numerals without spare zeros below 2^64, pre-release and build identifiers joined by single dots. |
| `Text.TrimParts` | internal/store/admin_releases.go:283-283 | Trimming takes off white space only, and all of it at the ends. |
| `Semver.ComparePrerelease` | internal/store/admin_releases.go:330-360 | The loop computes the specified order of identifier lists. |
| `Semver.Compare` | internal/store/admin_releases.go:309-328 | The loop over the three numbers and the pre-release rules compute the specified order. |
| `Watchface.WrittenIdIsRead` | internal/resource/analyzer.go:194-227 | Writing any valid id into any file and reading it back gives that id. |
| `Watchface.OnlyTheFieldChanges` | internal/resource/analyzer.go:223-226 | Only the twelve bytes of the id field change; length, magic and version code stay. |
| `Watchface.IdIff` | internal/resource/analyzer.go:194-213 | A file has a given id if and only if it fills the id field up to the first zero byte, has only letters, digits, underscores and hyphens, and is not all zeros. |
| `Watchface.IdBytes` | internal/resource/analyzer.go:194-213 | The bytes of an id are the letters, digits, underscore and hyphen. |
| `Watchface.NormalFormIsStable` | internal/resource/analyzer.go:215-227 | A normalized file has an id, and normalizing again with any randomness changes nothing. |
| `Watchface.RandomIdIsId` | internal/resource/analyzer.go:229-241 | For all random bytes the generated id is valid, nine to twelve digits, not starting with zero. |
| `Watchface.WatchfaceId` | internal/resource/analyzer.go:194-213 | Reads the id up to the first zero byte, or none if it is empty, all zeros or has another character. |
| `Watchface.RandomWatchfaceId` | internal/resource/analyzer.go:229-241 | The loop fills exactly the specified digits. |
| `Watchface.NormalizeWatchface` | internal/resource/analyzer.go:215-227 | Hands back the same slice when there is an id, a fresh copy with the new id otherwise; never changes its input. |
| `Watchface.Stamp` | internal/resource/analyzer.go:223-226 | Clone, clear and copy give exactly the input with the id field replaced. |

## Left out

- SQL text, isolation levels and row locks: each transaction is one atomic step and columns are typed fields. A reopen request keeps the row of its resource locked while it waits for the external site, and its checks come before it takes the advisory lock; the model has no row locks, so it allows more interleavings there, and it checks and takes the lock in one step.
- Losing a lock while working: the advisory lock 7319 of an executor belongs to one database connection and its statements run on others, so a lost connection frees the lock and the executor carries on. In the model an executor and its lock go together.
- Validation of manifests, notes, attributes, media and device bindings: callers have done it, or its outcome is a parameter (`ready`).
- Resource kinds in the review protocol, `created_via='import'` and the limit on draft resources.
- History rows other than those of the execute phase, events and audit rows: nothing reads them back.
- The order of candidates by `created_at` in publishOne: any due row may be claimed.
- Database.Database.SaveBundle: does not model binding claims and uploads, which touch other tables.
- Coordinator.Finish: does not model the external binding that it writes in the same transaction; a refused binding is a finish that fails, and `Bindings` has the BandBBS part on its own.
- Coordinator.PublishOne: one executor between two steps of which nothing else runs; the interleavings are in the steps.
- Creating a resource is a step without a method.
- saveManifestBindings (`internal/creator/bundle_bindings.go:86`), which compares whole ids and may replace a binding.
- The governance placement that an admin revision carries (`internal/creator/review_decision.go:209-215`) and the physical deletion of resources, in the membership results: both change memberships outside the collection operations.
- Collections.CollectionService.SubmitCollection: does not model names, media and representatives; the representative is not always a member of the snapshot.
- Revision numbers of collections: the order of revisions plays no part once there is one pending revision.
- DeletionWorker.Worker.RetryOperation: does not model the ownership lookup before it.
- Account deletion in the deletion worker: whether an operation still has an owner is a parameter of the claim.
- Logout and expiry clean-up of console sessions; cookies, origin checks and CSRF tokens.
- Hashing, key derivation and signatures: injective functions or boolean inputs.
- White space is ASCII white space; case folding and Unicode are not modelled.
- HomeFeed.Feed.PublicHomeFeed: does not model how the candidate lists are ranked and limited.
- Liveness: a crash can leave a row running, and nothing here says that it is ever finished.
- Blob storage and replication, listings, analytics, rendering, configuration and HTTP plumbing.
