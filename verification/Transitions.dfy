/** Which step moves a publication where, said in the fields of the rows alone.
  The conditions here do not use the guards and effects of the steps: they are
  what the steps are held against. */
module Transitions {
  import opened Common
  import opened Tables
  import opened Steps
  import opened Invariants
  import opened Submission
  import opened Guarantees

  // -------------------------------------------------------------- conditions

  /** Approved, current, and publicly visible. */
  ghost predicate IsListed(s: State, v: Id) {
    && v in s.revisions && s.revisions[v].state == Approved
    && s.revisions[v].resource in s.resources
    && s.resources[s.revisions[v].resource].current == Some(v)
    && s.resources[s.revisions[v].resource].moderation == Visible
  }

  ghost predicate IsUnleased(s: State, p: Id)
    requires p in s.publications
  {
    s.publications[p].lease.Some? ==> s.publications[p].lease.value.expires <= s.now
  }

  ghost predicate IsUnlocked(s: State, r: Id) {
    r !in s.locks && r !in s.reopens
  }

  ghost predicate IsOf(s: State, p: Id, r: Id)
    requires p in s.publications
  {
    s.publications[p].revision in s.revisions && s.revisions[s.publications[p].revision].resource == r
  }

  /** Executor `e` works on `p` and has got to `phase`. */
  ghost predicate Works(s: State, e: Id, p: Id, phase: Phase) {
    e in s.executors && s.executors[e].publication == p && s.executors[e].phase == phase
  }

  /** Poller `q` holds the lease on `p`. */
  ghost predicate Holds(s: State, q: Id, p: Id)
    requires p in s.publications
  {
    && q in s.pollers && s.pollers[q].publication == p && s.publications[p].state == Reviewing
    && s.publications[p].lease.Some? && s.publications[p].lease.value.token == s.pollers[q].token
  }

  /** The case waits for its decision and nothing holds its resource. */
  ghost predicate IsOpen(s: State, v: Id) {
    && v in s.cases && s.cases[v] == CasePending && v in s.revisions
    && s.revisions[v].resource in s.resources && IsUnlocked(s, s.revisions[v].resource)
  }

  /** The step decides the case of `v`, alone or in a batch that goes through. */
  ghost predicate Decides(s: State, a: Action, v: Id, approve: bool) {
    || (a.Review? && a.revision == v && a.approve == approve && IsOpen(s, v))
    || (&& a.ReviewBatch? && a.approve == approve && v in a.revisions
        && 1 <= |a.revisions| <= 100 && Distinct(a.revisions)
        && forall w :: w in a.revisions ==> IsOpen(s, w))
  }

  // ---------------------------------------------------- where a row may move

  ghost predicate BecomesRunning(s: State, a: Action, p: Id)
    requires p in s.publications
  {
    && a.Claim? && a.publication == p && a.executor !in s.executors
    && s.publications[p].state == Pending && s.publications[p].target in {BandBBS, AstroBox}
    && s.publications[p].nextAttempt <= s.now && IsListed(s, s.publications[p].revision)
  }

  /** The execution of `p` has come to its end, with or without success. */
  ghost predicate Ends(s: State, e: Id, p: Id)
    requires p in s.publications
  {
    Works(s, e, p, Calling) && s.publications[p].state == Running
  }

  ghost predicate IsGivenBack(s: State, a: Action, p: Id)
    requires p in s.publications
  {
    a.GiveBack? && Works(s, a.executor, p, Claimed) && s.publications[p].state == Running
  }

  ghost predicate IsRequeued(s: State, a: Action, p: Id)
    requires p in s.publications
  {
    var row := s.publications[p];
    && IsUnleased(s, p) && IsListed(s, row.revision)
    && (|| (&& a.Requeue? && a.publication == p && row.state in {Failed, Cancelled}
            && (a.requester.Some? ==> s.resources[s.revisions[row.revision].resource].owner == a.requester.value))
        || (a.RequeueFailed? && p in a.selected && row.state == Failed))
  }

  ghost predicate IsReopened(s: State, a: Action, p: Id) {
    a.ReopenEnd? && a.performed && a.resource in s.reopens && s.reopens[a.resource] == p
  }

  /** Given back, rescheduled, requeued, or released by an approval. */
  ghost predicate BecomesPending(s: State, a: Action, p: Id)
    requires p in s.publications
  {
    var row := s.publications[p];
    || IsGivenBack(s, a, p)
    || (a.Fail? && Ends(s, a.executor, p) && s.executors[a.executor].attempt < 5)
    || IsRequeued(s, a, p)
    || (Decides(s, a, row.revision, true) && row.target != OronBox && row.state == Cancelled)
  }

  /** Submitted to AstroBox, or reopened there. */
  ghost predicate BecomesReviewing(s: State, a: Action, p: Id)
    requires p in s.publications
  {
    var row := s.publications[p];
    || (a.Finish? && Ends(s, a.executor, p) && row.target == AstroBox)
    || (IsReopened(s, a, p) && row.state != Reviewing)
  }

  /** Published on BandBBS, merged into the catalogue, or listed by an approval. */
  ghost predicate BecomesPublished(s: State, a: Action, p: Id)
    requires p in s.publications
  {
    var row := s.publications[p];
    || (a.Finish? && Ends(s, a.executor, p) && row.target == BandBBS)
    || (a.PollResult? && Holds(s, a.poller, p) && a.answer.Answer? && a.answer.merged && a.answer.catalogApplied)
    || (Decides(s, a, row.revision, true) && row.target == OronBox)
  }

  /** Given up at the fifth attempt, or rejected by AstroBox. */
  ghost predicate BecomesFailed(s: State, a: Action, p: Id)
    requires p in s.publications
  {
    var row := s.publications[p];
    || (a.Fail? && Ends(s, a.executor, p) && s.executors[a.executor].attempt >= 5)
    || (&& a.PollResult? && Holds(s, a.poller, p) && a.answer.Answer?
        && !a.answer.merged && a.answer.closed && !a.answer.reopening)
  }

  /** An administrator or a creator takes the row back. */
  ghost predicate IsWithdrawn(s: State, a: Action, p: Id)
    requires p in s.publications
  {
    var state := s.publications[p].state;
    || (&& a.CancelPublication? && a.publication == p && state in {Pending, Failed, Reviewing} && IsUnleased(s, p))
    || (&& a.Takedown? && a.resource in s.resources && IsOf(s, p, a.resource) && state in {Pending, Running}
        && s.resources[a.resource].owner == a.owner && s.resources[a.resource].moderation == Visible)
    || (&& a.AdminModerate? && a.resource in s.resources && IsOf(s, p, a.resource) && state == Pending
        && a.moderation in {Suspended, Frozen} && s.resources[a.resource].moderation != a.moderation)
    || (&& a.Delete? && a.resource in s.resources && IsOf(s, p, a.resource)
        && state in {Pending, Running, Reviewing, Failed}
        && s.resources[a.resource].owner == a.owner && IsUnlocked(s, a.resource) && a.resource !in s.deletions)
  }

  /** A new submission of the resource goes ahead. */
  ghost predicate IsSuperseded(s: State, a: Action, p: Id)
    requires p in s.publications
  {
    var state := s.publications[p].state;
    || (&& a.SaveBundle? && a.submit && IsOf(s, p, a.resource) && state in {Pending, Running}
        && CanSaveBundle(s, a.owner, a.resource, a.plan, a.expected, a.saved, a.number))
    || (&& a.AdminSubmitDraft? && a.ready && a.resource in s.resources && IsOf(s, p, a.resource) && state == Pending
        && (a.expected.Some? ==> s.resources[a.resource].editVersion == a.expected.value)
        && a.revision in s.revisions && s.revisions[a.revision].resource == a.resource
        && s.revisions[a.revision].state == Draft && s.revisions[a.revision].via == Admin
        && Distinct(s.revisions[a.revision].plan))
  }

  /** The entry of a newer revision follows the same pull request. */
  ghost predicate IsOutrun(s: State, p: Id)
    requires p in s.publications && s.publications[p].revision in s.revisions
  {
    var rev := s.revisions[s.publications[p].revision];
    && s.publications[p].pullRequest.Some?
    && exists q ::
         && q in s.publications && IsOf(s, q, rev.resource)
         && s.revisions[s.publications[q].revision].number > rev.number
         && s.publications[q].target == AstroBox && s.publications[q].state in {Reviewing, Published}
         && s.publications[q].pullRequest == s.publications[p].pullRequest
  }

  ghost predicate BecomesCancelled(s: State, a: Action, p: Id)
    requires p in s.publications
  {
    var row := s.publications[p];
    || IsWithdrawn(s, a, p)
    || IsSuperseded(s, a, p)
    || (Decides(s, a, row.revision, false) && row.state != Cancelled)
    || (&& a.CheckEligible? && Works(s, a.executor, p, Locked) && row.state == Running
        && !IsListed(s, row.revision))
    || (&& a.Finish? && a.executor in s.executors && s.executors[a.executor].phase == Calling
        && var x := s.executors[a.executor];
        && x.publication != p && x.publication in s.publications && s.publications[x.publication].state == Running
        && x.target == AstroBox && IsOf(s, p, x.resource)
        && row.target == AstroBox && row.state == Reviewing && row.pullRequest == Some(a.pullRequest))
    || (a.PollRetire? && Holds(s, a.poller, p) && row.revision in s.revisions && IsOutrun(s, p))
  }

  /** An AstroBox row is due for a poll and not leased. */
  ghost predicate IsLeased(s: State, a: Action, p: Id)
    requires p in s.publications
  {
    && a.PollClaim? && a.publication == p && a.poller !in s.pollers
    && s.publications[p].target == AstroBox && s.publications[p].state == Reviewing
    && s.publications[p].nextAttempt <= s.now && IsUnleased(s, p)
  }

  /** When the row is to be looked at next. */
  ghost function DueAfter(s: State, a: Action, p: Id): int
    requires p in s.publications
  {
    var row := s.publications[p];
    if IsRequeued(s, a, p) || IsReopened(s, a, p) then s.now
    else if IsGivenBack(s, a, p) then s.now + 60
    else if a.Fail? && Ends(s, a.executor, p) then s.now + RetryDelay(s.executors[a.executor].attempt)
    else if a.Finish? && Ends(s, a.executor, p) && row.target == AstroBox then s.now + 300
    else if a.PollResult? && Holds(s, a.poller, p) && !BecomesPublished(s, a, p) && !BecomesFailed(s, a, p) then
      s.now + if a.answer.Answer? && a.answer.reopening then 15 else 300
    else row.nextAttempt
  }

  /** The lease on the row: five minutes from a poller's claim, gone with a poll's
    outcome, a reopening, or a cancellation of an entry that is being polled. */
  ghost function LeaseAfter(s: State, a: Action, p: Id): Option<Lease>
    requires p in s.publications
  {
    if IsLeased(s, a, p) then Some(Lease(s.next, s.now + 300))
    else if IsReopened(s, a, p) || (a.PollResult? && Holds(s, a.poller, p)) then None
    else if BecomesCancelled(s, a, p) && s.publications[p].state == Reviewing then None
    else s.publications[p].lease
  }

  /** What the step records in the history of the row. */
  ghost function Recorded(s: State, a: Action, p: Id): seq<Entry>
    requires p in s.publications
  {
    var row := s.publications[p];
    if BecomesRunning(s, a, p) then [Started(row.attempts + 1)]
    else if IsGivenBack(s, a, p) then [Busy(s.executors[a.executor].attempt)]
    else if a.Finish? && Ends(s, a.executor, p) then
      [Done(s.executors[a.executor].attempt, if row.target == AstroBox then Reviewing else Published)]
    else if a.Fail? && Ends(s, a.executor, p) then
      var n := s.executors[a.executor].attempt;
      [if n < 5 then Retry(n, RetryDelay(n)) else GaveUp(n)]
    else []
  }

  /** What else is on the row after the step. */
  ghost predicate WrittenAsTold(s: State, a: Action, t: State, p: Id)
    requires p in s.publications && p in t.publications
  {
    var before, after := s.publications[p], t.publications[p];
    && after.revision == before.revision && after.target == before.target
    && after.attempts == (if BecomesRunning(s, a, p) then before.attempts + 1 else before.attempts)
    && after.nextAttempt == DueAfter(s, a, p)
    && after.lease == LeaseAfter(s, a, p)
    && after.history == before.history + Recorded(s, a, p)
    && after.pullRequest == (if a.Finish? && Ends(s, a.executor, p)
                             then (if before.target == AstroBox then Some(a.pullRequest) else None)
                             else before.pullRequest)
  }

  /** Row `p` enters a state exactly when the conditions for it hold. */
  ghost predicate EntersAsTold(s: State, a: Action, t: State, p: Id)
    requires p in s.publications && p in t.publications
  {
    var before, after := s.publications[p].state, t.publications[p].state;
    && (before != Running && after == Running <==> BecomesRunning(s, a, p))
    && (before != Pending && after == Pending <==> BecomesPending(s, a, p))
    && (before != Reviewing && after == Reviewing <==> BecomesReviewing(s, a, p))
    && (before != Published && after == Published <==> BecomesPublished(s, a, p))
    && (before != Failed && after == Failed <==> BecomesFailed(s, a, p))
    && (before != Cancelled && after == Cancelled <==> BecomesCancelled(s, a, p))
  }

  ghost predicate MovesAsTold(s: State, a: Action, t: State, p: Id)
    requires p in s.publications && p in t.publications
  {
    var told := EntersAsTold(s, a, t, p) && WrittenAsTold(s, a, t, p);
    told
  }

  /** Nothing happens to the row, and nothing was to happen. */
  lemma Unmoved(s: State, a: Action, t: State, p: Id)
    requires p in s.publications && p in t.publications && t.publications[p] == s.publications[p]
    requires !a.Claim? && !a.GiveBack? && !a.Fail? && !a.Finish? && !a.CheckEligible? && !a.Requeue?
             && !a.RequeueFailed?
    requires !a.ReopenEnd? && !a.PollClaim? && !a.PollResult? && !a.PollRetire? && !a.Review? && !a.ReviewBatch?
             && !a.CancelPublication?
    requires !a.Takedown? && !a.AdminModerate? && !a.Delete? && !a.SaveBundle? && !a.AdminSubmitDraft?
    ensures MovesAsTold(s, a, t, p)
  {
  }

  lemma TakedownMoves(s: State, owner: Id, r: Id, p: Id)
    requires p in s.publications
    ensures CanTakedown(s, owner, r) ==> MovesAsTold(s, Takedown(owner, r), DoTakedown(s, r), p)
    ensures !CanTakedown(s, owner, r) ==> MovesAsTold(s, Takedown(owner, r), s, p)
  {
  }

  lemma AdminModerateMoves(s: State, r: Id, m: Moderation, p: Id)
    requires p in s.publications
    ensures CanAdminModerate(s, r, m) ==> MovesAsTold(s, AdminModerate(r, m), DoAdminModerate(s, r, m), p)
    ensures !CanAdminModerate(s, r, m) ==> MovesAsTold(s, AdminModerate(r, m), s, p)
  {
  }

  lemma RequeueMoves(s: State, q: Id, requester: Option<Id>, p: Id)
    requires p in s.publications
    ensures CanRequeue(s, q, requester) ==> MovesAsTold(s, Requeue(q, requester), DoRequeue(s, q), p)
    ensures !CanRequeue(s, q, requester) ==> MovesAsTold(s, Requeue(q, requester), s, p)
  {
  }

  lemma CancelMoves(s: State, q: Id, p: Id)
    requires p in s.publications && PublicationOk(s, p)
    ensures CanCancel(s, q) ==> MovesAsTold(s, CancelPublication(q), DoCancel(s, q), p)
    ensures !CanCancel(s, q) ==> MovesAsTold(s, CancelPublication(q), s, p)
  {
  }

  lemma RequeueFailedMoves(s: State, selected: set<Id>, p: Id)
    requires p in s.publications
    ensures MovesAsTold(s, RequeueFailed(selected), DoRequeueFailed(s, selected), p)
  {
  }

  lemma ReopenEndMoves(s: State, r: Id, performed: bool, p: Id)
    requires p in s.publications
    ensures (r in s.reopens) ==> MovesAsTold(s, ReopenEnd(r, performed), DoReopenEnd(s, r, performed), p)
    ensures !(r in s.reopens) ==> MovesAsTold(s, ReopenEnd(r, performed), s, p)
  {
  }

  lemma ClaimMoves(s: State, e: Id, q: Id, p: Id)
    requires p in s.publications
    ensures CanClaim(s, e, q) ==> MovesAsTold(s, Claim(e, q), DoClaim(s, e, q), p)
    ensures !CanClaim(s, e, q) ==> MovesAsTold(s, Claim(e, q), s, p)
  {
  }

  lemma GiveBackMoves(s: State, e: Id, p: Id)
    requires p in s.publications
    ensures InPhase(s, e, Claimed) ==> MovesAsTold(s, GiveBack(e), DoGiveBack(s, e), p)
    ensures !InPhase(s, e, Claimed) ==> MovesAsTold(s, GiveBack(e), s, p)
  {
  }

  lemma ListedIff(s: State, v: Id)
    ensures IsListed(s, v) <==> Eligible(s, v)
  {
  }

  /** What the eligibility check leaves of a row. */
  lemma RowAfterCheck(s: State, e: Id, p: Id)
    requires InPhase(s, e, Locked) && p in s.publications
    ensures var row, t := s.publications[p], DoCheckEligible(s, e);
            && p in t.publications
            && t.publications[p] == if Works(s, e, p, Locked) && row.state == Running && !IsListed(s, row.revision)
                                    then row.(state := Cancelled) else row
  {
    var q := s.executors[e].publication;
    ListedIff(s, s.publications[q].revision);
    var t := DoCheckEligible(s, e);
    if p != q {
      assert t.publications[p] == s.publications[p];
    } else if s.publications[p].state == Running && !Eligible(s, s.publications[p].revision) {
      assert t.publications == s.publications[p := s.publications[p].(state := Cancelled)];
    } else {
      assert t.publications == s.publications;
    }
  }

  lemma CheckedAsTold(s: State, e: Id, t: State, p: Id)
    requires p in s.publications && p in t.publications
    requires var row := s.publications[p];
             t.publications[p] == if Works(s, e, p, Locked) && row.state == Running && !IsListed(s, row.revision)
             then row.(state := Cancelled) else row
    ensures MovesAsTold(s, CheckEligible(e), t, p)
  {
  }

  lemma CheckMoves(s: State, e: Id, p: Id)
    requires p in s.publications
    ensures InPhase(s, e, Locked) ==> MovesAsTold(s, CheckEligible(e), DoCheckEligible(s, e), p)
    ensures !InPhase(s, e, Locked) ==> MovesAsTold(s, CheckEligible(e), s, p)
  {
    if InPhase(s, e, Locked) {
      RowAfterCheck(s, e, p);
      CheckedAsTold(s, e, DoCheckEligible(s, e), p);
    } else {
      CheckedAsTold(s, e, s, p);
    }
  }

  lemma FinishMoves(s: State, e: Id, pullRequest: nat, p: Id)
    requires p in s.publications
    requires e in s.executors ==> ExecutorOk(s, e)
    ensures CanFinish(s, e) ==> MovesAsTold(s, Finish(e, pullRequest), DoFinish(s, e, pullRequest), p)
    ensures !CanFinish(s, e) ==> MovesAsTold(s, Finish(e, pullRequest), s, p)
  {
  }

  lemma FailMoves(s: State, e: Id, p: Id)
    requires p in s.publications
    ensures InPhase(s, e, Calling) ==> MovesAsTold(s, Fail(e), DoFail(s, e), p)
    ensures !InPhase(s, e, Calling) ==> MovesAsTold(s, Fail(e), s, p)
  {
  }

  lemma PollResultMoves(s: State, q: Id, answer: Answer, p: Id)
    requires p in s.publications
    ensures (q in s.pollers) ==> MovesAsTold(s, PollResult(q, answer), DoPollResult(s, q, answer), p)
    ensures !(q in s.pollers) ==> MovesAsTold(s, PollResult(q, answer), s, p)
  {
  }

  lemma PollRetireMoves(s: State, q: Id, p: Id)
    requires p in s.publications
    requires PublicationOk(s, p)
    ensures CanRetire(s, q) ==> MovesAsTold(s, PollRetire(q), DoPollRetire(s, q), p)
    ensures !CanRetire(s, q) ==> MovesAsTold(s, PollRetire(q), s, p)
  {
  }

  lemma PollClaimMoves(s: State, q: Id, r: Id, p: Id)
    requires p in s.publications
    ensures CanPoll(s, q, r) ==> MovesAsTold(s, PollClaim(q, r), DoPollClaim(s, q, r), p)
    ensures !CanPoll(s, q, r) ==> MovesAsTold(s, PollClaim(q, r), s, p)
  {
  }

  /** What a creator's save leaves of a row that stays. */
  lemma RowAfterSave(s: State, r: Id, v: Id, plan: seq<Target>, submit: bool, number: nat, p: Id)
    requires p in s.publications && PublicationOk(s, p) && r in s.resources
    requires p in DoSaveBundle(s, r, v, plan, submit, number).publications
    ensures var row := s.publications[p];
            DoSaveBundle(s, r, v, plan, submit, number).publications[p]
            == if submit && IsOf(s, p, r) && row.state in {Pending, Running} then row.(state := Cancelled) else row
  {
  }

  lemma SavedAsTold(s: State, a: Action, t: State, p: Id)
    requires p in s.publications && p in t.publications && a.SaveBundle?
    requires CanSaveBundle(s, a.owner, a.resource, a.plan, a.expected, a.saved, a.number)
    requires var row := s.publications[p];
             t.publications[p]
             == if a.submit && IsOf(s, p, a.resource) && row.state in {Pending, Running} then row.(state := Cancelled)
             else row
    ensures MovesAsTold(s, a, t, p)
  {
  }

  lemma SaveMoves(s: State, a: Action, p: Id)
    requires a.SaveBundle? && p in s.publications && PublicationOk(s, p) && p in ApplyRevisionStep(s, a).publications
    ensures MovesAsTold(s, a, ApplyRevisionStep(s, a), p)
  {
    if CanSaveBundle(s, a.owner, a.resource, a.plan, a.expected, a.saved, a.number) {
      var t := DoSaveBundle(s, a.resource, SavedId(s, a.saved), a.plan, a.submit, a.number);
      RowAfterSave(s, a.resource, SavedId(s, a.saved), a.plan, a.submit, a.number, p);
      SavedAsTold(s, a, t, p);
    } else {
      NoSaveMoves(s, a, p);
    }
  }

  lemma NoSaveMoves(s: State, a: Action, p: Id)
    requires a.SaveBundle? && p in s.publications
    requires !CanSaveBundle(s, a.owner, a.resource, a.plan, a.expected, a.saved, a.number)
    ensures MovesAsTold(s, a, s, p)
  {
  }

  /** What an administrator's submission leaves of a row. */
  lemma RowAfterAdminSubmit(s: State, r: Id, v: Id, p: Id)
    requires p in s.publications && PublicationOk(s, p) && r in s.resources && v in s.revisions
    ensures var row, t := s.publications[p], DoAdminSubmit(s, r, v);
            && p in t.publications
            && t.publications[p] == if IsOf(s, p, r) && row.revision != v && row.state == Pending
                                    then row.(state := Cancelled) else row
  {
  }

  lemma HandedInAsTold(s: State, a: Action, t: State, p: Id)
    requires p in s.publications && p in t.publications && a.AdminSubmitDraft?
    requires CanAdminSubmit(s, a.resource, a.revision, a.expected, a.ready) && s.publications[p].revision != a.revision
    requires var row := s.publications[p];
             t.publications[p] == if IsOf(s, p, a.resource) && row.state == Pending then row.(state := Cancelled)
             else row
    ensures MovesAsTold(s, a, t, p)
  {
  }

  lemma NoAdminSubmitMoves(s: State, a: Action, p: Id)
    requires a.AdminSubmitDraft? && p in s.publications
    requires !CanAdminSubmit(s, a.resource, a.revision, a.expected, a.ready)
    ensures MovesAsTold(s, a, s, p)
  {
  }

  lemma AdminSubmitMoves(s: State, a: Action, p: Id)
    requires Inv(s) && a.AdminSubmitDraft? && p in s.publications
    ensures p in ApplyRevisionStep(s, a).publications && MovesAsTold(s, a, ApplyRevisionStep(s, a), p)
  {
    assert PublicationOk(s, p) && RevisionOk(s, s.publications[p].revision);
    if CanAdminSubmit(s, a.resource, a.revision, a.expected, a.ready) {
      RowAfterAdminSubmit(s, a.resource, a.revision, p);
      HandedInAsTold(s, a, DoAdminSubmit(s, a.resource, a.revision), p);
    } else {
      NoAdminSubmitMoves(s, a, p);
    }
  }

  lemma DeleteEnters(s: State, owner: Id, r: Id, remoteTargets: bool, p: Id)
    requires p in s.publications && PublicationOk(s, p)
    ensures CanDelete(s, owner, r) ==>
              EntersAsTold(s, Delete(owner, r, remoteTargets), DoDelete(s, r, remoteTargets), p)
    ensures !CanDelete(s, owner, r) ==> EntersAsTold(s, Delete(owner, r, remoteTargets), s, p)
  {
    if CanDelete(s, owner, r) && IsOf(s, p, r) { assert IsFor(s, p, r) && HasHistory(s, r); }
  }

  lemma DeleteWrites(s: State, owner: Id, r: Id, remoteTargets: bool, p: Id)
    requires p in s.publications && PublicationOk(s, p)
    ensures CanDelete(s, owner, r) ==>
              WrittenAsTold(s, Delete(owner, r, remoteTargets), DoDelete(s, r, remoteTargets), p)
    ensures !CanDelete(s, owner, r) ==> WrittenAsTold(s, Delete(owner, r, remoteTargets), s, p)
  {
    if CanDelete(s, owner, r) && IsOf(s, p, r) { assert IsFor(s, p, r) && HasHistory(s, r); }
  }

  lemma DeleteMoves(s: State, owner: Id, r: Id, remoteTargets: bool, p: Id)
    requires p in s.publications && PublicationOk(s, p)
    ensures CanDelete(s, owner, r) ==> MovesAsTold(s, Delete(owner, r, remoteTargets), DoDelete(s, r, remoteTargets), p)
    ensures !CanDelete(s, owner, r) ==> MovesAsTold(s, Delete(owner, r, remoteTargets), s, p)
  {
    DeleteEnters(s, owner, r, remoteTargets, p);
    DeleteWrites(s, owner, r, remoteTargets, p);
  }

  lemma DecideMoves(s: State, v: Id, approve: bool, p: Id)
    requires p in s.publications && PublicationOk(s, p)
    ensures CanDecide(s, v) ==> MovesAsTold(s, Review(v, approve), DoDecide(s, v, approve), p)
    ensures !CanDecide(s, v) ==> MovesAsTold(s, Review(v, approve), s, p)
  {
  }

  /** A batch writes the rows of its revisions and no others. */
  lemma {:induction false} BatchRows(s: State, vs: seq<Id>, approve: bool, p: Id)
    requires p in s.publications && DecideAll(s, vs, approve).Some?
    ensures var row, t := s.publications[p], DecideAll(s, vs, approve).value;
            && p in t.publications
            && t.publications[p] == if row.revision !in vs then row
                                    else if !approve then row.(state := Cancelled)
                                    else if row.target == OronBox then row.(state := Published)
                                    else row.(state := Pending)
    decreases |vs|
  {
    if vs == [] {
    } else {
      BatchRows(DoDecide(s, vs[0], approve), vs[1..], approve, p);
      assert vs == [vs[0]] + vs[1..];
    }
  }

  lemma BatchEnters(s: State, vs: seq<Id>, approve: bool, p: Id)
    requires Inv(s) && p in s.publications
    ensures p in DoReviewBatch(s, vs, approve).publications
    ensures EntersAsTold(s, ReviewBatch(vs, approve), DoReviewBatch(s, vs, approve), p)
  {
    assert PublicationOk(s, p);
    if Distinct(vs) { BatchSucceeds(s, vs, approve); }
    if CanStartBatch(s, vs) && DecideAll(s, vs, approve).Some? {
      BatchRows(s, vs, approve, p);
    }
  }

  lemma BatchWrites(s: State, vs: seq<Id>, approve: bool, p: Id)
    requires Inv(s) && p in s.publications
    ensures p in DoReviewBatch(s, vs, approve).publications
    ensures WrittenAsTold(s, ReviewBatch(vs, approve), DoReviewBatch(s, vs, approve), p)
  {
    assert PublicationOk(s, p);
    if Distinct(vs) { BatchSucceeds(s, vs, approve); }
    if CanStartBatch(s, vs) && DecideAll(s, vs, approve).Some? {
      BatchRows(s, vs, approve, p);
    }
  }

  lemma BatchMoves(s: State, vs: seq<Id>, approve: bool, p: Id)
    requires Inv(s) && p in s.publications
    ensures p in DoReviewBatch(s, vs, approve).publications
    ensures MovesAsTold(s, ReviewBatch(vs, approve), DoReviewBatch(s, vs, approve), p)
  {
    BatchEnters(s, vs, approve, p);
    BatchWrites(s, vs, approve, p);
  }

  lemma RowStepMoves(s: State, a: Action, p: Id)
    requires p in s.publications && PublicationOk(s, p) && IsRowStep(a)
    ensures p in ApplyRowStep(s, a).publications && MovesAsTold(s, a, ApplyRowStep(s, a), p)
  {
    match a
    case Takedown(owner, r) => TakedownMoves(s, owner, r, p);
    case Restore(owner, r) =>
      Unmoved(s, a, s, p);
      if CanRestore(s, owner, r) { Unmoved(s, a, DoRestore(s, r), p); }
    case AdminModerate(r, m) => AdminModerateMoves(s, r, m, p);
    case Requeue(q, requester) => RequeueMoves(s, q, requester, p);
    case CancelPublication(q) => CancelMoves(s, q, p);
    case RequeueFailed(selected) => RequeueFailedMoves(s, selected, p);
    case Reopen(owner, v, q) =>
      Unmoved(s, a, s, p);
      if CanReopen(s, owner, v, q) { Unmoved(s, a, DoReopen(s, v, q), p); }
    case ReopenEnd(r, performed) => ReopenEndMoves(s, r, performed, p);
  }

  lemma PhaseStepMoves(s: State, a: Action, p: Id)
    requires p in s.publications && (a.Lock? || a.CheckFails? || a.Unlock? || a.Crash?)
    ensures p in ApplyExecutorStep(s, a).publications && MovesAsTold(s, a, ApplyExecutorStep(s, a), p)
  {
    Unmoved(s, a, ApplyExecutorStep(s, a), p);
  }

  lemma ExecutorStepMoves(s: State, a: Action, p: Id)
    requires p in s.publications && IsExecutorStep(a)
    requires a.Finish? && a.executor in s.executors ==> ExecutorOk(s, a.executor)
    ensures p in ApplyExecutorStep(s, a).publications && MovesAsTold(s, a, ApplyExecutorStep(s, a), p)
  {
    if a.Claim? { ClaimMoves(s, a.executor, a.publication, p); }
    else if a.GiveBack? { GiveBackMoves(s, a.executor, p); }
    else if a.CheckEligible? { CheckMoves(s, a.executor, p); }
    else if a.Finish? { FinishMoves(s, a.executor, a.pullRequest, p); }
    else if a.Fail? { FailMoves(s, a.executor, p); }
    else { PhaseStepMoves(s, a, p); }
  }

  lemma PollStepMoves(s: State, a: Action, p: Id)
    requires p in s.publications && IsPollStep(a) && PublicationOk(s, p)
    ensures p in ApplyPollStep(s, a).publications && MovesAsTold(s, a, ApplyPollStep(s, a), p)
  {
    match a
    case PollClaim(q, r) => PollClaimMoves(s, q, r, p);
    case PollRetire(q) => PollRetireMoves(s, q, p);
    case PollResult(q, answer) => PollResultMoves(s, q, answer, p);
    case PollCrash(q) => Unmoved(s, a, s.(pollers := s.pollers - {q}), p);
    case Tick(seconds) => Unmoved(s, a, s.(now := s.now + seconds), p);
  }

  lemma DraftsMove(s: State, a: Action, r: Id, v: Id, plan: seq<Target>, p: Id)
    requires p in s.publications && (a.AdminCreateDraft? || a.AdminUpdateDraft? || a.AdminDiscardDraft?)
    ensures MovesAsTold(s, a, s, p)
    ensures r in s.resources && v in s.revisions ==> MovesAsTold(s, a, DoAdminUpdateDraft(s, r, v, plan), p)
    ensures p in DoAdminDiscardDraft(s, v).publications ==> MovesAsTold(s, a, DoAdminDiscardDraft(s, v), p)
  {
    Unmoved(s, a, s, p);
    if r in s.resources && v in s.revisions { Unmoved(s, a, DoAdminUpdateDraft(s, r, v, plan), p); }
    if p in DoAdminDiscardDraft(s, v).publications { Unmoved(s, a, DoAdminDiscardDraft(s, v), p); }
  }

  lemma DraftStepMoves(s: State, a: Action, p: Id)
    requires p in s.publications && IsRevisionStep(a) && p in ApplyRevisionStep(s, a).publications
    requires a.CreateResource? || a.AdminCreateDraft? || a.AdminUpdateDraft? || a.AdminDiscardDraft? || a.Purge?
    ensures MovesAsTold(s, a, ApplyRevisionStep(s, a), p)
  {
    match a
    case CreateResource(owner) => Unmoved(s, a, DoCreateResource(s, owner), p);
    case AdminCreateDraft(r, base, plan, expected, n) =>
      DraftsMove(s, a, r, base, plan, p);
      if CanAdminCreateDraft(s, r, base, expected, n) { Unmoved(s, a, DoAdminCreateDraft(s, r, base, plan, n), p); }
    case AdminUpdateDraft(r, v, plan, _) => DraftsMove(s, a, r, v, plan, p);
    case AdminDiscardDraft(r, v) => DraftsMove(s, a, r, v, [], p);
    case Purge(r) =>
      Unmoved(s, a, s, p);
      Unmoved(s, a, s.(resources := s.resources - {r}), p);
  }

  lemma DecisionStepMoves(s: State, a: Action, p: Id)
    requires Inv(s) && p in s.publications && (a.Review? || a.ReviewBatch?)
    ensures p in ApplyRevisionStep(s, a).publications && MovesAsTold(s, a, ApplyRevisionStep(s, a), p)
  {
    assert PublicationOk(s, p);
    if a.Review? { DecideMoves(s, a.revision, a.approve, p); } else { BatchMoves(s, a.revisions, a.approve, p); }
  }

  lemma RevisionStepMoves(s: State, a: Action, p: Id)
    requires Inv(s) && p in s.publications && IsRevisionStep(a) && p in ApplyRevisionStep(s, a).publications
    ensures MovesAsTold(s, a, ApplyRevisionStep(s, a), p)
  {
    assert PublicationOk(s, p);
    if a.SaveBundle? { SaveMoves(s, a, p); }
    else if a.AdminSubmitDraft? { AdminSubmitMoves(s, a, p); }
    else if a.Review? || a.ReviewBatch? { DecisionStepMoves(s, a, p); }
    else if a.Delete? { DeleteMoves(s, a.owner, a.resource, a.remoteTargets, p); }
    else { DraftStepMoves(s, a, p); }
  }

  /** Of all steps, exactly those told above move a publication, and each to the
    state told. */
  lemma StepMoves(s: State, a: Action, p: Id)
    requires Inv(s) && p in s.publications && p in Apply(s, a).publications
    ensures MovesAsTold(s, a, Apply(s, a), p)
  {
    assert PublicationOk(s, p);
    if a.Finish? && a.executor in s.executors { assert ExecutorOk(s, a.executor); }
    if IsRevisionStep(a) { RevisionStepMoves(s, a, p); }
    else if IsRowStep(a) { RowStepMoves(s, a, p); }
    else if IsExecutorStep(a) { ExecutorStepMoves(s, a, p); }
    else { PollStepMoves(s, a, p); }
  }
}
