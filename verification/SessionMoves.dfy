/** Which step starts, moves or ends an executor, a poller or a reopen request,
  and which locks are held after it, said in the fields alone. */
module SessionMoves {
  import opened Common
  import opened Tables
  import opened Steps
  import opened Invariants
  import opened Transitions

  // --------------------------------------------------------------- executors

  /** The executor leaves: it hands its claim back, unlocks, or crashes. */
  ghost predicate Departs(s: State, a: Action, e: Id)
    requires e in s.executors
  {
    || (a.GiveBack? && a.executor == e && s.executors[e].phase == Claimed)
    || (a.Unlock? && a.executor == e && s.executors[e].phase in {Refused, Finished})
    || (a.Crash? && a.executor == e)
  }

  ghost predicate Locks(s: State, a: Action, e: Id)
    requires e in s.executors
  {
    a.Lock? && a.executor == e && s.executors[e].phase == Claimed && IsUnlocked(s, s.executors[e].resource)
  }

  /** The phase of the executor after the step. */
  ghost function PhaseAfter(s: State, a: Action, e: Id): Phase
    requires e in s.executors && s.executors[e].publication in s.publications
  {
    var x := s.executors[e];
    var row := s.publications[x.publication];
    if Locks(s, a, e) then Locked
    else if a.CheckEligible? && a.executor == e && x.phase == Locked then
      if row.state == Running && IsListed(s, row.revision) then Calling else Refused
    else if a.CheckFails? && a.executor == e && x.phase == Locked then Refused
    else if a.Finish? && a.executor == e && x.phase == Calling && row.state == Running then Finished
    else if a.Fail? && a.executor == e && x.phase == Calling then Finished
    else x.phase
  }

  ghost predicate ExecutorAsTold(s: State, a: Action, t: State, e: Id) {
    if e in s.executors then
      && (e in t.executors <==> !Departs(s, a, e))
      && (e in t.executors ==>
            && s.executors[e].publication in s.publications
            && t.executors[e] == s.executors[e].(phase := PhaseAfter(s, a, e)))
    else
      && (e in t.executors <==>
          a.Claim? && a.executor == e && a.publication in s.publications && BecomesRunning(s, a, a.publication))
      && (e in t.executors ==>
            && a.Claim? && a.publication in s.publications && s.publications[a.publication].revision in s.revisions
            && var row := s.publications[a.publication];
            t.executors[e] == Executor(a.publication, row.revision, s.revisions[row.revision].resource, row.target,
                                       row.attempts + 1, Claimed))
  }

  /** The lock of `r` after the step. */
  ghost predicate LockAsTold(s: State, a: Action, t: State, r: Id) {
    && (r in t.locks <==>
        || (r in s.locks && s.locks[r] in s.executors && !Departs(s, a, s.locks[r]))
        || (IsExecutorStep(a) && a.executor in s.executors && Locks(s, a, a.executor)
            && s.executors[a.executor].resource == r))
    && (r in t.locks ==> if r in s.locks then t.locks[r] == s.locks[r]
          else IsExecutorStep(a) && t.locks[r] == a.executor)
  }

  // ---------------------------------------------------------- reopen requests

  /** The creator may ask for a reopening of `p`, the AstroBox entry of `v`. */
  ghost predicate Asks(s: State, a: Action, r: Id, p: Id) {
    && a.Reopen? && a.publication == p && p in s.publications
    && a.revision in s.cases && a.revision in s.revisions && s.revisions[a.revision].resource == r
    && r in s.resources && s.resources[r].owner == a.owner && s.resources[r].moderation == Visible && IsUnlocked(s, r)
    && s.publications[p].revision == a.revision && s.publications[p].target == AstroBox
    && s.publications[p].state in {Reviewing, Failed}
    && forall q :: q in s.publications && IsOf(s, q, r) && s.publications[q].target == AstroBox
                   && s.revisions[s.publications[q].revision].number > s.revisions[a.revision].number ==>
                     s.publications[q].state == Cancelled
  }

  ghost predicate ReopenAsTold(s: State, a: Action, t: State, r: Id) {
    && (r in t.reopens <==>
        || (r in s.reopens && !(a.ReopenEnd? && a.resource == r))
        || (a.Reopen? && Asks(s, a, r, a.publication)))
    && (r in t.reopens ==>
          if r in s.reopens then t.reopens[r] == s.reopens[r] else a.Reopen? && t.reopens[r] == a.publication)
  }

  // ------------------------------------------------------------------ pollers

  ghost predicate PollerAsTold(s: State, a: Action, t: State, q: Id) {
    if q in s.pollers then
      && (q in t.pollers <==>
          && !(a.PollResult? && a.poller == q) && !(a.PollCrash? && a.poller == q)
          && !(&& a.PollRetire? && a.poller == q && s.pollers[q].publication in s.publications
               && BecomesCancelled(s, a, s.pollers[q].publication)))
      && (q in t.pollers ==> t.pollers[q] == s.pollers[q])
    else
      && (q in t.pollers <==>
          && a.PollClaim? && a.poller == q && a.publication in s.publications
          && IsLeased(s, a, a.publication))
      && (q in t.pollers ==> a.PollClaim? && t.pollers[q] == Poller(a.publication, s.next))
  }

  /** What the invariant says of executors and locks. */
  ghost predicate Linked(s: State) {
    && (forall e :: e in s.executors ==> s.executors[e].publication in s.publications)
    && (forall r :: r in s.locks ==>
                      && s.locks[r] in s.executors && s.executors[s.locks[r]].resource == r
                      && s.executors[s.locks[r]].phase != Claimed)
  }

  lemma SessionsAreLinked(s: State)
    requires Inv(s)
    ensures Linked(s)
  {
    forall e | e in s.executors ensures s.executors[e].publication in s.publications { assert ExecutorOk(s, e); }
    forall r | r in s.locks ensures s.locks[r] in s.executors && s.executors[s.locks[r]].phase != Claimed {
      assert ExecutorOk(s, s.locks[r]);
    }
  }

  ghost predicate SessionsAsTold(s: State, a: Action, t: State) {
    && (forall e {:trigger ExecutorAsTold(s, a, t, e)} :: ExecutorAsTold(s, a, t, e))
    && (forall r {:trigger LockAsTold(s, a, t, r)} :: LockAsTold(s, a, t, r))
    && (forall r {:trigger ReopenAsTold(s, a, t, r)} :: ReopenAsTold(s, a, t, r))
    && (forall q {:trigger PollerAsTold(s, a, t, q)} :: PollerAsTold(s, a, t, q))
  }

  ghost predicate SameSessions(s: State, t: State) {
    var same := t.executors == s.executors && t.locks == s.locks && t.reopens == s.reopens && t.pollers == s.pollers;
    same
  }

  lemma SessionsStay(s: State, a: Action, t: State)
    requires SameSessions(s, t) && Linked(s)
    requires !IsExecutorStep(a) && !IsPollStep(a) && !a.Reopen? && !a.ReopenEnd?
    ensures SessionsAsTold(s, a, t)
  {
  }

  lemma ClaimSessions(s: State, e: Id, p: Id)
    requires Linked(s)
    ensures CanClaim(s, e, p) ==> SessionsAsTold(s, Claim(e, p), DoClaim(s, e, p))
    ensures !CanClaim(s, e, p) ==> SessionsAsTold(s, Claim(e, p), s)
  {
  }

  lemma GiveBackSessions(s: State, e: Id)
    requires Linked(s)
    ensures InPhase(s, e, Claimed) ==> SessionsAsTold(s, GiveBack(e), DoGiveBack(s, e))
    ensures !InPhase(s, e, Claimed) ==> SessionsAsTold(s, GiveBack(e), s)
  {
  }

  lemma LockSessions(s: State, e: Id)
    requires Linked(s)
    ensures CanLock(s, e) ==> SessionsAsTold(s, Lock(e), DoLock(s, e))
    ensures !CanLock(s, e) ==> SessionsAsTold(s, Lock(e), s)
  {
  }

  lemma CheckSessions(s: State, e: Id)
    requires Linked(s)
    ensures InPhase(s, e, Locked) ==> SessionsAsTold(s, CheckEligible(e), DoCheckEligible(s, e))
    ensures !InPhase(s, e, Locked) ==> SessionsAsTold(s, CheckEligible(e), s)
  {
    if InPhase(s, e, Locked) {
      var t, row := DoCheckEligible(s, e), s.publications[s.executors[e].publication];
      ListedIff(s, row.revision);
      PhaseIsTold(s, e, t, if row.state == Running && IsListed(s, row.revision) then Calling else Refused);
    }
  }

  lemma PhaseIsTold(s: State, e: Id, t: State, phase: Phase)
    requires Linked(s) && InPhase(s, e, Locked) && phase == PhaseAfter(s, CheckEligible(e), e)
    requires t.executors == AtPhase(s, e, phase)
    requires t.locks == s.locks && t.reopens == s.reopens && t.pollers == s.pollers
    ensures SessionsAsTold(s, CheckEligible(e), t)
  {
  }

  lemma CheckFailsSessions(s: State, e: Id)
    requires Linked(s)
    ensures InPhase(s, e, Locked) ==> SessionsAsTold(s, CheckFails(e), s.(executors := AtPhase(s, e, Refused)))
    ensures !InPhase(s, e, Locked) ==> SessionsAsTold(s, CheckFails(e), s)
  {
  }

  lemma FinishSessions(s: State, e: Id, pullRequest: nat)
    requires Linked(s)
    ensures CanFinish(s, e) ==> SessionsAsTold(s, Finish(e, pullRequest), DoFinish(s, e, pullRequest))
    ensures !CanFinish(s, e) ==> SessionsAsTold(s, Finish(e, pullRequest), s)
  {
  }

  lemma FailSessions(s: State, e: Id)
    requires Linked(s)
    ensures InPhase(s, e, Calling) ==> SessionsAsTold(s, Fail(e), DoFail(s, e))
    ensures !InPhase(s, e, Calling) ==> SessionsAsTold(s, Fail(e), s)
  {
  }

  lemma UnlockSessions(s: State, e: Id)
    requires Linked(s)
    ensures CanUnlock(s, e) ==> SessionsAsTold(s, Unlock(e), DoLeave(s, e))
    ensures !CanUnlock(s, e) ==> SessionsAsTold(s, Unlock(e), s)
  {
  }

  lemma CrashSessions(s: State, e: Id)
    requires Linked(s)
    ensures SessionsAsTold(s, Crash(e), DoLeave(s, e))
  {
  }

  lemma ReopenSessions(s: State, owner: Id, v: Id, p: Id)
    requires Linked(s)
    ensures CanReopen(s, owner, v, p) ==> SessionsAsTold(s, Reopen(owner, v, p), DoReopen(s, v, p))
    ensures !CanReopen(s, owner, v, p) ==> SessionsAsTold(s, Reopen(owner, v, p), s)
  {
  }

  lemma ReopenEndSessions(s: State, r: Id, performed: bool)
    requires Linked(s)
    ensures (r in s.reopens) ==> SessionsAsTold(s, ReopenEnd(r, performed), DoReopenEnd(s, r, performed))
    ensures !(r in s.reopens) ==> SessionsAsTold(s, ReopenEnd(r, performed), s)
  {
  }

  lemma PollClaimSessions(s: State, q: Id, p: Id)
    requires Linked(s)
    ensures CanPoll(s, q, p) ==> SessionsAsTold(s, PollClaim(q, p), DoPollClaim(s, q, p))
    ensures !CanPoll(s, q, p) ==> SessionsAsTold(s, PollClaim(q, p), s)
  {
  }

  lemma PollRetireSessions(s: State, q: Id)
    requires Linked(s)
    ensures CanRetire(s, q) ==> SessionsAsTold(s, PollRetire(q), DoPollRetire(s, q))
    ensures !CanRetire(s, q) ==> SessionsAsTold(s, PollRetire(q), s)
  {
  }

  lemma PollResultSessions(s: State, q: Id, answer: Answer)
    requires Linked(s)
    ensures (q in s.pollers) ==> SessionsAsTold(s, PollResult(q, answer), DoPollResult(s, q, answer))
    ensures !(q in s.pollers) ==> SessionsAsTold(s, PollResult(q, answer), s)
  {
  }

  lemma ExecutorStepSessions(s: State, a: Action)
    requires Linked(s) && IsExecutorStep(a)
    ensures SessionsAsTold(s, a, ApplyExecutorStep(s, a))
  {
    match a
    case Claim(e, p) => ClaimSessions(s, e, p);
    case GiveBack(e) => GiveBackSessions(s, e);
    case Lock(e) => LockSessions(s, e);
    case CheckEligible(e) => CheckSessions(s, e);
    case CheckFails(e) => CheckFailsSessions(s, e);
    case Finish(e, pullRequest) => FinishSessions(s, e, pullRequest);
    case Fail(e) => FailSessions(s, e);
    case Unlock(e) => UnlockSessions(s, e);
    case Crash(e) => CrashSessions(s, e);
  }

  lemma PollStepSessions(s: State, a: Action)
    requires Linked(s) && IsPollStep(a)
    ensures SessionsAsTold(s, a, ApplyPollStep(s, a))
  {
    match a
    case PollClaim(q, p) => PollClaimSessions(s, q, p);
    case PollRetire(q) => PollRetireSessions(s, q);
    case PollResult(q, answer) => PollResultSessions(s, q, answer);
    case PollCrash(q) =>
    case Tick(_) =>
  }

  lemma {:induction false} BatchLeavesSessions(s: State, vs: seq<Id>, approve: bool)
    requires DecideAll(s, vs, approve).Some?
    ensures SameSessions(s, DecideAll(s, vs, approve).value)
    decreases |vs|
  {
    if vs == [] {
    } else {
      BatchLeavesSessions(DoDecide(s, vs[0], approve), vs[1..], approve);
    }
  }

  lemma DraftStepLeavesSessions(s: State, a: Action)
    requires a.AdminCreateDraft? || a.AdminUpdateDraft? || a.AdminDiscardDraft? || a.AdminSubmitDraft?
    ensures SameSessions(s, ApplyRevisionStep(s, a))
  {
    if a.AdminSubmitDraft? && a.resource in s.resources && a.revision in s.revisions {
      assert SameSessions(s, DoAdminSubmit(s, a.resource, a.revision));
    }
  }

  lemma DecisionStepLeavesSessions(s: State, a: Action)
    requires a.Review? || a.ReviewBatch?
    ensures SameSessions(s, ApplyRevisionStep(s, a))
  {
    if a.ReviewBatch? && DecideAll(s, a.revisions, a.approve).Some? {
      BatchLeavesSessions(s, a.revisions, a.approve);
    }
  }

  lemma SaveLeavesSessions(s: State, a: Action)
    requires a.SaveBundle?
    ensures SameSessions(s, ApplyRevisionStep(s, a))
  {
    if a.resource in s.resources {
      assert SameSessions(s, DoSaveBundle(s, a.resource, SavedId(s, a.saved), a.plan, a.submit, a.number));
    }
  }

  lemma RevisionStepLeavesSessions(s: State, a: Action)
    requires IsRevisionStep(a)
    ensures SameSessions(s, ApplyRevisionStep(s, a))
  {
    if a.AdminCreateDraft? || a.AdminUpdateDraft? || a.AdminDiscardDraft? || a.AdminSubmitDraft? {
      DraftStepLeavesSessions(s, a);
    } else if a.Review? || a.ReviewBatch? {
      DecisionStepLeavesSessions(s, a);
    } else if a.SaveBundle? {
      SaveLeavesSessions(s, a);
    } else if a.Delete? {
      assert a.resource in s.resources ==> SameSessions(s, DoDelete(s, a.resource, a.remoteTargets));
    }
  }

  lemma TakedownLeavesSessions(s: State, owner: Id, r: Id)
    ensures SameSessions(s, ApplyRowStep(s, Takedown(owner, r)))
  {
  }

  lemma RestoreLeavesSessions(s: State, owner: Id, r: Id)
    ensures SameSessions(s, ApplyRowStep(s, Restore(owner, r)))
  {
  }

  lemma AdminModerateLeavesSessions(s: State, r: Id, m: Moderation)
    ensures SameSessions(s, ApplyRowStep(s, AdminModerate(r, m)))
  {
  }

  lemma RowStepLeavesSessions(s: State, a: Action)
    requires IsRowStep(a) && !a.Reopen? && !a.ReopenEnd?
    ensures SameSessions(s, ApplyRowStep(s, a))
  {
    if a.Takedown? { TakedownLeavesSessions(s, a.owner, a.resource); }
    else if a.Restore? { RestoreLeavesSessions(s, a.owner, a.resource); }
    else if a.AdminModerate? { AdminModerateLeavesSessions(s, a.resource, a.moderation); }
  }

  lemma RowStepSessions(s: State, a: Action)
    requires Linked(s) && IsRowStep(a)
    ensures SessionsAsTold(s, a, ApplyRowStep(s, a))
  {
    if a.Reopen? { ReopenSessions(s, a.owner, a.revision, a.publication); }
    else if a.ReopenEnd? { ReopenEndSessions(s, a.resource, a.performed); }
    else {
      RowStepLeavesSessions(s, a);
      SessionsStay(s, a, ApplyRowStep(s, a));
    }
  }

  lemma LinkedSessionsMove(s: State, a: Action)
    requires Linked(s)
    ensures SessionsAsTold(s, a, Apply(s, a))
  {
    if IsRevisionStep(a) {
      RevisionStepLeavesSessions(s, a);
      SessionsStay(s, a, Apply(s, a));
    }
    else if IsRowStep(a) { RowStepSessions(s, a); }
    else if IsExecutorStep(a) { ExecutorStepSessions(s, a); }
    else { PollStepSessions(s, a); }
  }

  /** Exactly these steps start, move or end a session, take a lock or free it. */
  lemma SessionMoves(s: State, a: Action)
    requires Inv(s)
    ensures SessionsAsTold(s, a, Apply(s, a))
  {
    SessionsAreLinked(s);
    LinkedSessionsMove(s, a);
  }
}
