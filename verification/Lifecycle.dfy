/** How single rows live: what no step ever does to a publication or to an
  approved case. */
module Lifecycle {
  import opened Common
  import opened Tables
  import opened Steps
  import opened Invariants
  import opened Preservation
  import opened Submission
  import opened Decision
  import opened Theorems

  /** A reopen request that has passed its checks will write `p`. */
  ghost predicate IsReopening(s: State, p: Id) {
    exists r :: r in s.reopens && s.reopens[r] == p
  }

  /** Published, with no reopen request under way. */
  ghost predicate IsSettled(s: State, p: Id) {
    p in s.publications && s.publications[p].state == Published && !IsReopening(s, p)
  }

  /** One step in the life of publication `p`. */
  ghost predicate Evolves(s: State, t: State, p: Id) {
    && (p in s.publications && p !in t.publications ==>
          s.publications[p].revision in s.cases && s.cases[s.publications[p].revision] != CaseApproved)
    && (p !in s.publications && p in t.publications ==>
          p >= s.next && (t.publications[p].lease.Some? ==> t.publications[p].lease.value.token >= s.next))
    && (p in s.publications && p in t.publications ==> RowEvolves(s.publications[p], t.publications[p], s.next))
    && (IsSettled(s, p) ==> IsSettled(t, p))
  }

  ghost predicate RowEvolves(row: Publication, changed: Publication, next: Id) {
    && changed.revision == row.revision && changed.target == row.target
    && row.attempts <= changed.attempts
    && (changed.lease.Some? ==> changed.lease == row.lease || changed.lease.value.token >= next)
  }

  ghost predicate CaseLasts(s: State, t: State, v: Id) {
    v in s.cases && s.cases[v] == CaseApproved ==> v in t.cases && t.cases[v] == CaseApproved
  }

  ghost predicate AllEvolve(s: State, t: State) {
    && s.next <= t.next
    && (forall p {:trigger Evolves(s, t, p)} :: Evolves(s, t, p))
    && (forall v {:trigger CaseLasts(s, t, v)} :: CaseLasts(s, t, v))
  }

  lemma EvolveTransitive(s: State, t: State, u: State)
    requires AllEvolve(s, t) && AllEvolve(t, u)
    requires forall p :: p in s.publications ==> s.publications[p].revision in s.cases && p < s.next
    ensures AllEvolve(s, u)
  {
    forall v ensures CaseLasts(s, u, v) { assert CaseLasts(s, t, v) && CaseLasts(t, u, v); }
    forall p ensures Evolves(s, u, p) {
      assert Evolves(s, t, p) && Evolves(t, u, p);
      if p in s.publications { assert CaseLasts(s, t, s.publications[p].revision); }
    }
  }

  lemma SaveEvolves(s: State, owner: Id, r: Id, plan: seq<Target>, submit: bool, expected: Option<nat>,
                    saved: Option<Id>, number: nat)
    requires Inv(s) && CanSaveBundle(s, owner, r, plan, expected, saved, number)
    ensures AllEvolve(s, DoSaveBundle(s, r, SavedId(s, saved), plan, submit, number))
  {
    var v := SavedId(s, saved);
    var t := DoSaveBundle(s, r, v, plan, submit, number);
    SavedIdIsFree(s, r, saved);
    forall p ensures Evolves(s, t, p) { SavedRowEvolves(s, r, v, plan, submit, number, p); }
    forall w ensures CaseLasts(s, t, w) { if w in s.revisions { assert RevisionOk(s, w); } }
  }

  lemma SavedRowEvolves(s: State, r: Id, v: Id, plan: seq<Target>, submit: bool, number: nat, p: Id)
    requires Inv(s) && r in s.resources && FreeFor(s, r, v)
    ensures Evolves(s, DoSaveBundle(s, r, v, plan, submit, number), p)
  {
    var t := DoSaveBundle(s, r, v, plan, submit, number);
    if p in s.publications { assert PublicationOk(s, p) && RevisionOk(s, s.publications[p].revision); }
    if p in t.publications { SavedPublicationOk(s, r, v, plan, submit, number, p); }
    assert t.reopens == s.reopens && (IsReopening(t, p) ==> IsReopening(s, p));
  }

  lemma AdminSubmitEvolves(s: State, r: Id, v: Id)
    requires Inv(s) && r in s.resources && IsDraftOf(s, v, r)
    ensures AllEvolve(s, DoAdminSubmit(s, r, v))
  {
    var t := DoAdminSubmit(s, r, v);
    assert RevisionOk(s, v);
    forall p ensures Evolves(s, t, p) {
      if p in t.publications { AdminSubmitPublicationOk(s, r, v, p); }
      if p in s.publications { assert PublicationOk(s, p); }
    }
    forall w ensures CaseLasts(s, t, w) { }
  }

  lemma DecideEvolves(s: State, v: Id, approve: bool)
    requires Inv(s) && CanDecide(s, v)
    ensures AllEvolve(s, DoDecide(s, v, approve))
  {
    var t := DoDecide(s, v, approve);
    forall p ensures Evolves(s, t, p) { if p in s.publications { assert PublicationOk(s, p); } }
    forall w ensures CaseLasts(s, t, w) { }
  }

  lemma {:induction false} BatchEvolves(s: State, vs: seq<Id>, approve: bool)
    requires Inv(s) && DecideAll(s, vs, approve).Some?
    ensures AllEvolve(s, DecideAll(s, vs, approve).value)
    decreases |vs|
  {
    forall p ensures Evolves(s, s, p) { }
    forall w ensures CaseLasts(s, s, w) { }
    if vs == [] {
    } else {
      var t := DoDecide(s, vs[0], approve);
      DecideKeeps(s, vs[0], approve);
      DecideEvolves(s, vs[0], approve);
      BatchEvolves(t, vs[1..], approve);
      forall p | p in s.publications ensures s.publications[p].revision in s.cases && p < s.next {
        assert PublicationOk(s, p);
      }
      EvolveTransitive(s, t, DecideAll(s, vs, approve).value);
    }
  }

  lemma DiscardEvolves(s: State, r: Id, v: Id)
    requires Inv(s) && IsAdminEditable(s, r, v)
    ensures AllEvolve(s, DoAdminDiscardDraft(s, v))
  {
    var t := DoAdminDiscardDraft(s, v);
    assert RevisionOk(s, v);
    forall p ensures Evolves(s, t, p) { if p in s.publications { assert PublicationOk(s, p); } }
    forall w ensures CaseLasts(s, t, w) { }
  }

  lemma DeleteEvolves(s: State, owner: Id, r: Id, remoteTargets: bool)
    requires Inv(s) && CanDelete(s, owner, r)
    ensures AllEvolve(s, DoDelete(s, r, remoteTargets))
  {
    var t := DoDelete(s, r, remoteTargets);
    forall p ensures Evolves(s, t, p) { if p in s.publications { assert PublicationOk(s, p); } }
    forall w ensures CaseLasts(s, t, w) {
      if w in s.cases {
        assert RevisionOk(s, w);
        var p :| IsOronBoxOf(s, p, w);
        assert BelongsTo(s, w, r) ==> IsFor(s, p, r);
      }
    }
  }

  lemma RevisionStepEvolves(s: State, a: Action)
    requires Inv(s) && IsRevisionStep(a)
    ensures AllEvolve(s, ApplyRevisionStep(s, a))
  {
    UntouchedEvolves(s, s);
    match a
    case CreateResource(owner) => UntouchedEvolves(s, DoCreateResource(s, owner));
    case AdminCreateDraft(r, base, plan, expected, n) =>
      if CanAdminCreateDraft(s, r, base, expected, n) { UntouchedEvolves(s, DoAdminCreateDraft(s, r, base, plan, n)); }
    case AdminUpdateDraft(r, v, plan, _) =>
      if r in s.resources && v in s.revisions { UntouchedEvolves(s, DoAdminUpdateDraft(s, r, v, plan)); }
    case Purge(r) => UntouchedEvolves(s, s.(resources := s.resources - {r}));
    case SaveBundle(owner, r, plan, submit, expected, saved, n) =>
      if CanSaveBundle(s, owner, r, plan, expected, saved, n) {
        SaveEvolves(s, owner, r, plan, submit, expected, saved, n);
      }
    case AdminDiscardDraft(r, v) => if IsAdminEditable(s, r, v) { DiscardEvolves(s, r, v); }
    case AdminSubmitDraft(r, v, expected, ready) =>
      if CanAdminSubmit(s, r, v, expected, ready) { AdminSubmitEvolves(s, r, v); }
    case Review(v, approve) => if CanDecide(s, v) { DecideEvolves(s, v, approve); }
    case ReviewBatch(vs, approve) => if DecideAll(s, vs, approve).Some? { BatchEvolves(s, vs, approve); }
    case Delete(owner, r, remoteTargets) => if CanDelete(s, owner, r) { DeleteEvolves(s, owner, r, remoteTargets); }
  }

  lemma UntouchedEvolves(s: State, t: State)
    requires t.publications == s.publications && t.cases == s.cases && t.reopens == s.reopens && s.next <= t.next
    ensures AllEvolve(s, t)
  {
  }

  lemma TakedownEvolves(s: State, r: Id)
    requires r in s.resources
    ensures AllEvolve(s, DoTakedown(s, r))
  {
    forall p ensures Evolves(s, DoTakedown(s, r), p) { }
    forall v ensures CaseLasts(s, DoTakedown(s, r), v) { }
  }

  lemma AdminModerateEvolves(s: State, r: Id, m: Moderation)
    requires r in s.resources && m != Visible
    ensures AllEvolve(s, DoAdminModerate(s, r, m))
  {
    forall p ensures Evolves(s, DoAdminModerate(s, r, m), p) { }
    forall v ensures CaseLasts(s, DoAdminModerate(s, r, m), v) { }
  }

  lemma RequeueFailedEvolves(s: State, selected: set<Id>)
    requires Inv(s)
    ensures AllEvolve(s, DoRequeueFailed(s, selected))
  {
  }

  lemma OneRowEvolves(s: State, t: State, p: Id, row: Publication)
    requires p in s.publications && RowEvolves(s.publications[p], row, s.next)
    requires s.publications[p].state == Published ==> row.state == Published
    requires t.publications == s.publications[p := row] && t.cases == s.cases && t.reopens == s.reopens
             && s.next <= t.next
    ensures AllEvolve(s, t)
  {
  }

  /** Only a row that is not published can be reopened. */
  lemma ReopenEvolves(s: State, owner: Id, v: Id, p: Id)
    requires Inv(s) && CanReopen(s, owner, v, p)
    ensures AllEvolve(s, DoReopen(s, v, p))
  {
    var t := DoReopen(s, v, p);
    forall q | IsSettled(s, q) ensures IsSettled(t, q) {
      forall r | r in t.reopens ensures t.reopens[r] != q { }
    }
    forall q ensures Evolves(s, t, q) { }
  }

  lemma ReopenEndEvolves(s: State, r: Id, performed: bool)
    requires Inv(s) && r in s.reopens
    ensures AllEvolve(s, DoReopenEnd(s, r, performed))
  {
    var t := DoReopenEnd(s, r, performed);
    forall q | IsSettled(s, q) ensures IsSettled(t, q) {
      forall o | o in t.reopens ensures t.reopens[o] != q { assert t.reopens[o] == s.reopens[o]; }
    }
    forall q ensures Evolves(s, t, q) { }
  }

  lemma ManageEvolves(s: State, p: Id)
    requires p in s.publications
    ensures s.publications[p].state in {Failed, Cancelled} ==> AllEvolve(s, DoRequeue(s, p))
    ensures s.publications[p].state in {Pending, Failed, Reviewing} ==> AllEvolve(s, DoCancel(s, p))
  {
    if s.publications[p].state in {Failed, Cancelled} {
      OneRowEvolves(s, DoRequeue(s, p), p, DoRequeue(s, p).publications[p]);
    }
    if s.publications[p].state in {Pending, Failed, Reviewing} {
      OneRowEvolves(s, DoCancel(s, p), p, DoCancel(s, p).publications[p]);
    }
  }

  lemma RowStepEvolves(s: State, a: Action)
    requires Inv(s) && IsRowStep(a)
    ensures AllEvolve(s, ApplyRowStep(s, a))
  {
    UntouchedEvolves(s, s);
    match a
    case Takedown(owner, r) => if CanTakedown(s, owner, r) { TakedownEvolves(s, r); }
    case Restore(owner, r) => if CanRestore(s, owner, r) { UntouchedEvolves(s, DoRestore(s, r)); }
    case AdminModerate(r, m) =>
      if CanAdminModerate(s, r, m) {
        if m == Visible { UntouchedEvolves(s, DoRestore(s, r)); } else { AdminModerateEvolves(s, r, m); }
      }
    case RequeueFailed(selected) => RequeueFailedEvolves(s, selected);
    case Requeue(p, owner) => if CanRequeue(s, p, owner) { ManageEvolves(s, p); }
    case CancelPublication(p) => if CanCancel(s, p) { ManageEvolves(s, p); }
    case Reopen(owner, v, p) => if CanReopen(s, owner, v, p) { ReopenEvolves(s, owner, v, p); }
    case ReopenEnd(r, performed) => if r in s.reopens { ReopenEndEvolves(s, r, performed); }
  }

  lemma ClaimEvolves(s: State, e: Id, p: Id)
    requires CanClaim(s, e, p)
    ensures AllEvolve(s, DoClaim(s, e, p))
  {
    OneRowEvolves(s, DoClaim(s, e, p), p, DoClaim(s, e, p).publications[p]);
  }

  lemma WorkerEvolves(s: State, e: Id)
    ensures InPhase(s, e, Claimed) ==> AllEvolve(s, DoGiveBack(s, e))
    ensures InPhase(s, e, Locked) ==> AllEvolve(s, DoCheckEligible(s, e))
    ensures InPhase(s, e, Calling) ==> AllEvolve(s, DoFail(s, e))
  {
    if InPhase(s, e, Claimed) { WorkerStepEvolves(s, DoGiveBack(s, e), e); }
    if InPhase(s, e, Locked) { WorkerStepEvolves(s, DoCheckEligible(s, e), e); }
    if InPhase(s, e, Calling) { WorkerStepEvolves(s, DoFail(s, e), e); }
  }

  lemma ExecutorStepEvolves(s: State, a: Action)
    requires Inv(s) && IsExecutorStep(a)
    ensures AllEvolve(s, ApplyExecutorStep(s, a))
  {
    UntouchedEvolves(s, s);
    match a
    case Claim(e, p) => if CanClaim(s, e, p) { ClaimEvolves(s, e, p); }
    case GiveBack(e) => if InPhase(s, e, Claimed) { WorkerEvolves(s, e); }
    case Lock(e) => if CanLock(s, e) { UntouchedEvolves(s, DoLock(s, e)); }
    case CheckEligible(e) => if InPhase(s, e, Locked) { WorkerEvolves(s, e); }
    case CheckFails(e) => if InPhase(s, e, Locked) { UntouchedEvolves(s, s.(executors := AtPhase(s, e, Refused))); }
    case Finish(e, pullRequest) => if CanFinish(s, e) { FinishEvolves(s, e, pullRequest); }
    case Fail(e) => if InPhase(s, e, Calling) { WorkerEvolves(s, e); }
    case Unlock(e) => UntouchedEvolves(s, DoLeave(s, e));
    case Crash(e) => UntouchedEvolves(s, DoLeave(s, e));
  }

  /** The step writes no row but that of executor `e`. */
  lemma WorkerStepEvolves(s: State, t: State, e: Id)
    requires t.publications == s.publications
             || (e in s.executors && s.executors[e].publication in s.publications
                 && s.executors[e].publication in t.publications
                 && var p := s.executors[e].publication;
                 && t.publications == s.publications[p := t.publications[p]]
                 && RowEvolves(s.publications[p], t.publications[p], s.next)
                 && (s.publications[p].state == Published ==> t.publications[p].state == Published))
    requires t.cases == s.cases && t.reopens == s.reopens && s.next <= t.next
    ensures AllEvolve(s, t)
  {
  }

  lemma FinishEvolves(s: State, e: Id, pullRequest: nat)
    requires Inv(s) && CanFinish(s, e)
    ensures AllEvolve(s, DoFinish(s, e, pullRequest))
  {
    assert ExecutorOk(s, e);
  }

  lemma PollStepEvolves(s: State, a: Action)
    requires Inv(s) && IsPollStep(a)
    ensures AllEvolve(s, ApplyPollStep(s, a))
  {
    UntouchedEvolves(s, s);
    match a
    case PollClaim(q, p) =>
      if CanPoll(s, q, p) { OneRowEvolves(s, DoPollClaim(s, q, p), p, DoPollClaim(s, q, p).publications[p]); }
    case PollRetire(q) =>
      if CanRetire(s, q) {
        var p := s.pollers[q].publication;
        OneRowEvolves(s, DoPollRetire(s, q), p, DoPollRetire(s, q).publications[p]);
      }
    case PollResult(q, answer) => if q in s.pollers { PolledEvolves(s, q, answer); }
    case PollCrash(q) => UntouchedEvolves(s, s.(pollers := s.pollers - {q}));
    case Tick(seconds) => UntouchedEvolves(s, s.(now := s.now + seconds));
  }

  lemma PolledEvolves(s: State, q: Id, answer: Answer)
    requires q in s.pollers
    ensures AllEvolve(s, DoPollResult(s, q, answer))
  {
    var t, p := DoPollResult(s, q, answer), s.pollers[q].publication;
    if HoldsLease(s, q) { OneRowEvolves(s, t, p, t.publications[p]); } else { UntouchedEvolves(s, t); }
  }

  lemma StepEvolves(s: State, a: Action)
    requires Inv(s)
    ensures AllEvolve(s, Apply(s, a))
  {
    if IsRevisionStep(a) { RevisionStepEvolves(s, a); }
    else if IsRowStep(a) { RowStepEvolves(s, a); }
    else if IsExecutorStep(a) { ExecutorStepEvolves(s, a); }
    else { PollStepEvolves(s, a); }
  }
}
