/** Review decisions, deletion and the remaining steps keep the invariant. */
module Decision {
  import opened Common
  import opened Tables
  import opened Steps
  import opened Invariants
  import opened Preservation
  import opened Submission

  lemma DecidedRevisionOk(s: State, v: Id, approve: bool, w: Id)
    requires Core(s) && CanDecide(s, v) && w in s.revisions
    ensures w in DoDecide(s, v, approve).revisions && RevisionOk(DoDecide(s, v, approve), w)
  {
    var t, rows := DoDecide(s, v, approve), DecidedPublications(s, v, approve);
    assert RevisionOk(s, v) && RevisionOk(s, w);
    assert ResourceOk(s, s.revisions[v].resource);
    if w in s.cases {
      var p :| IsOronBoxOf(s, p, w);
      assert rows[p] == s.publications[p].(state := rows[p].state);
      assert IsOronBoxOf(t, p, w);
    }
  }

  lemma DecidedRowOk(s: State, v: Id, approve: bool, p: Id)
    requires Core(s) && CanDecide(s, v) && p in s.publications
    ensures var row, c := DecidedPublications(s, v, approve)[p],
                          s.cases[v := if approve then CaseApproved else CaseRejected];
            && row == s.publications[p].(state := row.state)
            && row.revision in s.revisions && row.revision in c && RowOk(row, c[row.revision], s.next) && p < s.next
  {
    assert PublicationOk(s, p);
  }

  lemma DecideKeepsCore(s: State, v: Id, approve: bool)
    requires Core(s) && CanDecide(s, v)
    ensures Core(DoDecide(s, v, approve))
  {
    var t := DoDecide(s, v, approve);
    assert RevisionOk(s, v);
    forall w | w in t.revisions ensures RevisionOk(t, w) { DecidedRevisionOk(s, v, approve, w); }
    forall q | q in t.resources ensures ResourceOk(t, q) { assert ResourceOk(s, q); }
    forall w, x | w in t.revisions && x in t.revisions ensures RevisionPairOk(t, w, x) {
      assert RevisionPairOk(s, w, x);
    }
    forall p | p in t.publications ensures PublicationOk(t, p) { DecidedRowOk(s, v, approve, p); }
    forall p, q | p in t.publications && q in t.publications ensures PublicationPairOk(t, p, q) {
      assert PublicationPairOk(s, p, q);
      DecidedRowOk(s, v, approve, p);
      DecidedRowOk(s, v, approve, q);
    }
  }

  lemma DecideSpares(s: State, v: Id, approve: bool, e: Id)
    requires Inv(s) && CanDecide(s, v) && e in s.executors
    ensures Spares(s, DoDecide(s, v, approve), s.executors[e])
  {
    var x := s.executors[e];
    assert ExecutorOk(s, e) && RevisionOk(s, x.revision) && RevisionOk(s, v);
    assert ResourceOk(s, s.revisions[v].resource);
    DecidedRowOk(s, v, approve, x.publication);
  }

  lemma DecideKeeps(s: State, v: Id, approve: bool)
    requires Inv(s) && CanDecide(s, v)
    ensures Inv(DoDecide(s, v, approve))
  {
    DecideKeepsCore(s, v, approve);
    forall e | e in s.executors ensures Spares(s, DoDecide(s, v, approve), s.executors[e]) {
      DecideSpares(s, v, approve, e);
    }
    forall r | r in s.reopens ensures SparesReopen(s, DoDecide(s, v, approve), r) {
      assert ReopenOk(s, r);
      DecidedRowOk(s, v, approve, s.reopens[r]);
    }
    SessionsKept(s, DoDecide(s, v, approve));
  }

  lemma {:induction false} DecideAllKeeps(s: State, vs: seq<Id>, approve: bool)
    requires Inv(s)
    ensures DecideAll(s, vs, approve).Some? ==> Inv(DecideAll(s, vs, approve).value)
    decreases |vs|
  {
    if vs != [] && CanDecide(s, vs[0]) {
      DecideKeeps(s, vs[0], approve);
      DecideAllKeeps(DoDecide(s, vs[0], approve), vs[1..], approve);
    }
  }

  // ---------------------------------------------------------------- deletion

  lemma HideKeeps(s: State, owner: Id, r: Id, remoteTargets: bool)
    requires Inv(s) && CanDelete(s, owner, r)
    requires HasHistory(s, r) || remoteTargets
    ensures Inv(DoDelete(s, r, remoteTargets))
  {
    var t := DoDelete(s, r, remoteTargets);
    forall p | p in s.publications ensures QuietRow(s, t, p) { assert PublicationOk(s, p); }
    forall q | q in s.resources ensures QuietResource(s, t, q) { }
    QuietKeeps(s, t);
  }

  lemma EraseKeepsCore(s: State, r: Id)
    requires Core(s) && r in s.resources && !HasHistory(s, r)
    ensures Core(DoDelete(s, r, false))
  {
    var t := DoDelete(s, r, false);
    forall w | w in t.revisions ensures RevisionOk(t, w) {
      assert RevisionOk(s, w);
      if w in s.cases { var p :| IsOronBoxOf(s, p, w); assert IsOronBoxOf(t, p, w); }
    }
    forall q | q in t.resources ensures ResourceOk(t, q) { assert ResourceOk(s, q); }
    forall w, x | w in t.revisions && x in t.revisions ensures RevisionPairOk(t, w, x) {
      assert RevisionPairOk(s, w, x);
    }
    forall p | p in t.publications ensures PublicationOk(t, p) { assert PublicationOk(s, p) && !IsFor(s, p, r); }
    forall p, q | p in t.publications && q in t.publications ensures PublicationPairOk(t, p, q) {
      assert PublicationPairOk(s, p, q);
    }
  }

  lemma EraseKeeps(s: State, r: Id)
    requires Inv(s) && r in s.resources && !HasHistory(s, r)
    ensures Inv(DoDelete(s, r, false))
  {
    EraseKeepsCore(s, r);
    forall e | e in s.executors ensures Spares(s, DoDelete(s, r, false), s.executors[e]) {
      assert ExecutorOk(s, e) && !IsFor(s, s.executors[e].publication, r);
    }
    forall q | q in s.reopens ensures SparesReopen(s, DoDelete(s, r, false), q) {
      assert ReopenOk(s, q) && !IsFor(s, s.reopens[q], r);
    }
    SessionsKept(s, DoDelete(s, r, false));
  }

  // --------------------------------------------------- creation and clean-up

  lemma CreateResourceKeeps(s: State, owner: Id)
    requires Inv(s)
    ensures Inv(DoCreateResource(s, owner))
  {
    var t := DoCreateResource(s, owner);
    forall q | q in s.resources ensures q < s.next && ResourceOk(t, q) { assert ResourceOk(s, q); }
    forall w | w in t.revisions ensures RevisionOk(t, w) {
      assert RevisionOk(s, w);
      if w in s.cases { var p :| IsOronBoxOf(s, p, w); assert IsOronBoxOf(t, p, w); }
    }
    forall w, x | w in t.revisions && x in t.revisions ensures RevisionPairOk(t, w, x) {
      assert RevisionPairOk(s, w, x);
    }
    forall p | p in t.publications ensures PublicationOk(t, p) { assert PublicationOk(s, p); }
    forall p, q | p in t.publications && q in t.publications ensures PublicationPairOk(t, p, q) {
      assert PublicationPairOk(s, p, q);
    }
    forall e | e in s.executors ensures Spares(s, t, s.executors[e]) { assert ExecutorOk(s, e); }
    forall q | q in s.reopens ensures SparesReopen(s, t, q) {
      assert ReopenOk(s, q) && PublicationOk(s, s.reopens[q]) && RevisionOk(s, s.publications[s.reopens[q]].revision);
    }
    SessionsKept(s, t);
  }

  lemma PurgeKeeps(s: State, r: Id)
    requires Inv(s) && CanPurge(s, r)
    ensures Inv(s.(resources := s.resources - {r}))
  {
    var t := s.(resources := s.resources - {r});
    forall q | q in t.resources ensures ResourceOk(t, q) { assert ResourceOk(s, q); }
    forall w | w in t.revisions ensures RevisionOk(t, w) {
      assert RevisionOk(s, w) && !BelongsTo(s, w, r);
      if w in s.cases { var p :| IsOronBoxOf(s, p, w); assert IsOronBoxOf(t, p, w); }
    }
    forall w, x | w in t.revisions && x in t.revisions ensures RevisionPairOk(t, w, x) {
      assert RevisionPairOk(s, w, x);
    }
    forall p | p in t.publications ensures PublicationOk(t, p) { assert PublicationOk(s, p); }
    forall p, q | p in t.publications && q in t.publications ensures PublicationPairOk(t, p, q) {
      assert PublicationPairOk(s, p, q);
    }
    forall e | e in s.executors ensures Spares(s, t, s.executors[e]) {
      assert ExecutorOk(s, e) && !BelongsTo(s, s.executors[e].revision, r);
    }
    forall q | q in s.reopens ensures SparesReopen(s, t, q) {
      assert ReopenOk(s, q) && PublicationOk(s, s.reopens[q]) && RevisionOk(s, s.publications[s.reopens[q]].revision);
    }
    SessionsKept(s, t);
  }

  // --------------------------------------------------------------- every step

  lemma RevisionStepKeeps(s: State, a: Action)
    requires Inv(s) && IsRevisionStep(a)
    ensures Inv(ApplyRevisionStep(s, a))
  {
    match a
    case CreateResource(owner) => CreateResourceKeeps(s, owner);
    case SaveBundle(owner, r, plan, submit, expected, saved, n) =>
      if CanSaveBundle(s, owner, r, plan, expected, saved, n) {
        SaveBundleKeeps(s, owner, r, plan, submit, expected, saved, n);
      }
    case AdminCreateDraft(r, base, plan, expected, n) =>
      if CanAdminCreateDraft(s, r, base, expected, n) { AdminCreateDraftKeeps(s, r, base, plan, expected, n); }
    case AdminUpdateDraft(r, v, plan, expected) =>
      if r in s.resources && v in s.revisions { AdminUpdateDraftKeeps(s, r, v, plan); }
    case AdminDiscardDraft(r, v) => if IsAdminEditable(s, r, v) { AdminDiscardDraftKeeps(s, r, v); }
    case AdminSubmitDraft(r, v, expected, ready) =>
      if CanAdminSubmit(s, r, v, expected, ready) { AdminSubmitKeeps(s, r, v, expected); }
    case Review(v, approve) => if CanDecide(s, v) { DecideKeeps(s, v, approve); }
    case ReviewBatch(vs, approve) => DecideAllKeeps(s, vs, approve);
    case Purge(r) => if CanPurge(s, r) { PurgeKeeps(s, r); }
    case Delete(owner, r, remoteTargets) =>
      if CanDelete(s, owner, r) {
        if HasHistory(s, r) || remoteTargets { HideKeeps(s, owner, r, remoteTargets); } else { EraseKeeps(s, r); }
      }
  }

  lemma PollStepKeeps(s: State, a: Action)
    requires Inv(s) && IsPollStep(a)
    ensures Inv(ApplyPollStep(s, a))
  {
    match a
    case PollClaim(q, p) => if CanPoll(s, q, p) { PollClaimKeeps(s, q, p); }
    case PollRetire(q) => if CanRetire(s, q) { PollRetireKeeps(s, q); }
    case PollResult(q, answer) => if q in s.pollers { PollResultKeeps(s, q, answer); }
    case PollCrash(q) => PollCrashKeeps(s, q);
    case Tick(seconds) => TickKeeps(s, seconds);
  }

  lemma RowStepKeeps(s: State, a: Action)
    requires Inv(s) && IsRowStep(a)
    ensures Inv(ApplyRowStep(s, a))
  {
    match a
    case Takedown(owner, r) => if CanTakedown(s, owner, r) { TakedownKeeps(s, owner, r); }
    case Restore(owner, r) => if CanRestore(s, owner, r) { RestoreKeeps(s, r); }
    case AdminModerate(r, m) => if CanAdminModerate(s, r, m) { AdminModerateKeeps(s, r, m); }
    case Requeue(p, owner) => if CanRequeue(s, p, owner) { RequeueKeeps(s, p, owner); }
    case CancelPublication(p) => if CanCancel(s, p) { CancelKeeps(s, p); }
    case RequeueFailed(selected) => RequeueFailedKeeps(s, selected);
    case Reopen(owner, v, p) => if CanReopen(s, owner, v, p) { ReopenKeeps(s, owner, v, p); }
    case ReopenEnd(r, performed) => if r in s.reopens { ReopenEndKeeps(s, r, performed); }
  }

  lemma ExecutorActionKeeps(s: State, a: Action)
    requires Inv(s) && IsExecutorStep(a)
    ensures Inv(ApplyExecutorStep(s, a))
  {
    match a
    case Claim(e, p) => if CanClaim(s, e, p) { ClaimKeeps(s, e, p); }
    case GiveBack(e) => if InPhase(s, e, Claimed) { GiveBackKeeps(s, e); }
    case Lock(e) => if CanLock(s, e) { LockKeeps(s, e); }
    case CheckEligible(e) => if InPhase(s, e, Locked) { CheckEligibleKeeps(s, e); }
    case CheckFails(e) => if InPhase(s, e, Locked) { CheckFailsKeeps(s, e); }
    case Finish(e, pullRequest) => if CanFinish(s, e) { FinishKeeps(s, e, pullRequest); }
    case Fail(e) => if InPhase(s, e, Calling) { FailKeeps(s, e); }
    case Unlock(e) => LeaveKeeps(s, e);
    case Crash(e) => LeaveKeeps(s, e);
  }

  lemma StepKeeps(s: State, a: Action)
    requires Inv(s)
    ensures Inv(Apply(s, a))
  {
    if IsRevisionStep(a) { RevisionStepKeeps(s, a); }
    else if IsRowStep(a) { RowStepKeeps(s, a); }
    else if IsExecutorStep(a) { ExecutorActionKeeps(s, a); }
    else { PollStepKeeps(s, a); }
  }

  lemma {:induction false} RunKeeps(s: State, actions: seq<Action>)
    requires Inv(s)
    ensures Inv(Run(s, actions))
    decreases |actions|
  {
    if actions == [] {
    } else {
      RunKeeps(s, actions[..|actions| - 1]);
      StepKeeps(Run(s, actions[..|actions| - 1]), actions[|actions| - 1]);
    }
  }

  lemma InitialOk()
    ensures Inv(INITIAL)
  {
  }
}
