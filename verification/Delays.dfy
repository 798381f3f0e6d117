/** How long a failed publication waits, and when a later wait is shorter than
  an earlier one. */
module Delays {
  import opened Common
  import opened Tables
  import opened Steps
  import opened Invariants
  import opened Decision
  import opened Theorems
  import opened Submission

  lemma {:induction false} Pow2Grows(m: nat, n: nat)
    requires m <= n
    ensures 1 <= Pow2(m) <= Pow2(n)
    decreases n
  {
    if m < n { Pow2Grows(m, n - 1); }
    else if n > 0 { Pow2Grows(n - 1, n - 1); }
  }

  /** The wait after a failed attempt lies between half a minute and an hour and
    does not shrink with the attempt number; it doubles up to four minutes for the
    attempts that are made again. */
  lemma DelayBounds(m: nat, n: nat)
    requires 1 <= m <= n
    ensures 30 <= RetryDelay(m) <= RetryDelay(n) <= 3600
    ensures m <= 4 ==> RetryDelay(m) == [30, 60, 120, 240][m - 1]
    ensures m >= 8 ==> RetryDelay(m) == 3600
  {
    assert Pow2(1) == 2 && Pow2(2) == 4 && Pow2(3) == 8 && Pow2(4) == 16;
    if m >= 8 {
      Pow2Grows(8, m);
      assert Pow2(8) == 256;
    }
    Pow2Grows(1, m);
    Pow2Grows(m, n);
  }

  lemma DelayDoubles(m: nat, n: nat)
    requires 1 <= m < MAX_ATTEMPTS && 1 <= n < MAX_ATTEMPTS && m != n
    ensures RetryDelay(m) < RetryDelay(n) <==> m < n
  {
    assert Pow2(1) == 2 && Pow2(2) == 4 && Pow2(3) == 8 && Pow2(4) == 16;
  }

  // ------------------------------------------------- histories through a step

  /** The rows of `t` have the histories and attempt counts that they have in
    `s`, and new rows have none. */
  ghost predicate HistoriesKept(s: State, t: State) {
    && t.executors == s.executors
    && forall p {:trigger SameHistory(s, t, p)} :: p in t.publications ==> SameHistory(s, t, p)
  }

  ghost predicate SameHistory(s: State, t: State, p: Id)
    requires p in t.publications
  {
    if p in s.publications then t.publications[p].history == s.publications[p].history
                                && t.publications[p].attempts == s.publications[p].attempts
    else t.publications[p].history == []
  }

  lemma SaveKeepsHistory(s: State, r: Id, v: Id, plan: seq<Target>, submit: bool, number: nat, p: Id)
    requires Inv(s) && r in s.resources && p in DoSaveBundle(s, r, v, plan, submit, number).publications
    ensures SameHistory(s, DoSaveBundle(s, r, v, plan, submit, number), p)
  {
    if p in s.publications { assert PublicationOk(s, p); }
  }

  lemma SaveKeepsHistories(s: State, r: Id, v: Id, plan: seq<Target>, submit: bool, number: nat)
    requires Inv(s) && r in s.resources
    ensures HistoriesKept(s, DoSaveBundle(s, r, v, plan, submit, number))
  {
    var t := DoSaveBundle(s, r, v, plan, submit, number);
    forall p | p in t.publications ensures SameHistory(s, t, p) { SaveKeepsHistory(s, r, v, plan, submit, number, p); }
  }

  lemma AdminSubmitKeepsHistories(s: State, r: Id, v: Id)
    requires Inv(s) && r in s.resources && v in s.revisions
    ensures HistoriesKept(s, DoAdminSubmit(s, r, v))
  {
    forall p | p in s.publications ensures p < s.next { assert PublicationOk(s, p); }
  }

  lemma {:induction false} BatchKeepsHistories(s: State, vs: seq<Id>, approve: bool)
    requires DecideAll(s, vs, approve).Some?
    ensures HistoriesKept(s, DecideAll(s, vs, approve).value)
            && DecideAll(s, vs, approve).value.publications.Keys == s.publications.Keys
    decreases |vs|
  {
    if vs == [] {
    } else {
      var t := DoDecide(s, vs[0], approve);
      var u := DecideAll(s, vs, approve).value;
      BatchKeepsHistories(t, vs[1..], approve);
      forall p | p in u.publications ensures SameHistory(s, u, p) { assert SameHistory(t, u, p); }
    }
  }

  /** Rows may go, the others keep their histories. */
  lemma OtherRowsKeepHistories(s: State, t: State)
    requires t.executors == s.executors
    requires forall p :: p in t.publications ==> p in s.publications && SameHistory(s, t, p)
    ensures HistoriesKept(s, t)
  {
  }

  lemma DecideKeepsHistories(s: State, v: Id, approve: bool)
    requires CanDecide(s, v)
    ensures HistoriesKept(s, DoDecide(s, v, approve))
  {
  }

  lemma RemovalKeepsHistories(s: State, r: Id, v: Id, remoteTargets: bool)
    ensures r in s.resources ==> HistoriesKept(s, DoDelete(s, r, remoteTargets))
    ensures HistoriesKept(s, DoAdminDiscardDraft(s, v))
  {
  }

  lemma UntouchedHistories(s: State, t: State)
    requires t.executors == s.executors && t.publications == s.publications
    ensures HistoriesKept(s, t)
  {
  }

  lemma RevisionStepKeepsHistories(s: State, a: Action)
    requires Inv(s) && IsRevisionStep(a)
    ensures HistoriesKept(s, ApplyRevisionStep(s, a))
  {
    UntouchedHistories(s, s);
    match a
    case CreateResource(owner) => UntouchedHistories(s, DoCreateResource(s, owner));
    case AdminCreateDraft(r, base, plan, expected, n) =>
      if CanAdminCreateDraft(s, r, base, expected, n) {
        UntouchedHistories(s, DoAdminCreateDraft(s, r, base, plan, n));
      }
    case AdminUpdateDraft(r, v, plan, _) =>
      if r in s.resources && v in s.revisions { UntouchedHistories(s, DoAdminUpdateDraft(s, r, v, plan)); }
    case AdminDiscardDraft(r, v) => RemovalKeepsHistories(s, 0, v, true);
    case Purge(r) => UntouchedHistories(s, s.(resources := s.resources - {r}));
    case SaveBundle(owner, r, plan, submit, expected, saved, n) =>
      if CanSaveBundle(s, owner, r, plan, expected, saved, n) {
        SaveKeepsHistories(s, r, SavedId(s, saved), plan, submit, n);
      }
    case AdminSubmitDraft(r, v, expected, ready) =>
      if CanAdminSubmit(s, r, v, expected, ready) { AdminSubmitKeepsHistories(s, r, v); }
    case Review(v, approve) => if CanDecide(s, v) { DecideKeepsHistories(s, v, approve); }
    case ReviewBatch(vs, approve) => if DecideAll(s, vs, approve).Some? { BatchKeepsHistories(s, vs, approve); }
    case Delete(owner, r, remoteTargets) => if CanDelete(s, owner, r) { RemovalKeepsHistories(s, r, 0, remoteTargets); }
  }

  lemma ModerationKeepsHistories(s: State, r: Id, m: Moderation)
    requires r in s.resources
    ensures HistoriesKept(s, DoTakedown(s, r)) && HistoriesKept(s, DoRestore(s, r))
            && HistoriesKept(s, DoAdminModerate(s, r, m))
  {
    OtherRowsKeepHistories(s, DoTakedown(s, r));
    OtherRowsKeepHistories(s, DoRestore(s, r));
    OtherRowsKeepHistories(s, DoAdminModerate(s, r, m));
  }

  lemma RowStepKeepsHistories(s: State, a: Action)
    requires IsRowStep(a)
    ensures HistoriesKept(s, ApplyRowStep(s, a))
  {
    OtherRowsKeepHistories(s, s);
    match a
    case Takedown(owner, r) => if CanTakedown(s, owner, r) { ModerationKeepsHistories(s, r, Visible); }
    case Restore(owner, r) => if CanRestore(s, owner, r) { ModerationKeepsHistories(s, r, Visible); }
    case AdminModerate(r, m) => if CanAdminModerate(s, r, m) { ModerationKeepsHistories(s, r, m); }
    case RequeueFailed(selected) => OtherRowsKeepHistories(s, DoRequeueFailed(s, selected));
    case Requeue(p, owner) => if p in s.publications { OtherRowsKeepHistories(s, DoRequeue(s, p)); }
    case CancelPublication(p) => if p in s.publications { OtherRowsKeepHistories(s, DoCancel(s, p)); }
    case Reopen(owner, v, p) => if v in s.revisions { OtherRowsKeepHistories(s, DoReopen(s, v, p)); }
    case ReopenEnd(r, performed) => if r in s.reopens { OtherRowsKeepHistories(s, DoReopenEnd(s, r, performed)); }
  }

  lemma PollStepKeepsHistories(s: State, a: Action)
    requires IsPollStep(a)
    ensures HistoriesKept(s, ApplyPollStep(s, a))
  {
  }

  lemma OtherStepsKeepHistories(s: State, a: Action)
    requires Inv(s) && !IsExecutorStep(a)
    ensures HistoriesKept(s, Apply(s, a))
  {
    if IsRevisionStep(a) { RevisionStepKeepsHistories(s, a); }
    else if IsRowStep(a) { RowStepKeepsHistories(s, a); }
    else { PollStepKeepsHistories(s, a); }
  }

  // ----------------------------------------------------------- recorded delays

  /** Every recorded delay is the one computed from the attempt number. */
  ghost predicate DelaysRecorded(history: seq<Entry>) {
    forall i :: 0 <= i < |history| && history[i].Retry? ==>
                  1 <= history[i].attempt < MAX_ATTEMPTS && history[i].delay == RetryDelay(history[i].attempt)
  }

  /** Each recorded delay is longer than those recorded before it. */
  ghost predicate DelaysGrow(history: seq<Entry>) {
    forall i, j :: 0 <= i < j < |history| && history[i].Retry? && history[j].Retry? ==>
                     history[i].delay < history[j].delay
  }

  lemma {:induction false} RetriesHold(history: seq<Entry>, i: nat)
    requires i < |history| && history[i].Retry?
    ensures history[i].attempt in Retries(history)
    decreases |history|
  {
    var n := |history| - 1;
    if i == n {
      var rest := Retries(history[..n]);
      assert (rest + [history[n].attempt])[|rest|] == history[n].attempt;
    } else {
      RetriesHold(history[..n], i);
      assert history[..n][i] == history[i];
    }
  }

  ghost predicate AllRecorded(s: State) {
    forall p :: p in s.publications ==> DelaysRecorded(s.publications[p].history)
  }

  lemma FailRecords(s: State, e: Id)
    requires Inv(s) && AllRecorded(s) && InPhase(s, e, Calling)
    ensures AllRecorded(DoFail(s, e))
  {
    assert ExecutorOk(s, e);
  }

  lemma ClaimRecords(s: State, e: Id, p: Id)
    requires AllRecorded(s)
    ensures CanClaim(s, e, p) ==> AllRecorded(DoClaim(s, e, p))
    ensures InPhase(s, e, Claimed) ==> AllRecorded(DoGiveBack(s, e))
  {
  }

  lemma CheckRecords(s: State, e: Id, pullRequest: nat)
    requires AllRecorded(s)
    ensures InPhase(s, e, Locked) ==> AllRecorded(DoCheckEligible(s, e))
    ensures CanFinish(s, e) ==> AllRecorded(DoFinish(s, e, pullRequest))
  {
  }

  lemma ExecutorStepRecords(s: State, a: Action)
    requires Inv(s) && AllRecorded(s) && IsExecutorStep(a)
    ensures AllRecorded(ApplyExecutorStep(s, a))
  {
    match a
    case Claim(e, p) => ClaimRecords(s, e, p);
    case GiveBack(e) => ClaimRecords(s, e, 0);
    case CheckEligible(e) => CheckRecords(s, e, 0);
    case Finish(e, pullRequest) => CheckRecords(s, e, pullRequest);
    case Fail(e) => if InPhase(s, e, Calling) { FailRecords(s, e); }
    case _ =>
  }

  lemma StepRecords(s: State, a: Action)
    requires Inv(s) && AllRecorded(s)
    ensures AllRecorded(Apply(s, a))
  {
    if IsExecutorStep(a) {
      ExecutorStepRecords(s, a);
    } else {
      OtherStepsKeepHistories(s, a);
      forall p | p in Apply(s, a).publications ensures DelaysRecorded(Apply(s, a).publications[p].history) {
        assert SameHistory(s, Apply(s, a), p);
      }
    }
  }

  lemma {:induction false} RunRecords(actions: seq<Action>)
    ensures AllRecorded(Reach(actions))
    decreases |actions|
  {
    if actions == [] {
    } else {
      RunRecords(actions[..|actions| - 1]);
      ReachOk(actions[..|actions| - 1]);
      StepRecords(Reach(actions[..|actions| - 1]), actions[|actions| - 1]);
    }
  }

  // ------------------------------------------------------- shrinking delays

  /** Nothing orders the failures of a requeued publication by attempt number. The
    delay that an executor's failure records is shorter than one recorded before
    exactly when a later attempt was rescheduled before it. */
  lemma DelayShrinksIff(actions: seq<Action>, e: Id)
    requires var s := Reach(actions);
             && InPhase(s, e, Calling) && s.executors[e].attempt < MAX_ATTEMPTS
             && s.publications[s.executors[e].publication].state == Running
    ensures var s := Reach(actions);
            var p := s.executors[e].publication;
            var history := s.publications[p].history;
            DelaysGrow(history) ==>
              (!DelaysGrow(Apply(s, Fail(e)).publications[p].history)
               <==> exists i :: 0 <= i < |history| && history[i].Retry? && s.executors[e].attempt < history[i].attempt)
  {
    var s := Reach(actions);
    var x := s.executors[e];
    var history := s.publications[x.publication].history;
    ReachOk(actions);
    RunRecords(actions);
    assert ExecutorOk(s, e) && PublicationOk(s, x.publication);
    var n := |history|;
    var longer := history + [Retry(x.attempt, RetryDelay(x.attempt))];
    assert ApplyExecutorStep(s, Fail(e)).publications[x.publication].history == longer;
    assert Apply(s, Fail(e)) == ApplyExecutorStep(s, Fail(e));
    forall i | 0 <= i < n && history[i].Retry?
      ensures longer[i] == history[i] && history[i].attempt != x.attempt
              && (longer[i].delay < longer[n].delay <==> history[i].attempt < x.attempt)
    {
      RetriesHold(history, i);
      DelayDoubles(history[i].attempt, x.attempt);
    }
    assert DelaysGrow(history) ==>
        (DelaysGrow(longer) <==> forall i :: 0 <= i < n && history[i].Retry? ==> longer[i].delay < longer[n].delay);
  }

  // ------------------------------------------------ one coordinator process

  /** At most one executor is alive, and it runs the latest attempt. */
  ghost predicate OneExecutor(s: State) {
    && (forall e, f :: e in s.executors && f in s.executors ==> e == f)
    && (forall e :: e in s.executors && s.executors[e].publication in s.publications ==>
                      s.executors[e].attempt == s.publications[s.executors[e].publication].attempts)
  }

  ghost predicate AllGrow(s: State) {
    forall p :: p in s.publications ==> DelaysGrow(s.publications[p].history)
  }

  lemma FailGrows(s: State, e: Id)
    requires Inv(s) && AllRecorded(s) && OneExecutor(s) && AllGrow(s) && InPhase(s, e, Calling)
    ensures AllGrow(DoFail(s, e))
  {
    var x := s.executors[e];
    var history := s.publications[x.publication].history;
    assert ExecutorOk(s, e) && PublicationOk(s, x.publication);
    if x.attempt < MAX_ATTEMPTS {
      forall i | 0 <= i < |history| && history[i].Retry? ensures history[i].delay < RetryDelay(x.attempt) {
        RetriesHold(history, i);
        var k :| 0 <= k < |Retries(history)| && Retries(history)[k] == history[i].attempt;
        DelayDoubles(history[i].attempt, x.attempt);
      }
    }
  }

  lemma ClaimInOrder(s: State, e: Id, p: Id)
    requires AllGrow(s) && CanClaim(s, e, p) && s.executors == map[]
    ensures OneExecutor(DoClaim(s, e, p)) && AllGrow(DoClaim(s, e, p))
  {
  }

  lemma FinishInOrder(s: State, e: Id, pullRequest: nat)
    requires OneExecutor(s) && AllGrow(s) && CanFinish(s, e)
    ensures OneExecutor(DoFinish(s, e, pullRequest)) && AllGrow(DoFinish(s, e, pullRequest))
  {
  }

  lemma FailInOrder(s: State, e: Id)
    requires Inv(s) && AllRecorded(s) && OneExecutor(s) && AllGrow(s) && InPhase(s, e, Calling)
    ensures OneExecutor(DoFail(s, e)) && AllGrow(DoFail(s, e))
  {
    FailGrows(s, e);
  }

  lemma GiveBackInOrder(s: State, e: Id)
    requires OneExecutor(s) && AllGrow(s) && InPhase(s, e, Claimed)
    ensures OneExecutor(DoGiveBack(s, e)) && AllGrow(DoGiveBack(s, e))
  {
  }

  lemma PhasesInOrder(s: State, e: Id, phase: Phase)
    requires OneExecutor(s) && AllGrow(s)
    ensures OneExecutor(DoLeave(s, e)) && AllGrow(DoLeave(s, e))
    ensures e in s.executors ==>
              OneExecutor(s.(executors := AtPhase(s, e, phase))) && AllGrow(s.(executors := AtPhase(s, e, phase)))
  {
  }

  lemma LockInOrder(s: State, e: Id)
    requires OneExecutor(s) && AllGrow(s)
    ensures CanLock(s, e) ==> OneExecutor(DoLock(s, e)) && AllGrow(DoLock(s, e))
    ensures InPhase(s, e, Locked) ==> OneExecutor(DoCheckEligible(s, e)) && AllGrow(DoCheckEligible(s, e))
  {
  }

  lemma ExecutorStepInOrder(s: State, a: Action)
    requires Inv(s) && AllRecorded(s) && OneExecutor(s) && AllGrow(s) && IsExecutorStep(a)
    requires a.Claim? ==> s.executors == map[]
    ensures OneExecutor(ApplyExecutorStep(s, a)) && AllGrow(ApplyExecutorStep(s, a))
  {
    match a
    case Claim(e, p) => if CanClaim(s, e, p) { ClaimInOrder(s, e, p); }
    case GiveBack(e) => if InPhase(s, e, Claimed) { GiveBackInOrder(s, e); }
    case Lock(e) => if CanLock(s, e) { LockInOrder(s, e); }
    case CheckEligible(e) => if InPhase(s, e, Locked) { LockInOrder(s, e); }
    case CheckFails(e) => if InPhase(s, e, Locked) { PhasesInOrder(s, e, Refused); }
    case Finish(e, pullRequest) => if CanFinish(s, e) { FinishInOrder(s, e, pullRequest); }
    case Fail(e) => if InPhase(s, e, Calling) { FailInOrder(s, e); }
    case Unlock(e) => PhasesInOrder(s, e, Refused);
    case Crash(e) => PhasesInOrder(s, e, Refused);
  }

  /** No other step changes an executor or a history. */
  lemma KeptInOrder(s: State, t: State)
    requires Inv(s) && OneExecutor(s) && AllGrow(s) && HistoriesKept(s, t)
    ensures OneExecutor(t) && AllGrow(t)
  {
    forall p | p in t.publications ensures DelaysGrow(t.publications[p].history) { assert SameHistory(s, t, p); }
    forall e | e in t.executors && t.executors[e].publication in t.publications
      ensures t.executors[e].attempt == t.publications[t.executors[e].publication].attempts
    {
      assert ExecutorOk(s, e) && SameHistory(s, t, t.executors[e].publication);
    }
  }

  /** A claim is only made when the executor before has ended, as in a single
    process, which runs publishOne again only after it returned. */
  ghost predicate OneProcess(actions: seq<Action>)
    decreases |actions|
  {
    actions == [] ||
    (var before := actions[..|actions| - 1];
     OneProcess(before) && (actions[|actions| - 1].Claim? ==> Reach(before).executors == map[]))
  }

  lemma OtherStepInOrder(s: State, a: Action)
    requires Inv(s) && OneExecutor(s) && AllGrow(s) && !IsExecutorStep(a)
    ensures OneExecutor(Apply(s, a)) && AllGrow(Apply(s, a))
  {
    var t := Apply(s, a);
    OtherStepsKeepHistories(s, a);
    KeptInOrder(s, t);
  }

  /** With a single coordinator process the waits recorded for a publication grow
    from one failure to the next, however often it is requeued. */
  lemma {:induction false} OneProcessDelaysGrow(actions: seq<Action>)
    requires OneProcess(actions)
    ensures OneExecutor(Reach(actions)) && AllGrow(Reach(actions))
    decreases |actions|
  {
    if actions == [] {
    } else {
      var before := actions[..|actions| - 1];
      OneProcessDelaysGrow(before);
      ReachOk(before);
      RunRecords(before);
      var last := actions[|actions| - 1];
      if IsExecutorStep(last) { ExecutorStepInOrder(Reach(before), last); } else {
        OtherStepInOrder(Reach(before), last);
      }
    }
  }
}
