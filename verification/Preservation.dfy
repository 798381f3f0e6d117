/** Every step keeps the invariant. One lemma per transaction. */
module Preservation {
  import opened Common
  import opened Tables
  import opened Steps
  import opened Invariants

  // ------------------------- moderation, retry, cancel, reopen and the poller

  lemma TakedownKeeps(s: State, owner: Id, r: Id)
    requires Inv(s) && CanTakedown(s, owner, r)
    ensures Inv(DoTakedown(s, r))
  {
    var t := DoTakedown(s, r);
    forall p | p in s.publications ensures QuietRow(s, t, p) { assert PublicationOk(s, p); }
    forall r | r in s.resources ensures QuietResource(s, t, r) { }
    QuietKeeps(s, t);
  }

  lemma RestoreKeeps(s: State, r: Id)
    requires Inv(s) && r in s.resources
    ensures Inv(DoRestore(s, r))
  {
    var t := DoRestore(s, r);
    forall p | p in s.publications ensures QuietRow(s, t, p) { assert PublicationOk(s, p); }
    forall r | r in s.resources ensures QuietResource(s, t, r) { }
    QuietKeeps(s, t);
  }

  lemma AdminModerateKeeps(s: State, r: Id, m: Moderation)
    requires Inv(s) && CanAdminModerate(s, r, m)
    ensures Inv(DoAdminModerate(s, r, m))
  {
    var t := DoAdminModerate(s, r, m);
    forall p | p in s.publications ensures QuietRow(s, t, p) { assert PublicationOk(s, p); }
    forall r | r in s.resources ensures QuietResource(s, t, r) { }
    QuietKeeps(s, t);
  }

  lemma RequeueKeeps(s: State, p: Id, requester: Option<Id>)
    requires Inv(s) && CanRequeue(s, p, requester)
    ensures Inv(DoRequeue(s, p))
  {
    var t := DoRequeue(s, p);
    forall q | q in s.publications ensures QuietRow(s, t, q) {
      assert PublicationOk(s, q) && RevisionOk(s, s.publications[q].revision);
    }
    forall r | r in s.resources ensures QuietResource(s, t, r) { }
    QuietKeeps(s, t);
  }

  lemma CancelKeeps(s: State, p: Id)
    requires Inv(s) && CanCancel(s, p)
    ensures Inv(DoCancel(s, p))
  {
    var t := DoCancel(s, p);
    forall q | q in s.publications ensures QuietRow(s, t, q) { assert PublicationOk(s, q); }
    forall r | r in s.resources ensures QuietResource(s, t, r) { }
    QuietKeeps(s, t);
  }

  lemma RequeueFailedKeeps(s: State, selected: set<Id>)
    requires Inv(s)
    ensures Inv(DoRequeueFailed(s, selected))
  {
    var t := DoRequeueFailed(s, selected);
    forall p | p in s.publications ensures QuietRow(s, t, p) {
      assert PublicationOk(s, p) && RevisionOk(s, s.publications[p].revision);
    }
    forall r | r in s.resources ensures QuietResource(s, t, r) { }
    QuietKeeps(s, t);
  }

  lemma ReopenKeeps(s: State, owner: Id, v: Id, p: Id)
    requires Inv(s) && CanReopen(s, owner, v, p)
    ensures Inv(DoReopen(s, v, p))
  {
    var t := DoReopen(s, v, p);
    forall q | q in s.publications ensures QuietRow(s, t, q) { assert PublicationOk(s, q); }
    forall r | r in s.resources ensures QuietResource(s, t, r) { }
    assert PublicationOk(s, p) && ReopenOk(t, s.revisions[v].resource);
    QuietKeeps(s, t);
  }

  lemma ReopenEndKeeps(s: State, r: Id, performed: bool)
    requires Inv(s) && r in s.reopens
    ensures Inv(DoReopenEnd(s, r, performed))
  {
    var t := DoReopenEnd(s, r, performed);
    assert ReopenOk(s, r);
    forall q | q in s.publications ensures QuietRow(s, t, q) { assert PublicationOk(s, q); }
    forall o | o in s.resources ensures QuietResource(s, t, o) { }
    QuietKeeps(s, t);
  }

  lemma PollClaimKeeps(s: State, q: Id, p: Id)
    requires Inv(s) && CanPoll(s, q, p)
    ensures Inv(DoPollClaim(s, q, p))
  {
    var t := DoPollClaim(s, q, p);
    forall o | o in s.publications ensures QuietRow(s, t, o) { assert PublicationOk(s, o); }
    forall r | r in s.resources ensures QuietResource(s, t, r) { }
    QuietKeeps(s, t);
  }

  lemma PollRetireKeeps(s: State, q: Id)
    requires Inv(s) && CanRetire(s, q)
    ensures Inv(DoPollRetire(s, q))
  {
    var t := DoPollRetire(s, q);
    forall p | p in s.publications ensures QuietRow(s, t, p) { assert PublicationOk(s, p); }
    forall r | r in s.resources ensures QuietResource(s, t, r) { }
    QuietKeeps(s, t);
  }

  lemma PollResultKeeps(s: State, q: Id, answer: Answer)
    requires Inv(s) && q in s.pollers
    ensures Inv(DoPollResult(s, q, answer))
  {
    var t := DoPollResult(s, q, answer);
    forall p | p in s.publications ensures QuietRow(s, t, p) { assert PublicationOk(s, p); }
    forall r | r in s.resources ensures QuietResource(s, t, r) { }
    QuietKeeps(s, t);
  }

  lemma PollCrashKeeps(s: State, q: Id)
    requires Inv(s)
    ensures Inv(s.(pollers := s.pollers - {q}))
  {
    var t := s.(pollers := s.pollers - {q});
    forall p | p in s.publications ensures QuietRow(s, t, p) { assert PublicationOk(s, p); }
    forall r | r in s.resources ensures QuietResource(s, t, r) { }
    QuietKeeps(s, t);
  }

  lemma TickKeeps(s: State, seconds: nat)
    requires Inv(s)
    ensures Inv(s.(now := s.now + seconds))
  {
    var t := s.(now := s.now + seconds);
    forall p | p in s.publications ensures QuietRow(s, t, p) { assert PublicationOk(s, p); }
    forall r | r in s.resources ensures QuietResource(s, t, r) { }
    QuietKeeps(s, t);
  }

  // ---------------------------------------------------------------- executor

  /** Everything but the work of executor `e` on publication `p` stands still. */
  ghost predicate OthersStand(s: State, t: State, e: Id, p: Id) {
    && t.resources == s.resources && t.revisions == s.revisions && t.cases == s.cases
    && t.pollers == s.pollers && t.reopens == s.reopens && t.next == s.next
    && t.publications.Keys == s.publications.Keys
    && (forall q {:trigger QuietRow(s, t, q)} :: q in s.publications && q != p ==> QuietRow(s, t, q))
    && t.executors - {e} == s.executors - {e}
    && (forall r {:trigger OtherLock(s, t, e, r)} :: OtherLock(s, t, e, r))
  }

  ghost predicate OtherLock(s: State, t: State, e: Id, r: Id) {
    && (r in t.locks && t.locks[r] != e ==> r in s.locks && s.locks[r] == t.locks[r])
    && (r in s.locks && s.locks[r] != e ==> r in t.locks && t.locks[r] == s.locks[r])
    && (r in t.locks && t.locks[r] == e ==>
          e in t.executors && t.executors[e].resource == r && (r in s.locks || r !in s.reopens))
  }

  /** The row worked on keeps its place, and at most attempt `k` is added to
    its rescheduled ones. */
  ghost predicate WorkedRow(s: State, t: State, p: Id, k: nat)
    requires p in s.publications && p in t.publications
  {
    && KeptRow(s, t, p)
    && s.publications[p].attempts <= t.publications[p].attempts
    && forall j :: j in Retries(t.publications[p].history) ==> j in Retries(s.publications[p].history) || j == k
  }

  lemma OtherExecutorOk(s: State, t: State, e: Id, p: Id, f: Id)
    requires Inv(s) && OthersStand(s, t, e, p) && f in s.executors && f != e
    requires p in s.publications && e in s.executors && s.executors[e].publication == p ==>
               WorkedRow(s, t, p, s.executors[e].attempt)
    requires p in s.publications && e !in s.executors ==> WorkedRow(s, t, p, 0)
    requires e in s.executors ==> s.executors[e].publication == p
    ensures f in t.executors && t.executors[f] == s.executors[f] && ExecutorOk(t, f)
  {
    var x := s.executors[f];
    assert f in s.executors - {e} && (s.executors - {e})[f] == x;
    assert ExecutorOk(s, f);
    assert OtherLock(s, t, e, x.resource);
    if x.publication != p {
      assert QuietRow(s, t, x.publication);
    } else if e in s.executors {
      assert ExecutorPairOk(s, e, f);
    }
  }

  lemma ExecutorStepKeepsCore(s: State, t: State, e: Id, p: Id, k: nat)
    requires Inv(s) && OthersStand(s, t, e, p) && p in s.publications && WorkedRow(s, t, p, k)
    ensures Core(t)
  {
    forall q | q in s.publications ensures KeptRow(s, t, q) { if q != p { assert QuietRow(s, t, q); } }
    forall r | r in s.resources ensures KeptResource(s, t, r) { }
    CoreKept(s, t);
  }

  lemma ExecutorStepKeepsReopen(s: State, t: State, e: Id, p: Id, k: nat, r: Id)
    requires Inv(s) && OthersStand(s, t, e, p) && p in s.publications && WorkedRow(s, t, p, k) && r in s.reopens
    ensures ReopenOk(t, r)
  {
    assert ReopenOk(s, r) && OtherLock(s, t, e, r);
    if s.reopens[r] != p { assert QuietRow(s, t, s.reopens[r]); }
  }

  lemma ExecutorStepKeeps(s: State, t: State, e: Id, p: Id)
    requires Inv(s) && OthersStand(s, t, e, p)
    requires p in s.publications
    requires WorkedRow(s, t, p, if e in s.executors then s.executors[e].attempt else 0)
    requires e in s.executors ==> s.executors[e].publication == p
    requires e in t.executors ==> ExecutorOk(t, e) && t.executors[e].publication == p
    requires e in t.executors && e !in s.executors ==> t.executors[e].attempt > s.publications[p].attempts
    requires e in t.executors && e in s.executors ==> t.executors[e].attempt == s.executors[e].attempt
    ensures Inv(t)
  {
    ExecutorStepKeepsCore(s, t, e, p, if e in s.executors then s.executors[e].attempt else 0);
    forall f | f in t.executors
      ensures ExecutorOk(t, f)
              && (f != e ==> f in s.executors && s.executors[f] == t.executors[f] && ExecutorOk(s, f)) {
      if f != e {
        assert f in t.executors - {e};
        OtherExecutorOk(s, t, e, p, f);
      }
    }
    forall f, g | f in t.executors && g in t.executors ensures ExecutorPairOk(t, f, g) {
      assert ExecutorOk(t, f) && ExecutorOk(t, g);
      if f in s.executors && g in s.executors { assert ExecutorPairOk(s, f, g); }
    }
    forall r | r in t.locks ensures t.locks[r] in t.executors && t.executors[t.locks[r]].resource == r {
      assert OtherLock(s, t, e, r);
      if t.locks[r] != e { assert t.locks[r] in s.executors - {e}; }
    }
    forall r | r in t.reopens ensures ReopenOk(t, r) {
      ExecutorStepKeepsReopen(s, t, e, p, if e in s.executors then s.executors[e].attempt else 0, r);
    }
  }

  lemma RetriesAppend(history: seq<Entry>, entry: Entry)
    ensures Retries(history + [entry]) == if entry.Retry? then Retries(history) + [entry.attempt] else Retries(history)
  {
  }

  lemma ClaimKeeps(s: State, e: Id, p: Id)
    requires Inv(s) && CanClaim(s, e, p)
    ensures Inv(DoClaim(s, e, p))
  {
    var t := DoClaim(s, e, p);
    RetriesAppend(s.publications[p].history, Started(s.publications[p].attempts + 1));
    forall q | q in s.publications ensures KeptRow(s, t, q) && (q != p ==> QuietRow(s, t, q)) {
      assert PublicationOk(s, q) && RevisionOk(s, s.publications[q].revision);
    }
    assert PublicationOk(s, p) && RevisionOk(s, s.publications[p].revision);
    assert ExecutorOk(t, e);
    ExecutorStepKeeps(s, t, e, p);
  }

  lemma GiveBackKeeps(s: State, e: Id)
    requires Inv(s) && InPhase(s, e, Claimed)
    ensures Inv(DoGiveBack(s, e))
  {
    var t, x := DoGiveBack(s, e), s.executors[e];
    assert ExecutorOk(s, e);
    RetriesAppend(s.publications[x.publication].history, Busy(x.attempt));
    forall q | q in s.publications ensures KeptRow(s, t, q) && (q != x.publication ==> QuietRow(s, t, q)) {
      assert PublicationOk(s, q);
    }
    ExecutorStepKeeps(s, t, e, x.publication);
  }

  lemma LockKeeps(s: State, e: Id)
    requires Inv(s) && CanLock(s, e)
    ensures Inv(DoLock(s, e))
  {
    var t, x := DoLock(s, e), s.executors[e];
    assert ExecutorOk(s, e);
    forall q | q in s.publications ensures QuietRow(s, t, q) { assert PublicationOk(s, q); }
    assert ExecutorOk(t, e);
    ExecutorStepKeeps(s, t, e, x.publication);
  }

  lemma CheckedRows(s: State, e: Id, q: Id)
    requires Inv(s) && InPhase(s, e, Locked) && q in s.publications
    ensures QuietRow(s, DoCheckEligible(s, e), q)
  {
    assert ExecutorOk(s, e) && PublicationOk(s, q);
  }

  lemma CheckedExecutor(s: State, e: Id)
    requires Inv(s) && InPhase(s, e, Locked)
    ensures ExecutorOk(DoCheckEligible(s, e), e)
  {
    assert ExecutorOk(s, e);
  }

  lemma CheckEligibleKeeps(s: State, e: Id)
    requires Inv(s) && InPhase(s, e, Locked)
    ensures Inv(DoCheckEligible(s, e))
  {
    var t, x := DoCheckEligible(s, e), s.executors[e];
    assert ExecutorOk(s, e);
    forall q | q in s.publications ensures QuietRow(s, t, q) { CheckedRows(s, e, q); }
    CheckedExecutor(s, e);
    ExecutorStepKeeps(s, t, e, x.publication);
  }

  lemma CheckFailsKeeps(s: State, e: Id)
    requires Inv(s) && InPhase(s, e, Locked)
    ensures Inv(s.(executors := AtPhase(s, e, Refused)))
  {
    var t, x := s.(executors := AtPhase(s, e, Refused)), s.executors[e];
    assert ExecutorOk(s, e);
    forall q | q in s.publications ensures QuietRow(s, t, q) { assert PublicationOk(s, q); }
    assert ExecutorOk(t, e);
    ExecutorStepKeeps(s, t, e, x.publication);
  }

  lemma FinishedRowOk(row: Publication, x: Executor, pullRequest: nat, now: int, next: Id)
    requires RowOk(row, CaseApproved, next) && row.state == Running && row.target == x.target && x.target != OronBox
    ensures var changed := FinishedRow(row, x, pullRequest, now);
            RowOk(changed, CaseApproved, next) && Retries(changed.history) == Retries(row.history)
            && changed.attempts == row.attempts
  {
  }

  lemma FinishKeeps(s: State, e: Id, pullRequest: nat)
    requires Inv(s) && CanFinish(s, e)
    ensures Inv(DoFinish(s, e, pullRequest))
  {
    var t, x := DoFinish(s, e, pullRequest), s.executors[e];
    assert ExecutorOk(s, e);
    assert PublicationOk(s, x.publication);
    FinishedRowOk(s.publications[x.publication], x, pullRequest, s.now, s.next);
    assert t.publications[x.publication] == FinishedRow(s.publications[x.publication], x, pullRequest, s.now);
    forall q | q in s.publications && q != x.publication ensures QuietRow(s, t, q) { assert PublicationOk(s, q); }
    assert WorkedRow(s, t, x.publication, x.attempt);
    assert ExecutorOk(t, e);
    ExecutorStepKeeps(s, t, e, x.publication);
  }

  lemma FailedRowOk(row: Publication, n: nat, now: int, next: Id)
    requires RowOk(row, CaseApproved, next) && row.state == Running
    requires 1 <= n <= row.attempts && n !in Retries(row.history)
    ensures RowOk(FailedRow(row, n, now), CaseApproved, next)
    ensures forall k :: k in Retries(FailedRow(row, n, now).history) ==> k in Retries(row.history) || k == n
  {
  }

  lemma FailWorksRow(s: State, e: Id)
    requires Inv(s) && InPhase(s, e, Calling)
    ensures s.executors[e].publication in DoFail(s, e).publications
    ensures WorkedRow(s, DoFail(s, e), s.executors[e].publication, s.executors[e].attempt)
  {
    var x := s.executors[e];
    assert ExecutorOk(s, e) && PublicationOk(s, x.publication);
    if s.publications[x.publication].state == Running {
      FailedRowOk(s.publications[x.publication], x.attempt, s.now, s.next);
    }
  }

  lemma FailKeeps(s: State, e: Id)
    requires Inv(s) && InPhase(s, e, Calling)
    ensures Inv(DoFail(s, e))
  {
    var t, x := DoFail(s, e), s.executors[e];
    FailWorksRow(s, e);
    forall q | q in s.publications && q != x.publication ensures QuietRow(s, t, q) { assert PublicationOk(s, q); }
    assert ExecutorOk(t, e) by { assert ExecutorOk(s, e); }
    ExecutorStepKeeps(s, t, e, x.publication);
  }

  lemma LeaveKeeps(s: State, e: Id)
    requires Inv(s)
    ensures Inv(DoLeave(s, e))
  {
    var t := DoLeave(s, e);
    if e in s.executors {
      assert ExecutorOk(s, e);
      forall q | q in s.publications ensures QuietRow(s, t, q) { assert PublicationOk(s, q); }
      ExecutorStepKeeps(s, t, e, s.executors[e].publication);
    } else {
      assert t.executors == s.executors && t.locks == s.locks;
    }
  }
}
