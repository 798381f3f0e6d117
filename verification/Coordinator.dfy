/** publishOne and pollOne, cut where they touch the database: between two of
  these methods any other transaction may run. */
module Coordinator {
  import opened Common
  import opened Tables
  import opened Steps
  import opened Database

  // ---------------------------------------------------------------- publishing

  /** The claiming statement: some due row of an eligible revision is taken. */
  method Claim(d: Database, e: Id) returns (claimed: Option<Id>)
    requires e !in d.db.executors
    modifies d
    ensures claimed.Some? ==> CanClaim(old(d.db), e, claimed.value) && d.db == DoClaim(old(d.db), e, claimed.value)
    ensures claimed.None? ==> d.db == old(d.db) && forall p :: p in d.db.publications ==> !CanClaim(d.db, e, p)
  {
    if p :| p in d.db.publications && CanClaim(d.db, e, p) {
      var row := d.db.publications[p];
      var n := row.attempts + 1;
      var x := Executor(p, row.revision, d.db.revisions[row.revision].resource, row.target, n, Claimed);
      d.db := d.db.(
      publications := d.db.publications[p :=
      row.(state := Running, attempts := n, history := row.history + [Started(n)])],
      executors := d.db.executors[e := x]);
      claimed := Some(p);
    } else {
      claimed := None;
    }
  }

  /** failPublicationAttempt: reschedule or give up, if the row is still
    running. */
  method FailPublicationAttempt(d: Database, p: Id, state: PublicationState, delay: nat, entry: Entry)
    returns (changed: bool)
    requires p in d.db.publications
    modifies d
    ensures changed <==> old(d.db).publications[p].state == Running
    ensures d.db == if !changed then old(d.db) else
                    var row := old(d.db).publications[p];
                    old(d.db).(publications := old(d.db).publications[p :=
                    row.(state := state, nextAttempt := old(d.db).now + delay, history := row.history + [entry])])
  {
    var row := d.db.publications[p];
    changed := row.state == Running;
    if changed {
      d.db := d.db.(publications :=
      d.db.publications[p := row.(state := state, nextAttempt := d.db.now + delay,
      history := row.history + [entry])]);
    }
  }

  /** Try the resource lock on a connection of its own; hand the claim back for
    a minute when either cannot be had. */
  method AcquireLock(d: Database, e: Id, connected: bool) returns (acquired: bool)
    requires InPhase(d.db, e, Claimed)
    modifies d
    ensures acquired <==> connected && CanLock(old(d.db), e)
    ensures d.db == if acquired then DoLock(old(d.db), e) else DoGiveBack(old(d.db), e)
  {
    var x := d.db.executors[e];
    acquired := connected && LockFree(d.db, x.resource);
    if acquired {
      d.db := d.db.(locks := d.db.locks[x.resource := e], executors := d.db.executors[e := x.(phase := Locked)]);
    } else {
      var _ := FailPublicationAttempt(d, x.publication, Pending, BUSY_DELAY, Busy(x.attempt));
      d.db := d.db.(executors := d.db.executors - {e});
    }
  }

  /** Under the lock, look again whether the row may be sent out. */
  method CheckEligible(d: Database, e: Id) returns (eligible: bool)
    requires InPhase(d.db, e, Locked)
    modifies d
    ensures d.db == DoCheckEligible(old(d.db), e)
    ensures eligible <==> d.db.executors[e].phase == Calling
    ensures !eligible ==> d.db.publications[d.db.executors[e].publication].state != Running
  {
    var p := d.db.executors[e].publication;
    var row := d.db.publications[p];
    eligible := row.state == Running && Eligible(d.db, row.revision);
    if eligible {
      d.db := d.db.(executors := AtPhase(d.db, e, Calling));
    } else {
      if row.state == Running {
        d.db := d.db.(publications := d.db.publications[p := row.(state := Cancelled)]);
      }
      d.db := d.db.(executors := AtPhase(d.db, e, Refused));
    }
  }

  /** finish, for an external call that succeeded. When the row is no longer
    running nothing is written and the caller goes on to fail the attempt. */
  method Finish(d: Database, e: Id, pullRequest: nat) returns (done: bool)
    requires InPhase(d.db, e, Calling)
    modifies d
    ensures done <==> CanFinish(old(d.db), e)
    ensures d.db == if done then DoFinish(old(d.db), e, pullRequest) else old(d.db)
  {
    var s := d.db;
    var x := s.executors[e];
    done := s.publications[x.publication].state == Running;
    if done {
      d.db := s.(publications :=
      s.publications[x.publication := FinishedRow(s.publications[x.publication], x, pullRequest, s.now)]);
      if x.target == AstroBox {
        d.db := CancelFollowers(d.db, x, pullRequest);
      }
      d.db := d.db.(executors := AtPhase(d.db, e, Finished));
      FinishInOrder(s, e, pullRequest);
    }
  }

  /** Older entries of the resource no longer follow the pull request. */
  function CancelFollowers(s: State, x: Executor, pullRequest: nat): State {
    s.(publications := map p | p in s.publications ::
      if p != x.publication && IsFor(s, p, x.resource) && s.publications[p].target == AstroBox
         && s.publications[p].state == Reviewing && s.publications[p].pullRequest == Some(pullRequest)
      then s.publications[p].(state := Cancelled, lease := None) else s.publications[p])
  }

  lemma FinishInOrder(s: State, e: Id, pullRequest: nat)
    requires InPhase(s, e, Calling)
    ensures var x := s.executors[e];
            var t := s.(publications :=
                     s.publications[x.publication :=
                     FinishedRow(s.publications[x.publication], x, pullRequest, s.now)]);
            (if x.target == AstroBox then CancelFollowers(t, x, pullRequest) else t).publications
            == DoFinish(s, e, pullRequest).publications
  {
  }

  /** The end of publishOne after an error: the fifth attempt is the last. */
  method Fail(d: Database, e: Id)
    requires InPhase(d.db, e, Calling)
    modifies d
    ensures d.db == DoFail(old(d.db), e)
  {
    var x := d.db.executors[e];
    var delay := RetryDelay(x.attempt);
    var state, entry := Pending, Retry(x.attempt, delay);
    if x.attempt >= MAX_ATTEMPTS {
      state, entry := Failed, GaveUp(x.attempt);
    }
    var _ := FailPublicationAttempt(d, x.publication, state, delay, entry);
    d.db := d.db.(executors := AtPhase(d.db, e, Finished));
  }

  /** The deferred unlock. */
  method Unlock(d: Database, e: Id)
    requires CanUnlock(d.db, e)
    modifies d
    ensures d.db == DoLeave(old(d.db), e)
    ensures forall r :: r in d.db.locks ==> d.db.locks[r] != e
  {
    d.db := d.db.(executors := d.db.executors - {e}, locks := map r | r in d.db.locks && d.db.locks[r] != e ::
      d.db.locks[r]);
  }

  /** The steps of an attempt that nothing interferes with. `called` is the
    outcome of the external call. */
  function Attempt(s: State, e: Id, connected: bool, called: Option<nat>): State
    requires InPhase(s, e, Claimed)
  {
    if !connected || !CanLock(s, e) then DoGiveBack(s, e)
    else
      var checked := DoCheckEligible(DoLock(s, e), e);
      if checked.executors[e].phase == Refused then DoLeave(checked, e)
      else DoLeave(if called.Some? && CanFinish(checked, e) then DoFinish(checked, e, called.value)
                   else DoFail(checked, e), e)
  }

  /** publishOne, when no other transaction comes in between. */
  method PublishOne(d: Database, e: Id, connected: bool, called: Option<nat>) returns (claimed: Option<Id>)
    requires e !in d.db.executors
    modifies d
    ensures claimed.None? ==> d.db == old(d.db) && forall p :: p in d.db.publications ==> !CanClaim(d.db, e, p)
    ensures claimed.Some? ==>
              CanClaim(old(d.db), e, claimed.value)
              && d.db == Attempt(DoClaim(old(d.db), e, claimed.value), e, connected, called)
  {
    claimed := Claim(d, e);
    if claimed.Some? {
      var acquired := AcquireLock(d, e, connected);
      if acquired {
        var eligible := CheckEligible(d, e);
        if eligible {
          var done := false;
          if called.Some? {
            done := Finish(d, e, called.value);
          }
          if !done {
            Fail(d, e);
          }
        }
        Unlock(d, e);
      }
    }
  }

  /** The claimed row under the lock, about to be sent. */
  function Sending(s: State, e: Id, p: Id): State
    requires CanClaim(s, e, p)
  {
    var c := DoClaim(s, e, p);
    c.(locks := s.locks[c.executors[e].resource := e], executors := s.executors[e := c.executors[e].(phase := Calling)])
  }

  lemma NothingRefused(s: State, e: Id, p: Id)
    requires CanClaim(s, e, p) && CanLock(DoClaim(s, e, p), e)
    ensures DoCheckEligible(DoLock(DoClaim(s, e, p), e), e) == Sending(s, e, p)
  {
  }

  /** Whatever the step between does to the row, leaving restores the sessions. */
  lemma LeavingRestores(s: State, e: Id, p: Id, f: State)
    requires CanClaim(s, e, p) && s.publications[p].revision in s.revisions
             && LockFree(s, s.revisions[s.publications[p].revision].resource)
    requires forall r :: r in s.locks ==> s.locks[r] != e
    requires f.locks == Sending(s, e, p).locks && f.executors.Keys == s.executors.Keys + {e}
             && forall x :: x in s.executors ==> f.executors[x] == s.executors[x]
    ensures DoLeave(f, e).executors == s.executors && DoLeave(f, e).locks == s.locks
  {
  }

  /** The state a lone attempt leaves its row in. */
  function Settled(row: Publication, connected: bool, free: bool, called: Option<nat>): PublicationState {
    if !connected || !free then Pending
    else if called.Some? then (if row.target == AstroBox then Reviewing else Published)
    else if row.attempts + 1 >= MAX_ATTEMPTS then Failed else Pending
  }

  lemma SentSettles(s: State, e: Id, p: Id, called: Option<nat>)
    requires CanClaim(s, e, p) && CanLock(DoClaim(s, e, p), e) && forall r :: r in s.locks ==> s.locks[r] != e
    ensures var t, row := Attempt(DoClaim(s, e, p), e, true, called), s.publications[p];
            && t.executors == s.executors && t.locks == s.locks
            && p in t.publications && t.publications[p].attempts == row.attempts + 1
            && t.publications[p].state == Settled(row, true, true, called)
  {
    NothingRefused(s, e, p);
    var k := Sending(s, e, p);
    LeavingRestores(s, e, p, if called.Some? then DoFinish(k, e, called.value) else DoFail(k, e));
  }

  /** An attempt that nothing interferes with is never refused, settles its row
    as the outcome says, counts one attempt and holds no lock afterwards. */
  lemma AttemptSettles(s: State, e: Id, p: Id, connected: bool, called: Option<nat>)
    requires CanClaim(s, e, p) && forall r :: r in s.locks ==> s.locks[r] != e
    ensures var t, row := Attempt(DoClaim(s, e, p), e, connected, called), s.publications[p];
            && t.executors == s.executors && t.locks == s.locks
            && p in t.publications && t.publications[p].attempts == row.attempts + 1
            && t.publications[p].state
               == Settled(row, connected, LockFree(s, s.revisions[row.revision].resource), called)
  {
    if connected && CanLock(DoClaim(s, e, p), e) {
      SentSettles(s, e, p, called);
    } else {
      assert DoClaim(s, e, p).executors - {e} == s.executors;
    }
  }

  // ------------------------------------------------------------------- polling

  /** The claiming statement of pollOne: the row that has been due longest. */
  method PollClaim(d: Database, q: Id) returns (claimed: Option<Id>)
    requires q !in d.db.pollers
    modifies d
    ensures claimed.Some? ==>
              && CanPoll(old(d.db), q, claimed.value) && d.db == DoPollClaim(old(d.db), q, claimed.value)
              && forall p ::
                   p in d.db.publications && CanPoll(old(d.db), q, p) ==>
                     old(d.db).publications[claimed.value].nextAttempt <= old(d.db).publications[p].nextAttempt
    ensures claimed.None? ==> d.db == old(d.db) && forall p :: p in d.db.publications ==> !CanPoll(d.db, q, p)
  {
    var s := d.db;
    claimed := None;
    var todo := s.publications.Keys;
    while todo != {}
      invariant todo <= s.publications.Keys && d.db == s
      invariant claimed.Some? ==> CanPoll(s, q, claimed.value)
      invariant forall p ::
                  p in s.publications && p !in todo && CanPoll(s, q, p) ==>
                    claimed.Some? && s.publications[claimed.value].nextAttempt <= s.publications[p].nextAttempt
      decreases |todo|
    {
      var p :| p in todo;
      if CanPoll(s, q, p) && (claimed.None?
                              || s.publications[p].nextAttempt < s.publications[claimed.value].nextAttempt) {
        claimed := Some(p);
      }
      todo := todo - {p};
    }
    if claimed.Some? {
      var p := claimed.value;
      d.db := s.(
      publications := s.publications[p := s.publications[p].(lease := Some(Lease(s.next, s.now + POLL_LEASE)))],
      pollers := s.pollers[q := Poller(p, s.next)],
      next := s.next + 1);
    }
  }

  /** Drop the entry when a newer one follows the same pull request. */
  method Retire(d: Database, q: Id) returns (retired: bool)
    requires q in d.db.pollers
    modifies d
    ensures retired <==> CanRetire(old(d.db), q)
    ensures d.db == if retired then DoPollRetire(old(d.db), q) else old(d.db)
  {
    var s := d.db;
    retired := HoldsLease(s, q) && IsOvertaken(s, s.pollers[q].publication);
    if retired {
      var p := s.pollers[q].publication;
      d.db := s.(publications := s.publications[p := s.publications[p].(state := Cancelled, lease := None)],
      pollers := s.pollers - {q});
    }
  }

  /** Record what GitHub answered, provided the claim still stands. */
  method RecordPoll(d: Database, q: Id, answer: Answer) returns (recorded: bool)
    requires q in d.db.pollers
    modifies d
    ensures recorded <==> HoldsLease(old(d.db), q)
    ensures d.db == DoPollResult(old(d.db), q, answer)
    ensures recorded ==>
              var p := old(d.db).pollers[q].publication;
              && p in old(d.db).publications && p in d.db.publications
              && var before, after := old(d.db).publications[p], d.db.publications[p];
              && after.lease == None
              && (after.state == Published <==> answer.Answer? && answer.merged && answer.catalogApplied)
              && (after.state == Failed <==> answer.Answer? && !answer.merged && answer.closed && !answer.reopening)
              && (after.state in {Published, Failed, Reviewing})
              && (after.state == Reviewing ==>
                    after.nextAttempt == d.db.now + if answer.Answer? && answer.reopening then 15 else 300)
  {
    var s := d.db;
    var p := s.pollers[q].publication;
    recorded := p in s.publications && s.publications[p].state == Reviewing
                && s.publications[p].lease.Some? && s.publications[p].lease.value.token == s.pollers[q].token;
    if recorded {
      var row := s.publications[p];
      match answer {
        case NoAnswer =>
          row := row.(nextAttempt := s.now + POLL_INTERVAL);
        case Answer(merged, closed, catalogApplied, reopening) =>
          if merged && catalogApplied {
            row := row.(state := Published);
          } else if !merged && closed && !reopening {
            row := row.(state := Failed);
          } else {
            row := row.(nextAttempt := s.now + if reopening then REOPEN_INTERVAL else POLL_INTERVAL);
          }
      }
      d.db := d.db.(publications := s.publications[p := row.(lease := None)]);
    }
    d.db := d.db.(pollers := s.pollers - {q});
  }
}
