/** Runs that really happen in the model: a published row is reopened, and a
  retry delay shrinks. Both start from one submitted and approved revision. */
module Witnesses {
  import opened Common
  import opened Tables
  import opened Steps
  import opened Invariants
  import opened Theorems
  import opened Lifecycle
  import opened Guarantees
  import opened Delays

  const OWNER := 7
  const ASTRO := 2

  /** What changes while the one AstroBox publication is worked on. */
  datatype World = World(
    moderation: Moderation,
    moderator: Option<Moderator>,
    row: Publication,
    executors: map<Id, Executor>,
    locks: map<Id, Id>,
    reopens: map<Id, Id>,
    pollers: map<Id, Poller>,
    next: Id,
    now: int)

  /** Resource 0 with its approved revision 1, the AstroBox publication 2 and the
    published OronBox publication 3. */
  function StateOf(w: World): State {
    State(
      map[0 := Resource(OWNER, w.moderation, w.moderator, Some(1), 2)],
      map[1 := Revision(0, 1, Approved, Creator, [AstroBox])],
      map[1 := CaseApproved],
      map[ASTRO := w.row, 3 := Publication(1, OronBox, Published, 0, 0, None, None, [])],
      {}, w.locks, w.reopens, w.executors, w.pollers, w.next, w.now)
  }

  const FRESH := Publication(1, AstroBox, Pending, 0, 0, None, None, [])
  const READY := World(Visible, None, FRESH, map[], map[], map[], map[], 4, 0)

  // ----------------------------------------------------------- getting ready

  lemma Extend(actions: seq<Action>, a: Action) returns (longer: seq<Action>)
    ensures longer == actions + [a] && Reach(longer) == Apply(Reach(actions), a)
  {
    longer := actions + [a];
    RunAppend(INITIAL, actions, a);
  }

  const CREATED := INITIAL.(resources := map[0 := Resource(OWNER, Visible, None, None, 0)], next := 1)

  const SUBMITTED := State(
                       map[0 := Resource(OWNER, Visible, None, None, 1)],
                       map[1 := Revision(0, 1, Submitted, Creator, [AstroBox])],
                       map[1 := CasePending],
                       map[ASTRO := FRESH, 3 := Publication(1, OronBox, Pending, 0, 0, None, None, [])],
                       {}, map[], map[], map[], map[], 4, 0)

  lemma SubmittedRows()
    ensures DoSaveBundle(CREATED, 0, 1, [AstroBox], true, 1).publications == SUBMITTED.publications
  {
    assert WithOronBox([AstroBox]) == [AstroBox, OronBox];
    assert NewPublications(1, [AstroBox, OronBox], 2, 0) == SUBMITTED.publications;
  }

  lemma Submits()
    ensures Apply(CREATED, SaveBundle(OWNER, 0, [AstroBox], true, None, None, 1)) == SUBMITTED
  {
    var t := DoSaveBundle(CREATED, 0, 1, [AstroBox], true, 1);
    assert CanSaveBundle(CREATED, OWNER, 0, [AstroBox], None, None, 1);
    SubmittedRows();
    assert t.revisions == SUBMITTED.revisions;
    assert t.cases == SUBMITTED.cases;
    assert t.resources == SUBMITTED.resources;
  }

  lemma Approves()
    ensures Apply(SUBMITTED, Review(1, true)) == StateOf(READY)
  {
    var t := DoDecide(SUBMITTED, 1, true);
    assert CanDecide(SUBMITTED, 1);
    assert t.revisions == StateOf(READY).revisions;
    assert t.publications == StateOf(READY).publications;
    assert t.resources == StateOf(READY).resources;
  }

  lemma GetsReady() returns (actions: seq<Action>)
    ensures Reach(actions) == StateOf(READY)
  {
    actions := Extend([], CreateResource(OWNER));
    assert Reach(actions) == CREATED;
    actions := Extend(actions, SaveBundle(OWNER, 0, [AstroBox], true, None, None, 1));
    Submits();
    actions := Extend(actions, Review(1, true));
    Approves();
  }

  // --------------------------------------------- the steps that are then made

  ghost predicate At(actions: seq<Action>, w: World) {
    Reach(actions) == StateOf(w)
  }

  /** The publication as the database holds it in every `World`. */
  predicate IsAstroRow(row: Publication) {
    row.revision == 1 && row.target == AstroBox
  }

  function Executing(attempt: nat, phase: Phase): Executor {
    Executor(ASTRO, 1, 0, AstroBox, attempt, phase)
  }

  lemma SameTables(w: World, row: Publication)
    ensures StateOf(w).publications[ASTRO := row] == StateOf(w.(row := row)).publications
  {
  }

  function Claimed(w: World, e: Id): World {
    var n := w.row.attempts + 1;
    w.(row := w.row.(state := Running, attempts := n, history := w.row.history + [Started(n)]),
    executors := w.executors[e := Executing(n, Phase.Claimed)])
  }

  lemma Claims(actions: seq<Action>, w: World, e: Id) returns (longer: seq<Action>, t: World)
    requires At(actions, w)
    requires IsAstroRow(w.row) && w.row.state == Pending && w.row.nextAttempt <= w.now && w.moderation == Visible
             && e !in w.executors
    ensures At(longer, t) && t == Claimed(w, e)
  {
    t := Claimed(w, e);
    assert CanClaim(StateOf(w), e, ASTRO);
    SameTables(w, Claimed(w, e).row);
    longer := Extend(actions, Claim(e, ASTRO));
  }

  function Moved(w: World, e: Id, phase: Phase): World
    requires e in w.executors
  {
    w.(executors := w.executors[e := w.executors[e].(phase := phase)])
  }

  lemma Locks(actions: seq<Action>, w: World, e: Id) returns (longer: seq<Action>, t: World)
    requires At(actions, w)
    requires e in w.executors && w.executors[e].phase == Phase.Claimed && w.executors[e].publication == ASTRO
             && w.executors[e].resource == 0
    requires 0 !in w.locks && 0 !in w.reopens
    ensures At(longer, t) && t == Moved(w, e, Locked).(locks := w.locks[0 := e])
  {
    t := Moved(w, e, Locked).(locks := w.locks[0 := e]);
    assert CanLock(StateOf(w), e);
    longer := Extend(actions, Lock(e));
  }

  lemma Checks(actions: seq<Action>, w: World, e: Id) returns (longer: seq<Action>, t: World)
    requires At(actions, w)
    requires IsAstroRow(w.row) && w.row.state == Running && w.moderation == Visible
    requires e in w.executors && w.executors[e].phase == Locked && w.executors[e].publication == ASTRO
    ensures At(longer, t) && t == Moved(w, e, Calling)
  {
    t := Moved(w, e, Calling);
    assert InPhase(StateOf(w), e, Locked) && Eligible(StateOf(w), 1);
    longer := Extend(actions, CheckEligible(e));
  }

  lemma Unlocks(actions: seq<Action>, w: World, e: Id) returns (longer: seq<Action>, t: World)
    requires At(actions, w)
    requires e in w.executors && w.executors[e].phase == Finished && w.executors[e].publication == ASTRO
             && w.locks == map[0 := e]
    ensures At(longer, t) && t == w.(executors := w.executors - {e}, locks := map[])
  {
    t := w.(executors := w.executors - {e}, locks := map[]);
    assert CanUnlock(StateOf(w), e);
    assert DoLeave(StateOf(w), e).locks == map[];
    longer := Extend(actions, Unlock(e));
  }

  lemma Ticks(actions: seq<Action>, w: World, seconds: nat) returns (longer: seq<Action>, t: World)
    requires At(actions, w)
    ensures At(longer, t) && t == w.(now := w.now + seconds)
  {
    t := w.(now := w.now + seconds);
    longer := Extend(actions, Tick(seconds));
  }

  // --------------------------------------- a published publication is reopened

  lemma Succeeds(actions: seq<Action>, w: World, e: Id, pullRequest: nat) returns (longer: seq<Action>, t: World)
    requires At(actions, w)
    requires IsAstroRow(w.row) && w.row.state == Running
    requires e in w.executors && w.executors[e] == Executing(w.executors[e].attempt, Calling)
    ensures At(longer, t) && t == Moved(w, e, Finished).(row := FinishedRow(w.row, w.executors[e], pullRequest, w.now))
  {
    t := Moved(w, e, Finished).(row := FinishedRow(w.row, w.executors[e], pullRequest, w.now));
    assert CanFinish(StateOf(w), e);
    SameTables(w, FinishedRow(w.row, w.executors[e], pullRequest, w.now));
    assert DoFinish(StateOf(w), e, pullRequest).publications
        == StateOf(w).publications[ASTRO := FinishedRow(w.row, w.executors[e], pullRequest, w.now)];
    longer := Extend(actions, Finish(e, pullRequest));
  }

  lemma Polls(actions: seq<Action>, w: World, q: Id) returns (longer: seq<Action>, t: World)
    requires At(actions, w)
    requires IsAstroRow(w.row) && w.row.state == Reviewing && w.row.nextAttempt <= w.now && w.row.lease == None
             && q !in w.pollers
    ensures At(longer, t) && t
                             == w.(row := w.row.(lease := Some(Lease(w.next, w.now + POLL_LEASE))),
                                pollers := w.pollers[q := Poller(ASTRO, w.next)], next := w.next + 1)
  {
    t := w.(row := w.row.(lease := Some(Lease(w.next, w.now + POLL_LEASE))),
    pollers := w.pollers[q := Poller(ASTRO, w.next)], next := w.next + 1);
    assert CanPoll(StateOf(w), q, ASTRO);
    SameTables(w, w.row.(lease := Some(Lease(w.next, w.now + POLL_LEASE))));
    longer := Extend(actions, PollClaim(q, ASTRO));
  }

  lemma Reopens(actions: seq<Action>, w: World) returns (longer: seq<Action>, t: World)
    requires At(actions, w)
    requires IsAstroRow(w.row) && w.row.state == Reviewing && w.moderation == Visible && 0 !in w.locks
             && 0 !in w.reopens
    ensures At(longer, t) && t == w.(reopens := w.reopens[0 := ASTRO])
  {
    t := w.(reopens := w.reopens[0 := ASTRO]);
    assert CanReopen(StateOf(w), OWNER, 1, ASTRO);
    longer := Extend(actions, Reopen(OWNER, 1, ASTRO));
  }

  lemma Merges(actions: seq<Action>, w: World, q: Id) returns (longer: seq<Action>, t: World)
    requires At(actions, w)
    requires IsAstroRow(w.row) && w.row.state == Reviewing && q in w.pollers && w.pollers[q].publication == ASTRO
    requires w.row.lease.Some? && w.row.lease.value.token == w.pollers[q].token
    ensures At(longer, t) && t == w.(row := w.row.(lease := None, state := Published), pollers := w.pollers - {q})
  {
    t := w.(row := w.row.(lease := None, state := Published), pollers := w.pollers - {q});
    assert HoldsLease(StateOf(w), q);
    SameTables(w, w.row.(lease := None, state := Published));
    longer := Extend(actions, PollResult(q, Answer(true, false, true, false)));
  }

  /** A poller records that the pull request is merged while a reopen request is
    at the external site: the publication is published, with the reopen request
    still under way. */
  lemma PublishedWhileReopening() returns (actions: seq<Action>)
    ensures IsPublished(Reach(actions), ASTRO) && IsReopening(Reach(actions), ASTRO)
  {
    actions := GetsReady();
    var w := READY;
    actions, w := Claims(actions, w, 10);
    actions, w := Locks(actions, w, 10);
    actions, w := Checks(actions, w, 10);
    actions, w := Succeeds(actions, w, 10, 5);
    assert w.locks == map[0 := 10];
    actions, w := Unlocks(actions, w, 10);
    actions, w := Ticks(actions, w, 300);
    actions, w := Polls(actions, w, 20);
    actions, w := Reopens(actions, w);
    actions, w := Merges(actions, w, 20);
    assert StateOf(w).reopens[0] == ASTRO;
  }

  /** After that run the end of the reopen request takes the publication back out
    of published, although the catalogue lists it. */
  lemma PublishedIsReopened() returns (actions: seq<Action>)
    ensures IsPublished(Reach(actions), ASTRO)
    ensures exists r :: !IsPublished(Apply(Reach(actions), ReopenEnd(r, true)), ASTRO)
  {
    actions := PublishedWhileReopening();
    var s := Reach(actions);
    var r :| r in s.reopens && s.reopens[r] == ASTRO;
    assert Apply(s, ReopenEnd(r, true)) == DoReopenEnd(s, r, true);
  }

  // ------------------------------------------------------ a retry delay shrinks

  lemma TakenDownRow(w: World)
    requires IsAstroRow(w.row) && w.row.state == Running && w.moderation == Visible
    ensures DoTakedown(StateOf(w), 0).publications == StateOf(w).publications[ASTRO := w.row.(state := Cancelled)]
  {
    var s := StateOf(w);
    assert IsFor(s, ASTRO, 0) && s.publications.Keys == {ASTRO, 3};
    assert s.publications[3].state == Published;
  }

  lemma TakenDown(actions: seq<Action>, w: World) returns (longer: seq<Action>, t: World)
    requires At(actions, w)
    requires IsAstroRow(w.row) && w.row.state == Running && w.moderation == Visible
    ensures At(longer, t) && t
                             == w.(moderation := Suspended, moderator := Some(Owner), row := w.row.(state := Cancelled))
  {
    t := w.(moderation := Suspended, moderator := Some(Owner), row := w.row.(state := Cancelled));
    assert CanTakedown(StateOf(w), OWNER, 0);
    SameTables(w, w.row.(state := Cancelled));
    TakenDownRow(w);
    assert DoTakedown(StateOf(w), 0) == StateOf(t);
    longer := Extend(actions, Takedown(OWNER, 0));
  }

  lemma Restored(actions: seq<Action>, w: World) returns (longer: seq<Action>, t: World)
    requires At(actions, w)
    requires w.moderation == Suspended && w.moderator == Some(Owner)
    ensures At(longer, t) && t == w.(moderation := Visible, moderator := None)
  {
    t := w.(moderation := Visible, moderator := None);
    assert CanRestore(StateOf(w), OWNER, 0);
    longer := Extend(actions, Restore(OWNER, 0));
  }

  lemma Requeued(actions: seq<Action>, w: World) returns (longer: seq<Action>, t: World)
    requires At(actions, w)
    requires IsAstroRow(w.row) && w.row.state == Cancelled && w.row.lease == None && w.moderation == Visible
    ensures At(longer, t) && t == w.(row := w.row.(state := Pending, nextAttempt := w.now))
  {
    t := w.(row := w.row.(state := Pending, nextAttempt := w.now));
    assert CanRequeue(StateOf(w), ASTRO, None);
    SameTables(w, w.row.(state := Pending, nextAttempt := w.now));
    longer := Extend(actions, Requeue(ASTRO, None));
  }

  lemma Fails(actions: seq<Action>, w: World, e: Id) returns (longer: seq<Action>, t: World)
    requires At(actions, w)
    requires IsAstroRow(w.row) && w.row.state == Running
    requires e in w.executors && w.executors[e] == Executing(w.executors[e].attempt, Calling)
    ensures At(longer, t) && t == Moved(w, e, Finished).(row := FailedRow(w.row, w.executors[e].attempt, w.now))
  {
    t := Moved(w, e, Finished).(row := FailedRow(w.row, w.executors[e].attempt, w.now));
    assert InPhase(StateOf(w), e, Calling);
    SameTables(w, FailedRow(w.row, w.executors[e].attempt, w.now));
    longer := Extend(actions, Fail(e));
  }

  /** The publication is cancelled and requeued while an executor stands before
    its lock. */
  lemma RequeuedAfterClaim() returns (actions: seq<Action>, w: World)
    ensures At(actions, w)
    ensures w == READY.(row := FRESH.(attempts := 1, history := [Started(1)]),
                 executors := map[10 := Executing(1, Phase.Claimed)])
  {
    actions := GetsReady();
    w := READY;
    actions, w := Claims(actions, w, 10);
    actions, w := TakenDown(actions, w);
    actions, w := Restored(actions, w);
    actions, w := Requeued(actions, w);
  }

  /** Then a second executor fails with attempt 2. */
  lemma LaterAttemptFails() returns (actions: seq<Action>, w: World)
    ensures At(actions, w)
    ensures w.row == Publication(1, AstroBox, Pending, 2, 60, None, None, [Started(1), Started(2), Retry(2, 60)])
    ensures w.executors == map[10 := Executing(1, Phase.Claimed)] && w.locks == map[] && w.reopens == map[]
    ensures w.moderation == Visible && w.now == 0
  {
    actions, w := RequeuedAfterClaim();
    actions, w := Claims(actions, w, 11);
    actions, w := Locks(actions, w, 11);
    actions, w := Checks(actions, w, 11);
    actions, w := Fails(actions, w, 11);
    assert w.locks == map[0 := 11];
    actions, w := Unlocks(actions, w, 11);
    assert RetryDelay(2) == 60;
  }

  /** Then a third one claims, and the first locks and is let through. */
  lemma EarlierAttemptCalls() returns (actions: seq<Action>, w: World)
    ensures At(actions, w)
    ensures IsAstroRow(w.row) && w.row.state == Running
            && w.row.history == [Started(1), Started(2), Retry(2, 60), Started(3)]
    ensures 10 in w.executors && w.executors[10] == Executing(1, Calling)
  {
    actions, w := LaterAttemptFails();
    actions, w := Ticks(actions, w, 60);
    actions, w := Claims(actions, w, 12);
    actions, w := Locks(actions, w, 10);
    actions, w := Checks(actions, w, 10);
  }

  /** Three executors: the first stalls between its claim and its lock while the
    publication is cancelled and requeued; the second fails with attempt 2; the
    third claims again, which makes the row running, so that the first passes its
    check and is about to fail with attempt 1. One coordinator process runs one
    executor at a time, so this takes several of them. */
  lemma DelayShrinksSomewhere() returns (actions: seq<Action>, e: Id)
    ensures var s := Reach(actions);
            && InPhase(s, e, Calling)
            && var p := s.executors[e].publication;
            && DelaysGrow(s.publications[p].history)
            && p in Apply(s, Fail(e)).publications && !DelaysGrow(Apply(s, Fail(e)).publications[p].history)
  {
    var w: World;
    actions, w := EarlierAttemptCalls();
    e := 10;
    var s := Reach(actions);
    var history := s.publications[ASTRO].history;
    assert InPhase(s, e, Calling) && s.executors[e].publication == ASTRO && s.executors[e].attempt == 1;
    assert history[2] == Retry(2, 60);
    DelayShrinksIff(actions, e);
    assert ApplyExecutorStep(s, Fail(e)) == DoFail(s, e);
  }
}
