/** Decisions on submitted revisions, and the transactions that moderate,
  delete, retry, cancel or reopen what was decided. */
module Reviews {
  import opened Common
  import opened Counting
  import opened Tables
  import opened Steps
  import opened Database
  import opened Invariants
  import opened Guarantees
  import opened Batches

  // -------------------------------------------------------------- statements

  /** The case and the revision take the decided state. */
  function Decide(s: State, v: Id, approve: bool): State
    requires v in s.revisions
  {
    s.(
    cases := s.cases[v := if approve then CaseApproved else CaseRejected],
    revisions := s.revisions[v := s.revisions[v].(state := if approve then Approved else Rejected)])
  }

  /** UPDATE resource_revisions previous SET state='superseded' ... */
  function SupersedeCurrent(s: State, r: Id, v: Id): State
    requires r in s.resources
  {
    s.(revisions := map w | w in s.revisions ::
      if s.resources[r].current == Some(w) && w != v && s.revisions[w].state == Approved
      then s.revisions[w].(state := Superseded)
      else s.revisions[w])
  }

  function SetCurrent(s: State, r: Id, v: Id): State
    requires r in s.resources
  {
    s.(resources := s.resources[r := s.resources[r].(current := Some(v))])
  }

  function ReleaseRows(s: State, v: Id): State {
    s.(publications := map p | p in s.publications ::
      if s.publications[p].revision == v
      then s.publications[p].(state := if s.publications[p].target == OronBox then Published else Pending)
      else s.publications[p])
  }

  function WithdrawRows(s: State, v: Id): State {
    s.(publications := map p | p in s.publications ::
      if s.publications[p].revision == v then s.publications[p].(state := Cancelled) else s.publications[p])
  }

  /** UPDATE resources SET moderation_state='visible' ... WHERE moderation_state='suspended' */
  function LiftSuspension(s: State, r: Id): State
    requires r in s.resources
  {
    if s.resources[r].moderation != Suspended then s
    else s.(resources := s.resources[r := s.resources[r].(moderation := Visible, moderatedBy := None)])
  }

  lemma DecisionTables(s: State, v: Id, approve: bool)
    requires v in s.revisions && s.revisions[v].resource in s.resources
    ensures var r := s.revisions[v].resource;
            && (!approve ==> Decide(s, v, approve).revisions == DecidedRevisions(s, v, approve))
            && (approve ==>
                  SupersedeCurrent(Bump(Decide(s, v, approve), r), r, v).revisions == DecidedRevisions(s, v, approve))
            && (!approve ==> WithdrawRows(s, v).publications == DecidedPublications(s, v, approve))
            && (approve ==> ReleaseRows(s, v).publications == DecidedPublications(s, v, approve))
  {
  }

  lemma ApprovalInOrder(s: State, v: Id)
    requires v in s.revisions && s.revisions[v].resource in s.resources
    ensures var r := s.revisions[v].resource;
            LiftSuspension(ReleaseRows(SetCurrent(SupersedeCurrent(Bump(Decide(s, v, true), r), r, v), r, v), v), r)
            == DoDecide(s, v, true)
  {
    DecisionTables(s, v, true);
    var r := s.revisions[v].resource;
    var t := SetCurrent(SupersedeCurrent(Bump(Decide(s, v, true), r), r, v), r, v);
    assert ReleaseRows(t, v).publications == ReleaseRows(s, v).publications;
    assert LiftSuspension(t, r).resources == s.resources[r := AfterApproval(s.resources[r], v)];
  }

  lemma RejectionInOrder(s: State, v: Id)
    requires v in s.revisions && s.revisions[v].resource in s.resources
    ensures WithdrawRows(Decide(s, v, false), v) == DoDecide(s, v, false)
  {
  }

  // ------------------------------------------------------------ transactions

  /** decideReview: one decision inside the caller's transaction. The case and
    the revision are written before the lock is tried, so after a conflict the
    caller has to roll back. */
  method DecideReview(d: Database, v: Id, approve: bool) returns (result: Result)
    modifies d
    ensures result.Ok? <==> CanDecide(old(d.db), v)
    ensures result.Ok? ==> d.db == DoDecide(old(d.db), v, approve)
  {
    var s := d.db;
    if v !in s.cases || s.cases[v] != CasePending {
      return Conflict;
    }
    d.db := s.(cases := s.cases[v := if approve then CaseApproved else CaseRejected]);
    if v !in s.revisions || s.revisions[v].resource !in s.resources {
      return NotFound;
    }
    d.db := d.db.(revisions := s.revisions[v := s.revisions[v].(state := if approve then Approved else Rejected)]);
    var r := s.revisions[v].resource;
    if !LockFree(s, r) {
      return Conflict;
    }
    if approve {
      ApprovalInOrder(s, v);
      d.db := Bump(d.db, r);
      d.db := SupersedeCurrent(d.db, r, v);
      d.db := SetCurrent(d.db, r, v);
      d.db := ReleaseRows(d.db, v);
      d.db := LiftSuspension(d.db, r);
    } else {
      RejectionInOrder(s, v);
      d.db := WithdrawRows(d.db, v);
    }
    result := Ok;
  }

  method Review(d: Database, v: Id, approve: bool) returns (result: Result)
    modifies d
    ensures result.Ok? <==> CanDecide(old(d.db), v)
    ensures d.db == if result.Ok? then DoDecide(old(d.db), v, approve) else old(d.db)
  {
    var begin := d.db;
    result := DecideReview(d, v, approve);
    if !result.Ok? {
      d.db := begin;
    }
  }

  /** SELECT ... WHERE review.id=ANY(...) AND review.state='pending'. The order
    of the rows is the database's own. */
  ghost predicate IsPendingAmong(s: State, vs: seq<Id>, rows: seq<Id>) {
    Distinct(rows) && forall v :: v in rows <==> v in vs && v in s.cases && s.cases[v] == CasePending
  }

  method ReviewBatch(d: Database, vs: seq<Id>, rows: seq<Id>, approve: bool) returns (result: Result)
    requires Inv(d.db) && IsPendingAmong(d.db, vs, rows)
    modifies d
    ensures d.db == DoReviewBatch(old(d.db), vs, approve)
    ensures result.Ok? <==> CanStartBatch(old(d.db), vs) && forall v :: v in vs ==> CanDecide(old(d.db), v)
  {
    if |vs| == 0 || |vs| > MAX_BATCH {
      return Invalid;
    }
    var begin := d.db;
    CountDecides(vs, rows);
    if CanStartBatch(begin, vs) { AllPendingAreRead(begin, vs, rows); }
    if |rows| != |vs| {
      return Conflict;
    }
    OrderIsIrrelevant(begin, vs, rows, approve);
    BatchSucceeds(begin, vs, approve);
    for i := 0 to |rows|
      invariant DecideAll(d.db, rows[i..], approve) == DecideAll(begin, rows, approve)
    {
      assert rows[i..][0] == rows[i] && rows[i..][1..] == rows[i + 1..];
      var outcome := DecideReview(d, rows[i], approve);
      if !outcome.Ok? {
        d.db := begin;
        return outcome;
      }
    }
    result := Ok;
  }

  lemma AllPendingAreRead(s: State, vs: seq<Id>, rows: seq<Id>)
    requires IsPendingAmong(s, vs, rows) && CanStartBatch(s, vs)
    ensures |rows| == |vs|
  {
    ElementCount(vs);
    ElementCount(rows);
    forall v ensures v in Elements(vs) <==> v in Elements(rows) { assert v in vs <==> v in rows; }
    assert Elements(vs) == Elements(rows);
  }

  // ----------------------------------------------- moderation and deletion

  /** SetModeration: the owner's takedown or restore. */
  method SetModeration(d: Database, owner: Id, r: Id, takedown: bool) returns (result: Result)
    modifies d
    ensures result.Ok? <==> if takedown then CanTakedown(old(d.db), owner, r) else CanRestore(old(d.db), owner, r)
    ensures d.db == if !result.Ok? then old(d.db) else if takedown then DoTakedown(old(d.db), r)
                    else DoRestore(old(d.db), r)
  {
    if r !in d.db.resources || d.db.resources[r].owner != owner {
      return NotFound;
    }
    var resource := d.db.resources[r];
    if resource.moderation == Deleted {
      return Conflict;
    }
    if takedown {
      if resource.moderation == Frozen || (resource.moderation == Suspended && resource.moderatedBy != Some(Owner)) {
        return Conflict;
      }
      if resource.moderation != Suspended {
        AllRowsCancelled(d.db, r, DISPATCHED);
        d.db := CancelRows(d.db, r, None, DISPATCHED);
      }
      d.db := d.db.(resources := d.db.resources[r := resource.(moderation := Suspended, moderatedBy := Some(Owner))]);
    } else {
      if resource.moderation != Suspended || resource.moderatedBy != Some(Owner) {
        return Conflict;
      }
      d.db := d.db.(resources := d.db.resources[r := resource.(moderation := Visible, moderatedBy := None)]);
    }
    result := Ok;
  }

  lemma AllRowsCancelled(s: State, r: Id, states: set<PublicationState>)
    ensures CancelRows(s, r, None, states).publications
         == map p | p in s.publications ::
              if IsFor(s, p, r) && s.publications[p].state in states then s.publications[p].(state := Cancelled)
              else s.publications[p]
  {
  }

  /** AdminManageResource: suspend, freeze, or restore to visible. */
  method AdminModerate(d: Database, r: Id, m: Moderation) returns (result: Result)
    requires m != Deleted
    modifies d
    ensures result.Ok? <==> r in old(d.db).resources
    ensures d.db == if CanAdminModerate(old(d.db), r, m) then DoAdminModerate(old(d.db), r, m) else old(d.db)
  {
    if r !in d.db.resources {
      return NotFound;
    }
    var resource := d.db.resources[r];
    if resource.moderation == m {
      return Ok;
    }
    if m == Visible {
      d.db := d.db.(resources := d.db.resources[r := resource.(moderation := Visible, moderatedBy := None)]);
    } else {
      d.db := d.db.(resources := d.db.resources[r := resource.(moderation := m, moderatedBy := Some(Administrator))]);
      AllRowsCancelled(d.db, r, WAITING);
      d.db := CancelRows(d.db, r, None, WAITING);
    }
    result := Ok;
  }

  /** Delete. `remoteTargets` says whether a remote copy has to be removed. */
  method Delete(d: Database, owner: Id, r: Id, remoteTargets: bool) returns (result: Result)
    modifies d
    ensures d.db == if CanDelete(old(d.db), owner, r) then DoDelete(old(d.db), r, remoteTargets) else old(d.db)
    ensures result.Ok? <==> r in old(d.db).resources && old(d.db).resources[r].owner == owner && LockFree(old(d.db), r)
  {
    var s := d.db;
    if !LockFree(s, r) {
      return Conflict;
    }
    if r !in s.resources || s.resources[r].owner != owner {
      return NotFound;
    }
    var history := exists p :: p in s.publications && IsFor(s, p, r);
    if r in s.deletions {
      return Ok;
    }
    d.db := d.db.(deletions := s.deletions + {r});
    d.db := d.db.(publications := map p | p in s.publications ::
      if IsFor(s, p, r) && s.publications[p].state in {Pending, Running, Reviewing, Failed}
      then s.publications[p].(state := Cancelled, lease := None) else s.publications[p]);
    if !history && !remoteTargets {
      NoRowsToCancel(s, r);
      d.db := d.db.(
      resources := s.resources - {r},
      revisions := (map v | v in s.revisions && s.revisions[v].resource != r :: s.revisions[v]),
      cases := (map v | v in s.cases && !BelongsTo(s, v, r) :: s.cases[v]));
    } else {
      d.db := d.db.(resources :=
      s.resources[r := Bumped(s.resources[r].(moderation := Deleted, moderatedBy := Some(Owner)))]);
    }
    result := Ok;
  }

  lemma NoRowsToCancel(s: State, r: Id)
    requires !HasHistory(s, r)
    ensures s.publications == map p | p in s.publications ::
                                if IsFor(s, p, r) && s.publications[p].state in {Pending, Running, Reviewing, Failed}
                                then s.publications[p].(state := Cancelled, lease := None) else s.publications[p]
  {
  }

  // ------------------------------------------------ retry, cancel and reopen

  /** managePublication with "retry"; `owner` is the requesting creator, or
    None for an administrator. */
  method Requeue(d: Database, p: Id, owner: Option<Id>) returns (result: Result)
    modifies d
    ensures result.Ok? <==> CanRequeue(old(d.db), p, owner)
    ensures d.db == if result.Ok? then DoRequeue(old(d.db), p) else old(d.db)
  {
    var s := d.db;
    if p !in s.publications || s.publications[p].revision !in s.revisions {
      return NotFound;
    }
    var r := s.revisions[s.publications[p].revision].resource;
    if r !in s.resources || (owner.Some? && s.resources[r].owner != owner.value) {
      return NotFound;
    }
    if !(s.publications[p].state in {Failed, Cancelled} && LeaseFree(s.publications[p], s.now)
         && Eligible(s, s.publications[p].revision)) {
      return Conflict;
    }
    d.db := s.(publications := s.publications[p := s.publications[p].(state := Pending, nextAttempt := s.now)]);
    result := Ok;
  }

  /** managePublication with "cancel". */
  method CancelPublication(d: Database, p: Id) returns (result: Result)
    modifies d
    ensures result.Ok? <==> CanCancel(old(d.db), p)
    ensures d.db == if result.Ok? then DoCancel(old(d.db), p) else old(d.db)
  {
    if p !in d.db.publications {
      return NotFound;
    }
    var row := d.db.publications[p];
    if row.state !in {Pending, Failed, Reviewing} || !LeaseFree(row, d.db.now) {
      return Conflict;
    }
    d.db := d.db.(publications := d.db.publications[p := row.(state := Cancelled, lease := None)]);
    result := Ok;
  }

  /** The rows the filtered query locks; whether the revision is approved is
    looked at later, row by row. */
  predicate IsCandidate(s: State, p: Id) {
    && p in s.publications
    && s.publications[p].state == Failed
    && LeaseFree(s.publications[p], s.now)
    && var v := s.publications[p].revision;
    && v in s.revisions
    && s.revisions[v].resource in s.resources
    && s.resources[s.revisions[v].resource].moderation == Visible
    && s.resources[s.revisions[v].resource].current == Some(v)
  }

  function Candidates(s: State, selected: set<Id>): set<Id> {
    set p | p in selected && IsCandidate(s, p)
  }

  predicate IsApproved(s: State, p: Id) {
    p in s.publications && s.publications[p].revision in s.revisions
    && s.revisions[s.publications[p].revision].state == Approved
  }

  /** AdminRetryFailedPublications. `selected` is what the list filters let
    through. */
  method RetryFailed(d: Database, selected: set<Id>) returns (matched: nat, retried: nat)
    modifies d
    ensures d.db == DoRequeueFailed(old(d.db), selected)
    ensures matched == |Candidates(old(d.db), selected)|
    ensures (forall p :: p in Candidates(old(d.db), selected) ==> IsApproved(old(d.db), p)) ==> retried == matched
  {
    var s := d.db;
    var candidates := Candidates(s, selected);
    matched, retried := |candidates|, 0;
    var todo := candidates;
    while todo != {}
      invariant todo <= candidates
      invariant (forall p :: p in candidates ==> IsApproved(s, p)) ==> retried + |todo| == matched
      invariant d.db == s.(publications := Requeued(s, candidates - todo))
      decreases |todo|
    {
      var p :| p in todo;
      OneMoreRequeued(s, candidates - todo, p);
      if IsApproved(s, p) {
        d.db := d.db.(publications :=
        d.db.publications[p := d.db.publications[p].(state := Pending, nextAttempt := d.db.now)]);
        retried := retried + 1;
      }
      assert candidates - (todo - {p}) == candidates - todo + {p};
      todo := todo - {p};
    }
    AllRequeued(s, selected);
    assert candidates - todo == candidates;
  }

  /** A current revision is approved, so in a reachable state every matching row
    is retried. */
  lemma NoCandidateIsSkipped(s: State, selected: set<Id>)
    requires Inv(s)
    ensures forall p :: p in Candidates(s, selected) ==> IsApproved(s, p)
    ensures Candidates(s, selected) == set p | p in selected && IsRetryable(s, p)
  {
    forall p | p in Candidates(s, selected) ensures IsApproved(s, p) {
      assert RevisionOk(s, s.publications[p].revision);
    }
  }

  lemma AllRequeued(s: State, selected: set<Id>)
    ensures Requeued(s, Candidates(s, selected)) == DoRequeueFailed(s, selected).publications
  {
  }

  function Requeued(s: State, rows: set<Id>): map<Id, Publication> {
    map p | p in s.publications ::
      if p in rows && IsApproved(s, p) then s.publications[p].(state := Pending, nextAttempt := s.now)
      else s.publications[p]
  }

  lemma OneMoreRequeued(s: State, rows: set<Id>, p: Id)
    requires p in s.publications && p !in rows
    ensures Requeued(s, rows)[p] == s.publications[p]
    ensures Requeued(s, rows + {p})
         == if IsApproved(s, p) then Requeued(s, rows)[p := s.publications[p].(state := Pending, nextAttempt := s.now)]
            else Requeued(s, rows)
  {
  }

  /** RequestAstroBoxReopen for the case of revision `v`, whose AstroBox
    publication is `p`, up to the point where it calls the external site. */
  method StartReopen(d: Database, owner: Id, v: Id, p: Id) returns (result: Result)
    modifies d
    ensures result.Ok? <==> CanReopen(old(d.db), owner, v, p)
    ensures d.db == if result.Ok? then DoReopen(old(d.db), v, p) else old(d.db)
  {
    var s := d.db;
    if v !in s.cases || v !in s.revisions || s.revisions[v].resource !in s.resources
       || s.resources[s.revisions[v].resource].owner != owner
       || p !in s.publications || s.publications[p].revision != v || s.publications[p].target != AstroBox {
      return NotFound;
    }
    var r := s.revisions[v].resource;
    var newer := exists q ::
      q in s.publications && IsFor(s, q, r) && s.publications[q].target == AstroBox
      && s.publications[q].state != Cancelled
      && s.revisions[s.publications[q].revision].number > s.revisions[v].number;
    if s.resources[r].moderation != Visible || s.publications[p].state !in {Reviewing, Failed} || newer {
      return Conflict;
    }
    if !LockFree(s, r) {
      return Conflict;
    }
    d.db := s.(reopens := s.reopens[r := p]);
    result := Ok;
  }

  /** The rest of it, after the external call; `performed` is whether that went
    through. Afterwards the lock is free, and a performed request has left its
    publication in review and without a lease, whatever it was before. */
  method FinishReopen(d: Database, r: Id, performed: bool)
    requires Inv(d.db) && r in d.db.reopens
    modifies d
    ensures d.db == DoReopenEnd(old(d.db), r, performed)
    ensures LockFree(d.db, r)
    ensures var p := old(d.db).reopens[r];
            performed ==>
              && p in d.db.publications
              && d.db.publications[p].state == Reviewing && d.db.publications[p].lease == None
  {
    assert ReopenOk(d.db, r);
    var p := d.db.reopens[r];
    if performed {
      d.db := d.db.(publications :=
      d.db.publications[p := d.db.publications[p].(state := Reviewing, lease := None, nextAttempt := d.db.now)]);
    }
    d.db := d.db.(reopens := d.db.reopens - {r});
  }
}
