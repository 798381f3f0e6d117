/** What holds in every interleaving of the review, publication and deletion
  transactions. */
module Theorems {
  import opened Common
  import opened Tables
  import opened Steps
  import opened Invariants
  import opened Decision

  function Reach(actions: seq<Action>): State {
    Run(INITIAL, actions)
  }

  lemma ReachOk(actions: seq<Action>)
    ensures Inv(Reach(actions))
  {
    InitialOk();
    RunKeeps(INITIAL, actions);
  }

  // -------------------------------------------------- one executor at a time

  /** Two executors that are past the lock work on different resources. */
  lemma OneExecutorPerResource(actions: seq<Action>, e: Id, f: Id)
    requires var s := Reach(actions); e in s.executors && f in s.executors && e != f
    requires var s := Reach(actions); s.executors[e].phase != Claimed && s.executors[f].phase != Claimed
    ensures var s := Reach(actions); s.executors[e].resource != s.executors[f].resource
  {
    var s := Reach(actions);
    ReachOk(actions);
    assert ExecutorOk(s, e) && ExecutorOk(s, f);
  }

  /** From its eligibility check until it unlocks, an executor's revision is
    approved and current, and its resource has not been deleted. */
  lemma ExecutedRevisionIsCurrent(actions: seq<Action>, e: Id)
    requires var s := Reach(actions); e in s.executors && s.executors[e].phase in {Calling, Finished}
    ensures var s := Reach(actions);
            var x := s.executors[e];
            && x.revision in s.revisions && s.revisions[x.revision].state == Approved
            && x.resource in s.resources && s.resources[x.resource].current == Some(x.revision)
            && s.resources[x.resource].moderation != Deleted
            && x.resource in s.locks && s.locks[x.resource] == e
  {
    var s := Reach(actions);
    ReachOk(actions);
    assert ExecutorOk(s, e) && RevisionOk(s, s.executors[e].revision);
  }

  /** The step would lock, decide, delete or reopen something of resource `r`. */
  ghost predicate Contends(s: State, a: Action, r: Id) {
    || (a.Lock? && a.executor in s.executors && s.executors[a.executor].resource == r)
    || (a.Review? && BelongsTo(s, a.revision, r))
    || (a.ReviewBatch? && exists v :: v in a.revisions && BelongsTo(s, v, r))
    || (a.Delete? && a.resource == r)
    || (a.Reopen? && BelongsTo(s, a.revision, r))
  }

  lemma {:induction false} BatchNeedsEveryLock(s: State, vs: seq<Id>, approve: bool, v: Id)
    requires v in vs && v in s.revisions && !LockFree(s, s.revisions[v].resource)
    ensures DecideAll(s, vs, approve) == None
    decreases |vs|
  {
    if CanDecide(s, vs[0]) {
      var t := DoDecide(s, vs[0], approve);
      assert v in vs[1..];
      assert v in t.revisions && t.revisions[v].resource == s.revisions[v].resource;
      BatchNeedsEveryLock(t, vs[1..], approve, v);
    }
  }

  /** While an executor or a reopen request holds the lock of `r`, those
    transactions abort and no other executor gets past its lock. */
  lemma LockedResourceIsLeftAlone(s: State, a: Action, r: Id)
    requires !LockFree(s, r) && Contends(s, a, r)
    ensures Apply(s, a) == s
  {
    if a.ReviewBatch? {
      var v :| v in a.revisions && BelongsTo(s, v, r);
      BatchNeedsEveryLock(s, a.revisions, a.approve, v);
    }
  }

  /** A reopen request and an executor never hold the lock of one resource
    together. */
  lemma ReopenExcludesExecutor(actions: seq<Action>, r: Id)
    requires r in Reach(actions).reopens
    ensures r !in Reach(actions).locks
    ensures forall e :: e in Reach(actions).executors && Reach(actions).executors[e].resource == r ==>
                          Reach(actions).executors[e].phase == Claimed
  {
    var s := Reach(actions);
    ReachOk(actions);
    assert ReopenOk(s, r);
    forall e | e in s.executors && s.executors[e].resource == r ensures s.executors[e].phase == Claimed {
      assert ExecutorOk(s, e);
    }
  }

  // ----------------------------------------------------------------- deletion

  ghost predicate Hidden(s: State, r: Id) {
    r in s.resources ==> s.resources[r].moderation == Deleted
  }

  ghost predicate CallInFlight(s: State, r: Id) {
    exists e :: e in s.executors && s.executors[e].resource == r && s.executors[e].phase == Calling
  }

  lemma {:induction false} BatchKeepsModeration(s: State, vs: seq<Id>, approve: bool, r: Id)
    requires DecideAll(s, vs, approve).Some?
    ensures var t := DecideAll(s, vs, approve).value;
            t.resources.Keys == s.resources.Keys
            && (r in s.resources && s.resources[r].moderation == Deleted ==> t.resources[r].moderation == Deleted)
    decreases |vs|
  {
    if vs == [] {
    } else {
      BatchKeepsModeration(DoDecide(s, vs[0], approve), vs[1..], approve, r);
    }
  }

  lemma OtherStepsLeaveResources(s: State, a: Action)
    ensures IsExecutorStep(a) ==> ApplyExecutorStep(s, a).resources == s.resources
    ensures IsPollStep(a) ==> ApplyPollStep(s, a).resources == s.resources
  {
  }

  lemma RevisionStepsKeepHidden(s: State, a: Action, r: Id)
    requires IsRevisionStep(a) && Hidden(s, r) && r < s.next
    ensures Hidden(ApplyRevisionStep(s, a), r)
  {
    if a.ReviewBatch? {
      if DecideAll(s, a.revisions, a.approve).Some? { BatchKeepsModeration(s, a.revisions, a.approve, r); }
    }
  }

  /** The step is an administrator's moderation of `r`. */
  ghost predicate Revives(s: State, a: Action, r: Id) {
    a.AdminModerate? && a.resource == r && a.moderation != Deleted && r in s.resources
  }

  lemma RowStepsKeepHidden(s: State, a: Action, r: Id)
    requires IsRowStep(a) && Hidden(s, r)
    ensures Hidden(ApplyRowStep(s, a), r) || Revives(s, a, r)
  {
  }

  lemma HiddenStep(s: State, a: Action, r: Id)
    requires Hidden(s, r) && r < s.next
    ensures Hidden(Apply(s, a), r) || Revives(s, a, r)
  {
    if IsRevisionStep(a) { RevisionStepsKeepHidden(s, a, r); }
    else if IsRowStep(a) { RowStepsKeepHidden(s, a, r); }
    else { OtherStepsLeaveResources(s, a); }
  }

  /** Of all the steps, only an administrator's moderation action brings a
    deleted resource back, and every such action does. */
  lemma OnlyAdminRevives(s: State, a: Action, r: Id)
    requires r in s.resources && s.resources[r].moderation == Deleted && r < s.next
    ensures !Hidden(Apply(s, a), r) <==> a.AdminModerate? && a.resource == r && a.moderation != Deleted
  {
    HiddenStep(s, a, r);
  }

  lemma {:induction false} BatchKeepsNext(s: State, vs: seq<Id>, approve: bool)
    ensures DecideAll(s, vs, approve).Some? ==> DecideAll(s, vs, approve).value.next == s.next
    decreases |vs|
  {
    if vs != [] && CanDecide(s, vs[0]) { BatchKeepsNext(DoDecide(s, vs[0], approve), vs[1..], approve); }
  }

  lemma RevisionStepNextGrows(s: State, a: Action)
    requires IsRevisionStep(a)
    ensures s.next <= ApplyRevisionStep(s, a).next
  {
    if a.ReviewBatch? { BatchKeepsNext(s, a.revisions, a.approve); }
  }

  lemma RowStepNextGrows(s: State, a: Action)
    requires IsRowStep(a)
    ensures s.next <= ApplyRowStep(s, a).next
  {
  }

  lemma ExecutorStepNextGrows(s: State, a: Action)
    requires IsExecutorStep(a)
    ensures s.next <= ApplyExecutorStep(s, a).next
  {
  }

  lemma PollStepNextGrows(s: State, a: Action)
    requires IsPollStep(a)
    ensures s.next <= ApplyPollStep(s, a).next
  {
  }

  lemma NextGrows(s: State, a: Action)
    ensures s.next <= Apply(s, a).next
  {
    if IsRevisionStep(a) { RevisionStepNextGrows(s, a); }
    else if IsRowStep(a) { RowStepNextGrows(s, a); }
    else if IsExecutorStep(a) { ExecutorStepNextGrows(s, a); }
    else { PollStepNextGrows(s, a); }
  }

  /** After a deletion, whatever is submitted, approved, retried or reopened,
    the resource stays hidden and nothing of it is ever sent out again, unless
    an administrator moderates that resource. */
  lemma {:induction false} DeletionIsFinal(s: State, actions: seq<Action>, r: Id)
    requires Inv(s) && Hidden(s, r) && r < s.next
    requires forall a :: a in actions ==> !(a.AdminModerate? && a.resource == r)
    ensures Inv(Run(s, actions)) && r < Run(s, actions).next
    ensures Hidden(Run(s, actions), r) && !CallInFlight(Run(s, actions), r)
    decreases |actions|
  {
    if actions == [] {
    } else {
      var before := actions[..|actions| - 1];
      var last := actions[|actions| - 1];
      assert last in actions;
      DeletionIsFinal(s, before, r);
      HiddenStep(Run(s, before), last, r);
      NextGrows(Run(s, before), last);
    }
    RunKeeps(s, actions);
    var t := Run(s, actions);
    forall e | e in t.executors && t.executors[e].resource == r ensures t.executors[e].phase != Calling {
      assert ExecutorOk(t, e);
    }
  }

  lemma DeletedRows(s: State, owner: Id, r: Id, remoteTargets: bool, p: Id)
    requires Inv(s) && CanDelete(s, owner, r) && IsFor(DoDelete(s, r, remoteTargets), p, r)
    ensures DoDelete(s, r, remoteTargets).publications[p].state in {Published, Cancelled}
  {
    assert IsFor(s, p, r) && HasHistory(s, r);
    var row := s.publications[p];
    assert PublicationOk(s, p);
    assert DoDelete(s, r, remoteTargets).publications[p].state == if row.state in {Pending, Running, Reviewing, Failed}
                                                                  then Cancelled else row.state;
  }

  /** A committed deletion hides the resource at once, with no call in flight
    and no publication left that could be dispatched, polled or reopened. */
  lemma DeleteCommits(s: State, owner: Id, r: Id, remoteTargets: bool)
    requires Inv(s) && CanDelete(s, owner, r)
    ensures var t := DoDelete(s, r, remoteTargets);
            && t == Apply(s, Delete(owner, r, remoteTargets))
            && Hidden(t, r) && !CallInFlight(t, r) && r !in t.reopens && r < t.next
            && (r !in t.resources <==> !HasHistory(s, r) && !remoteTargets)
            && forall p :: IsFor(t, p, r) ==> t.publications[p].state in {Published, Cancelled}
  {
    var t := DoDelete(s, r, remoteTargets);
    assert ResourceOk(s, r);
    forall e | e in t.executors && t.executors[e].resource == r ensures t.executors[e].phase != Calling {
      assert ExecutorOk(s, e);
    }
    forall p | IsFor(t, p, r) ensures t.publications[p].state in {Published, Cancelled} {
      DeletedRows(s, owner, r, remoteTargets, p);
    }
  }

  /** Deleting again does nothing: a resource has one deletion operation. So a
    deletion request that reports success has hidden the resource exactly when
    it was the first one or the resource was still deleted. */
  lemma RepeatedDelete(s: State, owner: Id, r: Id, remoteTargets: bool)
    requires r in s.resources && s.resources[r].owner == owner && LockFree(s, r)
    ensures Hidden(Apply(s, Delete(owner, r, remoteTargets)), r) <==>
            r !in s.deletions || s.resources[r].moderation == Deleted
  {
  }

  /** A state in which deletion fails its purpose. */
  ghost predicate Revived(s: State, owner: Id, r: Id) {
    r in s.resources && s.resources[r].owner == owner && s.resources[r].moderation == Visible && LockFree(s, r)
    && r in s.deletions
  }

  /** Such a state is reachable: create, delete, revive. */
  lemma RevivedIsReachable()
    ensures Revived(Reach([CreateResource(7), Delete(7, 0, true), AdminModerate(0, Visible)]), 7, 0)
  {
    var create, delete, revive := CreateResource(7), Delete(7, 0, true), AdminModerate(0, Visible);
    RunAppend(INITIAL, [], create);
    RunAppend(INITIAL, [create], delete);
    RunAppend(INITIAL, [create, delete], revive);
    assert [] + [create] == [create] && [create] + [delete] == [create, delete];
    assert [create, delete] + [revive] == [create, delete, revive];
    var created := ApplyRevisionStep(INITIAL, create);
    var deleted := ApplyRevisionStep(created, delete);
    assert 0 in created.resources && created.resources[0] == Resource(7, Visible, None, None, 0);
    assert 0 in deleted.resources && deleted.resources[0].moderation == Deleted && deleted.resources[0].owner == 7;
    assert Reach([create, delete, revive]) == ApplyRowStep(deleted, revive);
  }

  lemma RevivedResourceCannotBeDeleted(remoteTargets: bool)
    ensures var s := Reach([CreateResource(7), Delete(7, 0, true), AdminModerate(0, Visible)]);
            Revived(s, 7, 0) && !Hidden(Apply(s, Delete(7, 0, remoteTargets)), 0)
  {
    var s := Reach([CreateResource(7), Delete(7, 0, true), AdminModerate(0, Visible)]);
    RevivedIsReachable();
    RepeatedDelete(s, 7, 0, remoteTargets);
  }

  lemma RunAppend(s: State, actions: seq<Action>, a: Action)
    ensures Run(s, actions + [a]) == Apply(Run(s, actions), a)
  {
  }
}
