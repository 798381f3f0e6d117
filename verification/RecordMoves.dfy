/** Which step changes a revision or a resource, and how, said in the fields of
  the rows alone. */
module RecordMoves {
  import opened Common
  import opened Tables
  import opened Steps
  import opened Invariants
  import opened Decision
  import opened Submission
  import opened Theorems
  import opened Guarantees
  import opened Transitions

  // --------------------------------------------------------------- revisions

  /** The step decides some revision of resource `r`. */
  ghost predicate DecidesOf(s: State, a: Action, r: Id, approve: bool) {
    exists w :: Decides(s, a, w, approve) && s.revisions[w].resource == r
  }

  /** An administrator's draft of `r` is handed in. */
  ghost predicate HandsIn(s: State, a: Action, r: Id, v: Id) {
    && a.AdminSubmitDraft? && a.ready && a.resource == r && a.revision == v && r in s.resources
    && (a.expected.Some? ==> s.resources[r].editVersion == a.expected.value)
    && v in s.revisions && s.revisions[v].resource == r && s.revisions[v].state == Draft && s.revisions[v].via == Admin
    && Distinct(s.revisions[v].plan)
  }

  /** The creator saves or submits, and the step goes ahead. */
  ghost predicate Saves(s: State, a: Action, r: Id) {
    && a.SaveBundle? && a.resource == r
    && CanSaveBundle(s, a.owner, r, a.plan, a.expected, a.saved, a.number)
  }

  /** The revision after the step, if it is still there. */
  ghost predicate RevisionAsTold(s: State, a: Action, t: State, v: Id)
    requires v in s.revisions && v in t.revisions
  {
    var before, after := s.revisions[v], t.revisions[v];
    && after.resource == before.resource
    && (before.state != Approved && after.state == Approved <==> Decides(s, a, v, true))
    && (before.state != Rejected && after.state == Rejected <==> Decides(s, a, v, false))
    && (before.state != Submitted && after.state == Submitted <==>
        HandsIn(s, a, before.resource, v) || (Saves(s, a, before.resource) && a.submit && a.saved == Some(v)))
    && (before.state != Superseded && after.state == Superseded <==>
        || (before.state == Approved && DecidesOf(s, a, before.resource, true))
        || (&& before.state == Submitted
            && ((Saves(s, a, before.resource) && a.submit)
                || (a.AdminSubmitDraft? && HandsIn(s, a, before.resource, a.revision)))))
    && (after.state == Draft ==> before.state == Draft)
  }

  /** A decision writes the decided revision and the one that it replaces. */
  lemma DecidedRevision(s: State, w: Id, approve: bool, v: Id)
    requires v in s.revisions && RevisionOk(s, v) && CanDecide(s, w) && ResourceOk(s, s.revisions[w].resource)
    ensures v in DoDecide(s, w, approve).revisions
    ensures DoDecide(s, w, approve).revisions[v] == DecidedAs(s, [w], approve, v)
  {
  }

  /** Revision `v` after the revisions `vs` were decided. */
  ghost function DecidedAs(s: State, vs: seq<Id>, approve: bool, v: Id): Revision
    requires v in s.revisions
  {
    var before := s.revisions[v];
    if v in vs then before.(state := if approve then Approved else Rejected)
    else if approve && before.state == Approved
            && exists w :: w in vs && w in s.revisions && s.revisions[w].resource == before.resource
    then before.(state := Superseded)
    else before
  }

  lemma {:induction false} BatchLeavesRevision(s: State, vs: seq<Id>, approve: bool, v: Id)
    requires Inv(s) && v in s.revisions && DecideAll(s, vs, approve).Some?
    requires forall w :: w in vs && w in s.revisions ==> s.revisions[w].resource != s.revisions[v].resource
    ensures v in DecideAll(s, vs, approve).value.revisions
    ensures DecideAll(s, vs, approve).value.revisions[v] == s.revisions[v]
    decreases |vs|
  {
    if vs == [] {
    } else {
      var t := DoDecide(s, vs[0], approve);
      DecideKeeps(s, vs[0], approve);
      assert vs[0] in vs && RevisionOk(s, v) && ResourceOk(s, s.revisions[vs[0]].resource);
      DecidedRevision(s, vs[0], approve, v);
      forall w | w in vs[1..] && w in t.revisions ensures t.revisions[w].resource != t.revisions[v].resource {
        assert w in vs;
      }
      BatchLeavesRevision(t, vs[1..], approve, v);
    }
  }

  /** The cases of a batch are about different resources. */
  lemma BatchIsSpread(s: State, vs: seq<Id>, approve: bool)
    requires Inv(s) && Distinct(vs) && DecideAll(s, vs, approve).Some?
    ensures forall w :: w in vs ==> CanDecide(s, w)
    ensures forall v, w :: v in vs && w in vs && v in s.revisions && w in s.revisions && v != w ==>
                             s.revisions[v].resource != s.revisions[w].resource
  {
    BatchSucceeds(s, vs, approve);
    forall v, w | v in vs && w in vs && v in s.revisions && w in s.revisions && v != w
      ensures s.revisions[v].resource != s.revisions[w].resource
    {
      assert CanDecide(s, v) && CanDecide(s, w);
      assert RevisionOk(s, v) && RevisionOk(s, w) && RevisionPairOk(s, v, w);
    }
  }

  /** A decision about another resource changes nothing for `v`. */
  lemma DecidedElsewhere(s: State, t: State, x: Id, rest: seq<Id>, approve: bool, v: Id)
    requires v in s.revisions && x in s.revisions && s.revisions[x].resource != s.revisions[v].resource
    requires t.revisions.Keys == s.revisions.Keys && t.revisions[v] == s.revisions[v]
    requires forall w :: w in s.revisions ==> t.revisions[w].resource == s.revisions[w].resource
    ensures DecidedAs(t, rest, approve, v) == DecidedAs(s, [x] + rest, approve, v)
  {
    forall w | w in t.revisions && t.revisions[w].resource == s.revisions[v].resource
      ensures w in rest <==> w in [x] + rest
    {
    }
  }

  /** The other way round, nothing is left for the rest of the batch to do. */
  lemma DecidedHere(s: State, x: Id, rest: seq<Id>, approve: bool, v: Id)
    requires v in s.revisions && x in s.revisions && s.revisions[x].resource == s.revisions[v].resource
    requires forall w :: w in rest && w in s.revisions ==> s.revisions[w].resource != s.revisions[v].resource
    ensures DecidedAs(s, [x], approve, v) == DecidedAs(s, [x] + rest, approve, v)
  {
    assert x in [x] && x in [x] + rest;
    assert v in rest ==> v !in s.revisions;
  }

  lemma DecisionKeepsResources(s: State, x: Id, approve: bool)
    requires CanDecide(s, x)
    ensures var t := DoDecide(s, x, approve);
            && t.revisions.Keys == s.revisions.Keys
            && forall w :: w in s.revisions ==> t.revisions[w].resource == s.revisions[w].resource
  {
  }

  lemma FirstDecision(s: State, x: Id, approve: bool, v: Id)
    requires Inv(s) && CanDecide(s, x) && v in s.revisions
    ensures var t := DoDecide(s, x, approve);
            && Inv(t) && v in t.revisions && t.revisions[v] == DecidedAs(s, [x], approve, v)
            && t.revisions.Keys == s.revisions.Keys
            && forall w :: w in s.revisions ==> t.revisions[w].resource == s.revisions[w].resource
  {
    assert RevisionOk(s, v) && ResourceOk(s, s.revisions[x].resource);
    DecideKeeps(s, x, approve);
    DecisionKeepsResources(s, x, approve);
    DecidedRevision(s, x, approve, v);
  }

  lemma {:induction false} BatchRevisions(s: State, vs: seq<Id>, approve: bool, v: Id)
    requires Inv(s) && Distinct(vs) && v in s.revisions && DecideAll(s, vs, approve).Some?
    ensures v in DecideAll(s, vs, approve).value.revisions
    ensures DecideAll(s, vs, approve).value.revisions[v] == DecidedAs(s, vs, approve, v)
    decreases |vs|
  {
    if vs == [] {
    } else {
      var x, rest := vs[0], vs[1..];
      var t := DoDecide(s, x, approve);
      assert vs == [x] + rest;
      FirstDecision(s, x, approve, v);
      if s.revisions[x].resource == s.revisions[v].resource {
        BatchIsSpread(s, vs, approve);
        forall w | w in rest && w in s.revisions ensures s.revisions[w].resource != s.revisions[v].resource {
          assert w in vs && x in vs && w != x;
        }
        BatchLeavesRevision(t, rest, approve, v);
        DecidedHere(s, x, rest, approve, v);
      } else {
        BatchRevisions(t, rest, approve, v);
        DecidedElsewhere(s, t, x, rest, approve, v);
      }
    }
  }

  /** The step is none of those that move revisions, and this one stays. */
  lemma RevisionStays(s: State, a: Action, t: State, v: Id)
    requires v in s.revisions && v in t.revisions
    requires t.revisions[v].resource == s.revisions[v].resource && t.revisions[v].state == s.revisions[v].state
    requires !a.SaveBundle? && !a.AdminSubmitDraft? && !a.Review? && !a.ReviewBatch?
    ensures RevisionAsTold(s, a, t, v)
  {
  }

  lemma SaveAsTold(s: State, a: Action, v: Id)
    requires Inv(s) && a.SaveBundle? && v in s.revisions
    ensures v in ApplyRevisionStep(s, a).revisions ==> RevisionAsTold(s, a, ApplyRevisionStep(s, a), v)
  {
    assert RevisionOk(s, v);
    if Saves(s, a, a.resource) { SavedIdIsFree(s, a.resource, a.saved); }
  }

  lemma AdminSubmitAsTold(s: State, a: Action, v: Id)
    requires a.AdminSubmitDraft? && v in s.revisions
    ensures v in ApplyRevisionStep(s, a).revisions && RevisionAsTold(s, a, ApplyRevisionStep(s, a), v)
  {
  }

  lemma ReviewAsTold(s: State, x: Id, approve: bool, v: Id)
    requires v in s.revisions && RevisionOk(s, v)
    requires x in s.revisions && s.revisions[x].resource in s.resources ==> ResourceOk(s, s.revisions[x].resource)
    ensures v in ApplyRevisionStep(s, Review(x, approve)).revisions
    ensures RevisionAsTold(s, Review(x, approve), ApplyRevisionStep(s, Review(x, approve)), v)
  {
    var a := Review(x, approve);
    if CanDecide(s, x) {
      DecidedRevision(s, x, approve, v);
      assert Decides(s, a, x, approve);
    } else {
      forall w, b ensures !Decides(s, a, w, b) { }
    }
  }

  lemma BatchAsTold(s: State, vs: seq<Id>, approve: bool, v: Id)
    requires Inv(s) && v in s.revisions
    ensures v in DoReviewBatch(s, vs, approve).revisions
    ensures RevisionAsTold(s, ReviewBatch(vs, approve), DoReviewBatch(s, vs, approve), v)
  {
    var a := ReviewBatch(vs, approve);
    assert RevisionOk(s, v);
    if Distinct(vs) { BatchSucceeds(s, vs, approve); }
    if CanStartBatch(s, vs) && DecideAll(s, vs, approve).Some? {
      BatchRevisions(s, vs, approve, v);
      forall w ensures Decides(s, a, w, approve) <==> w in vs { }
    } else {
      forall w, b ensures !Decides(s, a, w, b) { }
    }
  }

  lemma ModerationLeavesRevisions(s: State, owner: Id, r: Id, m: Moderation)
    ensures ApplyRowStep(s, Takedown(owner, r)).revisions == s.revisions
    ensures ApplyRowStep(s, Restore(owner, r)).revisions == s.revisions
    ensures ApplyRowStep(s, AdminModerate(r, m)).revisions == s.revisions
  {
  }

  lemma RowStepsLeaveRevisions(s: State, a: Action)
    requires IsRowStep(a)
    ensures ApplyRowStep(s, a).revisions == s.revisions
  {
    if a.Takedown? || a.Restore? { ModerationLeavesRevisions(s, a.owner, a.resource, Visible); }
    else if a.AdminModerate? { ModerationLeavesRevisions(s, 0, a.resource, a.moderation); }
  }

  lemma ExecutorStepsLeaveRevisions(s: State, a: Action)
    requires IsExecutorStep(a)
    ensures ApplyExecutorStep(s, a).revisions == s.revisions
  {
  }

  lemma PollStepsLeaveRevisions(s: State, a: Action)
    requires IsPollStep(a)
    ensures ApplyPollStep(s, a).revisions == s.revisions
  {
  }

  lemma DraftStepsLeaveStates(s: State, a: Action, v: Id)
    requires v in s.revisions && v < s.next && IsRevisionStep(a)
    requires !a.SaveBundle? && !a.AdminSubmitDraft? && !a.Review? && !a.ReviewBatch?
    ensures var t := ApplyRevisionStep(s, a);
            v in t.revisions ==>
              t.revisions[v].state == s.revisions[v].state && t.revisions[v].resource == s.revisions[v].resource
  {
  }

  lemma OtherStepAsTold(s: State, a: Action, v: Id)
    requires v in s.revisions && v < s.next && v in Apply(s, a).revisions
    requires !a.SaveBundle? && !a.AdminSubmitDraft? && !a.Review? && !a.ReviewBatch?
    ensures RevisionAsTold(s, a, Apply(s, a), v)
  {
    if IsRevisionStep(a) { DraftStepsLeaveStates(s, a, v); }
    else if IsRowStep(a) { RowStepsLeaveRevisions(s, a); }
    else if IsExecutorStep(a) { ExecutorStepsLeaveRevisions(s, a); }
    else { PollStepsLeaveRevisions(s, a); }
    RevisionStays(s, a, Apply(s, a), v);
  }

  /** Exactly these steps move a revision, and each to the state told. */
  lemma RevisionMoves(s: State, a: Action, v: Id)
    requires Inv(s) && v in s.revisions && v in Apply(s, a).revisions
    ensures RevisionAsTold(s, a, Apply(s, a), v)
  {
    assert RevisionOk(s, v);
    if a.SaveBundle? { SaveAsTold(s, a, v); }
    else if a.AdminSubmitDraft? { AdminSubmitAsTold(s, a, v); }
    else if a.Review? {
      if a.revision in s.revisions && s.revisions[a.revision].resource in s.resources {
        assert ResourceOk(s, s.revisions[a.revision].resource);
      }
      ReviewAsTold(s, a.revision, a.approve, v);
    }
    else if a.ReviewBatch? { BatchAsTold(s, a.revisions, a.approve, v); }
    else { OtherStepAsTold(s, a, v); }
  }

  // --------------------------------------------------------------- resources

  ghost predicate TakesDown(s: State, a: Action, r: Id)
    requires r in s.resources
  {
    a.Takedown? && a.resource == r && s.resources[r].owner == a.owner && s.resources[r].moderation == Visible
  }

  ghost predicate Restores(s: State, a: Action, r: Id)
    requires r in s.resources
  {
    && a.Restore? && a.resource == r && s.resources[r].owner == a.owner
    && s.resources[r].moderation == Suspended && s.resources[r].moderatedBy == Some(Owner)
  }

  ghost predicate Moderates(s: State, a: Action, r: Id, m: Moderation)
    requires r in s.resources
  {
    a.AdminModerate? && a.resource == r && a.moderation == m && s.resources[r].moderation != m
  }

  ghost predicate Deletes(s: State, a: Action, r: Id)
    requires r in s.resources
  {
    a.Delete? && a.resource == r && s.resources[r].owner == a.owner && IsUnlocked(s, r) && r !in s.deletions
  }

  /** An administrator starts a draft, of which there is none yet, or edits one or
    a revision that waits for review. */
  ghost predicate Drafts(s: State, a: Action, r: Id)
    requires r in s.resources
  {
    || (&& a.AdminCreateDraft? && a.resource == r && a.base in s.revisions && s.revisions[a.base].resource == r
        && (a.expected.Some? ==> s.resources[r].editVersion == a.expected.value)
        && (forall v :: v in s.revisions && s.revisions[v].resource == r ==>
                          s.revisions[v].state != Draft || s.revisions[v].via != Admin)
        && IsNextNumber(s, r, a.number, false))
    || (&& a.AdminUpdateDraft? && a.resource == r && a.revision in s.revisions && s.revisions[a.revision].resource == r
        && (a.expected.Some? ==> s.resources[r].editVersion == a.expected.value)
        && (|| (s.revisions[a.revision].state == Draft && s.revisions[a.revision].via == Admin)
            || (&& s.revisions[a.revision].state == Submitted
                && a.revision in s.cases && s.cases[a.revision] == CasePending)))
  }

  /** The step is an edit of `r`, and it goes ahead. */
  ghost predicate Edits(s: State, a: Action, r: Id)
    requires r in s.resources
  {
    || Saves(s, a, r)
    || Drafts(s, a, r)
    || (a.AdminSubmitDraft? && HandsIn(s, a, r, a.revision))
    || DecidesOf(s, a, r, true)
    || Deletes(s, a, r)
  }

  /** The resource after the step, if it is still there. */
  ghost predicate ResourceAsTold(s: State, a: Action, t: State, r: Id)
    requires r in s.resources && r in t.resources
  {
    var before, after := s.resources[r], t.resources[r];
    && after.owner == before.owner
    && after.editVersion == (if Edits(s, a, r) then before.editVersion + 1 else before.editVersion)
    && (forall w :: Decides(s, a, w, true) && s.revisions[w].resource == r ==> after.current == Some(w))
    && (!DecidesOf(s, a, r, true) ==> after.current == before.current)
    && (before.moderation != Suspended && after.moderation == Suspended <==>
        TakesDown(s, a, r) || Moderates(s, a, r, Suspended))
    && (before.moderation != Frozen && after.moderation == Frozen <==> Moderates(s, a, r, Frozen))
    && (before.moderation != Deleted && after.moderation == Deleted <==>
        Deletes(s, a, r) && before.moderation != Deleted)
    && (before.moderation != Visible && after.moderation == Visible <==>
        || Restores(s, a, r) || Moderates(s, a, r, Visible)
        || (DecidesOf(s, a, r, true) && before.moderation == Suspended))
    && after.moderatedBy == (if TakesDown(s, a, r) || Deletes(s, a, r) then Some(Owner)
                             else if Moderates(s, a, r, Suspended) || Moderates(s, a, r, Frozen)
                             then Some(Administrator)
                             else if before.moderation != Visible && after.moderation == Visible then None
                               else before.moderatedBy)
  }

  /** Nothing happens to the resource, and nothing was to happen. */
  lemma ResourceStays(s: State, a: Action, t: State, r: Id)
    requires r in s.resources && r in t.resources && t.resources[r] == s.resources[r]
    requires !a.SaveBundle? && !a.AdminCreateDraft? && !a.AdminUpdateDraft? && !a.AdminSubmitDraft?
    requires !a.Review? && !a.ReviewBatch? && !a.Delete? && !a.Takedown? && !a.Restore? && !a.AdminModerate?
    ensures ResourceAsTold(s, a, t, r)
  {
  }

  lemma TakedownAsTold(s: State, owner: Id, q: Id, r: Id)
    requires r in s.resources
    ensures CanTakedown(s, owner, q) ==>
              r in DoTakedown(s, q).resources && ResourceAsTold(s, Takedown(owner, q), DoTakedown(s, q), r)
    ensures !CanTakedown(s, owner, q) ==> ResourceAsTold(s, Takedown(owner, q), s, r)
  {
  }

  lemma RestoreAsTold(s: State, owner: Id, q: Id, r: Id)
    requires r in s.resources
    ensures CanRestore(s, owner, q) ==>
              r in DoRestore(s, q).resources && ResourceAsTold(s, Restore(owner, q), DoRestore(s, q), r)
    ensures !CanRestore(s, owner, q) ==> ResourceAsTold(s, Restore(owner, q), s, r)
  {
  }

  lemma AdminModerateAsTold(s: State, q: Id, m: Moderation, r: Id)
    requires r in s.resources
    ensures CanAdminModerate(s, q, m) ==>
              r in DoAdminModerate(s, q, m).resources
              && ResourceAsTold(s, AdminModerate(q, m), DoAdminModerate(s, q, m), r)
    ensures !CanAdminModerate(s, q, m) ==> ResourceAsTold(s, AdminModerate(q, m), s, r)
  {
  }

  lemma DeleteAsTold(s: State, owner: Id, q: Id, remoteTargets: bool, r: Id)
    requires r in s.resources
    ensures CanDelete(s, owner, q) && r in DoDelete(s, q, remoteTargets).resources ==>
              ResourceAsTold(s, Delete(owner, q, remoteTargets), DoDelete(s, q, remoteTargets), r)
    ensures !CanDelete(s, owner, q) ==> ResourceAsTold(s, Delete(owner, q, remoteTargets), s, r)
  {
  }

  lemma SaveEditAsTold(s: State, a: Action, v: Id, r: Id)
    requires r in s.resources && a.SaveBundle?
    ensures Saves(s, a, a.resource) ==>
              var t := DoSaveBundle(s, a.resource, v, a.plan, a.submit, a.number);
              r in t.resources && ResourceAsTold(s, a, t, r)
    ensures !Saves(s, a, a.resource) ==> ResourceAsTold(s, a, s, r)
  {
  }

  lemma DraftStartAsTold(s: State, a: Action, r: Id)
    requires r in s.resources && a.AdminCreateDraft?
    ensures var can := CanAdminCreateDraft(s, a.resource, a.base, a.expected, a.number);
            && (can ==>
                  var t := DoAdminCreateDraft(s, a.resource, a.base, a.plan, a.number);
                  r in t.resources && ResourceAsTold(s, a, t, r))
            && (!can ==> ResourceAsTold(s, a, s, r))
  {
  }

  lemma DraftEditAsTold(s: State, a: Action, r: Id)
    requires r in s.resources && a.AdminUpdateDraft?
    ensures var can := && a.resource in s.resources && VersionMatches(s, a.resource, a.expected)
                       && IsAdminEditable(s, a.resource, a.revision);
            && (can ==>
                  var t := DoAdminUpdateDraft(s, a.resource, a.revision, a.plan);
                  r in t.resources && ResourceAsTold(s, a, t, r))
            && (!can ==> ResourceAsTold(s, a, s, r))
  {
  }

  lemma DraftHandedInAsTold(s: State, a: Action, r: Id)
    requires r in s.resources && a.AdminSubmitDraft?
    ensures var can := CanAdminSubmit(s, a.resource, a.revision, a.expected, a.ready);
            && (can ==>
                  var t := DoAdminSubmit(s, a.resource, a.revision);
                  r in t.resources && ResourceAsTold(s, a, t, r))
            && (!can ==> ResourceAsTold(s, a, s, r))
  {
  }

  lemma DraftsAsTold(s: State, a: Action, r: Id)
    requires r in s.resources && (a.AdminCreateDraft? || a.AdminUpdateDraft? || a.AdminSubmitDraft?)
    ensures r in ApplyRevisionStep(s, a).resources && ResourceAsTold(s, a, ApplyRevisionStep(s, a), r)
  {
    if a.AdminCreateDraft? { DraftStartAsTold(s, a, r); }
    else if a.AdminUpdateDraft? { DraftEditAsTold(s, a, r); }
    else { DraftHandedInAsTold(s, a, r); }
  }

  /** A decision writes the resource of the decided revision. */
  lemma DecidedResource(s: State, x: Id, approve: bool, r: Id)
    requires r in s.resources && CanDecide(s, x)
    ensures r in DoDecide(s, x, approve).resources
    ensures DoDecide(s, x, approve).resources[r]
         == if approve && s.revisions[x].resource == r then AfterApproval(s.resources[r], x) else s.resources[r]
  {
  }

  lemma {:induction false} BatchResources(s: State, vs: seq<Id>, approve: bool, r: Id)
    requires Inv(s) && Distinct(vs) && r in s.resources && DecideAll(s, vs, approve).Some?
    ensures r in DecideAll(s, vs, approve).value.resources
    ensures var before, after := s.resources[r], DecideAll(s, vs, approve).value.resources[r];
            && (forall w :: w in vs && approve && BelongsTo(s, w, r) ==> after == AfterApproval(before, w))
            && ((forall w :: w in vs ==> !approve || !BelongsTo(s, w, r)) ==> after == before)
    decreases |vs|
  {
    if vs == [] {
    } else {
      var x, rest := vs[0], vs[1..];
      var t := DoDecide(s, x, approve);
      BatchIsSpread(s, vs, approve);
      DecideKeeps(s, x, approve);
      DecisionKeepsResources(s, x, approve);
      DecidedResource(s, x, approve, r);
      assert vs == [x] + rest && x in vs;
      BatchResources(t, rest, approve, r);
      forall w | w in rest ensures w in vs && w != x && (BelongsTo(t, w, r) <==> BelongsTo(s, w, r)) { }
    }
  }

  lemma ReviewedAsTold(s: State, x: Id, approve: bool, r: Id)
    requires r in s.resources
    ensures CanDecide(s, x) ==>
              r in DoDecide(s, x, approve).resources
              && ResourceAsTold(s, Review(x, approve), DoDecide(s, x, approve), r)
    ensures !CanDecide(s, x) ==> ResourceAsTold(s, Review(x, approve), s, r)
  {
    var a := Review(x, approve);
    if CanDecide(s, x) {
      DecidedResource(s, x, approve, r);
      assert Decides(s, a, x, approve);
    } else {
      forall w, b ensures !Decides(s, a, w, b) { }
    }
  }

  lemma ReviewedBatchAsTold(s: State, vs: seq<Id>, approve: bool, r: Id)
    requires Inv(s) && r in s.resources
    ensures r in DoReviewBatch(s, vs, approve).resources
    ensures ResourceAsTold(s, ReviewBatch(vs, approve), DoReviewBatch(s, vs, approve), r)
  {
    var a := ReviewBatch(vs, approve);
    if Distinct(vs) { BatchSucceeds(s, vs, approve); }
    if CanStartBatch(s, vs) && DecideAll(s, vs, approve).Some? {
      BatchResources(s, vs, approve, r);
      forall w ensures Decides(s, a, w, approve) <==> w in vs { }
    } else {
      forall w, b ensures !Decides(s, a, w, b) { }
    }
  }

  lemma ModerationStepAsTold(s: State, a: Action, r: Id)
    requires r in s.resources && IsRowStep(a)
    ensures r in ApplyRowStep(s, a).resources && ResourceAsTold(s, a, ApplyRowStep(s, a), r)
  {
    if a.Takedown? { TakedownAsTold(s, a.owner, a.resource, r); }
    else if a.Restore? { RestoreAsTold(s, a.owner, a.resource, r); }
    else if a.AdminModerate? { AdminModerateAsTold(s, a.resource, a.moderation, r); }
    else { ResourceStays(s, a, ApplyRowStep(s, a), r); }
  }

  lemma EditStepAsTold(s: State, a: Action, r: Id)
    requires Inv(s) && r in s.resources && IsRevisionStep(a) && r in ApplyRevisionStep(s, a).resources
    ensures ResourceAsTold(s, a, ApplyRevisionStep(s, a), r)
  {
    if a.SaveBundle? { SaveEditAsTold(s, a, SavedId(s, a.saved), r); }
    else if a.Review? { ReviewedAsTold(s, a.revision, a.approve, r); }
    else if a.ReviewBatch? { ReviewedBatchAsTold(s, a.revisions, a.approve, r); }
    else if a.Delete? { DeleteAsTold(s, a.owner, a.resource, a.remoteTargets, r); }
    else if a.AdminCreateDraft? || a.AdminUpdateDraft? || a.AdminSubmitDraft? { DraftsAsTold(s, a, r); }
    else {
      assert ResourceOk(s, r);
      ResourceStays(s, a, ApplyRevisionStep(s, a), r);
    }
  }

  /** Exactly these steps change a resource, and each as told. */
  lemma ResourceMoves(s: State, a: Action, r: Id)
    requires Inv(s) && r in s.resources && r in Apply(s, a).resources
    ensures ResourceAsTold(s, a, Apply(s, a), r)
  {
    if IsRevisionStep(a) { EditStepAsTold(s, a, r); }
    else if IsRowStep(a) { ModerationStepAsTold(s, a, r); }
    else {
      OtherStepsLeaveResources(s, a);
      ResourceStays(s, a, Apply(s, a), r);
    }
  }

  // ------------------------------------------------------------ lost updates

  lemma RevisionStepReturnsNone(s: State, a: Action, r: Id)
    requires r !in s.resources && r < s.next && IsRevisionStep(a)
    ensures r !in ApplyRevisionStep(s, a).resources
  {
    if a.ReviewBatch? && DecideAll(s, a.revisions, a.approve).Some? {
      BatchKeepsModeration(s, a.revisions, a.approve, r);
    }
  }

  lemma RowStepReturnsNone(s: State, a: Action, r: Id)
    requires r !in s.resources && IsRowStep(a)
    ensures r !in ApplyRowStep(s, a).resources
  {
    match a
    case Takedown(owner, q) => assert CanTakedown(s, owner, q) ==> r !in DoTakedown(s, q).resources;
    case Restore(owner, q) => assert CanRestore(s, owner, q) ==> r !in DoRestore(s, q).resources;
    case AdminModerate(q, m) => assert CanAdminModerate(s, q, m) ==> r !in DoAdminModerate(s, q, m).resources;
    case Requeue(_, _) =>
    case CancelPublication(_) =>
    case RequeueFailed(_) =>
    case Reopen(_, _, _) =>
    case ReopenEnd(_, _) =>
  }

  /** Ids are not issued twice: a resource that is gone stays gone. */
  lemma NoneReturns(s: State, a: Action, r: Id)
    requires r !in s.resources && r < s.next
    ensures r !in Apply(s, a).resources
  {
    if IsRevisionStep(a) { RevisionStepReturnsNone(s, a, r); }
    else if IsRowStep(a) { RowStepReturnsNone(s, a, r); }
    else { OtherStepsLeaveResources(s, a); }
  }

  lemma {:induction false} VersionsGrow(s: State, actions: seq<Action>, r: Id)
    requires Inv(s) && r in s.resources
    ensures var t := Run(s, actions);
            && r < t.next
            && (r in t.resources ==> s.resources[r].editVersion <= t.resources[r].editVersion)
    decreases |actions|
  {
    if actions == [] {
      assert ResourceOk(s, r);
    } else {
      var before, last := actions[..|actions| - 1], actions[|actions| - 1];
      var u := Run(s, before);
      VersionsGrow(s, before, r);
      RunKeeps(s, before);
      NextGrows(u, last);
      if r in u.resources {
        if r in Apply(u, last).resources { ResourceMoves(u, last, r); }
      } else {
        NoneReturns(u, last, r);
      }
    }
  }

  /** The version that an edit was made for, if it names one. */
  ghost predicate IsEditFor(a: Action, r: Id, version: nat) {
    || (a.SaveBundle? && a.resource == r && a.expected == Some(version))
    || (a.AdminCreateDraft? && a.resource == r && a.expected == Some(version))
    || (a.AdminUpdateDraft? && a.resource == r && a.expected == Some(version))
    || (a.AdminSubmitDraft? && a.resource == r && a.expected == Some(version))
  }

  /** An edit for another version, or of a resource that is gone, is refused. */
  lemma StaleEditFails(s: State, a: Action, r: Id, version: nat)
    requires IsEditFor(a, r, version) && (r in s.resources ==> s.resources[r].editVersion != version)
    ensures Apply(s, a) == s
  {
  }

  /** An edit that goes ahead moves the version on. */
  lemma EditMovesVersion(s: State, a: Action, r: Id, version: nat)
    requires Inv(s) && IsEditFor(a, r, version) && Apply(s, a) != s
    ensures r in Apply(s, a).resources && Apply(s, a).resources[r].editVersion == version + 1
  {
    if r !in s.resources || s.resources[r].editVersion != version {
      StaleEditFails(s, a, r, version);
      assert false;
    }
    if a.SaveBundle? { SaveEditAsTold(s, a, SavedId(s, a.saved), r); } else { DraftsAsTold(s, a, r); }
  }

  /** No update is lost: once an edit of a resource has gone ahead, no edit that
    was made for the same version ever does, whatever happens in between. */
  lemma NoLostUpdate(s: State, a: Action, actions: seq<Action>, b: Action, r: Id, version: nat)
    requires Inv(s) && IsEditFor(a, r, version) && IsEditFor(b, r, version) && Apply(s, a) != s
    ensures var t := Run(Apply(s, a), actions); Apply(t, b) == t
  {
    EditMovesVersion(s, a, r, version);
    StepKeeps(s, a);
    VersionsGrow(Apply(s, a), actions, r);
    StaleEditFails(Run(Apply(s, a), actions), b, r, version);
  }
}
