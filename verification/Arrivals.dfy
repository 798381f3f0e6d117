/** Which step adds or removes a resource, a revision, or a publication, said in
  the fields of the rows alone, and what a new revision is. */
module Arrivals {
  import opened Common
  import opened Tables
  import opened Steps
  import opened Invariants
  import opened Submission
  import opened Decision
  import opened Theorems
  import opened Guarantees
  import opened Transitions
  import opened RecordMoves
  import opened Outcomes

  // --------------------------------------------------------------- revisions

  ghost predicate StartsDraft(s: State, a: Action) {
    a.AdminCreateDraft? && a.resource in s.resources && Drafts(s, a, a.resource)
  }

  /** An administrator takes back a draft or a revision that waits for review. */
  ghost predicate Discards(s: State, a: Action, v: Id) {
    && a.AdminDiscardDraft? && a.revision == v && v in s.revisions && s.revisions[v].resource == a.resource
    && (|| (s.revisions[v].state == Draft && s.revisions[v].via == Admin)
        || (s.revisions[v].state == Submitted && v in s.cases && s.cases[v] == CasePending))
  }

  /** The deletion leaves no trace: nothing was ever published or bound. */
  ghost predicate Erases(s: State, a: Action, r: Id) {
    && a.Delete? && !a.remoteTargets && r in s.resources && Deletes(s, a, r)
    && forall p :: p in s.publications ==> !IsOf(s, p, r)
  }

  ghost predicate RevisionGoes(s: State, a: Action, v: Id)
    requires v in s.revisions
  {
    || (&& a.SaveBundle? && Saves(s, a, a.resource) && s.revisions[v].resource == a.resource
        && s.revisions[v].state == Draft && a.saved != Some(v))
    || Discards(s, a, v)
    || Erases(s, a, s.revisions[v].resource)
  }

  ghost predicate RevisionComes(s: State, a: Action, v: Id) {
    v == s.next && ((a.SaveBundle? && Saves(s, a, a.resource) && a.saved == None) || StartsDraft(s, a))
  }

  ghost predicate ComesAndGoes(s: State, a: Action, t: State, v: Id) {
    && (v in s.revisions ==> (v in t.revisions <==> !RevisionGoes(s, a, v)))
    && (v !in s.revisions ==> (v in t.revisions <==> RevisionComes(s, a, v)))
  }

  lemma SavedKeys(s: State, r: Id, x: Id, plan: seq<Target>, submit: bool, number: nat, v: Id)
    requires r in s.resources
    ensures v in DoSaveBundle(s, r, x, plan, submit, number).revisions
       <==> v == x || (v in s.revisions && !(s.revisions[v].resource == r && s.revisions[v].state == Draft))
  {
  }

  lemma SavedRevisionComes(s: State, a: Action, v: Id)
    requires Inv(s) && a.SaveBundle?
    ensures ComesAndGoes(s, a, ApplyRevisionStep(s, a), v)
  {
    forall w | w in s.revisions ensures w < s.next { assert RevisionOk(s, w); }
    if Saves(s, a, a.resource) {
      SavedIdIsFree(s, a.resource, a.saved);
      SavedKeys(s, a.resource, SavedId(s, a.saved), a.plan, a.submit, a.number, v);
    }
  }

  lemma StartedDraftComes(s: State, a: Action, v: Id)
    requires a.AdminCreateDraft? && s.next !in s.revisions
    ensures ComesAndGoes(s, a, ApplyRevisionStep(s, a), v)
  {
  }

  lemma DraftComes(s: State, a: Action, v: Id)
    requires a.AdminCreateDraft? || a.AdminUpdateDraft? || a.AdminDiscardDraft? || a.AdminSubmitDraft?
    requires s.next !in s.revisions
    ensures ComesAndGoes(s, a, ApplyRevisionStep(s, a), v)
  {
    if a.AdminCreateDraft? { StartedDraftComes(s, a, v); }
  }

  lemma ErasedGoes(s: State, a: Action, v: Id)
    requires a.Delete?
    ensures ComesAndGoes(s, a, ApplyRevisionStep(s, a), v)
  {
  }

  lemma OthersStay(s: State, a: Action, t: State, v: Id)
    requires t.revisions.Keys == s.revisions.Keys
    requires !a.SaveBundle? && !a.AdminCreateDraft? && !a.AdminDiscardDraft? && !a.Delete?
    ensures ComesAndGoes(s, a, t, v)
  {
  }

  lemma {:induction false} BatchKeepsKeys(s: State, vs: seq<Id>, approve: bool)
    requires DecideAll(s, vs, approve).Some?
    ensures DecideAll(s, vs, approve).value.revisions.Keys == s.revisions.Keys
    decreases |vs|
  {
    if vs == [] {
    } else {
      DecisionKeepsResources(s, vs[0], approve);
      BatchKeepsKeys(DoDecide(s, vs[0], approve), vs[1..], approve);
    }
  }

  lemma DecisionKeepsKeys(s: State, a: Action)
    requires a.Review? || a.ReviewBatch?
    ensures ApplyRevisionStep(s, a).revisions.Keys == s.revisions.Keys
  {
    if a.Review? && CanDecide(s, a.revision) { DecisionKeepsResources(s, a.revision, a.approve); }
    if a.ReviewBatch? && DecideAll(s, a.revisions, a.approve).Some? { BatchKeepsKeys(s, a.revisions, a.approve); }
  }

  lemma OtherStepsKeepRevisions(s: State, a: Action)
    requires !IsRevisionStep(a)
    ensures Apply(s, a).revisions == s.revisions
  {
    if IsRowStep(a) { RowStepsLeaveRevisions(s, a); }
    else if IsExecutorStep(a) { ExecutorStepsLeaveRevisions(s, a); }
    else { PollStepsLeaveRevisions(s, a); }
  }

  /** Exactly these steps add a revision, or remove one. */
  lemma RevisionsComeAndGo(s: State, a: Action, v: Id)
    requires Inv(s)
    ensures ComesAndGoes(s, a, Apply(s, a), v)
  {
    forall w | w in s.revisions ensures w < s.next { assert RevisionOk(s, w); }
    if a.SaveBundle? { SavedRevisionComes(s, a, v); }
    else if a.AdminCreateDraft? || a.AdminUpdateDraft? || a.AdminDiscardDraft? || a.AdminSubmitDraft? {
      DraftComes(s, a, v);
    }
    else if a.Delete? { ErasedGoes(s, a, v); }
    else {
      if a.Review? || a.ReviewBatch? { DecisionKeepsKeys(s, a); }
      else if !IsRevisionStep(a) { OtherStepsKeepRevisions(s, a); }
      OthersStay(s, a, Apply(s, a), v);
    }
  }

  /** The number of `v` is above those of all other revisions of `r`. */
  ghost predicate IsNewest(s: State, r: Id, v: Id) {
    && v in s.revisions && s.revisions[v].resource == r
    && forall w :: w in s.revisions && w != v && s.revisions[w].resource == r ==>
                     s.revisions[w].number < s.revisions[v].number
  }

  lemma SavedRecord(s: State, r: Id, v: Id, plan: seq<Target>, submit: bool, number: nat)
    requires r in s.resources && IsNextNumber(s, r, number, true)
    ensures var t := DoSaveBundle(s, r, v, plan, submit, number);
            && IsNewest(t, r, v)
            && t.revisions[v].plan == plan && t.revisions[v].via == Creator
            && t.revisions[v].state == (if submit then Submitted else Draft)
            && forall w :: w in t.revisions && t.revisions[w].resource == r && t.revisions[w].state == Draft ==> w == v
  {
  }

  lemma SavedDraftHasNoRows(s: State, r: Id, v: Id, plan: seq<Target>, number: nat)
    requires Inv(s) && r in s.resources && FreeFor(s, r, v)
    ensures var t := DoSaveBundle(s, r, v, plan, false, number);
            forall p :: p in t.publications ==> t.publications[p].revision != v
  {
    forall p | p in s.publications ensures s.publications[p].revision != v { assert PublicationOk(s, p); }
  }

  /** What a creator saves: the only draft of the resource, or its submission, with
    the plan as given and the highest number. */
  lemma SavedAsGiven(s: State, a: Action)
    requires Inv(s) && a.SaveBundle? && Saves(s, a, a.resource)
    ensures var t, v, r := Apply(s, a), if a.saved.Some? then a.saved.value else s.next, a.resource;
            && IsNewest(t, r, v)
            && t.revisions[v].plan == a.plan && t.revisions[v].via == Creator
            && t.revisions[v].state == (if a.submit then Submitted else Draft)
            && (forall w :: w in t.revisions && t.revisions[w].resource == r && t.revisions[w].state == Draft ==>
                              w == v)
            && (a.submit ==> IsSubmitted(t, v, a.plan))
            && (!a.submit ==> forall p :: p in t.publications ==> t.publications[p].revision != v)
  {
    SavedIdIsFree(s, a.resource, a.saved);
    var v := SavedId(s, a.saved);
    SavedRecord(s, a.resource, v, a.plan, a.submit, a.number);
    if a.submit { SubmissionIsMade(s, a.resource, v, a.plan, a.number); }
    else { SavedDraftHasNoRows(s, a.resource, v, a.plan, a.number); }
  }

  /** What an administrator starts: a draft with the given plan, or else that of
    the base revision. */
  lemma DraftAsGiven(s: State, a: Action)
    requires Inv(s) && StartsDraft(s, a)
    ensures var t, r := Apply(s, a), a.resource;
            && IsNewest(t, r, s.next)
            && t.revisions[s.next] == Revision(r, t.revisions[s.next].number, Draft, Admin,
                                               if a.plan == [] then s.revisions[a.base].plan else a.plan)
  {
    forall w | w in s.revisions ensures w < s.next { assert RevisionOk(s, w); }
  }

  // ------------------------------------------------- publications, resources

  /** A publication goes only with a revision that an administrator discards. */
  lemma RowsGo(s: State, a: Action, p: Id)
    requires Inv(s) && p in s.publications
    ensures p !in Apply(s, a).publications <==> Discards(s, a, s.publications[p].revision)
  {
    assert PublicationOk(s, p);
    if IsRevisionStep(a) { RowsGoWithRevisions(s, a, p); }
    else if IsRowStep(a) { RowStepMoves(s, a, p); }
    else if IsExecutorStep(a) {
      if a.Finish? && a.executor in s.executors { assert ExecutorOk(s, a.executor); }
      ExecutorStepMoves(s, a, p);
    }
    else { PollStepMoves(s, a, p); }
  }

  lemma SaveKeepsRows(s: State, a: Action, p: Id)
    requires a.SaveBundle? && p in s.publications && PublicationOk(s, p) && RevisionOk(s, s.publications[p].revision)
    ensures p in ApplyRevisionStep(s, a).publications
  {
  }

  lemma DraftStepRows(s: State, a: Action, p: Id)
    requires p in s.publications && PublicationOk(s, p) && IsRevisionStep(a)
    requires !a.SaveBundle? && !a.Review? && !a.ReviewBatch? && !a.AdminSubmitDraft?
    ensures p !in ApplyRevisionStep(s, a).publications <==> Discards(s, a, s.publications[p].revision)
  {
  }

  lemma RowsGoWithRevisions(s: State, a: Action, p: Id)
    requires Inv(s) && p in s.publications && IsRevisionStep(a)
    ensures p !in ApplyRevisionStep(s, a).publications <==> Discards(s, a, s.publications[p].revision)
  {
    assert PublicationOk(s, p) && RevisionOk(s, s.publications[p].revision);
    if a.SaveBundle? { SaveKeepsRows(s, a, p); }
    else if a.Review? || a.ReviewBatch? { DecisionStepMoves(s, a, p); }
    else if a.AdminSubmitDraft? { AdminSubmitMoves(s, a, p); }
    else { DraftStepRows(s, a, p); }
  }

  ghost predicate ResourceGoes(s: State, a: Action, r: Id) {
    || Erases(s, a, r)
    || (&& a.Purge? && a.resource == r && r in s.resources
        && forall v :: v in s.revisions ==> s.revisions[v].resource != r)
  }

  lemma DeletionTakesResource(s: State, owner: Id, q: Id, remoteTargets: bool, r: Id)
    requires r in s.resources && CanDelete(s, owner, q)
    ensures r !in DoDelete(s, q, remoteTargets).resources <==> Erases(s, Delete(owner, q, remoteTargets), r)
  {
    if HasHistory(s, q) {
      var p :| p in s.publications && IsFor(s, p, q);
      assert IsOf(s, p, q);
    } else {
      forall p | p in s.publications ensures !IsOf(s, p, q) { assert !IsFor(s, p, q); }
    }
  }

  lemma RemovalOfResources(s: State, a: Action, r: Id)
    requires r in s.resources && (a.Delete? || a.Purge?)
    ensures r !in ApplyRevisionStep(s, a).resources <==> ResourceGoes(s, a, r)
  {
    if a.Delete? && CanDelete(s, a.owner, a.resource) {
      DeletionTakesResource(s, a.owner, a.resource, a.remoteTargets, r);
    }
  }

  lemma DecisionKeepsResource(s: State, a: Action, r: Id)
    requires r in s.resources && (a.Review? || a.ReviewBatch?)
    ensures r in ApplyRevisionStep(s, a).resources
  {
    if a.ReviewBatch? && DecideAll(s, a.revisions, a.approve).Some? {
      BatchKeepsModeration(s, a.revisions, a.approve, r);
    }
  }

  lemma EditsKeepResources(s: State, a: Action, r: Id)
    requires r in s.resources && IsRevisionStep(a)
    ensures r !in ApplyRevisionStep(s, a).resources <==> ResourceGoes(s, a, r)
  {
    if a.Delete? || a.Purge? { RemovalOfResources(s, a, r); }
    else if a.Review? || a.ReviewBatch? { DecisionKeepsResource(s, a, r); }
  }

  /** A resource goes only when it is erased or, without revisions, purged. */
  lemma ResourcesGo(s: State, a: Action, r: Id)
    requires r in s.resources
    ensures r !in Apply(s, a).resources <==> ResourceGoes(s, a, r)
  {
    if IsRevisionStep(a) { EditsKeepResources(s, a, r); }
    else if IsRowStep(a) { ModerationStepAsTold(s, a, r); }
    else { OtherStepsLeaveResources(s, a); }
  }
}
