/** The transactions themselves: the statements they issue, in order, against
  the shared tables. Each method is proved to have exactly the effect of its
  step, so what is proved about runs of steps holds of them. */
module Database {
  import opened Common
  import opened Tables
  import opened Steps
  import opened Invariants
  import opened Submission
  import opened Outcomes

  const DISPATCHED: set<PublicationState> := {Pending, Running}
  const WAITING: set<PublicationState> := {Pending}

  datatype Result = Ok | NotFound | Conflict | Invalid

  // ---------------------------------------------------- multi-row statements

  /** DELETE ... WHERE state='draft', with the cascades. */
  function DeleteDrafts(s: State, r: Id): State {
    s.(
    revisions := (map w | w in s.revisions && !IsDraftOf(s, w, r) :: s.revisions[w]),
    cases := (map w | w in s.cases && !IsDraftOf(s, w, r) :: s.cases[w]),
    publications := (map p | p in s.publications && !IsDraftOf(s, s.publications[p].revision, r) :: s.publications[p]))
  }

  /** UPDATE ... SET state='superseded' WHERE state='submitted' AND id<>v */
  function SupersedeRevisions(s: State, r: Id, v: Id): State {
    s.(revisions := map w | w in s.revisions ::
      if w != v && s.revisions[w].resource == r && s.revisions[w].state == Submitted
      then s.revisions[w].(state := Superseded) else s.revisions[w])
  }

  function SupersedeCases(s: State, r: Id, v: Id): State {
    s.(cases := map w | w in s.cases ::
      if w != v && BelongsTo(s, w, r) && s.cases[w] == CasePending then CaseSuperseded else s.cases[w])
  }

  /** Cancel the rows of `r`, but for those of one revision, that are in one of
    the given states. */
  function CancelRows(s: State, r: Id, spared: Option<Id>, states: set<PublicationState>): State {
    s.(publications := map p | p in s.publications ::
      if IsFor(s, p, r) && spared != Some(s.publications[p].revision) && s.publications[p].state in states
      then s.publications[p].(state := Cancelled) else s.publications[p])
  }

  /** INSERT INTO resource_revisions, in place of the drafts. */
  function Insert(s: State, v: Id, row: Revision): State {
    s.(revisions := s.revisions[v := row], next := s.next + 1)
  }

  lemma RevisionsInOrder(s: State, i: State, r: Id, v: Id, row: Revision)
    requires row.resource == r && row.state == Submitted && i == Insert(DeleteDrafts(s, r), v, row)
    ensures SupersedeRevisions(i, r, v).revisions == SavedRevisions(s, r, v, row)
  {
  }

  lemma CasesInOrder(s: State, t: State, r: Id, v: Id)
    requires t.cases == DeleteDrafts(s, r).cases
    requires forall w :: w in t.cases && w != v ==> BelongsTo(t, w, r) == BelongsTo(s, w, r)
    ensures SupersedeCases(t, r, v).cases[v := CasePending] == SavedCases(s, r, v, true)
    ensures t.cases == SavedCases(s, r, v, false)
  {
  }

  lemma RowsInOrder(s: State, t: State, r: Id, v: Id)
    requires t.publications == DeleteDrafts(s, r).publications
    requires v in s.revisions ==> IsDraftOf(s, v, r)
    requires forall w :: w != v && !IsDraftOf(s, w, r) ==> BelongsTo(t, w, r) == BelongsTo(s, w, r)
    ensures CancelRows(t, r, Some(v), DISPATCHED).publications == KeptPublications(s, r, true)
    ensures t.publications == KeptPublications(s, r, false)
  {
    var kept, rows := KeptPublications(s, r, true), CancelRows(t, r, Some(v), DISPATCHED).publications;
    forall p | p in rows ensures rows[p] == kept[p] {
      var w := s.publications[p].revision;
      assert t.publications[p] == s.publications[p] && !IsDraftOf(s, w, r);
      assert IsFor(t, p, r) == BelongsTo(t, w, r) && IsFor(s, p, r) == BelongsTo(s, w, r);
    }
    assert t.publications == KeptPublications(s, r, false);
  }

  /** The updates that only a submission adds. */
  function Retiring(s: State, r: Id, v: Id): State {
    var t := CancelRows(SupersedeCases(SupersedeRevisions(s, r, v), r, v), r, Some(v), DISPATCHED);
    t.(cases := t.cases[v := CasePending])
  }

  lemma SubmissionInOrder(s: State, r: Id, v: Id, number: nat, plan: seq<Target>)
    requires r in s.resources && (v in s.revisions ==> IsDraftOf(s, v, r))
    ensures Retiring(Insert(DeleteDrafts(s, r), v, SavedRow(r, number, true, plan)), r, v)
         == Saved(s, r, v, plan, true, number)
  {
    var row := SavedRow(r, number, true, plan);
    var i := Insert(DeleteDrafts(s, r), v, row);
    var a := SupersedeRevisions(i, r, v);
    var b := SupersedeCases(a, r, v);
    var c := CancelRows(b, r, Some(v), DISPATCHED);
    assert c.revisions == SavedRevisions(s, r, v, row) by { RevisionsInOrder(s, i, r, v, row); }
    assert c.cases[v := CasePending] == SavedCases(s, r, v, true) by { CasesInOrder(s, a, r, v); }
    assert c.publications == KeptPublications(s, r, true) by { RowsInOrder(s, b, r, v); }
  }

  lemma DraftInOrder(s: State, r: Id, v: Id, number: nat, plan: seq<Target>)
    requires r in s.resources && (v in s.revisions ==> IsDraftOf(s, v, r))
    ensures Insert(DeleteDrafts(s, r), v, SavedRow(r, number, false, plan)) == Saved(s, r, v, plan, false, number)
  {
  }

  function SetPlan(s: State, v: Id, plan: seq<Target>): State
    requires v in s.revisions
  {
    s.(revisions := s.revisions[v := s.revisions[v].(plan := plan)])
  }

  /** The revision is submitted and its case opened. */
  function SubmitRow(s: State, v: Id): State
    requires v in s.revisions
  {
    s.(revisions := s.revisions[v := s.revisions[v].(state := Submitted)], cases := s.cases[v := CasePending])
  }

  lemma AdminSubmissionInOrder(s: State, r: Id, v: Id)
    requires r in s.resources && IsDraftOf(s, v, r)
    ensures var a := SupersedeRevisions(SetPlan(s, v, WithOronBox(s.revisions[v].plan)), r, v);
            var b := CancelRows(SupersedeCases(a, r, v), r, Some(v), WAITING);
            v in b.revisions && SubmitRow(b, v) == AdminSubmitted(s, r, v)
  {
    var a := SupersedeRevisions(SetPlan(s, v, WithOronBox(s.revisions[v].plan)), r, v);
    var b := SupersedeCases(a, r, v);
    forall w ensures BelongsTo(a, w, r) == BelongsTo(s, w, r) && BelongsTo(b, w, r) == BelongsTo(s, w, r) { }
    assert a.revisions[v := a.revisions[v].(state := Submitted)] == AdminSubmittedRevisions(s, r, v);
    assert b.cases[v := CasePending] == AdminSubmittedCases(s, r, v);
    assert CancelRows(b, r, Some(v), WAITING).publications == AdminSubmittedPublications(s, r, v);
  }

  lemma NumberIgnoresDrafts(s: State, r: Id, n: nat)
    requires IsNextNumber(DeleteDrafts(s, r), r, n, false)
    ensures IsNextNumber(s, r, n, true)
  {
    var d := DeleteDrafts(s, r);
    forall v | v in s.revisions && BelongsTo(s, v, r) && !IsDraftOf(s, v, r) ensures s.revisions[v].number < n {
      assert v in d.revisions && BelongsTo(d, v, r);
    }
    if n != 1 {
      var v :| v in d.revisions && BelongsTo(d, v, r) && d.revisions[v].number + 1 == n;
      assert v in s.revisions && BelongsTo(s, v, r) && !IsDraftOf(s, v, r);
    }
  }

  function WithRow(s: State, v: Id, target: Target): State {
    s.(publications := s.publications[s.next := NewPublication(v, target, s.now)], next := s.next + 1)
  }

  lemma NoRows(s: State, v: Id)
    ensures WithRows(s, v, []) == s
  {
  }

  lemma OneMorePublication(before: map<Id, Publication>, v: Id, plan: seq<Target>, i: nat, base: Id, now: int)
    requires i < |plan|
    ensures (before + NewPublications(v, plan[..i], base, now))[base + i := NewPublication(v, plan[i], now)]
         == before + NewPublications(v, plan[..i + 1], base, now)
  {
    assert plan[..i + 1][..i] == plan[..i];
  }

  lemma OneMoreRow(s: State, v: Id, plan: seq<Target>, i: nat)
    requires i < |plan|
    ensures WithRow(WithRows(s, v, plan[..i]), v, plan[i]) == WithRows(s, v, plan[..i + 1])
  {
    OneMorePublication(s.publications, v, plan, i, s.next, s.now);
  }

  class Database {
    var db: State

    constructor ()
      ensures db == INITIAL
    {
      db := INITIAL;
    }

    // -------------------------------------------------------------- queries

    /** SELECT id ... WHERE state='draft' ORDER BY revision_no DESC LIMIT 1 */
    method FindDraft(r: Id) returns (saved: Option<Id>)
      ensures IsSavedDraft(db, r, saved)
    {
      saved := None;
      var todo := db.revisions.Keys;
      while todo != {}
        invariant todo <= db.revisions.Keys
        invariant match saved
                  case None => forall v :: v in db.revisions && v !in todo ==> !IsDraftOf(db, v, r)
                  case Some(d) =>
                    && IsDraftOf(db, d, r)
                    && forall v :: v in db.revisions && v !in todo && IsDraftOf(db, v, r) ==>
                                     db.revisions[v].number <= db.revisions[d].number
        decreases |todo|
      {
        var v :| v in todo;
        if IsDraftOf(db, v, r) && (saved == None || db.revisions[v].number > db.revisions[saved.value].number) {
          saved := Some(v);
        }
        todo := todo - {v};
      }
    }

    /** SELECT COALESCE(max(revision_no),0)+1 */
    method NextNumber(r: Id) returns (n: nat)
      ensures IsNextNumber(db, r, n, false)
    {
      n := 1;
      var todo := db.revisions.Keys;
      while todo != {}
        invariant todo <= db.revisions.Keys
        invariant forall v :: v in db.revisions && v !in todo && BelongsTo(db, v, r) ==> db.revisions[v].number < n
        invariant n == 1 || exists v :: v in db.revisions && BelongsTo(db, v, r) && db.revisions[v].number + 1 == n
        decreases |todo|
      {
        var v :| v in todo;
        if BelongsTo(db, v, r) && db.revisions[v].number >= n {
          n := db.revisions[v].number + 1;
        }
        todo := todo - {v};
      }
    }

    // ----------------------------------------------------------- submission

    /** INSERT INTO publications, one row per target. */
    method InsertPublications(v: Id, plan: seq<Target>)
      modifies this
      ensures db == WithRows(old(db), v, plan)
    {
      ghost var s := db;
      NoRows(s, v);
      for i := 0 to |plan|
        invariant db == WithRows(s, v, plan[..i])
      {
        OneMoreRow(s, v, plan, i);
        db := WithRow(db, v, plan[i]);
      }
      assert plan[..|plan|] == plan;
    }

    /** saveBundle, from the check of the plan to Commit. Issued ids are below
      `next`, so the id of a new revision is not in use. */
    method SaveBundle(owner: Id, r: Id, plan: seq<Target>, submit: bool, expected: Option<nat>)
      returns (result: Result, ghost saved: Option<Id>, ghost number: nat)
      requires db.next !in db.revisions
      modifies this
      ensures result.Ok? ==> CanSaveBundle(old(db), owner, r, plan, expected, saved, number)
      ensures db == if result.Ok? then DoSaveBundle(old(db), r, SavedId(old(db), saved), plan, submit, number)
                    else old(db)
      ensures result.Ok? <==> && Distinct(plan)
                              && r in old(db).resources && old(db).resources[r].owner == owner
                              && VersionMatches(old(db), r, expected)
                              && old(db).resources[r].moderation !in {Frozen, Deleted}
      ensures result.NotFound? <==> Distinct(plan) && (r !in old(db).resources || old(db).resources[r].owner != owner)
      ensures result.Invalid? <==> !Distinct(plan)
      ensures result.Ok? && submit && Inv(old(db)) ==> IsSubmitted(db, SavedId(old(db), saved), plan)
    {
      saved, number := None, 0;
      if exists i, j :: 0 <= i < j < |plan| && plan[i] == plan[j] {
        return Invalid, saved, number;
      }
      if r !in db.resources || db.resources[r].owner != owner {
        return NotFound, saved, number;
      }
      if expected.Some? && db.resources[r].editVersion != expected.value {
        return Conflict, saved, number;
      }
      if db.resources[r].moderation == Frozen || db.resources[r].moderation == Deleted {
        return Conflict, saved, number;
      }
      ghost var s := db;
      saved, number := WriteBundle(r, plan, submit);
      if submit && Inv(s) {
        SavedIdIsFree(s, r, saved);
        SubmissionIsMade(s, r, SavedId(s, saved), plan, number);
      }
      result := Ok;
    }

    /** The writes of saveBundle, once its checks have passed. */
    method WriteBundle(r: Id, plan: seq<Target>, submit: bool) returns (ghost saved: Option<Id>, ghost number: nat)
      requires r in db.resources && db.next !in db.revisions
      modifies this
      ensures IsSavedDraft(old(db), r, saved) && IsNextNumber(old(db), r, number, true)
      ensures db == DoSaveBundle(old(db), r, SavedId(old(db), saved), plan, submit, number)
    {
      ghost var s := db;
      var draft := FindDraft(r);
      db := DeleteDrafts(db, r);
      var n := NextNumber(r);
      NumberIgnoresDrafts(s, r, n);
      var v := SavedId(db, draft);
      db := Insert(db, v, SavedRow(r, n, submit, plan));
      if submit {
        SubmissionInOrder(s, r, v, n, plan);
        Retire(r, v);
        InsertPublications(v, WithOronBox(plan));
      } else {
        DraftInOrder(s, r, v, n, plan);
      }
      db := Bump(db, r);
      saved, number := draft, n;
    }

    /** Whatever another revision still has in review or in dispatch ends. */
    method Retire(r: Id, v: Id)
      modifies this
      ensures db == Retiring(old(db), r, v)
    {
      db := SupersedeRevisions(db, r, v);
      db := SupersedeCases(db, r, v);
      db := CancelRows(db, r, Some(v), DISPATCHED);
      db := db.(cases := db.cases[v := CasePending]);
    }

    /** AdminSaveRevisionDraft without a draft id: clone a base revision. */
    method AdminCreateDraft(r: Id, base: Id, plan: seq<Target>, expected: Option<nat>)
      returns (result: Result, ghost number: nat)
      modifies this
      ensures result.Ok? <==> exists n :: CanAdminCreateDraft(old(db), r, base, expected, n)
      ensures result.Ok? ==> CanAdminCreateDraft(old(db), r, base, expected, number)
      ensures result.NotFound? <==> r !in old(db).resources
      ensures db == if result.Ok? then DoAdminCreateDraft(old(db), r, base, plan, number) else old(db)
    {
      number := 0;
      if r !in db.resources {
        return NotFound, number;
      }
      if expected.Some? && db.resources[r].editVersion != expected.value {
        return Conflict, number;
      }
      if !BelongsTo(db, base, r) {
        return Conflict, number;
      }
      if exists v :: v in db.revisions && IsDraftOf(db, v, r) && db.revisions[v].via == Admin {
        return Conflict, number;
      }
      var chosen := if plan == [] then db.revisions[base].plan else plan;
      var n := NextNumber(r);
      assert CanAdminCreateDraft(db, r, base, expected, n);
      db := db.(revisions := db.revisions[db.next := Revision(r, n, Draft, Admin, chosen)], next := db.next + 1);
      db := Bump(db, r);
      result, number := Ok, n;
    }

    /** AdminSaveRevisionDraft with the id of an editable revision. */
    method AdminUpdateDraft(r: Id, v: Id, plan: seq<Target>, expected: Option<nat>) returns (result: Result)
      modifies this
      ensures result.Ok? <==> && r in old(db).resources && VersionMatches(old(db), r, expected)
                              && IsAdminEditable(old(db), r, v)
      ensures db == if result.Ok? then DoAdminUpdateDraft(old(db), r, v, plan) else old(db)
    {
      if r !in db.resources {
        return NotFound;
      }
      if expected.Some? && db.resources[r].editVersion != expected.value {
        return Conflict;
      }
      if !IsAdminEditable(db, r, v) {
        return Conflict;
      }
      db := db.(revisions := db.revisions[v := db.revisions[v].(plan := plan)]);
      db := Bump(db, r);
      result := Ok;
    }

    /** submitAdminDraft; `ready` is the outcome of its completeness checks. */
    method AdminSubmitDraft(r: Id, v: Id, expected: Option<nat>, ready: bool) returns (result: Result)
      modifies this
      ensures result.Ok? <==> CanAdminSubmit(old(db), r, v, expected, ready)
      ensures db == if result.Ok? then DoAdminSubmit(old(db), r, v) else old(db)
      ensures result.Ok? && Inv(old(db)) ==>
                && IsSubmitted(db, v, old(db).revisions[v].plan)
                && forall target :: target in db.revisions[v].plan
                                    <==> target in old(db).revisions[v].plan || target == OronBox
    {
      if r !in db.resources || !IsDraftOf(db, v, r) || db.revisions[v].via != Admin {
        return Conflict;
      }
      if expected.Some? && db.resources[r].editVersion != expected.value {
        return Conflict;
      }
      var plan := db.revisions[v].plan;
      if !ready || exists i, j :: 0 <= i < j < |plan| && plan[i] == plan[j] {
        return Conflict;
      }
      ghost var s := db;
      WriteAdminSubmission(r, v);
      if Inv(s) { AdminSubmissionIsMade(s, r, v); }
      result := Ok;
    }

    /** The writes of submitAdminDraft, once its checks have passed. */
    method WriteAdminSubmission(r: Id, v: Id)
      requires r in db.resources && IsDraftOf(db, v, r)
      modifies this
      ensures db == DoAdminSubmit(old(db), r, v)
    {
      var plan := WithOronBox(db.revisions[v].plan);
      AdminSubmissionInOrder(db, r, v);
      db := SetPlan(db, v, plan);
      db := SupersedeRevisions(db, r, v);
      db := SupersedeCases(db, r, v);
      db := CancelRows(db, r, Some(v), WAITING);
      db := SubmitRow(db, v);
      db := Bump(db, r);
      InsertPublications(v, plan);
    }

    /** AdminDiscardRevisionDraft: the delete takes the case and publications of
      a revision under review with it. */
    method AdminDiscardDraft(r: Id, v: Id) returns (result: Result)
      modifies this
      ensures result.Ok? <==> IsAdminEditable(old(db), r, v)
      ensures db == if result.Ok? then DoAdminDiscardDraft(old(db), v) else old(db)
    {
      if !IsAdminEditable(db, r, v) {
        return Conflict;
      }
      db := db.(
      revisions := db.revisions - {v},
      cases := db.cases - {v},
      publications := map p | p in db.publications && db.publications[p].revision != v :: db.publications[p]);
      result := Ok;
    }

    /** AdminManageResource with "delete": only for resources without revisions. */
    method Purge(r: Id) returns (result: Result)
      modifies this
      ensures result.Ok? <==> CanPurge(old(db), r)
      ensures db == if result.Ok? then old(db).(resources := old(db.resources) - {r}) else old(db)
    {
      if r !in db.resources {
        return NotFound;
      }
      var ids := set v | v in db.revisions && BelongsTo(db, v, r);
      if |ids| != 0 {
        var v :| v in ids;
        return Conflict;
      }
      assert forall v :: v in db.revisions ==> v !in ids;
      db := db.(resources := db.resources - {r});
      result := Ok;
    }
  }
}
