/** Saving, submitting and discarding revisions keeps the invariant. */
module Submission {
  import opened Common
  import opened Tables
  import opened Steps
  import opened Invariants

  lemma PlanIsDistinct(plan: seq<Target>)
    requires Distinct(plan)
    ensures Distinct(WithOronBox(plan)) && OronBox in WithOronBox(plan)
  {
  }

  /** One of the inserted rows is the resource's own listing. */
  lemma NewOronBox(v: Id, plan: seq<Target>, base: Id, now: int) returns (p: Id)
    ensures p in NewPublications(v, WithOronBox(plan), base, now)
    ensures NewPublications(v, WithOronBox(plan), base, now)[p] == NewPublication(v, OronBox, now)
  {
    var i :| 0 <= i < |WithOronBox(plan)| && WithOronBox(plan)[i] == OronBox;
    p := base + i;
  }

  /** The rows inserted for a plan of distinct targets have distinct targets. */
  lemma NewRowsDiffer(v: Id, targets: seq<Target>, base: Id, now: int, p: Id, q: Id)
    requires var rows := NewPublications(v, targets, base, now); p in rows && q in rows && p != q
    requires Distinct(targets)
    ensures var rows := NewPublications(v, targets, base, now); rows[p].target != rows[q].target
  {
  }

  /** Row `p` of `t` is an old row of another revision, possibly cancelled, or
    one of the rows inserted for `v`. */
  ghost predicate Inherited(s: State, t: State, v: Id, targets: seq<Target>, base: Id, p: Id)
    requires p in t.publications
  {
    if p in s.publications then
      s.publications[p].revision != v && t.publications[p] == s.publications[p].(state := t.publications[p].state)
    else
      p in NewPublications(v, targets, base, s.now) && t.publications[p] == NewPublications(v, targets, base, s.now)[p]
  }

  lemma InheritedPairsOk(s: State, t: State, v: Id, targets: seq<Target>, base: Id)
    requires Core(s) && Distinct(targets)
    requires forall p {:trigger Inherited(s, t, v, targets, base, p)} :: p in t.publications ==>
                                                                           Inherited(s, t, v, targets, base, p)
    ensures forall p, q {:trigger PublicationPairOk(t, p, q)} :: p in t.publications && q in t.publications ==>
                                                                   PublicationPairOk(t, p, q)
  {
    forall p, q | p in t.publications && q in t.publications ensures PublicationPairOk(t, p, q) {
      assert Inherited(s, t, v, targets, base, p) && Inherited(s, t, v, targets, base, q);
      if p in s.publications && q in s.publications { assert PublicationPairOk(s, p, q); }
      if p !in s.publications && q !in s.publications && p != q { NewRowsDiffer(v, targets, base, s.now, p, q); }
    }
  }

  // --------------------------------------------------------- creator's bundle

  /** An id that the saved revision can take: new, or that of a draft that is
    being replaced. */
  ghost predicate FreeFor(s: State, r: Id, v: Id) {
    v <= s.next && v !in s.cases && (v in s.revisions ==> IsDraftOf(s, v, r))
  }

  lemma SavedIdIsFree(s: State, r: Id, saved: Option<Id>)
    requires Core(s) && IsSavedDraft(s, r, saved)
    ensures FreeFor(s, r, SavedId(s, saved))
  {
    forall w | w in s.revisions ensures RevisionOk(s, w) { }
  }

  lemma NewRevisionOk(s: State, t: State, r: Id, v: Id, row: Revision)
    requires Core(s) && r in s.resources && FreeFor(s, r, v)
    requires v in t.revisions && t.revisions[v] == row && row.resource == r && v < t.next
    requires r in t.resources && t.resources[r].current == s.resources[r].current
    requires (row.state == Draft && v !in t.cases)
             || (row.state == Submitted && v in t.cases && t.cases[v] == CasePending && HasOronBox(t, v))
    ensures RevisionOk(t, v)
  {
    assert ResourceOk(s, r) && (v in s.revisions ==> RevisionOk(s, v));
  }

  lemma SavedOronBox(s: State, r: Id, v: Id, plan: seq<Target>, number: nat)
    requires r in s.resources
    ensures HasOronBox(DoSaveBundle(s, r, v, plan, true, number), v)
  {
    var saved := Saved(s, r, v, plan, true, number);
    var p := NewOronBox(v, plan, saved.next, saved.now);
    assert IsOronBoxOf(WithRows(saved, v, WithOronBox(plan)), p, v);
    assert IsOronBoxOf(DoSaveBundle(s, r, v, plan, true, number), p, v);
  }

  lemma SavedRevisionOk(s: State, r: Id, v: Id, plan: seq<Target>, submit: bool, number: nat)
    requires Core(s) && r in s.resources && FreeFor(s, r, v)
    ensures var t := DoSaveBundle(s, r, v, plan, submit, number);
            v in t.revisions && RevisionOk(t, v)
  {
    if submit { SavedOronBox(s, r, v, plan, number); }
    NewRevisionOk(s, DoSaveBundle(s, r, v, plan, submit, number), r, v, SavedRow(r, number, submit, plan));
  }

  lemma OldRevisionOk(s: State, t: State, w: Id)
    requires Core(s) && w in s.revisions && s.revisions[w].resource in s.resources
             && s.revisions[w].resource in t.resources && s.next <= t.next
    requires t.resources[s.revisions[w].resource].current == s.resources[s.revisions[w].resource].current
    requires w in t.revisions && t.revisions[w] == s.revisions[w].(state := t.revisions[w].state)
    requires w in t.cases <==> w in s.cases
    requires (t.revisions[w].state == s.revisions[w].state && (w in s.cases ==> t.cases[w] == s.cases[w]))
             || (s.revisions[w].state == Submitted && t.revisions[w].state == Superseded && w in s.cases
                 && t.cases[w] == CaseSuperseded)
    requires HasOronBox(s, w) ==> HasOronBox(t, w)
    ensures RevisionOk(t, w)
  {
    assert RevisionOk(s, w);
  }

  lemma KeptOronBox(s: State, r: Id, v: Id, plan: seq<Target>, submit: bool, number: nat, w: Id)
    requires Core(s) && r in s.resources && FreeFor(s, r, v)
    requires w in s.revisions && !IsDraftOf(s, w, r) && HasOronBox(s, w)
    ensures HasOronBox(DoSaveBundle(s, r, v, plan, submit, number), w)
  {
    var p :| IsOronBoxOf(s, p, w);
    assert PublicationOk(s, p);
    assert IsOronBoxOf(DoSaveBundle(s, r, v, plan, submit, number), p, w);
  }

  lemma KeptRevisionOk(s: State, r: Id, v: Id, plan: seq<Target>, submit: bool, number: nat, w: Id)
    requires Core(s) && r in s.resources && FreeFor(s, r, v)
    requires w in s.revisions && !IsDraftOf(s, w, r)
    ensures var t := DoSaveBundle(s, r, v, plan, submit, number);
            w in t.revisions && RevisionOk(t, w)
  {
    assert RevisionOk(s, w);
    if HasOronBox(s, w) { KeptOronBox(s, r, v, plan, submit, number, w); }
    OldRevisionOk(s, DoSaveBundle(s, r, v, plan, submit, number), w);
  }

  lemma SaveKeepsPairs(s: State, r: Id, v: Id, plan: seq<Target>, submit: bool, number: nat)
    requires Core(s) && r in s.resources && FreeFor(s, r, v) && IsNextNumber(s, r, number, true)
    ensures var t := DoSaveBundle(s, r, v, plan, submit, number);
            forall w, x {:trigger RevisionPairOk(t, w, x)} :: w in t.revisions && x in t.revisions ==>
                                                                RevisionPairOk(t, w, x)
  {
    var t := DoSaveBundle(s, r, v, plan, submit, number);
    forall w, x | w in t.revisions && x in t.revisions ensures RevisionPairOk(t, w, x) {
      if w != v && x != v { assert RevisionPairOk(s, w, x); }
    }
  }

  lemma CancelledRowOk(row: Publication, c: CaseState, d: CaseState, next: Id)
    requires RowOk(row, c, next) && row.state in {Pending, Running}
    requires d == c || (c == CasePending && d == CaseSuperseded)
    ensures RowOk(row.(state := Cancelled), d, next)
  {
  }

  lemma OldRowAfterSave(s: State, r: Id, v: Id, plan: seq<Target>, submit: bool, p: Id)
    requires Core(s) && FreeFor(s, r, v)
    requires p in s.publications && p in KeptPublications(s, r, submit)
    ensures var row, w := KeptPublications(s, r, submit)[p], s.publications[p].revision;
            && w != v && w in s.revisions && !IsDraftOf(s, w, r)
            && row == s.publications[p].(state := row.state)
            && w in SavedCases(s, r, v, submit)
            && RowOk(row, SavedCases(s, r, v, submit)[w], s.next)
  {
    var w := s.publications[p].revision;
    assert PublicationOk(s, p) && RevisionOk(s, w);
    var d := SavedCases(s, r, v, submit)[w];
    if s.publications[p].state in {Pending, Running} { CancelledRowOk(s.publications[p], s.cases[w], d, s.next); }
  }

  lemma NewPublicationOk(s: State, r: Id, v: Id, plan: seq<Target>, number: nat, p: Id)
    requires Core(s) && r in s.resources && FreeFor(s, r, v) && p !in s.publications
    requires p in DoSaveBundle(s, r, v, plan, true, number).publications
    ensures PublicationOk(DoSaveBundle(s, r, v, plan, true, number), p)
  {
  }

  lemma SavedPublicationOk(s: State, r: Id, v: Id, plan: seq<Target>, submit: bool, number: nat, p: Id)
    requires Core(s) && r in s.resources && FreeFor(s, r, v)
    requires p in DoSaveBundle(s, r, v, plan, submit, number).publications
    ensures PublicationOk(DoSaveBundle(s, r, v, plan, submit, number), p)
    ensures Inherited(s, DoSaveBundle(s, r, v, plan, submit, number), v, WithOronBox(plan), s.next + 1, p)
  {
    if p in s.publications {
      assert PublicationOk(s, p);
      OldRowAfterSave(s, r, v, plan, submit, p);
    } else {
      NewPublicationOk(s, r, v, plan, number, p);
    }
  }

  lemma SaveKeepsRevisions(s: State, r: Id, v: Id, plan: seq<Target>, submit: bool, number: nat)
    requires Core(s) && r in s.resources && FreeFor(s, r, v) && IsNextNumber(s, r, number, true)
    ensures RevisionTables(DoSaveBundle(s, r, v, plan, submit, number))
  {
    var t := DoSaveBundle(s, r, v, plan, submit, number);
    forall w | w in t.revisions ensures RevisionOk(t, w) {
      if w == v { SavedRevisionOk(s, r, v, plan, submit, number); }
      else { KeptRevisionOk(s, r, v, plan, submit, number, w); }
    }
    forall q | q in t.resources ensures ResourceOk(t, q) {
      assert ResourceOk(s, q);
      if s.resources[q].current.Some? { assert RevisionOk(s, s.resources[q].current.value); }
    }
    SaveKeepsPairs(s, r, v, plan, submit, number);
  }

  lemma SaveKeepsPublications(s: State, r: Id, v: Id, plan: seq<Target>, submit: bool, number: nat)
    requires Core(s) && r in s.resources && FreeFor(s, r, v) && Distinct(plan)
    ensures PublicationTable(DoSaveBundle(s, r, v, plan, submit, number))
  {
    var t := DoSaveBundle(s, r, v, plan, submit, number);
    forall p | p in t.publications ensures PublicationOk(t, p) && Inherited(s, t, v, WithOronBox(plan), s.next + 1, p) {
      SavedPublicationOk(s, r, v, plan, submit, number, p);
    }
    PlanIsDistinct(plan);
    InheritedPairsOk(s, t, v, WithOronBox(plan), s.next + 1);
  }

  lemma SaveBundleKeeps(s: State, owner: Id, r: Id, plan: seq<Target>, submit: bool, expected: Option<nat>,
                        saved: Option<Id>, number: nat)
    requires Inv(s) && CanSaveBundle(s, owner, r, plan, expected, saved, number)
    ensures Inv(DoSaveBundle(s, r, SavedId(s, saved), plan, submit, number))
  {
    var v := SavedId(s, saved);
    var t := DoSaveBundle(s, r, v, plan, submit, number);
    SavedIdIsFree(s, r, saved);
    SaveKeepsRevisions(s, r, v, plan, submit, number);
    SaveKeepsPublications(s, r, v, plan, submit, number);
    forall e | e in s.executors ensures Spares(s, t, s.executors[e]) { SaveSpares(s, r, v, plan, submit, number, e); }
    forall q | q in s.reopens ensures SparesReopen(s, t, q) { SaveSparesReopen(s, r, v, plan, submit, number, q); }
    SessionsKept(s, t);
  }

  lemma SaveSpares(s: State, r: Id, v: Id, plan: seq<Target>, submit: bool, number: nat, e: Id)
    requires Inv(s) && r in s.resources && FreeFor(s, r, v) && e in s.executors
    ensures Spares(s, DoSaveBundle(s, r, v, plan, submit, number), s.executors[e])
  {
    var x := s.executors[e];
    assert ExecutorOk(s, e) && RevisionOk(s, x.revision) && PublicationOk(s, x.publication);
  }

  lemma SavedKeepsRow(s: State, r: Id, v: Id, plan: seq<Target>, submit: bool, number: nat, p: Id)
    requires Inv(s) && r in s.resources && FreeFor(s, r, v)
    requires p in s.publications && s.publications[p].revision in s.cases
             && s.cases[s.publications[p].revision] == CaseApproved
    ensures var t := DoSaveBundle(s, r, v, plan, submit, number);
            && p in t.publications
            && t.publications[p].revision == s.publications[p].revision
            && t.publications[p].target == s.publications[p].target
  {
    assert PublicationOk(s, p) && RevisionOk(s, s.publications[p].revision);
  }

  lemma SavedKeepsCase(s: State, r: Id, v: Id, plan: seq<Target>, submit: bool, number: nat, w: Id)
    requires Inv(s) && r in s.resources && FreeFor(s, r, v) && w in s.revisions
    requires w in s.cases && s.cases[w] == CaseApproved
    ensures var t := DoSaveBundle(s, r, v, plan, submit, number);
            && BelongsTo(t, w, s.revisions[w].resource) && w in t.cases && t.cases[w] == CaseApproved
  {
    assert RevisionOk(s, w);
  }

  lemma SaveSparesReopen(s: State, r: Id, v: Id, plan: seq<Target>, submit: bool, number: nat, q: Id)
    requires Inv(s) && r in s.resources && FreeFor(s, r, v) && q in s.reopens
    ensures SparesReopen(s, DoSaveBundle(s, r, v, plan, submit, number), q)
  {
    var p := s.reopens[q];
    assert ReopenOk(s, q) && PublicationOk(s, p);
    SavedKeepsRow(s, r, v, plan, submit, number, p);
    SavedKeepsCase(s, r, v, plan, submit, number, s.publications[p].revision);
  }

  // ------------------------------------------------------------ admin's draft

  lemma AdminCreateDraftKeepsRevisions(s: State, r: Id, base: Id, plan: seq<Target>, number: nat)
    requires Core(s) && r in s.resources && base in s.revisions && IsNextNumber(s, r, number, false)
    ensures RevisionTables(DoAdminCreateDraft(s, r, base, plan, number))
    ensures s.next !in s.revisions
  {
    var t := DoAdminCreateDraft(s, r, base, plan, number);
    assert ResourceOk(s, r);
    forall w | w in s.revisions ensures w < s.next && RevisionOk(t, w) {
      assert RevisionOk(s, w);
      if w in s.cases { var p :| IsOronBoxOf(s, p, w); assert IsOronBoxOf(t, p, w); }
    }
    forall q | q in t.resources ensures ResourceOk(t, q) { assert ResourceOk(s, q); }
    forall w, x | w in t.revisions && x in t.revisions ensures RevisionPairOk(t, w, x) {
      if w != s.next && x != s.next { assert RevisionPairOk(s, w, x); }
    }
  }

  lemma AdminCreateDraftKeeps(s: State, r: Id, base: Id, plan: seq<Target>, expected: Option<nat>, number: nat)
    requires Inv(s) && CanAdminCreateDraft(s, r, base, expected, number)
    ensures Inv(DoAdminCreateDraft(s, r, base, plan, number))
  {
    var t := DoAdminCreateDraft(s, r, base, plan, number);
    AdminCreateDraftKeepsRevisions(s, r, base, plan, number);
    forall p | p in t.publications ensures PublicationOk(t, p) { assert PublicationOk(s, p); }
    forall p, q | p in t.publications && q in t.publications ensures PublicationPairOk(t, p, q) {
      assert PublicationPairOk(s, p, q);
    }
    forall e | e in s.executors ensures Spares(s, t, s.executors[e]) { assert ExecutorOk(s, e); }
    forall q | q in s.reopens ensures SparesReopen(s, t, q) {
      assert ReopenOk(s, q) && PublicationOk(s, s.reopens[q]) && RevisionOk(s, s.publications[s.reopens[q]].revision);
    }
    SessionsKept(s, t);
  }

  lemma AdminUpdateDraftKeeps(s: State, r: Id, v: Id, plan: seq<Target>)
    requires Inv(s) && r in s.resources && v in s.revisions
    ensures Inv(DoAdminUpdateDraft(s, r, v, plan))
  {
    var t := DoAdminUpdateDraft(s, r, v, plan);
    forall w | w in t.revisions ensures RevisionOk(t, w) {
      assert RevisionOk(s, w);
      if w in s.cases { var p :| IsOronBoxOf(s, p, w); assert IsOronBoxOf(t, p, w); }
    }
    forall q | q in t.resources ensures ResourceOk(t, q) { assert ResourceOk(s, q); }
    forall w, x | w in t.revisions && x in t.revisions ensures RevisionPairOk(t, w, x) {
      assert RevisionPairOk(s, w, x);
    }
    forall p | p in t.publications ensures PublicationOk(t, p) { assert PublicationOk(s, p); }
    forall p, q | p in t.publications && q in t.publications ensures PublicationPairOk(t, p, q) {
      assert PublicationPairOk(s, p, q);
    }
    forall e | e in s.executors ensures Spares(s, t, s.executors[e]) { assert ExecutorOk(s, e); }
    forall q | q in s.reopens ensures SparesReopen(s, t, q) {
      assert ReopenOk(s, q) && PublicationOk(s, s.reopens[q]) && RevisionOk(s, s.publications[s.reopens[q]].revision);
    }
    SessionsKept(s, t);
  }

  lemma DiscardedRevisionOk(s: State, r: Id, v: Id, w: Id)
    requires Inv(s) && IsAdminEditable(s, r, v) && w in s.revisions && w != v
    ensures RevisionOk(DoAdminDiscardDraft(s, v), w)
  {
    assert RevisionOk(s, w) && RevisionOk(s, v);
    if w in s.cases { var p :| IsOronBoxOf(s, p, w); assert IsOronBoxOf(DoAdminDiscardDraft(s, v), p, w); }
  }

  lemma AdminDiscardDraftKeeps(s: State, r: Id, v: Id)
    requires Inv(s) && IsAdminEditable(s, r, v)
    ensures Inv(DoAdminDiscardDraft(s, v))
  {
    var t := DoAdminDiscardDraft(s, v);
    assert RevisionOk(s, v);
    forall w | w in t.revisions ensures RevisionOk(t, w) { DiscardedRevisionOk(s, r, v, w); }
    forall q | q in t.resources ensures ResourceOk(t, q) { assert ResourceOk(s, q); }
    forall w, x | w in t.revisions && x in t.revisions ensures RevisionPairOk(t, w, x) {
      assert RevisionPairOk(s, w, x);
    }
    forall p | p in t.publications ensures PublicationOk(t, p) { assert PublicationOk(s, p); }
    forall p, q | p in t.publications && q in t.publications ensures PublicationPairOk(t, p, q) {
      assert PublicationPairOk(s, p, q);
    }
    forall e | e in s.executors ensures Spares(s, t, s.executors[e]) {
      assert ExecutorOk(s, e) && PublicationOk(s, s.executors[e].publication);
    }
    forall q | q in s.reopens ensures SparesReopen(s, t, q) {
      assert ReopenOk(s, q) && PublicationOk(s, s.reopens[q]) && RevisionOk(s, s.publications[s.reopens[q]].revision);
    }
    SessionsKept(s, t);
  }

  lemma AdminSubmitRevisionOk(s: State, r: Id, v: Id, w: Id)
    requires Core(s) && r in s.resources && IsDraftOf(s, v, r) && w in s.revisions
    ensures w in DoAdminSubmit(s, r, v).revisions && RevisionOk(DoAdminSubmit(s, r, v), w)
  {
    var t := DoAdminSubmit(s, r, v);
    assert RevisionOk(s, w) && RevisionOk(s, v);
    if w == v {
      var p := NewOronBox(v, s.revisions[v].plan, s.next, s.now);
      assert IsOronBoxOf(t, p, v);
    } else if w in s.cases {
      var p :| IsOronBoxOf(s, p, w);
      assert PublicationOk(s, p);
      assert IsOronBoxOf(t, p, w);
    }
  }

  lemma AdminSubmitRevisionPairOk(s: State, r: Id, v: Id, w: Id, x: Id)
    requires Core(s) && r in s.resources && IsDraftOf(s, v, r) && w in s.revisions && x in s.revisions
    ensures RevisionPairOk(DoAdminSubmit(s, r, v), w, x)
  {
    assert RevisionPairOk(s, w, x);
    var rows := AdminSubmittedRevisions(s, r, v);
    assert rows[w].resource == s.revisions[w].resource && rows[w].number == s.revisions[w].number;
    assert rows[x].resource == s.revisions[x].resource && rows[x].number == s.revisions[x].number;
  }

  lemma AdminSubmitPublicationOk(s: State, r: Id, v: Id, p: Id)
    requires Core(s) && r in s.resources && IsDraftOf(s, v, r)
    requires p in DoAdminSubmit(s, r, v).publications
    ensures PublicationOk(DoAdminSubmit(s, r, v), p)
    ensures Inherited(s, DoAdminSubmit(s, r, v), v, WithOronBox(s.revisions[v].plan), s.next, p)
  {
    assert RevisionOk(s, v);
    var targets := WithOronBox(s.revisions[v].plan);
    var rows := DoAdminSubmit(s, r, v).publications;
    if p in s.publications {
      assert PublicationOk(s, p) && RevisionOk(s, s.publications[p].revision);
      assert rows[p] == s.publications[p].(state := rows[p].state);
    } else {
      assert rows[p] == NewPublications(v, targets, s.next, s.now)[p];
    }
  }

  lemma AdminSubmitKeepsCore(s: State, r: Id, v: Id)
    requires Core(s) && r in s.resources && IsDraftOf(s, v, r) && Distinct(s.revisions[v].plan)
    ensures Core(DoAdminSubmit(s, r, v))
  {
    var t, targets := DoAdminSubmit(s, r, v), WithOronBox(s.revisions[v].plan);
    assert RevisionOk(s, v);
    forall w | w in t.revisions ensures RevisionOk(t, w) { AdminSubmitRevisionOk(s, r, v, w); }
    forall q | q in t.resources ensures ResourceOk(t, q) { assert ResourceOk(s, q); }
    forall w, x | w in t.revisions && x in t.revisions ensures RevisionPairOk(t, w, x) {
      AdminSubmitRevisionPairOk(s, r, v, w, x);
    }
    forall p | p in t.publications ensures PublicationOk(t, p) && Inherited(s, t, v, targets, s.next, p) {
      AdminSubmitPublicationOk(s, r, v, p);
    }
    PlanIsDistinct(s.revisions[v].plan);
    InheritedPairsOk(s, t, v, targets, s.next);
  }

  lemma AdminSubmitKeeps(s: State, r: Id, v: Id, expected: Option<nat>)
    requires Inv(s) && CanAdminSubmit(s, r, v, expected, true)
    ensures Inv(DoAdminSubmit(s, r, v))
  {
    var t := DoAdminSubmit(s, r, v);
    AdminSubmitKeepsCore(s, r, v);
    forall e | e in s.executors ensures Spares(s, t, s.executors[e]) { AdminSubmitSpares(s, r, v, e); }
    forall q | q in s.reopens ensures SparesReopen(s, t, q) { AdminSubmitSparesReopen(s, r, v, q); }
    SessionsKept(s, t);
  }

  lemma AdminSubmitSpares(s: State, r: Id, v: Id, e: Id)
    requires Inv(s) && r in s.resources && IsDraftOf(s, v, r) && e in s.executors
    ensures Spares(s, DoAdminSubmit(s, r, v), s.executors[e])
  {
    var x := s.executors[e];
    assert ExecutorOk(s, e) && RevisionOk(s, x.revision) && PublicationOk(s, x.publication) && RevisionOk(s, v);
  }

  lemma AdminSubmitSparesReopen(s: State, r: Id, v: Id, q: Id)
    requires Inv(s) && r in s.resources && IsDraftOf(s, v, r) && q in s.reopens
    ensures SparesReopen(s, DoAdminSubmit(s, r, v), q)
  {
    var p := s.reopens[q];
    assert ReopenOk(s, q) && PublicationOk(s, p) && RevisionOk(s, s.publications[p].revision) && RevisionOk(s, v);
  }
}
