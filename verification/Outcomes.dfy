/** What a submission leaves behind, said in the rows alone. */
module Outcomes {
  import opened Common
  import opened Tables
  import opened Steps
  import opened Invariants
  import opened Submission
  import opened Decision

  ghost predicate IsRowFor(s: State, p: Id, v: Id, target: Target) {
    p in s.publications && s.publications[p].revision == v && s.publications[p].target == target
  }

  ghost predicate HasRowFor(s: State, v: Id, target: Target) {
    exists p {:trigger IsRowFor(s, p, v, target)} :: IsRowFor(s, p, v, target)
  }

  /** Revision `v` waits for its review with one row for each target that was asked
    for, and one for OronBox; none of them has been worked on. */
  ghost predicate IsSubmitted(s: State, v: Id, asked: seq<Target>) {
    && v in s.revisions && s.revisions[v].state == Submitted && v in s.cases && s.cases[v] == CasePending
    && (forall target {:trigger HasRowFor(s, v, target)} :: HasRowFor(s, v, target) <==>
                                                            target in asked || target == OronBox)
    && (forall p, q, target {:trigger IsRowFor(s, p, v, target), IsRowFor(s, q, v, target)} ::
          IsRowFor(s, p, v, target) && IsRowFor(s, q, v, target) ==> p == q)
    && (forall p, target {:trigger IsRowFor(s, p, v, target)} ::
          IsRowFor(s, p, v, target) ==> s.publications[p] == Publication(v, target, Pending, 0, s.now, None, None, []))
  }

  lemma RequestedTargets(plan: seq<Target>, target: Target)
    ensures target in WithOronBox(plan) <==> target in plan || target == OronBox
  {
  }

  /** The rows of `v` in `t` are the new ones, numbered from `base`. */
  lemma RowsAreNew(t: State, v: Id, plan: seq<Target>, base: Id)
    requires Distinct(plan) && v in t.revisions && t.revisions[v].state == Submitted
    requires v in t.cases && t.cases[v] == CasePending
    requires var targets := WithOronBox(plan);
             && (forall i :: 0 <= i < |targets| ==>
                               base + i in t.publications
                               && t.publications[base + i] == NewPublication(v, targets[i], t.now))
             && (forall p :: p in t.publications && t.publications[p].revision == v ==> base <= p < base + |targets|)
    ensures IsSubmitted(t, v, plan)
  {
    var targets := WithOronBox(plan);
    PlanIsDistinct(plan);
    forall p: Id, target | IsRowFor(t, p, v, target) ensures 0 <= p - base < |targets| && targets[p - base] == target {
      assert t.publications[base + (p - base)] == NewPublication(v, targets[p - base], t.now);
    }
    forall target ensures HasRowFor(t, v, target) <==> target in plan || target == OronBox {
      RequestedTargets(plan, target);
      if target in targets {
        var i :| 0 <= i < |targets| && targets[i] == target;
        assert IsRowFor(t, base + i, v, target);
      }
    }
  }

  lemma SubmittedTable(s: State, r: Id, v: Id, plan: seq<Target>, number: nat)
    requires r in s.resources
    ensures var saved := Saved(s, r, v, plan, true, number);
            && saved.publications == KeptPublications(s, r, true) && saved.now == s.now
            && DoSaveBundle(s, r, v, plan, true, number).publications
               == saved.publications + NewPublications(v, WithOronBox(plan), saved.next, saved.now)
  {
    var saved := Saved(s, r, v, plan, true, number);
    assert DoSaveBundle(s, r, v, plan, true, number) == Bump(WithRows(saved, v, WithOronBox(plan)), r);
  }

  lemma SubmittedRecords(s: State, r: Id, v: Id, plan: seq<Target>, number: nat)
    requires r in s.resources
    ensures var t := DoSaveBundle(s, r, v, plan, true, number);
            && v in t.revisions && t.revisions[v].state == Submitted && v in t.cases && t.cases[v] == CasePending
            && t.now == s.now
  {
  }

  /** A creator's submission. */
  lemma SubmissionIsMade(s: State, r: Id, v: Id, plan: seq<Target>, number: nat)
    requires Inv(s) && r in s.resources && FreeFor(s, r, v) && Distinct(plan)
    ensures IsSubmitted(DoSaveBundle(s, r, v, plan, true, number), v, plan)
  {
    SubmittedTable(s, r, v, plan, number);
    SubmittedRecords(s, r, v, plan, number);
    var t, kept := DoSaveBundle(s, r, v, plan, true, number), KeptPublications(s, r, true);
    forall p | p in kept ensures kept[p].revision != v { assert PublicationOk(s, p); }
    InsertedRowsAreNew(t, kept, v, plan, Saved(s, r, v, plan, true, number).next);
  }

  lemma MergedRowsAreNew(t: State, kept: map<Id, Publication>, rows: map<Id, Publication>, v: Id, plan: seq<Target>,
                         base: Id)
    requires Distinct(plan) && v in t.revisions && t.revisions[v].state == Submitted
    requires v in t.cases && t.cases[v] == CasePending && t.publications == kept + rows
    requires var targets := WithOronBox(plan);
             && (forall p :: p in rows <==> base <= p < base + |targets|)
             && (forall p :: p in rows ==> rows[p] == NewPublication(v, targets[p - base], t.now))
    requires forall p :: p in kept ==> kept[p].revision != v
    ensures IsSubmitted(t, v, plan)
  {
    RowsAreNew(t, v, plan, base);
  }

  lemma InsertedRowsAreNew(t: State, kept: map<Id, Publication>, v: Id, plan: seq<Target>, base: Id)
    requires Distinct(plan) && v in t.revisions && t.revisions[v].state == Submitted
    requires v in t.cases && t.cases[v] == CasePending
    requires t.publications == kept + NewPublications(v, WithOronBox(plan), base, t.now)
    requires forall p :: p in kept ==> kept[p].revision != v
    ensures IsSubmitted(t, v, plan)
  {
    MergedRowsAreNew(t, kept, NewPublications(v, WithOronBox(plan), base, t.now), v, plan, base);
  }

  lemma AdminSubmittedTable(s: State, r: Id, v: Id)
    requires r in s.resources && v in s.revisions
    ensures var u, t := Bump(AdminSubmitted(s, r, v), r), DoAdminSubmit(s, r, v);
            && u.publications == AdminSubmittedPublications(s, r, v) && u.now == s.now
            && t.publications == u.publications + NewPublications(v, WithOronBox(s.revisions[v].plan), u.next, u.now)
            && t.revisions == AdminSubmittedRevisions(s, r, v) && t.cases == AdminSubmittedCases(s, r, v)
            && t.now == s.now
  {
  }

  lemma AdminSubmittedPlan(s: State, r: Id, v: Id)
    requires v in s.revisions
    ensures var row := AdminSubmittedRevisions(s, r, v)[v];
            && row.state == Submitted
            && forall target :: target in row.plan <==> target in s.revisions[v].plan || target == OronBox
    ensures AdminSubmittedCases(s, r, v)[v] == CasePending
  {
    forall target ensures target in WithOronBox(s.revisions[v].plan) <==>
                          target in s.revisions[v].plan || target == OronBox {
      RequestedTargets(s.revisions[v].plan, target);
    }
  }

  /** An administrator's, whose stored plan then names all the targets. */
  lemma AdminSubmissionIsMade(s: State, r: Id, v: Id)
    requires Inv(s) && r in s.resources && IsDraftOf(s, v, r) && Distinct(s.revisions[v].plan)
    ensures IsSubmitted(DoAdminSubmit(s, r, v), v, s.revisions[v].plan)
    ensures forall target :: target in DoAdminSubmit(s, r, v).revisions[v].plan
                             <==> target in s.revisions[v].plan || target == OronBox
  {
    AdminSubmittedTable(s, r, v);
    AdminSubmittedPlan(s, r, v);
    assert RevisionOk(s, v);
    var kept := AdminSubmittedPublications(s, r, v);
    forall p | p in kept ensures kept[p].revision != v { assert PublicationOk(s, p); }
    InsertedRowsAreNew(DoAdminSubmit(s, r, v), kept, v, s.revisions[v].plan, Bump(AdminSubmitted(s, r, v), r).next);
  }
}
