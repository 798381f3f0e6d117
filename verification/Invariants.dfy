/** What every reachable database satisfies, and the lemmas that carry it
  through the steps. `Core` is about rows, `Sessions` about the executors and
  pollers that are between two database accesses. */
module Invariants {
  import opened Common
  import opened Tables
  import opened Steps

  // ------------------------------------------------------------ definitions

  ghost predicate ResourceOk(s: State, r: Id)
    requires r in s.resources
  {
    && r < s.next
    && (s.resources[r].current.Some? ==> BelongsTo(s, s.resources[r].current.value, r))
  }

  /** A pending case means a submitted revision and vice versa; an approved
    case is the lasting mark of a revision that was approved once. */
  ghost predicate CaseFits(state: RevisionState, c: CaseState) {
    && (c == CasePending <==> state == Submitted)
    && (c == CaseApproved <==> state == Approved || (state == Superseded && c != CaseSuperseded))
    && (c == CaseRejected <==> state == Rejected)
  }

  ghost predicate HasOronBox(s: State, v: Id) {
    exists p {:trigger IsOronBoxOf(s, p, v)} :: IsOronBoxOf(s, p, v)
  }

  ghost predicate IsOronBoxOf(s: State, p: Id, v: Id) {
    p in s.publications && s.publications[p].revision == v && s.publications[p].target == OronBox
  }

  ghost predicate RevisionOk(s: State, v: Id)
    requires v in s.revisions
  {
    var rev := s.revisions[v];
    && v < s.next
    && rev.resource in s.resources
    && (rev.state == Draft <==> v !in s.cases)
    && (v in s.cases ==> CaseFits(rev.state, s.cases[v]) && HasOronBox(s, v))
    && (rev.state == Approved <==> s.resources[rev.resource].current == Some(v))
  }

  /** Two revisions of one resource differ in number and are not both waiting
    for review. */
  ghost predicate RevisionPairOk(s: State, v: Id, w: Id)
    requires v in s.revisions && w in s.revisions
  {
    v != w && s.revisions[v].resource == s.revisions[w].resource ==>
      && s.revisions[v].number != s.revisions[w].number
      && !(s.revisions[v].state == Submitted && s.revisions[w].state == Submitted)
  }

  /** The rescheduled executions of a row: attempt numbers below the limit,
    each at most once. */
  ghost predicate RetriesOk(row: Publication) {
    var k := Retries(row.history);
    Distinct(k) && forall i :: 0 <= i < |k| ==> 1 <= k[i] <= row.attempts && k[i] < MAX_ATTEMPTS
  }

  /** What the state of the case says about a publication of its revision. */
  ghost predicate RowOk(row: Publication, c: CaseState, next: Id) {
    && (row.lease.Some? ==> row.state == Reviewing && row.lease.value.token < next)
    && (c != CaseApproved ==> row.state in {Pending, Cancelled})
    && (c in {CaseRejected, CaseSuperseded} ==> row.state == Cancelled)
    && (c == CaseApproved && row.target == OronBox ==> row.state == Published)
    && RetriesOk(row)
  }

  ghost predicate PublicationOk(s: State, p: Id)
    requires p in s.publications
  {
    var row := s.publications[p];
    p < s.next && row.revision in s.revisions && row.revision in s.cases && RowOk(row, s.cases[row.revision], s.next)
  }

  /** `publications` is UNIQUE(revision_id, target). */
  ghost predicate PublicationPairOk(s: State, p: Id, q: Id)
    requires p in s.publications && q in s.publications
  {
    p != q ==>
      || s.publications[p].revision != s.publications[q].revision
      || s.publications[p].target != s.publications[q].target
  }

  ghost predicate RevisionTables(s: State) {
    && (forall r {:trigger ResourceOk(s, r)} :: r in s.resources ==> ResourceOk(s, r))
    && (forall v {:trigger RevisionOk(s, v)} :: v in s.revisions ==> RevisionOk(s, v))
    && (forall v :: v in s.cases ==> v in s.revisions)
    && (forall v, w {:trigger RevisionPairOk(s, v, w)} :: v in s.revisions && w in s.revisions ==>
                                                            RevisionPairOk(s, v, w))
  }

  ghost predicate PublicationTable(s: State) {
    && (forall p {:trigger PublicationOk(s, p)} :: p in s.publications ==> PublicationOk(s, p))
    && (forall p, q {:trigger PublicationPairOk(s, p, q)} :: p in s.publications && q in s.publications ==>
                                                               PublicationPairOk(s, p, q))
  }

  ghost predicate Core(s: State) {
    var holds := RevisionTables(s) && PublicationTable(s);
    holds
  }

  ghost predicate ExecutorOk(s: State, e: Id)
    requires e in s.executors
  {
    var x := s.executors[e];
    && x.publication in s.publications
    && x.revision in s.revisions
    && x.revision in s.cases && s.cases[x.revision] == CaseApproved
    && s.revisions[x.revision].resource == x.resource
    && x.resource in s.resources
    && x.target != OronBox
    && var row := s.publications[x.publication];
    && row.revision == x.revision
    && row.target == x.target
    && 1 <= x.attempt <= row.attempts
    && (x.phase in {Claimed, Locked, Calling} ==> x.attempt !in Retries(row.history))
    && (x.phase != Claimed <==> x.resource in s.locks && s.locks[x.resource] == e)
    && (x.phase in {Calling, Finished} ==>
          s.revisions[x.revision].state == Approved && s.resources[x.resource].moderation != Deleted)
  }

  /** No two executors run the same attempt of a publication. */
  ghost predicate ExecutorPairOk(s: State, e: Id, f: Id)
    requires e in s.executors && f in s.executors
  {
    e != f && s.executors[e].publication == s.executors[f].publication ==>
      s.executors[e].attempt != s.executors[f].attempt
  }

  /** A reopen request in flight is about the AstroBox publication of an
    approved revision of the resource that it has locked. */
  ghost predicate ReopenOk(s: State, r: Id)
    requires r in s.reopens
  {
    var p := s.reopens[r];
    && p in s.publications
    && IsFor(s, p, r)
    && s.publications[p].revision in s.cases && s.cases[s.publications[p].revision] == CaseApproved
    && s.publications[p].target == AstroBox
    && r !in s.locks
  }

  ghost predicate Sessions(s: State) {
    && (forall e {:trigger ExecutorOk(s, e)} :: e in s.executors ==> ExecutorOk(s, e))
    && (forall e, f {:trigger ExecutorPairOk(s, e, f)} :: e in s.executors && f in s.executors ==>
                                                            ExecutorPairOk(s, e, f))
    && (forall r :: r in s.locks ==> s.locks[r] in s.executors && s.executors[s.locks[r]].resource == r)
    && (forall q :: q in s.pollers ==> s.pollers[q].token < s.next)
    && (forall r {:trigger ReopenOk(s, r)} :: r in s.reopens ==> ReopenOk(s, r))
  }

  /** The invariant, taken as one proposition. */
  ghost predicate Inv(s: State) {
    var holds := Core(s) && Sessions(s);
    holds
  }

  // ------------------------------------------- steps that move no revision

  ghost predicate KeptRow(s: State, t: State, p: Id)
    requires p in s.publications && p in t.publications
  {
    var row := s.publications[p];
    && t.publications[p].revision == row.revision
    && t.publications[p].target == row.target
    && (row.revision in s.cases ==> RowOk(t.publications[p], s.cases[row.revision], t.next))
  }

  ghost predicate KeptResource(s: State, t: State, r: Id)
    requires r in s.resources && r in t.resources
  {
    t.resources[r].current == s.resources[r].current
  }

  /** Revisions, cases and current pointers stand still; every publication
    keeps its identity and still fits its case. */
  ghost predicate KeepsRevisions(s: State, t: State) {
    && t.revisions == s.revisions
    && t.cases == s.cases
    && s.next <= t.next
    && t.resources.Keys == s.resources.Keys
    && (forall r {:trigger KeptResource(s, t, r)} :: r in s.resources ==> KeptResource(s, t, r))
    && t.publications.Keys == s.publications.Keys
    && (forall p {:trigger KeptRow(s, t, p)} :: p in s.publications ==> KeptRow(s, t, p))
  }

  lemma CoreKept(s: State, t: State)
    requires Core(s) && KeepsRevisions(s, t)
    ensures Core(t)
  {
    forall r | r in t.resources ensures ResourceOk(t, r) {
      assert ResourceOk(s, r) && KeptResource(s, t, r);
    }
    forall v | v in t.revisions ensures RevisionOk(t, v) {
      assert RevisionOk(s, v) && KeptResource(s, t, s.revisions[v].resource);
      if v in s.cases {
        var p :| IsOronBoxOf(s, p, v);
        assert KeptRow(s, t, p);
        assert IsOronBoxOf(t, p, v);
      }
    }
    forall v, w | v in t.revisions && w in t.revisions ensures RevisionPairOk(t, v, w) {
      assert RevisionPairOk(s, v, w);
    }
    forall p | p in t.publications ensures PublicationOk(t, p) {
      assert PublicationOk(s, p) && KeptRow(s, t, p);
    }
    forall p, q | p in t.publications && q in t.publications ensures PublicationPairOk(t, p, q) {
      assert PublicationPairOk(s, p, q) && KeptRow(s, t, p) && KeptRow(s, t, q);
    }
  }

  /** The row also keeps its execution record. */
  ghost predicate QuietRow(s: State, t: State, p: Id)
    requires p in s.publications && p in t.publications
  {
    var row, changed := s.publications[p], t.publications[p];
    && KeptRow(s, t, p)
    && changed == row.(state := changed.state, nextAttempt := changed.nextAttempt, lease := changed.lease)
  }

  /** The resource is not deleted while it is locked. */
  ghost predicate QuietResource(s: State, t: State, r: Id)
    requires r in s.resources && r in t.resources
  {
    && KeptResource(s, t, r)
    && (r in s.locks && s.resources[r].moderation != Deleted ==> t.resources[r].moderation != Deleted)
  }

  /** The reopen request was in flight before, or has just been let in. */
  ghost predicate QuietReopen(s: State, t: State, r: Id)
    requires r in t.reopens
  {
    (r in s.reopens && t.reopens[r] == s.reopens[r]) || ReopenOk(t, r)
  }

  /** A step that leaves revisions, cases and executors alone. */
  ghost predicate Quiet(s: State, t: State) {
    && t.revisions == s.revisions
    && t.cases == s.cases
    && t.resources.Keys == s.resources.Keys
    && (forall r {:trigger QuietResource(s, t, r)} :: r in s.resources ==> QuietResource(s, t, r))
    && t.publications.Keys == s.publications.Keys
    && (forall p {:trigger QuietRow(s, t, p)} :: p in s.publications ==> QuietRow(s, t, p))
    && t.executors == s.executors
    && t.locks == s.locks
    && (forall r {:trigger QuietReopen(s, t, r)} :: r in t.reopens ==> QuietReopen(s, t, r))
    && s.next <= t.next
    && (forall q :: q in t.pollers ==> t.pollers[q].token < t.next)
  }

  lemma QuietKeeps(s: State, t: State)
    requires Inv(s) && Quiet(s, t)
    ensures Inv(t)
  {
    forall r | r in s.resources ensures KeptResource(s, t, r) { assert QuietResource(s, t, r); }
    forall p | p in s.publications ensures KeptRow(s, t, p) { assert QuietRow(s, t, p); }
    CoreKept(s, t);
    forall e | e in t.executors ensures ExecutorOk(t, e) {
      var x := s.executors[e];
      assert ExecutorOk(s, e) && QuietRow(s, t, x.publication) && QuietResource(s, t, x.resource);
    }
    forall e, f | e in t.executors && f in t.executors ensures ExecutorPairOk(t, e, f) {
      assert ExecutorPairOk(s, e, f);
    }
    forall r | r in t.reopens ensures ReopenOk(t, r) {
      assert QuietReopen(s, t, r);
      if r in s.reopens && t.reopens[r] == s.reopens[r] { assert ReopenOk(s, r) && QuietRow(s, t, s.reopens[r]); }
    }
  }

  // ------------------------------- steps that move revisions, not executors

  /** What an executor relies on while others work: its publication and the
    attempts recorded on it, and the fate of the resource it has locked. */
  ghost predicate Spares(s: State, t: State, x: Executor) {
    && x.publication in s.publications && x.publication in t.publications
    && t.publications[x.publication] == s.publications[x.publication].(state := t.publications[x.publication].state)
    && x.revision in s.revisions && x.revision in t.revisions
    && t.revisions[x.revision].resource == s.revisions[x.revision].resource
    && x.revision in t.cases && t.cases[x.revision] == CaseApproved
    && x.resource in s.resources && x.resource in t.resources
    && (x.phase != Claimed ==>
          && t.revisions[x.revision].state == s.revisions[x.revision].state
          && (s.resources[x.resource].moderation != Deleted ==> t.resources[x.resource].moderation != Deleted))
  }

  /** What a reopen request in flight relies on. */
  ghost predicate SparesReopen(s: State, t: State, r: Id)
    requires r in s.reopens
  {
    var p := s.reopens[r];
    && p in s.publications && p in t.publications
    && t.publications[p].revision == s.publications[p].revision && t.publications[p].target == s.publications[p].target
    && IsFor(t, p, r)
    && t.publications[p].revision in t.cases && t.cases[t.publications[p].revision] == CaseApproved
  }

  lemma SessionsKept(s: State, t: State)
    requires Inv(s)
    requires t.executors == s.executors && t.locks == s.locks && t.pollers == s.pollers && t.reopens == s.reopens
             && s.next <= t.next
    requires forall e :: e in s.executors ==> Spares(s, t, s.executors[e])
    requires forall r {:trigger SparesReopen(s, t, r)} :: r in s.reopens ==> SparesReopen(s, t, r)
    ensures Sessions(t)
  {
    forall e | e in t.executors ensures ExecutorOk(t, e) {
      assert ExecutorOk(s, e) && Spares(s, t, s.executors[e]);
    }
    forall e, f | e in t.executors && f in t.executors ensures ExecutorPairOk(t, e, f) {
      assert ExecutorPairOk(s, e, f);
    }
    forall r | r in t.reopens ensures ReopenOk(t, r) { assert ReopenOk(s, r) && SparesReopen(s, t, r); }
  }
}
