/** What each transaction and each executor or poller access does to the
  database, row by row. A step whose guard fails leaves the state unchanged:
  that is a rolled-back or zero-row transaction. Answers of external sites,
  review input and clock advances are parameters of the step. */
module Steps {
  import opened Common
  import opened Tables

  const BUSY_DELAY := 60
  const POLL_INTERVAL := 300
  const POLL_LEASE := 300
  const REOPEN_INTERVAL := 15
  const MAX_ATTEMPTS := 5
  const MAX_BATCH := 100

  /** What GitHub said about a pull request. `NoAnswer` covers every error on
    the way there. */
  datatype Answer = NoAnswer | Answer(merged: bool, closed: bool, catalogApplied: bool, reopening: bool)

  datatype Action =
    | CreateResource(owner: Id)
    | SaveBundle(owner: Id, resource: Id, plan: seq<Target>, submit: bool, expected: Option<nat>, saved: Option<Id>,
                 number: nat)
    | AdminCreateDraft(resource: Id, base: Id, plan: seq<Target>, expected: Option<nat>, number: nat)
    | AdminUpdateDraft(resource: Id, revision: Id, plan: seq<Target>, expected: Option<nat>)
    | AdminDiscardDraft(resource: Id, revision: Id)
    | AdminSubmitDraft(resource: Id, revision: Id, expected: Option<nat>, ready: bool)
    | Review(revision: Id, approve: bool)
    | ReviewBatch(revisions: seq<Id>, approve: bool)
    | Takedown(owner: Id, resource: Id)
    | Restore(owner: Id, resource: Id)
    | AdminModerate(resource: Id, moderation: Moderation)
    | Purge(resource: Id)
    | Delete(owner: Id, resource: Id, remoteTargets: bool)
    | Requeue(publication: Id, requester: Option<Id>)
    | CancelPublication(publication: Id)
    | RequeueFailed(selected: set<Id>)
    | Reopen(owner: Id, revision: Id, publication: Id)
    | ReopenEnd(resource: Id, performed: bool)
    | Claim(executor: Id, publication: Id)
    | GiveBack(executor: Id)
    | Lock(executor: Id)
    | CheckEligible(executor: Id)
    | CheckFails(executor: Id)
    | Finish(executor: Id, pullRequest: nat)
    | Fail(executor: Id)
    | Unlock(executor: Id)
    | Crash(executor: Id)
    | PollClaim(poller: Id, publication: Id)
    | PollRetire(poller: Id)
    | PollResult(poller: Id, answer: Answer)
    | PollCrash(poller: Id)
    | Tick(seconds: nat)

  // ---------------------------------------------------------------- helpers

  /** pg_try_advisory_lock, or its transaction-level twin, would get the lock. */
  predicate LockFree(s: State, r: Id) {
    r !in s.locks && r !in s.reopens
  }

  predicate VersionMatches(s: State, r: Id, expected: Option<nat>)
    requires r in s.resources
  {
    expected.Some? ==> expected.value == s.resources[r].editVersion
  }

  /** `n` is one more than the greatest number among the kept revisions of `r`
    (1 when there are none). */
  predicate IsNextNumber(s: State, r: Id, n: nat, ignoreDrafts: bool) {
    && (forall v :: v in s.revisions && BelongsTo(s, v, r) && !(ignoreDrafts && IsDraftOf(s, v, r)) ==>
                      s.revisions[v].number < n)
    && (n == 1 || exists v ::
          v in s.revisions && BelongsTo(s, v, r) && !(ignoreDrafts && IsDraftOf(s, v, r))
          && s.revisions[v].number + 1 == n)
  }

  /** `saved` is the highest-numbered draft of `r`, if `r` has a draft. */
  predicate IsSavedDraft(s: State, r: Id, saved: Option<Id>) {
    match saved
    case None => forall v :: v in s.revisions ==> !IsDraftOf(s, v, r)
    case Some(d) =>
      && IsDraftOf(s, d, r)
      && forall v :: v in s.revisions && IsDraftOf(s, v, r) ==> s.revisions[v].number <= s.revisions[d].number
  }

  function WithOronBox(plan: seq<Target>): seq<Target> {
    if OronBox in plan then plan else plan + [OronBox]
  }

  function Bumped(resource: Resource): Resource {
    resource.(editVersion := resource.editVersion + 1)
  }

  function NewPublication(v: Id, target: Target, now: int): Publication {
    Publication(v, target, Pending, 0, now, None, None, [])
  }

  /** The rows inserted for a submitted plan, one per target, with the ids
    base, base+1, ... in the order of the plan. */
  function NewPublications(v: Id, plan: seq<Target>, base: Id, now: int): (rows: map<Id, Publication>)
    ensures forall p :: p in rows <==> base <= p < base + |plan|
    ensures forall p :: p in rows ==> rows[p] == NewPublication(v, plan[p - base], now)
  {
    if plan == [] then map[]
    else
      var n := |plan| - 1;
      NewPublications(v, plan[..n], base, now)[base + n := NewPublication(v, plan[n], now)]
  }

  function WithRows(s: State, v: Id, plan: seq<Target>): State {
    s.(publications := s.publications + NewPublications(v, plan, s.next, s.now), next := s.next + |plan|)
  }

  /** Every edit of a resource moves its edit version on. */
  function Bump(s: State, r: Id): State
    requires r in s.resources
  {
    s.(resources := s.resources[r := Bumped(s.resources[r])])
  }

  /** min(3600, 15 * 2^attempt) seconds. */
  function RetryDelay(attempt: nat): nat {
    var delay := 15 * Pow2(attempt);
    if delay < 3600 then delay else 3600
  }

  function Pow2(n: nat): nat {
    if n == 0 then 1 else 2 * Pow2(n - 1)
  }

  // ------------------------------------------------------- creator and admin

  function DoCreateResource(s: State, owner: Id): State {
    s.(resources := s.resources[s.next := Resource(owner, Visible, None, None, 0)], next := s.next + 1)
  }

  predicate CanSaveBundle(s: State, owner: Id, r: Id, plan: seq<Target>, expected: Option<nat>, saved: Option<Id>,
                          number: nat) {
    && r in s.resources
    && s.resources[r].owner == owner
    && VersionMatches(s, r, expected)
    && s.resources[r].moderation != Frozen
    && s.resources[r].moderation != Deleted
    && Distinct(plan)
    && IsSavedDraft(s, r, saved)
    && IsNextNumber(s, r, number, true)
  }

  /** The id of the saved revision: the draft's own, or a new one. */
  function SavedId(s: State, saved: Option<Id>): Id {
    if saved.Some? then saved.value else s.next
  }

  /** All drafts of `r` make way for one new revision; submitting it retires
    the revision that was waiting for review. */
  function SavedRevisions(s: State, r: Id, v: Id, row: Revision): map<Id, Revision> {
    (map w | w in s.revisions && !IsDraftOf(s, w, r) ::
       if row.state == Submitted && s.revisions[w].resource == r && s.revisions[w].state == Submitted
       then s.revisions[w].(state := Superseded) else s.revisions[w])
    [v := row]
  }

  function SavedCases(s: State, r: Id, v: Id, submit: bool): map<Id, CaseState> {
    var kept := map w | w in s.cases && !IsDraftOf(s, w, r) ::
                  if submit && BelongsTo(s, w, r) && s.cases[w] == CasePending then CaseSuperseded else s.cases[w];
    if submit then kept[v := CasePending] else kept
  }

  /** Whatever waited for dispatch or was being dispatched is cancelled. */
  function KeptPublications(s: State, r: Id, submit: bool): map<Id, Publication> {
    map p | p in s.publications && !IsDraftOf(s, s.publications[p].revision, r) ::
      if submit && IsFor(s, p, r) && s.publications[p].state in {Pending, Running}
      then s.publications[p].(state := Cancelled) else s.publications[p]
  }

  function SavedRow(r: Id, number: nat, submit: bool, plan: seq<Target>): Revision {
    Revision(r, number, if submit then Submitted else Draft, Creator, plan)
  }

  /** The tables with the saved revision, before its publications. */
  function Saved(s: State, r: Id, v: Id, plan: seq<Target>, submit: bool, number: nat): State {
    s.(
    revisions := SavedRevisions(s, r, v, SavedRow(r, number, submit, plan)),
    cases := SavedCases(s, r, v, submit),
    publications := KeptPublications(s, r, submit),
    next := s.next + 1)
  }

  function DoSaveBundle(s: State, r: Id, v: Id, plan: seq<Target>, submit: bool, number: nat): State
    requires r in s.resources
  {
    var saved := Saved(s, r, v, plan, submit, number);
    Bump(if submit then WithRows(saved, v, WithOronBox(plan)) else saved, r)
  }

  predicate CanAdminCreateDraft(s: State, r: Id, base: Id, expected: Option<nat>, number: nat) {
    && r in s.resources
    && VersionMatches(s, r, expected)
    && BelongsTo(s, base, r)
    && (forall v :: v in s.revisions && IsDraftOf(s, v, r) ==> s.revisions[v].via != Admin)
    && IsNextNumber(s, r, number, false)
  }

  function DoAdminCreateDraft(s: State, r: Id, base: Id, plan: seq<Target>, number: nat): State
    requires r in s.resources && base in s.revisions
  {
    s.(
    resources := s.resources[r := Bumped(s.resources[r])],
    revisions := s.revisions[s.next :=
    Revision(r, number, Draft, Admin, if plan == [] then s.revisions[base].plan else plan)],
    next := s.next + 1)
  }

  /** An admin's own draft, or a revision still waiting for its review. */
  predicate IsAdminEditable(s: State, r: Id, v: Id) {
    && BelongsTo(s, v, r)
    && ((s.revisions[v].state == Draft && s.revisions[v].via == Admin)
        || (s.revisions[v].state == Submitted && v in s.cases && s.cases[v] == CasePending))
  }

  function DoAdminUpdateDraft(s: State, r: Id, v: Id, plan: seq<Target>): State
    requires r in s.resources && v in s.revisions
  {
    s.(resources := s.resources[r := Bumped(s.resources[r])],
    revisions := s.revisions[v := s.revisions[v].(plan := plan)])
  }

  /** Deleting a revision row cascades to its case and publications. */
  function DoAdminDiscardDraft(s: State, v: Id): State {
    s.(
    revisions := s.revisions - {v},
    cases := s.cases - {v},
    publications := map p | p in s.publications && s.publications[p].revision != v :: s.publications[p])
  }

  predicate CanAdminSubmit(s: State, r: Id, v: Id, expected: Option<nat>, ready: bool) {
    && r in s.resources
    && IsDraftOf(s, v, r)
    && s.revisions[v].via == Admin
    && VersionMatches(s, r, expected)
    && ready
    && Distinct(s.revisions[v].plan)
  }

  function AdminSubmittedRevisions(s: State, r: Id, v: Id): map<Id, Revision> {
    map w | w in s.revisions ::
      if w == v then s.revisions[w].(state := Submitted, plan := WithOronBox(s.revisions[w].plan))
      else if s.revisions[w].resource == r && s.revisions[w].state == Submitted
      then s.revisions[w].(state := Superseded)
      else s.revisions[w]
  }

  function AdminSubmittedCases(s: State, r: Id, v: Id): map<Id, CaseState> {
    (map w | w in s.cases ::
       if w != v && BelongsTo(s, w, r) && s.cases[w] == CasePending then CaseSuperseded else s.cases[w])
    [v := CasePending]
  }

  /** Unlike the creator's submission, this one cancels pending rows only. */
  function AdminSubmittedPublications(s: State, r: Id, v: Id): map<Id, Publication> {
    map p | p in s.publications ::
      if IsFor(s, p, r) && s.publications[p].revision != v && s.publications[p].state == Pending
      then s.publications[p].(state := Cancelled) else s.publications[p]
  }

  /** The tables with the submitted revision, before its publications. */
  function AdminSubmitted(s: State, r: Id, v: Id): State {
    s.(
    revisions := AdminSubmittedRevisions(s, r, v),
    cases := AdminSubmittedCases(s, r, v),
    publications := AdminSubmittedPublications(s, r, v))
  }

  function DoAdminSubmit(s: State, r: Id, v: Id): State
    requires r in s.resources && v in s.revisions
  {
    WithRows(Bump(AdminSubmitted(s, r, v), r), v, WithOronBox(s.revisions[v].plan))
  }

  // ------------------------------------------------------------------ review

  predicate CanDecide(s: State, v: Id) {
    && v in s.cases && s.cases[v] == CasePending
    && v in s.revisions
    && s.revisions[v].resource in s.resources
    && LockFree(s, s.revisions[v].resource)
  }

  /** The resource row after its revision `v` was approved. */
  function AfterApproval(resource: Resource, v: Id): Resource {
    var visible := if resource.moderation == Suspended then resource.(moderation := Visible, moderatedBy := None)
                   else resource;
    Bumped(visible.(current := Some(v)))
  }

  /** The approved revision takes over from the current one. */
  function DecidedRevisions(s: State, v: Id, approve: bool): map<Id, Revision>
    requires v in s.revisions && s.revisions[v].resource in s.resources
  {
    var current := s.resources[s.revisions[v].resource].current;
    map w | w in s.revisions ::
      if w == v then s.revisions[w].(state := if approve then Approved else Rejected)
      else if approve && current == Some(w) && s.revisions[w].state == Approved
      then s.revisions[w].(state := Superseded)
      else s.revisions[w]
  }

  /** Every publication of the decided revision is overwritten, whatever its
    state was. */
  function DecidedPublications(s: State, v: Id, approve: bool): map<Id, Publication> {
    map p | p in s.publications ::
      if s.publications[p].revision != v then s.publications[p]
      else s.publications[p].(state := if !approve then Cancelled else if s.publications[p].target == OronBox
           then Published else Pending)
  }

  function DoDecide(s: State, v: Id, approve: bool): State
    requires v in s.revisions && s.revisions[v].resource in s.resources
  {
    var r := s.revisions[v].resource;
    s.(
    resources := if approve then s.resources[r := AfterApproval(s.resources[r], v)] else s.resources,
    revisions := DecidedRevisions(s, v, approve),
    cases := s.cases[v := if approve then CaseApproved else CaseRejected],
    publications := DecidedPublications(s, v, approve))
  }

  /** Decide a list of cases one after another; None as soon as one fails. */
  function DecideAll(s: State, vs: seq<Id>, approve: bool): Option<State>
    decreases |vs|
  {
    if vs == [] then Some(s)
    else if !CanDecide(s, vs[0]) then None
    else DecideAll(DoDecide(s, vs[0], approve), vs[1..], approve)
  }

  predicate CanStartBatch(s: State, vs: seq<Id>) {
    && 1 <= |vs| <= MAX_BATCH
    && Distinct(vs)
    && forall v :: v in vs ==> v in s.cases && s.cases[v] == CasePending
  }

  function DoReviewBatch(s: State, vs: seq<Id>, approve: bool): State {
    if !CanStartBatch(s, vs) then s else
    match DecideAll(s, vs, approve)
    case None => s
    case Some(t) => t
  }

  // -------------------------------------------------- moderation and deletion

  predicate CanTakedown(s: State, owner: Id, r: Id) {
    && r in s.resources
    && s.resources[r].owner == owner
    && s.resources[r].moderation != Deleted
    && s.resources[r].moderation != Frozen
    && (s.resources[r].moderation == Suspended ==> s.resources[r].moderatedBy == Some(Owner))
  }

  function DoTakedown(s: State, r: Id): State
    requires r in s.resources
  {
    s.(
    resources := s.resources[r := s.resources[r].(moderation := Suspended, moderatedBy := Some(Owner))],
    publications := if s.resources[r].moderation == Suspended then s.publications else
    map p | p in s.publications ::
      if IsFor(s, p, r) && s.publications[p].state in {Pending, Running}
      then s.publications[p].(state := Cancelled) else s.publications[p])
  }

  predicate CanRestore(s: State, owner: Id, r: Id) {
    && r in s.resources
    && s.resources[r].owner == owner
    && s.resources[r].moderation == Suspended
    && s.resources[r].moderatedBy == Some(Owner)
  }

  function DoRestore(s: State, r: Id): State
    requires r in s.resources
  {
    s.(resources := s.resources[r := s.resources[r].(moderation := Visible, moderatedBy := None)])
  }

  predicate CanAdminModerate(s: State, r: Id, m: Moderation) {
    r in s.resources && m != Deleted && s.resources[r].moderation != m
  }

  /** Unlike an owner's takedown, only pending publications are cancelled. */
  function DoAdminModerate(s: State, r: Id, m: Moderation): State
    requires r in s.resources
  {
    if m == Visible then DoRestore(s, r)
    else
      s.(
      resources := s.resources[r := s.resources[r].(moderation := m, moderatedBy := Some(Administrator))],
      publications := map p | p in s.publications ::
        if IsFor(s, p, r) && s.publications[p].state == Pending
        then s.publications[p].(state := Cancelled) else s.publications[p])
  }

  predicate CanPurge(s: State, r: Id) {
    r in s.resources && forall v :: v in s.revisions ==> !BelongsTo(s, v, r)
  }

  predicate CanDelete(s: State, owner: Id, r: Id) {
    && r in s.resources
    && s.resources[r].owner == owner
    && LockFree(s, r)
    && r !in s.deletions
  }

  predicate HasHistory(s: State, r: Id) {
    exists p :: p in s.publications && IsFor(s, p, r)
  }

  function DoDelete(s: State, r: Id, remoteTargets: bool): State
    requires r in s.resources
  {
    if HasHistory(s, r) || remoteTargets then
      s.(
      deletions := s.deletions + {r},
      publications := map p | p in s.publications ::
        if IsFor(s, p, r) && s.publications[p].state in {Pending, Running, Reviewing, Failed}
        then s.publications[p].(state := Cancelled, lease := None) else s.publications[p],
        resources := s.resources[r := Bumped(s.resources[r].(moderation := Deleted, moderatedBy := Some(Owner)))])
    else
      s.(
      deletions := s.deletions + {r},
      resources := s.resources - {r},
      revisions := (map v | v in s.revisions && s.revisions[v].resource != r :: s.revisions[v]),
      cases := (map v | v in s.cases && !BelongsTo(s, v, r) :: s.cases[v]))
  }

  // ------------------------------------------------- retry, cancel and reopen

  predicate CanRequeue(s: State, p: Id, owner: Option<Id>) {
    && p in s.publications
    && s.publications[p].state in {Failed, Cancelled}
    && LeaseFree(s.publications[p], s.now)
    && Eligible(s, s.publications[p].revision)
    && (owner.Some? ==> s.resources[s.revisions[s.publications[p].revision].resource].owner == owner.value)
  }

  function DoRequeue(s: State, p: Id): State
    requires p in s.publications
  {
    s.(publications := s.publications[p := s.publications[p].(state := Pending, nextAttempt := s.now)])
  }

  predicate CanCancel(s: State, p: Id) {
    && p in s.publications
    && s.publications[p].state in {Pending, Failed, Reviewing}
    && LeaseFree(s.publications[p], s.now)
  }

  function DoCancel(s: State, p: Id): State
    requires p in s.publications
  {
    s.(publications := s.publications[p := s.publications[p].(state := Cancelled, lease := None)])
  }

  /** Rows the batch retry changes: failed, selected by the filter, and on an
    approved current revision of a visible resource. */
  predicate IsRetryable(s: State, p: Id) {
    && p in s.publications
    && s.publications[p].state == Failed
    && LeaseFree(s.publications[p], s.now)
    && Eligible(s, s.publications[p].revision)
  }

  function DoRequeueFailed(s: State, selected: set<Id>): State {
    s.(publications := map p | p in s.publications ::
      if p in selected && IsRetryable(s, p)
      then s.publications[p].(state := Pending, nextAttempt := s.now) else s.publications[p])
  }

  /** A newer submission of the same resource is already under way. */
  predicate HasNewerSubmission(s: State, p: Id)
    requires p in s.publications && s.publications[p].revision in s.revisions
  {
    var rev := s.revisions[s.publications[p].revision];
    exists q :: q in s.publications && IsFor(s, q, rev.resource) && s.publications[q].target == AstroBox
                && s.publications[q].state != Cancelled
                && s.revisions[s.publications[q].revision].number > rev.number
  }

  /** What RequestAstroBoxReopen checks before it goes to the external site. */
  predicate CanReopen(s: State, owner: Id, v: Id, p: Id) {
    && v in s.cases
    && v in s.revisions
    && s.revisions[v].resource in s.resources
    && s.resources[s.revisions[v].resource].owner == owner
    && p in s.publications
    && s.publications[p].revision == v
    && s.publications[p].target == AstroBox
    && s.resources[s.revisions[v].resource].moderation == Visible
    && s.publications[p].state in {Reviewing, Failed}
    && !HasNewerSubmission(s, p)
    && LockFree(s, s.revisions[v].resource)
  }

  /** The checks are passed and the lock is held; the external request begins. */
  function DoReopen(s: State, v: Id, p: Id): State
    requires v in s.revisions
  {
    s.(reopens := s.reopens[s.revisions[v].resource := p])
  }

  /** The external request is over. If it went through, the publication is
    written whatever its state has become meanwhile; then the lock is free. */
  function DoReopenEnd(s: State, r: Id, performed: bool): State
    requires r in s.reopens
  {
    var p := s.reopens[r];
    s.(
    publications := if performed && p in s.publications
    then s.publications[p :=
         s.publications[p].(state := Reviewing, lease := None, nextAttempt := s.now)]
    else s.publications,
      reopens := s.reopens - {r})
  }

  // ---------------------------------------------------------------- executor

  predicate CanClaim(s: State, e: Id, p: Id) {
    && e !in s.executors
    && p in s.publications
    && s.publications[p].state == Pending
    && s.publications[p].target != OronBox
    && s.publications[p].nextAttempt <= s.now
    && Eligible(s, s.publications[p].revision)
  }

  function DoClaim(s: State, e: Id, p: Id): State
    requires CanClaim(s, e, p)
  {
    var row := s.publications[p];
    var n := row.attempts + 1;
    s.(
    publications := s.publications[p := row.(state := Running, attempts := n, history := row.history + [Started(n)])],
    executors := s.executors[e :=
    Executor(p, row.revision, s.revisions[row.revision].resource, row.target, n, Claimed)])
  }

  predicate InPhase(s: State, e: Id, phase: Phase) {
    && e in s.executors
    && s.executors[e].phase == phase
    && s.executors[e].publication in s.publications
  }

  function AtPhase(s: State, e: Id, phase: Phase): map<Id, Executor>
    requires e in s.executors
  {
    s.executors[e := s.executors[e].(phase := phase)]
  }

  /** The lock could not be had: the claim is returned after a minute. */
  function DoGiveBack(s: State, e: Id): State
    requires InPhase(s, e, Claimed)
  {
    var x := s.executors[e];
    var row := s.publications[x.publication];
    s.(
    executors := s.executors - {e},
    publications := if row.state != Running then s.publications else
    s.publications[x.publication :=
    row.(state := Pending, nextAttempt := s.now + BUSY_DELAY,
    history := row.history + [Busy(x.attempt)])])
  }

  predicate CanLock(s: State, e: Id) {
    InPhase(s, e, Claimed) && LockFree(s, s.executors[e].resource)
  }

  function DoLock(s: State, e: Id): State
    requires CanLock(s, e)
  {
    s.(locks := s.locks[s.executors[e].resource := e], executors := AtPhase(s, e, Locked))
  }

  function DoCheckEligible(s: State, e: Id): State
    requires InPhase(s, e, Locked)
  {
    var p := s.executors[e].publication;
    var row := s.publications[p];
    if row.state == Running && Eligible(s, row.revision) then s.(executors := AtPhase(s, e, Calling))
    else
      s.(
      executors := AtPhase(s, e, Refused),
      publications := if row.state == Running then s.publications[p := row.(state := Cancelled)] else s.publications)
  }

  predicate CanFinish(s: State, e: Id) {
    InPhase(s, e, Calling) && s.publications[s.executors[e].publication].state == Running
  }

  /** The finished row of the executor's own publication. */
  function FinishedRow(row: Publication, x: Executor, pullRequest: nat, now: int): Publication {
    var outcome := if x.target == AstroBox then Reviewing else Published;
    row.(
    state := outcome,
    nextAttempt := if outcome == Reviewing then now + POLL_INTERVAL else row.nextAttempt,
    pullRequest := if x.target == AstroBox then Some(pullRequest) else None,
    history := row.history + [Done(x.attempt, outcome)])
  }

  /** Record the external result; an AstroBox submission also retires the other
    entries of the resource that follow the same pull request. */
  function DoFinish(s: State, e: Id, pullRequest: nat): State
    requires InPhase(s, e, Calling)
  {
    var x := s.executors[e];
    s.(
    executors := AtPhase(s, e, Finished),
    publications := map p | p in s.publications ::
      if p == x.publication then FinishedRow(s.publications[p], x, pullRequest, s.now)
      else if x.target == AstroBox && IsFor(s, p, x.resource) && s.publications[p].target == AstroBox
              && s.publications[p].state == Reviewing
              && s.publications[p].pullRequest == Some(pullRequest)
      then s.publications[p].(state := Cancelled, lease := None)
      else s.publications[p])
  }

  /** The row after a failed execution of attempt `n`. */
  function FailedRow(row: Publication, n: nat, now: int): Publication {
    var delay := RetryDelay(n);
    row.(
    state := if n >= MAX_ATTEMPTS then Failed else Pending,
    nextAttempt := now + delay,
    history := row.history + [if n >= MAX_ATTEMPTS then GaveUp(n) else Retry(n, delay)])
  }

  function DoFail(s: State, e: Id): State
    requires InPhase(s, e, Calling)
  {
    var x := s.executors[e];
    var row := s.publications[x.publication];
    s.(
    executors := AtPhase(s, e, Finished),
    publications := if row.state == Running then s.publications[x.publication := FailedRow(row, x.attempt, s.now)]
    else s.publications)
  }

  predicate CanUnlock(s: State, e: Id) {
    InPhase(s, e, Refused) || InPhase(s, e, Finished)
  }

  /** The executor's session is gone, and with it any lock it held. */
  function DoLeave(s: State, e: Id): State {
    s.(executors := s.executors - {e}, locks := map r | r in s.locks && s.locks[r] != e :: s.locks[r])
  }

  // ------------------------------------------------------------------ poller

  predicate CanPoll(s: State, q: Id, p: Id) {
    && q !in s.pollers
    && p in s.publications
    && s.publications[p].target == AstroBox
    && s.publications[p].state == Reviewing
    && s.publications[p].nextAttempt <= s.now
    && LeaseFree(s.publications[p], s.now)
  }

  function DoPollClaim(s: State, q: Id, p: Id): State
    requires CanPoll(s, q, p)
  {
    s.(
    publications := s.publications[p := s.publications[p].(lease := Some(Lease(s.next, s.now + POLL_LEASE)))],
    pollers := s.pollers[q := Poller(p, s.next)],
    next := s.next + 1)
  }

  /** The poller's claim is still the one on the row. */
  predicate HoldsLease(s: State, q: Id) {
    && q in s.pollers
    && s.pollers[q].publication in s.publications
    && s.publications[s.pollers[q].publication].state == Reviewing
    && s.publications[s.pollers[q].publication].lease.Some?
    && s.publications[s.pollers[q].publication].lease.value.token == s.pollers[q].token
  }

  /** A newer revision of the resource follows the same pull request. */
  predicate IsOvertaken(s: State, p: Id) {
    && p in s.publications
    && s.publications[p].revision in s.revisions
    && s.publications[p].pullRequest.Some?
    && exists q :: q in s.publications && s.publications[q].revision in s.revisions
                   && s.revisions[s.publications[q].revision].resource
                      == s.revisions[s.publications[p].revision].resource
                   && s.revisions[s.publications[q].revision].number > s.revisions[s.publications[p].revision].number
                   && s.publications[q].target == AstroBox && s.publications[q].state in {Reviewing, Published}
                   && s.publications[q].pullRequest == s.publications[p].pullRequest
  }

  predicate CanRetire(s: State, q: Id) {
    HoldsLease(s, q) && IsOvertaken(s, s.pollers[q].publication)
  }

  function DoPollRetire(s: State, q: Id): State
    requires HoldsLease(s, q)
  {
    var p := s.pollers[q].publication;
    s.(publications := s.publications[p := s.publications[p].(state := Cancelled, lease := None)],
    pollers := s.pollers - {q})
  }

  /** The polled row, given that the lease still holds. */
  function PolledRow(row: Publication, answer: Answer, now: int): Publication {
    var free := row.(lease := None);
    match answer
    case NoAnswer => free.(nextAttempt := now + POLL_INTERVAL)
    case Answer(merged, closed, catalogApplied, reopening) =>
      if merged && catalogApplied then free.(state := Published)
      else if !merged && closed && !reopening then free.(state := Failed)
      else free.(nextAttempt := now + if reopening then REOPEN_INTERVAL else POLL_INTERVAL)
  }

  function DoPollResult(s: State, q: Id, answer: Answer): State
    requires q in s.pollers
  {
    var p := s.pollers[q].publication;
    s.(
    publications := if HoldsLease(s, q) then s.publications[p := PolledRow(s.publications[p], answer, s.now)]
    else s.publications,
         pollers := s.pollers - {q})
  }

  // -------------------------------------------------------------------- runs

  predicate IsRevisionStep(a: Action) {
    || a.CreateResource? || a.SaveBundle? || a.AdminCreateDraft? || a.AdminUpdateDraft? || a.AdminDiscardDraft?
    || a.AdminSubmitDraft?
    || a.Review? || a.ReviewBatch? || a.Purge? || a.Delete?
  }

  predicate IsRowStep(a: Action) {
    || a.Takedown? || a.Restore? || a.AdminModerate? || a.Requeue? || a.CancelPublication? || a.RequeueFailed?
    || a.Reopen? || a.ReopenEnd?
  }

  predicate IsExecutorStep(a: Action) {
    || a.Claim? || a.GiveBack? || a.Lock? || a.CheckEligible? || a.CheckFails? || a.Finish?
    || a.Fail? || a.Unlock? || a.Crash?
  }

  predicate IsPollStep(a: Action) {
    || a.PollClaim? || a.PollRetire? || a.PollResult? || a.PollCrash? || a.Tick?
  }

  /** Steps that add, remove or decide revisions, or add or remove resources. */
  function ApplyRevisionStep(s: State, a: Action): State
    requires IsRevisionStep(a)
  {
    match a
    case CreateResource(owner) => DoCreateResource(s, owner)
    case SaveBundle(owner, r, plan, submit, expected, saved, n) =>
      if CanSaveBundle(s, owner, r, plan, expected, saved, n)
      then DoSaveBundle(s, r, SavedId(s, saved), plan, submit, n) else s
    case AdminCreateDraft(r, base, plan, expected, n) =>
      if CanAdminCreateDraft(s, r, base, expected, n) then DoAdminCreateDraft(s, r, base, plan, n) else s
    case AdminUpdateDraft(r, v, plan, expected) =>
      if r in s.resources && VersionMatches(s, r, expected) && IsAdminEditable(s, r, v)
      then DoAdminUpdateDraft(s, r, v, plan) else s
    case AdminDiscardDraft(r, v) => if IsAdminEditable(s, r, v) then DoAdminDiscardDraft(s, v) else s
    case AdminSubmitDraft(r, v, expected, ready) =>
      if CanAdminSubmit(s, r, v, expected, ready) then DoAdminSubmit(s, r, v) else s
    case Review(v, approve) => if CanDecide(s, v) then DoDecide(s, v, approve) else s
    case ReviewBatch(vs, approve) => DoReviewBatch(s, vs, approve)
    case Purge(r) => if CanPurge(s, r) then s.(resources := s.resources - {r}) else s
    case Delete(owner, r, remoteTargets) => if CanDelete(s, owner, r) then DoDelete(s, r, remoteTargets) else s
  }

  /** Moderation, and the steps that requeue, cancel or reopen publications. */
  function ApplyRowStep(s: State, a: Action): State
    requires IsRowStep(a)
  {
    match a
    case Takedown(owner, r) => if CanTakedown(s, owner, r) then DoTakedown(s, r) else s
    case Restore(owner, r) => if CanRestore(s, owner, r) then DoRestore(s, r) else s
    case AdminModerate(r, m) => if CanAdminModerate(s, r, m) then DoAdminModerate(s, r, m) else s
    case Requeue(p, owner) => if CanRequeue(s, p, owner) then DoRequeue(s, p) else s
    case CancelPublication(p) => if CanCancel(s, p) then DoCancel(s, p) else s
    case RequeueFailed(selected) => DoRequeueFailed(s, selected)
    case Reopen(owner, v, p) => if CanReopen(s, owner, v, p) then DoReopen(s, v, p) else s
    case ReopenEnd(r, performed) => if r in s.reopens then DoReopenEnd(s, r, performed) else s
  }

  function ApplyExecutorStep(s: State, a: Action): State
    requires IsExecutorStep(a)
  {
    match a
    case Claim(e, p) => if CanClaim(s, e, p) then DoClaim(s, e, p) else s
    case GiveBack(e) => if InPhase(s, e, Claimed) then DoGiveBack(s, e) else s
    case Lock(e) => if CanLock(s, e) then DoLock(s, e) else s
    case CheckEligible(e) => if InPhase(s, e, Locked) then DoCheckEligible(s, e) else s
    case CheckFails(e) => if InPhase(s, e, Locked) then s.(executors := AtPhase(s, e, Refused)) else s
    case Finish(e, pullRequest) => if CanFinish(s, e) then DoFinish(s, e, pullRequest) else s
    case Fail(e) => if InPhase(s, e, Calling) then DoFail(s, e) else s
    case Unlock(e) => if CanUnlock(s, e) then DoLeave(s, e) else s
    case Crash(e) => DoLeave(s, e)
  }

  function ApplyPollStep(s: State, a: Action): State
    requires IsPollStep(a)
  {
    match a
    case PollClaim(q, p) => if CanPoll(s, q, p) then DoPollClaim(s, q, p) else s
    case PollRetire(q) => if CanRetire(s, q) then DoPollRetire(s, q) else s
    case PollResult(q, answer) => if q in s.pollers then DoPollResult(s, q, answer) else s
    case PollCrash(q) => s.(pollers := s.pollers - {q})
    case Tick(seconds) => s.(now := s.now + seconds)
  }

  function Apply(s: State, a: Action): State {
    if IsRevisionStep(a) then ApplyRevisionStep(s, a)
    else if IsRowStep(a) then ApplyRowStep(s, a)
    else if IsExecutorStep(a) then ApplyExecutorStep(s, a)
    else ApplyPollStep(s, a)
  }

  /** The state after a sequence of steps, in any interleaving. */
  function Run(s: State, actions: seq<Action>): State
    decreases |actions|
  {
    if actions == [] then s else Apply(Run(s, actions[..|actions| - 1]), actions[|actions| - 1])
  }
}
