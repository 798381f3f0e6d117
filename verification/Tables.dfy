/** The rows that the review, publication and deletion transactions share.

  A table is a map from row ids to rows. New ids and lease tokens are drawn
  from one counter, `next`. Times are whole seconds. */
module Tables {
  import opened Common

  datatype Moderation = Visible | Suspended | Frozen | Deleted

  datatype Moderator = Owner | Administrator

  datatype Resource = Resource(
    owner: Id,
    moderation: Moderation,
    moderatedBy: Option<Moderator>,
    current: Option<Id>,
    editVersion: nat)

  datatype RevisionState = Draft | Submitted | Approved | Rejected | Superseded

  datatype Via = Creator | Admin

  datatype Revision = Revision(resource: Id, number: nat, state: RevisionState, via: Via, plan: seq<Target>)

  /** A review case belongs to exactly one revision (`revision_id` is UNIQUE),
    so cases are keyed by the revision they decide. */
  datatype CaseState = CasePending | CaseApproved | CaseRejected | CaseSuperseded

  datatype Target = OronBox | BandBBS | AstroBox

  datatype PublicationState = Pending | Running | Reviewing | Published | Failed | Cancelled

  datatype Lease = Lease(token: Id, expires: int)

  /** An execute-phase row of `publication_attempts`. `Busy` and `Retry` are
    both recorded as "retry_scheduled"; they differ in whether the executor
    had got as far as an execution. */
  datatype Entry =
    | Started(attempt: nat)
    | Busy(attempt: nat)
    | Retry(attempt: nat, delay: nat)
    | GaveUp(attempt: nat)
    | Done(attempt: nat, outcome: PublicationState)

  datatype Publication = Publication(
    revision: Id,
    target: Target,
    state: PublicationState,
    attempts: nat,
    nextAttempt: int,
    lease: Option<Lease>,
    pullRequest: Option<nat>,
    history: seq<Entry>)

  /** Where an executor stands between two database accesses. `Refused` and
    `Finished` both still hold the resource lock. */
  datatype Phase = Claimed | Locked | Calling | Refused | Finished

  datatype Executor = Executor(publication: Id, revision: Id, resource: Id, target: Target, attempt: nat, phase: Phase)

  /** A poller remembers the lease token that its claim issued. */
  datatype Poller = Poller(publication: Id, token: Id)

  /** The database together with the sessions that are in the middle of a
    non-atomic operation. `deletions` holds the resources that have a row in
    `resource_deletion_operations`. The advisory lock of a resource is held
    either by an executor (`locks` maps the resource to it) or by a reopen
    request (`reopens` maps the resource to the publication it will write). */
  datatype State = State(
    resources: map<Id, Resource>,
    revisions: map<Id, Revision>,
    cases: map<Id, CaseState>,
    publications: map<Id, Publication>,
    deletions: set<Id>,
    locks: map<Id, Id>,
    reopens: map<Id, Id>,
    executors: map<Id, Executor>,
    pollers: map<Id, Poller>,
    next: Id,
    now: int)

  const INITIAL := State(map[], map[], map[], map[], {}, map[], map[], map[], map[], 0, 0)

  predicate BelongsTo(s: State, v: Id, r: Id) {
    v in s.revisions && s.revisions[v].resource == r
  }

  predicate IsDraftOf(s: State, v: Id, r: Id) {
    BelongsTo(s, v, r) && s.revisions[v].state == Draft
  }

  /** The resource a publication row is about. */
  predicate IsFor(s: State, p: Id, r: Id) {
    p in s.publications && BelongsTo(s, s.publications[p].revision, r)
  }

  /** The dispatch condition: approved, current, and publicly visible. */
  predicate Eligible(s: State, v: Id) {
    && v in s.revisions
    && s.revisions[v].state == Approved
    && s.revisions[v].resource in s.resources
    && s.resources[s.revisions[v].resource].current == Some(v)
    && s.resources[s.revisions[v].resource].moderation == Visible
  }

  predicate LeaseFree(p: Publication, now: int) {
    p.lease == None || p.lease.value.expires <= now
  }

  /** Attempts that ended in a failed execution and were rescheduled. */
  function Retries(history: seq<Entry>): (attempts: seq<nat>) {
    if history == [] then []
    else
      var rest := Retries(history[..|history| - 1]);
      var last := history[|history| - 1];
      if last.Retry? then rest + [last.attempt] else rest
  }
}
