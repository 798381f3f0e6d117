/** Guarantees over whole runs for revisions, publications, leases and retries,
  and for a review batch. */
module Guarantees {
  import opened Common
  import opened Tables
  import opened Steps
  import opened Invariants
  import opened Decision
  import opened Theorems
  import opened Lifecycle

  lemma {:induction false} RunEvolves(s: State, actions: seq<Action>)
    requires Inv(s)
    ensures AllEvolve(s, Run(s, actions))
    decreases |actions|
  {
    if actions == [] {
      UntouchedEvolves(s, s);
    } else {
      var before := Run(s, actions[..|actions| - 1]);
      RunEvolves(s, actions[..|actions| - 1]);
      RunKeeps(s, actions[..|actions| - 1]);
      StepEvolves(before, actions[|actions| - 1]);
      forall p | p in s.publications ensures s.publications[p].revision in s.cases && p < s.next {
        assert PublicationOk(s, p);
      }
      EvolveTransitive(s, before, Run(s, actions));
    }
  }

  // --------------------------------------------------- shape of the revisions

  /** In every reachable state: one revision per resource waits for review, and
    exactly the submitted ones have a pending case; the approved revision of a
    resource is its current one; revision numbers are distinct. */
  lemma RevisionShape(actions: seq<Action>)
    ensures var s := Reach(actions);
            && (forall v, w | v in s.revisions && w in s.revisions && s.revisions[v].state == Submitted
                              && s.revisions[w].state == Submitted ::
                  s.revisions[v].resource == s.revisions[w].resource ==> v == w)
            && (forall v :: v in s.cases && s.cases[v] == CasePending <==>
                            v in s.revisions && s.revisions[v].state == Submitted)
            && (forall v, r | r in s.resources ::
                  s.resources[r].current == Some(v) <==> BelongsTo(s, v, r) && s.revisions[v].state == Approved)
            && (forall v, w | v in s.revisions && w in s.revisions && v != w
                              && s.revisions[v].resource == s.revisions[w].resource ::
                  s.revisions[v].number != s.revisions[w].number)
  {
    var s := Reach(actions);
    ReachOk(actions);
    forall v, w | v in s.revisions && w in s.revisions && v != w && s.revisions[v].resource == s.revisions[w].resource
      ensures !(s.revisions[v].state == Submitted && s.revisions[w].state == Submitted)
              && s.revisions[v].number != s.revisions[w].number
    {
      assert RevisionPairOk(s, v, w);
    }
    forall v | v in s.revisions ensures v in s.cases && s.cases[v] == CasePending <==> s.revisions[v].state == Submitted
    {
      assert RevisionOk(s, v);
    }
    forall v, r | r in s.resources
      ensures s.resources[r].current == Some(v) <==> BelongsTo(s, v, r) && s.revisions[v].state == Approved {
      assert ResourceOk(s, r) && (v in s.revisions ==> RevisionOk(s, v));
    }
  }

  // ---------------------------------------------------------------- published

  lemma SettledIsFinal(s: State, actions: seq<Action>, p: Id)
    requires Inv(s) && IsSettled(s, p)
    ensures IsSettled(Run(s, actions), p)
  {
    RunEvolves(s, actions);
    assert Evolves(s, Run(s, actions), p);
  }

  /** The row exists and is published. */
  ghost predicate IsPublished(s: State, p: Id) {
    p in s.publications && s.publications[p].state == Published
  }

  /** A published publication stays published in every continuation, exactly when
    no reopen request that passed its checks before is still under way. */
  lemma PublishedIsFinal(s: State, p: Id)
    requires Inv(s) && IsPublished(s, p)
    ensures (forall actions {:trigger Run(s, actions)} :: IsPublished(Run(s, actions), p)) <==> !IsReopening(s, p)
  {
    if IsReopening(s, p) {
      var r :| r in s.reopens && s.reopens[r] == p;
      RunAppend(s, [], ReopenEnd(r, true));
      assert Run(s, [] + [ReopenEnd(r, true)]) == DoReopenEnd(s, r, true);
    } else {
      forall actions ensures IsPublished(Run(s, actions), p) { SettledIsFinal(s, actions, p); }
    }
  }

  /** A revision that is approved at some point has a published OronBox listing
    then and in every continuation, superseded or not. */
  lemma ApprovedStaysListed(s: State, actions: seq<Action>, v: Id)
    requires Inv(s) && v in s.revisions && s.revisions[v].state == Approved
    ensures exists p :: IsOronBoxOf(Run(s, actions), p, v) && Run(s, actions).publications[p].state == Published
  {
    var t := Run(s, actions);
    assert RevisionOk(s, v);
    var p :| IsOronBoxOf(s, p, v);
    assert PublicationOk(s, p) && s.publications[p].state == Published;
    forall r | r in s.reopens ensures s.reopens[r] != p { assert ReopenOk(s, r); }
    SettledIsFinal(s, actions, p);
    RunEvolves(s, actions);
    assert Evolves(s, t, p);
    assert IsOronBoxOf(t, p, v);
  }

  /** A publication whose revision has not been approved is pending or
    cancelled, so a decision overwrites nothing that was sent anywhere. */
  lemma UndecidedIsNeverDispatched(actions: seq<Action>, p: Id)
    requires p in Reach(actions).publications
    requires var s := Reach(actions);
             s.publications[p].revision in s.cases && s.cases[s.publications[p].revision] != CaseApproved
    ensures Reach(actions).publications[p].state in {Pending, Cancelled}
  {
    ReachOk(actions);
    assert PublicationOk(Reach(actions), p);
  }

  // ------------------------------------------------------------------- leases

  lemma LeaseOnlyWhileReviewing(actions: seq<Action>, p: Id)
    requires p in Reach(actions).publications && Reach(actions).publications[p].lease.Some?
    ensures Reach(actions).publications[p].state == Reviewing
  {
    ReachOk(actions);
    assert PublicationOk(Reach(actions), p);
  }

  /** Row `p` does not carry lease `token`. */
  ghost predicate LeaseGone(s: State, p: Id, token: Id) {
    p in s.publications ==> s.publications[p].lease == None || s.publications[p].lease.value.token != token
  }

  /** A lease that is gone never returns to the row. */
  lemma LostLeaseStaysLost(s: State, actions: seq<Action>, p: Id, token: Id)
    requires Inv(s) && LeaseGone(s, p, token) && token < s.next
    ensures LeaseGone(Run(s, actions), p, token)
  {
    RunEvolves(s, actions);
    assert Evolves(s, Run(s, actions), p);
  }

  /** The step takes the lease off row `p`, or replaces it. */
  ghost predicate TakesLease(s: State, a: Action, p: Id) {
    || (a.CancelPublication? && a.publication == p && CanCancel(s, p))
    || (a.Delete? && IsFor(s, p, a.resource) && CanDelete(s, a.owner, a.resource))
    || (a.ReopenEnd? && a.performed && a.resource in s.reopens && s.reopens[a.resource] == p)
    || (a.PollClaim? && a.publication == p && CanPoll(s, a.poller, p))
    || (a.PollRetire? && CanRetire(s, a.poller) && s.pollers[a.poller].publication == p)
    || (a.PollResult? && HoldsLease(s, a.poller) && s.pollers[a.poller].publication == p)
    || (a.Finish? && CanFinish(s, a.executor) && IsFollower(s, p, s.executors[a.executor], a.pullRequest))
  }

  /** An older entry of the resource that follows the pull request which the
    executor has just reported. */
  ghost predicate IsFollower(s: State, p: Id, x: Executor, pullRequest: nat) {
    && p != x.publication && x.target == AstroBox && IsFor(s, p, x.resource)
    && s.publications[p].target == AstroBox && s.publications[p].state == Reviewing
    && s.publications[p].pullRequest == Some(pullRequest)
  }

  lemma WrittenLeaseIsGone(s: State, a: Action, p: Id, token: Id)
    requires Inv(s) && p in s.publications && TakesLease(s, a, p) && token < s.next
    ensures IsRowStep(a) ==> LeaseGone(ApplyRowStep(s, a), p, token)
    ensures IsRevisionStep(a) ==> LeaseGone(ApplyRevisionStep(s, a), p, token)
  {
    assert PublicationOk(s, p);
    if a.Delete? { assert HasHistory(s, a.resource); }
  }

  lemma PolledLeaseIsGone(s: State, a: Action, p: Id, token: Id)
    requires Inv(s) && p in s.publications && TakesLease(s, a, p) && token < s.next
    ensures IsPollStep(a) ==> LeaseGone(ApplyPollStep(s, a), p, token)
    ensures IsExecutorStep(a) ==> LeaseGone(ApplyExecutorStep(s, a), p, token)
  {
    assert PublicationOk(s, p);
  }

  lemma TakenLeaseIsGone(s: State, a: Action, p: Id, token: Id)
    requires Inv(s) && p in s.publications && TakesLease(s, a, p) && token < s.next
    ensures LeaseGone(Apply(s, a), p, token)
  {
    WrittenLeaseIsGone(s, a, p, token);
    PolledLeaseIsGone(s, a, p, token);
  }

  /** When a cancel, deletion, reopen, newer claim, recorded outcome, retirement
    or newer entry hits the row that poller `q` had claimed, then at any later
    time a result that still carries that claim's token changes no publication. */
  lemma StalePollerChangesNothing(s: State, a: Action, actions: seq<Action>, q: Id, p: Id, answer: Answer)
    requires Inv(s) && q in s.pollers && s.pollers[q].publication == p && p in s.publications && TakesLease(s, a, p)
    ensures var t := Run(Apply(s, a), actions);
            q in t.pollers && t.pollers[q] == s.pollers[q] ==>
              !CanRetire(t, q) && DoPollResult(t, q, answer).publications == t.publications
  {
    var u := Apply(s, a);
    StepKeeps(s, a);
    TakenLeaseIsGone(s, a, p, s.pollers[q].token);
    NextGrows(s, a);
    LostLeaseStaysLost(u, actions, p, s.pollers[q].token);
  }

  // ------------------------------------------------------------------ retries

  lemma {:induction false} DistinctBelow(items: seq<nat>, n: nat)
    requires Distinct(items) && forall i :: 0 <= i < |items| ==> 1 <= items[i] <= n
    ensures |items| <= n
    decreases n
  {
    if n == 0 {
      assert items == [];
    } else if n in items {
      var i :| 0 <= i < |items| && items[i] == n;
      var rest := items[..i] + items[i + 1..];
      forall j | 0 <= j < |rest| ensures rest[j] == items[if j < i then j else j + 1] && 1 <= rest[j] <= n - 1 { }
      assert Distinct(rest);
      DistinctBelow(rest, n - 1);
    } else {
      DistinctBelow(items, n - 1);
    }
  }

  /** However often a publication is requeued, at most four failed executions
    of it are ever rescheduled. */
  lemma AtMostFourRetries(actions: seq<Action>, p: Id)
    requires p in Reach(actions).publications
    ensures |Retries(Reach(actions).publications[p].history)| < MAX_ATTEMPTS
  {
    ReachOk(actions);
    assert PublicationOk(Reach(actions), p);
    DistinctBelow(Retries(Reach(actions).publications[p].history), MAX_ATTEMPTS - 1);
  }

  /** The attempt counter is never reset. */
  lemma AttemptsNeverDrop(s: State, actions: seq<Action>, p: Id)
    requires Inv(s) && p in s.publications && p in Run(s, actions).publications
    ensures s.publications[p].attempts <= Run(s, actions).publications[p].attempts
  {
    RunEvolves(s, actions);
    assert Evolves(s, Run(s, actions), p);
  }

  /** Every claim of a publication gets a higher attempt number than any claim
    before it. */
  lemma ClaimsAreNumbered(s: State, e: Id, p: Id, actions: seq<Action>, f: Id)
    requires Inv(s) && CanClaim(s, e, p) && CanClaim(Run(Apply(s, Claim(e, p)), actions), f, p)
    ensures DoClaim(s, e, p).executors[e].attempt < DoClaim(Run(Apply(s, Claim(e, p)), actions), f,
                                                            p).executors[f].attempt
  {
    StepKeeps(s, Claim(e, p));
    AttemptsNeverDrop(Apply(s, Claim(e, p)), actions, p);
  }

  // -------------------------------------------------------------------- batch

  /** No two pending cases are about the same resource. */
  lemma PendingCasesDiffer(actions: seq<Action>, v: Id, w: Id)
    requires var s := Reach(actions);
             v in s.cases && w in s.cases && v != w && s.cases[v] == CasePending && s.cases[w] == CasePending
    ensures var s := Reach(actions);
            v in s.revisions && w in s.revisions && s.revisions[v].resource != s.revisions[w].resource
  {
    var s := Reach(actions);
    ReachOk(actions);
    assert RevisionOk(s, v) && RevisionOk(s, w) && RevisionPairOk(s, v, w);
  }

  /** Deciding one case leaves every other pending case decidable. */
  lemma DecideLeavesOthers(s: State, v: Id, approve: bool, w: Id)
    requires Inv(s) && CanDecide(s, v) && w != v
    ensures CanDecide(DoDecide(s, v, approve), w) <==> CanDecide(s, w)
  {
  }

  /** A batch of distinct cases succeeds exactly when each case could have been
    decided on its own. */
  lemma {:induction false} BatchSucceeds(s: State, vs: seq<Id>, approve: bool)
    requires Inv(s) && Distinct(vs)
    ensures DecideAll(s, vs, approve).Some? <==> forall v :: v in vs ==> CanDecide(s, v)
    decreases |vs|
  {
    if vs != [] && CanDecide(s, vs[0]) {
      var t := DoDecide(s, vs[0], approve);
      DecideKeeps(s, vs[0], approve);
      BatchSucceeds(t, vs[1..], approve);
      assert vs == [vs[0]] + vs[1..];
      forall v | v in vs[1..] ensures v != vs[0] && (CanDecide(t, v) <==> CanDecide(s, v)) {
        DecideLeavesOthers(s, vs[0], approve, v);
      }
    }
  }

  /** What a decision leaves behind on the decided revision's rows. */
  ghost predicate Decided(s: State, v: Id, approve: bool) {
    && v in s.revisions && v in s.cases
    && s.cases[v] == (if approve then CaseApproved else CaseRejected)
    && s.revisions[v].state == (if approve then Approved else Rejected)
    && (approve ==> s.revisions[v].resource in s.resources && s.resources[s.revisions[v].resource].current == Some(v))
    && forall p :: p in s.publications && s.publications[p].revision == v ==>
                     s.publications[p].state == (if !approve then Cancelled else if s.publications[p].target == OronBox
                                                 then Published else Pending)
  }

  lemma DecidedSurvives(s: State, v: Id, w: Id, approve: bool)
    requires Inv(s) && CanDecide(s, w) && v != w && Decided(s, v, approve)
    requires v in s.revisions && s.revisions[v].resource != s.revisions[w].resource
    ensures Decided(DoDecide(s, w, approve), v, approve)
  {
    assert ResourceOk(s, s.revisions[w].resource);
  }

  lemma {:induction false} DecidedSurvivesBatch(s: State, v: Id, vs: seq<Id>, approve: bool)
    requires Inv(s) && Decided(s, v, approve) && DecideAll(s, vs, approve).Some?
    requires forall w :: w in vs ==> w in s.revisions && s.revisions[w].resource != s.revisions[v].resource
    ensures Decided(DecideAll(s, vs, approve).value, v, approve)
    decreases |vs|
  {
    if vs == [] {
    } else {
      var t := DoDecide(s, vs[0], approve);
      DecidedSurvives(s, v, vs[0], approve);
      DecideKeeps(s, vs[0], approve);
      forall w | w in vs[1..] ensures w in t.revisions && t.revisions[w].resource != t.revisions[v].resource {
        assert w in vs;
      }
      DecidedSurvivesBatch(t, v, vs[1..], approve);
    }
  }

  /** Because a resource has one submitted revision, no two cases of a batch are
    about the same resource, and so no decision of a batch undoes another. */
  lemma {:induction false} BatchDecidesEach(s: State, vs: seq<Id>, approve: bool)
    requires Inv(s) && Distinct(vs) && DecideAll(s, vs, approve).Some?
    ensures forall v :: v in vs ==> Decided(DecideAll(s, vs, approve).value, v, approve)
    decreases |vs|
  {
    if vs == [] {
    } else {
      var v := vs[0];
      var t := DoDecide(s, v, approve);
      BatchSucceeds(s, vs, approve);
      DecideKeeps(s, v, approve);
      assert RevisionOk(s, v);
      assert vs == [v] + vs[1..];
      BatchDecidesEach(t, vs[1..], approve);
      assert Decided(t, v, approve);
      forall w | w in vs[1..] ensures w in t.revisions && t.revisions[w].resource != t.revisions[v].resource {
        assert w != v && CanDecide(s, w) && RevisionOk(s, w) && RevisionPairOk(s, v, w);
      }
      DecidedSurvivesBatch(t, v, vs[1..], approve);
    }
  }
}
