/** Removing the remote copies of a deleted resource: leased steps, one per
  remote copy, that a worker claims, performs and saves. */
module DeletionWorker {
  import opened Common

  datatype Lease = Lease(token: Id, expires: int)

  const LEASE_SECONDS := 600
  const MAX_ATTEMPTS := 5

  datatype Provider = BandBBSCopy | AstroBoxCopy

  datatype StepState = Pending | Running | Failed | AwaitingExternal | Completed

  datatype Step = Step(
    operation: Id,
    provider: Provider,
    state: StepState,
    receipt: string,
    attempts: nat,
    nextAttempt: int,
    lease: Option<Lease>)

  /** What a worker read when it claimed a step. `ownerKnown` is false once the
    account of the operation's owner is gone. */
  datatype Job = Job(step: Id, token: Id, provider: Provider, ownerKnown: bool, receipt: string, attempts: nat)

  datatype Store = Store(steps: map<Id, Step>, workers: map<Id, Job>, next: Id, now: int)

  /** The remote side's answers. `status` is None when asking failed; a receipt
    may come back even from a failing removal request. */
  datatype Remote = Remote(deleted: bool, removed: bool, receipt: string, status: Option<string>)

  // ------------------------------------------------------------------- steps

  /** A deletion inserts its steps in one transaction; one at a time allows more
    interleavings. */
  datatype Action =
    | InsertStep(operation: Id, provider: Provider)
    | Claim(worker: Id, step: Id, ownerKnown: bool)
    | Save(worker: Id, remote: Remote)
    | Retry(operation: Id)
    | Crash(worker: Id)
    | Tick(seconds: nat)

  predicate IsDue(s: Store, i: Id) {
    && i in s.steps
    && (|| (s.steps[i].state in {Pending, AwaitingExternal} && s.steps[i].nextAttempt <= s.now)
        || (s.steps[i].state == Running && s.steps[i].lease.Some? && s.steps[i].lease.value.expires <= s.now))
  }

  function DoInsert(s: Store, operation: Id, provider: Provider): Store {
    s.(steps := s.steps[s.next := Step(operation, provider, Pending, "", 0, s.now, None)], next := s.next + 1)
  }

  function DoClaim(s: Store, w: Id, i: Id, ownerKnown: bool): Store
    requires i in s.steps
  {
    var step := s.steps[i];
    s.(
    steps := s.steps[i := step.(state := Running, lease := Some(Lease(s.next, s.now + LEASE_SECONDS)),
    attempts := step.attempts + 1)],
    workers := s.workers[w := Job(i, s.next, step.provider, ownerKnown, step.receipt, step.attempts + 1)],
    next := s.next + 1)
  }

  /** A removal request goes out only when no receipt of an earlier one is on
    record. */
  predicate RequestsRemoval(job: Job) {
    job.ownerKnown && job.provider == AstroBoxCopy && job.receipt == ""
  }

  function ReceiptAfter(job: Job, remote: Remote): string {
    if RequestsRemoval(job) then remote.receipt else job.receipt
  }

  /** None when the work failed; otherwise the state text it ended with. */
  function Ended(job: Job, remote: Remote): Option<string> {
    if !job.ownerKnown then None
    else if job.provider == BandBBSCopy then (if remote.deleted then Some("completed") else None)
    else if RequestsRemoval(job) && !remote.removed then None
    else if ReceiptAfter(job, remote) == "" then Some("completed")
    else remote.status
  }

  function StateOf(text: string): StepState {
    if text == "completed" then Completed
    else if text == "pending" then Pending
    else if text == "awaiting_external" then AwaitingExternal
    else Failed
  }

  function SavedState(job: Job, remote: Remote): StepState {
    match Ended(job, remote)
    case None => if job.attempts < MAX_ATTEMPTS then Pending else Failed
    case Some(text) => StateOf(text)
  }

  function SavedReceipt(job: Job, remote: Remote): string {
    if Ended(job, remote) == Some("closed_unmerged") then "" else ReceiptAfter(job, remote)
  }

  function SavedDelay(job: Job, remote: Remote): nat {
    if Ended(job, remote) == None && job.attempts < MAX_ATTEMPTS then job.attempts * job.attempts * 60 else 300
  }

  /** The claim is still the one on the row. */
  predicate HoldsLease(s: Store, w: Id) {
    && w in s.workers
    && s.workers[w].step in s.steps
    && s.steps[s.workers[w].step].lease.Some?
    && s.steps[s.workers[w].step].lease.value.token == s.workers[w].token
  }

  function SavedStep(step: Step, job: Job, remote: Remote, now: int): Step {
    step.(state := SavedState(job, remote), receipt := SavedReceipt(job, remote),
    nextAttempt := now + SavedDelay(job, remote), lease := None)
  }

  function DoSave(s: Store, w: Id, remote: Remote): Store
    requires w in s.workers
  {
    var i := s.workers[w].step;
    s.(
    steps := if HoldsLease(s, w) then s.steps[i := SavedStep(s.steps[i], s.workers[w], remote, s.now)] else s.steps,
    workers := s.workers - {w})
  }

  predicate IsRetried(s: Store, operation: Id, i: Id) {
    && i in s.steps
    && s.steps[i].operation == operation
    && s.steps[i].state == Failed
    && LeaseExpired(s.steps[i].lease, s.now)
  }

  predicate LeaseExpired(lease: Option<Lease>, now: int) {
    lease.Some? ==> lease.value.expires <= now
  }

  function DoRetry(s: Store, operation: Id): Store {
    s.(steps := map i | i in s.steps ::
      if IsRetried(s, operation, i) then s.steps[i].(state := Pending, attempts := 0, nextAttempt := s.now)
      else s.steps[i])
  }

  function Apply(s: Store, a: Action): Store {
    match a
    case InsertStep(operation, provider) => DoInsert(s, operation, provider)
    case Claim(w, i, ownerKnown) => if IsDue(s, i) && w !in s.workers then DoClaim(s, w, i, ownerKnown) else s
    case Save(w, remote) => if w in s.workers then DoSave(s, w, remote) else s
    case Retry(operation) => DoRetry(s, operation)
    case Crash(w) => s.(workers := s.workers - {w})
    case Tick(seconds) => s.(now := s.now + seconds)
  }

  function Run(s: Store, actions: seq<Action>): Store
    decreases |actions|
  {
    if actions == [] then s else Apply(Run(s, actions[..|actions| - 1]), actions[|actions| - 1])
  }

  const START := Store(map[], map[], 0, 0)

  /** The reachable states. */
  function Reach(actions: seq<Action>): Store {
    Run(START, actions)
  }

  // --------------------------------------------------------------- invariant

  ghost predicate StepOk(s: Store, i: Id)
    requires i in s.steps
  {
    && i < s.next
    && (s.steps[i].state == Running <==> s.steps[i].lease.Some?)
    && (s.steps[i].lease.Some? ==> s.steps[i].lease.value.token < s.next)
  }

  /** A worker whose claim stands has the receipt that is on record. */
  ghost predicate JobOk(s: Store, w: Id)
    requires w in s.workers
  {
    var job := s.workers[w];
    && job.token < s.next
    && 1 <= job.attempts
    && job.step in s.steps
    && s.steps[job.step].provider == job.provider
    && (HoldsLease(s, w) ==> s.steps[job.step].receipt == job.receipt && s.steps[job.step].attempts == job.attempts)
  }

  /** The invariant, taken as one proposition. */
  ghost predicate Inv(s: Store) {
    var holds :=
      && (forall i {:trigger StepOk(s, i)} :: i in s.steps ==> StepOk(s, i))
      && (forall w {:trigger JobOk(s, w)} :: w in s.workers ==> JobOk(s, w))
      && (forall v, w :: v in s.workers && w in s.workers && v != w ==> s.workers[v].token != s.workers[w].token)
      && (forall i, j :: i in s.steps && j in s.steps && i != j && s.steps[i].lease.Some? && s.steps[j].lease.Some? ==>
                           s.steps[i].lease.value.token != s.steps[j].lease.value.token);
    holds
  }

  lemma ApplyKeepsSteps(s: Store, a: Action)
    requires Inv(s)
    ensures var t := Apply(s, a);
            && s.next <= t.next
            && (forall i {:trigger StepOk(t, i)} :: i in t.steps ==> StepOk(t, i))
            && (forall i, j :: i in t.steps && j in t.steps && i != j ==>
                                 t.steps[i].lease.Some? && t.steps[j].lease.Some? ==>
                                   t.steps[i].lease.value.token != t.steps[j].lease.value.token)
  {
    var t := Apply(s, a);
    forall i | i in s.steps ensures i < s.next && (s.steps[i].lease.Some? ==> s.steps[i].lease.value.token < s.next) {
      assert StepOk(s, i);
    }
    forall i | i in t.steps ensures StepOk(t, i) { if i in s.steps { assert StepOk(s, i); } }
  }

  lemma ApplyKeepsJob(s: Store, a: Action, w: Id)
    requires Inv(s) && w in Apply(s, a).workers
    ensures JobOk(Apply(s, a), w)
  {
    var t := Apply(s, a);
    if w in s.workers && !(a.Claim? && a.worker == w) {
      assert JobOk(s, w) && t.workers[w] == s.workers[w] && StepOk(s, s.workers[w].step);
      assert HoldsLease(t, w) ==> HoldsLease(s, w);
    }
  }

  lemma ApplyKeeps(s: Store, a: Action)
    requires Inv(s)
    ensures Inv(Apply(s, a)) && s.next <= Apply(s, a).next
  {
    ApplyKeepsSteps(s, a);
    forall w | w in Apply(s, a).workers ensures JobOk(Apply(s, a), w) { ApplyKeepsJob(s, a, w); }
    forall w | w in s.workers ensures s.workers[w].token < s.next { assert JobOk(s, w); }
  }

  lemma {:induction false} RunKeeps(s: Store, actions: seq<Action>)
    requires Inv(s)
    ensures Inv(Run(s, actions)) && s.next <= Run(s, actions).next
    decreases |actions|
  {
    if actions == [] {
    } else {
      RunKeeps(s, actions[..|actions| - 1]);
      ApplyKeeps(Run(s, actions[..|actions| - 1]), actions[|actions| - 1]);
    }
  }

  /** In every reachable state a step is running exactly when it is leased. */
  lemma RunningIffLeased(actions: seq<Action>, i: Id)
    requires i in Reach(actions).steps
    ensures Reach(actions).steps[i].state == Running <==> Reach(actions).steps[i].lease.Some?
  {
    RunKeeps(START, actions);
    assert StepOk(Reach(actions), i);
  }

  // ------------------------------------------------------- completed is final

  lemma {:induction false} CompletedIsFinal(s: Store, actions: seq<Action>, i: Id)
    requires Inv(s) && i in s.steps && s.steps[i].state == Completed
    ensures i in Run(s, actions).steps && Run(s, actions).steps[i] == s.steps[i]
    decreases |actions|
  {
    if actions == [] {
    } else {
      var before := Run(s, actions[..|actions| - 1]);
      CompletedIsFinal(s, actions[..|actions| - 1], i);
      RunKeeps(s, actions[..|actions| - 1]);
      assert StepOk(before, i);
    }
  }

  // ------------------------------------------------------ one save per claim

  ghost predicate TokenGone(s: Store, i: Id, token: Id) {
    i in s.steps ==> s.steps[i].lease == None || s.steps[i].lease.value.token != token
  }

  /** Once a claim's lease is off the row it never comes back. */
  lemma {:induction false} TokenStaysGone(s: Store, actions: seq<Action>, i: Id, token: Id)
    requires Inv(s) && TokenGone(s, i, token) && i in s.steps && token < s.next
    ensures i in Run(s, actions).steps && TokenGone(Run(s, actions), i, token)
    decreases |actions|
  {
    if actions == [] {
    } else {
      TokenStaysGone(s, actions[..|actions| - 1], i, token);
      RunKeeps(s, actions[..|actions| - 1]);
      assert StepOk(Run(s, actions[..|actions| - 1]), i);
    }
  }

  /** A save, or another claim of the step, ends the claim: from then on a save
    that still carries its token changes no step. */
  lemma ClaimSavesAtMostOnce(s: Store, a: Action, actions: seq<Action>, w: Id, late: Id, remote: Remote)
    requires Inv(s) && w in s.workers
    requires (a.Save? && a.worker == w)
             || (a.Claim? && a.step == s.workers[w].step && IsDue(s, a.step) && a.worker !in s.workers)
    ensures var t := Run(Apply(s, a), actions);
            late in t.workers && t.workers[late].step == s.workers[w].step
            && t.workers[late].token == s.workers[w].token ==>
              DoSave(t, late, remote).steps == t.steps
  {
    var job, u := s.workers[w], Apply(s, a);
    assert JobOk(s, w) && StepOk(s, job.step);
    ApplyKeeps(s, a);
    TokenStaysGone(u, actions, job.step, job.token);
  }

  // ----------------------------------------------------------------- receipts

  /** A save takes a recorded receipt off the row exactly when the request it
    stands for was closed without being merged; otherwise the receipt stays. */
  lemma ReceiptLeavesOnlyWhenClosed(s: Store, w: Id, remote: Remote)
    requires Inv(s) && w in s.workers && HoldsLease(s, w) && s.steps[s.workers[w].step].receipt != ""
    ensures var i, job := s.workers[w].step, s.workers[w];
            DoSave(s, w, remote).steps[i].receipt ==
            if job.ownerKnown && job.provider == AstroBoxCopy && remote.status == Some("closed_unmerged") then ""
            else s.steps[i].receipt
  {
    assert JobOk(s, w);
  }

  ghost predicate Closes(s: Store, a: Action, i: Id) {
    a.Save? && HoldsLease(s, a.worker) && s.workers[a.worker].step == i
    && Ended(s.workers[a.worker], a.remote) == Some("closed_unmerged")
  }

  /** No step of the run is a save that finds the request of `i` closed. */
  ghost predicate NeverCloses(s: Store, actions: seq<Action>, i: Id)
    decreases |actions|
  {
    actions == [] || (NeverCloses(s, actions[..|actions| - 1], i)
                      && !Closes(Run(s, actions[..|actions| - 1]), actions[|actions| - 1], i))
  }

  /** While a receipt is on record, no later claim of the step sends another
    removal request. A worker that claimed before may still send one, but it no
    longer holds the lease and nothing of its result is recorded. */
  lemma {:induction false} ReceiptBlocksRemoval(s: Store, actions: seq<Action>, i: Id, w: Id, ownerKnown: bool)
    requires Inv(s) && i in s.steps && s.steps[i].receipt != "" && NeverCloses(s, actions, i)
    ensures var t := Run(s, actions);
            && i in t.steps && t.steps[i].receipt == s.steps[i].receipt
            && (IsDue(t, i) ==> !RequestsRemoval(DoClaim(t, w, i, ownerKnown).workers[w]))
            && (w in t.workers && t.workers[w].step == i && RequestsRemoval(t.workers[w]) ==>
                  forall remote :: DoSave(t, w, remote).steps == t.steps)
    decreases |actions|
  {
    if actions == [] {
    } else {
      var before, a := Run(s, actions[..|actions| - 1]), actions[|actions| - 1];
      ReceiptBlocksRemoval(s, actions[..|actions| - 1], i, w, ownerKnown);
      RunKeeps(s, actions[..|actions| - 1]);
      assert StepOk(before, i);
      if a.Save? && a.worker in before.workers { assert JobOk(before, a.worker); }
    }
    RunKeeps(s, actions);
    if w in Run(s, actions).workers { assert JobOk(Run(s, actions), w); }
  }

  /** There is such a worker after this run: its lease ran out before it got to
    its request, and another worker's request was made and recorded. */
  lemma LateRequestHappens()
    ensures var remote := Remote(false, true, "42", Some("awaiting_external"));
            var s := Reach([InsertStep(7, AstroBoxCopy), Claim(1, 0, true), Tick(600), Claim(2, 0, true),
                            Save(2, remote)]);
            0 in s.steps && s.steps[0].receipt == "42" && 1 in s.workers && s.workers[1].step == 0
            && RequestsRemoval(s.workers[1])
  {
    var remote := Remote(false, true, "42", Some("awaiting_external"));
    var all := [InsertStep(7, AstroBoxCopy), Claim(1, 0, true), Tick(600), Claim(2, 0, true), Save(2, remote)];
    assert all[..4][..3] == all[..3] && all[..3][..2] == all[..2] && all[..2][..1] == all[..1];
    assert all[..1][..0] == [] && Reach(all[..1][..0]) == START;
    assert Reach(all[..1]) == DoInsert(START, 7, AstroBoxCopy);
    assert Reach(all[..2]) == DoClaim(Reach(all[..1]), 1, 0, true);
    assert Reach(all[..4]) == DoClaim(Reach(all[..3]), 2, 0, true);
    assert StateOf("awaiting_external") == AwaitingExternal;
  }

  /** Failed work is put off by at most sixteen minutes, and the fifth failure in
    a row since the last manual retry is final. */
  lemma FailureIsRetriedBelowFive(job: Job, remote: Remote)
    requires Ended(job, remote) == None && 1 <= job.attempts
    ensures SavedState(job, remote) == (if job.attempts < MAX_ATTEMPTS then Pending else Failed)
    ensures SavedState(job, remote) == Pending ==> 60 <= SavedDelay(job, remote) <= 960
  {
  }

  // ------------------------------------- what a step comes to, in its fields

  /** The worker saves while the lease of its claim is on the step. */
  ghost predicate SavesUnder(s: Store, a: Action, i: Id) {
    && a.Save? && a.worker in s.workers && s.workers[a.worker].step == i && i in s.steps
    && s.steps[i].lease.Some? && s.steps[i].lease.value.token == s.workers[a.worker].token
  }

  /** There is a removal request to ask about: one of an earlier claim, or one that
    has just gone through. */
  ghost predicate IsAsked(job: Job, remote: Remote) {
    && job.ownerKnown && job.provider == AstroBoxCopy
    && (job.receipt != "" || (remote.removed && remote.receipt != ""))
  }

  /** The copy is reported gone: deleted on BandBBS; removed from AstroBox without a
    request to wait for, or by a request that is completed. */
  ghost predicate IsGone(job: Job, remote: Remote) {
    && job.ownerKnown
    && (|| (job.provider == BandBBSCopy && remote.deleted)
        || (job.provider == AstroBoxCopy && job.receipt == "" && remote.removed && remote.receipt == "")
        || (IsAsked(job, remote) && remote.status == Some("completed")))
  }

  /** The attempt failed: no owner, no deletion, no request, or no answer. */
  ghost predicate Misfires(job: Job, remote: Remote) {
    || !job.ownerKnown
    || (job.provider == BandBBSCopy && !remote.deleted)
    || (job.provider == AstroBoxCopy && job.receipt == "" && !remote.removed)
    || (IsAsked(job, remote) && remote.status == None)
  }

  ghost predicate Claims(s: Store, a: Action, i: Id) {
    && a.Claim? && a.step == i && a.worker !in s.workers && i in s.steps
    && (|| (s.steps[i].state in {Pending, AwaitingExternal} && s.steps[i].nextAttempt <= s.now)
        || (s.steps[i].state == Running && s.steps[i].lease.Some? && s.steps[i].lease.value.expires <= s.now))
  }

  ghost predicate Retries(s: Store, a: Action, i: Id) {
    a.Retry? && i in s.steps && s.steps[i].operation == a.operation && s.steps[i].state == Failed
  }

  /** The step after a save: where it stands, what is kept, when it is due. */
  ghost predicate SavedAsTold(before: Step, after: Step, job: Job, remote: Remote, now: int) {
    && after.operation == before.operation && after.provider == before.provider && after.attempts == before.attempts
    && after.lease == None
    && (after.state == Completed <==> IsGone(job, remote))
    && (after.state == Pending <==>
        || (Misfires(job, remote) && job.attempts < 5)
        || (IsAsked(job, remote) && remote.status == Some("pending")))
    && (after.state == AwaitingExternal <==> IsAsked(job, remote) && remote.status == Some("awaiting_external"))
    && after.state != Running
    && after.receipt == (if IsAsked(job, remote) && remote.status == Some("closed_unmerged") then ""
                         else if job.ownerKnown && job.provider == AstroBoxCopy && job.receipt == "" then remote.receipt
                         else job.receipt)
    && after.nextAttempt == now + (if Misfires(job, remote) && job.attempts < 5 then 60 * job.attempts * job.attempts
                                   else 300)
  }

  /** Step `i` after the action, whatever it is. */
  ghost predicate StepAsTold(s: Store, a: Action, t: Store, i: Id)
    requires i in s.steps && i in t.steps
  {
    var before, after := s.steps[i], t.steps[i];
    if SavesUnder(s, a, i) then SavedAsTold(before, after, s.workers[a.worker], a.remote, s.now)
    else if Claims(s, a, i) then
      after == before.(state := Running, attempts := before.attempts + 1, lease := Some(Lease(s.next, s.now + 600)))
    else if Retries(s, a, i) then after == before.(state := Pending, attempts := 0, nextAttempt := s.now)
    else after == before
  }

  /** Exactly these actions change a step, and each as told. */
  lemma StepMoves(s: Store, a: Action, i: Id)
    requires Inv(s) && i in s.steps
    ensures i in Apply(s, a).steps && StepAsTold(s, a, Apply(s, a), i)
  {
    assert StepOk(s, i);
    if a.Save? && a.worker in s.workers { assert JobOk(s, a.worker); }
  }

  /** The action is the save that completes step `i`. */
  ghost predicate Completes(s: Store, a: Action, i: Id) {
    SavesUnder(s, a, i) && IsGone(s.workers[a.worker], a.remote)
  }

  /** So a step becomes completed exactly by a save, under its own lease, of a copy
    that is reported gone. */
  lemma CompletedIff(s: Store, a: Action, i: Id)
    requires Inv(s) && i in s.steps && s.steps[i].state != Completed
    ensures i in Apply(s, a).steps && (Apply(s, a).steps[i].state == Completed <==> Completes(s, a, i))
  {
    StepMoves(s, a, i);
  }

  /** In every reachable state, behind a completed step is such a save. */
  lemma {:induction false} CompletedHasSave(actions: seq<Action>, i: Id)
    requires i in Reach(actions).steps && Reach(actions).steps[i].state == Completed
    ensures exists k :: 0 <= k < |actions| && Completes(Reach(actions[..k]), actions[k], i)
    decreases |actions|
  {
    var n := |actions| - 1;
    var before := actions[..n];
    RunKeeps(START, before);
    if i in Reach(before).steps && Reach(before).steps[i].state == Completed {
      CompletedHasSave(before, i);
      var k :| 0 <= k < n && Completes(Reach(before[..k]), before[k], i);
      assert before[..k] == actions[..k] && before[k] == actions[k];
    } else if i in Reach(before).steps {
      CompletedIff(Reach(before), actions[n], i);
      assert Completes(Reach(actions[..n]), actions[n], i);
    } else {
      NewStepIsPending(Reach(before), actions[n], i);
    }
  }

  lemma NewStepIsPending(s: Store, a: Action, i: Id)
    requires i !in s.steps && i in Apply(s, a).steps
    ensures a.InsertStep? && Apply(s, a).steps[i] == Step(a.operation, a.provider, Pending, "", 0, s.now, None)
  {
  }

  /** A retry makes exactly the failed steps of the operation due at once, with a
    fresh count; the lease condition excludes none of them. Receipts, other steps
    and the leases of workers stay, and the operation has no failed step left. */
  lemma RetryRestarts(s: Store, operation: Id, i: Id, w: Id)
    requires Inv(s) && i in s.steps
    ensures var before, after := s.steps[i], DoRetry(s, operation).steps[i];
            && (before.operation == operation && before.state == Failed <==> after != before)
            && (after != before ==> IsDue(DoRetry(s, operation), i))
            && (after != before ==> after.attempts == 0 && after.receipt == before.receipt)
            && (after.operation == operation ==> after.state != Failed)
    ensures HoldsLease(DoRetry(s, operation), w) <==> HoldsLease(s, w)
  {
    assert StepOk(s, i);
  }

  // ------------------------------------------------- state of the operation

  /** DeletionOperation: the loop over the rows of one operation. */
  method OperationState(rows: seq<StepState>) returns (state: StepState)
    ensures state == Failed <==> Failed in rows
    ensures state == Completed <==> forall i :: 0 <= i < |rows| ==> rows[i] == Completed
    ensures state != Failed && state != Completed ==>
              exists k :: 0 <= k < |rows| && rows[k] == state && forall j :: k < j < |rows| ==> rows[j] == Completed
  {
    state := Completed;
    for i := 0 to |rows|
      invariant state == Failed <==> Failed in rows[..i]
      invariant state == Completed <==> forall j :: 0 <= j < i ==> rows[j] == Completed
      invariant state != Failed && state != Completed ==>
          exists k :: 0 <= k < i && rows[k] == state && forall j :: k < j < i ==> rows[j] == Completed
    {
      var row := rows[i];
      assert rows[..i + 1] == rows[..i] + [row];
      if row != Completed && state != Failed {
        state := row;
      }
      if row == Failed {
        state := Failed;
      }
    }
    assert rows[..|rows|] == rows;
  }

  // ------------------------------------------------------ the code, in order

  class Worker {
    var store: Store

    constructor ()
      ensures store == START && Inv(store)
    {
      store := START;
    }

    /** The claiming statement: the due step with the earliest next attempt.
      `known` are the operations whose owner still has an account. */
    method ClaimStep(w: Id, known: set<Id>) returns (claimed: Option<Id>)
      requires w !in store.workers
      modifies this
      ensures claimed.Some? ==>
                && IsDue(old(store), claimed.value)
                && store == Apply(old(store),
                                  Claim(w, claimed.value, old(store).steps[claimed.value].operation in known))
                && forall i :: i in old(store).steps && IsDue(old(store), i) ==>
                                 old(store).steps[claimed.value].nextAttempt <= old(store).steps[i].nextAttempt
      ensures claimed.None? ==> store == old(store) && forall i :: i in store.steps ==> !IsDue(store, i)
    {
      var s := store;
      claimed := None;
      var todo := s.steps.Keys;
      while todo != {}
        invariant todo <= s.steps.Keys && store == s
        invariant claimed.Some? ==> IsDue(s, claimed.value)
        invariant forall i :: i in s.steps && i !in todo && IsDue(s, i) ==>
                                claimed.Some? && s.steps[claimed.value].nextAttempt <= s.steps[i].nextAttempt
        decreases |todo|
      {
        var i :| i in todo;
        if IsDue(s, i) && (claimed.None? || s.steps[i].nextAttempt < s.steps[claimed.value].nextAttempt) {
          claimed := Some(i);
        }
        todo := todo - {i};
      }
      if claimed.Some? {
        var i := claimed.value;
        var step := s.steps[i];
        store := s.(
        steps := s.steps[i := step.(state := Running, lease := Some(Lease(s.next, s.now + LEASE_SECONDS)),
        attempts := step.attempts + 1)],
        workers := s.workers[w :=
        Job(i, s.next, step.provider, step.operation in known, step.receipt, step.attempts + 1)],
        next := s.next + 1);
      }
    }

    /** The rest of ProcessDeletionStep: perform the work and save the result
      under the lease. */
    method PerformAndSave(w: Id, remote: Remote) returns (saved: bool)
      requires w in store.workers
      modifies this
      ensures store == Apply(old(store), Save(w, remote))
      ensures saved <==> HoldsLease(old(store), w)
      ensures saved ==>
                var job := old(store).workers[w];
                && job.step in old(store).steps && job.step in store.steps
                && SavedAsTold(old(store).steps[job.step], store.steps[job.step], job, remote, store.now)
    {
      var job := store.workers[w];
      var text, failed, receipt := "completed", false, job.receipt;
      if !job.ownerKnown {
        failed := true;
      } else if job.provider == BandBBSCopy {
        failed := !remote.deleted;
      } else {
        if receipt == "" {
          receipt := remote.receipt;
          failed := !remote.removed;
        }
        if !failed && receipt != "" {
          match remote.status {
            case None => failed := true;
            case Some(status) => text := status;
          }
        }
      }
      if text == "closed_unmerged" {
        text, receipt := "failed", "";
      }
      var delay := 300;
      if failed {
        text := "failed";
        if job.attempts < MAX_ATTEMPTS {
          text, delay := "pending", job.attempts * job.attempts * 60;
        }
      }
      saved := HoldsLease(store, w);
      if saved {
        var step := store.steps[job.step];
        var row := step.(state := StateOf(text), receipt := receipt, nextAttempt := store.now + delay, lease := None);
        store := store.(steps := store.steps[job.step := row]);
      }
      store := store.(workers := store.workers - {w});
    }

    /** Delete, the insertion of one step. */
    method Insert(operation: Id, provider: Provider)
      modifies this
      ensures store == Apply(old(store), InsertStep(operation, provider))
    {
      store := store.(steps := store.steps[store.next := Step(operation, provider, Pending, "", 0, store.now, None)],
      next := store.next + 1);
    }

    /** RetryDeletion. */
    method RetryOperation(operation: Id)
      modifies this
      ensures store == Apply(old(store), Retry(operation))
    {
      store := store.(steps := map i | i in store.steps ::
        if store.steps[i].operation == operation && store.steps[i].state == Failed
           && LeaseExpired(store.steps[i].lease, store.now)
        then store.steps[i].(state := Pending, attempts := 0, nextAttempt := store.now)
        else store.steps[i]);
    }
  }
}
