/** Retrying a BandBBS publication: which of its targets are sent again. */
module Targets {
  import opened Common
  import opened Counting

  /** Progress on one category. The empty string stands for "not yet". */
  datatype CategoryResult = CategoryResult(resourceId: string, versionId: string, updateId: string)

  type Progress = map<int, CategoryResult>

  /** `category` is None where the target has no key category_id. A value that is
    not a number is refused before the filter is reached, null reads as 0, and a
    creator's plan must have a positive number, so only the plan of an admin
    draft, which is not checked for it, can bring such a target here. */
  datatype Target = Target(category: Option<int>, packageId: string)

  /** What is left to send: the configuration as it was, or what remains of its
    targets; `Nothing` is the nil that lets the publication finish. */
  datatype Filtered = Raw | Nothing | Kept(targets: seq<Target>)

  predicate IsDone(t: Target, completed: Progress, needsUpdate: bool) {
    && t.category.Some?
    && t.category.value in completed
    && completed[t.category.value].versionId != ""
    && (needsUpdate ==> completed[t.category.value].updateId != "")
  }

  /** Recorded entries without a resource id do not count. */
  function Usable(recorded: Progress): Progress {
    map c | c in recorded && recorded[c].resourceId != "" :: recorded[c]
  }

  /** The targets not fully done, in order. */
  function Remaining(targets: seq<Target>, completed: Progress, needsUpdate: bool): seq<Target> {
    if targets == [] then []
    else
      var n := |targets| - 1;
      var rest := Remaining(targets[..n], completed, needsUpdate);
      if IsDone(targets[n], completed, needsUpdate) then rest else rest + [targets[n]]
  }

  predicate WellFormed(targets: seq<Target>) {
    forall i :: 0 <= i < |targets| ==> targets[i].category.Some?
  }

  /** The loop of filterBandBBSConfig, over the backing array of its own target
    list: `kept` starts as the empty prefix of that array and grows over it. None
    when a target has no category_id. */
  method KeepOwed(targets: array<Target>, completed: Progress, needsUpdate: bool) returns (kept: Option<nat>)
    modifies targets
    ensures kept == None <==> !WellFormed(old(targets[..]))
    ensures kept.Some? ==>
              && kept.value <= targets.Length
              && targets[..kept.value] == Remaining(old(targets[..]), completed, needsUpdate)
  {
    ghost var all := targets[..];
    var count := 0;
    for i := 0 to targets.Length
      invariant count <= i
      invariant targets[..count] == Remaining(all[..i], completed, needsUpdate)
      invariant targets[i..] == all[i..]
      invariant WellFormed(all[..i])
    {
      var target := targets[i];
      assert target == all[i] && all[..i + 1][..i] == all[..i];
      if target.category.None? {
        return None;
      }
      if !IsDone(target, completed, needsUpdate) {
        targets[count] := target;
        count := count + 1;
      }
    }
    assert all[..targets.Length] == all;
    kept := Some(count);
  }

  /** filterBandBBSConfig */
  method FilterConfig(targets: array<Target>, recorded: Progress, needsUpdate: bool)
    returns (filtered: Filtered, completed: Progress)
    modifies targets
    ensures completed == Usable(recorded)
    ensures filtered == Filter(old(targets[..]), recorded, needsUpdate)
    ensures filtered.Kept? ==> filtered.targets <= targets[..]
    ensures IsFiltered(filtered, old(targets[..]), recorded, needsUpdate)
  {
    FilterIsRight(targets[..], recorded, needsUpdate);
    completed := Usable(recorded);
    if completed == map[] {
      return Raw, completed;
    }
    var kept := KeepOwed(targets, completed, needsUpdate);
    if kept.None? {
      return Raw, completed;
    }
    if kept.value == 0 {
      return Nothing, completed;
    }
    filtered := Kept(targets[..kept.value]);
  }

  function Filter(targets: seq<Target>, recorded: Progress, needsUpdate: bool): Filtered {
    var remaining := Remaining(targets, Usable(recorded), needsUpdate);
    if Usable(recorded) == map[] || !WellFormed(targets) then Raw
    else if remaining == [] then Nothing else Kept(remaining)
  }

  // ---------------------------------------------------------- what Remaining is

  /** Exactly the targets that are not done remain, in their order. */
  lemma {:induction false} RemainingIsFilter(targets: seq<Target>, completed: Progress, needsUpdate: bool)
    returns (at: seq<nat>)
    ensures Embeds(Remaining(targets, completed, needsUpdate), targets, at)
    ensures forall i :: 0 <= i < |targets| ==> (i in at <==> !IsDone(targets[i], completed, needsUpdate))
  {
    at := [];
    if targets == [] {
    } else {
      var n := |targets| - 1;
      at := RemainingIsFilter(targets[..n], completed, needsUpdate);
      assert forall i :: 0 <= i < n ==> targets[..n][i] == targets[i];
      assert n !in at;
      if !IsDone(targets[n], completed, needsUpdate) {
        at := at + [n];
      }
    }
  }

  /** The publication may finish exactly when every target is done. */
  lemma FinishedWhenAllDone(targets: seq<Target>, recorded: Progress, needsUpdate: bool)
    requires targets != []
    ensures Filter(targets, recorded, needsUpdate) == Nothing <==> forall i :: 0 <= i < |targets| ==>
                                                                                 IsDone(targets[i], Usable(recorded),
                                                                                        needsUpdate)
  {
    var at := RemainingIsFilter(targets, Usable(recorded), needsUpdate);
    var remaining := Remaining(targets, Usable(recorded), needsUpdate);
    if remaining == [] {
      assert at == [];
    } else {
      assert !IsDone(targets[at[0]], Usable(recorded), needsUpdate);
    }
  }

  /** All that is owed to a target is on record: the resource, the version, and the
    update if one is to be made. */
  ghost predicate IsSettled(t: Target, recorded: Progress, needsUpdate: bool) {
    && t.category.Some? && t.category.value in recorded
    && recorded[t.category.value].resourceId != "" && recorded[t.category.value].versionId != ""
    && (needsUpdate ==> recorded[t.category.value].updateId != "")
  }

  /** The publication finishes without another call exactly when nothing is owed to
    any target. */
  lemma FinishedWhenSettled(targets: seq<Target>, recorded: Progress, needsUpdate: bool)
    requires targets != []
    ensures Filter(targets, recorded, needsUpdate) == Nothing
       <==> forall i :: 0 <= i < |targets| ==> IsSettled(targets[i], recorded, needsUpdate)
  {
    FinishedWhenAllDone(targets, recorded, needsUpdate);
    forall i | 0 <= i < |targets|
      ensures IsSettled(targets[i], recorded, needsUpdate) <==> IsDone(targets[i], Usable(recorded), needsUpdate)
    {
    }
  }

  /** The targets that an attempt hands to the publisher. */
  function Sent(targets: seq<Target>, recorded: Progress, needsUpdate: bool): seq<Target> {
    match Filter(targets, recorded, needsUpdate)
    case Raw => targets
    case Nothing => []
    case Kept(remaining) => remaining
  }

  /** A target that is done is handed to the publisher again exactly when some
    target of the list has no category_id: then the whole list goes out
    unfiltered. */
  lemma DoneIsResentIff(targets: seq<Target>, recorded: Progress, needsUpdate: bool, i: nat)
    requires i < |targets| && IsDone(targets[i], Usable(recorded), needsUpdate)
    ensures targets[i] in Sent(targets, recorded, needsUpdate) <==> !WellFormed(targets)
  {
    var at := RemainingIsFilter(targets, Usable(recorded), needsUpdate);
    var remaining := Remaining(targets, Usable(recorded), needsUpdate);
    assert Usable(recorded) != map[];
    forall k | 0 <= k < |remaining| ensures remaining[k] != targets[i] {
      assert at[k] in at;
    }
  }

  /** A target is handed to the publisher exactly when something is owed to it, or
    some target of the list has no category_id. */
  lemma SentIff(targets: seq<Target>, recorded: Progress, needsUpdate: bool, i: nat)
    requires i < |targets|
    ensures targets[i] in Sent(targets, recorded, needsUpdate)
       <==> !IsSettled(targets[i], recorded, needsUpdate) || exists j ::
              0 <= j < |targets| && targets[j].category == None
  {
    if IsDone(targets[i], Usable(recorded), needsUpdate) {
      DoneIsResentIff(targets, recorded, needsUpdate, i);
    } else {
      var at := RemainingIsFilter(targets, Usable(recorded), needsUpdate);
      var k :| 0 <= k < |at| && at[k] == i;
      assert Remaining(targets, Usable(recorded), needsUpdate)[k] == targets[i];
    }
  }

  /** What the filter promises: nil when nothing is owed, else what is owed. */
  ghost predicate IsFiltered(filtered: Filtered, targets: seq<Target>, recorded: Progress, needsUpdate: bool) {
    var holds :=
      && (targets != [] ==>
            (filtered.Nothing? <==> forall i :: 0 <= i < |targets| ==> IsSettled(targets[i], recorded, needsUpdate)))
      && (filtered.Kept? ==>
            forall i :: 0 <= i < |targets| ==>
                          (targets[i] in filtered.targets <==> !IsSettled(targets[i], recorded, needsUpdate)));
    holds
  }

  lemma FilterIsRight(targets: seq<Target>, recorded: Progress, needsUpdate: bool)
    ensures IsFiltered(Filter(targets, recorded, needsUpdate), targets, recorded, needsUpdate)
  {
    if targets != [] { FinishedWhenSettled(targets, recorded, needsUpdate); }
    if Filter(targets, recorded, needsUpdate).Kept? {
      forall i | 0 <= i < |targets|
        ensures targets[i] in Filter(targets, recorded, needsUpdate).targets <==>
                !IsSettled(targets[i], recorded, needsUpdate)
      {
        SentIff(targets, recorded, needsUpdate, i);
      }
    }
  }

  /** For instance, with category 1 fully done. */
  lemma DoneIsResentForExample(needsUpdate: bool)
    ensures var targets, recorded := [Target(Some(1), "a"), Target(None, "b")], map[1 := CategoryResult("8", "3", "5")];
            IsDone(targets[0], Usable(recorded), needsUpdate) && targets[0] in Sent(targets, recorded, needsUpdate)
  {
    var targets, recorded := [Target(Some(1), "a"), Target(None, "b")], map[1 := CategoryResult("8", "3", "5")];
    assert !WellFormed(targets) by { assert targets[1].category.None?; }
    DoneIsResentIff(targets, recorded, needsUpdate, 0);
  }

  // ------------------------------------------------------- progress over retries

  /** What recordBandBBSPartial stores: earlier entries, overlaid with those of
    the attempt that just failed. */
  function Record(prior: Progress, results: Progress): Progress {
    prior + results
  }

  /** The publisher only adds: it hands back no entry that has lost an id. */
  ghost predicate Advances(before: CategoryResult, after: CategoryResult) {
    && (before.resourceId != "" ==> after.resourceId != "")
    && (before.versionId != "" ==> after.versionId != "")
    && (before.updateId != "" ==> after.updateId != "")
  }

  ghost predicate OnlyAdds(prior: Progress, results: Progress) {
    forall c :: c in prior && c in results ==> Advances(prior[c], results[c])
  }

  function RecordAll(prior: Progress, attempts: seq<Progress>): Progress {
    if attempts == [] then prior
    else Record(RecordAll(prior, attempts[..|attempts| - 1]), attempts[|attempts| - 1])
  }

  ghost predicate PublisherOnlyAdds(prior: Progress, attempts: seq<Progress>) {
    forall i :: 0 <= i < |attempts| ==> OnlyAdds(RecordAll(prior, attempts[..i]), attempts[i])
  }

  lemma DoneStaysDoneOnce(prior: Progress, results: Progress, t: Target, needsUpdate: bool)
    requires OnlyAdds(prior, results) && IsDone(t, Usable(prior), needsUpdate)
    ensures IsDone(t, Usable(Record(prior, results)), needsUpdate)
  {
    var c := t.category.value;
    assert Record(prior, results)[c] == if c in results then results[c] else prior[c];
  }

  /** Over any number of failed attempts, what was done stays done. */
  lemma {:induction false} DoneStaysDone(prior: Progress, attempts: seq<Progress>, t: Target, needsUpdate: bool)
    requires PublisherOnlyAdds(prior, attempts) && IsDone(t, Usable(prior), needsUpdate)
    ensures IsDone(t, Usable(RecordAll(prior, attempts)), needsUpdate)
  {
    if attempts == [] {
    } else {
      var n := |attempts| - 1;
      forall i | 0 <= i < n ensures OnlyAdds(RecordAll(prior, attempts[..n][..i]), attempts[..n][i]) {
        assert attempts[..n][..i] == attempts[..i];
      }
      DoneStaysDone(prior, attempts[..n], t, needsUpdate);
      DoneStaysDoneOnce(RecordAll(prior, attempts[..n]), attempts[n], t, needsUpdate);
    }
  }

  lemma {:induction false} FewerRemain(targets: seq<Target>, before: Progress, after: Progress,
                                       needsUpdate: bool) returns (at: seq<nat>)
    requires forall i :: 0 <= i < |targets| && IsDone(targets[i], before, needsUpdate) ==>
                           IsDone(targets[i], after, needsUpdate)
    ensures Embeds(Remaining(targets, after, needsUpdate), Remaining(targets, before, needsUpdate), at)
  {
    at := [];
    if targets == [] {
    } else {
      var n := |targets| - 1;
      at := FewerRemain(targets[..n], before, after, needsUpdate);
      if !IsDone(targets[n], after, needsUpdate) {
        at := at + [|Remaining(targets[..n], before, needsUpdate)|];
      }
    }
  }

  /** Each retry sends a subsequence of what an earlier attempt sent, and none of
    the targets that were done by then. */
  lemma RetriesShrink(targets: seq<Target>, prior: Progress, attempts: seq<Progress>, needsUpdate: bool)
    requires WellFormed(targets) && PublisherOnlyAdds(prior, attempts)
    ensures IsSubsequence(Sent(targets, RecordAll(prior, attempts), needsUpdate), Sent(targets, prior, needsUpdate))
    ensures forall i :: 0 <= i < |targets| && IsDone(targets[i], Usable(prior), needsUpdate) ==>
                          targets[i] !in Sent(targets, RecordAll(prior, attempts), needsUpdate)
  {
    var later := RecordAll(prior, attempts);
    forall i | 0 <= i < |targets| && IsDone(targets[i], Usable(prior), needsUpdate)
      ensures IsDone(targets[i], Usable(later), needsUpdate) {
      DoneStaysDone(prior, attempts, targets[i], needsUpdate);
    }
    var at := FewerRemain(targets, Usable(prior), Usable(later), needsUpdate);
    WellFormedSends(targets, prior, needsUpdate);
    WellFormedSends(targets, later, needsUpdate);
    forall i | 0 <= i < |targets| && IsDone(targets[i], Usable(prior), needsUpdate)
      ensures targets[i] !in Sent(targets, later, needsUpdate) {
      DoneIsResentIff(targets, later, needsUpdate, i);
    }
  }

  lemma WellFormedSends(targets: seq<Target>, recorded: Progress, needsUpdate: bool)
    requires WellFormed(targets)
    ensures Sent(targets, recorded, needsUpdate) == Remaining(targets, Usable(recorded), needsUpdate)
  {
  }
}
