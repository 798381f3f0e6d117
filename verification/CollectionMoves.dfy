/** Which operation changes what of a collection, said in the fields of the rows
  alone. */
module CollectionMoves {
  import opened Common
  import opened Collections

  // ------------------------------------------------------- what is proposed

  ghost predicate Resubmits(s: Store, a: Action) {
    && a.Resubmit? && a.collection in s.collections && s.collections[a.collection].owner == a.owner
    && IsPendingOf(s, a.collection, a.pending) && IsLive(s, a.collection, a.live)
  }

  ghost predicate Sets(s: Store, a: Action) {
    && a.SetResources? && a.collection in s.collections && s.collections[a.collection].owner == a.owner
    && Distinct(a.members)
    && forall r :: r in a.members ==>
                     CanJoin(s, r, a.owner, s.collections[a.collection].kind, Some(a.collection))
  }

  ghost predicate Submits(s: Store, a: Action) {
    a.Submit? && MaySubmit(s, a.owner, a.target, a.kind, a.members, a.expected, a.replace)
  }

  ghost predicate Updates(s: Store, a: Action) {
    a.AdminPropose? && MayPropose(s, a.collection, a.members, a.expected, a.replace)
  }

  /** The operation proposes a revision of the collection `c` that exists. */
  ghost predicate Proposes(s: Store, a: Action, c: Id) {
    || (Resubmits(s, a) && a.collection == c)
    || (Sets(s, a) && a.collection == c)
    || (Submits(s, a) && a.target == Some(c))
    || (Updates(s, a) && a.collection == c)
  }

  ghost predicate Reviews(s: Store, a: Action, v: Id, approve: bool) {
    a.Review? && a.revision == v && a.approve == approve && MayReview(s, v, approve)
  }

  /** A revision of `c` is approved. */
  ghost predicate Approves(s: Store, a: Action, c: Id) {
    a.Review? && Reviews(s, a, a.revision, true) && s.revisions[a.revision].collection == c
  }

  // ------------------------------------------------------------------- rows

  ghost predicate RevisionAsTold(s: Store, a: Action, t: Store, v: Id) {
    if v in s.revisions then
      var before := s.revisions[v];
      && v in t.revisions
      && t.revisions[v] == before.(state :=
                           if Reviews(s, a, v, true) then Approved
                           else if Reviews(s, a, v, false) then Rejected
                           else if before.state == Pending && Proposes(s, a, before.collection) then Superseded
                           else if before.state == Approved && Approves(s, a, before.collection) then Superseded
                           else before.state)
    else
      && (v in t.revisions <==>
          || (v == s.next && (Resubmits(s, a) || Sets(s, a) || Updates(s, a) || (Submits(s, a) && a.target.Some?)))
          || (v == s.next + 1 && (a.Create? || (Submits(s, a) && a.target.None?))))
      && (v in t.revisions ==> t.revisions[v].state == Pending && IsProposed(s, a, t.revisions[v]))
  }

  /** What a new revision proposes, by operation. */
  ghost predicate IsProposed(s: Store, a: Action, row: Revision) {
    match a
    case Create(_, _) => row.collection == s.next && row.enabled && row.members == []
    case Submit(_, target, _, members, _, _) =>
      row.collection == (if target.Some? then target.value else s.next) && row.enabled && row.members == members
    case SetResources(_, c, members) =>
      row.collection == c && c in s.collections && row.enabled == s.collections[c].enabled && row.members == members
    case AdminPropose(c, enabled, members, _, _) => row.collection == c && row.enabled == enabled
                                                    && row.members == members
    case Resubmit(_, c, pending, disable, live) =>
      && row.collection == c && c in s.collections
      && (if pending.Some? then
            && pending.value in s.revisions && row.members == s.revisions[pending.value].members
            && row.enabled == (!disable && s.revisions[pending.value].enabled)
          else row.members == live && row.enabled == (!disable && s.collections[c].enabled))
    case _ => false
  }

  ghost predicate CollectionAsTold(s: Store, a: Action, t: Store, c: Id) {
    if c in s.collections then
      var before := s.collections[c];
      && c in t.collections
      && t.collections[c].owner == before.owner && t.collections[c].kind == before.kind
      && t.collections[c].current == (if Approves(s, a, c) then Some(a.revision) else before.current)
      && t.collections[c].enabled == (if Approves(s, a, c) then s.revisions[a.revision].enabled else before.enabled)
      && t.collections[c].editVersion ==
         (if Approves(s, a, c) || (Submits(s, a) && a.target == Some(c)) || (Updates(s, a) && a.collection == c)
          then before.editVersion + 1 else before.editVersion)
    else
      && (c in t.collections <==> c == s.next && (a.Create? || (Submits(s, a) && a.target.None?)))
      && (c in t.collections ==>
            && t.collections[c].current == None
            && ((a.Create? && t.collections[c].owner == a.owner && t.collections[c].kind == a.kind)
                || (a.Submit? && t.collections[c].owner == a.owner && t.collections[c].kind == a.kind)))
  }

  /** Approval places the members of the snapshot, each at its index, and releases
    the others; nothing else places or releases. */
  ghost predicate ResourceAsTold(s: Store, a: Action, t: Store, r: Id)
    requires r in s.resources
  {
    && r in t.resources
    && t.resources[r].owner == s.resources[r].owner && t.resources[r].kind == s.resources[r].kind
    && t.resources[r].hidden == (if a.SetHidden? && a.resource == r then a.hidden else s.resources[r].hidden)
    && (if a.Review? && Reviews(s, a, a.revision, true) && r in s.revisions[a.revision].members then
          && t.resources[r].collection == Some(s.revisions[a.revision].collection)
          && t.resources[r].position < |s.revisions[a.revision].members|
          && s.revisions[a.revision].members[t.resources[r].position] == r
        else if a.Review? && Reviews(s, a, a.revision, true)
                && s.resources[r].collection == Some(s.revisions[a.revision].collection) then
          t.resources[r].collection == None && t.resources[r].position == 0
        else
          t.resources[r].collection == s.resources[r].collection && t.resources[r].position == s.resources[r].position)
  }

  lemma ReviewedRevisionMoves(s: Store, a: Action, v: Id)
    requires Inv(s) && a.Review?
    ensures RevisionAsTold(s, a, Apply(s, a), v)
  {
    ActionsAllowed(s, a);
  }

  lemma ProposedRevisionMoves(s: Store, a: Action, v: Id)
    requires Inv(s) && !a.Review?
    ensures RevisionAsTold(s, a, Apply(s, a), v)
  {
    ActionsAllowed(s, a);
    forall d | d in s.collections ensures d < s.next { assert CollectionOk(s, d); }
    forall w | w in s.revisions ensures w < s.next && s.revisions[w].collection < s.next { assert RevisionOk(s, w); }
  }

  /** Exactly these operations propose, decide or supersede a revision. */
  lemma RevisionMoves(s: Store, a: Action, v: Id)
    requires Inv(s)
    ensures RevisionAsTold(s, a, Apply(s, a), v)
  {
    if a.Review? { ReviewedRevisionMoves(s, a, v); } else { ProposedRevisionMoves(s, a, v); }
  }

  /** Exactly these change a collection. */
  lemma CollectionMoves(s: Store, a: Action, c: Id)
    requires Inv(s)
    ensures CollectionAsTold(s, a, Apply(s, a), c)
  {
    ActionsAllowed(s, a);
    forall d | d in s.collections ensures d < s.next { assert CollectionOk(s, d); }
  }

  /** Exactly these place a resource, release it, or hide it. */
  lemma ResourceMoves(s: Store, a: Action, r: Id)
    requires Inv(s) && r in s.resources
    ensures ResourceAsTold(s, a, Apply(s, a), r)
  {
    ActionsAllowed(s, a);
    assert ResourceOk(s, r);
  }

  /** The conditions of the operations, in the fields. */
  lemma ActionsAllowed(s: Store, a: Action)
    requires Inv(s)
    ensures a.Submit? ==>
              var t, c := if a.target.None? then DoCreate(s, a.owner, a.kind) else s, if a.target.None? then s.next
                          else a.target.value;
              Submits(s, a) <==> CanSubmit(t, a.owner, c, a.members, a.replace)
                                 && (a.target.Some? ==>
                                       c in s.collections && a.expected == Some(s.collections[c].editVersion))
    ensures a.AdminPropose? ==> (Updates(s, a) <==> CanAdminPropose(s, a.collection, a.members, a.expected, a.replace))
    ensures a.SetResources? ==> (Sets(s, a) <==> CanSetResources(s, a.owner, a.collection, a.members))
    ensures a.Review? ==>
              (MayReview(s, a.revision, a.approve) <==>
               && a.revision in s.revisions && s.revisions[a.revision].state == Pending
               && (a.approve ==> CanApprove(s, a.revision)))
  {
    if a.Submit? { SubmitIff(s, a.owner, a.target, a.kind, a.members, a.expected, a.replace); }
    if a.AdminPropose? { ReplacesIff(s, a.collection, a.replace); }
    if a.Review? && a.revision in s.revisions && s.revisions[a.revision].state == Pending {
      assert RevisionOk(s, a.revision);
      ApprovableIff(s, a.revision);
    }
  }
}
