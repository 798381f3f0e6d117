/** Collections of resources. A submission is a snapshot of members; approving it
  moves the live membership over to the snapshot. */
module Collections {
  import opened Common
  import opened Counting

  const MAX_MEMBERS := 200

  /** `hidden` is a resource that is deleted or frozen. */
  datatype Resource = Resource(owner: Id, kind: Kind, hidden: bool, collection: Option<Id>, position: nat)

  datatype Kind = QuickApp | WatchFace

  datatype Collection = Collection(owner: Id, kind: Kind, current: Option<Id>, enabled: bool, editVersion: nat)

  datatype RevisionState = Pending | Approved | Rejected | Superseded

  /** Every way of writing members numbers them 0, 1, 2, ..., so a member's
    position is its index. */
  datatype Revision = Revision(collection: Id, state: RevisionState, enabled: bool, members: seq<Id>)

  datatype Store = Store(resources: map<Id, Resource>, collections: map<Id, Collection>, revisions: map<Id, Revision>,
                         next: Id)

  // ------------------------------------------------------------------- steps

  datatype Action =
    | AddResource(owner: Id, kind: Kind)
    | SetHidden(resource: Id, hidden: bool)
    | Create(owner: Id, kind: Kind)
    | Submit(owner: Id, target: Option<Id>, kind: Kind, members: seq<Id>, expected: Option<nat>, replace: Option<Id>)
    | SetResources(owner: Id, collection: Id, members: seq<Id>)
    | Resubmit(owner: Id, collection: Id, pending: Option<Id>, disable: bool, live: seq<Id>)
    | AdminPropose(collection: Id, enabled: bool, members: seq<Id>, expected: Option<nat>, replace: Option<Id>)
    | Review(revision: Id, approve: bool)

  predicate IsPending(s: Store, v: Id, c: Id) {
    v in s.revisions && s.revisions[v].collection == c && s.revisions[v].state == Pending
  }

  predicate IsPendingOf(s: Store, c: Id, pending: Option<Id>) {
    match pending
    case None => forall v :: v in s.revisions ==> !IsPending(s, v, c)
    case Some(v) => IsPending(s, v, c)
  }

  /** The resource may become or stay a member of `c`. */
  predicate IsEligible(s: Store, r: Id, owner: Id, kind: Kind, c: Id) {
    && r in s.resources
    && s.resources[r].owner == owner
    && s.resources[r].kind == kind
    && s.resources[r].collection in {None, Some(c)}
  }

  /** Pending revisions of `c` give way to a new one. */
  function Propose(s: Store, c: Id, enabled: bool, members: seq<Id>): Store {
    s.(
    revisions := (map v | v in s.revisions :: if IsPending(s, v, c) then s.revisions[v].(state := Superseded)
                                                              else s.revisions[v])
    [s.next := Revision(c, Pending, enabled, members)],
    next := s.next + 1)
  }

  function DoCreate(s: Store, owner: Id, kind: Kind): Store {
    s.(collections := s.collections[s.next := Collection(owner, kind, None, true, 0)], next := s.next + 1)
  }

  /** SubmitCollection on a collection that exists by now. */
  predicate CanSubmit(s: Store, owner: Id, c: Id, members: seq<Id>, replace: Option<Id>) {
    && c in s.collections && s.collections[c].owner == owner
    && IsPendingOf(s, c, replace)
    && 1 <= |members| <= MAX_MEMBERS
    && Distinct(members)
    && forall r :: r in members ==> IsEligible(s, r, owner, s.collections[c].kind, c) && !s.resources[r].hidden
  }

  function DoSubmit(s: Store, c: Id, enabled: bool, members: seq<Id>): Store
    requires c in s.collections
  {
    var t := Propose(s, c, enabled, members);
    t.(collections := s.collections[c := s.collections[c].(editVersion := s.collections[c].editVersion + 1)])
  }

  /** AdminUpdateCollectionMetadata looks at the pending revision only if it was
    given a version; hidden resources and an empty list are let through. */
  predicate CanAdminPropose(s: Store, c: Id, members: seq<Id>, expected: Option<nat>, replace: Option<Id>) {
    && c in s.collections
    && (expected.Some? ==> expected.value == s.collections[c].editVersion && IsPendingOf(s, c, replace))
    && Distinct(members)
    && forall r :: r in members ==> IsEligible(s, r, s.collections[c].owner, s.collections[c].kind, c)
  }

  predicate CanSetResources(s: Store, owner: Id, c: Id, members: seq<Id>) {
    && c in s.collections && s.collections[c].owner == owner
    && Distinct(members)
    && forall r :: r in members ==> IsEligible(s, r, owner, s.collections[c].kind, c)
  }

  /** The live members in the order of their positions. */
  predicate IsLive(s: Store, c: Id, live: seq<Id>) {
    && Distinct(live)
    && (forall r :: r in live ==> r in s.resources && s.resources[r].collection == Some(c))
    && (forall r :: r in s.resources && s.resources[r].collection == Some(c) ==> r in live)
    && forall i, j :: 0 <= i < j < |live| ==> s.resources[live[i]].position <= s.resources[live[j]].position
  }

  /** UpdateCollectionMetadata and DeleteCollection keep the membership: that of
    the pending revision, or else the live one. */
  function Resubmitted(s: Store, c: Id, pending: Option<Id>, disable: bool, live: seq<Id>): Store
    requires c in s.collections && IsPendingOf(s, c, pending)
  {
    var enabled := !disable && if pending.Some? then s.revisions[pending.value].enabled else s.collections[c].enabled;
    Propose(s, c, enabled, if pending.Some? then s.revisions[pending.value].members else live)
  }

  /** The rows the approving UPDATE changes. */
  function Placeable(s: Store, c: Id, members: seq<Id>): set<Id>
    requires c in s.collections
  {
    set r | r in s.resources && r in members && IsEligible(s, r, s.collections[c].owner, s.collections[c].kind, c)
  }

  /** Approval goes through only if it places as many rows as there are members. */
  predicate CanApprove(s: Store, v: Id) {
    && v in s.revisions && s.revisions[v].state == Pending
    && s.revisions[v].collection in s.collections
    && |Placeable(s, s.revisions[v].collection, s.revisions[v].members)| == |s.revisions[v].members|
  }

  function IndexOf(members: seq<Id>, r: Id): (i: nat)
    requires r in members
    ensures i < |members| && members[i] == r
  {
    if members[0] == r then 0 else 1 + IndexOf(members[1..], r)
  }

  function ApprovedResources(s: Store, c: Id, members: seq<Id>): map<Id, Resource>
    requires c in s.collections
  {
    map r | r in s.resources ::
      if r in members && r in Placeable(s, c, members)
      then s.resources[r].(collection := Some(c), position := IndexOf(members, r))
      else if s.resources[r].collection == Some(c) && r !in members
        then s.resources[r].(collection := None, position := 0)
        else s.resources[r]
  }

  function ReviewedRevisions(s: Store, v: Id, approve: bool): map<Id, Revision>
    requires v in s.revisions
  {
    map w | w in s.revisions ::
      if w == v then s.revisions[w].(state := if approve then Approved else Rejected)
      else if approve && s.revisions[w].collection == s.revisions[v].collection && s.revisions[w].state == Approved
      then s.revisions[w].(state := Superseded) else s.revisions[w]
  }

  function DoReview(s: Store, v: Id, approve: bool): Store
    requires v in s.revisions && (approve ==> s.revisions[v].collection in s.collections)
  {
    var c := s.revisions[v].collection;
    var t := s.(revisions := ReviewedRevisions(s, v, approve));
    if !approve then t
    else
      t.(
      resources := ApprovedResources(s, c, s.revisions[v].members),
      collections := s.collections[c :=
      s.collections[c].(current := Some(v), enabled := s.revisions[v].enabled,
      editVersion := s.collections[c].editVersion + 1)])
  }

  function ApplySubmit(s: Store, owner: Id, target: Option<Id>, kind: Kind, members: seq<Id>, expected: Option<nat>,
                       replace: Option<Id>): Store {
    match target
    case None =>
      var t := DoCreate(s, owner, kind);
      if CanSubmit(t, owner, s.next, members, replace) then DoSubmit(t, s.next, true, members) else s
    case Some(c) =>
      if c in s.collections && expected == Some(s.collections[c].editVersion)
         && CanSubmit(s, owner, c, members, replace) then DoSubmit(s, c, true, members) else s
  }

  predicate CanResubmit(s: Store, owner: Id, c: Id, pending: Option<Id>, live: seq<Id>) {
    c in s.collections && s.collections[c].owner == owner && IsPendingOf(s, c, pending) && IsLive(s, c, live)
  }

  function Apply(s: Store, a: Action): Store {
    match a
    case AddResource(owner, kind) => s.(resources := s.resources[s.next := Resource(owner, kind, false, None, 0)],
    next := s.next + 1)
    case SetHidden(r, hidden) =>
      if r in s.resources then s.(resources := s.resources[r := s.resources[r].(hidden := hidden)]) else s
    case Create(owner, kind) => Propose(DoCreate(s, owner, kind), s.next, true, [])
    case Submit(owner, c, kind, members, expected, replace) => ApplySubmit(s, owner, c, kind, members, expected,
                                                                           replace)
    case SetResources(owner, c, members) =>
      if CanSetResources(s, owner, c, members) then Propose(s, c, s.collections[c].enabled, members) else s
    case Resubmit(owner, c, pending, disable, live) =>
      if CanResubmit(s, owner, c, pending, live) then Resubmitted(s, c, pending, disable, live) else s
    case AdminPropose(c, enabled, members, expected, replace) =>
      if CanAdminPropose(s, c, members, expected, replace) then DoSubmit(s, c, enabled, members) else s
    case Review(v, approve) =>
      if v in s.revisions && s.revisions[v].state == Pending && (approve ==> CanApprove(s, v))
      then DoReview(s, v, approve) else s
  }

  function Run(s: Store, actions: seq<Action>): Store
    decreases |actions|
  {
    if actions == [] then s else Apply(Run(s, actions[..|actions| - 1]), actions[|actions| - 1])
  }

  // --------------------------------------------------------------- invariant

  ghost predicate RevisionOk(s: Store, v: Id)
    requires v in s.revisions
  {
    && v < s.next
    && s.revisions[v].collection in s.collections
    && Distinct(s.revisions[v].members)
    && (s.revisions[v].state == Approved <==> s.collections[s.revisions[v].collection].current == Some(v))
  }

  ghost predicate CollectionOk(s: Store, c: Id)
    requires c in s.collections
  {
    && c < s.next
    && (s.collections[c].current.Some? ==>
          && s.collections[c].current.value in s.revisions
          && s.revisions[s.collections[c].current.value].collection == c
          && s.revisions[s.collections[c].current.value].enabled == s.collections[c].enabled)
  }

  /** The members of the approved snapshot. */
  function Snapshot(s: Store, c: Id): seq<Id>
    requires c in s.collections
  {
    if s.collections[c].current.Some? && s.collections[c].current.value in s.revisions
    then s.revisions[s.collections[c].current.value].members else []
  }

  /** Being placed in `c` is being a member of its snapshot, at that position, and
    takes the same owner and kind. */
  ghost predicate PlacedOk(s: Store, r: Id, c: Id)
    requires r in s.resources && c in s.collections
  {
    && (s.resources[r].collection == Some(c) <==> r in Snapshot(s, c))
    && (r in Snapshot(s, c) ==>
          s.resources[r].position < |Snapshot(s, c)| && Snapshot(s, c)[s.resources[r].position] == r)
    && (s.resources[r].collection == Some(c) ==>
          s.resources[r].owner == s.collections[c].owner && s.resources[r].kind == s.collections[c].kind)
  }

  ghost predicate ResourceOk(s: Store, r: Id)
    requires r in s.resources
  {
    r < s.next && (s.resources[r].collection.Some? ==> s.resources[r].collection.value in s.collections)
  }

  ghost predicate MembersExist(s: Store, c: Id)
    requires c in s.collections
  {
    forall r :: r in Snapshot(s, c) ==> r in s.resources
  }

  ghost predicate Rows(s: Store) {
    && (forall v {:trigger RevisionOk(s, v)} :: v in s.revisions ==> RevisionOk(s, v))
    && (forall c {:trigger CollectionOk(s, c)} :: c in s.collections ==> CollectionOk(s, c))
    && (forall r {:trigger ResourceOk(s, r)} :: r in s.resources ==> ResourceOk(s, r))
  }

  ghost predicate OnePending(s: Store) {
    forall v, w, c {:trigger IsPending(s, v, c), IsPending(s, w, c)} :: IsPending(s, v, c) && IsPending(s, w, c) ==>
                                                                          v == w
  }

  ghost predicate Membership(s: Store) {
    && (forall r, c {:trigger PlacedOk(s, r, c)} :: r in s.resources && c in s.collections ==> PlacedOk(s, r, c))
    && (forall c {:trigger MembersExist(s, c)} :: c in s.collections ==> MembersExist(s, c))
  }

  /** The invariant, taken as one proposition. */
  ghost predicate Inv(s: Store) {
    var holds := Rows(s) && OnePending(s) && Membership(s);
    holds
  }

  // ------------------------------------------------------- proposals keep it

  lemma ProposeKeeps(s: Store, c: Id, enabled: bool, members: seq<Id>)
    requires Inv(s) && c in s.collections && Distinct(members)
    ensures Inv(Propose(s, c, enabled, members))
  {
    var t := Propose(s, c, enabled, members);
    forall v | v in s.revisions ensures v < s.next { assert RevisionOk(s, v); }
    forall v | v in t.revisions ensures RevisionOk(t, v) {
      if v in s.revisions { assert RevisionOk(s, v); }
      if s.collections[c].current.Some? { assert CollectionOk(s, c); }
    }
    forall d | d in t.collections ensures CollectionOk(t, d) && Snapshot(t, d) == Snapshot(s, d) {
      assert CollectionOk(s, d);
      if s.collections[d].current.Some? { assert RevisionOk(s, s.collections[d].current.value); }
    }
    forall r | r in t.resources ensures ResourceOk(t, r) { assert ResourceOk(s, r); }
    forall v, w, d | IsPending(t, v, d) && IsPending(t, w, d) ensures v == w {
      if v != s.next && w != s.next { assert IsPending(s, v, d) && IsPending(s, w, d); }
    }
    forall r, d | r in t.resources && d in t.collections ensures PlacedOk(t, r, d) { assert PlacedOk(s, r, d); }
    forall d | d in t.collections ensures MembersExist(t, d) { assert MembersExist(s, d); }
  }

  /** Nothing of this touches revisions, current pointers or placements. */
  ghost predicate Harmless(s: Store, t: Store) {
    && t.revisions == s.revisions && s.next <= t.next
    && (forall c :: c in s.collections ==>
                      c in t.collections && t.collections[c].current == s.collections[c].current
                      && t.collections[c].enabled == s.collections[c].enabled
                      && t.collections[c].owner == s.collections[c].owner
                      && t.collections[c].kind == s.collections[c].kind)
    && (forall c :: c in t.collections && c !in s.collections ==>
                      c < t.next && c >= s.next && t.collections[c].current == None)
    && (forall r :: r in s.resources ==>
                      r in t.resources && t.resources[r].collection == s.resources[r].collection
                      && t.resources[r].position == s.resources[r].position
                      && t.resources[r].owner == s.resources[r].owner && t.resources[r].kind == s.resources[r].kind)
    && (forall r :: r in t.resources && r !in s.resources ==>
                      r < t.next && r >= s.next && t.resources[r].collection == None)
  }

  lemma HarmlessKeeps(s: Store, t: Store)
    requires Inv(s) && Harmless(s, t)
    ensures Inv(t)
  {
    forall v | v in t.revisions ensures RevisionOk(t, v) { assert RevisionOk(s, v); }
    forall c | c in t.collections ensures CollectionOk(t, c) { if c in s.collections { assert CollectionOk(s, c); } }
    forall r | r in t.resources ensures ResourceOk(t, r) { if r in s.resources { assert ResourceOk(s, r); } }
    forall v, w, c | IsPending(t, v, c) && IsPending(t, w, c) ensures v == w {
      assert IsPending(s, v, c) && IsPending(s, w, c);
    }
    forall r, c | r in t.resources && c in t.collections ensures PlacedOk(t, r, c) {
      if r in s.resources { assert ResourceOk(s, r); }
      if c in s.collections { assert MembersExist(s, c) && (r in s.resources ==> PlacedOk(s, r, c)); }
    }
    forall c | c in t.collections ensures MembersExist(t, c) { if c in s.collections { assert MembersExist(s, c); } }
  }

  // ------------------------------------- who may be a member, in the fields

  /** The resource is the owner's, of the kind, and in no collection but, if one is
    given, that one. */
  ghost predicate CanJoin(s: Store, r: Id, owner: Id, kind: Kind, target: Option<Id>) {
    && r in s.resources && s.resources[r].owner == owner && s.resources[r].kind == kind
    && (s.resources[r].collection == None || s.resources[r].collection == target)
  }

  /** The pending revision of `c` is the one that the request means to replace. */
  ghost predicate Replaces(s: Store, c: Id, replace: Option<Id>) {
    forall v :: v in s.revisions && s.revisions[v].collection == c && s.revisions[v].state == Pending <==>
                replace == Some(v)
  }

  /** A submission goes ahead: for a new collection, or for one of the owner's that
    is still as the request saw it. */
  ghost predicate MaySubmit(s: Store, owner: Id, target: Option<Id>, kind: Kind, members: seq<Id>,
                            expected: Option<nat>,
                            replace: Option<Id>) {
    && 1 <= |members| <= 200 && Distinct(members)
    && (match target
        case None =>
          && replace == None
          && forall r :: r in members ==> CanJoin(s, r, owner, kind, None) && !s.resources[r].hidden
        case Some(c) =>
          && c in s.collections && s.collections[c].owner == owner && expected == Some(s.collections[c].editVersion)
          && Replaces(s, c, replace)
          && forall r :: r in members ==>
                           CanJoin(s, r, owner, s.collections[c].kind, Some(c)) && !s.resources[r].hidden)
  }

  ghost predicate MayPropose(s: Store, c: Id, members: seq<Id>, expected: Option<nat>, replace: Option<Id>) {
    && c in s.collections && Distinct(members)
    && (expected.Some? ==> s.collections[c].editVersion == expected.value && Replaces(s, c, replace))
    && forall r :: r in members ==> CanJoin(s, r, s.collections[c].owner, s.collections[c].kind, Some(c))
  }

  ghost predicate MayReview(s: Store, v: Id, approve: bool) {
    && v in s.revisions && s.revisions[v].state == Pending && s.revisions[v].collection in s.collections
    && (approve ==>
          var c := s.revisions[v].collection;
          forall r :: r in s.revisions[v].members ==>
                        CanJoin(s, r, s.collections[c].owner, s.collections[c].kind, Some(c)))
  }

  /** With one pending revision, `replace` names it or there is none. */
  lemma ReplacesIff(s: Store, c: Id, replace: Option<Id>)
    requires OnePending(s)
    ensures Replaces(s, c, replace) <==> IsPendingOf(s, c, replace)
  {
    if replace.Some? && IsPendingOf(s, c, replace) {
      forall v | v in s.revisions && s.revisions[v].collection == c && s.revisions[v].state == Pending
        ensures v == replace.value {
        assert IsPending(s, v, c) && IsPending(s, replace.value, c);
      }
    }
  }

  /** A new collection has no revision and no member yet. */
  lemma SubmitIff(s: Store, owner: Id, target: Option<Id>, kind: Kind, members: seq<Id>, expected: Option<nat>,
                  replace: Option<Id>)
    requires Inv(s)
    ensures var t, c := if target.None? then DoCreate(s, owner, kind) else s, if target.None? then s.next
                        else target.value;
            MaySubmit(s, owner, target, kind, members, expected, replace)
            <==> CanSubmit(t, owner, c, members, replace)
                 && (target.Some? ==> c in s.collections && expected == Some(s.collections[c].editVersion))
  {
    if target.Some? {
      ReplacesIff(s, target.value, replace);
    } else {
      forall c | c in s.collections ensures c < s.next { assert CollectionOk(s, c); }
      forall v | v in s.revisions ensures s.revisions[v].collection != s.next { assert RevisionOk(s, v); }
      forall r | r in s.resources ensures s.resources[r].collection != Some(s.next) { assert ResourceOk(s, r); }
    }
  }

  // --------------------------------------------------------- approval keeps it

  /** As many rows changed as the snapshot has members: so every member was
    placed. This is what makes the row count a sound check. */
  lemma RowCountPlacesAll(s: Store, c: Id, members: seq<Id>)
    requires c in s.collections && Distinct(members)
    ensures |Placeable(s, c, members)| == |members| <==>
            forall r :: r in members ==> CanJoin(s, r, s.collections[c].owner, s.collections[c].kind, Some(c))
  {
    ElementCount(members);
    var placed := Placeable(s, c, members);
    forall r | r in placed ensures r in Elements(members) { }
    SubsetCount(placed, Elements(members));
    if |placed| == |members| {
      forall r | r in members ensures r in placed { assert r in Elements(members); }
    }
    if forall r :: r in members ==> CanJoin(s, r, s.collections[c].owner, s.collections[c].kind, Some(c)) {
      forall r | r in Elements(members) ensures r in placed { assert r in members; }
      assert placed == Elements(members);
    }
  }

  lemma IndexUnique(members: seq<Id>, i: nat)
    requires Distinct(members) && i < |members|
    ensures IndexOf(members, members[i]) == i
  {
  }

  lemma ApprovalPlaces(s: Store, v: Id, r: Id, c: Id)
    requires Inv(s) && CanApprove(s, v) && r in s.resources && c in s.collections
    ensures var t := DoReview(s, v, true);
            r in t.resources && c in t.collections && PlacedOk(t, r, c)
  {
    var t := DoReview(s, v, true);
    var d, members := s.revisions[v].collection, s.revisions[v].members;
    assert RevisionOk(s, v) && PlacedOk(s, r, c) && PlacedOk(s, r, d);
    RowCountPlacesAll(s, d, members);
    if r in members {
      assert IsEligible(s, r, s.collections[d].owner, s.collections[d].kind, d) && r in Placeable(s, d, members);
      IndexUnique(members, IndexOf(members, r));
    }
    if c != d { CurrentElsewhere(s, v, c); } else { assert Snapshot(t, d) == members; }
  }

  /** The snapshots of the other collections stay as they are. */
  lemma CurrentElsewhere(s: Store, v: Id, c: Id)
    requires Inv(s) && v in s.revisions && s.revisions[v].collection in s.collections && c in s.collections
             && c != s.revisions[v].collection
    ensures DoReview(s, v, true).collections[c] == s.collections[c]
            && Snapshot(DoReview(s, v, true), c) == Snapshot(s, c)
  {
  }

  lemma ReviewKeepsRows(s: Store, v: Id, approve: bool)
    requires Inv(s) && v in s.revisions && s.revisions[v].state == Pending && (approve ==> CanApprove(s, v))
    ensures Rows(DoReview(s, v, approve)) && OnePending(DoReview(s, v, approve))
  {
    var t := DoReview(s, v, approve);
    assert RevisionOk(s, v);
    forall w | w in t.revisions ensures RevisionOk(t, w) {
      assert RevisionOk(s, w) && CollectionOk(s, s.revisions[w].collection);
    }
    forall c | c in t.collections ensures CollectionOk(t, c) { assert CollectionOk(s, c); }
    forall r | r in t.resources ensures ResourceOk(t, r) { assert ResourceOk(s, r); }
    forall w, x, c | IsPending(t, w, c) && IsPending(t, x, c) ensures w == x {
      assert IsPending(s, w, c) && IsPending(s, x, c);
    }
  }

  lemma ReviewKeeps(s: Store, v: Id, approve: bool)
    requires Inv(s) && v in s.revisions && s.revisions[v].state == Pending && (approve ==> CanApprove(s, v))
    ensures Inv(DoReview(s, v, approve))
  {
    var t := DoReview(s, v, approve);
    ReviewKeepsRows(s, v, approve);
    assert RevisionOk(s, v);
    if approve {
      forall r, c | r in t.resources && c in t.collections ensures PlacedOk(t, r, c) { ApprovalPlaces(s, v, r, c); }
      RowCountPlacesAll(s, s.revisions[v].collection, s.revisions[v].members);
      forall c | c in t.collections ensures MembersExist(t, c) {
        assert MembersExist(s, c);
        if c != s.revisions[v].collection { CurrentElsewhere(s, v, c); } else {
          assert Snapshot(t, c) == s.revisions[v].members;
        }
      }
    } else {
      forall c | c in t.collections ensures Snapshot(t, c) == Snapshot(s, c) && MembersExist(t, c) {
        assert CollectionOk(s, c) && MembersExist(s, c);
      }
      forall r, c | r in t.resources && c in t.collections ensures PlacedOk(t, r, c) { assert PlacedOk(s, r, c); }
    }
  }

  // ---------------------------------------------------------------- live order

  /** Strictly increasing numbers below their count are 0, 1, 2, ... */
  lemma {:induction false} IncreasingIsIndex(a: seq<nat>, n: nat, i: nat)
    requires |a| == n && i < n && (forall k :: 0 <= k < n ==> a[k] < n) && forall j, k :: 0 <= j < k < n ==> a[j] < a[k]
    ensures a[i] == i
  {
    AtLeastIndex(a, i);
    AtMostIndex(a, n, i);
  }

  lemma {:induction false} AtLeastIndex(a: seq<nat>, i: nat)
    requires i < |a| && forall j, k :: 0 <= j < k < |a| ==> a[j] < a[k]
    ensures i <= a[i]
  {
    if i == 0 {
    } else {
      AtLeastIndex(a, i - 1);
      assert a[i - 1] < a[i];
    }
  }

  lemma {:induction false} AtMostIndex(a: seq<nat>, n: nat, i: nat)
    requires |a| == n && i < n && (forall k :: 0 <= k < n ==> a[k] < n) && forall j, k :: 0 <= j < k < n ==> a[j] < a[k]
    ensures a[i] <= i
    decreases n - i
  {
    if i < n - 1 { AtMostIndex(a, n, i + 1); assert a[i] < a[i + 1]; }
  }

  /** The live members in order are the approved snapshot, so a resubmission
    without a pending revision copies exactly what is approved. */
  lemma LiveIsSnapshot(s: Store, c: Id, live: seq<Id>)
    requires Inv(s) && c in s.collections && IsLive(s, c, live)
    ensures live == Snapshot(s, c)
  {
    var members := Snapshot(s, c);
    assert CollectionOk(s, c) && MembersExist(s, c);
    if s.collections[c].current.Some? { assert RevisionOk(s, s.collections[c].current.value); }
    assert Distinct(members);
    forall r | r in live ensures r in members && s.resources[r].position < |members|
                                 && members[s.resources[r].position] == r
    {
      assert PlacedOk(s, r, c);
    }
    forall r | r in members ensures r in live { assert PlacedOk(s, r, c); }
    CountDecides(members, live);
    CountDecides(live, members);
    SameCount(live, members);
    var at := seq(|live|, i requires 0 <= i < |live| => s.resources[live[i]].position);
    forall j, k | 0 <= j < k < |live| ensures at[j] < at[k] {
      assert live[j] in live && live[k] in live && live[j] != live[k];
    }
    forall i | 0 <= i < |live| ensures live[i] == members[i] {
      assert live[i] in live;
      IncreasingIsIndex(at, |live|, i);
    }
  }

  lemma SameCount(a: seq<Id>, b: seq<Id>)
    requires Distinct(a) && Distinct(b) && forall r :: r in a <==> r in b
    ensures |a| == |b|
  {
    ElementCount(a);
    ElementCount(b);
    forall r ensures r in Elements(a) <==> r in Elements(b) { assert r in a <==> r in b; }
    assert Elements(a) == Elements(b);
  }

  // ------------------------------------------------------------- all the steps

  lemma CreateKeeps(s: Store, owner: Id, kind: Kind)
    requires Inv(s)
    ensures Inv(DoCreate(s, owner, kind)) && s.next !in s.collections
  {
    forall c | c in s.collections ensures c < s.next { assert CollectionOk(s, c); }
    assert Harmless(s, DoCreate(s, owner, kind));
    HarmlessKeeps(s, DoCreate(s, owner, kind));
  }

  lemma DoSubmitKeeps(s: Store, c: Id, enabled: bool, members: seq<Id>)
    requires Inv(s) && c in s.collections && Distinct(members)
    ensures Inv(DoSubmit(s, c, enabled, members))
  {
    ProposeKeeps(s, c, enabled, members);
    assert Harmless(Propose(s, c, enabled, members), DoSubmit(s, c, enabled, members));
    HarmlessKeeps(Propose(s, c, enabled, members), DoSubmit(s, c, enabled, members));
  }

  lemma ResubmittedKeeps(s: Store, c: Id, pending: Option<Id>, disable: bool, live: seq<Id>)
    requires Inv(s) && c in s.collections && IsPendingOf(s, c, pending) && IsLive(s, c, live)
    ensures Inv(Resubmitted(s, c, pending, disable, live))
  {
    if pending.Some? { assert RevisionOk(s, pending.value); }
    var enabled := !disable && if pending.Some? then s.revisions[pending.value].enabled else s.collections[c].enabled;
    ProposeKeeps(s, c, enabled, if pending.Some? then s.revisions[pending.value].members else live);
  }

  lemma AddResourceKeeps(s: Store, owner: Id, kind: Kind)
    requires Inv(s)
    ensures Inv(Apply(s, AddResource(owner, kind)))
  {
    var t := Apply(s, AddResource(owner, kind));
    forall r | r in s.resources ensures r < s.next { assert ResourceOk(s, r); }
    assert Harmless(s, t);
    HarmlessKeeps(s, t);
  }

  lemma ApplyKeeps(s: Store, a: Action)
    requires Inv(s)
    ensures Inv(Apply(s, a))
  {
    match a
    case AddResource(owner, kind) => AddResourceKeeps(s, owner, kind);
    case SetHidden(r, hidden) =>
      assert Harmless(s, Apply(s, a));
      HarmlessKeeps(s, Apply(s, a));
    case Create(owner, kind) =>
      CreateKeeps(s, owner, kind);
      ProposeKeeps(DoCreate(s, owner, kind), s.next, true, []);
    case Submit(owner, target, kind, members, expected, replace) =>
      CreateKeeps(s, owner, kind);
      var t, c := if target.None? then DoCreate(s, owner, kind) else s, if target.None? then s.next else target.value;
      if CanSubmit(t, owner, c, members, replace) { DoSubmitKeeps(t, c, true, members); }
    case SetResources(owner, c, members) =>
      if CanSetResources(s, owner, c, members) { ProposeKeeps(s, c, s.collections[c].enabled, members); }
    case Resubmit(owner, c, pending, disable, live) =>
      if CanResubmit(s, owner, c, pending, live) { ResubmittedKeeps(s, c, pending, disable, live); }
    case AdminPropose(c, enabled, members, expected, replace) =>
      if CanAdminPropose(s, c, members, expected, replace) { DoSubmitKeeps(s, c, enabled, members); }
    case Review(v, approve) =>
      if v in s.revisions && s.revisions[v].state == Pending && (approve ==> CanApprove(s, v)) {
        ReviewKeeps(s, v, approve);
      }
  }

  const EMPTY := Store(map[], map[], map[], 0)

  lemma {:induction false} RunKeeps(s: Store, actions: seq<Action>)
    requires Inv(s)
    ensures Inv(Run(s, actions))
    decreases |actions|
  {
    if actions == [] {
    } else {
      RunKeeps(s, actions[..|actions| - 1]);
      ApplyKeeps(Run(s, actions[..|actions| - 1]), actions[|actions| - 1]);
    }
  }

  // ------------------------------------------------------------- main results

  /** In every reachable state a collection has at most one pending revision and
    its approved one is the current one; the resources placed in it are the
    members of that revision, each at its position there, and of its owner and
    kind. */
  lemma MembershipIsSnapshot(actions: seq<Action>, c: Id)
    requires c in Run(EMPTY, actions).collections
    ensures var s := Run(EMPTY, actions);
            && (forall v, w :: IsPending(s, v, c) && IsPending(s, w, c) ==> v == w)
            && (forall v :: v in s.revisions && s.revisions[v].collection == c ==>
                              (s.revisions[v].state == Approved <==> s.collections[c].current == Some(v)))
            && (forall r :: r in s.resources && s.resources[r].collection == Some(c) ==>
                              s.resources[r].position < |Snapshot(s, c)|
                              && Snapshot(s, c)[s.resources[r].position] == r)
            && (forall r :: r in s.resources && s.resources[r].collection == Some(c) ==>
                              s.resources[r].owner == s.collections[c].owner
                              && s.resources[r].kind == s.collections[c].kind)
            && (forall i :: 0 <= i < |Snapshot(s, c)| ==>
                              var r := Snapshot(s, c)[i];
                              r in s.resources && s.resources[r].collection == Some(c) && s.resources[r].position == i)
  {
    var s := Run(EMPTY, actions);
    RunKeeps(EMPTY, actions);
    forall v | v in s.revisions && s.revisions[v].collection == c
      ensures s.revisions[v].state == Approved <==> s.collections[c].current == Some(v) {
      assert RevisionOk(s, v);
    }
    forall r | r in s.resources ensures PlacedOk(s, r, c) { }
    assert CollectionOk(s, c) && MembersExist(s, c);
    if s.collections[c].current.Some? { assert RevisionOk(s, s.collections[c].current.value); }
    forall i | 0 <= i < |Snapshot(s, c)|
      ensures var r := Snapshot(s, c)[i];
              r in s.resources && s.resources[r].collection == Some(c) && s.resources[r].position == i
    {
      assert Snapshot(s, c)[i] in Snapshot(s, c) && PlacedOk(s, Snapshot(s, c)[i], c);
    }
  }

  /** A pending revision can be approved exactly when each of its members is
    still its owner's, of its kind, and in no other collection. */
  lemma ApprovableIff(s: Store, v: Id)
    requires Inv(s) && v in s.revisions && s.revisions[v].state == Pending
    ensures var c := s.revisions[v].collection;
            c in s.collections && (CanApprove(s, v) <==>
                                   forall r :: r in s.revisions[v].members ==>
                                                 CanJoin(s, r, s.collections[c].owner, s.collections[c].kind, Some(c)))
  {
    assert RevisionOk(s, v);
    RowCountPlacesAll(s, s.revisions[v].collection, s.revisions[v].members);
  }

  /** No collection operation, approval included, takes a resource out of a
    collection but the approval of a revision of that very collection. */
  lemma OthersMembersStay(s: Store, a: Action, r: Id, d: Id)
    requires Inv(s) && r in s.resources && s.resources[r].collection == Some(d)
    requires !(a.Review? && a.revision in s.revisions && s.revisions[a.revision].collection == d)
    ensures var t := Apply(s, a);
            r in t.resources && t.resources[r].collection == Some(d)
            && t.resources[r].position == s.resources[r].position
  {
    assert ResourceOk(s, r);
  }

  /** A metadata update or a deletion request proposes the membership that was
    pending or, failing that, approved; a deletion request disables it. */
  lemma ResubmissionKeepsMembers(s: Store, owner: Id, c: Id, pending: Option<Id>, disable: bool, live: seq<Id>)
    requires Inv(s) && CanResubmit(s, owner, c, pending, live)
    ensures var t := Apply(s, Resubmit(owner, c, pending, disable, live));
            && IsPending(t, s.next, c)
            && t.revisions[s.next].members
               == (if pending.Some? then s.revisions[pending.value].members else Snapshot(s, c))
            && (disable ==> !t.revisions[s.next].enabled)
            && t.resources == s.resources && t.collections == s.collections
  {
    LiveIsSnapshot(s, c, live);
  }

  // ------------------------------------------------------ the code, in order

  class CollectionService {
    var store: Store

    constructor ()
      ensures store == EMPTY && Inv(store)
    {
      store := EMPTY;
    }

    /** SubmitCollection. */
    method SubmitCollection(owner: Id, target: Option<Id>, kind: Kind, members: seq<Id>, expected: Option<nat>,
                            replace: Option<Id>) returns (ok: bool)
      modifies this
      ensures store == Apply(old(store), Submit(owner, target, kind, members, expected, replace))
      ensures !ok ==> store == old(store)
      ensures Inv(old(store)) ==> (ok <==> MaySubmit(old(store), owner, target, kind, members, expected, replace))
    {
      var begin := store;
      if Inv(begin) { SubmitIff(begin, owner, target, kind, members, expected, replace); }
      if |members| == 0 || |members| > MAX_MEMBERS {
        return false;
      }
      var c;
      if target.None? {
        c := store.next;
        store := DoCreate(store, owner, kind);
      } else {
        c := target.value;
        if c !in store.collections || store.collections[c].owner != owner
           || expected != Some(store.collections[c].editVersion) {
          return false;
        }
      }
      if !IsPendingOf(store, c, replace) {
        store := begin;
        return false;
      }
      var unique := HasNoDuplicates(members);
      if !unique {
        store := begin;
        return false;
      }
      var rows := set r | r in store.resources && r in members
                          && IsEligible(store, r, owner, store.collections[c].kind, c) && !store.resources[r].hidden;
      CountRows(store, owner, c, members, rows);
      if |rows| != |members| {
        store := begin;
        return false;
      }
      store := Propose(store, c, true, members);
      store := store.(collections :=
      store.collections[c := store.collections[c].(editVersion := store.collections[c].editVersion + 1)]);
      ok := true;
    }

    /** AdminUpdateCollectionMetadata. */
    method AdminUpdateCollectionMetadata(c: Id, enabled: bool, members: seq<Id>, expected: Option<nat>,
                                         replace: Option<Id>) returns (ok: bool)
      modifies this
      ensures ok <==> CanAdminPropose(old(store), c, members, expected, replace)
      ensures store == Apply(old(store), AdminPropose(c, enabled, members, expected, replace))
      ensures Inv(old(store)) ==> (ok <==> MayPropose(old(store), c, members, expected, replace))
    {
      if Inv(store) { ReplacesIff(store, c, replace); }
      var unique := HasNoDuplicates(members);
      if !unique || c !in store.collections {
        return false;
      }
      if expected.Some? {
        if expected.value != store.collections[c].editVersion || !IsPendingOf(store, c, replace) {
          return false;
        }
      }
      for i := 0 to |members|
        invariant store == old(store)
        invariant forall j :: 0 <= j < i ==>
                                IsEligible(store, members[j], store.collections[c].owner, store.collections[c].kind, c)
      {
        if !IsEligible(store, members[i], store.collections[c].owner, store.collections[c].kind, c) {
          assert members[i] in members;
          return false;
        }
      }
      store := Propose(store, c, enabled, members);
      store := store.(collections :=
      store.collections[c := store.collections[c].(editVersion := store.collections[c].editVersion + 1)]);
      ok := true;
    }

    /** ReviewCollection: release who is not in the snapshot, place who is, and
      compare the number of rows placed with the number of members. */
    method ReviewCollection(v: Id, approve: bool) returns (ok: bool)
      requires Inv(store)
      modifies this
      ensures Inv(store)
      ensures store == Apply(old(store), Review(v, approve))
      ensures ok <==> MayReview(old(store), v, approve)
    {
      ApplyKeeps(store, Review(v, approve));
      var begin := store;
      if v !in store.revisions || store.revisions[v].state != Pending {
        return false;
      }
      assert RevisionOk(begin, v);
      if approve { ApprovableIff(begin, v); }
      var c, members := store.revisions[v].collection, store.revisions[v].members;
      ReviewInOrder(begin, v, approve);
      store := Decide(store, v, approve);
      if approve {
        store := SupersedeApproved(store, v);
        store := Release(store, c, members);
        var changed := Placeable(store, c, members);
        store := Place(store, c, members);
        if |changed| != |members| {
          store := begin;
          return false;
        }
        store := Publish(store, c, v);
      }
      ok := true;
    }
  }

  // The statements of ReviewCollection.

  function Decide(s: Store, v: Id, approve: bool): Store
    requires v in s.revisions
  {
    s.(revisions := s.revisions[v := s.revisions[v].(state := if approve then Approved else Rejected)])
  }

  function SupersedeApproved(s: Store, v: Id): Store
    requires v in s.revisions
  {
    s.(revisions := map w | w in s.revisions ::
      if w != v && s.revisions[w].collection == s.revisions[v].collection && s.revisions[w].state == Approved
      then s.revisions[w].(state := Superseded) else s.revisions[w])
  }

  function Release(s: Store, c: Id, members: seq<Id>): Store {
    s.(resources := map r | r in s.resources ::
      if s.resources[r].collection == Some(c) && r !in members
      then s.resources[r].(collection := None, position := 0) else s.resources[r])
  }

  function Place(s: Store, c: Id, members: seq<Id>): Store
    requires c in s.collections
  {
    var changed := Placeable(s, c, members);
    s.(resources := map r | r in s.resources ::
      if r in members && r in changed
      then s.resources[r].(collection := Some(c), position := IndexOf(members, r)) else s.resources[r])
  }

  function Publish(s: Store, c: Id, v: Id): Store
    requires c in s.collections && v in s.revisions
  {
    var row := s.collections[c];
    s.(collections := s.collections[c :=
    row.(current := Some(v), enabled := s.revisions[v].enabled, editVersion := row.editVersion + 1)])
  }

  lemma PlacementInOrder(s: Store, c: Id, members: seq<Id>)
    requires c in s.collections
    ensures Placeable(Release(s, c, members), c, members) == Placeable(s, c, members)
    ensures Place(Release(s, c, members), c, members).resources == ApprovedResources(s, c, members)
  {
  }

  lemma ReviewInOrder(s: Store, v: Id, approve: bool)
    requires v in s.revisions && s.revisions[v].collection in s.collections
    ensures var c, members := s.revisions[v].collection, s.revisions[v].members;
            if !approve then Decide(s, v, false) == DoReview(s, v, false)
            else var t := Release(SupersedeApproved(Decide(s, v, true), v), c, members);
                 && Placeable(t, c, members) == Placeable(s, c, members)
                 && v in t.revisions
                 && Publish(Place(t, c, members), c, v) == DoReview(s, v, true)
  {
    var c, members := s.revisions[v].collection, s.revisions[v].members;
    if approve {
      var a := SupersedeApproved(Decide(s, v, true), v);
      assert a.revisions == ReviewedRevisions(s, v, true);
      PlacementInOrder(a, c, members);
      assert Placeable(a, c, members) == Placeable(s, c, members);
      assert ApprovedResources(a, c, members) == ApprovedResources(s, c, members);
    } else {
      assert Decide(s, v, false).revisions == ReviewedRevisions(s, v, false);
    }
  }

  /** The `seen` map of the submission. */
  method HasNoDuplicates(items: seq<Id>) returns (unique: bool)
    ensures unique <==> Distinct(items)
  {
    var seen: set<Id> := {};
    for i := 0 to |items|
      invariant Distinct(items[..i])
      invariant forall x :: x in seen <==> x in items[..i]
    {
      if items[i] in seen {
        var j :| 0 <= j < i && items[..i][j] == items[i];
        assert items[j] == items[i];
        return false;
      }
      assert items[..i + 1] == items[..i] + [items[i]];
      seen := seen + {items[i]};
    }
    assert items[..|items|] == items;
    unique := true;
  }

  lemma CountRows(s: Store, owner: Id, c: Id, members: seq<Id>, rows: set<Id>)
    requires c in s.collections && Distinct(members)
    requires rows == set r | r in s.resources && r in members && IsEligible(s, r, owner, s.collections[c].kind, c)
                             && !s.resources[r].hidden
    ensures |rows| == |members| <==> forall r :: r in members ==>
                                                   IsEligible(s, r, owner, s.collections[c].kind, c)
                                                   && !s.resources[r].hidden
  {
    ElementCount(members);
    forall r | r in rows ensures r in Elements(members) { }
    SubsetCount(rows, Elements(members));
    if |rows| == |members| {
      forall r | r in members ensures r in rows { assert r in Elements(members); }
    }
    if forall r :: r in members ==> IsEligible(s, r, owner, s.collections[c].kind, c) && !s.resources[r].hidden {
      forall r | r in Elements(members) ensures r in rows { assert r in members; }
      assert rows == Elements(members);
    }
  }
}
