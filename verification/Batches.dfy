/** A review batch reads its cases back from the database in whatever order the
  database returns them. The result does not depend on that order. */
module Batches {
  import opened Common
  import opened Counting
  import opened Tables
  import opened Steps
  import opened Invariants
  import opened Decision
  import opened Guarantees

  lemma RevisionsCommute(s: State, v: Id, w: Id, approve: bool)
    requires v in s.revisions && w in s.revisions && s.revisions[v].resource != s.revisions[w].resource
    requires s.revisions[v].resource in s.resources && ResourceOk(s, s.revisions[v].resource)
    requires s.revisions[w].resource in s.resources && ResourceOk(s, s.revisions[w].resource)
    ensures DecidedRevisions(DoDecide(s, v, approve), w, approve)
         == DecidedRevisions(DoDecide(s, w, approve), v, approve)
  {
  }

  lemma RowsCommute(s: State, t: State, u: State, v: Id, w: Id, approve: bool)
    requires v != w && t.publications == DecidedPublications(s, v, approve)
             && u.publications == DecidedPublications(s, w, approve)
    ensures DecidedPublications(t, w, approve) == DecidedPublications(u, v, approve)
  {
  }

  lemma ResourcesCommute(s: State, v: Id, w: Id, approve: bool)
    requires v in s.revisions && w in s.revisions && s.revisions[v].resource != s.revisions[w].resource
    requires s.revisions[v].resource in s.resources && s.revisions[w].resource in s.resources
    ensures DoDecide(DoDecide(s, v, approve), w, approve).resources
         == DoDecide(DoDecide(s, w, approve), v, approve).resources
  {
  }

  /** Decisions on different resources commute. */
  lemma DecisionsCommute(s: State, v: Id, w: Id, approve: bool)
    requires Inv(s) && CanDecide(s, v) && CanDecide(s, w) && v != w
    ensures CanDecide(DoDecide(s, v, approve), w) && CanDecide(DoDecide(s, w, approve), v)
    ensures DoDecide(DoDecide(s, v, approve), w, approve) == DoDecide(DoDecide(s, w, approve), v, approve)
  {
    assert RevisionOk(s, v) && RevisionOk(s, w) && RevisionPairOk(s, v, w);
    assert ResourceOk(s, s.revisions[v].resource) && ResourceOk(s, s.revisions[w].resource);
    DecideLeavesOthers(s, v, approve, w);
    DecideLeavesOthers(s, w, approve, v);
    RevisionsCommute(s, v, w, approve);
    RowsCommute(s, DoDecide(s, v, approve), DoDecide(s, w, approve), v, w, approve);
    ResourcesCommute(s, v, w, approve);
    var c := if approve then CaseApproved else CaseRejected;
    assert s.cases[v := c][w := c] == s.cases[w := c][v := c];
    var t, u := DoDecide(s, v, approve), DoDecide(s, w, approve);
    assert DoDecide(t, w, approve).publications == DecidedPublications(t, w, approve);
    assert DoDecide(u, v, approve).publications == DecidedPublications(u, v, approve);
    assert DoDecide(t, w, approve).revisions == DecidedRevisions(t, w, approve);
    assert DoDecide(u, v, approve).revisions == DecidedRevisions(u, v, approve);
  }

  lemma SwapFront(s: State, v: Id, w: Id, others: seq<Id>, approve: bool)
    requires Inv(s) && CanDecide(s, v) && CanDecide(s, w) && v != w
    ensures DecideAll(s, [v, w] + others, approve) == DecideAll(s, [w, v] + others, approve)
  {
    DecisionsCommute(s, v, w, approve);
    assert ([v, w] + others)[1..] == [w] + others && ([w] + others)[1..] == others;
    assert ([w, v] + others)[1..] == [v] + others && ([v] + others)[1..] == others;
  }

  lemma RestDecidable(s: State, vs: seq<Id>, approve: bool)
    requires Inv(s) && Distinct(vs) && vs != [] && forall v :: v in vs ==> CanDecide(s, v)
    ensures CanDecide(s, vs[0])
    ensures var t := DoDecide(s, vs[0], approve);
            Inv(t) && Distinct(vs[1..]) && forall v :: v in vs[1..] ==> CanDecide(t, v)
  {
    DecideKeeps(s, vs[0], approve);
    forall v | v in vs[1..] ensures CanDecide(DoDecide(s, vs[0], approve), v) {
      DecideLeavesOthers(s, vs[0], approve, v);
    }
  }

  function FrontMoved(vs: seq<Id>, i: nat): seq<Id>
    requires i < |vs|
  {
    [vs[i]] + vs[..i] + vs[i + 1..]
  }

  lemma FrontOfRest(vs: seq<Id>, i: nat)
    requires 0 < i < |vs|
    ensures var others := vs[1..i] + vs[i + 1..];
            && FrontMoved(vs[1..], i - 1) == [vs[i]] + others
            && FrontMoved(vs, i) == [vs[i], vs[0]] + others
            && ([vs[0], vs[i]] + others)[1..] == [vs[i]] + others
  {
  }

  /** A decision can be moved to the front of the batch. */
  lemma {:induction false} MoveToFront(s: State, vs: seq<Id>, i: nat, approve: bool)
    requires Inv(s) && Distinct(vs) && i < |vs| && forall v :: v in vs ==> CanDecide(s, v)
    ensures DecideAll(s, vs, approve) == DecideAll(s, FrontMoved(vs, i), approve)
    decreases i
  {
    RestDecidable(s, vs, approve);
    if i == 0 {
      assert FrontMoved(vs, 0) == vs;
    } else {
      MoveToFront(DoDecide(s, vs[0], approve), vs[1..], i - 1, approve);
      FrontOfRest(vs, i);
      SwapFront(s, vs[0], vs[i], vs[1..i] + vs[i + 1..], approve);
    }
  }

  /** Two readings of the same cases decide alike, or both fail. */
  lemma {:induction false} OrderIsIrrelevant(s: State, vs: seq<Id>, ws: seq<Id>, approve: bool)
    requires Inv(s) && Distinct(vs) && Distinct(ws) && |vs| == |ws| && forall v :: v in vs <==> v in ws
    ensures DecideAll(s, vs, approve) == DecideAll(s, ws, approve)
    decreases |vs|
  {
    BatchSucceeds(s, vs, approve);
    BatchSucceeds(s, ws, approve);
    if vs != [] && forall v :: v in vs ==> CanDecide(s, v) {
      var v := vs[0];
      assert v in ws && CanDecide(s, v);
      var i :| 0 <= i < |ws| && ws[i] == v;
      var rest := ws[..i] + ws[i + 1..];
      MoveToFront(s, ws, i, approve);
      assert FrontMoved(ws, i) == [v] + rest && ([v] + rest)[1..] == rest;
      DecideKeeps(s, v, approve);
      SameRest(vs, ws, i);
      OrderIsIrrelevant(DoDecide(s, v, approve), vs[1..], rest, approve);
    }
  }

  lemma SameRest(vs: seq<Id>, ws: seq<Id>, i: nat)
    requires Distinct(vs) && Distinct(ws) && vs != [] && i < |ws| && ws[i] == vs[0] && forall v :: v in vs <==> v in ws
    ensures var rest := ws[..i] + ws[i + 1..];
            Distinct(vs[1..]) && Distinct(rest) && forall v :: v in vs[1..] <==> v in rest
  {
    var rest := ws[..i] + ws[i + 1..];
    forall v | v in vs[1..] ensures v in rest {
      var k :| 0 <= k < |vs| - 1 && vs[1..][k] == v;
      assert v == vs[k + 1] && v in ws;
      assert ws == ws[..i] + [vs[0]] + ws[i + 1..];
    }
    forall v | v in rest ensures v in vs[1..] {
      var k :| 0 <= k < |rest| && rest[k] == v;
      assert v == ws[if k < i then k else k + 1] && v in vs;
      assert vs == [vs[0]] + vs[1..];
    }
  }
}
