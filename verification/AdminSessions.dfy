/** Console sessions whose credential is replaced while requests with the old
  one may still be under way. Hashing and key derivation are taken to be
  injective, so a stored hash is represented by the credential it is of. */
module AdminSessions {
  import opened Common

  const IDLE_TTL := 43200
  const ABSOLUTE_TTL := 604800
  const OVERLAP_TTL := 30

  /** The random credential of a login, or the one derived from a session id and
    a generation. The session id is the hash of the former. */
  datatype Credential = Initial(id: Id) | Derived(id: Id, generation: nat)

  datatype Session = Session(
    current: Credential,
    previous: Option<Credential>,
    previousUntil: int,
    generation: nat,
    rotatedAt: Option<int>,
    expires: int,
    absolute: int)

  datatype Store = Store(sessions: map<Id, Session>, now: int)

  datatype Rotation = NoRows | Kept(session: Session) | Rotated(session: Session)

  function Min(a: int, b: int): int {
    if a < b then a else b
  }

  predicate Alive(s: Store, id: Id) {
    id in s.sessions && s.sessions[id].expires > s.now && s.sessions[id].absolute > s.now
  }

  /** The lookup of AdminSession finds session `id` for this credential. */
  predicate Accepts(s: Store, id: Id, c: Credential) {
    && Alive(s, id)
    && (s.sessions[id].current == c || (s.sessions[id].previous == Some(c) && s.sessions[id].previousUntil > s.now))
  }

  // ------------------------------------------------------------------- steps

  function DoCreate(s: Store, id: Id, expiresAt: int): Store {
    s.(sessions := s.sessions[id :=
    Session(Initial(id), None, 0, 0, None, Min(expiresAt, s.now + IDLE_TTL), s.now + ABSOLUTE_TTL)])
  }

  /** RotateAdminSession. `clock` is the server's clock, `s.now` the
    database's. */
  function RotateOutcome(s: Store, id: Id, presented: Credential, next: Credential, generation: nat,
                         clock: int): Rotation {
    if !Alive(s, id) then NoRows
    else
      var row := s.sessions[id];
      if row.current != presented && !(row.previous == Some(presented) && row.previousUntil > clock) then NoRows
      else if row.generation != generation || (row.rotatedAt.Some? && row.rotatedAt.value + OVERLAP_TTL > clock)
      then Kept(row)
      else if row.current != presented then NoRows
        else Rotated(Session(next, Some(row.current), s.now + OVERLAP_TTL, row.generation + 1, Some(s.now),
                             Min(s.now + IDLE_TTL, row.absolute), row.absolute))
  }

  function DoRotate(s: Store, id: Id, presented: Credential, next: Credential, generation: nat, clock: int): Store {
    match RotateOutcome(s, id, presented, next, generation, clock)
    case Rotated(row) => s.(sessions := s.sessions[id := row])
    case _ => s
  }

  function DoTouch(s: Store, id: Id): Store {
    if !Alive(s, id) then s
    else s.(sessions := s.sessions[id := s.sessions[id].(expires := Min(s.now + IDLE_TTL, s.sessions[id].absolute))])
  }

  /** `Refresh` is a rotation as handleAdminRefresh asks for it: the next
    credential is derived from the generation that the request was let in at. */
  datatype Action =
    | Create(id: Id, expiresAt: int)
    | Refresh(id: Id, presented: Credential, generation: nat, clock: int)
    | Touch(id: Id)
    | Tick(seconds: nat)

  function Apply(s: Store, a: Action): Store {
    match a
    case Create(id, expiresAt) => if id in s.sessions then s else DoCreate(s, id, expiresAt)
    case Refresh(id, presented, generation, clock) => DoRotate(s, id, presented, Derived(id, generation + 1),
                                                               generation, clock)
    case Touch(id) => DoTouch(s, id)
    case Tick(seconds) => s.(now := s.now + seconds)
  }

  function Run(s: Store, actions: seq<Action>): Store
    decreases |actions|
  {
    if actions == [] then s else Apply(Run(s, actions[..|actions| - 1]), actions[|actions| - 1])
  }

  // --------------------------------------------------------------- invariant

  function CredentialAt(id: Id, generation: nat): Credential {
    if generation == 0 then Initial(id) else Derived(id, generation)
  }

  ghost predicate SessionOk(s: Store, id: Id)
    requires id in s.sessions
  {
    var row := s.sessions[id];
    && row.current == CredentialAt(id, row.generation)
    && row.expires <= row.absolute
    && (if row.generation == 0 then row.previous == None && row.rotatedAt == None
        else row.previous == Some(CredentialAt(id, row.generation - 1))
             && row.rotatedAt.Some? && row.previousUntil == row.rotatedAt.value + OVERLAP_TTL
             && row.rotatedAt.value <= s.now)
  }

  ghost predicate Inv(s: Store) {
    forall id {:trigger SessionOk(s, id)} :: id in s.sessions ==> SessionOk(s, id)
  }

  lemma ApplyKeeps(s: Store, a: Action)
    requires Inv(s)
    ensures Inv(Apply(s, a)) && s.now <= Apply(s, a).now
  {
    var t := Apply(s, a);
    forall id | id in t.sessions ensures SessionOk(t, id) {
      if id in s.sessions { assert SessionOk(s, id); }
    }
  }

  lemma {:induction false} RunKeeps(s: Store, actions: seq<Action>)
    requires Inv(s)
    ensures Inv(Run(s, actions)) && s.now <= Run(s, actions).now
    decreases |actions|
  {
    if actions == [] {
    } else {
      RunKeeps(s, actions[..|actions| - 1]);
      ApplyKeeps(Run(s, actions[..|actions| - 1]), actions[|actions| - 1]);
    }
  }

  /** Exactly these credentials are let in: the one of the session's generation,
    and for thirty seconds after a rotation the one before it. So there are at
    most two, and no two sessions accept the same one. */
  lemma AcceptedCredentials(s: Store, actions: seq<Action>, id: Id, c: Credential)
    requires Inv(s) && Alive(Run(s, actions), id)
    ensures var t := Run(s, actions);
            var row := t.sessions[id];
            Accepts(t, id, c) <==> c == CredentialAt(id, row.generation)
                                   || (row.generation > 0 && c == CredentialAt(id, row.generation - 1)
                                       && row.rotatedAt.Some? && t.now < row.rotatedAt.value + OVERLAP_TTL)
    ensures Accepts(Run(s, actions), id, c) ==> forall other :: Accepts(Run(s, actions), other, c) ==> other == id
  {
    var t := Run(s, actions);
    RunKeeps(s, actions);
    assert SessionOk(t, id);
    if Accepts(t, id, c) {
      forall other | Accepts(t, other, c) ensures other == id { assert SessionOk(t, other); }
    }
  }

  // ------------------------------------------------ a session, in its fields

  /** The credential is let in. */
  lemma AcceptedIff(s: Store, id: Id, c: Credential)
    requires Inv(s) && id in s.sessions
    ensures var row := s.sessions[id];
            Accepts(s, id, c) <==>
            && s.now < row.expires && s.now < row.absolute
            && (|| c == CredentialAt(id, row.generation)
                || (row.generation > 0 && c == CredentialAt(id, row.generation - 1) && s.now < row.previousUntil))
  {
    assert SessionOk(s, id);
  }

  /** The session after the step: twelve hours from its last activity, a week from
    its beginning, and a new credential from a rotation. */
  ghost predicate SessionAsTold(s: Store, a: Action, t: Store, id: Id) {
    if id !in s.sessions then
      && (id in t.sessions <==> a.Create? && a.id == id)
      && (id in t.sessions ==>
            && a.Create? && t.sessions[id].current == Initial(id) && t.sessions[id].previous == None
            && t.sessions[id].generation == 0 && t.sessions[id].absolute == s.now + 604800
            && t.sessions[id].expires == (if a.expiresAt < s.now + 43200 then a.expiresAt else s.now + 43200))
    else
      var before := s.sessions[id];
      && id in t.sessions
      && var after := t.sessions[id];
      var alive, idle := s.now < before.expires && s.now < before.absolute,
                         if s.now + 43200 < before.absolute then s.now + 43200 else before.absolute;
      if a.Touch? && a.id == id && alive then after == before.(expires := idle)
      else if && a.Refresh? && a.id == id && alive && a.generation == before.generation
              && a.presented == CredentialAt(id, before.generation)
              && (before.generation > 0 ==> before.previousUntil <= a.clock) then
        after == Session(Derived(id, before.generation + 1), Some(CredentialAt(id, before.generation)), s.now + 30,
                         before.generation + 1, Some(s.now), idle, before.absolute)
      else after == before
  }

  /** Exactly these steps change a session, and each as told. */
  lemma SessionMoves(s: Store, a: Action, id: Id)
    requires Inv(s)
    ensures SessionAsTold(s, a, Apply(s, a), id)
  {
    if id in s.sessions { assert SessionOk(s, id); }
  }

  // ----------------------------------------------------------------- expiry

  /** Generation and absolute expiry over a run: the former never falls, the
    latter never moves, and an idle expiry never passes it. */
  lemma {:induction false} AbsoluteExpiryIsFixed(s: Store, actions: seq<Action>, id: Id)
    requires Inv(s) && id in s.sessions
    ensures var t := Run(s, actions);
            && id in t.sessions && t.sessions[id].absolute == s.sessions[id].absolute
            && t.sessions[id].expires <= t.sessions[id].absolute
            && s.sessions[id].generation <= t.sessions[id].generation
    decreases |actions|
  {
    RunKeeps(s, actions);
    if actions == [] {
    } else {
      AbsoluteExpiryIsFixed(s, actions[..|actions| - 1], id);
    }
    assert SessionOk(Run(s, actions), id);
  }

  /** An expired session is never revived. */
  lemma {:induction false} ExpiredStaysExpired(s: Store, actions: seq<Action>, id: Id)
    requires Inv(s) && id in s.sessions && !Alive(s, id)
    ensures id in Run(s, actions).sessions && !Alive(Run(s, actions), id)
    decreases |actions|
  {
    if actions == [] {
    } else {
      ExpiredStaysExpired(s, actions[..|actions| - 1], id);
    }
  }

  // ------------------------------------------------------ which one is issued

  /** The credential handleAdminRefresh answers with, unless it rejects. */
  function IssuedByRefresh(id: Id, outcome: Rotation): Credential
    requires !outcome.NoRows?
  {
    Derived(id, outcome.session.generation)
  }

  /** A request is let in at one moment; others may rotate the session before it
    gets to refresh. If it is answered at all, it is answered with the then
    current credential. */
  lemma RefreshIssuesCurrent(s: Store, actions: seq<Action>, id: Id, cookie: Credential, clock: int)
    requires Inv(s) && Accepts(s, id, cookie)
    ensures var generation, t := s.sessions[id].generation, Run(s, actions);
            var outcome := RotateOutcome(t, id, cookie, Derived(id, generation + 1), generation, clock);
            !outcome.NoRows? ==>
              var u := DoRotate(t, id, cookie, Derived(id, generation + 1), generation, clock);
              u.sessions[id].current == IssuedByRefresh(id, outcome)
  {
    var t := Run(s, actions);
    RunKeeps(s, actions);
    AbsoluteExpiryIsFixed(s, actions, id);
    assert SessionOk(t, id);
  }

  /** A request that was let in is answered exactly when its session still lives
    and its credential is the current one, or the one before it while the
    server's clock has not reached the end of the overlap. */
  lemma RefreshAnswers(s: Store, actions: seq<Action>, id: Id, cookie: Credential, clock: int)
    requires Inv(s) && Accepts(s, id, cookie)
    ensures var generation, t := s.sessions[id].generation, Run(s, actions);
            !RotateOutcome(t, id, cookie, Derived(id, generation + 1), generation, clock).NoRows?
            <==> && Alive(t, id)
                 && var row := t.sessions[id];
                 || cookie == row.current
                 || (&& row.generation > 0 && cookie == CredentialAt(id, row.generation - 1)
                     && clock < row.previousUntil)
  {
    RunKeeps(s, actions);
    AbsoluteExpiryIsFixed(s, actions, id);
    assert SessionOk(s, id) && SessionOk(Run(s, actions), id);
  }

  /** requireAdmin, the touch-and-reissue part. */
  function IssuedByTouch(s: Store, id: Id, cookie: Credential): Credential
    requires id in s.sessions
  {
    if s.sessions[id].generation > 0 then Derived(id, s.sessions[id].generation) else cookie
  }

  lemma RequestIssuesCurrent(s: Store, actions: seq<Action>, id: Id, cookie: Credential)
    requires Inv(s) && Accepts(s, id, cookie) && Alive(Run(s, actions), id)
    ensures var u := DoTouch(Run(s, actions), id);
            u.sessions[id].current == IssuedByTouch(u, id, cookie)
  {
    RunKeeps(s, actions);
    AbsoluteExpiryIsFixed(s, actions, id);
    assert SessionOk(s, id) && SessionOk(Run(s, actions), id);
  }

  /** Two refreshes were let in at the same generation and the first one rotates.
    Whatever happens before the second, it does not rotate again, and if it is
    answered both have the same credential exactly when nobody else rotated. */
  lemma RacingRefreshesConverge(s: Store, actions: seq<Action>, id: Id, first: Credential, second: Credential,
                                clock: int, later: int)
    requires Inv(s) && Accepts(s, id, first) && Accepts(s, id, second)
    ensures var g := s.sessions[id].generation;
            var a := RotateOutcome(s, id, first, Derived(id, g + 1), g, clock);
            var t := Run(DoRotate(s, id, first, Derived(id, g + 1), g, clock), actions);
            var b := RotateOutcome(t, id, second, Derived(id, g + 1), g, later);
            a.Rotated? ==>
              && !b.Rotated?
              && (b.Kept? ==>
                    (IssuedByRefresh(id, a) == IssuedByRefresh(id, b) <==> t.sessions[id].generation == g + 1))
  {
    var g := s.sessions[id].generation;
    ApplyKeeps(s, Refresh(id, first, g, clock));
    AbsoluteExpiryIsFixed(DoRotate(s, id, first, Derived(id, g + 1), g, clock), actions, id);
  }

  // ------------------------------------------------------------- the overlap

  /** The step is a refresh with the current credential, let in at the current
    generation, when the server's clock has passed the last overlap. */
  ghost predicate Rotates(s: Store, a: Action, id: Id) {
    && a.Refresh? && a.id == id && Alive(s, id)
    && a.presented == s.sessions[id].current && a.generation == s.sessions[id].generation
    && (a.generation > 0 ==> s.sessions[id].previousUntil <= a.clock)
  }

  /** A replaced credential that still has time left loses it exactly to such a
    refresh; of the database's clock the rotation takes no notice. */
  lemma OverlapIsCutIff(s: Store, a: Action, id: Id)
    requires Inv(s) && id in s.sessions && s.sessions[id].generation > 0 && !a.Tick?
    requires Accepts(s, id, CredentialAt(id, s.sessions[id].generation - 1))
    ensures !Accepts(Apply(s, a), id, CredentialAt(id, s.sessions[id].generation - 1)) <==> Rotates(s, a, id)
  {
    assert SessionOk(s, id);
  }

  /** No step of the run rotates session `id`. */
  ghost predicate Unrotated(s: Store, actions: seq<Action>, id: Id)
    decreases |actions|
  {
    actions == [] || (Unrotated(s, actions[..|actions| - 1], id)
                      && !Rotates(Run(s, actions[..|actions| - 1]), actions[|actions| - 1], id))
  }

  lemma {:induction false} GenerationCountsRotations(s: Store, actions: seq<Action>, id: Id)
    requires Inv(s) && id in s.sessions
    ensures var t := Run(s, actions);
            && id in t.sessions && s.sessions[id].generation <= t.sessions[id].generation
            && (t.sessions[id].generation == s.sessions[id].generation <==> Unrotated(s, actions, id))
            && (Unrotated(s, actions, id) ==> t.sessions[id].previousUntil == s.sessions[id].previousUntil)
    decreases |actions|
  {
    if actions == [] {
    } else {
      var before := actions[..|actions| - 1];
      GenerationCountsRotations(s, before, id);
      RunKeeps(s, before);
      assert SessionOk(Run(s, before), id);
    }
  }

  /** A credential that a rotation has just replaced is accepted later exactly if
    the session lives, thirty seconds have not passed, and no refresh has
    rotated the session again. */
  lemma OverlapIsExact(s: Store, actions: seq<Action>, id: Id)
    requires Inv(s) && id in s.sessions && s.sessions[id].generation > 0 && s.sessions[id].rotatedAt == Some(s.now)
    ensures var t, replaced := Run(s, actions), CredentialAt(id, s.sessions[id].generation - 1);
            Accepts(t, id, replaced) <==> Alive(t, id) && t.now < s.now + OVERLAP_TTL && Unrotated(s, actions, id)
  {
    var t := Run(s, actions);
    RunKeeps(s, actions);
    GenerationCountsRotations(s, actions, id);
    assert SessionOk(s, id) && SessionOk(t, id);
  }

  /** The server's clock is not ahead of the database's in any refresh. */
  ghost predicate ClockNotAhead(s: Store, actions: seq<Action>)
    decreases |actions|
  {
    actions == [] || (ClockNotAhead(s, actions[..|actions| - 1])
                      && var a := actions[|actions| - 1]; (a.Refresh? ==>
                                                             a.clock <= Run(s, actions[..|actions| - 1]).now))
  }

  /** Then the generation cannot move before the overlap of the last rotation is
    over. */
  lemma {:induction false} NoRotationInOverlap(s: Store, actions: seq<Action>, id: Id)
    requires Inv(s) && id in s.sessions && s.sessions[id].generation > 0 && ClockNotAhead(s, actions)
    ensures Unrotated(s, actions, id) || Run(s, actions).now >= s.sessions[id].previousUntil
    decreases |actions|
  {
    if actions == [] {
    } else {
      var before := actions[..|actions| - 1];
      NoRotationInOverlap(s, before, id);
      GenerationCountsRotations(s, before, id);
      RunKeeps(s, before);
      ApplyKeeps(Run(s, before), actions[|actions| - 1]);
    }
  }

  /** So with such clocks the replaced credential has its full thirty seconds, as
    long as the session lives. */
  lemma OverlapLasts(s: Store, actions: seq<Action>, id: Id)
    requires Inv(s) && id in s.sessions && s.sessions[id].generation > 0 && s.sessions[id].rotatedAt == Some(s.now)
    requires ClockNotAhead(s, actions)
    ensures var t, replaced := Run(s, actions), CredentialAt(id, s.sessions[id].generation - 1);
            Accepts(t, id, replaced) <==> Alive(t, id) && t.now < s.now + OVERLAP_TTL
  {
    NoRotationInOverlap(s, actions, id);
    OverlapIsExact(s, actions, id);
    assert SessionOk(s, id);
  }

  /** With a server clock thirty seconds ahead, a second refresh in the very
    second of the first takes an accepted credential away. */
  lemma OverlapCutShort()
    ensures var s := Run(Store(map[], 0), [Create(0, 43200), Refresh(0, Initial(0), 0, 0)]);
            && Inv(s) && s.now == 0 && Accepts(s, 0, Initial(0))
            && Apply(s, Refresh(0, Derived(0, 1), 1, 30)).now == 0
            && !Accepts(Apply(s, Refresh(0, Derived(0, 1), 1, 30)), 0, Initial(0))
  {
    var actions := [Create(0, 43200), Refresh(0, Initial(0), 0, 0)];
    RunKeeps(Store(map[], 0), actions);
    assert actions[..1] == [Create(0, 43200)] && actions[..1][..0] == [];
    var created := Apply(Store(map[], 0), Create(0, 43200));
    assert Run(Store(map[], 0), actions[..1]) == created;
    assert created.sessions[0] == Session(Initial(0), None, 0, 0, None, 43200, 604800);
    var s := Run(Store(map[], 0), actions);
    assert s.sessions[0] == Session(Derived(0, 1), Some(Initial(0)), 30, 1, Some(0), 43200, 604800);
  }

  // ------------------------------------------------------ the code, in order

  class AdminSessionStore {
    var store: Store

    constructor ()
      ensures store == Store(map[], 0) && Inv(store)
    {
      store := Store(map[], 0);
    }

    /** CreateAdminSession; the primary key refuses a second one. */
    method CreateAdminSession(id: Id, expiresAt: int) returns (ok: bool)
      modifies this
      ensures ok <==> id !in old(store).sessions
      ensures store == Apply(old(store), Create(id, expiresAt))
    {
      ok := id !in store.sessions;
      if ok {
        var expires := Min(expiresAt, store.now + IDLE_TTL);
        store := store.(sessions :=
        store.sessions[id := Session(Initial(id), None, 0, 0, None, expires, store.now + ABSOLUTE_TTL)]);
      }
    }

    /** AdminSession: the session that accepts the credential, if any. */
    method AdminSession(c: Credential) returns (found: Option<Id>)
      requires Inv(store)
      ensures forall id: Id :: Accepts(store, id, c) <==> found == Some(id)
    {
      found := None;
      var todo := store.sessions.Keys;
      while todo != {}
        invariant todo <= store.sessions.Keys
        invariant found.Some? ==> Accepts(store, found.value, c)
        invariant forall id :: id in store.sessions && id !in todo && Accepts(store, id, c) ==> found == Some(id)
        decreases |todo|
      {
        var id :| id in todo;
        if Accepts(store, id, c) {
          AcceptedCredentials(store, [], id, c);
          found := Some(id);
        }
        todo := todo - {id};
      }
    }

    /** RotateAdminSession. */
    method RotateAdminSession(id: Id, presented: Credential, next: Credential, generation: nat, clock: int)
      returns (outcome: Rotation)
      modifies this
      ensures outcome == RotateOutcome(old(store), id, presented, next, generation, clock)
      ensures store == DoRotate(old(store), id, presented, next, generation, clock)
    {
      if !Alive(store, id) {
        return NoRows;
      }
      var row := store.sessions[id];
      if row.current != presented && !(row.previous == Some(presented) && row.previousUntil > clock) {
        return NoRows;
      }
      if row.generation != generation || (row.rotatedAt.Some? && row.rotatedAt.value + OVERLAP_TTL > clock) {
        return Kept(row);
      }
      if row.current != presented {
        return NoRows;
      }
      row := row.(
      previous := Some(row.current),
      previousUntil := store.now + OVERLAP_TTL,
      current := next,
      generation := row.generation + 1,
      rotatedAt := Some(store.now),
      expires := Min(store.now + IDLE_TTL, row.absolute));
      store := store.(sessions := store.sessions[id := row]);
      outcome := Rotated(row);
    }

    /** TouchAdminSession. */
    method TouchAdminSession(id: Id) returns (touched: bool)
      modifies this
      ensures touched <==> Alive(old(store), id)
      ensures store == Apply(old(store), Touch(id))
    {
      touched := Alive(store, id);
      if touched {
        var row := store.sessions[id];
        store := store.(sessions := store.sessions[id := row.(expires := Min(store.now + IDLE_TTL, row.absolute))]);
      }
    }

    /** handleAdminRefresh behind requireAdmin, with no other request between. */
    method HandleRefresh(cookie: Credential, clock: int) returns (issued: Option<Credential>)
      requires Inv(store)
      modifies this
      ensures Inv(store)
      ensures issued.Some? ==>
                exists id: Id :: && Accepts(old(store), id, cookie)
                                 && id in store.sessions && store.sessions[id].current == issued.value
      ensures issued.Some? <==> exists id: Id :: Accepts(old(store), id, cookie)
                                                 && (old(store).sessions[id].current == cookie
                                                     || clock < old(store).sessions[id].previousUntil)
      ensures issued.None? ==> store == old(store)
    {
      var found := AdminSession(cookie);
      if found.None? {
        return None;
      }
      var id, generation := found.value, store.sessions[found.value].generation;
      ghost var s := store;
      var outcome := RotateAdminSession(id, cookie, Derived(id, generation + 1), generation, clock);
      ApplyKeeps(s, Refresh(id, cookie, generation, clock));
      RefreshAnswers(s, [], id, cookie, clock);
      assert SessionOk(s, id) && Accepts(s, id, cookie);
      if outcome.NoRows? {
        return None;
      }
      RefreshIssuesCurrent(s, [], id, cookie, clock);
      issued := Some(Derived(id, outcome.session.generation));
    }

    /** requireAdmin for any other path, with no other request between. */
    method HandleRequest(cookie: Credential) returns (issued: Option<Credential>)
      requires Inv(store)
      modifies this
      ensures Inv(store)
      ensures issued.Some? <==> exists id: Id :: Accepts(old(store), id, cookie)
      ensures issued.Some? ==>
                exists id: Id :: && Accepts(old(store), id, cookie)
                                 && id in store.sessions && store.sessions[id].current == issued.value
    {
      var found := AdminSession(cookie);
      if found.None? {
        return None;
      }
      var id := found.value;
      ghost var s := store;
      var touched := TouchAdminSession(id);
      ApplyKeeps(s, Touch(id));
      RequestIssuesCurrent(s, [], id, cookie);
      var credential := cookie;
      if store.sessions[id].generation > 0 {
        credential := Derived(id, store.sessions[id].generation);
      }
      assert Accepts(s, id, cookie);
      issued := Some(credential);
    }
  }
}
