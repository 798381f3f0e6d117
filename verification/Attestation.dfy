/** Request attestation: the single-use nonce cache and the clock window around
  it. Times are in nanoseconds. */
module Attestation {
  import opened Common
  import opened Text

  const SECOND := 1_000_000_000
  const DEFAULT_SKEW := 300 * SECOND

  // -------------------------------------------------------------- nonce cache

  /** Entries hold the time at which a nonce may be used again. */
  type Entries = map<string, int>

  function Unexpired(entries: Entries, now: int): Entries {
    map n | n in entries && now < entries[n] :: entries[n]
  }

  predicate IsFresh(entries: Entries, nonce: string, now: int) {
    nonce != "" && !(nonce in entries && now < entries[nonce])
  }

  function Used(entries: Entries, nonce: string, now: int, ttl: int): Entries {
    if nonce == "" then entries
    else if IsFresh(entries, nonce, now) then Unexpired(entries, now)[nonce := now + ttl]
    else Unexpired(entries, now)
  }

  class NonceStore {
    const ttl: int
    var entries: Entries

    constructor (requested: int)
      ensures ttl == (if requested <= 0 then DEFAULT_SKEW else requested) && ttl > 0 && entries == map[]
    {
      ttl := if requested <= 0 then DEFAULT_SKEW else requested;
      entries := map[];
    }

    method Use(nonce: string, now: int) returns (accepted: bool)
      modifies this
      ensures accepted == IsFresh(old(entries), Trim(nonce), now)
      ensures entries == Used(old(entries), Trim(nonce), now, ttl)
    {
      var n := Trim(nonce);
      if n == "" {
        return false;
      }
      var todo := entries.Keys;
      while todo != {}
        invariant todo <= old(entries).Keys
        invariant forall k :: k in entries <==> k in old(entries) && (k in todo || now < old(entries)[k])
        invariant forall k :: k in entries ==> entries[k] == old(entries)[k]
        decreases |todo|
      {
        var k :| k in todo;
        if !(now < entries[k]) {
          entries := entries - {k};
        }
        todo := todo - {k};
      }
      assert entries == Unexpired(old(entries), now);
      if n in entries && now < entries[n] {
        return false;
      }
      entries := entries[n := now + ttl];
      accepted := true;
    }
  }

  // ------------------------------------------------- the cache against a log

  /** One use of an already trimmed nonce. */
  datatype Use = Use(nonce: string, now: int)

  function Run(uses: seq<Use>, ttl: int): Entries {
    if uses == [] then map[] else Used(Run(Front(uses), ttl), Last(uses).nonce, Last(uses).now, ttl)
  }

  /** Use number i was accepted. */
  predicate Accepted(uses: seq<Use>, ttl: int, i: nat)
    requires i < |uses|
  {
    IsFresh(Run(uses[..i], ttl), uses[i].nonce, uses[i].now)
  }

  ghost predicate Chronological(uses: seq<Use>) {
    forall i, j :: 0 <= i < j < |uses| ==> uses[i].now <= uses[j].now
  }

  /** The unbounded log: a nonce was accepted less than `ttl` ago. */
  ghost predicate RecentlyAccepted(uses: seq<Use>, ttl: int, nonce: string, now: int) {
    exists i {:trigger uses[i]} ::
      0 <= i < |uses| && uses[i].nonce == nonce && Accepted(uses, ttl, i) && now < uses[i].now + ttl
  }

  lemma LogGrows(uses: seq<Use>, ttl: int, nonce: string, now: int)
    requires uses != []
    ensures RecentlyAccepted(uses, ttl, nonce, now) <==>
            || RecentlyAccepted(Front(uses), ttl, nonce, now)
            || (Last(uses).nonce == nonce && IsFresh(Run(Front(uses), ttl), nonce, Last(uses).now)
                && now < Last(uses).now + ttl)
  {
    var n, before := |uses| - 1, Front(uses);
    assert uses[..n] == before;
    forall i | 0 <= i < n ensures uses[..i] == before[..i] && uses[i] == before[i] { }
    if RecentlyAccepted(before, ttl, nonce, now) {
      var i :| 0 <= i < n && before[i].nonce == nonce && Accepted(before, ttl, i) && now < before[i].now + ttl;
      assert uses[i] == before[i] && Accepted(uses, ttl, i);
    }
    if Last(uses).nonce == nonce && IsFresh(Run(before, ttl), nonce, Last(uses).now) && now < Last(uses).now + ttl {
      assert uses[n] == Last(uses) && Accepted(uses, ttl, n);
    }
  }

  lemma {:induction false} CacheIsLog(uses: seq<Use>, ttl: int, nonce: string, now: int)
    requires Chronological(uses) && ttl > 0 && nonce != "" && (uses != [] ==> Last(uses).now <= now)
    ensures IsFresh(Run(uses, ttl), nonce, now) <==> !RecentlyAccepted(uses, ttl, nonce, now)
  {
    if uses == [] {
    } else {
      CacheIsLog(Front(uses), ttl, nonce, now);
      LogGrows(uses, ttl, nonce, now);
      var entries := Run(Front(uses), ttl);
      assert IsFresh(Run(uses, ttl), nonce, now) <==>
             IsFresh(entries, nonce, now)
             && !(Last(uses).nonce == nonce && IsFresh(entries, nonce, Last(uses).now)
                  && now < Last(uses).now + ttl);
    }
  }

  /** Deleting expired entries loses nothing: a nonce is accepted exactly when it
    was not accepted less than `ttl` before, so two acceptances of one nonce are
    at least `ttl` apart. */
  lemma AcceptancesAreApart(uses: seq<Use>, ttl: int, i: nat, j: nat)
    requires Chronological(uses) && ttl > 0 && i < j < |uses| && uses[i].nonce == uses[j].nonce
    requires Accepted(uses, ttl, i) && Accepted(uses, ttl, j)
    ensures uses[i].now + ttl <= uses[j].now
  {
    var before := uses[..j];
    CacheIsLog(before, ttl, uses[j].nonce, uses[j].now);
    assert before[i] == uses[i] && before[..i] == uses[..i];
  }

  // -------------------------------------------------------------- the request

  datatype Outcome = Verified | MissingHeaders | InvalidSignature | Expired | Revoked | VersionDeprecated
                   | NonceReplayed

  /** What the parts of the verification that are not about time find out about a
    request. `timestamp` is None when it is not a number. */
  datatype Request = Request(
    headersPresent: bool,
    shapesValid: bool,
    timestamp: Option<int>,
    signatureValid: bool,
    revoked: bool,
    deprecated: bool,
    nonce: string)

  predicate InWindow(timestamp: int, now: int, skew: int) {
    -skew <= now - timestamp * SECOND <= skew
  }

  /** All checks before the nonce pass. */
  predicate Passes(r: Request, keyConfigured: bool, skew: int, now: int) {
    && r.headersPresent && r.shapesValid && keyConfigured
    && r.timestamp.Some? && InWindow(r.timestamp.value, now, skew)
    && r.signatureValid && !r.revoked && !r.deprecated
  }

  function EffectiveSkew(skew: int): int {
    if skew <= 0 then DEFAULT_SKEW else skew
  }

  method Verify(r: Request, keyConfigured: bool, skew: int, now: int, store: NonceStore) returns (outcome: Outcome)
    modifies store
    ensures outcome == Verified <==>
            Passes(r, keyConfigured, EffectiveSkew(skew), now) && IsFresh(old(store.entries), Trim(r.nonce), now)
    ensures outcome == NonceReplayed <==>
            Passes(r, keyConfigured, EffectiveSkew(skew), now) && !IsFresh(old(store.entries), Trim(r.nonce), now)
    ensures store.entries == if Passes(r, keyConfigured, EffectiveSkew(skew), now)
                             then Used(old(store.entries), Trim(r.nonce), now, store.ttl) else old(store.entries)
    ensures outcome == MissingHeaders <==> !r.headersPresent || (r.shapesValid && !keyConfigured)
    ensures outcome == Expired <==>
            && r.headersPresent && r.shapesValid && keyConfigured
            && (r.timestamp == None || !InWindow(r.timestamp.value, now, EffectiveSkew(skew)))
    ensures outcome == InvalidSignature <==>
            && r.headersPresent
            && (!r.shapesValid || (&& keyConfigured && !r.signatureValid && r.timestamp.Some?
                                   && InWindow(r.timestamp.value, now, EffectiveSkew(skew))))
    ensures outcome == Revoked ==> r.signatureValid && r.revoked
    ensures outcome == VersionDeprecated ==> r.signatureValid && !r.revoked && r.deprecated
    ensures outcome in {Verified, NonceReplayed} ==>
              && r.headersPresent && r.shapesValid && keyConfigured && r.signatureValid && !r.revoked && !r.deprecated
  {
    if !r.headersPresent {
      return MissingHeaders;
    }
    if !r.shapesValid {
      return InvalidSignature;
    }
    if !keyConfigured {
      return MissingHeaders;
    }
    var effective := EffectiveSkew(skew);
    if r.timestamp.None? {
      return Expired;
    }
    var d := now - r.timestamp.value * SECOND;
    if d > effective || d < -effective {
      return Expired;
    }
    if !r.signatureValid {
      return InvalidSignature;
    }
    if r.revoked {
      return Revoked;
    }
    if r.deprecated {
      return VersionDeprecated;
    }
    var unused := store.Use(r.nonce, now);
    outcome := if unused then Verified else NonceReplayed;
  }

  // ------------------------------------------------------------------- replay

  /** Requests that reached the nonce check, as uses, with their timestamps. */
  ghost predicate InWindows(uses: seq<Use>, timestamps: seq<int>, skew: int) {
    |timestamps| == |uses| && forall i :: 0 <= i < |uses| ==> InWindow(timestamps[i], uses[i].now, skew)
  }

  /** One (timestamp, nonce) accepted twice. */
  ghost predicate Replays(uses: seq<Use>, timestamps: seq<int>, ttl: int, i: nat, j: nat) {
    && i < j < |uses| && |timestamps| == |uses|
    && uses[i].nonce == uses[j].nonce && timestamps[i] == timestamps[j]
    && Accepted(uses, ttl, i) && Accepted(uses, ttl, j)
  }

  /** A replay has to wait for the cache entry and still be inside the window: it
    takes at least `ttl` and at most twice the skew. */
  lemma ReplayTakes(uses: seq<Use>, timestamps: seq<int>, ttl: int, skew: int, i: nat, j: nat)
    requires Chronological(uses) && ttl > 0 && InWindows(uses, timestamps, skew) && Replays(uses, timestamps, ttl, i, j)
    ensures ttl <= uses[j].now - uses[i].now <= 2 * skew
  {
    AcceptancesAreApart(uses, ttl, i, j);
    assert InWindow(timestamps[i], uses[i].now, skew) && InWindow(timestamps[j], uses[j].now, skew);
  }

  /** A request that comes as early as the window allows, and again as late. */
  function EdgeUses(nonce: string, timestamp: int, skew: int): seq<Use> {
    [Use(nonce, timestamp * SECOND - skew), Use(nonce, timestamp * SECOND + skew)]
  }

  /** So a request can be replayed, on some run, exactly when the entry lives no
    longer than twice the skew. */
  lemma ReplayPossibleIff(ttl: int, skew: int, nonce: string)
    requires ttl > 0 && skew > 0 && nonce != ""
    ensures ttl <= 2 * skew <==>
            exists uses, timestamps, i, j ::
              Chronological(uses) && InWindows(uses, timestamps, skew) && Replays(uses, timestamps, ttl, i, j)
  {
    if ttl <= 2 * skew {
      var uses := EdgeUses(nonce, 0, skew);
      assert Run([], ttl) == map[] && uses[..0] == [] && uses[..1] == [uses[0]];
      assert Front([uses[0]]) == [];
      assert Run(uses[..1], ttl) == map[nonce := uses[0].now + ttl];
      assert Chronological(uses) && InWindows(uses, [0, 0], skew) && Replays(uses, [0, 0], ttl, 0, 1);
    } else {
      forall uses, timestamps, i, j | Chronological(uses) && InWindows(uses, timestamps, skew)
                                      && Replays(uses, timestamps, ttl, i, j) ensures false {
        ReplayTakes(uses, timestamps, ttl, skew, i, j);
      }
    }
  }

  /** The server keeps entries for twice the default skew: a replay is accepted
    only at the last instant of the window, exactly that long after the first. */
  lemma ConfiguredReplayIsExact(uses: seq<Use>, timestamps: seq<int>, i: nat, j: nat)
    requires Chronological(uses) && InWindows(uses, timestamps, DEFAULT_SKEW)
             && Replays(uses, timestamps, 2 * DEFAULT_SKEW, i, j)
    ensures uses[j].now - uses[i].now == 2 * DEFAULT_SKEW
    ensures uses[i].now == timestamps[i] * SECOND - DEFAULT_SKEW && uses[j].now == timestamps[i] * SECOND + DEFAULT_SKEW
  {
    ReplayTakes(uses, timestamps, 2 * DEFAULT_SKEW, DEFAULT_SKEW, i, j);
    assert InWindow(timestamps[i], uses[i].now, DEFAULT_SKEW) && InWindow(timestamps[j], uses[j].now, DEFAULT_SKEW);
  }
}
