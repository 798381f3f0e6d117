/** The fixed-window limiter and what it promises about sliding windows. */
module RateLimiter {
  import opened Common

  const EVICTION_THRESHOLD := 4096

  datatype Window = Window(start: int, count: nat)

  type Windows = map<string, Window>

  datatype Config = Config(limit: nat, window: int)

  predicate Valid(c: Config) {
    c.limit > 0 && c.window > 0
  }

  /** newWindowLimiter's defaults. */
  function Configured(limit: int, window: int, fallbackLimit: nat): Config {
    Config(if limit <= 0 then fallbackLimit else limit, if window <= 0 then 60 else window)
  }

  // ------------------------------------------------------------------- record

  /** The window that an event at `now` falls into. */
  function Current(c: Config, m: Windows, key: string, now: int): Window {
    if key !in m || now - m[key].start >= c.window then Window(now, 0) else m[key]
  }

  function Evicted(c: Config, m: Windows, now: int): Windows {
    if |m| <= EVICTION_THRESHOLD then m else map k | k in m && now - m[k].start < 2 * c.window :: m[k]
  }

  predicate Answer(c: Config, m: Windows, key: string, now: int) {
    Current(c, m, key, now).count < c.limit
  }

  function Charged(c: Config, m: Windows, key: string, consume: bool, now: int): Window {
    var w := Current(c, m, key, now);
    if consume && w.count < c.limit then w.(count := w.count + 1) else w
  }

  /** The map after a call, with and without eviction. */
  function Recorded(c: Config, m: Windows, key: string, consume: bool, now: int): Windows {
    Evicted(c, m[key := Current(c, m, key, now)], now)[key := Charged(c, m, key, consume, now)]
  }

  function Kept(c: Config, m: Windows, key: string, consume: bool, now: int): Windows {
    m[key := Charged(c, m, key, consume, now)]
  }

  class Limiter {
    const config: Config
    var windows: Windows

    constructor (limit: int, window: int, fallbackLimit: nat)
      requires fallbackLimit > 0
      ensures config == Configured(limit, window, fallbackLimit) && Valid(config) && windows == map[]
    {
      config := Configured(limit, window, fallbackLimit);
      windows := map[];
    }

    /** The sweep over all windows. */
    method Evict(now: int)
      modifies this
      ensures windows == Evicted(config, old(windows), now)
      ensures forall k :: k in windows <==>
                          && k in old(windows)
                          && (|old(windows)| <= 4096 || now - old(windows)[k].start < 2 * config.window)
      ensures forall k :: k in windows ==> windows[k] == old(windows)[k]
    {
      if |windows| > EVICTION_THRESHOLD {
        var todo := windows.Keys;
        while todo != {}
          invariant todo <= old(windows).Keys
          invariant forall k :: k in windows <==>
                                k in old(windows) && (k in todo || now - old(windows)[k].start < 2 * config.window)
          invariant forall k :: k in windows ==> windows[k] == old(windows)[k]
          decreases |todo|
        {
          var candidate :| candidate in todo;
          if now - windows[candidate].start >= 2 * config.window {
            windows := windows - {candidate};
          }
          todo := todo - {candidate};
        }
      }
    }

    method Record(key: string, consume: bool, now: int) returns (ok: bool)
      requires Valid(config)
      modifies this
      ensures ok == Answer(config, old(windows), key, now)
      ensures windows == Recorded(config, old(windows), key, consume, now)
    {
      var window := Current(config, windows, key, now);
      windows := windows[key := window];
      ghost var inserted := windows;
      Evict(now);
      assert key in windows && windows[key] == window && windows[key := window] == windows;
      if window.count >= config.limit {
        return false;
      }
      if consume {
        windows := windows[key := window.(count := window.count + 1)];
      }
      ok := true;
    }

    method Allow(key: string, now: int) returns (ok: bool)
      requires Valid(config)
      modifies this
      ensures ok == Answer(config, old(windows), key, now) && windows == Recorded(config, old(windows), key, true, now)
    {
      ok := Record(key, true, now);
    }

    method Observe(key: string, now: int)
      requires Valid(config)
      modifies this
      ensures windows == Recorded(config, old(windows), key, true, now)
    {
      var _ := Record(key, true, now);
    }

    method Exceeded(key: string, now: int) returns (exceeded: bool)
      requires Valid(config)
      modifies this
      ensures exceeded == !Answer(config, old(windows), key, now)
              && windows == Recorded(config, old(windows), key, false, now)
    {
      var ok := Record(key, false, now);
      exceeded := !ok;
    }
  }

  // ----------------------------------------------------- eviction is invisible

  datatype Call = Call(key: string, consume: bool, now: int)

  function Run(c: Config, calls: seq<Call>): Windows {
    if calls == [] then map[]
    else Recorded(c, Run(c, Front(calls)), Last(calls).key, Last(calls).consume, Last(calls).now)
  }

  function RunKept(c: Config, calls: seq<Call>): Windows {
    if calls == [] then map[]
    else Kept(c, RunKept(c, Front(calls)), Last(calls).key, Last(calls).consume, Last(calls).now)
  }

  ghost predicate Chronological(calls: seq<Call>) {
    forall i, j :: 0 <= i < j < |calls| ==> calls[i].now <= calls[j].now
  }

  /** Evicting only lost windows that are over anyway. */
  ghost predicate Agree(c: Config, m: Windows, n: Windows, now: int) {
    && (forall k :: k in m ==> k in n && m[k] == n[k])
    && (forall k :: k in n && k !in m ==> now - n[k].start >= c.window)
  }

  lemma {:induction false} EvictionLosesNothing(c: Config, calls: seq<Call>, now: int)
    requires Valid(c) && Chronological(calls) && (calls != [] ==> Last(calls).now <= now)
    ensures Agree(c, Run(c, calls), RunKept(c, calls), now)
  {
    if calls == [] {
    } else {
      var a := Last(calls);
      EvictionLosesNothing(c, Front(calls), a.now);
      var m, n := Run(c, Front(calls)), RunKept(c, Front(calls));
      assert Current(c, m, a.key, a.now) == Current(c, n, a.key, a.now);
    }
  }

  /** On a clock that does not go back, no answer depends on eviction. */
  lemma EvictionIsInvisible(c: Config, calls: seq<Call>, key: string, now: int)
    requires Valid(c) && Chronological(calls) && (calls != [] ==> Last(calls).now <= now)
    ensures Answer(c, Run(c, calls), key, now) == Answer(c, RunKept(c, calls), key, now)
  {
    EvictionLosesNothing(c, calls, now);
  }

  // ------------------------------------------------------------ sliding windows

  /** The call was let through and charged. */
  predicate Consumed(c: Config, before: seq<Call>, a: Call) {
    a.consume && Answer(c, Run(c, before), a.key, a.now)
  }

  /** Charged calls of `key` at `from` or later. */
  function ChargesSince(c: Config, calls: seq<Call>, key: string, from: int): nat {
    if calls == [] then 0
    else
      ChargesSince(c, Front(calls), key, from)
      + if Last(calls).key == key && Consumed(c, Front(calls), Last(calls)) && from <= Last(calls).now then 1 else 0
  }

  lemma {:induction false} FewerLater(c: Config, calls: seq<Call>, key: string, from: int, later: int)
    requires from <= later
    ensures ChargesSince(c, calls, key, later) <= ChargesSince(c, calls, key, from)
  {
    if calls == [] {
    } else {
      FewerLater(c, Front(calls), key, from, later);
    }
  }

  /** Charged calls of `key` from `from` on, in an interval one window long. */
  function ChargesIn(c: Config, calls: seq<Call>, key: string, from: int): int {
    ChargesSince(c, calls, key, from) - ChargesSince(c, calls, key, from + c.window)
  }

  /** What the window of a key says about the charges so far. */
  ghost predicate Accounts(c: Config, calls: seq<Call>, key: string, from: int) {
    var n := RunKept(c, calls);
    if key !in n then forall at {:trigger ChargesSince(c, calls, key, at)} :: ChargesSince(c, calls, key, at) == 0
    else
      var s := n[key].start;
      && n[key].count <= c.limit
      && ChargesSince(c, calls, key, s) == n[key].count
      && ChargesSince(c, calls, key, s + c.window) == 0
      && ChargesSince(c, calls, key, s - c.window) - ChargesSince(c, calls, key, s) <= c.limit
      && ChargesIn(c, calls, key, from) <= 2 * c.limit
  }

  /** The last call was charged, or not, to the window it fell into. */
  lemma LastCharge(c: Config, calls: seq<Call>, key: string, at: int)
    requires Valid(c) && Chronological(calls) && calls != [] && Last(calls).key == key
    ensures var w, n := Current(c, RunKept(c, Front(calls)), key, Last(calls).now), RunKept(c, calls)[key];
            && n.start == w.start && n.count - w.count == (if Last(calls).consume && w.count < c.limit then 1 else 0)
            && ChargesSince(c, calls, key, at) == ChargesSince(c, Front(calls), key, at) + if at <= Last(calls).now
                                                  then n.count - w.count else 0
  {
    EvictionIsInvisible(c, Front(calls), key, Last(calls).now);
  }

  lemma SameWindow(c: Config, calls: seq<Call>, key: string, from: int)
    requires Valid(c) && Chronological(calls) && calls != [] && Last(calls).key == key
             && Accounts(c, Front(calls), key, from)
    requires var n := RunKept(c, Front(calls)); key in n && n[key].start <= Last(calls).now < n[key].start + c.window
    ensures Accounts(c, calls, key, from)
  {
    var s, t := RunKept(c, Front(calls))[key].start, Last(calls).now;
    LastCharge(c, calls, key, s);
    LastCharge(c, calls, key, s + c.window);
    LastCharge(c, calls, key, s - c.window);
    LastCharge(c, calls, key, from);
    LastCharge(c, calls, key, from + c.window);
    if from >= s {
      FewerLater(c, calls, key, s, from);
    } else if from > s - c.window {
      FewerLater(c, calls, key, s - c.window, from);
    }
  }

  lemma NewWindow(c: Config, calls: seq<Call>, key: string, from: int)
    requires Valid(c) && Chronological(calls) && calls != [] && Last(calls).key == key
             && Accounts(c, Front(calls), key, from)
    requires var n := RunKept(c, Front(calls)); key in n ==> Last(calls).now - n[key].start >= c.window
    ensures Accounts(c, calls, key, from)
  {
    var n, t, before := RunKept(c, Front(calls)), Last(calls).now, Front(calls);
    LastCharge(c, calls, key, t);
    LastCharge(c, calls, key, t + c.window);
    LastCharge(c, calls, key, t - c.window);
    LastCharge(c, calls, key, from);
    LastCharge(c, calls, key, from + c.window);
    if key in n {
      var s := n[key].start;
      FewerLater(c, before, key, s + c.window, t);
      FewerLater(c, before, key, s + c.window, t + c.window);
      FewerLater(c, before, key, s, t - c.window);
      if t - c.window < from { FewerLater(c, before, key, t - c.window, from); }
    }
  }

  lemma {:induction false} WindowAccounts(c: Config, calls: seq<Call>, key: string, from: int)
    requires Valid(c) && Chronological(calls)
    ensures Accounts(c, calls, key, from)
    ensures key in RunKept(c, calls) ==> calls != [] && RunKept(c, calls)[key].start <= Last(calls).now
  {
    if calls == [] {
    } else {
      WindowAccounts(c, Front(calls), key, from);
      if Last(calls).key != key {
        OtherKey(c, calls, key, from);
      } else {
        LastCharge(c, calls, key, from);
        var n := RunKept(c, Front(calls));
        if key in n && Last(calls).now - n[key].start < c.window { SameWindow(c, calls, key, from); } else {
          NewWindow(c, calls, key, from);
        }
      }
    }
  }

  lemma OtherKey(c: Config, calls: seq<Call>, key: string, from: int)
    requires calls != [] && Last(calls).key != key && Accounts(c, Front(calls), key, from)
    ensures Accounts(c, calls, key, from)
    ensures key in RunKept(c, calls) <==> key in RunKept(c, Front(calls))
    ensures key in RunKept(c, calls) ==> RunKept(c, calls)[key] == RunKept(c, Front(calls))[key]
  {
  }

  /** In any half-open interval as long as one window, at most twice the limit is
    charged to a key. */
  lemma AtMostTwiceTheLimit(c: Config, calls: seq<Call>, key: string, from: int)
    requires Valid(c) && Chronological(calls)
    ensures ChargesIn(c, calls, key, from) <= 2 * c.limit
  {
    WindowAccounts(c, calls, key, from);
    if key !in RunKept(c, calls) {
      assert ChargesSince(c, calls, key, from) == 0;
    }
  }

  /** The bound is reached: here both charges lie within one second. */
  lemma TwiceTheLimitIsReached(key: string)
    ensures var c, calls := Config(1, 60), [Call(key, false, 0), Call(key, true, 59), Call(key, true, 60)];
            Valid(c) && Chronological(calls) && ChargesIn(c, calls, key, 59) == 2 * c.limit
  {
    var c, a, b, d := Config(1, 60), Call(key, false, 0), Call(key, true, 59), Call(key, true, 60);
    assert Front([a, b, d]) == [a, b] && Front([a, b]) == [a] && Front([a]) == [];
    assert RunKept(c, [a])[key] == Window(0, 0);
    assert RunKept(c, [a, b])[key] == Window(0, 1);
    assert RunKept(c, [a, b, d])[key] == Window(60, 1);
    LastCharge(c, [a], key, 59);
    LastCharge(c, [a, b], key, 59);
    LastCharge(c, [a, b, d], key, 59);
    LastCharge(c, [a], key, 119);
    LastCharge(c, [a, b], key, 119);
    LastCharge(c, [a, b, d], key, 119);
  }
}
