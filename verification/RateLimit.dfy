/** The fixed-window rate limiter. Times are milliseconds on one clock shared by the application and
    Redis. A request reads the clock (`now`), counts itself in Redis (`at`), and then sets the expiry or
    reads the clock again (`later`); requests reach Redis in the order of the run. */
module RateLimit {
  import opened Wrappers

  /** Which Redis call, if any, throws. */
  datatype Mood = Up | IncrFails | ExpireFails

  datatype Request = Request(caller: Option<string>, now: nat, at: nat, later: nat, mood: Mood)

  datatype Verdict = Passed | Refused(retryAfter: int) | FailedOpen | Unidentified

  datatype Key = Key(caller: string, window: nat)

  datatype Cell = Cell(count: nat, expiresAt: Option<nat>)

  type Seconds = n: nat | n > 0 witness 1

  datatype Config = Config(limit: nat, windowSeconds: Seconds)

  function WindowOf(c: Config, ms: nat): nat { Quotient(ms / 1000, c.windowSeconds) }

  function Quotient(n: nat, d: Seconds): (q: nat)
    ensures q * d <= n < (q + 1) * d
  {
    n / d
  }

  /** First second of the next window. */
  function ResetAt(c: Config, window: nat): nat { (window + 1) * c.windowSeconds }

  function Max(a: int, b: int): int { if a < b then b else a }

  /** INCRBY 1 on a key that may have expired by `at`. */
  function Increment(keys: map<Key, Cell>, key: Key, at: nat): Cell {
    if key in keys && (keys[key].expiresAt.Some? ==> at < keys[key].expiresAt.value)
    then keys[key].(count := keys[key].count + 1)
    else Cell(1, None)
  }

  function Step(c: Config, keys: map<Key, Cell>, r: Request): (map<Key, Cell>, Verdict) {
    if r.caller.None? then (keys, Unidentified)
    else if r.mood.IncrFails? then (keys, FailedOpen)
    else
      var window := WindowOf(c, r.now);
      var key := Key(r.caller.value, window);
      var cell := Increment(keys, key, r.at);
      if cell.count == 1 && r.mood.ExpireFails? then (keys[key := cell], FailedOpen)
      else
        var kept := if cell.count == 1 then Cell(1, Some(r.later + (c.windowSeconds + 1) * 1000)) else cell;
        (keys[key := kept],
         if cell.count > c.limit then Refused(Max(1, ResetAt(c, window) - r.later / 1000)) else Passed)
  }

  class RateLimiter {
    const config: Config
    var keys: map<Key, Cell>

    constructor (limit: nat, windowSeconds: Seconds)
      ensures config == Config(limit, windowSeconds) && keys == map[]
    {
      config, keys := Config(limit, windowSeconds), map[];
    }

    /** None when Redis throws. */
    method IncrBy1(key: Key, at: nat, up: bool) returns (current: Option<nat>)
      modifies this`keys
      ensures if !up then keys == old(keys) && current == None
              else keys == old(keys)[key := Increment(old(keys), key, at)]
                   && current == Some(Increment(old(keys), key, at).count)
    {
      if !up {
        return None;
      }
      keys := keys[key := Increment(keys, key, at)];
      return Some(keys[key].count);
    }

    method CanActivate(r: Request) returns (verdict: Verdict)
      modifies this`keys
      ensures (keys, verdict) == Step(config, old(keys), r)
    {
      if r.caller.None? {
        return Unidentified;
      }
      var window := r.now / 1000 / config.windowSeconds;
      var key := Key(r.caller.value, window);
      var resetAt := ResetAt(config, window);
      var current := IncrBy1(key, r.at, !r.mood.IncrFails?);
      if current.None? {
        return FailedOpen;
      }
      if current.value == 1 {
        if r.mood.ExpireFails? {
          return FailedOpen;
        }
        keys := keys[key := keys[key].(expiresAt := Some(r.later + (config.windowSeconds + 1) * 1000))];
      }
      assert keys == Step(config, old(keys), r).0;
      if current.value > config.limit {
        var retryAfter := resetAt - r.later / 1000;
        return Refused(Max(1, retryAfter));
      }
      return Passed;
    }
  }

  // ----- runs -----

  function Run(c: Config, rs: seq<Request>): map<Key, Cell> {
    if rs == [] then map[] else Step(c, Run(c, rs[..|rs| - 1]), rs[|rs| - 1]).0
  }

  /** The verdict on request `i` of the run. */
  function VerdictOn(c: Config, rs: seq<Request>, i: nat): Verdict
    requires i < |rs|
  {
    Step(c, Run(c, rs[..i]), rs[i]).1
  }

  predicate Hits(c: Config, r: Request, key: Key) {
    r.caller == Some(key.caller) && WindowOf(c, r.now) == key.window
  }

  /** Requests that Redis counted under the key. */
  function Counted(c: Config, rs: seq<Request>, key: Key): nat {
    if rs == [] then 0
    else
      var last := rs[|rs| - 1];
      Counted(c, rs[..|rs| - 1], key) + if Hits(c, last, key) && !last.mood.IncrFails? then 1 else 0
  }

  /** Requests the counter let through. */
  function PassedUnder(c: Config, rs: seq<Request>, key: Key): nat {
    if rs == [] then 0
    else
      var last := |rs| - 1;
      PassedUnder(c, rs[..last], key) + if Hits(c, rs[last], key) && VerdictOn(c, rs, last).Passed? then 1 else 0
  }

  const SLACK_MS := 1000

  /** The clock only moves forward inside a request, and reaching Redis takes at most `delay`. */
  predicate Within(rs: seq<Request>, delay: nat) {
    forall i | 0 <= i < |rs| :: rs[i].now <= rs[i].at <= rs[i].later && rs[i].at <= rs[i].now + delay
  }

  predicate Prompt(rs: seq<Request>) { Within(rs, SLACK_MS) }

  /** First millisecond after the window. */
  function EndOf(c: Config, window: nat): nat { 1000 * ResetAt(c, window) }

  lemma WindowBounds(c: Config, ms: nat)
    ensures EndOf(c, WindowOf(c, ms)) - 1000 * c.windowSeconds <= ms < EndOf(c, WindowOf(c, ms))
  {
    var q := Quotient(ms / 1000, c.windowSeconds);
    assert (q + 1) * c.windowSeconds == q * c.windowSeconds + c.windowSeconds;
  }

  /** The counter of a key is the number of requests counted under it, and expires no earlier than a second
      after its window. */
  predicate KeyOk(c: Config, keys: map<Key, Cell>, key: Key, counted: nat) {
    if counted == 0 then key !in keys
    else
      && key in keys && keys[key].count == counted
      && (keys[key].expiresAt.Some? ==> EndOf(c, key.window) + SLACK_MS <= keys[key].expiresAt.value)
  }

  lemma StepKeepsKey(c: Config, keys: map<Key, Cell>, r: Request, key: Key, counted: nat)
    requires KeyOk(c, keys, key, counted) && Prompt([r])
    ensures KeyOk(c, Step(c, keys, r).0, key, counted + if Hits(c, r, key) && !r.mood.IncrFails? then 1 else 0)
    ensures Hits(c, r, key) && Step(c, keys, r).1.Passed? ==> counted < c.limit && !r.mood.IncrFails?
    ensures Hits(c, r, key) && r.mood.Up? && counted < c.limit ==> Step(c, keys, r).1.Passed?
  {
    hide WindowOf, EndOf, ResetAt;
    assert Prompt([r]) ==> [r][0].now <= r.at <= r.later && r.at <= r.now + SLACK_MS;
    WindowBounds(c, r.now);
  }

  /** The key never expires inside its own window, nor in the second after it: the counter is exact. */
  lemma {:induction false} CounterIsExact(c: Config, rs: seq<Request>, key: Key)
    requires Prompt(rs)
    ensures KeyOk(c, Run(c, rs), key, Counted(c, rs, key))
    ensures PassedUnder(c, rs, key) <= Counted(c, rs, key) && PassedUnder(c, rs, key) <= c.limit
  {
    hide KeyOk, Step, Hits;
    if rs == [] {
      assert KeyOk(c, map[], key, 0) by { FreshKey(c, key); }
    } else {
      var front, last := rs[..|rs| - 1], rs[|rs| - 1];
      CounterIsExact(c, front, key);
      assert Prompt([last]) by { assert rs[|rs| - 1].now <= last.at; }
      StepKeepsKey(c, Run(c, front), last, key, Counted(c, front, key));
    }
  }

  lemma FreshKey(c: Config, key: Key)
    ensures KeyOk(c, map[], key, 0)
  {
  }

  // ----- no more than the limit passes in a window, and exactly that much when Redis answers -----

  lemma {:induction false} PassesPerWindow(c: Config, rs: seq<Request>, key: Key)
    requires Prompt(rs) && forall i | 0 <= i < |rs| :: Hits(c, rs[i], key) ==> rs[i].mood.Up?
    ensures PassedUnder(c, rs, key) == if Counted(c, rs, key) < c.limit then Counted(c, rs, key) else c.limit
  {
    hide KeyOk, Step, Hits;
    if rs != [] {
      var front, last := rs[..|rs| - 1], rs[|rs| - 1];
      assert forall i | 0 <= i < |front| :: front[i] == rs[i];
      PassesPerWindow(c, front, key);
      CounterIsExact(c, front, key);
      assert Prompt([last]) by { assert rs[|rs| - 1].now <= last.at; }
      StepKeepsKey(c, Run(c, front), last, key, Counted(c, front, key));
    }
  }

  /** The verdict in terms of the requests counted before: only a request beyond the limit is refused, and one that
      meets a failing Redis always gets through. */
  lemma VerdictTellsCount(c: Config, rs: seq<Request>, i: nat)
    requires Prompt(rs) && i < |rs|
    ensures var r := rs[i];
      var n := if r.caller.None? then 0 else Counted(c, rs[..i], Key(r.caller.value, WindowOf(c, r.now)));
      && (VerdictOn(c, rs, i).Unidentified? <==> r.caller.None?)
      && (VerdictOn(c, rs, i).FailedOpen? <==> r.caller.Some? && (r.mood.IncrFails? || (r.mood.ExpireFails? && n == 0)))
      && (VerdictOn(c, rs, i).Refused? <==>
            r.caller.Some? && c.limit <= n && !r.mood.IncrFails? && (r.mood.ExpireFails? ==> n > 0))
  {
    hide WindowOf, EndOf, ResetAt, Max;
    if rs[i].caller.Some? {
      var key := Key(rs[i].caller.value, WindowOf(c, rs[i].now));
      assert Prompt(rs[..i]) by { assert forall k | 0 <= k < i :: rs[..i][k] == rs[k]; }
      CounterIsExact(c, rs[..i], key);
      assert rs[i].now <= rs[i].at && rs[i].at <= rs[i].now + SLACK_MS;
      WindowBounds(c, rs[i].now);
    }
  }

  // ----- at most twice the limit in any span of windowSeconds -----

  /** Requests of the caller with a clock reading in the span that the counter let through. */
  function PassedWithin(c: Config, rs: seq<Request>, caller: string, from: nat): nat {
    if rs == [] then 0
    else
      var last := |rs| - 1;
      PassedWithin(c, rs[..last], caller, from)
      + if rs[last].caller == Some(caller) && from <= rs[last].now < from + 1000 * c.windowSeconds
           && VerdictOn(c, rs, last).Passed? then 1 else 0
  }

  lemma SpanTouchesTwoWindows(c: Config, from: nat, now: nat)
    requires from <= now < from + 1000 * c.windowSeconds
    ensures WindowOf(c, from) <= WindowOf(c, now) <= WindowOf(c, from) + 1
  {
    QuotientStep(from / 1000, now / 1000, c.windowSeconds);
  }

  lemma QuotientStep(m: nat, n: nat, d: Seconds)
    requires m <= n <= m + d
    ensures Quotient(m, d) <= Quotient(n, d) <= Quotient(m, d) + 1
  {
    hide Quotient;
    var w, v := Quotient(m, d), Quotient(n, d);
    Spread(w, d);
    if v < w {
      Monotone(v + 1, w, d);
    } else if w + 1 < v {
      Monotone(w + 2, v, d);
    }
  }

  lemma Monotone(a: nat, b: nat, size: nat)
    requires a <= b
    ensures a * size <= b * size
  {
  }

  lemma {:induction false} AtMostTwiceTheLimit(c: Config, rs: seq<Request>, caller: string, from: nat)
    requires Prompt(rs)
    ensures PassedWithin(c, rs, caller, from) <= 2 * c.limit
  {
    var w := WindowOf(c, from);
    SpanCount(c, rs, caller, from);
    CounterIsExact(c, rs, Key(caller, w));
    CounterIsExact(c, rs, Key(caller, w + 1));
  }

  lemma {:induction false} SpanCount(c: Config, rs: seq<Request>, caller: string, from: nat)
    ensures PassedWithin(c, rs, caller, from) <=
            PassedUnder(c, rs, Key(caller, WindowOf(c, from))) + PassedUnder(c, rs, Key(caller, WindowOf(c, from) + 1))
  {
    hide WindowOf, Step;
    if rs != [] {
      var last := rs[|rs| - 1];
      SpanCount(c, rs[..|rs| - 1], caller, from);
      if from <= last.now < from + 1000 * c.windowSeconds {
        SpanTouchesTwoWindows(c, from, last.now);
      }
    }
  }

  // ----- Retry-After -----

  /** A refused caller who waits `Retry-After` seconds lands in a later window; while the window still runs
      the wait is the shortest whole number of seconds that does so, and no longer than a window. */
  lemma RetryAfterIsEnough(c: Config, keys: map<Key, Cell>, r: Request, back: nat)
    requires r.now <= r.later && Step(c, keys, r).1.Refused?
    requires r.later + 1000 * Step(c, keys, r).1.retryAfter <= back
    ensures WindowOf(c, r.now) < WindowOf(c, back)
  {
    hide Increment;
    var w, v := WindowOf(c, r.now), WindowOf(c, back);
    var wait := Step(c, keys, r).1.retryAfter;
    assert ResetAt(c, w) <= back / 1000;
    if v <= w {
      Monotone(v + 1, w + 1, c.windowSeconds);
    }
  }

  lemma RetryAfterIsShortest(c: Config, keys: map<Key, Cell>, r: Request)
    requires r.now <= r.later && WindowOf(c, r.later) == WindowOf(c, r.now) && Step(c, keys, r).1.Refused?
    ensures var wait := Step(c, keys, r).1.retryAfter;
            && 1 <= wait <= c.windowSeconds
            && WindowOf(c, 1000 * (r.later / 1000 + wait)) == WindowOf(c, r.now) + 1
            && WindowOf(c, 1000 * (r.later / 1000 + wait - 1)) == WindowOf(c, r.now)
  {
    hide Increment, Quotient;
    var w, ws, second := WindowOf(c, r.now), c.windowSeconds, r.later / 1000;
    var wait := Step(c, keys, r).1.retryAfter;
    assert w * ws <= second < (w + 1) * ws;
    Spread(w, ws);
    assert second + wait == (w + 1) * ws && 1000 * (second + wait) / 1000 == second + wait;
    QuotientIs(second + wait, ws, w + 1);
    assert 1000 * (second + wait - 1) / 1000 == second + wait - 1;
    QuotientIs(second + wait - 1, ws, w);
  }

  lemma Spread(w: nat, d: nat)
    ensures (w + 1) * d == w * d + d && (w + 2) * d == w * d + 2 * d
  {
  }

  lemma QuotientIs(n: nat, d: Seconds, q: nat)
    requires q * d <= n < (q + 1) * d
    ensures Quotient(n, d) == q
  {
    if Quotient(n, d) < q {
      Monotone(Quotient(n, d) + 1, q, d);
    } else if q < Quotient(n, d) {
      Monotone(q + 1, Quotient(n, d), d);
    }
  }

  // ----- the second of slack is exactly what the limit needs -----

  /** Requests reach Redis in the order of the run. */
  predicate InOrder(rs: seq<Request>) {
    forall i, j | 0 <= i < j < |rs| :: rs[i].at <= rs[j].at
  }

  /** No window ever lets more than the limit through, whatever requests come. */
  ghost predicate LimitHolds(c: Config, delay: nat) {
    forall rs: seq<Request>, key: Key | Within(rs, delay) && InOrder(rs) :: PassedUnder(c, rs, key) <= c.limit
  }

  const START_KEY := Key("caller", 0)

  /** `n` requests at the very start of window 0. */
  function Burst(n: nat): seq<Request> {
    if n == 0 then [] else Burst(n - 1) + [Request(Some("caller"), 0, 0, 0, Up)]
  }

  lemma BurstGoesOn(c: Config, n: nat)
    ensures var keys := map[START_KEY := Cell(n, Some((c.windowSeconds + 1) * 1000))];
      (n > 0 ==> Step(c, keys, Request(Some("caller"), 0, 0, 0, Up)).0 == keys[START_KEY := keys[START_KEY].(count := n + 1)])
      && Step(c, map[], Request(Some("caller"), 0, 0, 0, Up)).0 == map[START_KEY := Cell(1, Some((c.windowSeconds + 1) * 1000))]
  {
    hide Quotient;
    QuotientIs(0, c.windowSeconds, 0);
    assert 0 < (c.windowSeconds + 1) * 1000;
  }

  lemma {:induction false} BurstShape(c: Config, n: nat)
    ensures |Burst(n)| == n && forall i | 0 <= i < n :: Burst(n)[i] == Request(Some("caller"), 0, 0, 0, Up)
    ensures n > 0 ==> Run(c, Burst(n)) == map[START_KEY := Cell(n, Some((c.windowSeconds + 1) * 1000))]
    ensures Counted(c, Burst(n), START_KEY) == n
  {
    hide Quotient, Step;
    QuotientIs(0, c.windowSeconds, 0);
    if n > 0 {
      BurstShape(c, n - 1);
      BurstGoesOn(c, n - 1);
      assert Burst(n)[..n - 1] == Burst(n - 1);
    }
  }

  /** The last millisecond of window 0, a second and a millisecond late: the key of the burst has just expired. */
  function Straggler(c: Config): Request {
    var now := 1000 * c.windowSeconds - 1;
    Request(Some("caller"), now, now + SLACK_MS + 1, now + SLACK_MS + 1, Up)
  }

  lemma StragglerFindsNoKey(c: Config)
    requires c.limit > 0
    ensures Hits(c, Straggler(c), START_KEY)
    ensures Step(c, map[START_KEY := Cell(c.limit, Some((c.windowSeconds + 1) * 1000))], Straggler(c)).1.Passed?
  {
    hide Quotient, ResetAt, Max;
    QuotientIs(c.windowSeconds - 1, c.windowSeconds, 0);
    assert (1000 * c.windowSeconds - 1) / 1000 == c.windowSeconds - 1;
  }

  lemma StragglerPasses(c: Config)
    requires c.limit > 0
    ensures PassedUnder(c, Burst(c.limit) + [Straggler(c)], START_KEY) == c.limit + 1
  {
    hide Step, Hits, Straggler, Burst;
    var burst, rs := Burst(c.limit), Burst(c.limit) + [Straggler(c)];
    BurstShape(c, c.limit);
    assert Prompt(burst);
    PassesPerWindow(c, burst, START_KEY);
    StragglerFindsNoKey(c);
    assert rs[..c.limit] == burst;
  }

  /** For any limit, window and bound on the time a request takes to reach Redis: no window ever lets more than the limit
      through exactly if the bound is at most the second by which the key outlives its window. */
  lemma LimitHoldsIff(c: Config, delay: nat)
    ensures LimitHolds(c, delay) <==> delay <= SLACK_MS || c.limit == 0
  {
    hide PassedUnder;
    if delay <= SLACK_MS {
      forall rs: seq<Request>, key: Key | Within(rs, delay) && InOrder(rs) ensures PassedUnder(c, rs, key) <= c.limit {
        CounterIsExact(c, rs, key);
      }
    } else if c.limit == 0 {
      forall rs: seq<Request>, key: Key ensures PassedUnder(c, rs, key) <= c.limit {
        NothingPassesZero(c, rs, key);
      }
    } else {
      BurstShape(c, c.limit);
      StragglerPasses(c);
      var rs := Burst(c.limit) + [Straggler(c)];
      assert Within(rs, delay) && InOrder(rs);
    }
  }

  lemma {:induction false} NothingPassesZero(c: Config, rs: seq<Request>, key: Key)
    requires c.limit == 0
    ensures PassedUnder(c, rs, key) == 0
  {
    if rs != [] {
      NothingPassesZero(c, rs[..|rs| - 1], key);
      NeverPasses(c, Run(c, rs[..|rs| - 1]), rs[|rs| - 1]);
    }
  }

  lemma NeverPasses(c: Config, keys: map<Key, Cell>, r: Request)
    requires c.limit == 0
    ensures !Step(c, keys, r).1.Passed?
  {
  }
}
