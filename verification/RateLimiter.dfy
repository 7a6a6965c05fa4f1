/**
The fixed-window limiter: `checkLimit` in examples/rate/src/backend/registry.ts.
*/
module RateLimiter {
  const LIMIT := 5
  const WINDOW := 60000

  datatype Limiter = Limiter(count: nat, resetAt: int)

  /** The window a request at `now` falls into: the current one or a new one. */
  function Rolled(l: Limiter, now: int): Limiter {
    if now > l.resetAt then Limiter(0, now + WINDOW) else l
  }

  predicate Allows(l: Limiter, now: int) {
    Rolled(l, now).count < LIMIT
  }

  function Checked(l: Limiter, now: int): Limiter {
    var r := Rolled(l, now);
    if r.count < LIMIT then r.(count := r.count + 1) else r
  }

  /** `Math.max(0, Math.round(ms / 1000))`: the nearest whole second, halves rounded up. */
  function SecondsLeft(ms: int): (seconds: nat)
    ensures ms >= 0 ==> 1000 * seconds - 500 <= ms < 1000 * seconds + 500
    ensures ms < 0 ==> seconds == 0
  {
    var rounded := (ms + 500) / 1000;
    if rounded > 0 then rounded else 0
  }

  class Limit {
    var count: nat
    var resetAt: int

    ghost function View(): Limiter
      reads this
    {
      Limiter(count, resetAt)
    }

    constructor ()
      ensures View() == Limiter(0, 0)
    {
      count, resetAt := 0, 0;
    }

    method CheckLimit(now: int) returns (allowed: bool, remaining: nat, resetsIn: nat)
      modifies this
      ensures View() == Checked(old(View()), now)
      ensures allowed <==> Allows(old(View()), now)
      ensures old(count) <= LIMIT ==> count + remaining == LIMIT
      ensures resetsIn == SecondsLeft(resetAt - now)
    {
      if now > resetAt {
        count := 0;
        resetAt := now + WINDOW;
      }
      allowed := count < LIMIT;
      if allowed {
        count := count + 1;
      }
      remaining := if LIMIT - count > 0 then LIMIT - count else 0;
      resetsIn := SecondsLeft(resetAt - now);
    }

    method Reset()
      modifies this
      ensures View() == Limiter(0, 0)
    {
      count, resetAt := 0, 0;
    }
  }

  // MARK: Runs

  /** The limiter with the times of the allowed requests, window by window. */
  datatype Log = Log(limiter: Limiter, windows: seq<seq<int>>)

  function Request(log: Log, now: int): Log {
    var l := log.limiter;
    var windows := if now > l.resetAt then log.windows + [[]] else log.windows;
    Log(Checked(l, now),
        if Allows(l, now) && windows != []
        then windows[|windows| - 1 := windows[|windows| - 1] + [now]]
        else windows)
  }

  function Requests(log: Log, times: seq<int>): Log
    decreases |times|
  {
    if times == [] then log else Requests(Request(log, times[0]), times[1..])
  }

  function NewLog(): Log {
    Log(Limiter(0, 0), [])
  }

  /** The clock is positive and does not go back. */
  ghost predicate ClockLike(times: seq<int>) {
    && (forall i | 0 <= i < |times| :: times[i] > 0)
    && (forall i, j | 0 <= i < j < |times| :: times[i] <= times[j])
  }

  ghost predicate GoodWindow(w: seq<int>) {
    && 1 <= |w| <= LIMIT
    && forall i | 0 <= i < |w| :: w[0] <= w[i] <= w[0] + WINDOW
  }

  /** Windows are nonempty, hold at most five requests, and start more than a minute apart. */
  ghost predicate GoodWindows(windows: seq<seq<int>>) {
    && (forall k | 0 <= k < |windows| :: GoodWindow(windows[k]))
    && (forall k | 0 <= k < |windows| - 1 :: windows[k][0] + WINDOW < windows[k + 1][0])
  }

  ghost predicate Inv(log: Log) {
    && GoodWindows(log.windows)
    && (log.windows == [] ==> log.limiter == Limiter(0, 0))
    && (log.windows != [] ==>
          var w := log.windows[|log.windows| - 1];
          log.limiter == Limiter(|w|, w[0] + WINDOW))
  }

  ghost predicate AfterStart(log: Log, now: int) {
    now > 0 && (log.windows != [] ==> log.limiter.resetAt - WINDOW <= now)
  }

  lemma OpenWindowKeepsInv(log: Log, now: int)
    requires Inv(log) && AfterStart(log, now) && now > log.limiter.resetAt
    ensures Inv(Request(log, now)) && AfterStart(Request(log, now), now)
  {
    var log' := Request(log, now);
    assert [] + [now] == [now];
    assert log'.windows == log.windows + [[now]];
    forall k | 0 <= k < |log.windows| ensures log'.windows[k] == log.windows[k] {
    }
  }

  lemma GrowWindowKeepsInv(log: Log, now: int)
    requires Inv(log) && AfterStart(log, now) && now <= log.limiter.resetAt && log.limiter.count < LIMIT
    ensures Inv(Request(log, now)) && AfterStart(Request(log, now), now)
  {
    var log' := Request(log, now);
    var n := |log.windows|;
    var w := log.windows[n - 1];
    assert GoodWindow(w);
    assert GoodWindow(w + [now]);
    assert log'.windows == log.windows[n - 1 := w + [now]];
    forall k | 0 <= k < n ensures log'.windows[k][0] == log.windows[k][0] && GoodWindow(log'.windows[k]) {
      assert GoodWindow(log.windows[k]);
    }
  }

  lemma RequestKeepsInv(log: Log, now: int)
    requires Inv(log) && AfterStart(log, now)
    ensures Inv(Request(log, now)) && AfterStart(Request(log, now), now)
  {
    if now > log.limiter.resetAt {
      OpenWindowKeepsInv(log, now);
    } else if log.limiter.count < LIMIT {
      GrowWindowKeepsInv(log, now);
    } else {
      assert Request(log, now) == log;
    }
  }

  lemma {:induction false} RequestsKeepInv(log: Log, times: seq<int>)
    requires Inv(log) && ClockLike(times) && (times != [] ==> AfterStart(log, times[0]))
    ensures Inv(Requests(log, times))
    decreases |times|
  {
    if times != [] {
      RequestKeepsInv(log, times[0]);
      RequestsKeepInv(Request(log, times[0]), times[1..]);
    }
  }

  // MARK: How many requests an interval can hold

  function CountIn(w: seq<int>, a: int): nat {
    if w == [] then 0 else (if a <= w[0] <= a + WINDOW then 1 else 0) + CountIn(w[1..], a)
  }

  /** The allowed requests in the closed interval of one window's length that starts at `a`. */
  function TotalIn(windows: seq<seq<int>>, a: int): nat {
    if windows == [] then 0
    else TotalIn(windows[..|windows| - 1], a) + CountIn(windows[|windows| - 1], a)
  }

  lemma {:induction false} CountAtMostLength(w: seq<int>, a: int)
    ensures CountIn(w, a) <= |w|
    decreases |w|
  {
    if w != [] { CountAtMostLength(w[1..], a); }
  }

  lemma {:induction false} CountOutside(w: seq<int>, a: int)
    requires forall i | 0 <= i < |w| :: !(a <= w[i] <= a + WINDOW)
    ensures CountIn(w, a) == 0
    decreases |w|
  {
    if w != [] {
      CountOutside(w[1..], a);
    }
  }

  lemma {:induction false} NothingFromEarlierWindows(windows: seq<seq<int>>, a: int)
    requires GoodWindows(windows)
    requires windows != [] ==> windows[|windows| - 1][0] + WINDOW < a
    ensures TotalIn(windows, a) == 0
    decreases |windows|
  {
    if windows != [] {
      var n := |windows| - 1;
      CountOutside(windows[n], a);
      if n > 0 { assert windows[n - 1][0] + WINDOW < windows[n][0]; }
      NothingFromEarlierWindows(windows[..n], a);
    }
  }

  /** If a window began before the interval, its first request is not in it, and no earlier window has any. */
  lemma EarlierWindowGivesFour(windows: seq<seq<int>>, a: int)
    requires GoodWindows(windows)
    requires windows != [] ==> windows[|windows| - 1][0] < a
    ensures TotalIn(windows, a) <= LIMIT - 1
  {
    if windows != [] {
      var n := |windows| - 1;
      CountAtMostLength(windows[n][1..], a);
      if n > 0 { assert windows[n - 1][0] + WINDOW < windows[n][0]; }
      NothingFromEarlierWindows(windows[..n], a);
    }
  }

  lemma {:induction false} AnyIntervalHoldsAtMostNine(windows: seq<seq<int>>, a: int)
    requires GoodWindows(windows)
    ensures TotalIn(windows, a) <= 2 * LIMIT - 1
    decreases |windows|
  {
    if windows != [] {
      var n := |windows| - 1;
      if windows[n][0] > a + WINDOW {
        CountOutside(windows[n], a);
        AnyIntervalHoldsAtMostNine(windows[..n], a);
      } else {
        CountAtMostLength(windows[n], a);
        if n > 0 { assert windows[n - 1][0] + WINDOW < windows[n][0]; }
        EarlierWindowGivesFour(windows[..n], a);
      }
    }
  }

  /**
  Whatever the request times: every window allows at most five, windows start more
  than 60000 ms apart, and any 60000 ms hold at most nine allowed requests. Ten is
  impossible, because a window starts with an allowed request.
  */
  lemma RateIsBounded(times: seq<int>, a: int)
    requires ClockLike(times)
    ensures var windows := Requests(NewLog(), times).windows;
            && (forall k | 0 <= k < |windows| :: 1 <= |windows[k]| <= LIMIT)
            && (forall k | 0 <= k < |windows| - 1 :: windows[k][0] + WINDOW < windows[k + 1][0])
            && TotalIn(windows, a) <= 9
  {
    RequestsKeepInv(NewLog(), times);
    AnyIntervalHoldsAtMostNine(Requests(NewLog(), times).windows, a);
  }

  /**
  A request opens a window exactly if there is none or 60000 ms have passed since its
  first request, and is refused exactly if the current window holds five.
  */
  lemma RefusedIffFull(log: Log, now: int)
    requires Inv(log) && AfterStart(log, now)
    ensures var n := |log.windows|;
            var opens := n == 0 || now > log.windows[n - 1][0] + 60000;
            && (Allows(log.limiter, now) <==> opens || |log.windows[n - 1]| < 5)
            && Request(log, now).windows
               == (if opens then log.windows + [[now]]
                   else if |log.windows[n - 1]| < 5 then log.windows[n - 1 := log.windows[n - 1] + [now]]
                   else log.windows)
  {
    assert [] + [now] == [now];
    if now > log.limiter.resetAt {
      assert (log.windows + [[]])[|log.windows| := [now]] == log.windows + [[now]];
    }
  }

  // MARK: The bound is reached

  function Repeat(t: int, n: nat): seq<int> {
    seq(n, i requires 0 <= i < n => t)
  }

  lemma {:induction false} CountOfRepeat(t: int, n: nat, a: int)
    requires a <= t <= a + WINDOW
    ensures CountIn(Repeat(t, n), a) == n
    decreases n
  {
    if n > 0 {
      assert Repeat(t, n)[1..] == Repeat(t, n - 1);
      CountOfRepeat(t, n - 1, a);
    }
  }

  /** Requests at one moment of the current window are taken while there is room. */
  lemma {:induction false} FillWindow(log: Log, t: int, n: nat)
    requires log.windows != [] && t <= log.limiter.resetAt && log.limiter.count + n <= LIMIT
    ensures Requests(log, Repeat(t, n))
         == Log(log.limiter.(count := log.limiter.count + n),
                log.windows[|log.windows| - 1 := log.windows[|log.windows| - 1] + Repeat(t, n)])
    decreases n
  {
    var k := |log.windows| - 1;
    if n == 0 {
      assert log.windows[k] + Repeat(t, 0) == log.windows[k];
    } else {
      assert Repeat(t, n)[1..] == Repeat(t, n - 1);
      FillWindow(Request(log, t), t, n - 1);
      assert log.windows[k] + [t] + Repeat(t, n - 1) == log.windows[k] + Repeat(t, n);
    }
  }

  lemma {:induction false} RequestsConcatenate(log: Log, a: seq<int>, b: seq<int>)
    ensures Requests(log, a + b) == Requests(Requests(log, a), b)
    decreases |a|
  {
    if a == [] {
      assert a + b == b;
    } else {
      assert (a + b)[1..] == a[1..] + b;
      RequestsConcatenate(Request(log, a[0]), a[1..], b);
    }
  }

  /** One request that opens a window at `t0`, then `n` at `t` within it. */
  lemma OpenAndFill(log: Log, t0: int, t: int, n: nat)
    requires log.limiter.resetAt < t0 <= t <= t0 + WINDOW && n < LIMIT
    ensures Requests(log, [t0] + Repeat(t, n))
         == Log(Limiter(n + 1, t0 + WINDOW), log.windows + [[t0] + Repeat(t, n)])
  {
    var log1 := Request(log, t0);
    assert ([t0] + Repeat(t, n))[1..] == Repeat(t, n);
    assert [] + [t0] == [t0];
    assert log1.windows == log.windows + [[t0]];
    FillWindow(log1, t, n);
    var k := |log.windows|;
    assert log1.windows[k := log1.windows[k] + Repeat(t, n)] == log.windows + [[t0] + Repeat(t, n)];
  }

  lemma NineInTwoWindows(first: seq<int>, second: seq<int>)
    requires first == [1] + Repeat(60001, 4) && second == [60002] + Repeat(60002, 4)
    ensures TotalIn([first, second], 60001) == 9
  {
    assert first[1..] == Repeat(60001, 4) && second[1..] == Repeat(60002, 4);
    CountOfRepeat(60001, 4, 60001);
    CountOfRepeat(60002, 4, 60001);
    assert CountIn(first, 60001) == 4 && CountIn(second, 60001) == 5;
    assert [first, second][..1] == [first] && [first][..0] == [];
    assert TotalIn([first], 60001) == TotalIn([], 60001) + 4;
  }

  lemma NineTimesAreClockLike()
    ensures ClockLike([1] + Repeat(60001, 4) + ([60002] + Repeat(60002, 4)))
  {
  }

  /** Four requests at the very end of one window and five right after it make nine in two milliseconds. */
  lemma NineIsReached()
    ensures var times := [1] + Repeat(60001, 4) + ([60002] + Repeat(60002, 4));
            TotalIn(Requests(NewLog(), times).windows, 60001) == 9
    ensures ClockLike([1] + Repeat(60001, 4) + ([60002] + Repeat(60002, 4)))
  {
    NineTimesAreClockLike();
    var first, second := [1] + Repeat(60001, 4), [60002] + Repeat(60002, 4);
    OpenAndFill(NewLog(), 1, 60001, 4);
    assert [] + [first] == [first];
    OpenAndFill(Log(Limiter(5, 60001), [first]), 60002, 60002, 4);
    RequestsConcatenate(NewLog(), first, second);
    assert [first] + [second] == [first, second];
    NineInTwoWindows(first, second);
  }
}
