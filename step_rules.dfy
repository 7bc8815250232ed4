/** The integer rules both stepper drivers of steppers2.py share: the
    saturating step clamp, the inter-step interval, the first pacing target,
    and the instants at which a paced run of emissions happens.

    Instants are microseconds of a monotonic clock. Inside one call the clock
    moves only by the driver's own sleeps: the busy-wait polls in steps of
    10 µs, and a step/direction pulse holds the step line high for 10 µs. */
module StepRules {
  import opened Arith

  function Min(a: int, b: int): int { if a <= b then a else b }
  function Max(a: int, b: int): int { if a >= b then a else b }
  function Abs(a: int): int { if a >= 0 then a else -a }

  /** The effective step count: the request limited so that the counter
      `current` stays within [smin, smax]. */
  function Clamp(request: int, current: int, smin: int, smax: int): (r: int)
    ensures smin <= current <= smax ==> smin <= current + r <= smax
    ensures smin <= current + request <= smax ==> r == request
    ensures current + request > smax ==> r == smax - current
    ensures current + request < smin && smin <= smax ==> r == smin - current
  {
    Min(Max(request, smin - current), smax - current)
  }

  /** Among all counts that keep the counter within bounds, the clamp is the
      one nearest to the request. */
  lemma ClampNearest(request: int, current: int, smin: int, smax: int, x: int)
    requires smin <= current + x <= smax
    ensures smin <= current + Clamp(request, current, smin, smax) <= smax
    ensures Abs(Clamp(request, current, smin, smax) - request) <= Abs(x - request)
  {}

  /** Python's `round(n / d)` for an integer quotient: the nearest integer,
      ties going to the even neighbour (see RoundHalfEvenNearest). */
  function RoundHalfEven(n: int, d: int): (r: int)
    requires d > 0
    ensures n >= 0 ==> r >= 0
  {
    var q, m := n / d, n % d;
    if 2 * m < d then q
    else if 2 * m > d then q + 1
    else if q % 2 == 0 then q else q + 1
  }

  /** The rounded quotient is within half a unit of `n / d`, and even on a
      tie. */
  lemma RoundHalfEvenNearest(n: int, d: int)
    requires d > 0
    ensures var r := RoundHalfEven(n, d);
      && d * (2 * r - 1) <= 2 * n <= d * (2 * r + 1)
      && ((2 * n == d * (2 * r - 1) || 2 * n == d * (2 * r + 1)) ==> r % 2 == 0)
  {
    var q, m := n / d, n % d;
    assert 2 * n == 2 * (q * d) + 2 * m;
    assert d * (2 * q - 1) == 2 * (q * d) - d;
    assert d * (2 * q + 1) == 2 * (q * d) + d;
    assert d * (2 * q + 3) == 2 * (q * d) + 3 * d;
  }

  /** No other integer meets the rounding contract: it pins the result down. */
  lemma RoundHalfEvenUnique(n: int, d: int, r: int)
    requires d > 0
    requires d * (2 * r - 1) <= 2 * n <= d * (2 * r + 1)
    requires (2 * n == d * (2 * r - 1) || 2 * n == d * (2 * r + 1)) ==> r % 2 == 0
    ensures r == RoundHalfEven(n, d)
  {
    var s := RoundHalfEven(n, d);
    RoundHalfEvenNearest(n, d);
    // Two different candidates would both have to sit on the same tie, one
    // of them odd.
    if r < s {
      MulStrict(d, 2 * r + 1, 2 * s - 1);
    } else if r > s {
      MulStrict(d, 2 * s + 1, 2 * r - 1);
    }
  }

  /** `int(round(1000000 / max(1, sps or default)))`: the interval between
      steps, in µs. A rate of 0 stands for "not given". */
  function Stime(sps: int, defaultSps: int): (r: int)
    ensures r >= 0
  {
    var rate := if sps != 0 then sps else defaultSps;
    RoundHalfEven(1000000, Max(1, rate))
  }

  /** The default of 200 steps per second gives 5000 µs between steps. */
  lemma StimeDefault()
    ensures Stime(0, 200) == 5000 && Stime(200, 1) == 5000
  {}

  /** The instant of the first emission of a call made at `now`: right away
      if one interval has already passed since the last emission, otherwise
      one interval after it. */
  function FirstTarget(now: int, last: int, stime: int): (w: int)
    ensures w >= now && w >= last + stime
    ensures w == now || w == last + stime
  {
    if now - (last + stime) >= 0 then now else last + stime
  }

  /** The clock after the busy-wait `while waitfor and now < waitfor:
      sleep_us(10)`, entered at `c`. A target of 0 is falsy: no wait. */
  function Settle(c: int, w: int): (r: int)
    decreases w - c
    ensures r >= c
    ensures w != 0 ==> r >= w
    ensures !(w != 0 && c < w) ==> r == c
  {
    if w != 0 && c < w then Settle(c + 10, w) else c
  }

  /** The wait overshoots a target it had to wait for by less than one
      poll, and not at all when the clock is aligned to the poll. */
  lemma {:induction false} SettleNear(c: int, w: int)
    decreases w - c
    ensures w != 0 && c < w ==> Settle(c, w) < w + 10
    ensures w != 0 && c <= w && (w - c) % 10 == 0 ==> Settle(c, w) == w
  {
    if w != 0 && c < w {
      SettleNear(c + 10, w);
    }
  }

  /** The clock when emission k of the run `s` begins: the start `c` for
      the first, otherwise the end of the previous emission's `gap` µs pulse. */
  function Ready(c: int, s: seq<int>, gap: int, k: nat): int
    requires k <= |s|
  {
    if k == 0 then c else s[k - 1] + gap
  }

  /** The instants of `n` paced emissions entered at clock `c`: the first
      waits for target `w`, each later one for the previous target plus
      `stime`, starting from the clock the one before left. */
  function Schedule(c: int, w: int, stime: int, gap: int, n: nat): (s: seq<int>)
    decreases n
    ensures |s| == n
  {
    if n == 0 then []
    else
      var e := Settle(c, w);
      [e] + Schedule(e + gap, w + stime, stime, gap, n - 1)
  }

  /** The first emission of a run, and the run that follows it. */
  lemma ScheduleOne(c: int, w: int, stime: int, gap: int, n: nat)
    requires n >= 1
    ensures Schedule(c, w, stime, gap, n) == [Settle(c, w)] + Schedule(Settle(c, w) + gap, w + stime, stime, gap, n - 1)
  {}

  /** The first two emissions of a run, and the run that follows them. */
  lemma ScheduleTwo(c: int, w: int, stime: int, gap: int, n: nat)
    requires n >= 2
    ensures var e := Settle(c, w);
      var e2 := Settle(e + gap, w + stime);
      Schedule(c, w, stime, gap, n) == [e, e2] + Schedule(e2 + gap, w + 2 * stime, stime, gap, n - 2)
  {
    var e := Settle(c, w);
    var e2 := Settle(e + gap, w + stime);
    var w2 := w + stime + stime;
    assert w2 == w + 2 * stime;
    var tail := Schedule(e2 + gap, w2, stime, gap, n - 2);
    ScheduleOne(c, w, stime, gap, n);
    ScheduleOne(e + gap, w + stime, stime, gap, n - 1);
    assert [e] + ([e2] + tail) == [e, e2] + tail;
  }

  /** Pacing: with non-negative instants, emission k happens no earlier than
      its target `w + k * stime` and no earlier than the clock it found; it
      is less than one poll late unless the clock was already past the
      target. */
  lemma {:induction false} ScheduleMeetsTargets(c: int, w: int, stime: int, gap: int, n: nat, k: nat)
    requires c >= 0 && w >= 0 && stime >= 0 && gap >= 0 && k < n
    decreases k
    ensures var s := Schedule(c, w, stime, gap, n);
      && s[k] >= w + k * stime
      && s[k] >= Ready(c, s, gap, k) >= c
      && (s[k] < w + k * stime + 10 || s[k] == Ready(c, s, gap, k))
  {
    var s := Schedule(c, w, stime, gap, n);
    var e := Settle(c, w);
    SettleNear(c, w);
    if k > 0 {
      var tail := Schedule(e + gap, w + stime, stime, gap, n - 1);
      assert s == [e] + tail;
      ScheduleMeetsTargets(e + gap, w + stime, stime, gap, n - 1, k - 1);
      assert s[k] == tail[k - 1];
      assert Ready(e + gap, tail, gap, k - 1) == Ready(c, s, gap, k);
      assert (w + stime) + (k - 1) * stime == w + k * stime;
    }
  }

  /** Without exceptions: when the first target is no earlier than the
      clock and each emission takes no longer than the interval, every
      emission is less than one poll after its target. */
  lemma {:induction false} ScheduleWithinPoll(c: int, w: int, stime: int, gap: int, n: nat, k: nat)
    requires 0 <= c < w + 10 && w >= 0 && 0 <= gap <= stime && k < n
    decreases k
    ensures var s := Schedule(c, w, stime, gap, n);
      w + k * stime <= s[k] < w + k * stime + 10
  {
    var e := Settle(c, w);
    SettleNear(c, w);
    assert w <= e < w + 10;
    var tail := Schedule(e + gap, w + stime, stime, gap, n - 1);
    assert Schedule(c, w, stime, gap, n) == [e] + tail;
    if k > 0 {
      ScheduleWithinPoll(e + gap, w + stime, stime, gap, n - 1, k - 1);
      MulSucc(k - 1, stime);
    }
  }

  /** The run a call starts: its first target is never before the clock,
      so with `gap <= stime` each emission is less than one poll late. */
  lemma FirstRunWithinPoll(at: int, last: int, stime: int, gap: int, n: nat, k: nat)
    requires 0 <= last <= at && 0 <= gap <= stime && k < n
    ensures var w := FirstTarget(at, last, stime);
      var s := Schedule(at, w, stime, gap, n);
      w + k * stime <= s[k] < w + k * stime + 10
  {
    ScheduleWithinPoll(at, FirstTarget(at, last, stime), stime, gap, n, k);
  }

  /** A pulse longer than the interval makes every later emission later:
      with a 10 µs pulse every 1 µs, the third emission is 18 µs after its
      target of 102. */
  lemma ScheduleFallsBehind()
    ensures Schedule(100, 100, 1, 10, 3) == [100, 110, 120]
    ensures Schedule(100, 100, 1, 10, 3)[2] == 100 + 2 * 1 + 18
  {
    assert Settle(110, 101) == 110 && Settle(120, 102) == 120;
    assert Schedule(130, 103, 1, 10, 0) == [];
  }

  /** With a clock aligned to the 10 µs poll, emissions land exactly on their
      targets: consecutive ones are exactly `stime` apart. */
  lemma {:induction false} ScheduleExact(c: int, w: int, stime: int, gap: int, n: nat, k: nat)
    requires 0 <= c <= w && (w - c) % 10 == 0
    requires 0 <= gap <= stime && gap % 10 == 0 && stime % 10 == 0
    requires k < n
    decreases k
    ensures Schedule(c, w, stime, gap, n)[k] == w + k * stime
  {
    var e := Settle(c, w);
    SettleNear(c, w);
    assert e == w;
    if k > 0 {
      var tail := Schedule(e + gap, w + stime, stime, gap, n - 1);
      assert (w + stime) - (e + gap) == stime - gap;
      ScheduleExact(e + gap, w + stime, stime, gap, n - 1, k - 1);
      assert Schedule(c, w, stime, gap, n)[k] == tail[k - 1];
      assert (w + stime) + (k - 1) * stime == w + k * stime;
    }
  }
}
