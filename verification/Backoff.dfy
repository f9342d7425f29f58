// The exponential back-off policy, over the reals.

module Backoff {
  import opened OutboxTypes
  import opened Delivery

  // Delays in milliseconds; jitter is a fraction of the delay.
  datatype RetryPolicyOptions = RetryPolicyOptions(maxRetries: int, baseDelay: real, maxDelay: real, jitterFactor: real)
  {
    predicate Sensible() {
      baseDelay >= 0.0 && maxDelay >= 0.0 && 0.0 <= jitterFactor <= 1.0
    }
  }

  function Pow2(n: nat): real {
    if n == 0 then 1.0 else 2.0 * Pow2(n - 1)
  }

  // Multiplication, under a name the solver does not expand on its own.
  function Times(a: real, b: real): real {
    a * b
  }

  function RealMin(a: real, b: real): real {
    if a <= b then a else b
  }

  // A TimeSpan of so many milliseconds.
  function Ticks(milliseconds: real): int {
    (10_000.0 * milliseconds).Floor
  }

  function RealMax(a: real, b: real): (r: real)
    ensures r >= a && r >= b
  {
    if a >= b then a else b
  }

  function CappedDelay(o: RetryPolicyOptions, retryCount: nat): real {
    RealMin(Times(o.baseDelay, Pow2(retryCount)), o.maxDelay)
  }

  // What Random.Shared.NextDouble() may return.
  predicate Drawn(u: real) {
    0.0 <= u < 1.0
  }

  function Spread(o: RetryPolicyOptions, retryCount: nat): real {
    Times(CappedDelay(o, retryCount), o.jitterFactor)
  }

  function Jittered(capped: real, spread: real, u: real): (delay: real)
    ensures delay >= 0.0
  {
    Shifted(capped, Times(spread, u * 2.0 - 1.0))
  }

  function Shifted(capped: real, jitter: real): (delay: real)
    ensures delay >= 0.0
  {
    RealMax(0.0, capped + jitter)
  }

  function GetNextDelay(o: RetryPolicyOptions, retryCount: nat, u: real): Option<real> {
    if !ShouldRetry(o.maxRetries, retryCount) then None
    else Some(Jittered(CappedDelay(o, retryCount), Spread(o, retryCount), u))
  }

  // ---- One delay ------------------------------------------------------------------------

  lemma {:induction false} Pow2Positive(n: nat)
    ensures Pow2(n) >= 1.0
  {
    if n > 0 {
      Pow2Positive(n - 1);
    }
  }

  lemma SpreadWithinDelay(o: RetryPolicyOptions, r: nat)
    requires o.Sensible()
    ensures 0.0 <= Spread(o, r) <= CappedDelay(o, r) <= o.maxDelay
  {
    Pow2Positive(r);
    var c := CappedDelay(o, r);
    Nonnegative(c, o.jitterFactor);
    Nonnegative(c, 1.0 - o.jitterFactor);
  }

  // The policy with its jitter switched off; what is drawn then makes no difference.
  function Steady(o: RetryPolicyOptions): RetryPolicyOptions {
    o.(jitterFactor := 0.0)
  }

  // Without jitter the first delay is the base delay and each later one twice the one before,
  // none of them above the cap.
  lemma SteadyDoubles(o: RetryPolicyOptions, r: nat, u: real, v: real)
    requires o.Sensible()
    ensures 0 < o.maxRetries ==> GetNextDelay(Steady(o), 0, u) == Some(RealMin(o.baseDelay, o.maxDelay))
    ensures r + 1 < o.maxRetries ==>
              && GetNextDelay(Steady(o), r, u).Some?
              && GetNextDelay(Steady(o), r + 1, v)
                 == Some(RealMin(2.0 * GetNextDelay(Steady(o), r, u).value, o.maxDelay))
  {
    SteadyIsCapped(o, 0, u);
    SteadyIsCapped(o, r, u);
    SteadyIsCapped(o, r + 1, v);
    CappedDoubles(o, r);
  }

  lemma CappedDoubles(o: RetryPolicyOptions, r: nat)
    requires o.maxDelay >= 0.0
    ensures CappedDelay(o, 0) == RealMin(o.baseDelay, o.maxDelay)
    ensures CappedDelay(o, r + 1) == RealMin(2.0 * CappedDelay(o, r), o.maxDelay)
  {
    OneDoubling(o.baseDelay, r);
  }

  lemma OneDoubling(b: real, r: nat)
    ensures Times(b, Pow2(0)) == b && Times(b, Pow2(r + 1)) == 2.0 * Times(b, Pow2(r))
  {
    var p := Pow2(r);
    assert b * (2.0 * p) == 2.0 * (b * p);
  }

  lemma SteadyIsCapped(o: RetryPolicyOptions, r: nat, u: real)
    requires o.Sensible()
    ensures GetNextDelay(Steady(o), r, u) == if r < o.maxRetries then Some(CappedDelay(o, r)) else None
  {
    SpreadWithinDelay(o, r);
    var c := CappedDelay(o, r);
    assert CappedDelay(Steady(o), r) == c && Spread(Steady(o), r) == c * 0.0 == 0.0;
    assert Times(0.0, u * 2.0 - 1.0) == 0.0;
  }

  // The delays the policy can grant are exactly those of [d(1 - j), d(1 + j)), d being the delay
  // without jitter, or d alone when that interval is empty.
  lemma DelaysExact(o: RetryPolicyOptions, r: nat, delay: real, v: real)
    requires o.Sensible() && r < o.maxRetries
    ensures GetNextDelay(Steady(o), r, v).Some?
    ensures var d, j := GetNextDelay(Steady(o), r, v).value, o.jitterFactor;
            (exists u :: Drawn(u) && GetNextDelay(o, r, u) == Some(delay))
            <==> if d == 0.0 || j == 0.0 then delay == d else d * (1.0 - j) <= delay < d * (1.0 + j)
  {
    SteadyIsCapped(o, r, v);
    GrantedExactly(o, r, delay);
    SpreadIs(CappedDelay(o, r), o.jitterFactor);
  }

  lemma SpreadIs(d: real, j: real)
    ensures Times(d, j) == 0.0 <==> d == 0.0 || j == 0.0
    ensures d * (1.0 - j) == d - Times(d, j) && d * (1.0 + j) == d + Times(d, j)
  {
  }

  lemma GrantedExactly(o: RetryPolicyOptions, r: nat, d: real)
    requires o.Sensible() && ShouldRetry(o.maxRetries, r)
    ensures (exists u :: Drawn(u) && GetNextDelay(o, r, u) == Some(d))
            <==> InSpread(CappedDelay(o, r), Spread(o, r), d)
  {
    var c, spread := CappedDelay(o, r), Spread(o, r);
    SpreadWithinDelay(o, r);
    forall u | Drawn(u) && GetNextDelay(o, r, u) == Some(d) ensures InSpread(c, spread, d) {
      JitteredInSpread(c, spread, u);
    }
    if InSpread(c, spread, d) {
      var u := DrawFor(c, spread, d);
      assert GetNextDelay(o, r, u) == Some(d);
    }
  }

  // In ticks of 100 ns, what is drawn stays within the jitter's share of the delay without it.
  lemma DelayWithin(o: RetryPolicyOptions, r: nat, u: real)
    requires o.Sensible() && Drawn(u) && r < o.maxRetries
    ensures GetNextDelay(o, r, u).Some? && GetNextDelay(Steady(o), r, u).Some?
    ensures var d, j := GetNextDelay(Steady(o), r, u).value, o.jitterFactor;
            10_000.0 * (d * (1.0 - j)) - 1.0 < Ticks(GetNextDelay(o, r, u).value) as real <= 10_000.0 * (d * (1.0 + j))
  {
    SteadyIsCapped(o, r, u);
    SpreadWithinDelay(o, r);
    JitteredInSpread(CappedDelay(o, r), Spread(o, r), u);
    SpreadIs(CappedDelay(o, r), o.jitterFactor);
    TicksBetween(CappedDelay(o, r), Spread(o, r), GetNextDelay(o, r, u).value);
  }

  lemma TicksBetween(c: real, spread: real, d: real)
    requires spread >= 0.0 && InSpread(c, spread, d)
    ensures 10_000.0 * (c - spread) - 1.0 < Ticks(d) as real <= 10_000.0 * (c + spread)
  {
  }

  // MaxDelay caps the delay before jitter only: some draw waits longer than MaxDelay exactly
  // when the jitter reaches past it.
  lemma MayExceedMaxDelay(o: RetryPolicyOptions, r: nat, v: real)
    requires o.Sensible() && r < o.maxRetries
    ensures GetNextDelay(Steady(o), r, v).Some?
    ensures (exists u :: Drawn(u) && GetNextDelay(o, r, u).Some? && GetNextDelay(o, r, u).value > o.maxDelay)
            <==> GetNextDelay(Steady(o), r, v).value * (1.0 + o.jitterFactor) > o.maxDelay
  {
    SteadyIsCapped(o, r, v);
    SpreadIs(CappedDelay(o, r), o.jitterFactor);
    JitterMayExceed(o, r);
  }

  lemma JitterMayExceed(o: RetryPolicyOptions, r: nat)
    requires o.Sensible() && ShouldRetry(o.maxRetries, r)
    ensures (exists u :: Drawn(u) && GetNextDelay(o, r, u).Some? && GetNextDelay(o, r, u).value > o.maxDelay)
            <==> CappedDelay(o, r) + Spread(o, r) > o.maxDelay
  {
    var c, spread := CappedDelay(o, r), Spread(o, r);
    SpreadWithinDelay(o, r);
    forall u | Drawn(u) ensures InSpread(c, spread, Jittered(c, spread, u)) {
      JitteredInSpread(c, spread, u);
    }
    if c + spread > o.maxDelay {
      var u := DrawFor(c, spread, (o.maxDelay + c + spread) / 2.0);
      assert GetNextDelay(o, r, u).Some?;
    }
  }

  const DEFAULTS: RetryPolicyOptions := RetryPolicyOptions(5, 5000.0, 300000.0, 0.2)

  // The default options never exceed it, whatever is drawn; two retries more and they may.
  lemma DefaultsStayBelow(r: nat, u: real)
    requires Drawn(u) && GetNextDelay(DEFAULTS, r, u).Some?
    ensures GetNextDelay(DEFAULTS, r, u).value <= DEFAULTS.maxDelay
  {
    DefaultDelay(r);
    JitterMayExceed(DEFAULTS, r);
  }

  lemma DefaultDelay(r: nat)
    requires r < 5
    ensures CappedDelay(DEFAULTS, r) <= 80000.0 && Spread(DEFAULTS, r) <= 16000.0
  {
    assert Pow2(0) == 1.0 && Pow2(1) == 2.0 && Pow2(2) == 4.0 && Pow2(3) == 8.0 && Pow2(4) == 16.0;
  }

  lemma SevenRetriesMayExceed() returns (u: real)
    ensures var o := DEFAULTS.(maxRetries := 7);
            Drawn(u) && GetNextDelay(o, 6, u).Some? && GetNextDelay(o, 6, u).value > o.maxDelay
  {
    var o := DEFAULTS.(maxRetries := 7);
    assert Pow2(3) == 8.0 && Pow2(6) == 64.0;
    assert CappedDelay(o, 6) == 300000.0 && Spread(o, 6) == 60000.0;
    JitterMayExceed(o, 6);
    u :| Drawn(u) && GetNextDelay(o, 6, u).Some? && GetNextDelay(o, 6, u).value > o.maxDelay;
  }

  predicate InSpread(c: real, spread: real, d: real) {
    if spread == 0.0 then d == c else c - spread <= d < c + spread
  }

  lemma JitteredInSpread(c: real, spread: real, u: real)
    requires 0.0 <= spread <= c && Drawn(u)
    ensures InSpread(c, spread, Jittered(c, spread, u))
  {
    TimesWithin(spread, u * 2.0 - 1.0);
    ShiftedInSpread(c, spread, Times(spread, u * 2.0 - 1.0));
  }

  lemma ShiftedInSpread(c: real, spread: real, jitter: real)
    requires 0.0 <= spread <= c && -spread <= jitter <= spread && (jitter == spread ==> spread == 0.0)
    ensures InSpread(c, spread, Shifted(c, jitter)) && Shifted(c, jitter) == c + jitter
  {
  }

  lemma DrawFor(c: real, spread: real, d: real) returns (u: real)
    requires 0.0 <= spread <= c && InSpread(c, spread, d)
    ensures Drawn(u) && Jittered(c, spread, u) == d
  {
    var x := -1.0;
    if spread != 0.0 {
      x := Unscale(spread, d - c);
    }
    u := (x + 1.0) / 2.0;
    assert u * 2.0 - 1.0 == x;
    assert Times(spread, x) == d - c;
    ShiftedInSpread(c, spread, d - c);
  }

  lemma TimesWithin(k: real, x: real)
    requires k >= 0.0 && -1.0 <= x < 1.0
    ensures -k <= Times(k, x) <= k && (Times(k, x) == k ==> k == 0.0)
  {
    Nonnegative(k, x + 1.0);
    Nonnegative(k, 1.0 - x);
    if k > 0.0 {
      Positive(k, 1.0 - x);
    }
  }

  lemma Nonnegative(a: real, b: real)
    requires a >= 0.0 && b >= 0.0
    ensures a * b >= 0.0
  {
  }

  lemma Positive(a: real, b: real)
    requires a > 0.0 && b > 0.0
    ensures a * b > 0.0
  {
  }

  lemma Unscale(k: real, e: real) returns (x: real)
    requires k > 0.0 && -k <= e < k
    ensures -1.0 <= x < 1.0 && k * x == e
  {
    x := e / k;
    if x < -1.0 {
      Positive(k, -1.0 - x);
    } else if x >= 1.0 {
      Nonnegative(k, x - 1.0);
    }
  }

  // Later retries never wait less before jitter, and once capped stay capped.
  lemma {:induction false} CappedDelayGrows(o: RetryPolicyOptions, r: nat, later: nat)
    requires o.Sensible() && r <= later
    ensures CappedDelay(o, r) <= CappedDelay(o, later)
    ensures CappedDelay(o, r) == o.maxDelay ==> CappedDelay(o, later) == o.maxDelay
    decreases later
  {
    if r < later {
      CappedDelayGrows(o, r, later - 1);
      Pow2Positive(later - 1);
      assert o.baseDelay * Pow2(later) == 2.0 * (o.baseDelay * Pow2(later - 1));
      assert o.baseDelay * Pow2(later - 1) >= 0.0;
    }
  }

  // ---- All delays of a message ------------------------------------------------------------

  // What the first n failures of a message are made to wait, with the draws they got.
  function TotalDelay(o: RetryPolicyOptions, draws: nat -> real, n: nat): real {
    if n == 0 then 0.0
    else TotalDelay(o, draws, n - 1) + match GetNextDelay(o, n - 1, draws(n - 1)) case None => 0.0 case Some(d) => d
  }

  function TotalCapped(o: RetryPolicyOptions, n: nat): real {
    if n == 0 then 0.0 else TotalCapped(o, n - 1) + CappedDelay(o, n - 1)
  }

  // The two bounds on n capped delays: all of them uncapped, or all of them capped.
  function Uncapped(baseDelay: real, n: nat): real {
    Times(baseDelay, Pow2(n) - 1.0)
  }

  function AllCapped(maxDelay: real, n: nat): real {
    Times(n as real, maxDelay)
  }

  lemma {:induction false} CappedIsBounded(o: RetryPolicyOptions, n: nat)
    ensures TotalCapped(o, n) <= RealMin(Uncapped(o.baseDelay, n), AllCapped(o.maxDelay, n))
  {
    if n > 0 {
      CappedIsBounded(o, n - 1);
      Doubling(o.baseDelay, n - 1);
      OneMore(o.maxDelay, n - 1);
    }
  }

  lemma Doubling(b: real, n: nat)
    ensures Uncapped(b, n + 1) == Uncapped(b, n) + Times(b, Pow2(n))
  {
    var p := Pow2(n);
    assert Pow2(n + 1) == 2.0 * p;
    assert b * (2.0 * p - 1.0) == b * (p - 1.0) + b * p;
  }

  lemma OneMore(m: real, n: nat)
    ensures AllCapped(m, n + 1) == AllCapped(m, n) + m
  {
    var x := n as real;
    assert (x + 1.0) * m == x * m + m;
  }

  lemma {:induction false} JitterIsBounded(o: RetryPolicyOptions, draws: nat -> real, n: nat)
    requires o.Sensible() && (forall i :: Drawn(draws(i))) && n <= o.maxRetries
    ensures TotalDelay(o, draws, n) <= Times(1.0 + o.jitterFactor, TotalCapped(o, n))
  {
    if n > 0 {
      JitterIsBounded(o, draws, n - 1);
      SpreadWithinDelay(o, n - 1);
      OneStretch(o.jitterFactor, TotalCapped(o, n - 1), CappedDelay(o, n - 1), Spread(o, n - 1), draws(n - 1));
    }
  }

  lemma OneStretch(j: real, a: real, c: real, spread: real, u: real)
    requires spread == Times(c, j) && 0.0 <= spread <= c && Drawn(u)
    ensures Times(1.0 + j, a) + Jittered(c, spread, u) <= Times(1.0 + j, a + c)
  {
    JitteredInSpread(c, spread, u);
    assert (1.0 + j) * (a + c) == (1.0 + j) * a + c + c * j;
  }

  lemma StretchGrows(j: real, a: real, b: real)
    requires j >= 0.0 && a <= b
    ensures Times(1.0 + j, a) <= Times(1.0 + j, b)
  {
    Nonnegative(1.0 + j, b - a);
  }

  // All the waiting a message can be given before it is dead-lettered: after maxRetries
  // failures no delay is granted any more, so the total stops growing.
  lemma {:induction false} WaitBeforeDeadLetter(o: RetryPolicyOptions, draws: nat -> real, n: nat)
    requires o.Sensible() && (forall i :: Drawn(draws(i))) && 0 <= o.maxRetries
    ensures TotalDelay(o, draws, n)
         <= Times(1.0 + o.jitterFactor,
                  RealMin(Uncapped(o.baseDelay, o.maxRetries), AllCapped(o.maxDelay, o.maxRetries)))
  {
    if n > o.maxRetries {
      WaitBeforeDeadLetter(o, draws, n - 1);
    } else {
      TotalGrows(o, draws, n, o.maxRetries);
      JitterIsBounded(o, draws, o.maxRetries);
      CappedIsBounded(o, o.maxRetries);
      StretchGrows(o.jitterFactor, TotalCapped(o, o.maxRetries),
                   RealMin(Uncapped(o.baseDelay, o.maxRetries), AllCapped(o.maxDelay, o.maxRetries)));
    }
  }

  // The first n of them sum to at least this much: the doubling, or one full MaxDelay, less jitter.
  lemma {:induction false} WaitAtLeast(o: RetryPolicyOptions, draws: nat -> real, n: nat)
    requires o.Sensible() && (forall i :: Drawn(draws(i))) && n <= o.maxRetries
    ensures TotalDelay(o, draws, n) >= Times(1.0 - o.jitterFactor, RealMin(Uncapped(o.baseDelay, n), o.maxDelay))
  {
    JitterTakesLittle(o, draws, n);
    CappedIsEnough(o, n);
    ShrinkGrows(o.jitterFactor, RealMin(Uncapped(o.baseDelay, n), o.maxDelay), TotalCapped(o, n));
  }

  lemma ShrinkGrows(j: real, a: real, b: real)
    requires j <= 1.0 && a <= b
    ensures Times(1.0 - j, a) <= Times(1.0 - j, b)
  {
    Nonnegative(1.0 - j, b - a);
  }

  lemma {:induction false} JitterTakesLittle(o: RetryPolicyOptions, draws: nat -> real, n: nat)
    requires o.Sensible() && (forall i :: Drawn(draws(i))) && n <= o.maxRetries
    ensures TotalDelay(o, draws, n) >= Times(1.0 - o.jitterFactor, TotalCapped(o, n))
  {
    if n > 0 {
      JitterTakesLittle(o, draws, n - 1);
      SpreadWithinDelay(o, n - 1);
      OneShrink(o.jitterFactor, TotalCapped(o, n - 1), CappedDelay(o, n - 1), Spread(o, n - 1), draws(n - 1));
    }
  }

  lemma OneShrink(j: real, a: real, c: real, spread: real, u: real)
    requires spread == Times(c, j) && 0.0 <= spread <= c && Drawn(u)
    ensures Times(1.0 - j, a) + Jittered(c, spread, u) >= Times(1.0 - j, a + c)
  {
    JitteredInSpread(c, spread, u);
    assert (1.0 - j) * (a + c) == (1.0 - j) * a + c - c * j;
  }

  lemma {:induction false} CappedIsEnough(o: RetryPolicyOptions, n: nat)
    requires o.Sensible()
    ensures TotalCapped(o, n) >= 0.0
    ensures TotalCapped(o, n) >= RealMin(Uncapped(o.baseDelay, n), o.maxDelay)
  {
    if n > 0 {
      CappedIsEnough(o, n - 1);
      SpreadWithinDelay(o, n - 1);
      Doubling(o.baseDelay, n - 1);
      Pow2Positive(n - 1);
      Nonnegative(o.baseDelay, Pow2(n - 1));
    }
  }

  lemma {:induction false} TotalGrows(o: RetryPolicyOptions, draws: nat -> real, n: nat, more: nat)
    requires n <= more
    ensures TotalDelay(o, draws, n) <= TotalDelay(o, draws, more)
    decreases more
  {
    if n < more {
      TotalGrows(o, draws, n, more - 1);
    }
  }
}
