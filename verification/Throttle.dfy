// The compare-and-swap throttle in front of the release of expired locks. Calls of
// ProcessBatchAsync may overlap: each reads its clock, reads the shared field, and then tries
// to swap its own time in.

module Throttle {
  // DateTimeOffset ticks; they never leave the range of a 64-bit integer, nor do differences.
  type Ticks = int
  type CallId = nat

  const RELEASE_INTERVAL: Ticks := 30 * 10_000_000

  // ---- One caller -----------------------------------------------------------------------

  class ReleaseThrottle {
    var lastLockReleaseTicks: Ticks

    constructor ()
      ensures lastLockReleaseTicks == 0
    {
      lastLockReleaseTicks := 0;
    }

    method CompareExchange(value: Ticks, comparand: Ticks) returns (original: Ticks)
      modifies this
      ensures original == old(lastLockReleaseTicks)
      ensures lastLockReleaseTicks == if original == comparand then value else original
    {
      original := lastLockReleaseTicks;
      if original == comparand {
        lastLockReleaseTicks := value;
      }
    }

    // A call nobody interrupts wins exactly when the interval, thirty seconds, has passed.
    method TryClaim(nowTicks: Ticks) returns (won: bool)
      modifies this
      ensures won <==> nowTicks - old(lastLockReleaseTicks) >= 300_000_000
      ensures lastLockReleaseTicks == if won then nowTicks else old(lastLockReleaseTicks)
    {
      var lastTicks := lastLockReleaseTicks;
      won := false;
      if nowTicks - lastTicks >= RELEASE_INTERVAL {
        var original := CompareExchange(nowTicks, lastTicks);
        won := original == lastTicks;
      }
    }
  }

  // ---- Any number of callers --------------------------------------------------------------

  datatype Call =
    | ClockRead(now: Ticks)
    | FieldRead(now: Ticks, last: Ticks, winsBefore: nat)
    | Won(now: Ticks)
    | Lost(now: Ticks)

  datatype Shared = Shared(last: Ticks, calls: map<CallId, Call>, wins: seq<Ticks>)

  datatype Event =
    | ReadClock(call: CallId, now: Ticks)
    | ReadField(call: CallId)
    | Swap(call: CallId)

  const FRESH: Shared := Shared(0, map[], [])

  predicate Enabled(s: Shared, e: Event) {
    match e
    case ReadClock(call, _) => call !in s.calls
    case ReadField(call) => call in s.calls && s.calls[call].ClockRead?
    case Swap(call) => call in s.calls && s.calls[call].FieldRead?
  }

  // Swap is the guard and the compare-and-swap behind it; the guard reads nothing shared.
  function Apply(s: Shared, e: Event): Shared
    requires Enabled(s, e)
  {
    match e
    case ReadClock(call, now) => s.(calls := s.calls[call := ClockRead(now)])
    case ReadField(call) =>
      s.(calls := s.calls[call := FieldRead(s.calls[call].now, s.last, |s.wins|)])
    case Swap(call) =>
      var k := s.calls[call];
      if k.now - k.last >= RELEASE_INTERVAL && s.last == k.last then
        Shared(k.now, s.calls[call := Won(k.now)], s.wins + [k.now])
      else
        s.(calls := s.calls[call := Lost(k.now)])
  }

  predicate IsRun(s: Shared, events: seq<Event>)
    decreases |events|
  {
    events == [] || (Enabled(s, events[0]) && IsRun(Apply(s, events[0]), events[1..]))
  }

  function End(s: Shared, events: seq<Event>): Shared
    requires IsRun(s, events)
    decreases |events|
  {
    if events == [] then s else End(Apply(s, events[0]), events[1..])
  }

  // ---- Invariant ------------------------------------------------------------------------

  // The value of the field after the first n wins.
  function FieldAfter(wins: seq<Ticks>, n: nat): Ticks
    requires n <= |wins|
  {
    if n == 0 then 0 else wins[n - 1]
  }

  ghost predicate Spaced(wins: seq<Ticks>) {
    forall n: nat :: n < |wins| ==> wins[n] - FieldAfter(wins, n) >= RELEASE_INTERVAL
  }

  ghost predicate ReadsAreHonest(s: Shared) {
    forall call :: call in s.calls && s.calls[call].FieldRead? ==>
      s.calls[call].winsBefore <= |s.wins| && s.calls[call].last == FieldAfter(s.wins, s.calls[call].winsBefore)
  }

  ghost predicate ThrottleInv(s: Shared) {
    s.last == FieldAfter(s.wins, |s.wins|) && Spaced(s.wins) && ReadsAreHonest(s)
  }

  lemma ThrottleStep(s: Shared, e: Event)
    requires ThrottleInv(s) && Enabled(s, e)
    ensures ThrottleInv(Apply(s, e))
  {
    var s' := Apply(s, e);
    assert forall n: nat :: n <= |s.wins| ==> FieldAfter(s'.wins, n) == FieldAfter(s.wins, n);
    if e.Swap? && s'.calls[e.call].Won? {
      OneMoreWin(s.wins, s.calls[e.call].now);
    }
  }

  lemma OneMoreWin(wins: seq<Ticks>, now: Ticks)
    requires Spaced(wins) && now - FieldAfter(wins, |wins|) >= RELEASE_INTERVAL
    ensures Spaced(wins + [now])
  {
    var more := wins + [now];
    forall n: nat | n < |more| ensures more[n] - FieldAfter(more, n) >= RELEASE_INTERVAL {
      assert FieldAfter(more, n) == FieldAfter(wins, n);
    }
  }

  lemma {:induction false} ThrottleRun(s: Shared, events: seq<Event>)
    requires ThrottleInv(s) && IsRun(s, events)
    ensures ThrottleInv(End(s, events))
    decreases |events|
  {
    if events != [] {
      ThrottleStep(s, events[0]);
      ThrottleRun(Apply(s, events[0]), events[1..]);
    }
  }

  // ---- Consequences ---------------------------------------------------------------------

  // Whole intervals lie between any two wins, however the callers' clocks disagree.
  lemma {:induction false} GapsAddUp(wins: seq<Ticks>, i: nat, j: nat)
    requires Spaced(wins) && i <= j < |wins|
    ensures wins[j] - wins[i] >= (j - i) * RELEASE_INTERVAL
    decreases j
  {
    if i < j {
      GapsAddUp(wins, i, j - 1);
      assert wins[j] - FieldAfter(wins, j) >= RELEASE_INTERVAL;
    }
  }

  lemma FieldGrows(wins: seq<Ticks>, i: nat, j: nat)
    requires Spaced(wins) && i < j <= |wins|
    ensures FieldAfter(wins, i) < FieldAfter(wins, j)
  {
    assert wins[i] - FieldAfter(wins, i) >= RELEASE_INTERVAL;
    GapsAddUp(wins, i, j - 1);
  }

  lemma WinnersAreSpaced(events: seq<Event>, i: nat, j: nat)
    requires IsRun(FRESH, events) && i < j < |End(FRESH, events).wins|
    ensures End(FRESH, events).wins[j] - End(FRESH, events).wins[i] >= (j - i) * RELEASE_INTERVAL
  {
    ThrottleRun(FRESH, events);
    GapsAddUp(End(FRESH, events).wins, i, j);
  }

  function WinsWithin(wins: seq<Ticks>, from: Ticks, length: Ticks): set<nat> {
    set n: nat | n < |wins| && from <= wins[n] <= from + length
  }

  lemma {:induction false} RangeSize(ns: set<nat>, lo: nat, hi: nat)
    requires lo <= hi && forall n :: n in ns ==> lo <= n < hi
    ensures |ns| <= hi - lo
    decreases hi - lo
  {
    if lo < hi {
      RangeSize(ns - {lo}, lo + 1, hi);
    } else {
      assert ns == {};
    }
  }

  // A window of any length holds at most floor(length / interval) + 1 releases.
  lemma WindowHoldsFew(events: seq<Event>, from: Ticks, length: Ticks)
    requires IsRun(FRESH, events) && length >= 0
    ensures |WinsWithin(End(FRESH, events).wins, from, length)| <= length / RELEASE_INTERVAL + 1
  {
    ThrottleRun(FRESH, events);
    var wins := End(FRESH, events).wins;
    var inside := WinsWithin(wins, from, length);
    if inside != {} {
      var lo := Least(inside);
      forall n | n in inside ensures lo <= n < lo + length / RELEASE_INTERVAL + 1 {
        WithinReach(wins, from, length, lo, n);
      }
      RangeSize(inside, lo, lo + length / RELEASE_INTERVAL + 1);
    }
  }

  lemma WithinReach(wins: seq<Ticks>, from: Ticks, length: Ticks, lo: nat, n: nat)
    requires Spaced(wins) && lo <= n < |wins| && wins[lo] >= from && wins[n] <= from + length
    ensures n - lo <= length / RELEASE_INTERVAL
  {
    GapsAddUp(wins, lo, n);
    assert (n - lo) * RELEASE_INTERVAL <= length;
  }

  lemma {:induction false} Least(ns: set<nat>) returns (lo: nat)
    requires ns != {}
    ensures lo in ns && forall n :: n in ns ==> lo <= n
    decreases ns
  {
    lo :| lo in ns;
    var rest := ns - {lo};
    assert forall n :: n in ns ==> n == lo || n in rest;
    if rest != {} {
      var other := Least(rest);
      lo := if other < lo then other else lo;
    }
  }

  // No ABA: a call that reaches its swap loses exactly when its clock is inside the interval
  // or another call has won since it read the field.
  lemma LosesExactly(events: seq<Event>, call: CallId)
    requires IsRun(FRESH, events) && Enabled(End(FRESH, events), Swap(call))
    ensures var s := End(FRESH, events);
            var k := s.calls[call];
            Apply(s, Swap(call)).calls[call].Lost? <==>
              k.now - k.last < RELEASE_INTERVAL || |s.wins| > k.winsBefore
  {
    ThrottleRun(FRESH, events);
    var s := End(FRESH, events);
    var k := s.calls[call];
    if |s.wins| > k.winsBefore {
      FieldGrows(s.wins, k.winsBefore, |s.wins|);
    }
  }

  // ---- TryClaim is the three steps in a row ------------------------------------------------

  lemma UninterruptedCall(s: Shared, call: CallId, now: Ticks)
    requires call !in s.calls
    ensures var events := [ReadClock(call, now), ReadField(call), Swap(call)];
            && IsRun(s, events)
            && call in End(s, events).calls
            && (End(s, events).calls[call] == Won(now) <==> now - s.last >= RELEASE_INTERVAL)
            && End(s, events).last == (if now - s.last >= RELEASE_INTERVAL then now else s.last)
  {
    var events := [ReadClock(call, now), ReadField(call), Swap(call)];
    var s1 := Apply(s, events[0]);
    var s2 := Apply(s1, events[1]);
    var s3 := Apply(s2, events[2]);
    assert events[1..] == [ReadField(call), Swap(call)] && events[1..][1..] == [Swap(call)];
    assert [Swap(call)][1..] == [] && IsRun(s3, []);
    assert IsRun(s2, [Swap(call)]) && End(s2, [Swap(call)]) == s3;
    assert IsRun(s1, events[1..]) && End(s1, events[1..]) == s3;
  }
}
