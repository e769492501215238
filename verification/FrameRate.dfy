/**
 The frame rate of a capture: the times of the last frames are kept in an array, newest
 first, and the rate counts the ones that are not too old.
 */
module FrameRate {

  const NANOS_PER_MILLI := 1000000
  const NANOS_PER_MICRO := 1000
  const WINDOW_MS := 2000

  /** Integer division that drops the fraction, as the source's does. */
  function Quotient(a: int, b: nat): int
    requires b > 0
  {
    if a >= 0 then a / b else -(-a / b)
  }

  /** The array after a frame: a first entry of less than a microsecond is overwritten. */
  function Updated(h: seq<int>, now: int): (r: seq<int>)
    requires h != []
    ensures |r| == |h|
  {
    if Quotient(h[0], NANOS_PER_MICRO) == 0 then [now] + h[1..] else [now] + h[..|h| - 1]
  }

  predicate Fresh(t: int, now: int) {
    t > 0 && Quotient(now - t, NANOS_PER_MILLI) <= WINDOW_MS
  }

  /** The entries from k on that are fresh, up to the first that is not; the last entry of the
      array is never looked at. */
  function Leading(h: seq<int>, now: int, k: nat): (n: nat)
    requires k < |h|
    ensures k + n < |h|
    decreases |h| - k
  {
    if k < |h| - 1 && Fresh(h[k], now) then 1 + Leading(h, now, k + 1) else 0
  }

  /** The rate from the number of fresh entries and the age of the oldest of them. */
  function Rate(h: seq<int>, now: int): int
    requires |h| >= 2
  {
    var n := Leading(h, now, 1);
    var diff := if n > 0 then Quotient(now - h[n], NANOS_PER_MILLI) else 0;
    if diff > 0 then (n as real * 1000.0 / diff as real + 0.5).Floor else n
  }

  /** The rate is 1000 n / d rounded to the nearest integer, half up, where d is the age of entry
      n in whole milliseconds; without an entry or an age it is n. */
  predicate Rounded(rate: int, n: nat, h: seq<int>, now: int)
    requires n < |h|
  {
    if n > 0 && now - h[n] >= 1000000 then
      var d := (now - h[n]) / 1000000; -d < 2 * (rate * d - 1000 * n) <= d
    else rate == n
  }

  lemma Scaled(a: real, b: real, c: real)
    requires a <= b && c > 0.0
    ensures a * c <= b * c && (a < b ==> a * c < b * c)
  {
    assert (b - a) * c == b * c - a * c;
  }

  lemma QuotientScaled(a: real, b: real, c: real)
    requires c > 0.0
    ensures (a / c + b) * c == a + b * c
  {
  }

  lemma CastProduct(a: int, b: int)
    ensures a as real * b as real == (a * b) as real
  {
  }

  lemma NearInt(p: int, k: int, d: int)
    requires k as real + -0.5 * d as real < p as real <= k as real + 0.5 * d as real
    ensures -d < 2 * (p - k) <= d
  {
    assert (2 * p) as real == 2.0 * p as real && (2 * k) as real == 2.0 * k as real;
  }

  lemma RoundsHalfUp(rate: int, k: int, d: int)
    requires d > 0 && rate == (k as real / d as real + 0.5).Floor
    ensures -d < 2 * (rate * d - k) <= d
  {
    var x, c := k as real / d as real, d as real;
    assert x + -0.5 < rate as real <= x + 0.5;
    Scaled(rate as real, x + 0.5, c);
    Scaled(x + -0.5, rate as real, c);
    QuotientScaled(k as real, 0.5, c);
    QuotientScaled(k as real, -0.5, c);
    CastProduct(rate, d);
    NearInt(rate * d, k, d);
  }

  lemma RateIsRounded(h: seq<int>, now: int)
    requires |h| >= 2
    ensures Rounded(Rate(h, now), Leading(h, now, 1), h, now)
  {
    var n := Leading(h, now, 1);
    if n > 0 && now - h[n] >= 1000000 {
      var d := (now - h[n]) / 1000000;
      RoundsHalfUp(Rate(h, now), 1000 * n, d);
    }
  }

  class FrameTimes {
    const times: array<int>

    constructor (size: nat)
      requires size >= 2
      ensures fresh(times) && times[..] == Zeros(size)
    {
      times := new int[size](_ => 0);
    }

    method UpdateFrameCount(now: int)
      requires times.Length >= 2
      modifies times
      ensures times[..] == Updated(old(times[..]), now)
    {
      if Quotient(times[0], NANOS_PER_MICRO) != 0 {
        var i := times.Length - 2;
        while i >= 0
          invariant -1 <= i <= times.Length - 2
          invariant forall j :: 0 <= j <= i + 1 ==> times[j] == old(times[j])
          invariant forall j :: i + 2 <= j < times.Length ==> times[j] == old(times[..])[j - 1]
        {
          times[i + 1] := times[i];
          i := i - 1;
        }
      }
      times[0] := now;
    }

    /** With n fresh entries in front, the oldest of them d milliseconds old, the rate is 1000 n / d
        rounded to the nearest integer, and n when there is no such d. */
    method CalculateFrameRate(now: int) returns (rate: int)
      requires times.Length >= 2
      ensures rate == Rate(times[..], now)
      ensures Rounded(rate, Leading(times[..], now, 1), times[..], now)
    {
      RateIsRounded(times[..], now);
      var num, nrOfFrames := 1, 0;
      while num < times.Length - 1 && times[num] > 0 && Quotient(now - times[num], NANOS_PER_MILLI) <= WINDOW_MS
        invariant 1 <= num < times.Length && nrOfFrames == num - 1
        invariant Leading(times[..], now, 1) == nrOfFrames + Leading(times[..], now, num)
      {
        num, nrOfFrames := num + 1, nrOfFrames + 1;
      }
      if num > 1 {
        var diff := Quotient(now - times[num - 1], NANOS_PER_MILLI);
        if diff > 0 {
          return (nrOfFrames as real * 1000.0 / diff as real + 0.5).Floor;
        }
      }
      return nrOfFrames;
    }
  }

  // ---------- the early exit loses nothing ----------

  function Zeros(n: nat): seq<int> {
    seq(n, _ => 0)
  }

  /** The number of fresh entries from k on, without an early exit. */
  function FreshCount(h: seq<int>, now: int, k: nat): (n: nat)
    requires k < |h|
    decreases |h| - k
  {
    if k == |h| - 1 then 0 else FreshCount(h, now, k + 1) + if Fresh(h[k], now) then 1 else 0
  }

  /** Among the entries from k on that are looked at, no fresh one is behind a stale one. */
  ghost predicate NoGap(h: seq<int>, now: int, k: nat) {
    forall i, j :: k <= i < j < |h| - 1 && Fresh(h[j], now) ==> Fresh(h[i], now)
  }

  lemma {:induction false} FreshCounts(h: seq<int>, now: int, k: nat, j: nat)
    requires k <= j < |h| - 1 && Fresh(h[j], now)
    ensures FreshCount(h, now, k) > 0
    decreases |h| - k
  {
    if k < j {
      FreshCounts(h, now, k + 1, j);
    }
  }

  lemma {:induction false} NoneFresh(h: seq<int>, now: int, k: nat)
    requires k < |h| && forall j :: k <= j < |h| - 1 ==> !Fresh(h[j], now)
    ensures FreshCount(h, now, k) == 0
    decreases |h| - k
  {
    if k < |h| - 1 {
      NoneFresh(h, now, k + 1);
    }
  }

  /** The count with the early exit is at most the count of all fresh entries, and equal to it
      exactly when no fresh entry is behind a stale one. */
  lemma {:induction false} EarlyExitCountsAll(h: seq<int>, now: int, k: nat)
    requires k < |h|
    ensures Leading(h, now, k) <= FreshCount(h, now, k)
    ensures Leading(h, now, k) == FreshCount(h, now, k) <==> NoGap(h, now, k)
    decreases |h| - k
  {
    if k < |h| - 1 {
      if Fresh(h[k], now) {
        EarlyExitCountsAll(h, now, k + 1);
        assert NoGap(h, now, k) <==> NoGap(h, now, k + 1);
      } else if NoGap(h, now, k) {
        NoneFresh(h, now, k);
      } else {
        var i, j :| k <= i < j < |h| - 1 && Fresh(h[j], now) && !Fresh(h[i], now);
        FreshCounts(h, now, k, j);
      }
    }
  }

  /** What is positive is ordered newest first; nothing else is ever fresh. */
  predicate NewestFirst(h: seq<int>) {
    forall i, j :: 0 <= i <= j < |h| && h[j] > 0 ==> h[j] <= h[i]
  }

  lemma AgeIsMonotone(a: int, b: int)
    requires a <= b
    ensures Quotient(a, NANOS_PER_MILLI) <= Quotient(b, NANOS_PER_MILLI)
  {
    if a >= 0 {
      assert a / 1000000 <= b / 1000000;
    } else if b < 0 {
      assert -b / 1000000 <= -a / 1000000;
    }
  }

  lemma OlderIsNotFresh(t: int, older: int, now: int)
    requires !Fresh(t, now) && older <= t
    ensures !Fresh(older, now)
  {
    AgeIsMonotone(now - t, now - older);
  }

  /** An array that is ordered newest first has no gap, at any time. */
  lemma OrderedHasNoGap(h: seq<int>, now: int, k: nat)
    requires NewestFirst(h)
    ensures NoGap(h, now, k)
  {
    forall i, j | k <= i < j < |h| - 1 && Fresh(h[j], now) ensures Fresh(h[i], now) {
      if !Fresh(h[i], now) {
        OlderIsNotFresh(h[i], h[j], now);
      }
    }
  }

  // ---------- whole recordings ----------

  /** The array after frames at some times. */
  function After(ts: seq<int>, size: nat): (h: seq<int>)
    requires size >= 2
    ensures |h| == size
  {
    if ts == [] then Zeros(size) else Updated(After(ts[..|ts| - 1], size), ts[|ts| - 1])
  }

  /** A clock that does not go back. */
  predicate Clock(ts: seq<int>) {
    forall i, j :: 0 <= i <= j < |ts| ==> ts[i] <= ts[j]
  }

  /** The time of the frame k places behind the newest one. */
  function Back(ts: seq<int>, k: nat): int
    requires k < |ts|
  {
    ts[|ts| - 1 - k]
  }

  /** What place k holds after frames at some times: the newest time at place 0, and behind it
      the time of its frame, but nothing positive for a frame of the first microsecond. */
  predicate Holds(h: seq<int>, ts: seq<int>, k: nat)
    requires k < |h|
  {
    if k == 0 && ts != [] then h[k] == Back(ts, 0)
    else if k < |ts| && Back(ts, k) >= NANOS_PER_MICRO then h[k] == Back(ts, k)
    else h[k] <= 0
  }

  lemma HoldsMore(h: seq<int>, ts: seq<int>, t: int, k: nat)
    requires k < |h| && ts != [] && Clock(ts) && Holds(h, ts, 0) && Holds(h, ts, k) && (k > 0 ==> Holds(h, ts, k - 1))
    ensures Holds(Updated(h, t), ts + [t], k)
  {
    assert k > 0 && k <= |ts| ==> Back(ts + [t], k) == Back(ts, k - 1) <= Back(ts, 0);
    assert k > 0 && k < |ts| ==> Back(ts, k) <= Back(ts, 0);
    assert h[0] >= NANOS_PER_MICRO ==> h[0] / NANOS_PER_MICRO >= 1;
  }

  lemma HoldsOne(size: nat, t: int, k: nat)
    requires size >= 2 && k < size
    ensures Holds(Updated(Zeros(size), t), [t], k)
  {
  }

  lemma {:induction false} ArrayHoldsLast(ts: seq<int>, size: nat, k: nat)
    requires size >= 2 && Clock(ts) && k < size
    ensures Holds(After(ts, size), ts, k)
  {
    if ts != [] {
      var front, t := ts[..|ts| - 1], ts[|ts| - 1];
      assert front + [t] == ts;
      if front == [] {
        HoldsOne(size, t, k);
      } else {
        ArrayHoldsLast(front, size, 0);
        ArrayHoldsLast(front, size, k);
        if k > 0 {
          ArrayHoldsLast(front, size, k - 1);
        }
        HoldsMore(After(front, size), front, t, k);
      }
    }
  }

  lemma ArrayIsOrdered(ts: seq<int>, size: nat)
    requires size >= 2 && Clock(ts)
    ensures NewestFirst(After(ts, size))
  {
    var h := After(ts, size);
    forall i, j | 0 <= i <= j < |h| && h[j] > 0 ensures h[j] <= h[i] {
      ArrayHoldsLast(ts, size, i);
      ArrayHoldsLast(ts, size, j);
    }
  }

  /** The frames not before a time, behind the newest frame and at most size - 2 of them, that are
      within the window. */
  function RecentFrames(ts: seq<int>, now: int, from: int, k: nat, size: nat): nat
    requires k < size
    decreases size - k
  {
    if k == size - 1 then 0
    else RecentFrames(ts, now, from, k + 1, size)
         + if k < |ts| && Fresh(Back(ts, k), now) && Back(ts, k) >= from then 1 else 0
  }

  lemma {:induction false} CountIsRecent(ts: seq<int>, now: int, k: nat, size: nat)
    requires size >= 2 && Clock(ts) && 1 <= k < size
    ensures FreshCount(After(ts, size), now, k) == RecentFrames(ts, now, NANOS_PER_MICRO, k, size)
    decreases size - k
  {
    if k < size - 1 {
      ArrayHoldsLast(ts, size, k);
      CountIsRecent(ts, now, k + 1, size);
    }
  }

  /** None of the recent frames is of the first microsecond. */
  ghost predicate PastFirstMicro(ts: seq<int>, now: int, k: nat, size: nat) {
    forall i :: k <= i < |ts| && i < size - 1 && Fresh(Back(ts, i), now) ==> Back(ts, i) >= NANOS_PER_MICRO
  }

  lemma {:induction false} RecentFromMicro(ts: seq<int>, now: int, k: nat, size: nat)
    requires k < size
    ensures var all, from := RecentFrames(ts, now, 0, k, size), RecentFrames(ts, now, NANOS_PER_MICRO, k, size);
            from <= all && (from == all <==> PastFirstMicro(ts, now, k, size))
    decreases size - k
  {
    if k < size - 1 {
      RecentFromMicro(ts, now, k + 1, size);
      assert PastFirstMicro(ts, now, k, size) <==>
          (k < |ts| && Fresh(Back(ts, k), now) ==> Back(ts, k) >= NANOS_PER_MICRO)
          && PastFirstMicro(ts, now, k + 1, size);
    }
  }

  /** After any frames of a clock that does not go back the early exit loses nothing: the count
      behind the rate is that of all fresh entries. It is the number of earlier frames within the
      window, as many as the array has room for, that are past the first microsecond; so it is
      the number of all of them if and only if none is of the first microsecond. */
  lemma RateCountsRecentFrames(ts: seq<int>, now: int, size: nat)
    requires size >= 2 && Clock(ts)
    ensures var h := After(ts, size); var n := Leading(h, now, 1);
            && NoGap(h, now, 1) && n == FreshCount(h, now, 1)
            && n == RecentFrames(ts, now, NANOS_PER_MICRO, 1, size)
            && (n == RecentFrames(ts, now, 0, 1, size) <==> PastFirstMicro(ts, now, 1, size))
  {
    ArrayIsOrdered(ts, size);
    OrderedHasNoGap(After(ts, size), now, 1);
    EarlyExitCountsAll(After(ts, size), now, 1);
    CountIsRecent(ts, now, 1, size);
    RecentFromMicro(ts, now, 1, size);
  }

  /** A division drops the fraction of either sign. */
  lemma FractionIsDropped(a: nat, b: nat)
    requires b > 0
    ensures Quotient(a, b) == a / b && Quotient(-(a as int), b) == -(a as int / b)
  {
  }

  /** The newest time goes to the front. The others move up by one place and the last is dropped,
      unless the first is less than a microsecond and is overwritten. */
  lemma NewestInFront(h: seq<int>, now: int, k: nat)
    requires 0 < k < |h|
    ensures Updated(h, now)[0] == now
    ensures Updated(h, now)[k] == if -1000 < h[0] < 1000 then h[k] else h[k - 1]
  {
    if h[0] >= 0 {
      assert h[0] / 1000 == 0 <==> h[0] < 1000;
    } else {
      assert -h[0] / 1000 == 0 <==> -h[0] < 1000;
    }
  }

  /** A frame is within the window for 2000 whole milliseconds. */
  lemma WindowOfTwoSeconds(t: int, now: int)
    ensures Fresh(t, now) <==> 0 < t && now - t < 2001000000
  {
  }

  /** The rate of a recording: 1000 n / d rounded to the nearest integer, where n is the number of
      earlier frames within two seconds and d the age of the oldest of them in milliseconds. */
  lemma RateOfRecording(ts: seq<int>, now: int, size: nat, n: nat)
    requires size >= 2 && Clock(ts) && n == RecentFrames(ts, now, 1000, 1, size)
    ensures n < size && (n > 0 ==> n < |ts|)
    ensures var rate := Rate(After(ts, size), now);
            if n > 0 && now - Back(ts, n) >= 1000000 then
              var d := (now - Back(ts, n)) / 1000000; -d < 2 * (rate * d - 1000 * n) <= d
            else rate == n
  {
    var h := After(ts, size);
    RateCountsRecentFrames(ts, now, size);
    RateIsRounded(h, now);
    if n > 0 {
      LeadingAreFresh(h, now, 1);
      ArrayHoldsLast(ts, size, n);
    }
  }

  lemma {:induction false} LeadingAreFresh(h: seq<int>, now: int, k: nat)
    requires k < |h| && Leading(h, now, k) > 0
    ensures Fresh(h[k + Leading(h, now, k) - 1], now)
    decreases |h| - k
  {
    if Leading(h, now, k) > 1 {
      LeadingAreFresh(h, now, k + 1);
    }
  }

  /** Frames 100 ms apart make a rate of 10. */
  lemma TenPerSecond()
    ensures After([1800000000, 1900000000, 2000000000], 4) == [2000000000, 1900000000, 1800000000, 0]
    ensures Rate(After([1800000000, 1900000000, 2000000000], 4), 2000000000) == 10
  {
    var ts := [1800000000, 1900000000, 2000000000];
    assert ts[..2][..1] == [1800000000] && ts[..2][1] == 1900000000 && ts[..1][..0] == [];
    assert After(ts[..1], 4) == [1800000000, 0, 0, 0];
    assert After(ts[..2], 4) == [1900000000, 1800000000, 0, 0];
    var h := After(ts, 4);
    assert h == [2000000000, 1900000000, 1800000000, 0];
    assert Leading(h, 2000000000, 3) == 0 && Leading(h, 2000000000, 2) == 1;
    RateIsRounded(h, 2000000000);
  }

  /** A frame of the first microsecond is overwritten by the next: after frames at 500 and
      600 ns none is counted, although one was recent. */
  lemma FirstMicroIsLost()
    ensures var ts := [500, 600];
            Leading(After(ts, 4), 600, 1) == 0 && RecentFrames(ts, 600, 0, 1, 4) == 1 && !PastFirstMicro(ts, 600, 1, 4)
  {
    var ts := [500, 600];
    assert Back(ts, 1) == 500 && Fresh(500, 600);
    assert RecentFrames(ts, 600, 0, 3, 4) == RecentFrames(ts, 600, 0, 2, 4) == 0;
    assert RecentFrames(ts, 600, NANOS_PER_MICRO, 2, 4) == RecentFrames(ts, 600, NANOS_PER_MICRO, 3, 4) == 0;
    RateCountsRecentFrames(ts, 600, 4);
  }

  /** With a clock that went back a fresh entry behind a stale one is not counted: frames at
      5 s, 1 us and 2 us, and the rate at 5 s. */
  lemma ClockThatWentBack()
    ensures var h, now := After([5000000000, 1000, 2000], 4), 5000000000;
            Leading(h, now, 1) == 0 && FreshCount(h, now, 1) == 1 && !NoGap(h, now, 1)
  {
    var ts := [5000000000, 1000, 2000];
    assert ts[..2][..1] == [5000000000] && ts[..2][1] == 1000 && ts[..1][..0] == [];
    assert After(ts[..1], 4) == [5000000000, 0, 0, 0];
    assert After(ts[..2], 4) == [1000, 5000000000, 0, 0];
    var h, now := After(ts, 4), 5000000000;
    assert h == [2000, 1000, 5000000000, 0];
    assert !Fresh(h[1], now) by {
      assert (now - 1000) / 1000000 == 4999;
    }
    assert Fresh(h[2], now);
    assert FreshCount(h, now, 3) == 0 && FreshCount(h, now, 2) == 1;
  }
}
