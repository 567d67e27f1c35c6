/**
 The deadlines of the control clock: each callback rate keeps the time at which it is next
 due. A late tick fires once and moves the deadline past the missed periods, without leaving
 the lattice of its first firing. Times are exact reals, in seconds.
 */
module ControlClock {

  const EPSILON := 0.000000000001

  datatype Deadline = Deadline(period: real, next: real)

  // The first tick sets the deadline.
  function Armed(d: Deadline, now: real): Deadline
  {
    if d.next <= 0.0 then d.(next := now) else d
  }

  predicate Fires(d: Deadline, now: real)
  {
    now + EPSILON >= Armed(d, now).next
  }

  // How many periods a firing deadline moves on.
  function Periods(d: Deadline, now: real): (n: int)
    requires d.period > 0.0
    ensures n >= 1
  {
    var missed := ((now - d.next) / d.period).Floor + 1;
    if missed > 1 then missed else 1
  }

  function Ticked(d: Deadline, now: real): (r: Deadline)
    requires d.period > 0.0
    ensures r.period == d.period
  {
    var a := Armed(d, now);
    if Fires(d, now) then a.(next := a.next + Periods(a, now) as real * a.period) else a
  }

  class RateDeadline {
    const periodSeconds: real
    var nextSeconds: real

    function View(): Deadline
      reads this
    {
      Deadline(periodSeconds, nextSeconds)
    }

    constructor (periodSeconds: real)
      ensures View() == Deadline(periodSeconds, 0.0)
    {
      this.periodSeconds := periodSeconds;
      nextSeconds := 0.0;
    }

    method Due(nowSeconds: real) returns (fires: bool)
      requires periodSeconds > 0.0
      modifies this
      ensures fires == Fires(old(View()), nowSeconds)
      ensures View() == Ticked(old(View()), nowSeconds)
    {
      if nextSeconds <= 0.0 {
        nextSeconds := nowSeconds;
      }
      if nowSeconds + EPSILON < nextSeconds {
        return false;
      }
      var missed := ((nowSeconds - nextSeconds) / periodSeconds).Floor as real + 1.0;
      nextSeconds := nextSeconds + (if missed > 1.0 then missed else 1.0) * periodSeconds;
      return true;
    }
  }

  // ---- Any sequence of ticks -----------------------------------------------------------

  // Times that never go back and begin after zero.
  predicate IsTicking(ticks: seq<real>)
  {
    && (forall i :: 0 <= i < |ticks| ==> ticks[i] > 0.0)
    && (forall i :: 0 < i < |ticks| ==> ticks[i - 1] <= ticks[i])
  }

  function After(d: Deadline, ticks: seq<real>): (r: Deadline)
    requires d.period > 0.0
    ensures r.period == d.period
  {
    if ticks == [] then d else Ticked(After(d, ticks[..|ticks| - 1]), ticks[|ticks| - 1])
  }

  function Firings(d: Deadline, ticks: seq<real>): nat
    requires d.period > 0.0
  {
    if ticks == [] then 0
    else
      var before := ticks[..|ticks| - 1];
      Firings(d, before) + (if Fires(After(d, before), ticks[|ticks| - 1]) then 1 else 0)
  }

  // A point of the lattice.
  function Point(first: real, n: int, period: real): real { first + n as real * period }

  lemma PointsOrdered(first: real, m: int, n: int, period: real)
    requires m <= n && period > 0.0
    ensures Point(first, m, period) <= Point(first, n, period)
  {
    assert (n - m) as real * period >= 0.0;
    assert n as real * period == m as real * period + (n - m) as real * period;
  }

  lemma PointMoves(first: real, m: int, n: int, period: real)
    ensures Point(first, m, period) + n as real * period == Point(first, m + n, period)
  {
  }

  /** A firing deadline ends after the tick, and at most a period and the tolerance after it. */
  lemma {:induction false} FiringIsBounded(d: Deadline, now: real)
    requires d.period > 0.0 && d.next > 0.0 && Fires(d, now)
    ensures now < Ticked(d, now).next <= now + d.period + EPSILON
  {
    var q := (now - d.next) / d.period;
    assert q * d.period == now - d.next;
    var n := Periods(d, now);
    if now >= d.next {
      Below(q, n as real, d.period);
      assert n as real == q.Floor as real + 1.0;
    } else {
      assert q < 0.0;
    }
  }

  lemma Sign(a: real, b: real)
    requires b > 0.0
    ensures a > 0.0 ==> a * b > 0.0
    ensures a == 0.0 ==> a * b == 0.0
  {
  }

  lemma Below(q: real, n: real, period: real)
    requires q < n <= q + 1.0 && period > 0.0
    ensures q * period < n * period <= q * period + period
  {
    Sign(n - q, period);
    Sign(q + 1.0 - n, period);
    assert (n - q) * period == n * period - q * period;
    assert (q + 1.0 - n) * period == q * period + period - n * period;
  }

  lemma {:induction false} StepStaysOnLattice(d: Deadline, now: real, first: real, n: int, fired: nat)
    returns (m: int)
    requires d.period > 0.0 && d.next > 0.0 && d.next == Point(first, n, d.period) && fired <= n
    requires fired >= 1 && now > 0.0
    ensures Ticked(d, now).next == Point(first, m, d.period)
    ensures if Fires(d, now) then fired + 1 <= m && Point(first, fired, d.period) <= now + EPSILON else m == n
  {
    m := n;
    if Fires(d, now) {
      var k := Periods(d, now);
      PointMoves(first, n, k, d.period);
      PointsOrdered(first, fired, n, d.period);
      m := n + k;
    }
    hide Point, Periods;
  }

  /** After any ticks the deadline lies on the lattice that begins at the first tick, ahead of
      the last tick by at most a period and the tolerance; and it has fired at most once for
      each lattice point reached, so a pause is made up for by one firing. */
  lemma {:induction false} DeadlinesKeepTheirRate(period: real, ticks: seq<real>) returns (n: int)
    requires period > 0.0 && ticks != [] && IsTicking(ticks)
    ensures var r, first, last := After(Deadline(period, 0.0), ticks), ticks[0], ticks[|ticks| - 1];
      var fired := Firings(Deadline(period, 0.0), ticks);
      && r.next == Point(first, n, period) && last < r.next <= last + period + EPSILON
      && 1 <= fired <= n && Point(first, fired - 1, period) <= last + EPSILON
  {
    var d, k := Deadline(period, 0.0), |ticks| - 1;
    var before, now := ticks[..k], ticks[k];
    if k == 0 {
      assert Ticked(d, now).next == now + 1.0 * period;
      n := 1;
    } else {
      var m := DeadlinesKeepTheirRate(period, before);
      var e := After(d, before);
      n := StepStaysOnLattice(e, now, ticks[0], m, Firings(d, before));
      hide Point, Ticked;
      if Fires(e, now) {
        FiringIsBounded(e, now);
      } else {
        NotFiring(e, now);
      }
    }
  }

  lemma NotFiring(d: Deadline, now: real)
    requires d.period > 0.0 && d.next > 0.0 && !Fires(d, now)
    ensures Ticked(d, now).next == d.next > now + EPSILON
  {
  }

  // How many lattice points lie up to a limit.
  lemma PointBelow(first: real, n: int, period: real, limit: real)
    requires period > 0.0 && Point(first, n, period) <= limit
    ensures n <= ((limit - first) / period).Floor
  {
    var q := (limit - first) / period;
    assert q * period == limit - first;
    Sign(n as real - q, period);
    assert (n as real - q) * period == n as real * period - q * period;
  }

  /** The number of firings up to the last tick, in the closed form. */
  lemma {:induction false} FiringsAreBounded(period: real, ticks: seq<real>)
    requires period > 0.0 && ticks != [] && IsTicking(ticks)
    ensures Firings(Deadline(period, 0.0), ticks)
            <= ((ticks[|ticks| - 1] + EPSILON - ticks[0]) / period).Floor + 1
  {
    hide Point, Firings;
    var n := DeadlinesKeepTheirRate(period, ticks);
    PointBelow(ticks[0], Firings(Deadline(period, 0.0), ticks) - 1, period, ticks[|ticks| - 1] + EPSILON);
  }
}
