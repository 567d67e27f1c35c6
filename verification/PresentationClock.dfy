/**
 Where playback is now, extrapolated from the last published position: by at most a quarter
 of a second back and a twentieth forward, wrapped into an active loop, and never outside
 the track. Numbers are exact reals.
 */
module PresentationClock {

  datatype Position = Position(seconds: real, timestamp: real, rate: real, length: real,
                               loopStart: real, loopEnd: real)

  function Clamp(x: real, low: real, high: real): (r: real)
    requires low <= high
    ensures low <= r <= high
    ensures low <= x <= high ==> r == x
  {
    if x < low then low else if x > high then high else x
  }

  // Division rounded towards zero.
  function Truncated(x: real): int { if x >= 0.0 then x.Floor else -((-x).Floor) }

  // The remainder of a division that truncates towards zero.
  function Fmod(a: real, b: real): real
    requires b > 0.0
  {
    a - b * Truncated(a / b) as real
  }

  function Elapsed(p: Position, now: real): (r: real)
    ensures -0.25 <= r <= 0.05
  {
    Clamp(now - p.timestamp, -0.25, 0.05)
  }

  function Unwrapped(p: Position, now: real, latency: real): real
  {
    p.seconds + (Elapsed(p, now) - latency) * p.rate
  }

  predicate Wraps(p: Position, position: real)
  {
    && p.loopEnd > p.loopStart
    && ((position >= p.loopEnd && (p.rate > 0.0 || p.seconds < p.loopEnd))
        || (position < p.loopStart && (p.rate < 0.0 || p.seconds >= p.loopStart)))
  }

  function Wrapped(p: Position, position: real): real
    requires p.loopEnd > p.loopStart
  {
    var span := p.loopEnd - p.loopStart;
    p.loopStart + Fmod(Fmod(position - p.loopStart, span) + span, span)
  }

  function PositionAt(p: Position, now: real, latency: real): (r: real)
    requires p.length >= 0.0
    ensures 0.0 <= r <= p.length
  {
    var position := Unwrapped(p, now, latency);
    Clamp(if Wraps(p, position) then Wrapped(p, position) else position, 0.0, p.length)
  }

  function Times(d: real, b: real): real { d * b }

  lemma Positive(a: real, b: real)
    requires a > 0.0 && b > 0.0
    ensures a * b > 0.0
  {
  }

  lemma TimesGrows(c: real, d: real, b: real)
    requires b > 0.0 && c < d
    ensures Times(c, b) < Times(d, b)
  {
    Positive(d - c, b);
    assert (d - c) * b == d * b - c * b;
  }

  lemma Fraction(d: real, b: real)
    requires b > 0.0
    ensures 0.0 <= d < 1.0 ==> 0.0 <= Times(d, b) < b
    ensures -1.0 < d <= 0.0 ==> -b < Times(d, b) <= 0.0
  {
    assert Times(0.0, b) == 0.0 && Times(1.0, b) == b && Times(-1.0, b) == -b;
    hide Times;
    if 0.0 < d {
      TimesGrows(0.0, d, b);
    } else if d < 0.0 {
      TimesGrows(d, 0.0, b);
    }
    if d < 1.0 {
      TimesGrows(d, 1.0, b);
    }
    if -1.0 < d {
      TimesGrows(-1.0, d, b);
    }
  }

  lemma SameSign(a: real, b: real)
    requires b > 0.0
    ensures a / b >= 0.0 <==> a >= 0.0
  {
    var q := a / b;
    assert q * b == a;
    assert q >= 0.0 ==> q * b >= 0.0;
  }

  // A remainder is a fraction of the divisor.
  lemma RemainderOf(a: real, b: real, q: real, n: real)
    requires b > 0.0 && q == a / b
    ensures a - b * n == (q - n) * b
  {
    assert q * b == a;
  }

  // What truncation takes off.
  function Frac(q: real): (d: real)
    ensures if q >= 0.0 then 0.0 <= d < 1.0 else -1.0 < d <= 0.0
  {
    q - Truncated(q) as real
  }

  lemma FmodAs(a: real, b: real)
    requires b > 0.0
    ensures Fmod(a, b) == Times(Frac(a / b), b)
  {
    hide Truncated;
    RemainderOf(a, b, a / b, Truncated(a / b) as real);
  }

  lemma {:induction false} FmodIs(a: real, b: real)
    requires b > 0.0
    ensures -b < Fmod(a, b) < b
    ensures a >= 0.0 ==> Fmod(a, b) >= 0.0
  {
    hide Fmod, Frac, Times;
    FmodAs(a, b);
    SameSign(a, b);
    Fraction(Frac(a / b), b);
  }

  /** Wrapping puts any position into the loop, and moves it by whole turns only. */
  lemma {:induction false} WrapKeepsPhase(p: Position, position: real) returns (turns: int)
    requires p.loopEnd > p.loopStart
    ensures p.loopStart <= Wrapped(p, position) < p.loopEnd
    ensures Wrapped(p, position) == position - turns as real * (p.loopEnd - p.loopStart)
  {
    var span := p.loopEnd - p.loopStart;
    var x := position - p.loopStart;
    FmodIs(x, span);
    var y := Fmod(x, span) + span;
    FmodIs(y, span);
    var m, n := Truncated(x / span), Truncated(y / span);
    turns := m + n - 1;
    assert span * m as real + span * n as real - span == turns as real * span;
    hide Fmod, Truncated;
  }

  /** Inside an active loop playback never leaves it: a position that started inside and moved
      on is shown inside, for either direction, whole turns away from where it would be. */
  lemma {:induction false} LoopIsKept(p: Position, now: real, latency: real) returns (turns: int)
    requires 0.0 <= p.loopStart < p.loopEnd <= p.length && p.loopStart <= p.seconds < p.loopEnd
    ensures p.loopStart <= PositionAt(p, now, latency) < p.loopEnd
    ensures PositionAt(p, now, latency) == Unwrapped(p, now, latency) - turns as real * (p.loopEnd - p.loopStart)
  {
    turns := WrapKeepsPhase(p, Unwrapped(p, now, latency));
    turns := if Wraps(p, Unwrapped(p, now, latency)) then turns else 0;
    hide Wrapped, Unwrapped;
  }

  // Time t is close enough to the publication to be extrapolated to.
  predicate InReach(p: Position, t: real) { -0.25 <= t - p.timestamp <= 0.05 }

  /** Near its publication a position moves on at its rate, and with a latency it shows what was
      heard that much earlier. */
  lemma {:induction false} PlaybackMovesOn(p: Position, now: real, latency: real)
    requires p.length >= 0.0 && InReach(p, now) && InReach(p, now - latency)
    ensures PositionAt(p, now, latency) == PositionAt(p, now - latency, 0.0)
    ensures var x := p.seconds + (now - latency - p.timestamp) * p.rate;
      p.loopEnd <= p.loopStart ==> PositionAt(p, now, latency) == Clamp(x, 0.0, p.length)
  {
    assert Unwrapped(p, now, latency) == Unwrapped(p, now - latency, 0.0)
           == p.seconds + (now - latency - p.timestamp) * p.rate;
    hide Wraps, Wrapped, Clamp, Unwrapped;
  }

  /** Outside an active loop a position is shown as it is until it reaches the loop's far end: one
      before the loop that plays on, or one after it that plays back. One after the loop that
      plays on is shown inside, and so is one before it that plays back. */
  lemma {:induction false} LoopIsEntered(p: Position, now: real, latency: real)
    requires 0.0 <= p.loopStart < p.loopEnd <= p.length
    ensures var x := Unwrapped(p, now, latency);
      && (p.seconds < p.loopStart && p.rate >= 0.0 ==>
            if x < p.loopEnd then PositionAt(p, now, latency) == Clamp(x, 0.0, p.length)
            else p.loopStart <= PositionAt(p, now, latency) < p.loopEnd)
      && (p.seconds >= p.loopEnd && p.rate <= 0.0 ==>
            if x >= p.loopStart then PositionAt(p, now, latency) == Clamp(x, 0.0, p.length)
            else p.loopStart <= PositionAt(p, now, latency) < p.loopEnd)
      && ((p.seconds >= p.loopEnd && p.rate > 0.0 && x >= p.loopEnd)
          || (p.seconds < p.loopStart && p.rate < 0.0 && x < p.loopStart) ==>
            p.loopStart <= PositionAt(p, now, latency) < p.loopEnd)
  {
    var turns := WrapKeepsPhase(p, Unwrapped(p, now, latency));
    hide Wrapped, Unwrapped;
  }

  /** A stalled device stops the clock: a twentieth of a second after the last publication the
      position stands still, a twentieth of a second's playback further on. */
  lemma {:induction false} StalledClockStops(p: Position, now: real, later: real, latency: real)
    requires p.length >= 0.0 && p.timestamp + 0.05 <= now <= later
    ensures PositionAt(p, later, latency) == PositionAt(p, now, latency)
    ensures Unwrapped(p, later, 0.0) == p.seconds + 0.05 * p.rate
  {
    assert Elapsed(p, later) == Elapsed(p, now) == 0.05;
    hide Wraps, Wrapped, Clamp;
  }
}
