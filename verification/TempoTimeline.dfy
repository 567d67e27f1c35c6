/**
 TempoTimeline: source positions as a prefix sum of per-frame rates, kept in two rings and
 scheduled only as far ahead as was asked for. The class is proved against the unbounded
 list of all rates scheduled so far; tempo ramps are proved against the straight line.
 */
module TempoTimeline {

  const CAPACITY := 65536
  const HALF := 32768

  // ---- Specification -----------------------------------------------------------------

  // Everything scheduled since the last reset.
  datatype Track = Track(rates: seq<real>, origin: real, initialRate: real)

  function Sum(rates: seq<real>): real
  {
    if rates == [] then 0.0 else Sum(rates[..|rates| - 1]) + rates[|rates| - 1]
  }

  function PositionOf(t: Track, frame: int): real
    requires frame <= |t.rates|
  {
    if frame < 0 then t.origin + frame as real * t.initialRate else t.origin + Sum(t.rates[..frame])
  }

  function RateOf(t: Track, frame: int): real
    requires frame < |t.rates|
  {
    if frame < 0 then t.initialRate else t.rates[frame]
  }

  // The rate generator: `remaining` frames of a ramp are left.
  datatype Ramp = Ramp(tail: real, target: real, step: real, remaining: nat)

  function NextRamp(r: Ramp): Ramp
  {
    if r.remaining == 0 then r
    else r.(tail := if r.remaining == 1 then r.target else r.tail + r.step, remaining := r.remaining - 1)
  }

  // The generator after n frames, and the rates it gave meanwhile.
  function After(r: Ramp, n: nat): Ramp
  {
    if n == 0 then r else NextRamp(After(r, n - 1))
  }

  function Schedule(r: Ramp, n: nat): (rates: seq<real>)
    ensures |rates| == n
  {
    if n == 0 then [] else Schedule(r, n - 1) + [After(r, n).tail]
  }

  // The generator went on from r to s and its rates, and nothing else, were added to the track.
  predicate Continues(t: Track, r: Ramp, u: Track, s: Ramp)
  {
    var n := |u.rates| - |t.rates|;
    n >= 0 && u == t.(rates := t.rates + Schedule(r, n)) && s == After(r, n)
  }

  function Retargeted(r: Ramp, rate: real, rampSamples: int): Ramp
  {
    if rate == r.target then r
    else
      var n := if rampSamples > 1 then rampSamples else 1;
      Ramp(r.tail, rate, (rate - r.tail) / n as real, n)
  }

  /** Going one frame on moves the position by that frame's rate, before, at and after the
      origin. */
  lemma {:induction false} PositionsStepByRate(t: Track, frame: int)
    requires frame < |t.rates|
    ensures PositionOf(t, frame + 1) - PositionOf(t, frame) == RateOf(t, frame)
  {
    if frame >= 0 {
      assert t.rates[..frame + 1][..frame] == t.rates[..frame];
    } else {
      assert (frame + 1) as real * t.initialRate == frame as real * t.initialRate + t.initialRate;
      assert t.rates[..0] == [];
    }
  }

  /** The first frame is at the origin. */
  lemma {:induction false} FirstIsOrigin(t: Track)
    ensures PositionOf(t, 0) == t.origin
  {
    assert t.rates[..0] == [];
  }

  /** The target that is set already changes nothing, so that a ramp towards it goes on. */
  lemma SameTargetGoesOn(r: Ramp, rampSamples: int)
    ensures Retargeted(r, r.target, rampSamples) == r
  {
  }

  /** What was scheduled stays: later rates do not move earlier positions. */
  lemma {:induction false} ScheduledStays(t: Track, u: Track, frame: int)
    requires t.rates <= u.rates && t.origin == u.origin && t.initialRate == u.initialRate && frame <= |t.rates|
    ensures PositionOf(u, frame) == PositionOf(t, frame)
    ensures frame < |t.rates| ==> RateOf(u, frame) == RateOf(t, frame)
  {
    if frame >= 0 {
      assert u.rates[..frame] == t.rates[..frame];
    }
  }

  // A point on the straight line from `from` to `to` in n frames.
  function Line(from: real, to: real, j: nat, n: nat): real
    requires n > 0
  {
    from + j as real * ((to - from) / n as real)
  }

  lemma {:induction false} RampAfter(r: Ramp, rate: real, rampSamples: int, j: nat)
    requires rate != r.target
    ensures var n := if rampSamples > 1 then rampSamples else 1;
      After(Retargeted(r, rate, rampSamples), j)
      == Retargeted(r, rate, rampSamples).(tail := if j < n then Line(r.tail, rate, j, n) else rate,
                                           remaining := if j < n then n - j else 0)
  {
    var n := if rampSamples > 1 then rampSamples else 1;
    if j == 0 {
      assert 0.0 * ((rate - r.tail) / n as real) == 0.0;
    } else {
      RampAfter(r, rate, rampSamples, j - 1);
      var step := (rate - r.tail) / n as real;
      assert (j - 1) as real * step + step == j as real * step;
    }
  }

  lemma LineEnds(from: real, to: real, j: nat, n: nat)
    requires n > 0 && j <= n
    ensures j == n ==> Line(from, to, j, n) == to
    ensures from <= to ==> from <= Line(from, to, j, n) <= to
    ensures to <= from ==> to <= Line(from, to, j, n) <= from
  {
    var step := (to - from) / n as real;
    assert n as real * step == to - from;
    assert j as real * step + (n - j) as real * step == n as real * step;
    Sign(j as real, step);
    Sign((n - j) as real, step);
  }

  lemma Sign(a: real, b: real)
    requires a >= 0.0
    ensures b >= 0.0 ==> a * b >= 0.0
    ensures b <= 0.0 ==> a * b <= 0.0
  {
  }

  lemma {:induction false} ScheduleAt(r: Ramp, n: nat, i: nat)
    requires i < n
    ensures Schedule(r, n)[i] == After(r, i + 1).tail
  {
    if i < n - 1 {
      ScheduleAt(r, n - 1, i);
    }
  }

  /** A tempo change is a straight ramp: the rates lie on the line from the current rate to
      the target, never outside the two, and equal the target from the last ramp frame on. */
  lemma {:induction false} RampIsStraight(r: Ramp, rate: real, rampSamples: int, frames: nat, i: nat)
    requires rate != r.target && i < frames
    ensures var n := if rampSamples > 1 then rampSamples else 1;
      var v := Schedule(Retargeted(r, rate, rampSamples), frames)[i];
      && v == (if i + 1 < n then Line(r.tail, rate, i + 1, n) else rate)
      && (r.tail <= rate ==> r.tail <= v <= rate)
      && (rate <= r.tail ==> rate <= v <= r.tail)
  {
    var n := if rampSamples > 1 then rampSamples else 1;
    ScheduleAt(Retargeted(r, rate, rampSamples), frames, i);
    RampAfter(r, rate, rampSamples, i + 1);
    hide Line, Retargeted, Schedule, After;
    if i + 1 < n {
      LineEnds(r.tail, rate, i + 1, n);
    }
  }

  /** Scheduling in two pieces is scheduling at once. */
  lemma {:induction false} ScheduleJoins(r: Ramp, m: nat, n: nat)
    ensures After(After(r, m), n) == After(r, m + n)
    ensures Schedule(r, m) + Schedule(After(r, m), n) == Schedule(r, m + n)
  {
    if n > 0 {
      ScheduleJoins(r, m, n - 1);
    }
  }

  // ---- The rings -----------------------------------------------------------------------

  function Slot(frame: nat): (slot: nat)
    ensures slot < CAPACITY
  {
    frame % CAPACITY
  }

  // The newest entries of the rings are those of the track.
  ghost predicate HoldsPositions(ring: seq<real>, t: Track)
  {
    && |ring| == CAPACITY
    && forall i :: 0 <= i <= |t.rates| && |t.rates| - CAPACITY < i ==> ring[Slot(i)] == PositionOf(t, i)
  }

  ghost predicate HoldsRates(ring: seq<real>, t: Track)
  {
    && |ring| == CAPACITY
    && forall i :: 0 <= i < |t.rates| && |t.rates| - CAPACITY <= i ==> ring[Slot(i)] == t.rates[i]
  }

  lemma {:induction false} SlotsApart(from: nat, to: nat)
    requires to < from + CAPACITY
    ensures forall i :: from <= i < to ==> Slot(i) != Slot(to)
  {
  }

  lemma {:induction false} AppendRate(ring: seq<real>, t: Track, rate: real)
    requires HoldsRates(ring, t)
    ensures HoldsRates(ring[Slot(|t.rates|) := rate], t.(rates := t.rates + [rate]))
  {
    var end := |t.rates|;
    SlotsApart(if end + 1 < CAPACITY then 0 else end + 1 - CAPACITY, end);
    hide Slot;
  }

  lemma {:induction false} AppendPosition(ring: seq<real>, t: Track, rate: real)
    requires HoldsPositions(ring, t)
    ensures var end := |t.rates|;
      HoldsPositions(ring[Slot(end + 1) := ring[Slot(end)] + rate], t.(rates := t.rates + [rate]))
  {
    var end, u := |t.rates|, t.(rates := t.rates + [rate]);
    SlotsApart(if end + 1 < CAPACITY then 0 else end + 2 - CAPACITY, end + 1);
    hide Slot, PositionOf;
    forall i | 0 <= i <= end ensures PositionOf(u, i) == PositionOf(t, i) {
      ScheduledStays(t, u, i);
    }
    PositionsStepByRate(u, end);
  }

  // ---- The object ------------------------------------------------------------------------

  class Timeline {
    const positions: array<real>
    const rates: array<real>
    var frame: nat
    var end: nat
    var origin: real
    var initialRate: real
    var tailRate: real
    var target: real
    var step: real
    var remaining: nat
    ghost var scheduled: seq<real>

    ghost function View(): Track
      reads this
    {
      Track(scheduled, origin, initialRate)
    }

    function Generator(): Ramp
      reads this
    {
      Ramp(tailRate, target, step, remaining)
    }

    ghost predicate Valid()
      reads this, positions, rates
    {
      && positions != rates && positions.Length == CAPACITY && rates.Length == CAPACITY
      && end == |scheduled| && frame <= end <= frame + HALF
      && HoldsPositions(positions[..], View()) && HoldsRates(rates[..], View())
    }

    constructor ()
      ensures Valid() && fresh(positions) && fresh(rates)
      ensures View() == Track([], 0.0, 1.0) && Generator() == Ramp(1.0, 1.0, 0.0, 0) && frame == 0
    {
      positions := new real[CAPACITY](_ => 0.0);
      rates := new real[CAPACITY](_ => 0.0);
      frame, end, remaining := 0, 0, 0;
      origin, step := 0.0, 0.0;
      initialRate, tailRate, target := 1.0, 1.0, 1.0;
      scheduled := [];
    }

    method Reset(position: real, rate: real)
      requires Valid()
      modifies this, positions
      ensures Valid() && frame == 0
      ensures View() == Track([], position, rate) && Generator() == Ramp(rate, rate, 0.0, 0)
    {
      frame := 0;
      end := 0;
      origin := position;
      initialRate := rate;
      tailRate := rate;
      target := rate;
      remaining := 0;
      step := 0.0;
      positions[0] := position;
      scheduled := [];
    }

    // Changes what is scheduled from now on, and nothing that is scheduled already.
    method SetTarget(rate: real, rampSamples: int)
      requires Valid()
      modifies this
      ensures Valid() && frame == old(frame) && View() == old(View())
      ensures Generator() == Retargeted(old(Generator()), rate, rampSamples)
    {
      if rate == target {
        return;
      }
      target := rate;
      remaining := if rampSamples > 1 then rampSamples else 1;
      step := (rate - tailRate) / remaining as real;
    }

    // Schedules one more frame.
    method Extend()
      requires Valid() && end < frame + HALF
      modifies this, positions, rates
      ensures Valid() && frame == old(frame) && Generator() == NextRamp(old(Generator()))
      ensures View() == old(View()).(rates := old(scheduled) + [tailRate])
    {
      if remaining > 0 {
        tailRate := tailRate + step;
        remaining := remaining - 1;
        if remaining == 0 {
          tailRate := target;
        }
      }
      Store(tailRate);
    }

    // Writes the next rate and the position after it into the rings.
    method Store(rate: real)
      requires Valid() && end < frame + HALF
      modifies this`end, this`scheduled, positions, rates
      ensures Valid() && View() == old(View()).(rates := old(scheduled) + [rate])
    {
      hide HoldsRates, HoldsPositions, Slot;
      ghost var t, oldRates, oldPositions := View(), rates[..], positions[..];
      var index, next := Slot(end), Slot(end + 1);
      var position := positions[index] + rate;
      rates[index] := rate;
      positions[next] := position;
      assert rates[..] == oldRates[index := rate] by {
        assert forall i :: 0 <= i < CAPACITY ==> rates[i] == if i == index then rate else oldRates[i];
      }
      assert positions[..] == oldPositions[next := position] by {
        assert forall i :: 0 <= i < CAPACITY ==> positions[i] == if i == next then position else oldPositions[i];
      }
      AppendRate(oldRates, t, rate);
      AppendPosition(oldPositions, t, rate);
      end := end + 1;
      scheduled := scheduled + [rate];
    }

    // Schedules frames up to `offset` ahead.
    method Ensure(offset: int)
      requires Valid()
      modifies this, positions, rates
      ensures Valid() && frame == old(frame)
      ensures end == (if old(end) < frame + Clamped(offset) then frame + Clamped(offset) else old(end))
      ensures Continues(old(View()), old(Generator()), View(), Generator())
    {
      hide HoldsRates, HoldsPositions;
      var limit := frame + Clamped(offset);
      ghost var n := 0;
      while end < limit
        invariant Valid() && frame == old(frame) && n == end - old(end)
        invariant end <= limit || end == old(end)
        invariant Continues(old(View()), old(Generator()), View(), Generator())
        decreases limit - end
      {
        Extend();
        n := n + 1;
        assert old(scheduled) + Schedule(old(Generator()), n)
               == old(scheduled) + Schedule(old(Generator()), n - 1) + [tailRate];
      }
    }

    // The source position `offset` frames from now.
    method Position(offset: int) returns (p: real)
      requires Valid() && -HALF < offset <= HALF
      modifies this, positions, rates
      ensures Valid() && frame == old(frame) && Continues(old(View()), old(Generator()), View(), Generator())
      ensures frame + offset <= |scheduled| && p == PositionOf(View(), frame + offset)
    {
      Ensure(offset);
      var at := frame + offset;
      if at < 0 {
        return origin + at as real * initialRate;
      }
      return positions[at % CAPACITY];
    }

    // The rate of the frame `offset` frames from now.
    method Rate(offset: int) returns (r: real)
      requires Valid() && -HALF <= offset < HALF
      modifies this, positions, rates
      ensures Valid() && frame == old(frame) && Continues(old(View()), old(Generator()), View(), Generator())
      ensures frame + offset < |scheduled| && r == RateOf(View(), frame + offset)
    {
      Ensure(offset + 1);
      var at := frame + offset;
      if at < 0 {
        return initialRate;
      }
      return rates[at % CAPACITY];
    }

    method Advance(frames: nat)
      requires Valid() && frames <= HALF
      modifies this, positions, rates
      ensures Valid() && frame == old(frame) + frames
      ensures Continues(old(View()), old(Generator()), View(), Generator())
    {
      Ensure(frames);
      frame := frame + frames;
    }
  }

  function Gap(a: int, b: int): nat { if a < b then b - a else a - b }

  // The nearest offset that can be scheduled.
  function Clamped(offset: int): (r: nat)
    ensures r <= HALF && (0 <= offset <= HALF ==> r == offset)
    ensures forall k: nat :: k <= HALF ==> Gap(r, offset) <= Gap(k, offset)
  {
    if offset < 0 then 0 else if offset > HALF then HALF else offset
  }
}
