/**
 Beat grids as piecewise-linear maps between seconds and beats: jumping by beats, reading
 the beat position and the bar phase, and snapping to beats. Numbers are exact reals.
 */
module BeatJump {

  import opened Arithmetic

  const SMALLEST_GAP := 0.0001

  // Beat positions in seconds, and the constant tempo that stands in for them.
  datatype Grid = Grid(beats: seq<real>, firstBeat: real, bpm: real)

  predicate Increasing(beats: seq<real>)
  {
    forall i, j :: 0 <= i < j < |beats| ==> beats[i] < beats[j]
  }

  // Increasing, and no gap so small that the code refuses to divide by it.
  predicate Regular(beats: seq<real>)
  {
    && Increasing(beats)
    && forall i :: 0 <= i < |beats| - 1 ==> Gap(beats, i) > SMALLEST_GAP
  }

  function Gap(beats: seq<real>, i: nat): real
    requires i + 1 < |beats|
  {
    beats[i + 1] - beats[i]
  }

  // The first beat after x, or the number of beats.
  function UpperBound(beats: seq<real>, x: real): (k: nat)
    ensures k <= |beats|
    ensures k < |beats| ==> x < beats[k]
    ensures forall i :: 0 <= i < k ==> beats[i] <= x
  {
    if beats == [] || x < beats[0] then 0 else 1 + UpperBound(beats[1..], x)
  }

  // The interval x belongs to: the first one also takes what lies before the grid.
  function IndexAt(beats: seq<real>, x: real): (i: nat)
    requires |beats| > 0
    ensures i < |beats|
    ensures i == 0 || beats[i] <= x
    ensures i == |beats| - 1 || x < beats[i + 1] || x < beats[0]
  {
    var k := UpperBound(beats, x);
    if k > 0 then k - 1 else 0
  }

  // The last beat borrows the gap before it.
  function DurationAt(beats: seq<real>, i: nat): real
    requires |beats| >= 2 && i < |beats|
  {
    if i + 1 < |beats| then beats[i + 1] - beats[i] else beats[i] - beats[i - 1]
  }

  // ---- Beat position and bar phase ---------------------------------------------------

  datatype Interval = Interval(index: nat, start: real, duration: real)

  function IntervalAt(beats: seq<real>, seconds: real, fallbackBpm: real): (r: Interval)
    ensures r.duration > 0.0
    ensures beats != [] ==> r.index < |beats| && r.start == beats[r.index]
  {
    var fallback := if fallbackBpm > 0.0 then 60.0 / fallbackBpm else 0.5;
    if beats == [] then Interval(0, 0.0, fallback)
    else
      var index := IndexAt(beats, seconds);
      var duration := if |beats| >= 2 then DurationAt(beats, index) else fallback;
      Interval(index, beats[index], if duration <= SMALLEST_GAP then fallback else duration)
  }

  function BeatPosition(beats: seq<real>, seconds: real, fallbackBpm: real): real
  {
    var interval := IntervalAt(beats, seconds, fallbackBpm);
    interval.index as real + (seconds - interval.start) / interval.duration
  }

  // `inBar` holds the place of every beat in its bar, from 1 to 4.
  function BarPhase(beats: seq<real>, inBar: seq<int>, seconds: real, fallbackBpm: real): (phase: real)
    requires |inBar| == |beats|
    ensures 0.0 <= phase < 1.0
  {
    var interval := IntervalAt(beats, seconds, fallbackBpm);
    var beat := if beats == [] then 0.0 else inBar[interval.index] as real - 1.0;
    PhaseOf(beat + (seconds - interval.start) / interval.duration)
  }

  function PhaseOf(position: real): (phase: real)
    ensures 0.0 <= phase < 1.0
  {
    (position - 4.0 * (position / 4.0).Floor as real) / 4.0
  }

  // The length of a beat where the grid does not say.
  function TempoGap(bpm: real): (gap: real)
    ensures gap > 0.0
  {
    if bpm > 0.0 then 60.0 / bpm else 0.5
  }

  /** The beat position tells in which interval a time is and how far into it, also before the
      first beat and after the last. An interval without a usable gap counts by the tempo. */
  lemma {:induction false} PositionIsInInterval(beats: seq<real>, x: real, fallbackBpm: real)
    returns (i: nat, gap: real)
    requires Increasing(beats)
    ensures beats == [] ==> i == 0 && x == BeatPosition(beats, x, fallbackBpm) * gap
    ensures beats != [] ==>
      && i < |beats| && x == beats[i] + (BeatPosition(beats, x, fallbackBpm) - i as real) * gap
      && (i > 0 ==> beats[i] <= x) && (i + 1 < |beats| ==> x < beats[i + 1])
    ensures gap == if |beats| >= 2 && DurationAt(beats, i) > SMALLEST_GAP then DurationAt(beats, i)
                   else TempoGap(fallbackBpm)
  {
    var interval := IntervalAt(beats, x, fallbackBpm);
    i, gap := interval.index, interval.duration;
    var q := (x - interval.start) / gap;
    assert q * gap == x - interval.start;
  }

  // ---- Jumping -----------------------------------------------------------------------

  // The time of a beat number on a grid of at least two beats.
  function TimeOf(beats: seq<real>, beat: real): real
    requires |beats| >= 2
  {
    var index, last := beat.Floor, |beats| - 1;
    var fraction := beat - beat.Floor as real;
    if index < 0 then beats[0] + beat * (beats[1] - beats[0])
    else if index < last then beats[index] + fraction * (beats[index + 1] - beats[index])
    else beats[last] + (beat - last as real) * (beats[last] - beats[last - 1])
  }

  function Jump(position: real, beats: real, grid: Grid): real
  {
    if |grid.beats| >= 2 then
      var source := IndexAt(grid.beats, position);
      var duration := DurationAt(grid.beats, source);
      if duration <= SMALLEST_GAP then position
      else TimeOf(grid.beats, source as real + (position - grid.beats[source]) / duration + beats)
    else if grid.bpm <= 0.0 then position
    else position + beats * (60.0 / grid.bpm)
  }

  // The point q gaps after the start of a gap, and the q of a point.
  function Along(start: real, q: real, gap: real): real { start + q * gap }

  function PartOf(x: real, start: real, gap: real): real
    requires gap > 0.0
  {
    (x - start) / gap
  }

  lemma Product(a: real, d: real)
    requires d > 0.0
    ensures a * d / d == a
    ensures a < 0.0 ==> a * d < 0.0
    ensures a >= 0.0 ==> a * d >= 0.0
    ensures a < 1.0 ==> a * d < d
  {
  }

  lemma AlongPart(x: real, start: real, gap: real)
    requires gap > 0.0
    ensures Along(start, PartOf(x, start, gap), gap) == x
  {
  }

  lemma PartAlong(start: real, q: real, gap: real)
    requires gap > 0.0
    ensures var x := Along(start, q, gap);
      && PartOf(x, start, gap) == q
      && (q >= 0.0 <==> x >= start)
      && (q < 1.0 <==> x < start + gap)
  {
    Product(q, gap);
    Product(q - 1.0, gap);
    assert (q - 1.0) * gap == q * gap - gap;
  }

  lemma {:induction false} GapAt(beats: seq<real>, i: nat)
    requires Regular(beats) && |beats| >= 2 && i < |beats|
    ensures DurationAt(beats, i) > SMALLEST_GAP
  {
    assert i + 1 < |beats| ==> Gap(beats, i) > SMALLEST_GAP;
    assert i > 0 ==> Gap(beats, i - 1) > SMALLEST_GAP;
  }

  lemma {:induction false} IndexIs(beats: seq<real>, x: real, i: nat)
    requires Increasing(beats) && i < |beats|
    requires i == 0 || beats[i] <= x
    requires i == |beats| - 1 || x < beats[i + 1]
    ensures IndexAt(beats, x) == i
  {
  }

  lemma {:induction false} IndexGrows(beats: seq<real>, x: real, y: real)
    requires Increasing(beats) && |beats| > 0 && x <= y
    ensures IndexAt(beats, x) <= IndexAt(beats, y)
  {
  }

  lemma FloorIs(x: real, n: int)
    requires n as real <= x < n as real + 1.0
    ensures x.Floor == n
  {
  }

  lemma {:induction false} BeatPositionIs(beats: seq<real>, x: real, fallbackBpm: real)
    requires Regular(beats) && |beats| >= 2
    ensures var i := IndexAt(beats, x);
      DurationAt(beats, i) > SMALLEST_GAP
      && BeatPosition(beats, x, fallbackBpm) == i as real + PartOf(x, beats[i], DurationAt(beats, i))
  {
    GapAt(beats, IndexAt(beats, x));
  }

  // The three pieces of TimeOf: before the grid, in an interval, after the grid.
  lemma {:induction false} TimeBefore(beats: seq<real>, beat: real)
    requires |beats| >= 2 && beat < 0.0
    ensures TimeOf(beats, beat) == beats[0] + beat * DurationAt(beats, 0)
  {
  }

  lemma {:induction false} TimeInside(beats: seq<real>, beat: real, i: nat)
    requires |beats| >= 2 && i < |beats| - 1 && i as real <= beat < i as real + 1.0
    ensures TimeOf(beats, beat) == beats[i] + (beat - i as real) * DurationAt(beats, i)
  {
    FloorIs(beat, i);
  }

  lemma {:induction false} TimeAfter(beats: seq<real>, beat: real)
    requires |beats| >= 2 && beat >= (|beats| - 1) as real
    ensures TimeOf(beats, beat)
            == beats[|beats| - 1] + (beat - (|beats| - 1) as real) * DurationAt(beats, |beats| - 1)
  {
  }

  // The interval a beat number belongs to.
  function IndexOfBeat(beats: seq<real>, beat: real): (i: nat)
    requires |beats| >= 2
    ensures i < |beats| && (i == 0 || i as real <= beat) && (i == |beats| - 1 || beat < i as real + 1.0)
  {
    if beat < 0.0 then 0 else if beat < (|beats| - 1) as real then beat.Floor else |beats| - 1
  }

  lemma {:induction false} TimeOfIs(beats: seq<real>, beat: real, i: nat, q: real)
    requires |beats| >= 2 && i < |beats| && beat == i as real + q
    requires i == 0 || q >= 0.0
    requires i == |beats| - 1 || q < 1.0
    ensures TimeOf(beats, beat) == Along(beats[i], q, DurationAt(beats, i))
  {
    hide TimeOf;
    assert beat - i as real == q;
    if beat < 0.0 {
      TimeBefore(beats, beat);
    } else if i < |beats| - 1 {
      TimeInside(beats, beat, i);
    } else {
      TimeAfter(beats, beat);
    }
  }

  // Where x lies in its interval.
  lemma {:induction false} PlaceOf(beats: seq<real>, x: real) returns (i: nat, q: real)
    requires Regular(beats) && |beats| >= 2
    ensures i == IndexAt(beats, x) && DurationAt(beats, i) > 0.0 && q == PartOf(x, beats[i], DurationAt(beats, i))
    ensures x == Along(beats[i], q, DurationAt(beats, i))
    ensures (i == 0 || q >= 0.0) && (i == |beats| - 1 || q < 1.0)
  {
    i := IndexAt(beats, x);
    GapAt(beats, i);
    q := PartOf(x, beats[i], DurationAt(beats, i));
    hide Along, PartOf;
    AlongPart(x, beats[i], DurationAt(beats, i));
    PartAlong(beats[i], q, DurationAt(beats, i));
  }

  lemma {:induction false} IndexOfPlace(beats: seq<real>, i: nat, q: real)
    requires Regular(beats) && |beats| >= 2 && i < |beats|
    requires i == 0 || q >= 0.0
    requires i == |beats| - 1 || q < 1.0
    ensures var d := DurationAt(beats, i); var x := Along(beats[i], q, d);
      d > 0.0 && IndexAt(beats, x) == i && PartOf(x, beats[i], d) == q
  {
    GapAt(beats, i);
    hide Along, PartOf;
    PartAlong(beats[i], q, DurationAt(beats, i));
    IndexIs(beats, Along(beats[i], q, DurationAt(beats, i)), i);
  }

  /** Reading the beat position and going back to its time returns to the same place, inside
      the grid and beyond both of its ends. */
  lemma {:induction false} TimeOfPosition(beats: seq<real>, x: real, fallbackBpm: real)
    requires Regular(beats) && |beats| >= 2
    ensures TimeOf(beats, BeatPosition(beats, x, fallbackBpm)) == x
  {
    hide Regular, BeatPosition, TimeOf, IndexAt, DurationAt, Along, PartOf;
    BeatPositionIs(beats, x, fallbackBpm);
    var i, q := PlaceOf(beats, x);
    TimeOfIs(beats, i as real + q, i, q);
  }

  /** And every beat number, also outside the grid, is the beat position of its time. */
  lemma {:induction false} PositionOfTime(beats: seq<real>, beat: real, fallbackBpm: real)
    requires Regular(beats) && |beats| >= 2
    ensures BeatPosition(beats, TimeOf(beats, beat), fallbackBpm) == beat
  {
    var i := IndexOfBeat(beats, beat);
    var q := beat - i as real;
    hide Regular, BeatPosition, TimeOf, IndexAt, DurationAt, IndexOfBeat, Along, PartOf;
    TimeOfIs(beats, beat, i, q);
    IndexOfPlace(beats, i, q);
    BeatPositionIs(beats, Along(beats[i], q, DurationAt(beats, i)), fallbackBpm);
  }

  lemma {:induction false} JumpIs(position: real, amount: real, grid: Grid)
    requires |grid.beats| >= 2 && Regular(grid.beats)
    ensures var i := IndexAt(grid.beats, position); var d := DurationAt(grid.beats, i);
      d > 0.0 && Jump(position, amount, grid)
                 == TimeOf(grid.beats, i as real + PartOf(position, grid.beats[i], d) + amount)
  {
    GapAt(grid.beats, IndexAt(grid.beats, position));
    hide TimeOf, IndexAt, DurationAt, Regular;
  }

  /** Jumping moves the beat position by exactly the number of beats. */
  lemma {:induction false} JumpShifts(position: real, amount: real, grid: Grid, fallbackBpm: real)
    requires |grid.beats| >= 2 && Regular(grid.beats)
    ensures BeatPosition(grid.beats, Jump(position, amount, grid), fallbackBpm)
            == BeatPosition(grid.beats, position, fallbackBpm) + amount
    ensures Jump(position, amount, grid) == TimeOf(grid.beats, BeatPosition(grid.beats, position, fallbackBpm) + amount)
  {
    hide TimeOf, BeatPosition, Jump, IndexAt, DurationAt, PartOf, Regular;
    JumpIs(position, amount, grid);
    BeatPositionIs(grid.beats, position, fallbackBpm);
    PositionOfTime(grid.beats, BeatPosition(grid.beats, position, fallbackBpm) + amount, fallbackBpm);
  }

  // The grids on which a jump keeps its promises: enough regular beats, or a tempo.
  predicate Jumpable(grid: Grid)
  {
    |grid.beats| >= 2 ==> Regular(grid.beats)
  }

  lemma {:induction false} GridJumpsCompose(position: real, a: real, b: real, grid: Grid)
    requires |grid.beats| >= 2 && Regular(grid.beats)
    ensures Jump(Jump(position, a, grid), b, grid) == Jump(position, a + b, grid)
    ensures Jump(position, 0.0, grid) == position
  {
    hide TimeOf, BeatPosition, Jump, Regular;
    var place := BeatPosition(grid.beats, position, 0.0);
    JumpShifts(position, a, grid, 0.0);
    JumpShifts(Jump(position, a, grid), b, grid, 0.0);
    JumpShifts(position, a + b, grid, 0.0);
    JumpShifts(position, 0.0, grid, 0.0);
    TimeOfPosition(grid.beats, position, 0.0);
    assert place + a + b == place + (a + b);
  }

  /** Jumps compose: jumping by a and then by b is jumping by a + b, and by 0 is staying. */
  lemma {:induction false} JumpsCompose(position: real, a: real, b: real, grid: Grid)
    requires Jumpable(grid)
    ensures Jump(Jump(position, a, grid), b, grid) == Jump(position, a + b, grid)
    ensures Jump(position, 0.0, grid) == position
  {
    hide TimeOf, Regular;
    if |grid.beats| >= 2 {
      GridJumpsCompose(position, a, b, grid);
    } else if grid.bpm > 0.0 {
      Distributes(a, b, 60.0 / grid.bpm);
    }
  }

  lemma Distributes(a: real, b: real, d: real)
    ensures a * d + b * d == (a + b) * d
  {
  }

  lemma {:induction false} BeatPositionGrows(beats: seq<real>, x: real, y: real, fallbackBpm: real)
    requires Regular(beats) && |beats| >= 2 && x < y
    ensures BeatPosition(beats, x, fallbackBpm) < BeatPosition(beats, y, fallbackBpm)
  {
    BeatPositionIs(beats, x, fallbackBpm);
    BeatPositionIs(beats, y, fallbackBpm);
    IndexGrows(beats, x, y);
    hide BeatPosition, IndexAt, DurationAt, Along, PartOf;
    var i, q := PlaceOf(beats, x);
    var j, r := PlaceOf(beats, y);
    if i == j {
      PartGrows(x, y, beats[i], DurationAt(beats, i));
    }
  }

  lemma PartGrows(x: real, y: real, start: real, gap: real)
    requires x < y && gap > 0.0
    ensures PartOf(x, start, gap) < PartOf(y, start, gap)
  {
  }

  lemma {:induction false} TimeOfGrows(beats: seq<real>, a: real, b: real)
    requires Regular(beats) && |beats| >= 2 && a < b
    ensures TimeOf(beats, a) < TimeOf(beats, b)
  {
    hide TimeOf, BeatPosition;
    PositionOfTime(beats, a, 0.0);
    PositionOfTime(beats, b, 0.0);
    var x, y := TimeOf(beats, a), TimeOf(beats, b);
    if y < x {
      BeatPositionGrows(beats, y, x, 0.0);
    }
  }

  /** Jumping is strictly monotone in the place it starts from, and in its length. */
  lemma {:induction false} JumpGrows(x: real, y: real, a: real, b: real, grid: Grid)
    requires |grid.beats| >= 2 && Regular(grid.beats)
    ensures x < y ==> Jump(x, a, grid) < Jump(y, a, grid)
    ensures a < b ==> Jump(x, a, grid) < Jump(x, b, grid)
  {
    hide TimeOf, BeatPosition, Jump;
    JumpShifts(x, a, grid, 0.0);
    JumpShifts(y, a, grid, 0.0);
    JumpShifts(x, b, grid, 0.0);
    var p, q := BeatPosition(grid.beats, x, 0.0), BeatPosition(grid.beats, y, 0.0);
    if x < y {
      BeatPositionGrows(grid.beats, x, y, 0.0);
      TimeOfGrows(grid.beats, p + a, q + a);
    }
    if a < b {
      TimeOfGrows(grid.beats, p + a, p + b);
    }
  }

  /** The condition on gaps is exact: on an increasing grid, jumps move the beat position by
      their length from everywhere if and only if every gap is above 0.0001 seconds. */
  lemma {:induction false} ShiftNeedsGaps(grid: Grid, fallbackBpm: real)
    requires |grid.beats| >= 2 && Increasing(grid.beats)
    ensures Regular(grid.beats) <==>
      forall p: real, a: real :: BeatPosition(grid.beats, Jump(p, a, grid), fallbackBpm)
                                 == BeatPosition(grid.beats, p, fallbackBpm) + a
  {
    if Regular(grid.beats) {
      forall p: real, a: real
        ensures BeatPosition(grid.beats, Jump(p, a, grid), fallbackBpm)
                == BeatPosition(grid.beats, p, fallbackBpm) + a
      {
        JumpShifts(p, a, grid, fallbackBpm);
      }
    } else {
      var i :| 0 <= i < |grid.beats| - 1 && Gap(grid.beats, i) <= SMALLEST_GAP;
      var p := grid.beats[i];
      IndexIs(grid.beats, p, i);
      assert Jump(p, 1.0, grid) == p;
    }
  }

  /** Without a grid of two beats a jump goes by the tempo, and nowhere when there is none. */
  lemma {:induction false} JumpByTempo(position: real, beats: real, grid: Grid)
    requires |grid.beats| < 2
    ensures grid.bpm > 0.0 ==> BeatPosition(grid.beats, Jump(position, beats, grid), grid.bpm)
                               == BeatPosition(grid.beats, position, grid.bpm) + beats
    ensures grid.bpm <= 0.0 ==> Jump(position, beats, grid) == position
  {
    if grid.bpm > 0.0 {
      var gap := TempoGap(grid.bpm);
      var start := if grid.beats == [] then 0.0 else grid.beats[0];
      var target := Jump(position, beats, grid);
      Product(beats, gap);
      assert (target - start) / gap == (position - start) / gap + beats * gap / gap;
    }
  }

  // ---- Bars ----------------------------------------------------------------------------

  // Beats are numbered 1, 2, 3, 4, 1, ... from any of these.
  predicate CountsBars(inBar: seq<int>)
  {
    && (forall i :: 0 <= i < |inBar| ==> 1 <= inBar[i] <= 4)
    && (forall i :: 0 < i < |inBar| ==> inBar[i] == if inBar[i - 1] == 4 then 1 else inBar[i - 1] + 1)
  }

  lemma {:induction false} CountAt(inBar: seq<int>, i: nat) returns (bars: int)
    requires CountsBars(inBar) && i < |inBar|
    ensures inBar[i] == inBar[0] + i - 4 * bars
  {
    if i == 0 {
      bars := 0;
    } else {
      bars := CountAt(inBar, i - 1);
      bars := if inBar[i - 1] == 4 then bars + 1 else bars;
    }
  }

  lemma PhaseRepeats(position: real, bars: int)
    ensures PhaseOf(position + 4.0 * bars as real) == PhaseOf(position)
  {
    var q := position / 4.0;
    assert (position + 4.0 * bars as real) / 4.0 == q + bars as real;
    FloorIs(q + bars as real, q.Floor + bars);
  }

  /** The phase of a position is the part of a bar of four beats that it is in. */
  lemma {:induction false} PhaseIsOfFour(position: real) returns (bars: int)
    ensures position == 4.0 * (bars as real + PhaseOf(position))
  {
    bars := (position / 4.0).Floor;
  }

  /** The bar phase is the beat position, counted from the first downbeat, modulo four, also
      beyond the ends of the grid. */
  lemma {:induction false} BarPhaseIsBeatPosition(beats: seq<real>, inBar: seq<int>, x: real, fallbackBpm: real)
    requires Regular(beats) && |inBar| == |beats| >= 1 && CountsBars(inBar)
    ensures BarPhase(beats, inBar, x, fallbackBpm)
            == PhaseOf(inBar[0] as real - 1.0 + BeatPosition(beats, x, fallbackBpm))
  {
    var interval := IntervalAt(beats, x, fallbackBpm);
    var bars := CountAt(inBar, interval.index);
    hide PhaseOf;
    var part := (x - interval.start) / interval.duration;
    PhaseRepeats(inBar[interval.index] as real - 1.0 + part, bars);
    assert inBar[interval.index] as real - 1.0 + part + 4.0 * bars as real
           == inBar[0] as real - 1.0 + (interval.index as real + part);
  }

  /** Jumping by whole bars keeps the bar phase. */
  lemma {:induction false} BarJumpKeepsPhase(position: real, bars: int, grid: Grid, inBar: seq<int>, fallbackBpm: real)
    requires Regular(grid.beats) && |inBar| == |grid.beats| >= 2 && CountsBars(inBar)
    ensures BarPhase(grid.beats, inBar, Jump(position, 4.0 * bars as real, grid), fallbackBpm)
            == BarPhase(grid.beats, inBar, position, fallbackBpm)
  {
    hide BarPhase, BeatPosition, Jump, PhaseOf, TimeOf;
    var target := Jump(position, 4.0 * bars as real, grid);
    JumpShifts(position, 4.0 * bars as real, grid, fallbackBpm);
    BarPhaseIsBeatPosition(grid.beats, inBar, position, fallbackBpm);
    BarPhaseIsBeatPosition(grid.beats, inBar, target, fallbackBpm);
    var from := inBar[0] as real - 1.0 + BeatPosition(grid.beats, position, fallbackBpm);
    PhaseRepeats(from, bars);
    assert inBar[0] as real - 1.0 + BeatPosition(grid.beats, target, fallbackBpm) == from + 4.0 * bars as real;
  }

  // ---- Snapping ----------------------------------------------------------------------

  function QuantizedBeat(sec: real, grid: Grid): real
  {
    var beats := grid.beats;
    if beats != [] then
      var k := UpperBound(beats, sec);
      if k == 0 then beats[0]
      else if k == |beats| then beats[|beats| - 1]
      else if sec - beats[k - 1] <= beats[k] - sec then beats[k - 1] else beats[k]
    else if grid.bpm <= 0.0 then sec
    else
      var duration := 60.0 / grid.bpm;
      grid.firstBeat + Rounded((sec - grid.firstBeat) / duration) as real * duration
  }

  /** Quantizing gives a beat of the grid, and none is nearer. */
  lemma {:induction false} QuantizedIsNearest(sec: real, grid: Grid)
    requires grid.beats != [] && Increasing(grid.beats)
    ensures QuantizedBeat(sec, grid) in grid.beats
    ensures forall b :: b in grid.beats ==> Distance(sec, QuantizedBeat(sec, grid)) <= Distance(sec, b)
  {
    var beats, k := grid.beats, UpperBound(grid.beats, sec);
    forall b | b in beats ensures Distance(sec, QuantizedBeat(sec, grid)) <= Distance(sec, b) {
      var j :| 0 <= j < |beats| && beats[j] == b;
      assert k > 0 && j < k ==> j == k - 1 || beats[j] < beats[k - 1];
      assert k <= j ==> j == k || beats[k] < beats[j];
    }
  }

  /** Without beats, quantizing gives the nearest whole number of beats from the first one, and
      without a tempo the time itself. */
  lemma {:induction false} QuantizedIsNearTempo(sec: real, grid: Grid) returns (n: int)
    requires grid.beats == []
    ensures grid.bpm > 0.0 ==>
      && QuantizedBeat(sec, grid) == Along(grid.firstBeat, n as real, 60.0 / grid.bpm)
      && Distance(sec, QuantizedBeat(sec, grid)) <= 30.0 / grid.bpm
    ensures grid.bpm <= 0.0 ==> QuantizedBeat(sec, grid) == sec
  {
    n := 0;
    if grid.bpm > 0.0 {
      var d := 60.0 / grid.bpm;
      var q := PartOf(sec, grid.firstBeat, d);
      n := Rounded(q);
      AlongPart(sec, grid.firstBeat, d);
      Nearby(grid.firstBeat, q, n as real, d, 0.5);
      assert d * 0.5 == 30.0 / grid.bpm;
      hide Along, PartOf;
    }
  }

  lemma Nearby(start: real, q: real, r: real, gap: real, limit: real)
    requires gap > 0.0 && Distance(q, r) <= limit
    ensures Distance(Along(start, q, gap), Along(start, r, gap)) <= gap * limit
  {
    assert (q - r) * gap == q * gap - r * gap;
    Product(limit - q + r, gap);
    Product(limit - r + q, gap);
    assert (limit - q + r) * gap == gap * limit - q * gap + r * gap;
    assert (limit - r + q) * gap == gap * limit - r * gap + q * gap;
  }

  const NEXT_EPSILON := 0.0001

  // The duration of the beat around a time, as the snapping code estimates it.
  function DurationAround(sec: real, grid: Grid): (d: real)
    ensures d > 0.0
  {
    var beats := grid.beats;
    var fallback := if grid.bpm > 0.0 then 60.0 / grid.bpm else 0.5;
    if |beats| >= 2 then
      var i := IndexAt(beats, sec);
      if i + 1 < |beats| && beats[i + 1] - beats[i] > 0.001 then beats[i + 1] - beats[i]
      else if i > 0 && beats[i] - beats[i - 1] > 0.001 then beats[i] - beats[i - 1]
      else fallback
    else fallback
  }

  function NextBoundary(sec: real, grid: Grid): real
  {
    var beats := grid.beats;
    if beats != [] then
      var k := UpperBound(beats, sec + NEXT_EPSILON);
      if k < |beats| then beats[k]
      else
        var duration, last := DurationAround(sec, grid), beats[|beats| - 1];
        if duration > 0.0001 then Along(last, (PartOf(sec, last, duration).Floor + 1) as real, duration) else sec
    else if grid.bpm <= 0.0 then sec
    else
      var duration := 60.0 / grid.bpm;
      grid.firstBeat + (((sec - grid.firstBeat) / duration + NEXT_EPSILON).Floor + 1) as real * duration
  }

  /** Inside the grid the next boundary is the first beat more than 0.0001 seconds ahead;
      after the grid it lies ahead by at most one beat. */
  lemma {:induction false} NextBoundaryIsNext(sec: real, grid: Grid)
    requires grid.beats != [] && Increasing(grid.beats)
    ensures var next, last := NextBoundary(sec, grid), grid.beats[|grid.beats| - 1];
      if sec + NEXT_EPSILON < last then
        next in grid.beats && next > sec + NEXT_EPSILON
        && forall b :: b in grid.beats && b > sec + NEXT_EPSILON ==> next <= b
      else
        DurationAround(sec, grid) > 0.0001 ==> sec < next <= sec + DurationAround(sec, grid)
  {
    hide DurationAround, Along, PartOf;
    var beats := grid.beats;
    var k, last := UpperBound(beats, sec + NEXT_EPSILON), beats[|beats| - 1];
    assert k < |beats| ==> k == |beats| - 1 || beats[k] < last;
    if k < |beats| {
      forall b | b in beats && b > sec + NEXT_EPSILON ensures beats[k] <= b {
        var j :| 0 <= j < |beats| && beats[j] == b;
        assert k < j ==> beats[k] < beats[j];
      }
    } else {
      NextMultiple(sec, last, DurationAround(sec, grid));
    }
  }

  lemma AlongGrows(start: real, a: real, b: real, gap: real)
    requires gap > 0.0
    ensures a < b ==> Along(start, a, gap) < Along(start, b, gap)
    ensures a == b ==> Along(start, a, gap) == Along(start, b, gap)
  {
    Product(a - b, gap);
    assert (a - b) * gap == a * gap - b * gap;
  }

  lemma AlongNext(start: real, q: real, gap: real)
    ensures Along(start, q + 1.0, gap) == Along(start, q, gap) + gap
  {
    assert (q + 1.0) * gap == q * gap + gap;
  }

  // The next whole number of gaps after x.
  lemma {:induction false} NextMultiple(x: real, start: real, gap: real)
    requires gap > 0.0
    ensures x < Along(start, (PartOf(x, start, gap).Floor + 1) as real, gap) <= x + gap
  {
    hide PartOf, Along;
    var q := PartOf(x, start, gap);
    var r := (q.Floor + 1) as real;
    AlongPart(x, start, gap);
    AlongNext(start, q, gap);
    AlongGrows(start, q, r, gap);
    AlongGrows(start, r, q + 1.0, gap);
  }

  /** Without beats the next boundary is the first whole beat more than 0.0001 beats ahead. */
  lemma {:induction false} NextBoundaryByTempo(sec: real, grid: Grid) returns (n: int)
    requires grid.beats == []
    ensures grid.bpm > 0.0 ==>
      var gap := 60.0 / grid.bpm; var q := PartOf(sec, grid.firstBeat, gap) + NEXT_EPSILON;
      NextBoundary(sec, grid) == Along(grid.firstBeat, n as real, gap) && (n - 1) as real <= q < n as real
    ensures grid.bpm <= 0.0 ==> NextBoundary(sec, grid) == sec
  {
    n := if grid.bpm > 0.0 then (PartOf(sec, grid.firstBeat, 60.0 / grid.bpm) + NEXT_EPSILON).Floor + 1 else 0;
  }

  /** On a grid with all gaps above 0.001 seconds the snapping code's beat is the gap a time is in,
      the same that the beat position counts by; without two beats it is the tempo's. */
  lemma {:induction false} DurationAroundIsGap(sec: real, grid: Grid)
    requires forall i :: 0 <= i < |grid.beats| - 1 ==> Gap(grid.beats, i) > 0.001
    ensures DurationAround(sec, grid) == if |grid.beats| >= 2 then DurationAt(grid.beats, IndexAt(grid.beats, sec))
                                         else TempoGap(grid.bpm)
  {
    if |grid.beats| >= 2 {
      var i := IndexAt(grid.beats, sec);
      assert if i + 1 < |grid.beats| then Gap(grid.beats, i) > 0.001 else Gap(grid.beats, i - 1) > 0.001;
    }
  }

  // The gap the grid goes on with after its last beat.
  function LastGap(grid: Grid): (gap: real)
    requires grid.beats != [] && Increasing(grid.beats)
    ensures gap > 0.0
  {
    var last := |grid.beats| - 1;
    if last > 0 && grid.beats[last] - grid.beats[last - 1] > 0.001 then grid.beats[last] - grid.beats[last - 1]
    else TempoGap(grid.bpm)
  }

  /** After the grid the boundaries go on from the last beat by its last gap, or by the tempo when
      that gap is not above 0.001 seconds. */
  lemma {:induction false} NextBoundaryAfterGrid(sec: real, grid: Grid) returns (n: int)
    requires grid.beats != [] && Increasing(grid.beats) && grid.beats[|grid.beats| - 1] <= sec
    requires LastGap(grid) > 0.0001
    ensures NextBoundary(sec, grid) == Along(grid.beats[|grid.beats| - 1], n as real, LastGap(grid))
    ensures n >= 1 && sec < NextBoundary(sec, grid) <= sec + LastGap(grid)
  {
    var beats := grid.beats;
    var last := |beats| - 1;
    assert IndexAt(beats, sec) == last;
    assert DurationAround(sec, grid) == LastGap(grid);
    assert UpperBound(beats, sec + NEXT_EPSILON) == |beats|;
    var gap := LastGap(grid);
    NextMultiple(sec, beats[last], gap);
    SignOfPart(sec, beats[last], gap);
    n := PartOf(sec, beats[last], gap).Floor + 1;
    hide Along, PartOf, LastGap, DurationAround;
  }

  lemma SignOfPart(x: real, start: real, gap: real)
    requires gap > 0.0 && start <= x
    ensures PartOf(x, start, gap) >= 0.0
  {
    AlongPart(x, start, gap);
    Product(PartOf(x, start, gap), gap);
    hide PartOf;
  }
}
