/**
 SetRecorder: the audio callback copies blocks into a ring, a writer thread moves them to
 WAV parts on disk, and the control thread marks where a new part should begin. Samples are
 interleaved, two to a frame; positions count frames. Every step makes at most one access to
 shared memory; disk operations may fail.
 */
module SetRecorder {

  import opened WaveFile
  import opened Wrappers

  const CAPACITY := 0x8_0000
  const SAMPLES := 0x10_0000   // two to a frame
  const CHUNK := 4096
  const ROTATE_AT := 0x7000_0000

  datatype Mark = NoMark | At(position: nat)

  datatype ProducerPoint = POutside | PAccepting | PRoom | PCopy | PPublish
  datatype Producer = Producer(at: ProducerPoint, block: seq<Sample>, next: nat)

  datatype WriterPoint =
    | WLoad | WFail | WAccepting | WReaders | WMarker | WClear | WRotate | WCopy | WWrite | WAdvance | WHeader
    | WFinish | WDone

  // `seen` is the written position the writer loaded, `count` the frames of this round,
  // `frames` all saved frames and `lastHeader` their number at the last periodic header.
  datatype Writer = Writer(at: WriterPoint, seen: nat, marker: Mark, count: nat, chunk: seq<Sample>, good: bool,
                           frames: nat, lastHeader: nat)

  // A file: the position of its first frame, its samples, and the data length in its header.
  datatype Part = Part(start: nat, codes: seq<int>, header: nat)

  // The end of a part in frames.
  function End(p: Part): nat { p.start + |p.codes| / 2 }

  // `bytes` counts the data bytes of the current part, `saved` the frames of all parts.
  datatype Disk = Disk(closed: seq<Part>, current: Part, isOpen: bool, bytes: nat, saved: nat)

  datatype Shared = Shared(written: nat, read: nat, ring: seq<Sample>, accepting: bool, markAt: Mark)

  // Everything offered to the recorder, everything captured, every accepted mark, whether one
  // was ever accepted behind what the writer was committed to, and the marks accepted inside.
  datatype Past = Past(offered: seq<Sample>, captured: seq<Sample>, refused: bool, marks: set<nat>, behind: bool,
                       inside: set<nat>)

  datatype State = State(shared: Shared, producer: Producer, writer: Writer, disk: Disk, marking: Mark, past: Past)

  // `BeginFails` leaves the new file open, but without its first header.
  datatype Outcome = Works | HeaderFails | OpenFails | BeginFails

  datatype Action =
    | Offer(block: seq<Sample>)
    | ProducerStep(sameRate: bool)
    | WriterStep(outcome: Outcome, saved: nat)
    | StopAccepting
    | LoadMark        // a track mark loads the written position ...
    | StoreMark       // ... and exchanges it later
    | MarkNow         // both in one step

  predicate Initial(s: State)
  {
    && s.shared.written == 0 && s.shared.read == 0 && |s.shared.ring| == SAMPLES && s.shared.accepting
    && s.shared.markAt == NoMark && s.marking == NoMark && s.producer.at == POutside
    && s.writer.at == WLoad && s.writer.frames == 0 && s.writer.lastHeader == 0
    && s.disk == Disk([], Part(0, [], 0), s.disk.isOpen, 0, 0) && (s.writer.good ==> s.disk.isOpen)
    && s.past == Past([], [], false, {}, false, {})
  }

  predicate Enabled(s: State, a: Action)
  {
    match a
    case Offer(block) => s.producer.at == POutside && |block| % 2 == 0
    case ProducerStep(_) => s.producer.at != POutside
    case WriterStep(_, _) => s.writer.at != WDone
    case StopAccepting => true
    case MarkNow => s.marking == NoMark && s.writer.at != WDone
    case LoadMark => s.marking == NoMark && s.writer.at != WDone
    case StoreMark => s.marking != NoMark
  }

  // ---- The audio callback ------------------------------------------------------------

  function Slot(sample: nat): (slot: nat)
    ensures slot < SAMPLES
  {
    sample % SAMPLES
  }

  // The ring position of a callback's sample, as it computes it.
  function CaptureSlot(write: nat, i: nat, channel: nat): nat
  {
    (write + i) % CAPACITY * 2 + channel
  }

  // The ring position of a writer's sample, as it computes it.
  function ReadSlot(read: nat, i: nat): nat
  {
    (read * 2 + i) % SAMPLES
  }

  lemma SlotsAgree(write: nat, n: nat)
    ensures CaptureSlot(write, n / 2, n % 2) == Slot(2 * write + n)
    ensures ReadSlot(write, n) == Slot(2 * write + n)
  {
  }

  function Refuse(s: State): State
  {
    s.(shared := s.shared.(accepting := false), producer := s.producer.(at := POutside),
       past := s.past.(refused := true))
  }

  function Stored(ring: seq<Sample>, slot: nat, v: Sample): seq<Sample>
  {
    if slot < |ring| then ring[slot := v] else ring
  }

  function ProducerNext(s: State, sameRate: bool): State
  {
    var p, g := s.producer, s.shared;
    if p.at.PAccepting? then
      if g.accepting && sameRate then s.(producer := p.(at := PRoom)) else Refuse(s)
    else if p.at.PRoom? then
      if g.written - g.read + |p.block| / 2 > CAPACITY then Refuse(s) else s.(producer := p.(at := PCopy, next := 0))
    else if p.at.PCopy? then
      if p.next < |p.block|
      then s.(shared := g.(ring := Stored(g.ring, CaptureSlot(g.written, p.next / 2, p.next % 2), p.block[p.next])),
              producer := p.(next := p.next + 1))
      else s.(producer := p.(at := PPublish))
    else
      s.(shared := g.(written := g.written + |p.block| / 2), producer := p.(at := POutside),
         past := s.past.(captured := s.past.captured + p.block))
  }

  // ---- The writer thread -------------------------------------------------------------

  predicate Due(marker: Mark, read: nat) { marker.At? && read >= marker.position }

  predicate Rotates(bytes: nat, read: nat, marker: Mark)
  {
    bytes >= ROTATE_AT || (Due(marker, read) && bytes > 0)
  }

  function ChunkSize(seen: nat, read: nat, marker: Mark): int
  {
    var available := seen - read;
    var whole := if available < CHUNK then available else CHUNK;
    if marker.At? && marker.position > read && marker.position - read < whole then marker.position - read else whole
  }

  function Closed(d: Disk, header: nat): Disk
  {
    d.(closed := d.closed + [d.current.(header := header)], current := Part(d.saved, [], 0), bytes := 0)
  }

  function Rotated(d: Disk, outcome: Outcome): Disk
  {
    if outcome.HeaderFails? then Closed(d, d.current.header).(isOpen := false)
    else Closed(d, d.bytes).(isOpen := outcome.Works? || outcome.BeginFails?)
  }

  function Saved(d: Disk, chunk: seq<Sample>, frames: nat): Disk
  {
    if 2 * frames <= |chunk|
    then d.(current := d.current.(codes := d.current.codes + QuantisedAll(chunk[..2 * frames])),
            bytes := d.bytes + 6 * frames, saved := d.saved + frames)
    else d
  }

  // The part of the loop that looks at shared memory before any frame is copied.
  function LookWriter(w: Writer, g: Shared, capturing: bool): Writer
  {
    if w.at.WLoad? then
      w.(seen := g.written, at := if !w.good then WFail else if g.written == g.read then WAccepting else WMarker)
    else if w.at.WFail? then w.(at := WFinish)
    else if w.at.WAccepting? then w.(at := if g.accepting then WLoad else WReaders)
    else if w.at.WReaders? then w.(at := if capturing then WLoad else WFinish)
    else if w.at.WMarker? then w.(marker := g.markAt, at := WClear)
    else w.(at := WRotate)
  }

  function LookNext(s: State): State
  {
    var w, g := s.writer, s.shared;
    s.(writer := LookWriter(w, g, !s.producer.at.POutside?),
       shared := if w.at.WFail? then g.(accepting := false)
                 else if w.at.WClear? && Due(w.marker, g.read) then g.(markAt := NoMark) else g)
  }

  function MoveNext(s: State, outcome: Outcome, saved: nat, rate: nat): State
  {
    var w, g, d := s.writer, s.shared, s.disk;
    if w.at.WRotate? then
      var rotates := Rotates(d.bytes, g.read, w.marker);
      var count := ChunkSize(w.seen, g.read, w.marker);
      s.(disk := if rotates then Rotated(d, outcome) else d,
         writer := if rotates && !outcome.Works? then w.(at := WLoad, good := false)
                   else w.(at := WCopy, chunk := [], count := if count < 0 then 0 else count))
    else if w.at.WCopy? then
      var slot := ReadSlot(g.read, |w.chunk|);
      s.(writer := if |w.chunk| < 2 * w.count && slot < |g.ring| then w.(chunk := w.chunk + [g.ring[slot]])
                   else w.(at := WWrite))
    else if w.at.WWrite? then
      var frames := if saved < w.count then saved else w.count;
      s.(disk := Saved(d, w.chunk, frames),
         writer := w.(at := WAdvance, good := frames == w.count, frames := w.frames + frames))
    else if w.at.WAdvance? then
      s.(shared := g.(read := g.read + w.count), writer := w.(at := WHeader))
    else if w.at.WHeader? then
      if w.frames - w.lastHeader < rate then s.(writer := w.(at := WLoad))
      else s.(disk := if w.good && outcome.Works? then d.(current := d.current.(header := d.bytes)) else d,
              writer := w.(at := WLoad, good := w.good && outcome.Works?, lastHeader := w.frames))
    else
      s.(disk := if d.isOpen && outcome.Works? then d.(current := d.current.(header := d.bytes)) else d,
         writer := w.(at := WDone, good := w.good && outcome.Works?))
  }

  predicate Looks(at: WriterPoint)
  {
    at.WLoad? || at.WFail? || at.WAccepting? || at.WReaders? || at.WMarker? || at.WClear?
  }

  // ---- Marks and whole steps -----------------------------------------------------------

  // The end of what the writer will have written before it looks at a new mark.
  function Reach(w: Writer, read: nat, saved: nat): int
  {
    if w.at.WClear? || w.at.WRotate? then read + ChunkSize(w.seen, read, w.marker)
    else if w.at.WCopy? || w.at.WWrite? then read + w.count
    else saved
  }

  // The writer is about to begin a part at m.
  predicate BeginsAt(bytes: nat, w: Writer, read: nat, m: nat)
  {
    (w.at.WClear? || w.at.WRotate?) && m == read && Rotates(bytes, read, w.marker)
  }

  predicate Straddles(p: Part, mark: nat) { p.start < mark < End(p) }

  predicate InClosed(closed: seq<Part>, m: nat) { exists i :: 0 <= i < |closed| && Straddles(closed[i], m) }

  // A mark at m comes too late: frames from both sides of it are, or will be, in one part.
  predicate Inside(d: Disk, w: Writer, read: nat, m: nat)
  {
    || InClosed(d.closed, m)
    || (d.current.start < m < Reach(w, read, d.saved) && !BeginsAt(d.bytes, w, read, m))
  }

  function Marked(s: State, position: nat): State
  {
    if s.shared.markAt.At? then s
    else s.(shared := s.shared.(markAt := At(position)),
            past := s.past.(marks := s.past.marks + {position},
                            behind := s.past.behind || position < Reach(s.writer, s.shared.read, s.disk.saved),
                            inside := if Inside(s.disk, s.writer, s.shared.read, position)
                                      then s.past.inside + {position} else s.past.inside))
  }

  function Step(s: State, a: Action, rate: nat): State
  {
    match a
    case Offer(block) =>
      s.(producer := Producer(PAccepting, block, 0), past := s.past.(offered := s.past.offered + block))
    case ProducerStep(sameRate) => ProducerNext(s, sameRate)
    case WriterStep(outcome, saved) => if Looks(s.writer.at) then LookNext(s) else MoveNext(s, outcome, saved, rate)
    case StopAccepting => s.(shared := s.shared.(accepting := false))
    case MarkNow => Marked(s, s.shared.written)
    case LoadMark => s.(marking := At(s.shared.written))
    case StoreMark => if s.marking.At? then Marked(s, s.marking.position).(marking := NoMark) else s
  }

  // ---- Invariant -------------------------------------------------------------------

  // Unread samples are in the ring, and what a callback copies does not touch them.
  ghost predicate RingInv(ring: seq<Sample>, read: nat, written: nat, p: Producer, captured: seq<Sample>)
  {
    && |ring| == SAMPLES && |captured| == 2 * written && read <= written <= read + CAPACITY
    && (!p.at.POutside? ==> |p.block| % 2 == 0)
    && (forall n :: 2 * read <= n < |captured| ==> ring[Slot(n)] == captured[n])
    && (p.at.PCopy? || p.at.PPublish? ==>
          && written + |p.block| / 2 <= read + CAPACITY && p.next <= |p.block|
          && forall j :: 0 <= j < p.next ==> ring[Slot(2 * written + j)] == p.block[j])
    && (p.at.PPublish? ==> p.next == |p.block|)
  }

  // What was captured is what was offered up to the first refusal.
  predicate OfferInv(accepting: bool, p: Producer, offered: seq<Sample>, captured: seq<Sample>, refused: bool)
  {
    if refused then captured <= offered && !accepting && (p.at.POutside? || p.at.PAccepting?)
    else offered == captured + (if p.at.POutside? then [] else p.block)
  }

  predicate Busy(at: WriterPoint) { at.WMarker? || at.WClear? || at.WRotate? || at.WCopy? || at.WWrite? }

  predicate Holds(at: WriterPoint) { at.WCopy? || at.WWrite? || at.WAdvance? }

  // The writer's round: the chunk lies in what was written, and stops at a marker ahead.
  ghost predicate RoundInv(w: Writer, read: nat, captured: seq<Sample>)
  {
    && |captured| % 2 == 0
    && (Busy(w.at) ==> w.good && read < w.seen <= |captured| / 2)
    && (w.at.WAdvance? ==> read < w.seen <= |captured| / 2)
    && (Holds(w.at) ==>
          && 1 <= w.count <= CHUNK && read + w.count <= w.seen && |w.chunk| <= 2 * w.count
          && (w.marker.At? && w.marker.position > read ==> read + w.count <= w.marker.position)
          && w.chunk == captured[2 * read..2 * read + |w.chunk|])
    && (w.at.WWrite? || w.at.WAdvance? ==> |w.chunk| == 2 * w.count)
    && (w.at.WAccepting? || w.at.WReaders? ==> w.good)
    && (w.at.WFail? ==> !w.good)
    && w.lastHeader <= w.frames
  }

  // All samples of closed parts.
  function Joined(parts: seq<Part>): (codes: seq<int>)
  {
    if parts == [] then [] else Joined(parts[..|parts| - 1]) + parts[|parts| - 1].codes
  }

  // The parts hold a prefix of the captured samples, everything before the read position as
  // long as no write failed.
  ghost predicate DataInv(d: Disk, w: Writer, read: nat, captured: seq<Sample>)
  {
    && 2 * d.saved <= |captured|
    && Joined(d.closed) + d.current.codes == QuantisedAll(captured[..2 * d.saved])
    && (w.good ==> d.isOpen && d.saved == read + (if w.at.WAdvance? then w.count else 0))
  }

  // Where the part after the i-th closed one begins.
  function NextStart(closed: seq<Part>, start: nat, i: nat): nat
    requires i < |closed|
  {
    if i + 1 < |closed| then closed[i + 1].start else start
  }

  // Closed parts follow one another without gap or overlap up to the current one, none is
  // empty, and each header has the length of its data.
  ghost predicate Links(closed: seq<Part>, start: nat, good: bool)
  {
    && (if closed == [] then start == 0 else closed[0].start == 0)
    && (forall i :: 0 <= i < |closed| ==>
          var p := closed[i];
          && |p.codes| > 0 && |p.codes| % 2 == 0 && 3 * |p.codes| < ROTATE_AT + 6 * CHUNK
          && End(p) == NextStart(closed, start, i)
          && p.header <= 3 * |p.codes| && (p.header == 3 * |p.codes| || (i == |closed| - 1 && !good)))
  }

  ghost predicate ChainInv(d: Disk, w: Writer)
  {
    && d.current.start <= d.saved && |d.current.codes| == 2 * (d.saved - d.current.start)
    && d.bytes == 3 * |d.current.codes| && d.current.header <= d.bytes
    && (w.at.WDone? && w.good ==> d.current.header == d.bytes)
    && (w.good && !w.at.WCopy? && !w.at.WWrite? ==> d.bytes > 0 || d.saved == 0)
    && d.bytes < ROTATE_AT + 6 * CHUNK && (w.at.WCopy? || w.at.WWrite? ==> d.bytes < ROTATE_AT)
    && Links(d.closed, d.current.start, w.good)
  }

  // A part ends at a mark or when it is full.
  ghost predicate EarnedInv(closed: seq<Part>, marks: set<nat>, behind: bool)
  {
    !behind ==>
      forall i :: 0 <= i < |closed| ==> 3 * |closed[i].codes| >= ROTATE_AT || End(closed[i]) in marks
  }

  // The accepted marks inside a part are those that already were when they were accepted, and
  // all of those as long as no write fails.
  ghost predicate ApartInv(d: Disk, w: Writer, read: nat, marks: set<nat>, inside: set<nat>)
  {
    && inside <= marks
    && (forall m :: m in marks && Inside(d, w, read, m) ==> m in inside)
    && (w.good ==> forall m :: m in inside ==> Inside(d, w, read, m))
  }

  // The only other marks ahead of the current part's start are the pending one and the one at
  // which the part is about to end.
  ghost predicate AheadInv(markAt: Mark, d: Disk, w: Writer, read: nat, marks: set<nat>, inside: set<nat>)
  {
    w.good ==>
      forall m :: m in marks && m !in inside && m > d.current.start ==>
        markAt == At(m) || (w.at.WRotate? && BeginsAt(d.bytes, w, read, m))
  }

  // The pending mark was accepted, and so was the one the writer loaded.
  predicate LoadedInv(markAt: Mark, w: Writer, marks: set<nat>)
  {
    && (markAt.At? ==> markAt.position in marks)
    && (w.at.WClear? && w.marker.At? ==> markAt == w.marker)
    && (w.at.WRotate? && w.marker.At? ==> w.marker.position in marks)
  }

  // The pending mark is not behind, and a mark that is due is due exactly now.
  predicate PendingInv(markAt: Mark, w: Writer, read: nat, saved: nat, behind: bool)
  {
    !behind && w.good ==>
      && (markAt.At? ==> markAt.position >= Reach(w, read, saved) || (w.at.WClear? && Due(w.marker, read)))
      && ((w.at.WClear? || w.at.WRotate?) && Due(w.marker, read) ==> w.marker.position == read)
  }

  ghost predicate MarksInv(markAt: Mark, d: Disk, w: Writer, read: nat, marks: set<nat>, behind: bool, inside: set<nat>)
  {
    && LoadedInv(markAt, w, marks)
    && ApartInv(d, w, read, marks, inside)
    && AheadInv(markAt, d, w, read, marks, inside)
    && PendingInv(markAt, w, read, d.saved, behind)
    && EarnedInv(d.closed, marks, behind)
    && (inside != {} ==> behind)
  }

  ghost predicate Inv(s: State)
  {
    && RingInv(s.shared.ring, s.shared.read, s.shared.written, s.producer, s.past.captured)
    && OfferInv(s.shared.accepting, s.producer, s.past.offered, s.past.captured, s.past.refused)
    && RoundInv(s.writer, s.shared.read, s.past.captured)
    && DataInv(s.disk, s.writer, s.shared.read, s.past.captured)
    && ChainInv(s.disk, s.writer)
    && MarksInv(s.shared.markAt, s.disk, s.writer, s.shared.read, s.past.marks, s.past.behind, s.past.inside)
  }

  lemma {:induction false} InitialInv(s: State)
    requires Initial(s)
    ensures Inv(s)
  {
  }

  // ---- Steps of the callback and of the control thread ---------------------------------

  lemma {:induction false} SlotsApart(from: nat, to: nat)
    requires from <= to < from + SAMPLES
    ensures forall n :: from <= n < to ==> Slot(n) != Slot(to)
  {
  }

  lemma {:induction false} CopyKeepsRing(ring: seq<Sample>, read: nat, written: nat, p: Producer, captured: seq<Sample>)
    requires RingInv(ring, read, written, p, captured) && p.at.PCopy? && p.next < |p.block|
    ensures RingInv(Stored(ring, CaptureSlot(written, p.next / 2, p.next % 2), p.block[p.next]),
                    read, written, p.(next := p.next + 1), captured)
  {
    var to := 2 * written + p.next;
    SlotsAgree(written, p.next);
    SlotsApart(2 * read, to);
    hide Slot, CaptureSlot, ReadSlot;
    var after := Stored(ring, Slot(to), p.block[p.next]);
    assert after == ring[Slot(to) := p.block[p.next]];
    forall j | 0 <= j < p.next ensures after[Slot(2 * written + j)] == p.block[j] {
      assert Slot(2 * written + j) != Slot(to);
    }
  }

  lemma {:induction false} PublishKeepsRing(ring: seq<Sample>, read: nat, written: nat, p: Producer,
                                            captured: seq<Sample>)
    requires RingInv(ring, read, written, p, captured) && p.at.PPublish?
    ensures RingInv(ring, read, written + |p.block| / 2, p.(at := POutside), captured + p.block)
  {
    hide Slot;
    var more := captured + p.block;
    forall n | 2 * read <= n < |more| ensures ring[Slot(n)] == more[n] {
      if n >= |captured| {
        assert more[n] == p.block[n - |captured|];
        assert ring[Slot(2 * written + (n - |captured|))] == p.block[n - |captured|];
      }
    }
  }

  // More captured samples change nothing for the writer.
  lemma {:induction false} CaptureKeepsWriter(w: Writer, d: Disk, read: nat, captured: seq<Sample>, block: seq<Sample>)
    requires RoundInv(w, read, captured) && DataInv(d, w, read, captured) && |block| % 2 == 0
    ensures RoundInv(w, read, captured + block) && DataInv(d, w, read, captured + block)
  {
    hide Joined;
    assert (captured + block)[..2 * d.saved] == captured[..2 * d.saved];
    if Holds(w.at) {
      var from, to := 2 * read, 2 * read + |w.chunk|;
      assert (captured + block)[from..to] == captured[from..to];
    }
  }

  lemma {:induction false} ProducerKeeps(s: State, sameRate: bool)
    requires Inv(s) && !s.producer.at.POutside?
    ensures Inv(ProducerNext(s, sameRate))
  {
    if s.producer.at.PPublish? {
      PublishKeeps(s, sameRate);
    } else if s.producer.at.PCopy? && s.producer.next < |s.producer.block| {
      CaptureKeeps(s, sameRate);
    } else {
      AdmitKeeps(s, sameRate);
    }
    hide Inv, ProducerNext;
  }

  lemma {:induction false} PublishKeeps(s: State, sameRate: bool)
    requires Inv(s) && s.producer.at.PPublish?
    ensures Inv(ProducerNext(s, sameRate))
  {
    PublishKeepsRing(s.shared.ring, s.shared.read, s.shared.written, s.producer, s.past.captured);
    assert |s.producer.block| % 2 == 0;
    CaptureKeepsWriter(s.writer, s.disk, s.shared.read, s.past.captured, s.producer.block);
    hide RingInv, RoundInv, DataInv, ChainInv, MarksInv, Slot, CaptureSlot, Stored;
  }

  lemma {:induction false} CaptureKeeps(s: State, sameRate: bool)
    requires Inv(s) && s.producer.at.PCopy? && s.producer.next < |s.producer.block|
    ensures Inv(ProducerNext(s, sameRate))
  {
    hide RingInv, RoundInv, DataInv, ChainInv, MarksInv, Slot, CaptureSlot, Stored;
    CopyKeepsRing(s.shared.ring, s.shared.read, s.shared.written, s.producer, s.past.captured);
  }

  lemma {:induction false} AdmitKeeps(s: State, sameRate: bool)
    requires Inv(s) && !s.producer.at.POutside? && !s.producer.at.PPublish?
    requires s.producer.at.PCopy? ==> s.producer.next == |s.producer.block|
    ensures Inv(ProducerNext(s, sameRate))
  {
    hide RoundInv, DataInv, ChainInv, MarksInv, Slot;
  }

  // Closed parts end where the current one begins or earlier.
  lemma {:induction false} ClosedEnds(closed: seq<Part>, start: nat, good: bool, i: nat)
    requires Links(closed, start, good) && i < |closed|
    ensures End(closed[i]) <= start
    decreases |closed| - i
  {
    var next := NextStart(closed, start, i);
    assert End(closed[i]) == next;
    if i + 1 < |closed| {
      ClosedEnds(closed, start, good, i + 1);
      hide Links;
      assert next == closed[i + 1].start <= End(closed[i + 1]);
    }
  }

  // What the marks say needs no more of a state than this.
  lemma {:induction false} MarksFacts(s: State)
    requires Inv(s)
    ensures s.disk.current.start <= s.disk.saved <= Reach(s.writer, s.shared.read, s.disk.saved) <= s.shared.written
    ensures s.disk.bytes == 6 * (s.disk.saved - s.disk.current.start)
    ensures s.writer.good ==> s.disk.saved == s.shared.read + (if s.writer.at.WAdvance? then s.writer.count else 0)
    ensures Links(s.disk.closed, s.disk.current.start, s.writer.good)
  {
    hide Joined, QuantisedAll, OfferInv, Slot, MarksInv, Links;
  }

  lemma {:induction false} InsideIsBehind(closed: seq<Part>, start: nat, good: bool, m: nat)
    requires Links(closed, start, good) && InClosed(closed, m)
    ensures m < start
  {
    var i :| 0 <= i < |closed| && Straddles(closed[i], m);
    ClosedEnds(closed, start, good, i);
    hide Links;
  }

  lemma {:induction false} MarkedKeeps(s: State, position: nat)
    requires Inv(s)
    ensures Inv(Marked(s, position))
  {
    if s.shared.markAt.NoMark? {
      MarksFacts(s);
      var d, past := s.disk, s.past;
      var reach := Reach(s.writer, s.shared.read, d.saved);
      hide RingInv, ChainInv, DataInv, RoundInv, OfferInv, Links, Reach, MarksInv;
      var inside := Inside(d, s.writer, s.shared.read, position);
      if inside && position >= reach {
        InsideIsBehind(d.closed, d.current.start, s.writer.good, position);
      }
      AcceptKeepsMarks(d, s.writer, s.shared.read, past.marks, past.behind, past.inside, position);
    }
  }

  lemma {:induction false} AcceptKeepsMarks(d: Disk, w: Writer, read: nat, marks: set<nat>, behind: bool,
                                            inside: set<nat>, m: nat)
    requires MarksInv(NoMark, d, w, read, marks, behind, inside)
    requires Inside(d, w, read, m) ==> m < Reach(w, read, d.saved)
    ensures MarksInv(At(m), d, w, read, marks + {m}, behind || m < Reach(w, read, d.saved),
                     if Inside(d, w, read, m) then inside + {m} else inside)
  {
    hide Inside, Reach, BeginsAt;
  }

  // ---- Steps of the writer --------------------------------------------------------------

  lemma {:induction false} LookKeeps(s: State)
    requires Inv(s) && Looks(s.writer.at)
    ensures Inv(LookNext(s))
  {
    var capturing := !s.producer.at.POutside?;
    assert |s.past.captured| == 2 * s.shared.written && s.shared.read <= s.shared.written;
    LookKeepsDisk(s.disk, s.writer, s.shared, capturing, s.past.captured);
    LookKeepsRound(s.writer, s.shared, capturing, s.past.captured);
    MarksFacts(s);
    LookKeepsMarks(s.disk, s.writer, s.shared, capturing, s.past.marks, s.past.behind, s.past.inside);
    hide RingInv, RoundInv, DataInv, ChainInv, MarksInv, LookWriter, Joined, QuantisedAll;
  }

  lemma {:induction false} LookKeepsDisk(d: Disk, w: Writer, g: Shared, capturing: bool, captured: seq<Sample>)
    requires DataInv(d, w, g.read, captured) && ChainInv(d, w) && Looks(w.at)
    ensures var v := LookWriter(w, g, capturing); DataInv(d, v, g.read, captured) && ChainInv(d, v)
  {
    hide Joined, QuantisedAll, Links;
  }

  lemma {:induction false} LookKeepsRound(w: Writer, g: Shared, capturing: bool, captured: seq<Sample>)
    requires RoundInv(w, g.read, captured) && Looks(w.at) && |captured| == 2 * g.written && g.read <= g.written
    ensures RoundInv(LookWriter(w, g, capturing), g.read, captured)
  {
  }

  // Nothing changes for the marks while the writer is committed to the same frames.
  lemma {:induction false} MarksStay(markAt: Mark, d: Disk, w: Writer, read: nat, e: Disk, v: Writer, after: nat,
                                     marks: set<nat>, behind: bool, inside: set<nat>)
    requires MarksInv(markAt, d, w, read, marks, behind, inside)
    requires e.closed == d.closed && e.current.start == d.current.start && (v.good ==> w.good)
    requires !w.at.WClear? && !w.at.WRotate? && !v.at.WClear? && !v.at.WRotate?
    requires Reach(v, after, e.saved) <= Reach(w, read, d.saved)
    requires v.good ==> Reach(v, after, e.saved) == Reach(w, read, d.saved)
    ensures MarksInv(markAt, e, v, after, marks, behind, inside)
  {
    hide EarnedInv, InClosed, Reach;
    assert forall m: nat :: Inside(e, v, after, m) ==> Inside(d, w, read, m);
    assert v.good ==> forall m: nat :: Inside(d, w, read, m) ==> Inside(e, v, after, m);
  }

  // Loading the marker commits the writer to frames up to it.
  lemma {:induction false} LoadKeepsMarks(markAt: Mark, d: Disk, w: Writer, v: Writer, read: nat, marks: set<nat>,
                                          behind: bool, inside: set<nat>)
    requires MarksInv(markAt, d, w, read, marks, behind, inside)
    requires w.at.WMarker? && v == w.(marker := markAt, at := WClear) && (w.good ==> d.saved == read < w.seen)
    requires w.good && d.bytes == 6 * (d.saved - d.current.start) && d.current.start <= d.saved
    ensures MarksInv(markAt, d, v, read, marks, behind, inside)
  {
    hide EarnedInv, InClosed;
    assert forall m: nat :: Inside(d, w, read, m) ==> Inside(d, v, read, m);
  }

  lemma {:induction false} ClearKeepsMarks(markAt: Mark, d: Disk, w: Writer, read: nat, marks: set<nat>, behind: bool,
                                           inside: set<nat>)
    requires MarksInv(markAt, d, w, read, marks, behind, inside) && w.at.WClear? && w.good && read < w.seen
    ensures MarksInv(if Due(w.marker, read) then NoMark else markAt, d, w.(at := WRotate), read, marks, behind, inside)
  {
    hide EarnedInv, InClosed;
    assert forall m: nat :: Inside(d, w, read, m) <==> Inside(d, w.(at := WRotate), read, m);
  }

  lemma {:induction false} LookKeepsMarks(d: Disk, w: Writer, g: Shared, capturing: bool, marks: set<nat>, behind: bool,
                                          inside: set<nat>)
    requires Looks(w.at) && MarksInv(g.markAt, d, w, g.read, marks, behind, inside)
    requires w.at.WMarker? || w.at.WClear? ==> w.good && d.saved == g.read < w.seen
    requires d.bytes == 6 * (d.saved - d.current.start) && d.current.start <= d.saved
    ensures var v := LookWriter(w, g, capturing);
      MarksInv(if w.at.WClear? && Due(w.marker, g.read) then NoMark else g.markAt, d, v, g.read, marks, behind, inside)
  {
    hide MarksInv;
    if w.at.WMarker? {
      LoadKeepsMarks(g.markAt, d, w, LookWriter(w, g, capturing), g.read, marks, behind, inside);
    } else if w.at.WClear? {
      ClearKeepsMarks(g.markAt, d, w, g.read, marks, behind, inside);
    } else {
      MarksStay(g.markAt, d, w, g.read, d, LookWriter(w, g, capturing), g.read, marks, behind, inside);
    }
  }

  lemma {:induction false} JoinedAppend(parts: seq<Part>, p: Part)
    ensures Joined(parts + [p]) == Joined(parts) + p.codes
  {
    assert (parts + [p])[..|parts|] == parts;
  }

  lemma {:induction false} RotateKeepsData(d: Disk, header: nat, w: Writer, v: Writer, read: nat, captured: seq<Sample>,
                                           isOpen: bool)
    requires DataInv(d, w, read, captured) && w.good && w.at.WRotate?
    requires v.good ==> isOpen && !v.at.WAdvance?
    ensures DataInv(Closed(d, header).(isOpen := isOpen), v, read, captured)
  {
    JoinedAppend(d.closed, d.current.(header := header));
    hide Joined, QuantisedAll;
  }

  lemma {:induction false} RotateKeepsLinks(closed: seq<Part>, p: Part, good: bool)
    requires Links(closed, p.start, true) && |p.codes| > 0 && |p.codes| % 2 == 0
    requires 3 * |p.codes| < ROTATE_AT + 6 * CHUNK && p.header <= 3 * |p.codes|
    requires good ==> p.header == 3 * |p.codes|
    ensures Links(closed + [p], End(p), good)
  {
    var after := closed + [p];
    forall i | 0 <= i < |closed| ensures NextStart(after, End(p), i) == NextStart(closed, p.start, i) {
      assert after[i] == closed[i];
    }
  }

  lemma {:induction false} RotateKeepsChain(d: Disk, header: nat, w: Writer, v: Writer, isOpen: bool)
    requires ChainInv(d, w) && d.bytes > 0 && w.good && header <= d.bytes
    requires v.good ==> header == d.bytes && v.at.WCopy?
    ensures ChainInv(Closed(d, header).(isOpen := isOpen), v)
  {
    RotateKeepsLinks(d.closed, d.current.(header := header), v.good);
    hide Links;
  }

  // A part ends at a due mark or when it is full, and the next one begins at the read position.
  lemma {:induction false} RotateKeepsMarks(markAt: Mark, d: Disk, header: nat, isOpen: bool, w: Writer, v: Writer,
                                            read: nat, marks: set<nat>, behind: bool, inside: set<nat>)
    requires MarksInv(markAt, d, w, read, marks, behind, inside) && w.at.WRotate? && Rotates(d.bytes, read, w.marker)
    requires d.saved == read == End(d.current) && d.bytes == 3 * |d.current.codes| && w.good && read < w.seen
    requires v.good ==> v.at.WCopy? && v.count == ChunkSize(w.seen, read, w.marker)
    requires !v.good ==> v.at.WLoad?
    ensures MarksInv(markAt, Closed(d, header).(isOpen := isOpen), v, read, marks, behind, inside)
  {
    var e := Closed(d, header).(isOpen := isOpen);
    assert EarnedInv(e.closed, marks, behind);
    hide EarnedInv, InClosed;
    forall m: nat
      ensures Inside(e, v, read, m) ==> Inside(d, w, read, m)
      ensures v.good && Inside(d, w, read, m) ==> Inside(e, v, read, m)
    {
      ClosedAppends(d.closed, d.current.(header := header), m);
    }
  }

  lemma {:induction false} ContinueKeepsMarks(markAt: Mark, d: Disk, w: Writer, v: Writer, read: nat, marks: set<nat>,
                                              behind: bool, inside: set<nat>)
    requires MarksInv(markAt, d, w, read, marks, behind, inside) && w.at.WRotate? && !Rotates(d.bytes, read, w.marker)
    requires d.saved == read == End(d.current) && d.bytes == 3 * |d.current.codes| && w.good
    requires v.good && v.at.WCopy? && v.count == ChunkSize(w.seen, read, w.marker)
    ensures MarksInv(markAt, d, v, read, marks, behind, inside)
  {
    hide EarnedInv, InClosed;
    assert forall m: nat :: Inside(d, w, read, m) <==> Inside(d, v, read, m);
  }

  lemma {:induction false} ClosedAppends(closed: seq<Part>, p: Part, m: nat)
    ensures InClosed(closed + [p], m) <==> InClosed(closed, m) || Straddles(p, m)
  {
    var after := closed + [p];
    if InClosed(closed, m) {
      var i :| 0 <= i < |closed| && Straddles(closed[i], m);
      assert Straddles(after[i], m);
    }
    if Straddles(p, m) {
      assert Straddles(after[|closed|], m);
    }
  }

  lemma {:induction false} RotateKeepsRound(read: nat, w: Writer, v: Writer, captured: seq<Sample>)
    requires RoundInv(w, read, captured) && w.at.WRotate?
    requires v == w.(at := WLoad, good := false) ||
             v == w.(at := WCopy, chunk := [], count := ChunkSize(w.seen, read, w.marker) as int)
    ensures RoundInv(v, read, captured)
  {
  }

  lemma {:induction false} RotateKeeps(s: State, outcome: Outcome, saved: nat, rate: nat)
    requires Inv(s) && s.writer.at.WRotate?
    ensures Inv(MoveNext(s, outcome, saved, rate))
  {
    var w, d, read, captured := s.writer, s.disk, s.shared.read, s.past.captured;
    var v := MoveNext(s, outcome, saved, rate).writer;
    assert w.good && read < w.seen && d.saved == read == End(d.current) && d.current.header <= d.bytes
           && d.bytes == 3 * |d.current.codes| && d.isOpen;
    RotateKeepsRound(read, w, v, captured);
    if Rotates(d.bytes, read, w.marker) {
      var header := if outcome.HeaderFails? then d.current.header else d.bytes;
      var isOpen := outcome.Works? || outcome.BeginFails?;
      RotateKeepsData(d, header, w, v, read, captured, isOpen);
      RotateKeepsChain(d, header, w, v, isOpen);
      RotateKeepsMarks(s.shared.markAt, d, header, isOpen, w, v, read, s.past.marks, s.past.behind,
                       s.past.inside);
    } else {
      ContinueKeepsMarks(s.shared.markAt, d, w, v, read, s.past.marks, s.past.behind, s.past.inside);
      assert DataInv(d, v, read, captured) && ChainInv(d, v) by { hide Joined, QuantisedAll; }
    }
    hide RingInv, RoundInv, DataInv, ChainInv, MarksInv, OfferInv;
  }

  lemma {:induction false} CopyKeeps(s: State, outcome: Outcome, saved: nat, rate: nat)
    requires Inv(s) && s.writer.at.WCopy?
    ensures Inv(MoveNext(s, outcome, saved, rate))
  {
    var v := MoveNext(s, outcome, saved, rate).writer;
    CopyKeepsRound(s, v);
    MarksStay(s.shared.markAt, s.disk, s.writer, s.shared.read, s.disk, v, s.shared.read, s.past.marks, s.past.behind,
              s.past.inside);
    assert DataInv(s.disk, v, s.shared.read, s.past.captured) && ChainInv(s.disk, v) by { hide Joined, QuantisedAll; }
    hide RingInv, RoundInv, DataInv, ChainInv, MarksInv, OfferInv;
  }

  lemma {:induction false} CopyKeepsRound(s: State, v: Writer)
    requires Inv(s) && s.writer.at.WCopy? && v == MoveNext(s, Works, 0, 0).writer
    ensures RoundInv(v, s.shared.read, s.past.captured)
  {
    var w, read, captured := s.writer, s.shared.read, s.past.captured;
    hide Slot, ReadSlot, CaptureSlot, Joined, QuantisedAll, DataInv, ChainInv, MarksInv, OfferInv;
    SlotsAgree(read, |w.chunk|);
    var n := 2 * read + |w.chunk|;
    if |w.chunk| < 2 * w.count {
      assert s.shared.ring[Slot(n)] == captured[n];
      CopyOne(w, read, captured);
      assert v == w.(chunk := w.chunk + [captured[n]]);
    }
    hide RingInv;
  }

  lemma {:induction false} CopyOne(w: Writer, read: nat, captured: seq<Sample>)
    requires RoundInv(w, read, captured) && w.at.WCopy? && |w.chunk| < 2 * w.count
    ensures 2 * read + |w.chunk| < |captured|
    ensures RoundInv(w.(chunk := w.chunk + [captured[2 * read + |w.chunk|]]), read, captured)
  {
    var n := 2 * read + |w.chunk|;
    assert captured[2 * read..n + 1] == captured[2 * read..n] + [captured[n]];
  }

  lemma QuantisedAppend(a: seq<Sample>, b: seq<Sample>)
    ensures QuantisedAll(a + b) == QuantisedAll(a) + QuantisedAll(b)
  {
  }

  lemma {:induction false} WriteKeepsData(d: Disk, w: Writer, v: Writer, read: nat, captured: seq<Sample>, frames: nat)
    requires DataInv(d, w, read, captured) && RoundInv(w, read, captured) && w.at.WWrite? && frames <= w.count
    requires v.at.WAdvance? && v.count == w.count && (v.good ==> frames == w.count)
    ensures DataInv(Saved(d, w.chunk, frames), v, read, captured)
  {
    hide Joined, QuantisedAll;
    var from, to := 2 * d.saved, 2 * (d.saved + frames);
    SliceOfSlice(captured, from, from + |w.chunk|, 2 * frames);
    QuantisedAppend(captured[..from], captured[from..to]);
    assert captured[..to] == captured[..from] + captured[from..to];
    var more := QuantisedAll(captured[from..to]);
    assert Joined(d.closed) + (d.current.codes + more) == Joined(d.closed) + d.current.codes + more;
  }

  lemma SliceOfSlice(s: seq<Sample>, from: nat, to: nat, n: nat)
    requires from <= to <= |s| && n <= to - from
    ensures s[from..to][..n] == s[from..from + n]
  {
  }

  lemma {:induction false} SavedGrows(d: Disk, chunk: seq<Sample>, frames: nat)
    requires 2 * frames <= |chunk|
    ensures var e := Saved(d, chunk, frames);
      && e.closed == d.closed && e.current.start == d.current.start && e.current.header == d.current.header
      && |e.current.codes| == |d.current.codes| + 2 * frames && e.bytes == d.bytes + 6 * frames
      && e.saved == d.saved + frames
  {
    hide QuantisedAll;
  }

  lemma {:induction false} WriteKeepsChain(d: Disk, w: Writer, v: Writer, frames: nat)
    requires ChainInv(d, w) && w.at.WWrite? && frames <= CHUNK && 2 * frames <= |w.chunk| && w.good
    requires v.at.WAdvance? && (v.good ==> frames > 0)
    ensures ChainInv(Saved(d, w.chunk, frames), v)
  {
    SavedGrows(d, w.chunk, frames);
    LinksDegrade(d.closed, d.current.start, v.good);
    hide Links, Saved;
  }

  lemma LinksDegrade(closed: seq<Part>, start: nat, good: bool)
    requires Links(closed, start, true)
    ensures Links(closed, start, good)
  {
  }

  // What the round keeps while the writer saves and advances.
  lemma {:induction false} SaveKeepsRound(read: nat, w: Writer, v: Writer, captured: seq<Sample>)
    requires RoundInv(w, read, captured) && w.at.WWrite?
    requires v == w.(at := WAdvance, good := v.good, frames := v.frames) && v.frames >= w.frames
    ensures RoundInv(v, read, captured)
  {
  }

  lemma {:induction false} AdvanceKeepsRound(read: nat, w: Writer, d: Disk, captured: seq<Sample>)
    requires RoundInv(w, read, captured) && w.at.WAdvance? && DataInv(d, w, read, captured) && ChainInv(d, w)
    ensures var v := w.(at := WHeader);
      RoundInv(v, read + w.count, captured) && DataInv(d, v, read + w.count, captured) && ChainInv(d, v)
  {
    hide Joined, QuantisedAll;
  }

  lemma {:induction false} WriteKeeps(s: State, outcome: Outcome, saved: nat, rate: nat)
    requires Inv(s) && s.writer.at.WWrite?
    ensures Inv(MoveNext(s, outcome, saved, rate))
  {
    var w, d, read, captured := s.writer, s.disk, s.shared.read, s.past.captured;
    var t := MoveNext(s, outcome, saved, rate);
    var frames := if saved < w.count then saved else w.count;
    assert w.good && 1 <= w.count <= CHUNK && |w.chunk| == 2 * w.count && d.saved == read;
    hide RingInv, RoundInv, DataInv, ChainInv, MarksInv, OfferInv, Saved, Joined, QuantisedAll;
    WriteKeepsData(d, w, t.writer, read, captured, frames);
    WriteKeepsChain(d, w, t.writer, frames);
    SavedGrows(d, w.chunk, frames);
    SaveKeepsRound(read, w, t.writer, captured);
    MarksStay(s.shared.markAt, d, w, read, t.disk, t.writer, read, s.past.marks, s.past.behind, s.past.inside);
  }

  lemma {:induction false} AdvanceKeepsRing(ring: seq<Sample>, read: nat, written: nat, p: Producer,
                                            captured: seq<Sample>, count: nat)
    requires RingInv(ring, read, written, p, captured) && read + count <= written
    ensures RingInv(ring, read + count, written, p, captured)
  {
    hide Slot;
  }

  lemma {:induction false} AdvanceIsInside(ring: seq<Sample>, read: nat, written: nat, p: Producer, w: Writer,
                                           captured: seq<Sample>)
    requires RingInv(ring, read, written, p, captured) && RoundInv(w, read, captured) && w.at.WAdvance?
    ensures read + w.count <= written
  {
    hide Slot;
  }

  lemma {:induction false} AdvanceKeeps(s: State, outcome: Outcome, saved: nat, rate: nat)
    requires Inv(s) && s.writer.at.WAdvance?
    ensures Inv(MoveNext(s, outcome, saved, rate))
  {
    var g, w, captured := s.shared, s.writer, s.past.captured;
    hide RingInv, RoundInv, DataInv, ChainInv, MarksInv, OfferInv, Joined, QuantisedAll, Slot;
    AdvanceIsInside(g.ring, g.read, g.written, s.producer, w, captured);
    AdvanceKeepsRing(g.ring, g.read, g.written, s.producer, captured, w.count);
    AdvanceKeepsRound(g.read, w, s.disk, captured);
    MarksStay(g.markAt, s.disk, w, g.read, s.disk, w.(at := WHeader), g.read + w.count, s.past.marks, s.past.behind,
              s.past.inside);
    var t := MoveNext(s, outcome, saved, rate);
    assert t == s.(shared := g.(read := g.read + w.count), writer := w.(at := WHeader));
    hide MoveNext;
  }

  // Writing the header changes nothing but the header.
  predicate OnlyHeader(d: Disk, e: Disk)
  {
    e == d || e == d.(current := d.current.(header := d.bytes))
  }

  lemma {:induction false} HeaderKeepsData(d: Disk, e: Disk, w: Writer, v: Writer, read: nat, captured: seq<Sample>)
    requires OnlyHeader(d, e) && !w.at.WAdvance? && !v.at.WAdvance? && (v.good ==> w.good)
    requires DataInv(d, w, read, captured)
    ensures DataInv(e, v, read, captured)
  {
    hide Joined, QuantisedAll;
  }

  lemma OpenWhileGood(d: Disk, w: Writer, read: nat, captured: seq<Sample>)
    requires DataInv(d, w, read, captured)
    ensures w.good ==> d.isOpen
  {
    hide Joined, QuantisedAll;
  }

  lemma {:induction false} HeaderKeepsChain(d: Disk, e: Disk, w: Writer, v: Writer)
    requires OnlyHeader(d, e) && !v.at.WCopy? && !v.at.WWrite? && (v.good ==> w.good) && ChainInv(d, w)
    requires w.at.WHeader? || w.at.WFinish?
    requires v.at.WDone? && v.good ==> e.current.header == d.bytes
    ensures ChainInv(e, v)
    ensures e.closed == d.closed && e.current.start == d.current.start && e.saved == d.saved
  {
  }

  lemma {:induction false} HeaderKeepsRound(w: Writer, v: Writer, read: nat, captured: seq<Sample>)
    requires RoundInv(w, read, captured) && (v.at.WLoad? || v.at.WDone?) && v.lastHeader <= v.frames
    ensures RoundInv(v, read, captured)
  {
  }

  lemma {:induction false} FinishKeeps(s: State, outcome: Outcome, saved: nat, rate: nat)
    requires Inv(s) && (s.writer.at.WHeader? || s.writer.at.WFinish?)
    ensures Inv(MoveNext(s, outcome, saved, rate))
  {
    var t := MoveNext(s, outcome, saved, rate);
    var captured, past, read := s.past.captured, s.past, s.shared.read;
    assert s.writer.lastHeader <= s.writer.frames;
    hide RingInv, RoundInv, DataInv, ChainInv, MarksInv, OfferInv, Joined, QuantisedAll;
    assert s.writer.good ==> s.disk.isOpen by {
      OpenWhileGood(s.disk, s.writer, read, captured);
    }
    HeaderKeepsData(s.disk, t.disk, s.writer, t.writer, read, captured);
    HeaderKeepsChain(s.disk, t.disk, s.writer, t.writer);
    HeaderKeepsRound(s.writer, t.writer, read, captured);
    MarksStay(s.shared.markAt, s.disk, s.writer, read, t.disk, t.writer, read, past.marks, past.behind, past.inside);
  }

  lemma {:induction false} StepKeeps(s: State, a: Action, rate: nat)
    requires Inv(s) && Enabled(s, a)
    ensures Inv(Step(s, a, rate))
  {
    if a.WriterStep? {
      if Looks(s.writer.at) {
        LookKeeps(s);
      } else if s.writer.at.WRotate? {
        RotateKeeps(s, a.outcome, a.saved, rate);
      } else if s.writer.at.WCopy? {
        CopyKeeps(s, a.outcome, a.saved, rate);
      } else if s.writer.at.WWrite? {
        WriteKeeps(s, a.outcome, a.saved, rate);
      } else if s.writer.at.WAdvance? {
        AdvanceKeeps(s, a.outcome, a.saved, rate);
      } else {
        FinishKeeps(s, a.outcome, a.saved, rate);
      }
    } else if a.ProducerStep? {
      ProducerKeeps(s, a.sameRate);
    } else if a.Offer? {
      OfferKeeps(s, a.block);
    } else if a.MarkNow? {
      MarkedKeeps(s, s.shared.written);
    } else if a.StoreMark? {
      MarkedKeeps(s, s.marking.position);
    }
    hide RingInv, RoundInv, DataInv, ChainInv, MarksInv, ProducerNext, LookNext, MoveNext, Marked;
  }

  lemma {:induction false} OfferKeeps(s: State, block: seq<Sample>)
    requires Inv(s) && Enabled(s, Offer(block))
    ensures Inv(Step(s, Offer(block), 0))
  {
    hide RoundInv, DataInv, ChainInv, MarksInv, Slot;
  }

  // ---- Whole runs -----------------------------------------------------------------------

  ghost predicate IsRun(run: seq<State>, actions: seq<Action>, rate: nat)
  {
    && |run| == |actions| + 1 && Initial(run[0])
    && forall i :: 0 <= i < |actions| ==> Enabled(run[i], actions[i]) && run[i + 1] == Step(run[i], actions[i], rate)
  }

  lemma {:induction false} RunKeeps(run: seq<State>, actions: seq<Action>, rate: nat, k: nat)
    requires IsRun(run, actions, rate) && k < |run|
    ensures Inv(run[k])
  {
    hide Inv, Step;
    if k == 0 {
      InitialInv(run[0]);
    } else {
      RunKeeps(run, actions, rate, k - 1);
      StepKeeps(run[k - 1], actions[k - 1], rate);
    }
  }

  /** The samples of all parts, one after the other, are a prefix of what was captured, and
      that is everything offered up to the first block that was refused. */
  lemma {:induction false} PartsArePrefix(run: seq<State>, actions: seq<Action>, rate: nat, k: nat)
    requires IsRun(run, actions, rate) && k < |run|
    ensures var d, past := run[k].disk, run[k].past;
      && Joined(d.closed + [d.current]) <= QuantisedAll(past.captured)
      && past.captured <= past.offered
      && (!past.refused && run[k].producer.at == POutside ==> past.captured == past.offered)
  {
    RunKeeps(run, actions, rate, k);
    SavedIsPrefix(run[k].disk, run[k].writer, run[k].shared.read, run[k].past.captured);
    hide IsRun, Joined, QuantisedAll, RingInv, RoundInv, DataInv, ChainInv, MarksInv;
  }

  lemma {:induction false} SavedIsPrefix(d: Disk, w: Writer, read: nat, captured: seq<Sample>)
    requires DataInv(d, w, read, captured)
    ensures Joined(d.closed + [d.current]) <= QuantisedAll(captured)
  {
    JoinedAppend(d.closed, d.current);
    QuantisedAppend(captured[..2 * d.saved], captured[2 * d.saved..]);
    assert captured == captured[..2 * d.saved] + captured[2 * d.saved..];
    hide Joined, QuantisedAll;
  }

  // The mark an action makes, if it is accepted.
  function Accepted(s: State, a: Action): Mark
  {
    if s.shared.markAt.At? then NoMark
    else if a.MarkNow? then At(s.shared.written)
    else if a.StoreMark? then s.marking
    else NoMark
  }

  predicate AcceptsBehind(s: State, a: Action)
  {
    Accepted(s, a).At? && Accepted(s, a).position < Reach(s.writer, s.shared.read, s.disk.saved)
  }

  predicate AcceptsInside(s: State, a: Action, m: nat)
  {
    Accepted(s, a) == At(m) && Inside(s.disk, s.writer, s.shared.read, m)
  }

  lemma CallbackRecordsNoMark(s: State, sameRate: bool)
    ensures var t := ProducerNext(s, sameRate).past;
      t.marks == s.past.marks && t.behind == s.past.behind && t.inside == s.past.inside
  {
  }

  lemma {:induction false} StepRecords(s: State, a: Action, rate: nat)
    ensures var t := Step(s, a, rate).past;
      && (t.behind <==> s.past.behind || AcceptsBehind(s, a))
      && (forall m :: m in t.marks <==> m in s.past.marks || Accepted(s, a) == At(m))
      && (forall m :: m in t.inside <==> m in s.past.inside || AcceptsInside(s, a, m))
  {
    hide ProducerNext, Inside, Reach, QuantisedAll;
    if a.ProducerStep? {
      CallbackRecordsNoMark(s, a.sameRate);
    }
  }

  // What the past says of marks is what happened to them in the run.
  lemma {:induction false} RunRecords(run: seq<State>, actions: seq<Action>, rate: nat, k: nat)
    requires IsRun(run, actions, rate) && k < |run|
    ensures var past := run[k].past;
      && (past.behind <==> exists j :: 0 <= j < k && AcceptsBehind(run[j], actions[j]))
      && (forall m :: m in past.marks <==> exists j :: 0 <= j < k && Accepted(run[j], actions[j]) == At(m))
      && (forall m :: m in past.inside <==> exists j :: 0 <= j < k && AcceptsInside(run[j], actions[j], m))
  {
    hide Step, AcceptsBehind, AcceptsInside, Accepted, Enabled;
    if k > 0 {
      RunRecords(run, actions, rate, k - 1);
      StepRecords(run[k - 1], actions[k - 1], rate);
      hide Initial;
    }
  }

  // A part holds frames from both sides of m.
  predicate Straddled(d: Disk, m: nat) { InClosed(d.closed, m) || Straddles(d.current, m) }

  // The writer has written all it is committed to.
  predicate Between(at: WriterPoint) { !at.WClear? && !at.WRotate? && !at.WCopy? && !at.WWrite? }

  lemma {:induction false} StraddledIsInside(s: State, m: nat)
    requires Inv(s)
    ensures Straddled(s.disk, m) ==> Inside(s.disk, s.writer, s.shared.read, m)
    ensures Between(s.writer.at) && Inside(s.disk, s.writer, s.shared.read, m) ==> Straddled(s.disk, m)
  {
    MarksFacts(s);
    EndIsSaved(s);
    RotatesWhileGood(s);
    hide Inv, InClosed, End;
  }

  lemma {:induction false} EndIsSaved(s: State)
    requires Inv(s)
    ensures End(s.disk.current) == s.disk.saved
  {
    hide RingInv, OfferInv, RoundInv, DataInv, MarksInv, Links;
  }

  lemma {:induction false} RotatesWhileGood(s: State)
    requires Inv(s)
    ensures s.writer.at.WClear? || s.writer.at.WRotate? ==> s.writer.good
  {
    hide RingInv, OfferInv, DataInv, ChainInv, MarksInv;
  }

  /** As long as no mark is accepted behind what the writer is committed to, parts end only at
      accepted marks or after at least 0x70000000 bytes, and no part holds frames from both
      sides of an accepted mark. */
  lemma {:induction false} PartsSplitAtMarks(run: seq<State>, actions: seq<Action>, rate: nat, k: nat)
    requires IsRun(run, actions, rate) && k < |run|
    requires forall j :: 0 <= j < k ==> !AcceptsBehind(run[j], actions[j])
    ensures var d, marks := run[k].disk, run[k].past.marks;
      && (forall i :: 0 <= i < |d.closed| ==> 3 * |d.closed[i].codes| >= ROTATE_AT || End(d.closed[i]) in marks)
      && (forall m :: m in marks ==> !Straddled(d, m))
  {
    RunKeeps(run, actions, rate, k);
    RunRecords(run, actions, rate, k);
    hide AcceptsBehind, IsRun, Inside;
    var s := run[k];
    forall m | m in s.past.marks ensures !Straddled(s.disk, m) {
      StraddledIsInside(s, m);
    }
    hide RingInv, OfferInv, RoundInv, DataInv, ChainInv, LoadedInv, AheadInv, PendingInv, Straddled;
  }

  /** A part that holds frames from both sides of an accepted mark shows that the mark was
      accepted inside: within a part already, or within the frames the writer was committed to.
      As long as no write fails such a mark is inside a part once those frames are written. */
  lemma {:induction false} StraddledIffInside(run: seq<State>, actions: seq<Action>, rate: nat, k: nat, m: nat)
    requires IsRun(run, actions, rate) && k < |run|
    ensures var late := exists j :: 0 <= j < k && AcceptsInside(run[j], actions[j], m);
      && (m in run[k].past.marks && Straddled(run[k].disk, m) ==> late)
      && (late && run[k].writer.good && Between(run[k].writer.at) ==>
            m in run[k].past.marks && Straddled(run[k].disk, m))
  {
    RunKeeps(run, actions, rate, k);
    RunRecords(run, actions, rate, k);
    hide AcceptsInside, IsRun, Inside;
    StraddledIsInside(run[k], m);
    hide RingInv, OfferInv, RoundInv, DataInv, ChainInv, LoadedInv, AheadInv, PendingInv, EarnedInv, Straddled;
  }

  /** A mark whose load and exchange are one step is never behind. */
  lemma {:induction false} PromptMarksAreAhead(run: seq<State>, actions: seq<Action>, rate: nat, k: nat)
    requires IsRun(run, actions, rate) && k < |actions| && actions[k].MarkNow?
    ensures !AcceptsBehind(run[k], actions[k])
    ensures forall m :: !AcceptsInside(run[k], actions[k], m)
  {
    RunKeeps(run, actions, rate, k);
    var s := run[k];
    MarksFacts(s);
    if Inside(s.disk, s.writer, s.shared.read, s.shared.written) && InClosed(s.disk.closed, s.shared.written) {
      InsideIsBehind(s.disk.closed, s.disk.current.start, s.writer.good, s.shared.written);
    }
    hide Inv, InClosed, Reach, IsRun, Links;
  }

  /** A mark that is behind without being inside does harm too: when the writer loads it, it
      ends a part that is not full at a frame that was not marked. */
  lemma {:induction false} LateMarkEndsElsewhere(s: State, rate: nat)
    requires Inv(s) && s.writer.at.WMarker? && Due(s.shared.markAt, s.shared.read)
    requires s.shared.markAt.position < s.shared.read && s.disk.bytes < ROTATE_AT
    ensures var next := WriterStep(Works, 0);
      var t := Step(Step(Step(s, next, rate), next, rate), next, rate);
      && t.past == s.past && t.disk.closed == s.disk.closed + [s.disk.current.(header := s.disk.bytes)]
      && 3 * |s.disk.current.codes| < ROTATE_AT && End(s.disk.current) !in s.past.marks
  {
    MarksFacts(s);
    EndIsSaved(s);
    var d, read := s.disk, s.shared.read;
    assert s.writer.good by { hide OfferInv, DataInv, ChainInv, MarksInv; }
    if InClosed(d.closed, read) {
      InsideIsBehind(d.closed, d.current.start, s.writer.good, read);
    }
    assert d.bytes > 0 by { hide RingInv, OfferInv, RoundInv, MarksInv, Links; }
    assert read !in s.past.marks by { hide RingInv, OfferInv, RoundInv, DataInv, ChainInv, EarnedInv, InClosed, Links; }
    assert d.bytes == 3 * |d.current.codes| by { hide RingInv, OfferInv, RoundInv, DataInv, MarksInv, Links; }
    hide Inv, ProducerNext, InClosed, Links, End, QuantisedAll;
  }

  /** No part but the last is empty, parts follow one another without gap, and a part is
      opened only when there is a captured frame to write to it. */
  lemma {:induction false} PartsAreNeeded(run: seq<State>, actions: seq<Action>, rate: nat, k: nat)
    requires IsRun(run, actions, rate) && k < |actions|
    ensures var d := run[k].disk;
      && (forall i :: 0 <= i < |d.closed| ==> |d.closed[i].codes| > 0)
      && (forall i :: 0 <= i < |d.closed| ==> End(d.closed[i]) == NextStart(d.closed, d.current.start, i))
      && (|run[k + 1].disk.closed| > |d.closed| ==> run[k].shared.read < run[k].shared.written)
  {
    RunKeeps(run, actions, rate, k);
    OnlyRotationOpens(run[k], actions[k], rate);
    hide Step, OfferInv, DataInv, MarksInv;
  }

  lemma CallbackKeepsDisk(s: State, sameRate: bool)
    ensures ProducerNext(s, sameRate).disk == s.disk
  {
  }

  lemma {:induction false} OnlyRotationOpens(s: State, a: Action, rate: nat)
    ensures |Step(s, a, rate).disk.closed| > |s.disk.closed| ==> s.writer.at.WRotate?
  {
    hide ProducerNext, QuantisedAll;
    if a.ProducerStep? {
      CallbackKeepsDisk(s, a.sameRate);
    }
  }

  // The bytes of a part.
  function FileOf(p: Part, rate: nat): seq<Byte>
    requires forall i :: 0 <= i < |p.codes| ==> IsCode(p.codes[i])
  {
    Header(rate, p.header) + EncodeAll(p.codes)
  }

  lemma {:induction false} CodesAreJoined(parts: seq<Part>, i: nat)
    requires i < |parts|
    ensures forall c :: c in parts[i].codes ==> c in Joined(parts)
  {
    if i < |parts| - 1 {
      CodesAreJoined(parts[..|parts| - 1], i);
    }
  }

  // The part is a file that reads back as its samples.
  ghost predicate ReadsBack(p: Part, rate: nat)
  {
    && p.header == 3 * |p.codes| && p.header + 36 < 0x1_0000_0000
    && (forall j :: 0 <= j < |p.codes| ==> IsCode(p.codes[j]))
    && Read(FileOf(p, rate)) == Some(Wave(2, rate, 24, EncodeAll(p.codes)))
    && DecodeAll(EncodeAll(p.codes)) == p.codes
  }

  lemma {:induction false} PartReadsBack(p: Part, rate: nat)
    requires p.header == 3 * |p.codes| && p.header < ROTATE_AT + 6 * CHUNK && rate <= 384000
    requires forall j :: 0 <= j < |p.codes| ==> IsCode(p.codes[j])
    ensures ReadsBack(p, rate)
  {
    FileRoundTrip(rate, EncodeAll(p.codes));
    EncodeAllRoundTrip(p.codes);
  }

  // The samples of all parts are proper codes.
  lemma {:induction false} AllAreCodes(d: Disk, w: Writer, read: nat, captured: seq<Sample>)
    requires DataInv(d, w, read, captured)
    ensures forall c :: c in Joined(d.closed) || c in d.current.codes ==> IsCode(c)
  {
    var all := QuantisedAll(captured[..2 * d.saved]);
    var n := |Joined(d.closed)|;
    assert forall j :: 0 <= j < n ==> Joined(d.closed)[j] == all[j];
    assert forall j :: 0 <= j < |d.current.codes| ==> d.current.codes[j] == all[n + j];
  }

  /** When the writer ends without an error, the last part too is a well-formed file that reads
      back as its samples. */
  lemma {:induction false} LastPartReadsBack(run: seq<State>, actions: seq<Action>, rate: nat, k: nat)
    requires IsRun(run, actions, rate) && k < |run| && run[k].writer.at == WDone && run[k].writer.good
    requires rate <= 384000
    ensures ReadsBack(run[k].disk.current, rate)
  {
    RunKeeps(run, actions, rate, k);
    var d := run[k].disk;
    AllAreCodes(d, run[k].writer, run[k].shared.read, run[k].past.captured);
    assert d.current.header == d.bytes == 3 * |d.current.codes| && d.bytes < ROTATE_AT + 6 * CHUNK;
    hide Inv, ReadsBack, Joined, QuantisedAll;
    assert forall j :: 0 <= j < |d.current.codes| ==> d.current.codes[j] in d.current.codes;
    PartReadsBack(d.current, rate);
  }

  /** A closed part is a well-formed WAVE file that a reader turns back into the part's
      samples: the header length is that of the data and all sizes fit in 32 bits. The last
      one is excepted after a disk error. */
  lemma {:induction false} ClosedPartReadsBack(run: seq<State>, actions: seq<Action>, rate: nat, k: nat, i: nat)
    requires IsRun(run, actions, rate) && k < |run| && i < |run[k].disk.closed| && rate <= 384000
    requires run[k].writer.good || i + 1 < |run[k].disk.closed|
    ensures ReadsBack(run[k].disk.closed[i], rate)
  {
    RunKeeps(run, actions, rate, k);
    var d := run[k].disk;
    var p := d.closed[i];
    CodesAreJoined(d.closed, i);
    AllAreCodes(d, run[k].writer, run[k].shared.read, run[k].past.captured);
    assert p.header == 3 * |p.codes| && 3 * |p.codes| < ROTATE_AT + 6 * CHUNK;
    hide Inv, ReadsBack, Joined, QuantisedAll;
    assert forall j :: 0 <= j < |p.codes| ==> p.codes[j] in p.codes;
    PartReadsBack(p, rate);
  }

  // ---- What the callback refuses ---------------------------------------------------------

  /** A block is refused only when recording has stopped, the sample rate has changed, or the ring
      has no room for it, and then always; a refusal ends the recording. */
  lemma {:induction false} RefusalMeans(s: State, a: Action, rate: nat)
    requires Inv(s) && Enabled(s, a) && !s.past.refused
    ensures var n := |s.producer.block| / 2;
      Step(s, a, rate).past.refused <==>
        a.ProducerStep?
        && ((s.producer.at.PAccepting? && (!s.shared.accepting || !a.sameRate))
            || (s.producer.at.PRoom? && s.shared.written + n > s.shared.read + CAPACITY))
    ensures Step(s, a, rate).past.refused ==>
      !Step(s, a, rate).shared.accepting && Step(s, a, rate).past.captured == s.past.captured
  {
    hide Inv, ProducerNext, LookNext, MoveNext, Inside, Reach;
    if a.ProducerStep? {
      CallbackRefuses(s, a.sameRate);
    } else if a.WriterStep? {
      WriterRefusesNothing(s, a.outcome, a.saved, rate);
    }
  }

  lemma CallbackRefuses(s: State, sameRate: bool)
    requires Inv(s) && !s.past.refused
    ensures var n, t := |s.producer.block| / 2, ProducerNext(s, sameRate);
      && (t.past.refused <==>
            || (s.producer.at.PAccepting? && (!s.shared.accepting || !sameRate))
            || (s.producer.at.PRoom? && s.shared.written + n > s.shared.read + CAPACITY))
      && (t.past.refused ==> !t.shared.accepting && t.past.captured == s.past.captured)
  {
    MarksFacts(s);
    hide Inv, CaptureSlot;
  }

  lemma WriterRefusesNothing(s: State, outcome: Outcome, saved: nat, rate: nat)
    ensures LookNext(s).past == s.past && MoveNext(s, outcome, saved, rate).past == s.past
  {
    hide LookWriter, Rotated, Saved, ChunkSize, ReadSlot;
  }

  /** A block that is not refused is captured whole by the step that publishes it. */
  lemma {:induction false} PublishCaptures(s: State, sameRate: bool, rate: nat)
    requires Inv(s) && s.producer.at.PPublish?
    ensures var t := Step(s, ProducerStep(sameRate), rate);
      && t.past.captured == s.past.captured + s.producer.block && t.producer.at.POutside?
      && 2 * t.shared.written == |t.past.captured|
  {
    hide RoundInv, DataInv, ChainInv, MarksInv, OfferInv, Slot, CaptureSlot;
  }

  // Recording has stopped after `captured`, while at most `block` was on its way into the ring.
  predicate Stopped(s: State, captured: seq<Sample>, block: seq<Sample>)
  {
    && !s.shared.accepting
    && if Copies(s.producer.at) then s.past.captured == captured && s.producer.block == block
       else s.past.captured == captured || s.past.captured == captured + block
  }

  predicate Copies(at: ProducerPoint) { at.PRoom? || at.PCopy? || at.PPublish? }

  lemma {:induction false} StepKeepsStopped(s: State, a: Action, rate: nat, captured: seq<Sample>, block: seq<Sample>)
    requires Stopped(s, captured, block) && Enabled(s, a)
    ensures Stopped(Step(s, a, rate), captured, block)
  {
    hide Rotated, Saved, ChunkSize, ReadSlot, CaptureSlot, Inside, Reach, Stored;
    if a.WriterStep? {
      assert Step(s, a, rate).producer == s.producer && Step(s, a, rate).past == s.past;
    }
  }

  /** A stop is final: from then on nothing that is offered is captured, except for the block that
      the callback was copying already. */
  lemma {:induction false} StopIsFinal(run: seq<State>, actions: seq<Action>, rate: nat, j: nat, k: nat)
    requires IsRun(run, actions, rate) && j < k < |run| && actions[j].StopAccepting?
    ensures !run[k].shared.accepting
    ensures run[k].past.captured == run[j].past.captured
            || (Copies(run[j].producer.at)
                && run[k].past.captured == run[j].past.captured + run[j].producer.block)
  {
    var block := if Copies(run[j].producer.at) then run[j].producer.block else [];
    hide Step, Enabled, Copies, Initial;
    StopStops(run[j], rate);
    assert run[j + 1] == Step(run[j], actions[j], rate);
    RunKeepsStopped(run, actions, rate, j + 1, k, run[j].past.captured, block);
  }

  lemma StopStops(s: State, rate: nat)
    ensures Step(s, StopAccepting, rate) == s.(shared := s.shared.(accepting := false))
  {
  }

  lemma {:induction false} RunKeepsStopped(run: seq<State>, actions: seq<Action>, rate: nat, i: nat, k: nat,
                                           captured: seq<Sample>, block: seq<Sample>)
    requires IsRun(run, actions, rate) && i <= k < |run| && Stopped(run[i], captured, block)
    ensures Stopped(run[k], captured, block)
  {
    hide Step, Enabled, Stopped, Initial;
    if i < k {
      RunKeepsStopped(run, actions, rate, i, k - 1, captured, block);
      StepKeepsStopped(run[k - 1], actions[k - 1], rate, captured, block);
    }
  }

  /** A mark is kept exactly when none waits, at the position loaded for it; each load is stored
      once. */
  lemma {:induction false} MarkOutcome(s: State, a: Action, rate: nat)
    requires Enabled(s, a) && (a.MarkNow? || a.StoreMark?)
    ensures var t, at := Step(s, a, rate), if a.MarkNow? then At(s.shared.written) else s.marking;
      && t == s.(shared := s.shared.(markAt := if s.shared.markAt.At? then s.shared.markAt else at),
                 marking := NoMark, past := t.past)
      && t.past.captured == s.past.captured
  {
    hide Inside, Reach;
  }

  // ---- What the writer does next -----------------------------------------------------------

  predicate InRound(at: WriterPoint)
  {
    at.WMarker? || at.WClear? || at.WRotate? || at.WCopy? || at.WWrite? || at.WAdvance? || at.WHeader?
  }

  // How many steps the writer's round still takes.
  function RoundSteps(w: Writer): int
  {
    if w.at.WMarker? then 2 * CHUNK + 7
    else if w.at.WClear? then 2 * CHUNK + 6
    else if w.at.WRotate? then 2 * CHUNK + 5
    else if w.at.WCopy? then 2 * w.count - |w.chunk| + 4
    else if w.at.WWrite? then 3
    else if w.at.WAdvance? then 2
    else if w.at.WHeader? then 1
    else 0
  }

  /** A round never waits for the callback. It begins exactly when something was captured and no disk
      operation failed, takes at least one frame and at most up to the marker it loaded, and goes
      through to its header unless a rotation fails. */
  lemma {:induction false} RoundEnds(s: State, outcome: Outcome, saved: nat, rate: nat)
    requires Inv(s) && (s.writer.at.WLoad? || InRound(s.writer.at))
    ensures var w, read, t := s.writer, s.shared.read, Step(s, WriterStep(outcome, saved), rate);
      && (w.at.WLoad? ==> (t.writer.at.WMarker? <==> w.good && s.shared.written > read))
      && (InRound(w.at) ==> InRound(t.writer.at) || t.writer.at.WLoad?)
      && (InRound(t.writer.at) && InRound(w.at) ==> RoundSteps(t.writer) < RoundSteps(w))
      && (InRound(w.at) && t.writer.at.WLoad? ==> w.at.WHeader? || (w.at.WRotate? && !outcome.Works?))
      && t.shared.read == read + (if w.at.WAdvance? then w.count else 0)
      && (w.at.WAdvance? ==> w.count >= 1)
  {
    if Looks(s.writer.at) {
      LookGoesOn(s);
    } else {
      MoveGoesOn(s, outcome, saved, rate);
    }
    hide Inv, LookNext, MoveNext, RoundSteps;
  }

  lemma {:induction false} LookGoesOn(s: State)
    requires Inv(s) && (s.writer.at.WLoad? || s.writer.at.WMarker? || s.writer.at.WClear?)
    ensures var w, t := s.writer, LookNext(s);
      && (w.at.WLoad? ==> (t.writer.at.WMarker? <==> w.good && s.shared.written > s.shared.read))
      && (!w.at.WLoad? ==> InRound(t.writer.at) && RoundSteps(t.writer) < RoundSteps(w))
      && (w.at.WLoad? ==> !InRound(t.writer.at) || t.writer.at.WMarker?)
      && t.shared.read == s.shared.read
  {
    MarksFacts(s);
    hide Inv, Due, Reach;
  }

  lemma {:induction false} MoveGoesOn(s: State, outcome: Outcome, saved: nat, rate: nat)
    requires Inv(s) && InRound(s.writer.at) && !Looks(s.writer.at)
    ensures var w, t := s.writer, MoveNext(s, outcome, saved, rate);
      && ((InRound(t.writer.at) && RoundSteps(t.writer) < RoundSteps(w))
          || (t.writer.at.WLoad? && (w.at.WHeader? || (w.at.WRotate? && !outcome.Works?))))
      && t.shared.read == s.shared.read + (if w.at.WAdvance? then w.count else 0)
      && (w.at.WAdvance? ==> w.count >= 1)
  {
    RoundFacts(s);
    hide Inv, Saved, Rotated, Rotates, ChunkSize, ReadSlot;
  }

  lemma RoundFacts(s: State)
    requires Inv(s)
    ensures s.writer.at.WRotate? ==> 0 < ChunkSize(s.writer.seen, s.shared.read, s.writer.marker) <= CHUNK
    ensures Holds(s.writer.at) ==> 1 <= s.writer.count && |s.writer.chunk| <= 2 * s.writer.count
    ensures s.writer.at.WCopy? && |s.writer.chunk| < 2 * s.writer.count ==>
      ReadSlot(s.shared.read, |s.writer.chunk|) < |s.shared.ring|
  {
    hide OfferInv, DataInv, ChainInv, MarksInv, Slot;
  }

  // Recording has stopped before the writer ends.
  predicate EndInv(s: State)
  {
    s.writer.at.WReaders? || s.writer.at.WFinish? || s.writer.at.WDone? ==> !s.shared.accepting
  }

  lemma {:induction false} StepKeepsEnd(s: State, a: Action, rate: nat)
    requires EndInv(s) && Enabled(s, a)
    ensures EndInv(Step(s, a, rate))
    ensures Step(s, a, rate).shared.accepting ==> s.shared.accepting
  {
    hide QuantisedAll, CaptureSlot, ReadSlot, Rotated, Saved, Inside, Reach;
  }

  lemma {:induction false} RunKeepsEnd(run: seq<State>, actions: seq<Action>, rate: nat, k: nat)
    requires IsRun(run, actions, rate) && k < |run|
    ensures EndInv(run[k])
  {
    hide Step, EndInv, Enabled, Initial;
    if k == 0 {
      StartsOpen(run[0]);
    } else {
      RunKeepsEnd(run, actions, rate, k - 1);
      StepKeepsEnd(run[k - 1], actions[k - 1], rate);
    }
    StartsOpen(run[0]);
  }

  lemma StartsOpen(s: State)
    ensures Initial(s) ==> EndInv(s)
  {
  }

  /** The writer ends only after recording has stopped: when it finds nothing captured, the recorder
      stopped and no callback at work; or after a disk operation failed, which stops recording. Then
      it writes the header of the last part, if a file is open. */
  lemma {:induction false} WriterEnds(run: seq<State>, actions: seq<Action>, rate: nat, k: nat)
    requires IsRun(run, actions, rate) && k < |actions| && actions[k].WriterStep?
    ensures |run| == |actions| + 1
    ensures var s, t := run[k], run[k + 1]; var w, works := s.writer, actions[k].outcome.Works?;
      && (t.writer.at == WFinish <==> (w.at == WReaders && s.producer.at == POutside) || w.at == WFail)
      && (t.writer.at == WReaders <==> w.at == WAccepting && !s.shared.accepting)
      && (w.at == WLoad ==> t.writer.at == (if !w.good then WFail
                                            else if s.shared.written == s.shared.read then WAccepting else WMarker))
      && ((w.at == WAccepting && s.shared.accepting) || (w.at == WReaders && s.producer.at != POutside) ==>
            t.writer.at == WLoad)
      && (t.writer.at == WFinish || t.writer.at == WDone ==> !t.shared.accepting)
      && (w.at == WFinish ==>
            && t.writer.at == WDone && (t.writer.good <==> w.good && works)
            && t.disk.current.header == (if s.disk.isOpen && works then s.disk.bytes else s.disk.current.header))
  {
    RunKeepsEnd(run, actions, rate, k + 1);
    assert run[k + 1] == Step(run[k], actions[k], rate) && Enabled(run[k], actions[k]);
    hide ProducerNext, Marked, Rotated, Saved, ReadSlot, ChunkSize, QuantisedAll;
  }

  /** A rotation closes the current part and opens a file for the next, unless the header of the one
      or the file of the other fails; the recording goes on only if all of it works. */
  lemma {:induction false} RotationOutcome(s: State, outcome: Outcome, saved: nat, rate: nat)
    requires Inv(s) && s.writer.at.WRotate?
    ensures var w, d, t := s.writer, s.disk, MoveNext(s, outcome, saved, rate);
      if d.bytes < ROTATE_AT && !(Due(w.marker, s.shared.read) && d.bytes > 0) then t.disk == d && t.writer.good
      else
        && t.disk.closed == d.closed + [d.current.(header := if outcome.HeaderFails? then d.current.header
                                                             else d.bytes)]
        && t.disk.current == Part(d.saved, [], 0) && t.disk.bytes == 0 && t.disk.saved == d.saved
        && (t.disk.isOpen <==> outcome.Works? || outcome.BeginFails?)
        && (t.writer.good <==> outcome.Works?)
  {
    assert s.writer.good by { hide RingInv, OfferInv, DataInv, ChainInv, MarksInv; }
    hide Inv;
  }

  // ---- Headers along the way -------------------------------------------------------------

  // The header of the current part names what was saved of it when the last periodic header
  // was due, and that is less than a second ago while the writer looks for work.
  predicate HeaderInv(d: Disk, w: Writer, rate: nat)
  {
    && w.lastHeader <= w.frames
    && (w.good && !w.at.WDone? ==>
          && w.frames == d.saved
          && d.current.header == (if w.lastHeader > d.current.start then 6 * (w.lastHeader - d.current.start) else 0))
    && (!w.at.WAdvance? && !w.at.WHeader? ==> w.frames - w.lastHeader < (if rate > 0 then rate else 1))
  }

  lemma {:induction false} LookKeepsHeader(d: Disk, w: Writer, g: Shared, capturing: bool, rate: nat)
    requires HeaderInv(d, w, rate) && Looks(w.at)
    ensures HeaderInv(d, LookWriter(w, g, capturing), rate)
  {
  }

  lemma {:induction false} MoveKeepsHeader(s: State, outcome: Outcome, saved: nat, rate: nat)
    requires Inv(s) && HeaderInv(s.disk, s.writer, rate) && !Looks(s.writer.at) && !s.writer.at.WDone?
    ensures var t := MoveNext(s, outcome, saved, rate); HeaderInv(t.disk, t.writer, rate)
  {
    var w, d := s.writer, s.disk;
    var frames := if saved < w.count then saved else w.count;
    MarksFacts(s);
    if w.at.WWrite? {
      SavedGrows(d, w.chunk, frames);
      assert |w.chunk| == 2 * w.count by { hide RingInv, OfferInv, DataInv, ChainInv, MarksInv; }
    }
    assert w.good ==> d.isOpen by { hide RingInv, OfferInv, RoundInv, ChainInv, MarksInv, Joined, QuantisedAll; }
    hide Inv, Saved, Reach, ReadSlot, QuantisedAll;
  }

  lemma {:induction false} RunKeepsHeader(run: seq<State>, actions: seq<Action>, rate: nat, k: nat)
    requires IsRun(run, actions, rate) && k < |run|
    ensures HeaderInv(run[k].disk, run[k].writer, rate)
  {
    hide HeaderInv, Inv, Step, Enabled, Initial;
    if k == 0 {
      StartsWithHeader(run[0], rate);
    } else {
      RunKeepsHeader(run, actions, rate, k - 1);
      RunKeeps(run, actions, rate, k - 1);
      StepKeepsHeader(run[k - 1], actions[k - 1], rate);
    }
  }

  lemma StartsWithHeader(s: State, rate: nat)
    requires Initial(s)
    ensures HeaderInv(s.disk, s.writer, rate)
  {
  }

  lemma {:induction false} StepKeepsHeader(s: State, a: Action, rate: nat)
    requires Inv(s) && HeaderInv(s.disk, s.writer, rate) && Enabled(s, a)
    ensures var t := Step(s, a, rate); HeaderInv(t.disk, t.writer, rate)
  {
    hide HeaderInv, Inv, ProducerNext, LookWriter, MoveNext, Inside, Reach;
    if a.WriterStep? {
      if Looks(s.writer.at) {
        LookKeepsHeader(s.disk, s.writer, s.shared, !s.producer.at.POutside?, rate);
      } else {
        MoveKeepsHeader(s, a.outcome, a.saved, rate);
      }
    } else {
      CallbackKeepsWriter(s, a);
    }
  }

  lemma CallbackKeepsWriter(s: State, a: Action)
    ensures a.ProducerStep? ==>
      ProducerNext(s, a.sameRate).disk == s.disk && ProducerNext(s, a.sameRate).writer == s.writer
  {
  }

  /** Between rounds the header is written again when a second was saved since the last time, and
      only then; not after a failed write. */
  lemma {:induction false} HeaderOutcome(s: State, outcome: Outcome, saved: nat, rate: nat)
    requires s.writer.at.WHeader?
    ensures var w, t, due := s.writer, MoveNext(s, outcome, saved, rate), s.writer.frames >= s.writer.lastHeader + rate;
      && t.writer.at.WLoad? && t.shared == s.shared
      && t.writer.lastHeader == (if due then w.frames else w.lastHeader)
      && t.disk == s.disk.(current := t.disk.current)
      && t.disk.current.(header := 0) == s.disk.current.(header := 0)
      && t.disk.current.header == (if due && w.good && outcome.Works? then s.disk.bytes else s.disk.current.header)
      && (t.writer.good <==> w.good && (due ==> outcome.Works?))
  {
  }

  /** Periodic headers keep an interrupted recording usable: whenever the writer is not just about
      to write one, the current part's header names all of its data but less than a second. */
  lemma {:induction false} HeaderIsRecent(run: seq<State>, actions: seq<Action>, rate: nat, k: nat)
    requires IsRun(run, actions, rate) && k < |run| && run[k].writer.good && rate > 0
    requires var at := run[k].writer.at; !at.WAdvance? && !at.WHeader? && !at.WDone?
    ensures var p := run[k].disk.current; p.header <= 3 * |p.codes| < p.header + 6 * rate
  {
    RunKeeps(run, actions, rate, k);
    RunKeepsHeader(run, actions, rate, k);
    MarksFacts(run[k]);
    BytesAreCodes(run[k]);
    hide Inv, IsRun;
  }

  lemma BytesAreCodes(s: State)
    requires Inv(s)
    ensures s.disk.bytes == 3 * |s.disk.current.codes| && s.disk.current.header <= s.disk.bytes
  {
    hide RingInv, OfferInv, RoundInv, DataInv, MarksInv, Links;
  }

  // ---- Marks that are not one step --------------------------------------------------------

  // A run as a chain of actions, and the state it ends in.
  datatype Path = Begin(first: State) | Then(path: Path, action: Action)

  ghost predicate Leads(p: Path, s: State, rate: nat)
  {
    match p
    case Begin(first) => Initial(first) && s == first
    case Then(path, a) => exists t :: Leads(path, t, rate) && Enabled(t, a) && s == Step(t, a, rate)
  }

  lemma {:induction false} Extend(p: Path, s: State, a: Action, rate: nat) returns (q: Path, t: State)
    requires Leads(p, s, rate) && Enabled(s, a)
    ensures q == Then(p, a) && t == Step(s, a, rate) && Leads(q, t, rate)
  {
    q, t := Then(p, a), Step(s, a, rate);
  }

  // Nothing but the callback moved between s and t, and it captured one frame.
  predicate CapturedOne(s: State, t: State)
  {
    && t.producer.at.POutside? && t.shared.accepting && |t.shared.ring| == SAMPLES
    && t.shared.read == s.shared.read && t.shared.written == s.shared.written + 1
    && t.shared.markAt == s.shared.markAt && t.writer == s.writer && t.disk == s.disk && t.marking == s.marking
    && t.past.marks == s.past.marks
  }

  lemma {:induction false} CaptureOne(p: Path, s: State, v: Sample, rate: nat) returns (q: Path, t: State)
    requires Leads(p, s, rate) && s.producer.at.POutside? && s.shared.accepting && |s.shared.ring| == SAMPLES
    requires 0 <= s.shared.written - s.shared.read < CAPACITY
    ensures Leads(q, t, rate) && CapturedOne(s, t)
  {
    hide Leads, LookNext, MoveNext, Marked, CaptureSlot;
    var next := ProducerStep(true);
    q, t := Extend(p, s, Offer([v, v]), rate);
    q, t := Extend(q, t, next, rate);
    q, t := Extend(q, t, next, rate);
    q, t := Extend(q, t, next, rate);
    q, t := Extend(q, t, next, rate);
    q, t := Extend(q, t, next, rate);
    q, t := Extend(q, t, next, rate);
  }

  lemma {:induction false} BeginRound(p: Path, s: State, rate: nat) returns (q: Path, t: State)
    requires Leads(p, s, rate) && s.writer.at.WLoad? && s.writer.good && s.shared.markAt.NoMark?
    requires s.shared.read == 0 && s.shared.written == 2 && s.disk == Disk([], Part(0, [], 0), true, 0, 0)
    ensures Leads(q, t, rate) && t.writer.at.WCopy? && t.writer.count == 2 && t.writer.chunk == []
    ensures t == s.(writer := t.writer)
  {
    hide Leads, ProducerNext, Marked;
    var next := WriterStep(Works, 2);
    q, t := Extend(p, s, next, rate);
    q, t := Extend(q, t, next, rate);
    q, t := Extend(q, t, next, rate);
    q, t := Extend(q, t, next, rate);
  }

  lemma {:induction false} WriteRound(p: Path, s: State, rate: nat) returns (q: Path, t: State)
    requires Leads(p, s, rate) && s.writer.at.WCopy? && s.writer.count == 2 && s.writer.chunk == []
    requires s.shared.read == 0 && |s.shared.ring| == SAMPLES && s.disk == Disk([], Part(0, [], 0), true, 0, 0)
    ensures Leads(q, t, rate) && t.disk.current.start == 0 && |t.disk.current.codes| == 4
    ensures t.shared == s.shared && t.marking == s.marking && t.past == s.past
  {
    hide Leads, ProducerNext, Marked, LookNext, QuantisedAll;
    var next := WriterStep(Works, 2);
    q, t := Extend(p, s, next, rate);
    q, t := Extend(q, t, next, rate);
    q, t := Extend(q, t, next, rate);
    q, t := Extend(q, t, next, rate);
    q, t := Extend(q, t, next, rate);
    q, t := Extend(q, t, next, rate);
  }

  /** The condition on marks is needed: a mark whose position was loaded before another frame
      was captured and written is accepted inside the part that holds both frames. */
  lemma {:induction false} LateMarkStraddles(first: State, rate: nat) returns (p: Path, s: State)
    requires Initial(first) && first.writer.good
    ensures Leads(p, s, rate) && 1 in s.past.marks && Straddles(s.disk.current, 1)
  {
    p, s := Begin(first), first;
    p, s := CaptureOne(p, s, NotFinite, rate);
    p, s := Extend(p, s, LoadMark, rate);
    p, s := CaptureOne(p, s, NotFinite, rate);
    p, s := BeginRound(p, s, rate);
    p, s := WriteRound(p, s, rate);
    hide Leads, ProducerNext, LookNext, MoveNext;
    p, s := Extend(p, s, StoreMark, rate);
  }
}
