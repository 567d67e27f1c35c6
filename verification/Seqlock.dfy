/**
 The sequence lock of AudioPresentationClock and of the sampler's playback cells: one
 writer stores a record field by field between two increments of a sequence number, and a
 reader copies the fields and accepts the copy when it saw the same even number before and
 after. Sequence numbers are unbounded here.
 */
module Seqlock {

  type Word = int
  type Record = seq<Word>

  datatype WriterPoint = WOutside | WStore
  datatype ReaderPoint = ROutside | RBefore | RCopy | RAfter | RReturn

  datatype Writer = Writer(at: WriterPoint, value: Record, next: nat)

  // `floor` is the number of the newest record when the read began, `last` the number of
  // the record the previous read returned; `attempts` counts the failed attempts.
  datatype Reader = Reader(at: ReaderPoint, before: nat, copy: Record, attempts: nat, floor: int, last: nat)

  // `published` lists every record whose publication has ended, the initial one first.
  datatype State = State(sequence: nat, fields: Record, writer: Writer, reader: Reader, published: seq<Record>)

  datatype Action = Publish(value: Record) | WriterStep | Read | ReaderStep

  predicate Initial(s: State, width: nat)
  {
    && s.sequence == 0 && |s.fields| == width && s.published == [s.fields]
    && s.writer.at == WOutside && s.reader.at == ROutside && s.reader.last == 0
  }

  predicate Enabled(s: State, a: Action, width: nat)
  {
    match a
    case Publish(value) => s.writer.at == WOutside && |value| == width
    case WriterStep => s.writer.at != WOutside
    case Read => s.reader.at == ROutside
    case ReaderStep => s.reader.at != ROutside
  }

  // The number of the newest record that was published completely.
  function Newest(s: State): int { |s.published| - 1 }

  // A reader gives up after `limit` failed attempts; 0 means that it never does.
  function Failed(r: Reader, limit: nat): Reader
  {
    if limit > 0 && r.attempts + 1 >= limit then r.(at := ROutside)
    else r.(at := RBefore, attempts := r.attempts + 1)
  }

  function WriterNext(s: State): State
  {
    var w := s.writer;
    if w.next < |w.value| && w.next < |s.fields|
    then s.(fields := s.fields[w.next := w.value[w.next]], writer := w.(next := w.next + 1))
    else s.(sequence := s.sequence + 1, writer := w.(at := WOutside), published := s.published + [w.value])
  }

  function ReaderNext(s: State, limit: nat): Reader
  {
    var r := s.reader;
    if r.at.RBefore? then
      if s.sequence % 2 == 1 then Failed(r, limit) else r.(at := RCopy, before := s.sequence, copy := [])
    else if r.at.RCopy? then
      if |r.copy| < |s.fields| then r.(copy := r.copy + [s.fields[|r.copy|]]) else r.(at := RAfter)
    else if r.at.RAfter? then
      if r.before == s.sequence then r.(at := RReturn) else Failed(r, limit)
    else r.(at := ROutside, last := r.before / 2)
  }

  function Step(s: State, a: Action, limit: nat): State
  {
    match a
    case Publish(value) =>
      s.(sequence := s.sequence + 1, writer := Writer(WStore, value, 0))
    case WriterStep => WriterNext(s)
    case Read => s.(reader := s.reader.(at := RBefore, attempts := 0, floor := |s.published| - 1))
    case ReaderStep => s.(reader := ReaderNext(s, limit))
  }

  // ---- Invariant -------------------------------------------------------------------

  // An even sequence number is twice the number of the record in the fields; while it is
  // odd, the fields are that record with a prefix already replaced.
  ghost predicate WriterInv(sequence: nat, fields: Record, w: Writer, published: seq<Record>, width: nat)
  {
    && |published| > 0 && |fields| == width
    && (forall i :: 0 <= i < |published| ==> |published[i]| == width)
    && sequence == 2 * (|published| - 1) + (if w.at.WStore? then 1 else 0)
    && (w.at.WOutside? ==> fields == published[|published| - 1])
    && (w.at.WStore? ==>
          && |w.value| == width && w.next <= width
          && fields == w.value[..w.next] + published[|published| - 1][w.next..])
  }

  // As long as the sequence number has not moved, the copy is a prefix of the record the
  // reader's even number stands for.
  ghost predicate ReaderInv(sequence: nat, r: Reader, published: seq<Record>, width: nat)
  {
    && |published| > 0 && r.last < |published|
    && (!r.at.ROutside? ==> r.floor < |published| && r.last <= r.floor)
    && (r.at.RCopy? || r.at.RAfter? ==>
          && r.before % 2 == 0 && r.before <= sequence && r.floor <= r.before / 2 < |published|
          && (r.before == sequence ==> r.copy <= published[r.before / 2])
          && (r.at.RAfter? ==> |r.copy| == width))
    && (r.at.RReturn? ==> r.floor <= r.before / 2 < |published| && r.copy == published[r.before / 2])
    && (r.at.RCopy? ==> |r.copy| <= width)
  }

  ghost predicate Inv(s: State, width: nat)
  {
    && WriterInv(s.sequence, s.fields, s.writer, s.published, width)
    && ReaderInv(s.sequence, s.reader, s.published, width)
  }

  lemma {:induction false} WriterKeeps(s: State, width: nat)
    requires Inv(s, width) && s.writer.at.WStore?
    ensures Inv(WriterNext(s), width)
  {
  }

  lemma {:induction false} ReaderKeeps(s: State, width: nat, limit: nat)
    requires Inv(s, width) && !s.reader.at.ROutside?
    ensures ReaderInv(s.sequence, ReaderNext(s, limit), s.published, width)
  {
  }

  lemma {:induction false} StepKeeps(s: State, a: Action, width: nat, limit: nat)
    requires Inv(s, width) && Enabled(s, a, width)
    ensures Inv(Step(s, a, limit), width)
  {
    hide WriterNext, ReaderNext;
    match a
    case WriterStep => WriterKeeps(s, width);
    case ReaderStep => ReaderKeeps(s, width, limit);
    case Publish(value) => assert value[..0] + s.published[|s.published| - 1][0..] == s.fields;
    case Read =>
  }

  // ---- Whole runs -------------------------------------------------------------------

  ghost predicate IsRun(run: seq<State>, actions: seq<Action>, width: nat, limit: nat)
  {
    && |run| == |actions| + 1 && Initial(run[0], width)
    && forall i :: 0 <= i < |actions| ==>
         Enabled(run[i], actions[i], width) && run[i + 1] == Step(run[i], actions[i], limit)
  }

  lemma {:induction false} RunKeeps(run: seq<State>, actions: seq<Action>, width: nat, limit: nat, k: nat)
    requires IsRun(run, actions, width, limit) && k < |run|
    ensures Inv(run[k], width)
  {
    if k == 0 {
    } else {
      RunKeeps(run, actions, width, limit, k - 1);
      StepKeeps(run[k - 1], actions[k - 1], width, limit);
      hide Inv, Step;
    }
  }

  lemma {:induction false} FloorIsKept(run: seq<State>, actions: seq<Action>, width: nat, limit: nat, j: nat, k: nat)
    requires IsRun(run, actions, width, limit) && j < k < |run| && actions[j] == Read
    requires forall i :: j < i <= k ==> run[i].reader.at != ROutside
    ensures run[k].reader.floor == Newest(run[j])
  {
    if k > j + 1 {
      FloorIsKept(run, actions, width, limit, j, k - 1);
      assert run[k] == Step(run[k - 1], actions[k - 1], limit);
    } else {
      assert run[k] == Step(run[j], actions[j], limit);
    }
  }

  /** A read that began at step j and returns at step k equals, field for field, one
      published record: the one numbered by its even sequence. That record is not older
      than the newest complete one when the read began, nor than the one read before. */
  lemma {:induction false} ReadIsPublished(run: seq<State>, actions: seq<Action>, width: nat, limit: nat,
                                           j: nat, k: nat)
    requires IsRun(run, actions, width, limit) && j < k < |run| && actions[j] == Read
    requires forall i :: j < i <= k ==> run[i].reader.at != ROutside
    requires run[k].reader.at == RReturn
    ensures var s := run[k]; var n := s.reader.before / 2;
      && n < |s.published| && s.reader.copy == s.published[n]
      && Newest(run[j]) <= n && s.reader.last <= n
      && (k < |actions| && actions[k] == ReaderStep ==> run[k + 1].reader.last == n)
  {
    RunKeeps(run, actions, width, limit, k);
    FloorIsKept(run, actions, width, limit, j, k);
  }

  /** A published record is never changed, and its number counts the publications. */
  lemma {:induction false} RecordsAreStable(run: seq<State>, actions: seq<Action>, width: nat, limit: nat, k: nat)
    requires IsRun(run, actions, width, limit) && k < |actions|
    ensures run[k].published <= run[k + 1].published
    ensures run[k].reader.last <= run[k + 1].reader.last
    ensures run[k].writer.at == WOutside ==> run[k].sequence == 2 * Newest(run[k])
  {
    RunKeeps(run, actions, width, limit, k);
    assert run[k + 1] == Step(run[k], actions[k], limit);
  }

  // ---- Reads come to an end ----------------------------------------------------------------

  // The state after n steps of the reader alone.
  function Reads(s: State, n: nat, limit: nat): State
  {
    if n == 0 then s else Step(Reads(s, n - 1, limit), ReaderStep, limit)
  }

  lemma {:induction false} ReadsCopy(s: State, n: nat, width: nat, limit: nat)
    requires Inv(s, width) && s.reader.at.RBefore? && s.writer.at.WOutside? && n <= width
    ensures Reads(s, n + 1, limit)
            == s.(reader := s.reader.(at := RCopy, before := s.sequence, copy := s.published[Newest(s)][..n]))
  {
    if n > 0 {
      ReadsCopy(s, n - 1, width, limit);
      assert s.fields[..n] == s.fields[..n - 1] + [s.fields[n - 1]];
    }
  }

  lemma {:induction false} BegunReadReturns(s: State, width: nat, limit: nat)
    requires Inv(s, width) && s.reader.at.RBefore? && s.writer.at.WOutside?
    ensures Reads(s, width + 3, limit)
            == s.(reader := s.reader.(at := RReturn, before := s.sequence, copy := s.published[Newest(s)]))
  {
    ReadsCopy(s, width, width, limit);
    var t := Reads(s, width + 1, limit);
    var u := Reads(s, width + 2, limit);
    assert u == Step(t, ReaderStep, limit);
    assert Reads(s, width + 3, limit) == Step(u, ReaderStep, limit);
    hide Reads;
  }

  /** A read that no publication disturbs returns the newest record, after one step for each field
      and three more. */
  lemma {:induction false} UndisturbedReadReturns(s: State, width: nat, limit: nat)
    requires Inv(s, width) && s.reader.at.ROutside? && s.writer.at.WOutside?
    ensures var r := Reads(Step(s, Read, limit), width + 3, limit);
      && r == s.(reader := r.reader)
      && r.reader.at.RReturn? && r.reader.copy == s.published[Newest(s)] && r.reader.before == s.sequence
  {
    BegunReadReturns(Step(s, Read, limit), width, limit);
    hide Reads;
  }

  // The reader finds a publication under way, or one since it began to copy.
  predicate Fails(s: State, a: Action)
  {
    && a.ReaderStep?
    && ((s.reader.at.RBefore? && s.sequence % 2 == 1) || (s.reader.at.RAfter? && s.reader.before != s.sequence))
  }

  function Failures(run: seq<State>, actions: seq<Action>, j: nat, k: nat): nat
    requires j <= k <= |actions| && k <= |run|
  {
    if j == k then 0 else Failures(run, actions, j, k - 1) + (if Fails(run[k - 1], actions[k - 1]) then 1 else 0)
  }

  // A read that began at step j is still under way at step k.
  predicate Reading(run: seq<State>, actions: seq<Action>, j: nat, k: nat)
    requires k < |run| && k <= |actions|
  {
    j < k && actions[j] == Read && forall i :: j < i <= k ==> run[i].reader.at != ROutside
  }

  lemma {:induction false} AttemptsAreCounted(run: seq<State>, actions: seq<Action>, width: nat, limit: nat,
                                              j: nat, k: nat)
    requires IsRun(run, actions, width, limit) && k < |run| && Reading(run, actions, j, k)
    ensures run[k].reader.attempts == Failures(run, actions, j + 1, k)
    ensures limit > 0 ==> Failures(run, actions, j + 1, k) < limit
  {
    assert run[k] == Step(run[k - 1], actions[k - 1], limit);
    if k > j + 1 {
      AttemptsAreCounted(run, actions, width, limit, j, k - 1);
    }
  }

  /** A read is given up only at its limit-th failure, and then always; any other failure begins
      another attempt, and without a limit no read is given up. */
  lemma {:induction false} GivesUpAtLimit(run: seq<State>, actions: seq<Action>, width: nat, limit: nat,
                                          j: nat, k: nat)
    requires IsRun(run, actions, width, limit) && k < |actions| && k < |run| && Reading(run, actions, j, k)
    requires actions[k] == ReaderStep
    ensures |run| == |actions| + 1
    ensures var r, t := run[k].reader, run[k + 1].reader;
      && (r.at != RReturn ==>
            (t.at == ROutside <==> Fails(run[k], actions[k]) && Failures(run, actions, j + 1, k) + 1 == limit))
      && (Fails(run[k], actions[k]) && t.at != ROutside ==> t.at == RBefore)
      && (r.at == RReturn ==> t.at == ROutside)
  {
    AttemptsAreCounted(run, actions, width, limit, j, k);
    assert run[k + 1] == Step(run[k], actions[k], limit);
  }

  /** A publication stores all fields and then ends. */
  lemma {:induction false} PublicationEnds(s: State, width: nat, n: nat)
    requires Inv(s, width) && s.writer.at.WStore? && s.writer.next + n == width
    ensures var t := Writes(s, n + 1);
      && t.sequence == s.sequence + 1 && t.fields == s.writer.value && t.writer.at.WOutside? && t.reader == s.reader
      && t.published == s.published + [s.writer.value]
    decreases n
  {
    WriterKeeps(s, width);
    if n > 0 {
      PublicationEnds(WriterNext(s), width, n - 1);
      WritesFirst(s, n);
    } else {
      assert Writes(s, 1) == WriterNext(Writes(s, 0));
    }
  }

  // The state after n steps of the writer alone.
  function Writes(s: State, n: nat): State
  {
    if n == 0 then s else WriterNext(Writes(s, n - 1))
  }

  lemma {:induction false} WritesFirst(s: State, n: nat)
    ensures Writes(s, n + 1) == Writes(WriterNext(s), n)
  {
    if n > 0 {
      WritesFirst(s, n - 1);
    }
  }
}
