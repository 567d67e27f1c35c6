/**
 RealtimeSnapshotStore: a triple buffer that hands whole parameter blocks from a control
 thread to the audio thread without a lock. A block is copied word by word, so that a copy
 torn by a concurrent write would show.
 */
module SnapshotStore {

  type Word = int
  type Block = seq<Word>

  const DIRTY := 0x8000_0000

  // The mailbox word: a slot index, with the top bit saying that it was not collected yet.
  function IndexOf(mailbox: nat): nat { mailbox % DIRTY }

  predicate IsDirty(mailbox: nat) { mailbox >= DIRTY }

  datatype WriterPoint = WOutside | WFill | WExchange | WTake
  datatype ReaderPoint = ROutside | RLoad | RExchange | RTake | RCopy | RReturn

  // `previous` is the mailbox word an exchange returned.
  datatype Writer = Writer(at: WriterPoint, back: nat, block: Block, next: nat, previous: nat)

  // `floor` counts the updates that had returned when the current snapshot began, `last`
  // is the version of the snapshot before it.
  datatype Reader = Reader(at: ReaderPoint, front: nat, previous: nat, copy: Block, floor: nat, last: nat)

  // History: every committed block in order, the version each slot was last given, and the
  // number of updates that have returned.
  datatype History = History(commits: seq<Block>, versions: seq<nat>, finished: nat)

  datatype State = State(slots: seq<Block>, mailbox: nat, writer: Writer, reader: Reader, past: History)

  datatype Action = Update(block: Block) | WriterStep | Snapshot | ReaderStep

  // All blocks have the same number of words.
  predicate Initial(s: State, width: nat)
  {
    && |s.slots| == 3 && |s.slots[0]| == width
    && s.slots[1] == s.slots[0] && s.slots[2] == s.slots[0]
    && s.mailbox == 1
    && s.writer.at == WOutside && s.writer.back == 2 && s.writer.previous == 0
    && s.reader.at == ROutside && s.reader.front == 0 && s.reader.previous == 0
    && s.reader.floor == 0 && s.reader.last == 0
    && s.past == History([s.slots[0]], [0, 0, 0], 0)
  }

  predicate Enabled(s: State, a: Action, width: nat)
  {
    match a
    case Update(block) => s.writer.at == WOutside && |block| == width
    case WriterStep => s.writer.at != WOutside
    case Snapshot => s.reader.at == ROutside
    case ReaderStep => s.reader.at != ROutside
  }

  predicate Sane(s: State)
  {
    && |s.slots| == |s.past.versions| == 3 && s.writer.back < 3 && s.reader.front < 3
    && IndexOf(s.writer.previous) < 3 && IndexOf(s.reader.previous) < 3
  }

  function WriterNext(s: State): State
    requires Sane(s)
  {
    var w := s.writer;
    if w.at.WFill? then
      if w.next < |w.block| && w.next < |s.slots[w.back]|
      then s.(slots := s.slots[w.back := s.slots[w.back][w.next := w.block[w.next]]],
              writer := w.(next := w.next + 1))
      else s.(writer := w.(at := WExchange))
    else if w.at.WExchange? then
      s.(mailbox := w.back + DIRTY, writer := w.(at := WTake, previous := s.mailbox),
         past := s.past.(commits := s.past.commits + [w.block],
                         versions := s.past.versions[w.back := |s.past.commits|]))
    else if w.at.WTake? then
      s.(writer := w.(at := WOutside, back := IndexOf(w.previous)),
         past := s.past.(finished := s.past.finished + 1))
    else s
  }

  function ReaderNext(s: State): State
    requires Sane(s)
  {
    var r := s.reader;
    if r.at.RLoad? then s.(reader := r.(at := if IsDirty(s.mailbox) then RExchange else RCopy, copy := []))
    else if r.at.RExchange? then s.(mailbox := r.front, reader := r.(at := RTake, previous := s.mailbox))
    else if r.at.RTake? then s.(reader := r.(at := RCopy, front := IndexOf(r.previous)))
    else if r.at.RCopy? then
      s.(reader := if |r.copy| < |s.slots[r.front]|
                   then r.(copy := r.copy + [s.slots[r.front][|r.copy|]])
                   else r.(at := RReturn))
    else if r.at.RReturn? then s.(reader := r.(at := ROutside, last := s.past.versions[r.front]))
    else s
  }

  function Step(s: State, a: Action): State
    requires Sane(s)
  {
    match a
    case Update(block) => s.(writer := s.writer.(at := WFill, block := block, next := 0))
    case WriterStep => WriterNext(s)
    case Snapshot => s.(reader := s.reader.(at := RLoad, floor := s.past.finished))
    case ReaderStep => ReaderNext(s)
  }

  // ---- Invariant -------------------------------------------------------------------

  // The slot each party holds, counting an index that is still in flight.
  function WriterHolds(w: Writer): nat
  {
    if w.at.WTake? then IndexOf(w.previous) else w.back
  }

  function ReaderHolds(r: Reader): nat
  {
    if r.at.RTake? then IndexOf(r.previous) else r.front
  }

  predicate Permutation(mailbox: nat, w: Writer, r: Reader)
  {
    var m, b, f := IndexOf(mailbox), WriterHolds(w), ReaderHolds(r);
    && m < 3 && b < 3 && f < 3 && m != b && b != f && f != m
    && w.back < 3 && r.front < 3 && IndexOf(w.previous) < 3 && IndexOf(r.previous) < 3
    && (r.at.RExchange? ==> IsDirty(mailbox))
  }

  // Every slot the writer does not hold is one whole committed block.
  ghost predicate Whole(slots: seq<Block>, w: Writer, past: History, width: nat)
    requires |slots| == |past.versions| == 3
  {
    && (forall i :: 0 <= i < 3 ==> |slots[i]| == width)
    && (forall i :: 0 <= i < 3 && i != WriterHolds(w) ==>
          past.versions[i] < |past.commits| && slots[i] == past.commits[past.versions[i]])
    && (w.at.WFill? || w.at.WExchange? ==>
          |w.block| == width && w.next <= width && w.back < 3 && slots[w.back][..w.next] == w.block[..w.next])
    && (w.at.WExchange? ==> w.next == width)
  }

  // The newest committed block is in the mailbox while it is dirty, and with the reader
  // otherwise.
  predicate Newest(mailbox: nat, r: Reader, past: History)
    requires |past.versions| == 3 && IndexOf(mailbox) < 3 && ReaderHolds(r) < 3
  {
    && |past.commits| > 0
    && past.versions[if IsDirty(mailbox) then IndexOf(mailbox) else ReaderHolds(r)] == |past.commits| - 1
    && past.versions[ReaderHolds(r)] < |past.commits|
  }

  predicate Fresh(w: Writer, r: Reader, past: History)
    requires |past.versions| == 3 && ReaderHolds(r) < 3
  {
    && past.finished + (if w.at.WTake? then 1 else 0) == |past.commits| - 1
    && r.floor <= past.finished
    && r.last <= past.versions[ReaderHolds(r)]
    && (r.at.RTake? || r.at.RCopy? || r.at.RReturn? ==> r.floor <= past.versions[ReaderHolds(r)])
  }

  predicate Copied(slots: seq<Block>, r: Reader)
    requires |slots| == 3 && r.front < 3
  {
    && (r.at.RTake? ==> r.copy == [])
    && (r.at.RCopy? || r.at.RReturn? ==> r.copy <= slots[r.front])
    && (r.at.RExchange? ==> r.copy == [])
    && (r.at.RReturn? ==> r.copy == slots[r.front])
  }

  ghost predicate Inv(s: State, width: nat)
  {
    && Sane(s) && Permutation(s.mailbox, s.writer, s.reader)
    && Whole(s.slots, s.writer, s.past, width)
    && Newest(s.mailbox, s.reader, s.past)
    && Fresh(s.writer, s.reader, s.past)
    && Copied(s.slots, s.reader)
  }

  lemma {:induction false} InitialInv(s: State, width: nat)
    requires Initial(s, width)
    ensures Inv(s, width)
  {
  }

  lemma Encoding(i: nat)
    requires i < 3
    ensures IndexOf(i) == i && !IsDirty(i) && IndexOf(i + DIRTY) == i && IsDirty(i + DIRTY)
  {
  }

  lemma {:induction false} FillKeeps(s: State, width: nat)
    requires Inv(s, width) && s.writer.at.WFill?
    ensures Inv(WriterNext(s), width)
  {
    hide IndexOf, IsDirty;
  }

  lemma {:induction false} CommitKeeps(s: State, width: nat)
    requires Inv(s, width) && s.writer.at.WExchange?
    ensures Inv(WriterNext(s), width)
  {
    Encoding(s.writer.back);
    hide IndexOf, IsDirty;
    assert s.slots[s.writer.back] == s.writer.block;
  }

  lemma {:induction false} TakeKeeps(s: State, width: nat)
    requires Inv(s, width) && s.writer.at.WTake?
    ensures Inv(WriterNext(s), width)
  {
    hide IndexOf, IsDirty;
  }

  lemma {:induction false} CollectKeeps(s: State, width: nat)
    requires Inv(s, width) && (s.reader.at.RExchange? || s.reader.at.RTake?)
    ensures Inv(ReaderNext(s), width)
  {
    Encoding(s.reader.front);
    hide IndexOf, IsDirty;
  }

  lemma {:induction false} CopyKeeps(s: State, width: nat)
    requires Inv(s, width) && (s.reader.at.RLoad? || s.reader.at.RCopy? || s.reader.at.RReturn?)
    ensures Inv(ReaderNext(s), width)
  {
    hide IndexOf, IsDirty;
  }

  lemma {:induction false} StepKeeps(s: State, a: Action, width: nat)
    requires Inv(s, width) && Enabled(s, a, width)
    ensures Inv(Step(s, a), width)
  {
    hide IndexOf, IsDirty, WriterNext, ReaderNext;
    match a
    case Update(block) =>
    case WriterStep =>
      if s.writer.at.WFill? {
        FillKeeps(s, width);
      } else if s.writer.at.WExchange? {
        CommitKeeps(s, width);
      } else {
        TakeKeeps(s, width);
      }
    case Snapshot =>
    case ReaderStep =>
      if s.reader.at.RExchange? || s.reader.at.RTake? {
        CollectKeeps(s, width);
      } else {
        CopyKeeps(s, width);
      }
  }

  // ---- Whole runs -----------------------------------------------------------------

  // Any interleaving of single steps of one writer and one reader.
  ghost predicate IsRun(run: seq<State>, actions: seq<Action>, width: nat)
  {
    && |run| == |actions| + 1 && Initial(run[0], width)
    && forall i :: 0 <= i < |actions| ==>
         Sane(run[i]) && Enabled(run[i], actions[i], width) && run[i + 1] == Step(run[i], actions[i])
  }

  lemma {:induction false} RunKeeps(run: seq<State>, actions: seq<Action>, width: nat, k: nat)
    requires IsRun(run, actions, width) && k < |run|
    ensures Inv(run[k], width)
  {
    hide Inv, Step;
    if k == 0 {
      InitialInv(run[0], width);
    } else {
      RunKeeps(run, actions, width, k - 1);
      StepKeeps(run[k - 1], actions[k - 1], width);
    }
  }

  /** The slots held by writer, mailbox and reader are always a permutation of 0, 1, 2, so
      no slot is ever written while it is read. */
  lemma {:induction false} SlotsStayApart(run: seq<State>, actions: seq<Action>, width: nat, k: nat)
    requires IsRun(run, actions, width) && k < |run|
    ensures var s := run[k];
      && multiset{IndexOf(s.mailbox), WriterHolds(s.writer), ReaderHolds(s.reader)} == multiset{0, 1, 2}
      && !(s.writer.at == WFill && s.reader.at == RCopy && s.writer.back == s.reader.front)
  {
    RunKeeps(run, actions, width, k);
  }

  lemma {:induction false} FloorIsKept(run: seq<State>, actions: seq<Action>, width: nat, j: nat, k: nat)
    requires IsRun(run, actions, width) && j < k < |run| && actions[j] == Snapshot
    requires forall i :: j < i <= k ==> run[i].reader.at != ROutside
    ensures run[k].reader.floor == run[j].past.finished
  {
    if k > j + 1 {
      FloorIsKept(run, actions, width, j, k - 1);
      assert run[k] == Step(run[k - 1], actions[k - 1]);
    } else {
      assert run[k] == Step(run[j], actions[j]);
    }
  }

  /** A snapshot that began at step j and returns at step k is one whole committed block. It
      is not older than any update that had returned at step j, nor than the previous
      snapshot. */
  lemma {:induction false} SnapshotIsCommitted(run: seq<State>, actions: seq<Action>, width: nat, j: nat, k: nat)
    requires IsRun(run, actions, width) && j < k < |run| && actions[j] == Snapshot
    requires forall i :: j < i <= k ==> run[i].reader.at != ROutside
    requires run[k].reader.at == RReturn
    ensures var s := run[k];
      exists v :: run[j].past.finished <= v < |s.past.commits| && s.reader.last <= v
               && s.reader.copy == s.past.commits[v]
               && (k < |actions| && actions[k] == ReaderStep ==> run[k + 1].reader.last == v)
  {
    RunKeeps(run, actions, width, k);
    FloorIsKept(run, actions, width, j, k);
    var s := run[k];
    var v := s.past.versions[s.reader.front];
    assert s.slots[s.reader.front] == s.past.commits[v];
  }

  /** Versions name commits in the order in which their updates took effect: a step never
      changes an existing commit, nor lowers the version of the last snapshot. */
  lemma {:induction false} VersionsNeverGoBack(run: seq<State>, actions: seq<Action>, width: nat, k: nat)
    requires IsRun(run, actions, width) && k < |actions|
    ensures run[k].past.commits <= run[k + 1].past.commits
    ensures run[k].reader.last <= run[k + 1].reader.last
  {
    RunKeeps(run, actions, width, k);
    assert run[k + 1] == Step(run[k], actions[k]);
  }

  // How many steps a call still needs.
  function WriterSteps(w: Writer): nat
  {
    if w.at.WFill? then (if w.next < |w.block| then |w.block| - w.next else 0) + 3
    else if w.at.WExchange? then 2
    else if w.at.WTake? then 1
    else 0
  }

  function ReaderSteps(r: Reader, width: nat): nat
  {
    if r.at.RLoad? then width + 5
    else if r.at.RExchange? then width + 4
    else if r.at.RTake? then width + 3
    else if r.at.RCopy? then (if |r.copy| < width then width - |r.copy| else 0) + 2
    else if r.at.RReturn? then 1
    else 0
  }

  /** Neither party ever waits: a snapshot begins by looking at the mailbox, and every step of an update
      or a snapshot brings its end nearer, whatever the other one does. */
  lemma {:induction false} NobodyWaits(s: State, a: Action, width: nat)
    requires Inv(s, width) && Enabled(s, a, width)
    ensures a.WriterStep? ==> WriterSteps(Step(s, a).writer) < WriterSteps(s.writer)
    ensures a.ReaderStep? ==> ReaderSteps(Step(s, a).reader, width) < ReaderSteps(s.reader, width)
    ensures a.Snapshot? ==> Step(s, a).reader.at.RLoad?
  {
  }

  /** An update commits its block as the newest version exactly once, with its exchange, and returns
      after that. */
  lemma {:induction false} UpdateCommits(run: seq<State>, actions: seq<Action>, width: nat, k: nat)
    requires IsRun(run, actions, width) && k < |actions|
    ensures |run| == |actions| + 1
    ensures var s, t := run[k], run[k + 1];
      && t.past.commits == s.past.commits + (if actions[k].WriterStep? && s.writer.at == WExchange then [s.writer.block]
                                             else [])
      && t.past.finished == s.past.finished + (if actions[k].WriterStep? && s.writer.at == WTake then 1 else 0)
      && (t.writer.at == WOutside && s.writer.at != WOutside ==> s.writer.at == WTake)
      && t.writer.block == (if actions[k].Update? then actions[k].block else s.writer.block)
      && (actions[k].Update? ==> t.writer.at == WFill)
  {
    assert run[k + 1] == Step(run[k], actions[k]);
  }
}
