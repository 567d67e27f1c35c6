/**
 The two single-producer, single-consumer command rings: AudioCommandQueue, whose cursors
 are slot numbers and which keeps one slot free, and the sampler's ring, whose cursors are
 wrapping 32-bit counters and which fills every slot. Both are one protocol over counters
 that never wrap. Entries are copied word by word, so that a torn one would show.
 */
module SpscRing {

  import Arithmetic

  type Word = int
  type Entry = seq<Word>

  datatype Ring = DeckQueue(capacity: nat) | SamplerQueue

  predicate Usable(ring: Ring) { ring.DeckQueue? ==> ring.capacity >= 2 }

  function Slots(ring: Ring): nat { if ring.DeckQueue? then ring.capacity else 256 }

  // Cursors are remainders modulo this number.
  function Modulus(ring: Ring): nat { if ring.DeckQueue? then ring.capacity else 0x1_0000_0000 }

  // How many entries fit.
  function Limit(ring: Ring): int { if ring.DeckQueue? then ring.capacity - 1 else 256 }

  function Increment(ring: Ring, cursor: nat): nat
    requires Usable(ring)
  {
    (cursor + 1) % Modulus(ring)
  }

  predicate IsFull(ring: Ring, write: nat, read: nat)
    requires Usable(ring)
  {
    if ring.DeckQueue? then (write + 1) % ring.capacity == read
    else (write - read) % 0x1_0000_0000 == 256
  }

  function SlotOf(ring: Ring, cursor: nat): (slot: nat)
    requires Usable(ring)
    ensures slot < Slots(ring)
  {
    cursor % Slots(ring)
  }

  datatype ProducerPoint = POutside | PLoad | PFill | PStore | PDrop
  datatype ConsumerPoint = COutside | CDiscardLoad | CDiscardStore | CLoad | CTest | CCopy | CStore

  datatype Producer = Producer(at: ProducerPoint, entry: Entry, write: nat, next: nat)
  datatype Consumer = Consumer(at: ConsumerPoint, read: nat, write: nat, copy: Entry)

  // What happened so far, in numbers that never wrap. `readKnown` counts the entries the
  // producer knows to be consumed.
  datatype Pushes = Pushes(accepted: seq<Entry>, readKnown: int, begun: nat, dropped: nat)

  // `stored` counts the entries the read cursor has passed, `taken` those the consumer is
  // done with, `known` those it knows to be there. `order` numbers the popped entries.
  datatype Pops = Pops(stored: nat, taken: nat, known: nat, popped: seq<Entry>, order: seq<nat>, discarded: int)

  datatype State = State(read: nat, write: nat, slots: seq<Entry>, producer: Producer, consumer: Consumer,
                         pushes: Pushes, pops: Pops)

  // A consumer that begins with `discard` skips everything there is, as after a panic.
  datatype Action = Push(entry: Entry) | ProducerStep | Pop(discard: bool) | ConsumerStep

  predicate Initial(s: State, ring: Ring, width: nat)
  {
    && Usable(ring) && |s.slots| == Slots(ring)
    && (forall i :: 0 <= i < |s.slots| ==> |s.slots[i]| == width)
    && s.read == 0 && s.write == 0 && s.producer.at == POutside && s.consumer.at == COutside
    && s.pushes == Pushes([], 0, 0, 0) && s.pops == Pops(0, 0, 0, [], [], 0)
  }

  predicate Enabled(s: State, a: Action, width: nat)
  {
    match a
    case Push(entry) => s.producer.at == POutside && |entry| == width
    case ProducerStep => s.producer.at != POutside
    case Pop(discard) => s.consumer.at == COutside
    case ConsumerStep => s.consumer.at != COutside
  }

  function Filled(slots: seq<Entry>, slot: nat, next: nat, word: Word): seq<Entry>
  {
    if slot < |slots| && next < |slots[slot]| then slots[slot := slots[slot][next := word]] else slots
  }

  function Popped(pops: Pops, entry: Entry): Pops
  {
    pops.(taken := pops.taken + 1, popped := pops.popped + [entry], order := pops.order + [pops.taken])
  }

  function ProducerNext(s: State, ring: Ring): State
    requires Usable(ring)
  {
    var p := s.producer;
    if p.at.PLoad? then
      s.(producer := p.(at := if IsFull(ring, p.write, s.read) then PDrop else PFill, next := 0),
         pushes := s.pushes.(readKnown := s.pops.stored))
    else if p.at.PFill? then
      if p.next < |p.entry|
      then s.(slots := Filled(s.slots, SlotOf(ring, p.write), p.next, p.entry[p.next]),
              producer := p.(next := p.next + 1))
      else s.(producer := p.(at := PStore))
    else if p.at.PStore? then
      s.(write := Increment(ring, p.write), producer := p.(at := POutside),
         pushes := s.pushes.(accepted := s.pushes.accepted + [p.entry]))
    else
      s.(producer := p.(at := POutside), pushes := s.pushes.(dropped := s.pushes.dropped + 1))
  }

  function ConsumerNext(s: State, ring: Ring, width: nat): State
    requires Usable(ring)
  {
    var c := s.consumer;
    if c.at.CDiscardLoad? then
      s.(consumer := c.(at := CDiscardStore, write := s.write), pops := s.pops.(known := |s.pushes.accepted|))
    else if c.at.CDiscardStore? then
      s.(read := c.write, consumer := c.(at := CLoad, read := c.write),
         pops := s.pops.(stored := s.pops.known, taken := s.pops.known,
                         discarded := s.pops.discarded + (s.pops.known - s.pops.taken)))
    else if c.at.CLoad? then
      s.(consumer := c.(at := CTest, write := s.write), pops := s.pops.(known := |s.pushes.accepted|))
    else if c.at.CTest? then
      s.(consumer := if c.read == c.write
                     then c.(at := if ring.DeckQueue? then COutside else CStore)
                     else c.(at := CCopy, copy := []))
    else if c.at.CCopy? then
      var slot := SlotOf(ring, c.read);
      if |c.copy| < width && slot < |s.slots| && |c.copy| < |s.slots[slot]|
      then s.(consumer := c.(copy := c.copy + [s.slots[slot][|c.copy|]]))
      else s.(consumer := c.(at := if ring.DeckQueue? then CStore else CTest, read := Increment(ring, c.read)),
              pops := Popped(s.pops, c.copy))
    else
      s.(read := c.read, consumer := c.(at := COutside), pops := s.pops.(stored := s.pops.taken))
  }

  function Step(s: State, a: Action, ring: Ring, width: nat): State
    requires Usable(ring)
  {
    match a
    case Push(entry) =>
      s.(producer := Producer(PLoad, entry, s.write, 0), pushes := s.pushes.(begun := s.pushes.begun + 1))
    case ProducerStep => ProducerNext(s, ring)
    case Pop(discard) =>
      s.(consumer := s.consumer.(at := if discard then CDiscardLoad else CLoad, read := s.read))
    case ConsumerStep => ConsumerNext(s, ring, width)
  }

  // ---- Counters and their remainders -------------------------------------------------

  // The cursor word of a counter.
  function WordOf(ring: Ring, counter: nat): (w: nat)
    requires Usable(ring)
  {
    counter % Modulus(ring)
  }

  // The slot a counter's entry lives in.
  function Home(ring: Ring, counter: nat): (slot: nat)
    requires Usable(ring)
    ensures slot < Slots(ring)
  {
    counter % Slots(ring)
  }

  /** Cursor arithmetic agrees with counters, for both rings and across every wrap: the slot
      of a cursor is that of its counter, and the two full tests both say that `Limit`
      entries are unread. */
  lemma {:induction false} CursorOf(ring: Ring, counter: nat)
    requires Usable(ring)
    ensures SlotOf(ring, WordOf(ring, counter)) == Home(ring, counter)
    ensures Increment(ring, WordOf(ring, counter)) == WordOf(ring, counter + 1)
  {
    NextWord(Modulus(ring), counter);
    if ring.DeckQueue? {
      Arithmetic.QuotientUnique(counter % ring.capacity, ring.capacity, 0, counter % ring.capacity);
    }
  }

  lemma {:induction false} NextWord(m: nat, counter: nat)
    requires m > 1
    ensures (counter % m + 1) % m == (counter + 1) % m
  {
    var q, r := counter / m, counter % m;
    assert counter == q * m + r;
    if r + 1 < m {
      Arithmetic.QuotientUnique(counter + 1, m, q, r + 1);
      Arithmetic.QuotientUnique(r + 1, m, 0, r + 1);
    } else {
      assert (q + 1) * m == q * m + m;
      Arithmetic.QuotientUnique(counter + 1, m, q + 1, 0);
      Arithmetic.QuotientUnique(m, m, 1, 0);
    }
  }

  lemma {:induction false} FullTest(ring: Ring, write: nat, read: nat)
    requires Usable(ring) && read <= write <= read + Limit(ring)
    ensures IsFull(ring, WordOf(ring, write), WordOf(ring, read)) <==> write - read == Limit(ring)
  {
    if ring.DeckQueue? {
      CursorOf(ring, write);
      if write - read == Limit(ring) {
        assert write + 1 == read + ring.capacity;
        AddModulus(ring.capacity, read);
      } else {
        NearAreApart(ring.capacity, read, write + 1);
      }
    }
  }

  lemma {:induction false} AddModulus(m: nat, a: nat)
    requires m > 0
    ensures (a + m) % m == a % m
  {
    assert (a / m + 1) * m == a / m * m + m;
    Arithmetic.QuotientUnique(a + m, m, a / m + 1, a % m);
  }

  // Two different counters less than m apart have different remainders.
  lemma {:induction false} NearAreApart(m: nat, a: nat, b: nat)
    requires a < b < a + m
    ensures a % m != b % m
  {
    var q, r := a / m, a % m;
    assert a == q * m + r;
    if r + (b - a) < m {
      Arithmetic.QuotientUnique(b, m, q, r + (b - a));
    } else {
      assert (q + 1) * m == q * m + m;
      Arithmetic.QuotientUnique(b, m, q + 1, r + (b - a) - m);
    }
  }

  lemma {:induction false} SameWord(ring: Ring, a: nat, b: nat)
    requires Usable(ring) && a <= b <= a + Limit(ring)
    ensures WordOf(ring, a) == WordOf(ring, b) <==> a == b
  {
    if a < b {
      NearAreApart(Modulus(ring), a, b);
    }
  }

  lemma {:induction false} HomesApart(ring: Ring, from: nat, to: nat)
    requires Usable(ring) && from <= to < from + Slots(ring)
    ensures forall i :: from <= i < to ==> Home(ring, i) != Home(ring, to)
  {
    forall i | from <= i < to ensures Home(ring, i) != Home(ring, to) {
      NearAreApart(Slots(ring), i, to);
    }
  }

  // ---- Invariant -------------------------------------------------------------------

  predicate Cursors(s: State, ring: Ring)
    requires Usable(ring)
  {
    && s.write == WordOf(ring, |s.pushes.accepted|) && s.read == WordOf(ring, s.pops.stored)
    && s.pops.stored <= s.pops.taken <= |s.pushes.accepted| <= s.pops.stored + Limit(ring)
  }

  predicate ProducerInv(p: Producer, pushes: Pushes, stored: nat, ring: Ring, width: nat)
    requires Usable(ring)
  {
    && pushes.begun == |pushes.accepted| + pushes.dropped + (if p.at.POutside? then 0 else 1)
    && (!p.at.POutside? ==> p.write == WordOf(ring, |pushes.accepted|) && |p.entry| == width && p.next <= width)
    && (p.at.PFill? || p.at.PStore? ==> |pushes.accepted| < stored + Limit(ring))
    && (p.at.PDrop? ==> |pushes.accepted| == pushes.readKnown + Limit(ring))
    && (p.at.PStore? ==> p.next == width)
  }

  // Everything accepted and not passed by the read cursor is in its slot, whole.
  ghost predicate SlotsInv(slots: seq<Entry>, p: Producer, accepted: seq<Entry>, stored: nat, ring: Ring, width: nat)
    requires Usable(ring)
  {
    && |slots| == Slots(ring)
    && (forall i :: 0 <= i < |slots| ==> |slots[i]| == width)
    && (forall i :: 0 <= i < |accepted| ==> |accepted[i]| == width)
    && (forall i :: stored <= i < |accepted| ==> slots[Home(ring, i)] == accepted[i])
    && (p.at.PFill? || p.at.PStore? ==>
          && p.next <= width && |p.entry| == width
          && slots[Home(ring, |accepted|)][..p.next] == p.entry[..p.next])
  }

  predicate ConsumerInv(c: Consumer, pops: Pops, accepted: seq<Entry>, ring: Ring, width: nat)
    requires Usable(ring)
  {
    && (!c.at.COutside? ==> c.read == WordOf(ring, pops.taken))
    && (c.at.CDiscardStore? || c.at.CTest? || c.at.CCopy? ==>
          c.write == WordOf(ring, pops.known) && pops.taken <= pops.known <= |accepted|)
    && (c.at.CCopy? ==> pops.taken < pops.known && c.copy <= accepted[pops.taken])
    && (ring.DeckQueue? && c.at.CTest? ==> pops.stored == pops.taken)
    && (c.at.COutside? || c.at.CDiscardLoad? || c.at.CDiscardStore? || c.at.CLoad? ==> pops.stored == pops.taken)
  }

  // What was popped are accepted entries, in order; without discards, without gaps.
  ghost predicate Fifo(pops: Pops, accepted: seq<Entry>)
  {
    && pops.discarded >= 0
    && |pops.popped| == |pops.order| && |pops.popped| + pops.discarded == pops.taken <= |accepted|
    && (forall k :: 0 <= k < |pops.order| ==>
          pops.order[k] < pops.taken && pops.popped[k] == accepted[pops.order[k]])
    && (forall j, k :: 0 <= j < k < |pops.order| ==> pops.order[j] < pops.order[k])
    && (pops.discarded == 0 ==> pops.popped == accepted[..pops.taken])
  }

  ghost predicate Inv(s: State, ring: Ring, width: nat)
  {
    && Usable(ring) && Cursors(s, ring)
    && ProducerInv(s.producer, s.pushes, s.pops.stored, ring, width)
    && SlotsInv(s.slots, s.producer, s.pushes.accepted, s.pops.stored, ring, width)
    && ConsumerInv(s.consumer, s.pops, s.pushes.accepted, ring, width)
    && Fifo(s.pops, s.pushes.accepted)
  }

  lemma {:induction false} InitialInv(s: State, ring: Ring, width: nat)
    requires Initial(s, ring, width)
    ensures Inv(s, ring, width)
  {
    Arithmetic.QuotientUnique(0, Modulus(ring), 0, 0);
  }

  lemma {:induction false} LoadKeeps(s: State, ring: Ring, width: nat)
    requires Inv(s, ring, width) && (s.producer.at.PLoad? || s.producer.at.PDrop?)
    ensures Inv(ProducerNext(s, ring), ring, width)
  {
    FullTest(ring, |s.pushes.accepted|, s.pops.stored);
    hide IsFull, WordOf, Home, SlotOf, Increment, Fifo;
  }

  lemma {:induction false} FillKeeps(s: State, ring: Ring, width: nat)
    requires Inv(s, ring, width) && s.producer.at.PFill?
    ensures Inv(ProducerNext(s, ring), ring, width)
  {
    CursorOf(ring, |s.pushes.accepted|);
    HomesApart(ring, s.pops.stored, |s.pushes.accepted|);
    hide IsFull, WordOf, Home, SlotOf, Increment, Fifo, ConsumerInv;
  }

  lemma {:induction false} AcceptKeeps(s: State, ring: Ring, width: nat)
    requires Inv(s, ring, width) && s.producer.at.PStore?
    ensures Inv(ProducerNext(s, ring), ring, width)
  {
    var accepted := s.pushes.accepted;
    CursorOf(ring, |accepted|);
    hide IsFull, WordOf, Home, SlotOf, Increment;
    assert s.slots[Home(ring, |accepted|)] == s.producer.entry;
    assert (accepted + [s.producer.entry])[..s.pops.taken] == accepted[..s.pops.taken];
  }

  lemma {:induction false} DiscardKeeps(s: State, ring: Ring, width: nat)
    requires Inv(s, ring, width)
    requires s.consumer.at.CDiscardLoad? || s.consumer.at.CDiscardStore? || s.consumer.at.CStore?
    ensures Inv(ConsumerNext(s, ring, width), ring, width)
  {
    hide IsFull, WordOf, Home, SlotOf, Increment;
  }

  lemma {:induction false} TestKeeps(s: State, ring: Ring, width: nat)
    requires Inv(s, ring, width) && (s.consumer.at.CLoad? || s.consumer.at.CTest?)
    ensures Inv(ConsumerNext(s, ring, width), ring, width)
  {
    if s.consumer.at.CTest? {
      SameWord(ring, s.pops.taken, s.pops.known);
    }
    hide IsFull, WordOf, Home, SlotOf, Increment, Fifo, ProducerInv, SlotsInv;
  }

  lemma {:induction false} PopKeepsFifo(pops: Pops, accepted: seq<Entry>)
    requires Fifo(pops, accepted) && pops.taken < |accepted|
    ensures Fifo(Popped(pops, accepted[pops.taken]), accepted)
  {
    assert accepted[..pops.taken + 1] == accepted[..pops.taken] + [accepted[pops.taken]];
  }

  // The slot of the next entry to take holds that entry.
  lemma {:induction false} NextIsThere(s: State, ring: Ring, width: nat)
    requires Inv(s, ring, width) && s.consumer.at.CCopy?
    ensures s.pops.taken < |s.pushes.accepted| && |s.pushes.accepted[s.pops.taken]| == width
    ensures SlotOf(ring, s.consumer.read) == Home(ring, s.pops.taken) < |s.slots|
    ensures s.slots[Home(ring, s.pops.taken)] == s.pushes.accepted[s.pops.taken]
    ensures Increment(ring, s.consumer.read) == WordOf(ring, s.pops.taken + 1)
  {
    CursorOf(ring, s.pops.taken);
    hide IsFull, WordOf, Home, SlotOf, Increment, Fifo, ProducerInv;
  }

  lemma {:induction false} CopyKeeps(s: State, ring: Ring, width: nat)
    requires Inv(s, ring, width) && s.consumer.at.CCopy?
    ensures Inv(ConsumerNext(s, ring, width), ring, width)
  {
    NextIsThere(s, ring, width);
    PopKeepsFifo(s.pops, s.pushes.accepted);
    hide IsFull, WordOf, Home, SlotOf, Increment, ProducerInv, SlotsInv, Fifo;
    var entry := s.pushes.accepted[s.pops.taken];
    if |s.consumer.copy| < width {
      assert s.consumer.copy + [entry[|s.consumer.copy|]] <= entry;
    } else {
      assert s.consumer.copy == entry;
    }
  }

  lemma {:induction false} StepKeeps(s: State, a: Action, ring: Ring, width: nat)
    requires Inv(s, ring, width) && Enabled(s, a, width)
    ensures Inv(Step(s, a, ring, width), ring, width)
  {
    hide ProducerNext, ConsumerNext, IsFull, WordOf, Home, SlotOf, Increment, Fifo;
    match a
    case Push(entry) =>
    case ProducerStep =>
      if s.producer.at.PFill? {
        FillKeeps(s, ring, width);
      } else if s.producer.at.PStore? {
        AcceptKeeps(s, ring, width);
      } else {
        LoadKeeps(s, ring, width);
      }
    case Pop(discard) =>
    case ConsumerStep =>
      if s.consumer.at.CCopy? {
        CopyKeeps(s, ring, width);
      } else if s.consumer.at.CLoad? || s.consumer.at.CTest? {
        TestKeeps(s, ring, width);
      } else {
        DiscardKeeps(s, ring, width);
      }
  }

  // ---- Whole runs -----------------------------------------------------------------

  ghost predicate IsRun(run: seq<State>, actions: seq<Action>, ring: Ring, width: nat)
  {
    && |run| == |actions| + 1 && Initial(run[0], ring, width)
    && forall i :: 0 <= i < |actions| ==>
         Enabled(run[i], actions[i], width) && run[i + 1] == Step(run[i], actions[i], ring, width)
  }

  lemma {:induction false} RunKeeps(run: seq<State>, actions: seq<Action>, ring: Ring, width: nat, k: nat)
    requires IsRun(run, actions, ring, width) && k < |run|
    ensures Inv(run[k], ring, width)
  {
    hide Inv, Step;
    if k == 0 {
      InitialInv(run[0], ring, width);
    } else {
      RunKeeps(run, actions, ring, width, k - 1);
      StepKeeps(run[k - 1], actions[k - 1], ring, width);
    }
  }

  /** What the consumer got are whole accepted entries in the order of their pushes; unless
      a panic discarded some, they are a prefix of the accepted ones. Nothing else gets
      lost: every push that ended was accepted or counted as dropped, and a push is dropped
      only when it saw the ring full. */
  lemma {:induction false} RingIsFifo(run: seq<State>, actions: seq<Action>, ring: Ring, width: nat, k: nat)
    requires IsRun(run, actions, ring, width) && k < |run|
    ensures var s := run[k]; var accepted, pops := s.pushes.accepted, s.pops;
      && |pops.popped| == |pops.order|
      && (forall j :: 0 <= j < |pops.order| ==>
            pops.order[j] < |accepted| && pops.popped[j] == accepted[pops.order[j]])
      && (forall i, j :: 0 <= i < j < |pops.order| ==> pops.order[i] < pops.order[j])
      && (pops.discarded == 0 ==> pops.popped <= accepted)
      && |accepted| - (|pops.popped| + pops.discarded) <= Limit(ring)
      && s.pushes.begun == |accepted| + s.pushes.dropped + (if s.producer.at == POutside then 0 else 1)
      && (s.producer.at == PDrop ==> |accepted| - s.pushes.readKnown == Limit(ring))
  {
    RunKeeps(run, actions, ring, width, k);
  }

  /** No step changes an entry that is still unread after it. */
  lemma {:induction false} UnreadIsNeverOverwritten(run: seq<State>, actions: seq<Action>, ring: Ring, width: nat,
                                                    k: nat, i: nat)
    requires IsRun(run, actions, ring, width) && k < |actions|
    requires run[k + 1].pops.stored <= i < |run[k].pushes.accepted|
    ensures i < |run[k + 1].pushes.accepted| && run[k + 1].pushes.accepted[i] == run[k].pushes.accepted[i]
    ensures |run[k].slots| == |run[k + 1].slots| == Slots(ring) && Usable(ring)
    ensures run[k + 1].slots[Home(ring, i)] == run[k].slots[Home(ring, i)] == run[k].pushes.accepted[i]
  {
    RunKeeps(run, actions, ring, width, k);
    RunKeeps(run, actions, ring, width, k + 1);
    CountersGrow(run[k], actions[k], ring, width);
    hide Home;
  }

  lemma {:induction false} CountersGrow(s: State, a: Action, ring: Ring, width: nat)
    requires Inv(s, ring, width) && Enabled(s, a, width)
    ensures s.pushes.accepted <= Step(s, a, ring, width).pushes.accepted
    ensures s.pops.stored <= Step(s, a, ring, width).pops.stored
  {
    hide IsFull, WordOf, Home, SlotOf, Increment, Fifo, SlotsInv, ProducerInv;
  }

  // ---- Calls come to an end ----------------------------------------------------------------

  // How many steps a push still needs.
  function ProducerSteps(p: Producer): nat
  {
    if p.at.PLoad? then |p.entry| + 3
    else if p.at.PFill? then (if p.next < |p.entry| then |p.entry| - p.next else 0) + 2
    else if p.at.POutside? then 0
    else 1
  }

  /** A push never waits for the consumer. It looks once whether the ring is full, and is accepted
      with its own entry or counted as dropped accordingly. */
  lemma {:induction false} PushEnds(s: State, ring: Ring, width: nat)
    requires Inv(s, ring, width) && !s.producer.at.POutside?
    ensures var t := ProducerNext(s, ring); var p, was, now := s.producer, s.pushes, t.pushes;
      && ProducerSteps(t.producer) < ProducerSteps(p) && t.consumer == s.consumer && t.pops == s.pops
      && (p.at.PLoad? ==> (t.producer.at.PDrop? <==> |was.accepted| - s.pops.stored == Limit(ring)))
      && now.begun == was.begun
      && now.accepted == was.accepted + (if p.at.PStore? then [p.entry] else [])
      && now.dropped == was.dropped + (if p.at.PDrop? then 1 else 0)
      && (t.producer.at.POutside? <==> p.at.PStore? || p.at.PDrop?)
  {
    if s.producer.at.PLoad? {
      FullTest(ring, |s.pushes.accepted|, s.pops.stored);
    }
    hide IsFull, SlotOf, Increment, Fifo, SlotsInv, Home;
  }

  /** A pop or batch begins by looking how many entries there are, a discard likewise before it. */
  lemma PopBegins(s: State, discard: bool, ring: Ring, width: nat)
    requires Usable(ring)
    ensures Step(s, Pop(discard), ring, width)
            == s.(consumer := s.consumer.(at := if discard then CDiscardLoad else CLoad, read := s.read))
  {
  }

  /** A pop looks at how many entries there are, and stops exactly when none of those is left. */
  lemma {:induction false} PopStopsWhenEmpty(s: State, ring: Ring, width: nat)
    requires Inv(s, ring, width) && (s.consumer.at.CLoad? || s.consumer.at.CTest?)
    ensures var t := ConsumerNext(s, ring, width);
      && t.producer == s.producer && t.pushes == s.pushes
      && (s.consumer.at.CLoad? ==> t.consumer.at.CTest? && t.pops == s.pops.(known := |s.pushes.accepted|))
      && (s.consumer.at.CTest? ==>
            && t.pops == s.pops
            && t.consumer.at == (if s.pops.taken < s.pops.known then CCopy
                                 else if ring.DeckQueue? then COutside else CStore))
  {
    if s.consumer.at.CTest? {
      SameWord(ring, s.pops.taken, s.pops.known);
    }
    hide IsFull, WordOf, Home, SlotOf, Increment, Fifo, ProducerInv, SlotsInv;
  }

  /** The entry taken is the oldest, whole; a batch goes on with the next one. */
  lemma {:induction false} PopTakesOldest(s: State, ring: Ring, width: nat)
    requires Inv(s, ring, width) && s.consumer.at.CCopy?
    ensures var t := ConsumerNext(s, ring, width);
      && t.producer == s.producer && t.pushes == s.pushes && s.pops.taken < |s.pushes.accepted|
      && if |s.consumer.copy| < width
         then t.pops == s.pops && t.consumer.at.CCopy? && |t.consumer.copy| == |s.consumer.copy| + 1
         else t.pops == Popped(s.pops, s.pushes.accepted[s.pops.taken])
              && t.consumer.at == (if ring.DeckQueue? then CStore else CTest)
  {
    NextIsThere(s, ring, width);
    CopyIsPrefix(s, ring, width);
    hide Inv, Home, SlotOf, Increment, Popped, Slots;
  }

  lemma CopyIsPrefix(s: State, ring: Ring, width: nat)
    requires Inv(s, ring, width) && s.consumer.at.CCopy?
    ensures s.pops.taken < |s.pushes.accepted| && |s.pushes.accepted[s.pops.taken]| == width
    ensures |s.consumer.copy| <= width
    ensures |s.consumer.copy| == width ==> s.consumer.copy == s.pushes.accepted[s.pops.taken]
  {
    hide IsFull, WordOf, Home, SlotOf, Increment, Fifo, ProducerInv;
  }

  /** Storing the read cursor gives all taken slots back; a discard takes everything that was there
      when it looked. */
  lemma {:induction false} PopGivesBack(s: State, ring: Ring, width: nat)
    requires Inv(s, ring, width)
    requires s.consumer.at.CDiscardLoad? || s.consumer.at.CDiscardStore? || s.consumer.at.CStore?
    ensures var t := ConsumerNext(s, ring, width);
      && t.producer == s.producer && t.pushes == s.pushes
      && (s.consumer.at.CStore? ==> t.consumer.at.COutside? && t.pops == s.pops.(stored := s.pops.taken))
      && (s.consumer.at.CDiscardLoad? ==>
            t.consumer.at.CDiscardStore? && t.pops == s.pops.(known := |s.pushes.accepted|))
      && (s.consumer.at.CDiscardStore? ==>
            && t.consumer.at.CLoad? && t.pops.popped == s.pops.popped
            && t.pops.stored == t.pops.taken == s.pops.known
            && t.pops.discarded == s.pops.discarded + (s.pops.known - s.pops.taken))
  {
    hide IsFull, WordOf, Home, SlotOf, Increment;
  }
}
