/**
 The sampler's voices: 32 slots share eight voices. A trigger restarts, stops or takes a
 voice; installing a sample retires the voice of its slot; rendering drains the command
 queue and lets voices begin, fade and end. The object works in place and is proved against
 functions on its contents. Control-thread calls exclude rendering through the gate, so
 each operation is one step. Timing decisions of a render are inputs.
 */
module SamplerVoices {

  import opened Wrappers

  const SLOTS := 32
  const VOICES := 8
  const QUEUE := 256

  datatype Sample = Sample(id: nat, loop: bool)

  datatype SlotState = Empty | Ready | Pending | Playing | Busy

  // `slot` is -1 when the voice is free.
  datatype Voice = Voice(slot: int, sample: Option<Sample>, pending: bool, stopping: bool, order: nat)

  datatype Command = Command(slot: int, quantize: int, stop: bool, generation: nat)

  datatype Engine = Engine(samples: seq<Option<Sample>>, voices: seq<Voice>, states: seq<SlotState>,
                           generations: seq<nat>, commands: seq<Command>, order: nat, panic: bool, prepared: bool)

  predicate Shaped(e: Engine)
  {
    && |e.samples| == |e.states| == |e.generations| == SLOTS && |e.voices| == VOICES
    && (forall i :: 0 <= i < VOICES ==> e.voices[i].slot < SLOTS)
    && (forall k :: 0 <= k < |e.commands| && !e.commands[k].stop ==> 0 <= e.commands[k].slot < SLOTS)
  }

  // ---- Specification -------------------------------------------------------------------

  function Resting(sample: Option<Sample>): SlotState { if sample.Some? then Ready else Empty }

  function Freed(v: Voice): Voice
  {
    v.(slot := -1, sample := None, pending := false)
  }

  function Retired(e: Engine, i: nat): (r: Engine)
    requires Shaped(e) && i < VOICES
    ensures Shaped(r)
  {
    var slot := e.voices[i].slot;
    e.(voices := e.voices[i := Freed(e.voices[i])],
       states := if slot >= 0 then e.states[slot := Resting(e.samples[slot])] else e.states)
  }

  // The first voice from `from` on that holds the slot, or VOICES.
  function Holder(voices: seq<Voice>, slot: int, from: nat): (i: nat)
    requires from <= |voices|
    ensures from <= i <= |voices|
    ensures i < |voices| ==> voices[i].slot == slot
    ensures forall j :: from <= j < i ==> voices[j].slot != slot
    decreases |voices| - from
  {
    if from == |voices| || voices[from].slot == slot then from else Holder(voices, slot, from + 1)
  }

  predicate OneShot(e: Engine, i: nat)
    requires |e.samples| == SLOTS && i < |e.voices|
  {
    var slot := e.voices[i].slot;
    0 <= slot < SLOTS && e.samples[slot].Some? && !e.samples[slot].value.loop
  }

  // The oldest one-shot voice among the first n, or VOICES.
  function Oldest(e: Engine, n: nat): (i: nat)
    requires Shaped(e) && n <= VOICES
    ensures i <= VOICES
    ensures i < VOICES ==> i < n && OneShot(e, i)
    ensures i < VOICES ==> forall j :: 0 <= j < n && OneShot(e, j) ==> e.voices[i].order <= e.voices[j].order
    ensures i == VOICES ==> forall j :: 0 <= j < n ==> !OneShot(e, j)
  {
    if n == 0 then VOICES
    else
      var best := Oldest(e, n - 1);
      if OneShot(e, n - 1) && (best == VOICES || e.voices[n - 1].order < e.voices[best].order) then n - 1 else best
  }

  // The voice a trigger of this slot may use: its own, a free one, or the oldest one-shot.
  function Choice(e: Engine, slot: nat): (i: nat)
    requires Shaped(e)
    ensures i <= VOICES
  {
    var own := Holder(e.voices, slot, 0);
    var free := FirstFree(e.voices, 0);
    if own < VOICES then own else if free < VOICES then free else Oldest(e, VOICES)
  }

  function FirstFree(voices: seq<Voice>, from: nat): (i: nat)
    requires from <= |voices|
    ensures from <= i <= |voices|
    ensures i < |voices| ==> voices[i].slot < 0
    ensures forall j :: from <= j < i ==> voices[j].slot >= 0
    decreases |voices| - from
  {
    if from == |voices| || voices[from].slot < 0 then from else FirstFree(voices, from + 1)
  }

  function Occupied(e: Engine, i: nat, slot: nat, quantize: int): (r: Engine)
    requires Shaped(e) && i < VOICES && slot < SLOTS
    ensures Shaped(r)
  {
    var pending := quantize > 0;
    e.(voices := e.voices[i := Voice(slot, e.samples[slot], pending, false, e.order + 1)],
       states := e.states[slot := if pending then Pending else Playing],
       order := e.order + 1)
  }

  function Started(e: Engine, slot: nat, quantize: int): (r: Engine)
    requires Shaped(e) && slot < SLOTS
    ensures Shaped(r)
  {
    if e.samples[slot].None? then e
    else
      var own := Holder(e.voices, slot, 0);
      if own < VOICES && (e.samples[slot].value.loop || e.voices[own].pending) && !e.voices[own].stopping
      then e.(voices := e.voices[own := e.voices[own].(stopping := true)])
      else
        var i := Choice(e, slot);
        if i == VOICES then e.(states := e.states[slot := Busy])
        else Occupied(Retired(e, i), i, slot, quantize)
  }

  function StopVoices(voices: seq<Voice>, slot: int): (r: seq<Voice>)
    ensures |r| == |voices|
    ensures forall i :: 0 <= i < |r| ==>
      r[i] == if slot < 0 || voices[i].slot == slot then voices[i].(stopping := true) else voices[i]
  {
    seq(|voices|, i requires 0 <= i < |voices| =>
      if slot < 0 || voices[i].slot == slot then voices[i].(stopping := true) else voices[i])
  }

  function Executed(e: Engine, c: Command): (r: Engine)
    requires Shaped(e) && (c.stop || 0 <= c.slot < SLOTS)
    ensures Shaped(r)
  {
    if c.stop then e.(voices := StopVoices(e.voices, c.slot))
    else if c.generation == e.generations[c.slot] then Started(e, c.slot, c.quantize)
    else e
  }

  // Executes and removes the first command.
  function Served(e: Engine): (r: Engine)
    requires Shaped(e) && |e.commands| > 0
    ensures Shaped(r) && |r.commands| == |e.commands| - 1
  {
    Executed(e, e.commands[0]).(commands := e.commands[1..])
  }

  function Drained(e: Engine, n: nat): (r: Engine)
    requires Shaped(e) && n <= |e.commands|
    ensures Shaped(r) && |r.commands| == |e.commands| - n
  {
    if n == 0 then e else Served(Drained(e, n - 1))
  }

  // What time does to a voice in one block: a pending one may be due, a one-shot may have
  // ended, a stopping one may have faded out.
  datatype Passage = Passage(due: bool, ended: bool, faded: bool)

  // A pending voice begins to play.
  function Begun(e: Engine, i: nat): (r: Engine)
    requires Shaped(e) && i < VOICES && e.voices[i].slot >= 0
    ensures Shaped(r)
  {
    e.(voices := e.voices[i := e.voices[i].(pending := false)], states := e.states[e.voices[i].slot := Playing])
  }

  function Flagged(e: Engine, i: nat, stopping: bool): (r: Engine)
    requires Shaped(e) && i < VOICES
    ensures Shaped(r)
  {
    e.(voices := e.voices[i := e.voices[i].(stopping := stopping)])
  }

  function Ticked(e: Engine, i: nat, p: Passage): (r: Engine)
    requires Shaped(e) && i < VOICES
    ensures Shaped(r)
  {
    var v := e.voices[i];
    if v.slot < 0 then e
    else if v.pending && v.stopping then Retired(e, i)
    else if v.pending && !p.due then e
    else
      var stopping := v.stopping || (p.ended && v.sample.Some? && !v.sample.value.loop);
      var f := Flagged(if v.pending then Begun(e, i) else e, i, stopping);
      if stopping && p.faded then Retired(f, i) else f
  }

  function TickedAll(e: Engine, passages: seq<Passage>, n: nat): (r: Engine)
    requires Shaped(e) && |passages| == VOICES && n <= VOICES
    ensures Shaped(r)
  {
    if n == 0 then e else Ticked(TickedAll(e, passages, n - 1), n - 1, passages[n - 1])
  }

  // There are that many commands to drop, in a panic, and to execute.
  predicate Available(e: Engine, dropped: nat, executed: nat)
  {
    dropped <= |e.commands| && (if e.panic then dropped + executed else executed) <= |e.commands|
  }

  // A block of audio. A panic first drops the commands there are and stops all voices; then
  // the commands that are there are executed, and time passes.
  function Calmed(e: Engine, dropped: nat): (r: Engine)
    requires Shaped(e) && dropped <= |e.commands|
    ensures Shaped(r)
  {
    if e.panic then e.(commands := e.commands[dropped..], voices := StopVoices(e.voices, -1), panic := false) else e
  }

  function Rendered(e: Engine, dropped: nat, executed: nat, passages: seq<Passage>): (r: Engine)
    requires Shaped(e) && |passages| == VOICES && Available(e, dropped, executed)
    ensures Shaped(r)
  {
    if e.prepared then TickedAll(Drained(Calmed(e, dropped), executed), passages, VOICES) else e
  }

  // Takes one voice away when the device goes away. The voice stays pending if it was.
  function LetGo(e: Engine, i: nat): (r: Engine)
    requires Shaped(e) && i < VOICES
    ensures Shaped(r)
  {
    var v := e.voices[i];
    e.(voices := e.voices[i := v.(slot := -1, sample := None)],
       states := if v.slot >= 0 then e.states[v.slot := Ready] else e.states)
  }

  function LetAllGo(e: Engine, n: nat): (r: Engine)
    requires Shaped(e) && n <= VOICES
    ensures Shaped(r)
  {
    if n == 0 then e else LetGo(LetAllGo(e, n - 1), n - 1)
  }

  function Released(e: Engine): (r: Engine)
    requires Shaped(e)
    ensures Shaped(r)
  {
    LetAllGo(e, VOICES).(commands := [], prepared := false)
  }

  // Retires every voice of the slot among the first n.
  function RetiredOf(e: Engine, slot: nat, n: nat): (r: Engine)
    requires Shaped(e) && n <= VOICES
    ensures Shaped(r)
  {
    if n == 0 then e
    else
      var before := RetiredOf(e, slot, n - 1);
      if before.voices[n - 1].slot == slot then Retired(before, n - 1) else before
  }

  function Installed(e: Engine, slot: nat, sample: Option<Sample>): (r: Engine)
    requires Shaped(e) && slot < SLOTS
    ensures Shaped(r)
  {
    var f := RetiredOf(e, slot, VOICES);
    f.(samples := f.samples[slot := sample], generations := f.generations[slot := f.generations[slot] + 1],
       states := f.states[slot := Resting(sample)])
  }

  function Enqueued(e: Engine, c: Command): (Engine, bool)
  {
    if |e.commands| == QUEUE then (e, false) else (e.(commands := e.commands + [c]), true)
  }

  function Triggered(e: Engine, slot: int, quantize: int): (Engine, bool)
    requires Shaped(e)
  {
    if slot < 0 || slot >= SLOTS then (e, false)
    else Enqueued(e, Command(slot, quantize, false, e.generations[slot]))
  }

  // A stop that does not fit in the queue becomes a panic.
  function Stopped(e: Engine, slot: int): Engine
  {
    var (f, queued) := Enqueued(e, Command(slot, 0, true, 0));
    if queued then f else f.(panic := true)
  }

  function Start(): Engine
  {
    Engine(seq(SLOTS, _ => None), seq(VOICES, _ => Voice(-1, None, false, false, 0)), seq(SLOTS, _ => Empty),
           seq(SLOTS, _ => 0), [], 0, false, false)
  }

  // ---- The engine object ---------------------------------------------------------------

  class Sampler {
    var samples: seq<Option<Sample>>
    var voices: seq<Voice>
    var states: seq<SlotState>
    var generations: seq<nat>
    var commands: seq<Command>
    var order: nat
    var panic: bool
    var prepared: bool

    function View(): Engine
      reads this
    {
      Engine(samples, voices, states, generations, commands, order, panic, prepared)
    }

    constructor ()
      ensures View() == Start()
    {
      samples := seq(SLOTS, _ => None);
      voices := seq(VOICES, _ => Voice(-1, None, false, false, 0));
      states := seq(SLOTS, _ => Empty);
      generations := seq(SLOTS, _ => 0);
      commands := [];
      order := 0;
      panic := false;
      prepared := false;
    }

    method Enqueue(c: Command) returns (queued: bool)
      modifies this`commands
      ensures (View(), queued) == Enqueued(old(View()), c)
    {
      queued := |commands| != QUEUE;
      if queued {
        commands := commands + [c];
      }
    }

    method Trigger(slot: int, quantize: int) returns (queued: bool)
      requires Shaped(View())
      modifies this`commands
      ensures (View(), queued) == Triggered(old(View()), slot, quantize)
    {
      if slot < 0 || slot >= SLOTS {
        return false;
      }
      queued := Enqueue(Command(slot, quantize, false, generations[slot]));
    }

    method Stop(slot: int)
      modifies this`commands, this`panic
      ensures View() == Stopped(old(View()), slot)
    {
      var queued := Enqueue(Command(slot, 0, true, 0));
      if !queued {
        panic := true;
      }
    }

    method Retire(i: nat)
      requires Shaped(View()) && i < VOICES
      modifies this`voices, this`states
      ensures View() == Retired(old(View()), i)
    {
      var v := voices[i];
      if v.slot >= 0 {
        states := states[v.slot := if samples[v.slot].Some? then Ready else Empty];
      }
      voices := voices[i := v.(slot := -1, sample := None, pending := false)];
    }

    method Install(slot: int, sample: Option<Sample>)
      requires Shaped(View())
      modifies this
      ensures View() == if 0 <= slot < SLOTS then Installed(old(View()), slot, sample) else old(View())
    {
      if slot < 0 || slot >= SLOTS {
        return;
      }
      var i := 0;
      while i < VOICES
        invariant i <= VOICES && View() == RetiredOf(old(View()), slot, i)
      {
        if voices[i].slot == slot {
          Retire(i);
        }
        i := i + 1;
      }
      samples := samples[slot := sample];
      generations := generations[slot := generations[slot] + 1];
      states := states[slot := if sample.Some? then Ready else Empty];
    }

    method FindHolder(slot: nat) returns (i: nat)
      requires Shaped(View())
      ensures i == Holder(voices, slot, 0)
    {
      i := 0;
      while i < VOICES && voices[i].slot != slot
        invariant i <= VOICES && Holder(voices, slot, 0) == Holder(voices, slot, i)
      {
        i := i + 1;
      }
    }

    method FindFree() returns (i: nat)
      requires Shaped(View())
      ensures i == FirstFree(voices, 0)
    {
      i := 0;
      while i < VOICES && voices[i].slot >= 0
        invariant i <= VOICES && FirstFree(voices, 0) == FirstFree(voices, i)
      {
        i := i + 1;
      }
    }

    method FindOldest() returns (choice: nat)
      requires Shaped(View())
      ensures choice == Oldest(View(), VOICES)
    {
      choice := VOICES;
      var i := 0;
      while i < VOICES
        invariant i <= VOICES && choice == Oldest(View(), i)
      {
        var slot := voices[i].slot;
        if slot >= 0 && samples[slot].Some? && !samples[slot].value.loop
           && (choice == VOICES || voices[i].order < voices[choice].order) {
          choice := i;
        }
        i := i + 1;
      }
    }

    // The voice a trigger may use, or VOICES.
    method Choose(slot: nat) returns (choice: nat)
      requires Shaped(View())
      ensures choice == Choice(View(), slot)
    {
      choice := FindHolder(slot);
      if choice == VOICES {
        choice := FindFree();
      }
      if choice == VOICES {
        choice := FindOldest();
      }
    }

    method Begin(slot: nat, quantize: int)
      requires Shaped(View()) && slot < SLOTS
      modifies this`voices, this`states, this`order
      ensures View() == Started(old(View()), slot, quantize)
    {
      if samples[slot].None? {
        return;
      }
      var i := Choose(slot);
      if i == VOICES {
        states := states[slot := Busy];
        return;
      }
      if voices[i].slot == slot && (samples[slot].value.loop || voices[i].pending) && !voices[i].stopping {
        voices := voices[i := voices[i].(stopping := true)];
        return;
      }
      Retire(i);
      order := order + 1;
      voices := voices[i := Voice(slot, samples[slot], quantize > 0, false, order)];
      states := states[slot := if quantize > 0 then Pending else Playing];
    }

    method StopAllOf(slot: int)
      modifies this`voices
      ensures View() == old(View()).(voices := StopVoices(old(voices), slot))
    {
      ghost var before := voices;
      var i := 0;
      while i < |voices|
        invariant i <= |voices| == |before|
        invariant forall j :: 0 <= j < |voices| ==>
          voices[j] == if j < i && (slot < 0 || before[j].slot == slot) then before[j].(stopping := true) else before[j]
      {
        if slot < 0 || voices[i].slot == slot {
          voices := voices[i := voices[i].(stopping := true)];
        }
        i := i + 1;
      }
    }

    // Lets one block pass for one voice.
    method Pass(i: nat, p: Passage)
      requires Shaped(View()) && i < VOICES
      modifies this`voices, this`states
      ensures View() == Ticked(old(View()), i, p)
    {
      if voices[i].slot < 0 {
        return;
      }
      if voices[i].pending {
        if voices[i].stopping {
          Retire(i);
          return;
        }
        if !p.due {
          return;
        }
        states := states[voices[i].slot := Playing];
        voices := voices[i := voices[i].(pending := false)];
      }
      var v := voices[i];
      if p.ended && v.sample.Some? && !v.sample.value.loop {
        v := v.(stopping := true);
      }
      voices := voices[i := v];
      if v.stopping && p.faded {
        Retire(i);
      }
    }

    method Calm(dropped: nat)
      requires Shaped(View()) && dropped <= |commands|
      modifies this
      ensures View() == Calmed(old(View()), dropped)
    {
      if panic {
        panic := false;
        commands := commands[dropped..];
        StopAllOf(-1);
      }
    }

    method Render(dropped: nat, executed: nat, passages: seq<Passage>)
      requires Shaped(View()) && |passages| == VOICES && Available(View(), dropped, executed)
      modifies this
      ensures View() == Rendered(old(View()), dropped, executed, passages)
    {
      if !prepared {
        return;
      }
      Calm(dropped);
      Drain(executed);
      ghost var drained := View();
      var i := 0;
      while i < VOICES
        invariant i <= VOICES && View() == TickedAll(drained, passages, i)
      {
        Pass(i, passages[i]);
        i := i + 1;
      }
    }

    method Release()
      requires Shaped(View())
      modifies this
      ensures View() == Released(old(View()))
    {
      var i := 0;
      while i < VOICES
        invariant i <= VOICES && View() == LetAllGo(old(View()), i)
      {
        var v := voices[i];
        if v.slot >= 0 {
          states := states[v.slot := Ready];
        }
        voices := voices[i := v.(slot := -1, sample := None)];
        i := i + 1;
      }
      prepared := false;
      commands := [];
    }

    method Prepare()
      requires Shaped(View())
      modifies this
      ensures View() == Released(old(View())).(prepared := true)
    {
      Release();
      prepared := true;
    }

    method Execute(c: Command)
      requires Shaped(View()) && (c.stop || 0 <= c.slot < SLOTS)
      modifies this`voices, this`states, this`order
      ensures View() == Executed(old(View()), c)
    {
      if c.stop {
        StopAllOf(c.slot);
      } else if c.generation == generations[c.slot] {
        Begin(c.slot, c.quantize);
      }
    }

    // Executes the next n commands in their order.
    method Drain(n: nat)
      requires Shaped(View()) && n <= |commands|
      modifies this
      ensures View() == Drained(old(View()), n)
    {
      var i := 0;
      while i < n
        invariant i <= n && View() == Drained(old(View()), i)
      {
        ServeFirst();
        i := i + 1;
      }
    }

    method ServeFirst()
      requires Shaped(View()) && |commands| > 0
      modifies this
      ensures View() == Served(old(View()))
    {
      Execute(commands[0]);
      commands := commands[1..];
    }
  }

  // ---- Invariant -----------------------------------------------------------------------

  // No two voices hold one slot, and no two held voices are equally old.
  predicate Apart(voices: seq<Voice>)
  {
    forall i, j :: 0 <= i < j < |voices| && voices[i].slot >= 0 && voices[j].slot >= 0 ==>
      voices[i].slot != voices[j].slot && voices[i].order != voices[j].order
  }

  // A held voice plays the live sample of its slot, and the slot says so.
  predicate VoiceInv(v: Voice, samples: seq<Option<Sample>>, states: seq<SlotState>, order: nat)
    requires |samples| == |states| == SLOTS
  {
    if v.slot < 0 then v.slot == -1 && v.sample.None?
    else
      && v.slot < SLOTS && samples[v.slot].Some? && v.sample == samples[v.slot] && v.order <= order
      && states[v.slot] == if v.pending then Pending else Playing
  }

  predicate Held(voices: seq<Voice>, slot: int)
  {
    exists i :: 0 <= i < |voices| && voices[i].slot == slot
  }

  // A slot without a voice is empty exactly when it has no sample.
  predicate SlotInv(state: SlotState, sample: Option<Sample>, voices: seq<Voice>, slot: nat)
  {
    match state
    case Empty => sample.None?
    case Ready => sample.Some?
    case Busy => sample.Some?
    case Pending => Held(voices, slot)
    case Playing => Held(voices, slot)
  }

  predicate VoicesInv(voices: seq<Voice>, samples: seq<Option<Sample>>, states: seq<SlotState>, order: nat)
  {
    && |samples| == |states| == SLOTS && |voices| == VOICES
    && forall i :: 0 <= i < VOICES ==> VoiceInv(voices[i], samples, states, order)
  }

  predicate SlotsInv(states: seq<SlotState>, samples: seq<Option<Sample>>, voices: seq<Voice>)
  {
    && |samples| == |states| == SLOTS
    && forall s :: 0 <= s < SLOTS ==> SlotInv(states[s], samples[s], voices, s)
  }

  predicate Valid(e: Engine)
  {
    && Shaped(e) && Apart(e.voices)
    && VoicesInv(e.voices, e.samples, e.states, e.order)
    && SlotsInv(e.states, e.samples, e.voices)
    && |e.commands| <= QUEUE
  }

  // Replacing one voice.
  lemma {:induction false} ReplaceKeepsApart(voices: seq<Voice>, i: nat, v: Voice)
    requires Apart(voices) && i < |voices|
    requires v.slot < 0 || (v.slot == voices[i].slot && v.order == voices[i].order)
             || forall j :: 0 <= j < |voices| && j != i && voices[j].slot >= 0 ==>
                  voices[j].slot != v.slot && voices[j].order != v.order
    ensures Apart(voices[i := v])
  {
  }

  // Nobody else holds the slot of a held voice.
  lemma {:induction false} OnlyHolder(voices: seq<Voice>, i: nat, j: nat)
    requires Apart(voices) && i < |voices| && j < |voices| && voices[i].slot == voices[j].slot >= 0
    ensures i == j
  {
  }

  lemma {:induction false} OthersElsewhere(voices: seq<Voice>, i: nat)
    requires Apart(voices) && i < |voices| && voices[i].slot >= 0
    ensures forall j :: 0 <= j < |voices| && j != i ==> voices[j].slot != voices[i].slot
  {
  }

  lemma {:induction false} RetiredKeepsVoices(e: Engine, i: nat)
    requires Valid(e) && i < VOICES
    ensures var r := Retired(e, i); Apart(r.voices) && VoicesInv(r.voices, r.samples, r.states, r.order)
  {
    var r := Retired(e, i);
    ReplaceKeepsApart(e.voices, i, Freed(e.voices[i]));
    if e.voices[i].slot >= 0 {
      OthersElsewhere(e.voices, i);
    }
    forall j | 0 <= j < VOICES ensures VoiceInv(r.voices[j], r.samples, r.states, r.order) {
      assert VoiceInv(e.voices[j], e.samples, e.states, e.order);
      assert VoiceInv(e.voices[i], e.samples, e.states, e.order);
    }
  }

  lemma {:induction false} RetiredKeepsSlots(e: Engine, i: nat)
    requires Valid(e) && i < VOICES
    ensures var r := Retired(e, i); SlotsInv(r.states, r.samples, r.voices)
  {
    var r := Retired(e, i);
    forall s | 0 <= s < SLOTS ensures SlotInv(r.states[s], r.samples[s], r.voices, s) {
      assert SlotInv(e.states[s], e.samples[s], e.voices, s);
      if s != e.voices[i].slot && Held(e.voices, s) {
        var j :| 0 <= j < VOICES && e.voices[j].slot == s;
        assert r.voices[j].slot == s;
      }
    }
  }

  lemma {:induction false} RetiredKeeps(e: Engine, i: nat)
    requires Valid(e) && i < VOICES
    ensures Valid(Retired(e, i))
  {
    RetiredKeepsVoices(e, i);
    RetiredKeepsSlots(e, i);
    hide Apart, VoicesInv, SlotsInv;
  }

  // After its own voice is retired, nobody holds a slot.
  lemma {:induction false} RetiredFrees(e: Engine, i: nat, slot: nat)
    requires Valid(e) && i < VOICES && slot < SLOTS && (Held(e.voices, slot) ==> e.voices[i].slot == slot)
    ensures !Held(Retired(e, i).voices, slot) && Retired(e, i).voices[i].slot < 0
  {
    var r := Retired(e, i);
    forall j | 0 <= j < VOICES && r.voices[j].slot == slot ensures false {
      assert j != i && e.voices[j].slot == slot;
      OnlyHolder(e.voices, i, j);
    }
  }

  lemma {:induction false} OccupiedKeepsVoices(e: Engine, i: nat, slot: nat, quantize: int)
    requires Valid(e) && i < VOICES && slot < SLOTS && e.voices[i].slot < 0 && !Held(e.voices, slot)
    requires e.samples[slot].Some?
    ensures var r := Occupied(e, i, slot, quantize);
      Apart(r.voices) && VoicesInv(r.voices, r.samples, r.states, r.order)
  {
    var r := Occupied(e, i, slot, quantize);
    forall j | 0 <= j < VOICES && j != i
      ensures VoiceInv(r.voices[j], r.samples, r.states, r.order)
      ensures e.voices[j].slot >= 0 ==> e.voices[j].slot != slot && e.voices[j].order != r.order
    {
      assert VoiceInv(e.voices[j], e.samples, e.states, e.order);
      assert e.voices[j].slot == slot ==> Held(e.voices, slot);
    }
    ReplaceKeepsApart(e.voices, i, r.voices[i]);
  }

  lemma {:induction false} OccupiedKeepsSlots(e: Engine, i: nat, slot: nat, quantize: int)
    requires Valid(e) && i < VOICES && slot < SLOTS && e.voices[i].slot < 0
    ensures var r := Occupied(e, i, slot, quantize); SlotsInv(r.states, r.samples, r.voices)
  {
    var r := Occupied(e, i, slot, quantize);
    assert r.voices[i].slot == slot;
    forall s | 0 <= s < SLOTS ensures SlotInv(r.states[s], r.samples[s], r.voices, s) {
      assert SlotInv(e.states[s], e.samples[s], e.voices, s);
      if s != slot && Held(e.voices, s) {
        var j :| 0 <= j < VOICES && e.voices[j].slot == s;
        assert r.voices[j].slot == s;
      }
    }
  }

  lemma {:induction false} OccupiedKeeps(e: Engine, i: nat, slot: nat, quantize: int)
    requires Valid(e) && i < VOICES && slot < SLOTS && e.voices[i].slot < 0 && !Held(e.voices, slot)
    requires e.samples[slot].Some?
    ensures Valid(Occupied(e, i, slot, quantize))
  {
    OccupiedKeepsVoices(e, i, slot, quantize);
    OccupiedKeepsSlots(e, i, slot, quantize);
    hide Apart, VoicesInv, SlotsInv;
  }

  // Changing only the `stopping` flags.
  predicate SameButStopping(u: seq<Voice>, v: seq<Voice>)
  {
    && |u| == |v|
    && forall i :: 0 <= i < |u| ==> v[i] == u[i].(stopping := v[i].stopping)
  }

  lemma {:induction false} StoppingKeeps(e: Engine, voices: seq<Voice>)
    requires Valid(e) && SameButStopping(e.voices, voices)
    ensures Valid(e.(voices := voices))
  {
    assert forall i :: 0 <= i < VOICES ==> VoiceInv(e.voices[i], e.samples, e.states, e.order);
    forall s | 0 <= s < SLOTS ensures SlotInv(e.states[s], e.samples[s], voices, s) {
      if Held(e.voices, s) {
        var j :| 0 <= j < VOICES && e.voices[j].slot == s;
        assert voices[j].slot == s;
      }
    }
  }

  lemma {:induction false} HolderHolds(voices: seq<Voice>, slot: int)
    ensures Held(voices, slot) <==> Holder(voices, slot, 0) < |voices|
  {
  }

  lemma {:induction false} BusyKeeps(e: Engine, slot: nat)
    requires Valid(e) && slot < SLOTS && e.samples[slot].Some? && !Held(e.voices, slot)
    ensures Valid(e.(states := e.states[slot := Busy]))
  {
    var r := e.(states := e.states[slot := Busy]);
    forall j | 0 <= j < VOICES ensures VoiceInv(r.voices[j], r.samples, r.states, r.order) {
      assert VoiceInv(e.voices[j], e.samples, e.states, e.order);
      assert e.voices[j].slot == slot ==> Held(e.voices, slot);
    }
    assert forall s :: 0 <= s < SLOTS ==> SlotInv(e.states[s], e.samples[s], e.voices, s);
    hide Apart;
  }

  lemma RetiredKeepsSamples(e: Engine, i: nat)
    requires Shaped(e) && i < VOICES
    ensures Retired(e, i).samples == e.samples
  {
  }

  lemma {:induction false} StartedKeeps(e: Engine, slot: nat, quantize: int)
    requires Valid(e) && slot < SLOTS
    ensures Valid(Started(e, slot, quantize))
  {
    hide Apart, VoicesInv, SlotsInv, Retired, Occupied, Holder, Held;
    if e.samples[slot].Some? {
      var own := Holder(e.voices, slot, 0);
      HolderHolds(e.voices, slot);
      if own < VOICES && (e.samples[slot].value.loop || e.voices[own].pending) && !e.voices[own].stopping {
        StoppingKeeps(e, e.voices[own := e.voices[own].(stopping := true)]);
      } else {
        var i := Choice(e, slot);
        if i == VOICES {
          BusyKeeps(e, slot);
        } else {
          RetiredKeeps(e, i);
          RetiredFrees(e, i, slot);
          RetiredKeepsSamples(e, i);
          OccupiedKeeps(Retired(e, i), i, slot, quantize);
        }
      }
    }
  }

  lemma {:induction false} ExecutedKeeps(e: Engine, c: Command)
    requires Valid(e) && (c.stop || 0 <= c.slot < SLOTS)
    ensures Valid(Executed(e, c))
    ensures Executed(e, c).commands == e.commands
  {
    if c.stop {
      StoppingKeeps(e, StopVoices(e.voices, c.slot));
    } else {
      StartedKeeps(e, c.slot, c.quantize);
      StartedKeepsQueue(e, c.slot, c.quantize);
    }
    hide Valid, Started;
  }

  // Voices come and go without touching samples, generations or the queue.
  predicate SameSlots(e: Engine, r: Engine)
  {
    r.samples == e.samples && r.generations == e.generations && r.commands == e.commands
  }

  lemma StartedKeepsQueue(e: Engine, slot: nat, quantize: int)
    requires Shaped(e) && slot < SLOTS
    ensures SameSlots(e, Started(e, slot, quantize))
  {
    hide Choice, Holder;
  }

  lemma {:induction false} DroppedKeeps(e: Engine, n: nat)
    requires Valid(e) && n <= |e.commands|
    ensures Valid(e.(commands := e.commands[n..]))
  {
    hide Apart, VoicesInv, SlotsInv;
  }

  lemma {:induction false} DrainedKeeps(e: Engine, n: nat)
    requires Valid(e) && n <= |e.commands|
    ensures Valid(Drained(e, n))
  {
    assert Shaped(e);
    hide Valid, Executed;
    if n > 0 {
      DrainedKeeps(e, n - 1);
      var d := Drained(e, n - 1);
      var f := Executed(d, d.commands[0]);
      ExecutedKeeps(d, d.commands[0]);
      DroppedKeeps(f, 1);
    }
  }

  lemma {:induction false} BegunKeeps(e: Engine, i: nat)
    requires Valid(e) && i < VOICES && e.voices[i].slot >= 0
    ensures Valid(Begun(e, i)) && SameSlots(e, Begun(e, i))
  {
    var slot, r := e.voices[i].slot, Begun(e, i);
    ReplaceKeepsApart(e.voices, i, r.voices[i]);
    OthersElsewhere(e.voices, i);
    hide Apart;
    forall j | 0 <= j < VOICES ensures VoiceInv(r.voices[j], r.samples, r.states, r.order) {
      assert VoiceInv(e.voices[j], e.samples, e.states, e.order);
    }
    assert r.voices[i].slot == slot;
    forall s | 0 <= s < SLOTS ensures SlotInv(r.states[s], r.samples[s], r.voices, s) {
      assert SlotInv(e.states[s], e.samples[s], e.voices, s);
      if Held(e.voices, s) {
        var j :| 0 <= j < VOICES && e.voices[j].slot == s;
        assert r.voices[j].slot == s;
      }
    }
  }

  lemma {:induction false} FlaggedKeeps(e: Engine, i: nat, stopping: bool)
    requires Valid(e) && i < VOICES
    ensures Valid(Flagged(e, i, stopping)) && SameSlots(e, Flagged(e, i, stopping))
  {
    StoppingKeeps(e, Flagged(e, i, stopping).voices);
    hide Valid;
  }

  lemma {:induction false} TickedKeeps(e: Engine, i: nat, p: Passage)
    requires Valid(e) && i < VOICES
    ensures Valid(Ticked(e, i, p))
    ensures SameSlots(e, Ticked(e, i, p))
  {
    assert Shaped(e);
    hide Valid, Begun, Flagged;
    var v := e.voices[i];
    if v.slot >= 0 {
      RetiredKeeps(e, i);
      BegunKeeps(e, i);
      var stopping := v.stopping || (p.ended && v.sample.Some? && !v.sample.value.loop);
      var began := if v.pending then Begun(e, i) else e;
      FlaggedKeeps(began, i, stopping);
      RetiredKeeps(Flagged(began, i, stopping), i);
    }
  }

  lemma {:induction false} TickedAllKeeps(e: Engine, passages: seq<Passage>, n: nat)
    requires Valid(e) && |passages| == VOICES && n <= VOICES
    ensures Valid(TickedAll(e, passages, n))
    ensures SameSlots(e, TickedAll(e, passages, n))
  {
    assert Shaped(e);
    hide Valid, Ticked;
    if n > 0 {
      TickedAllKeeps(e, passages, n - 1);
      TickedKeeps(TickedAll(e, passages, n - 1), n - 1, passages[n - 1]);
    }
  }

  lemma {:induction false} CalmedKeeps(e: Engine, dropped: nat)
    requires Valid(e) && dropped <= |e.commands|
    ensures Valid(Calmed(e, dropped))
    ensures Calmed(e, dropped).samples == e.samples && Calmed(e, dropped).generations == e.generations
  {
    if e.panic {
      DroppedKeeps(e, dropped);
      StoppingKeeps(e.(commands := e.commands[dropped..]), StopVoices(e.voices, -1));
    }
    hide Apart, VoicesInv, SlotsInv;
  }

  lemma {:induction false} RenderedKeeps(e: Engine, dropped: nat, executed: nat, passages: seq<Passage>)
    requires Valid(e) && |passages| == VOICES && Available(e, dropped, executed)
    ensures Valid(Rendered(e, dropped, executed, passages))
  {
    CalmedKeeps(e, dropped);
    var calm := Calmed(e, dropped);
    hide Valid, Calmed, Drained, TickedAll;
    DrainedKeeps(calm, executed);
    TickedAllKeeps(Drained(calm, executed), passages, VOICES);
  }

  lemma {:induction false} RetiredOfKeeps(e: Engine, slot: nat, n: nat)
    requires Shaped(e) && Valid(e) && n <= VOICES
    ensures Valid(RetiredOf(e, slot, n))
  {
    hide Valid, Retired, Shaped;
    if n > 0 {
      RetiredOfKeeps(e, slot, n - 1);
      RetiredKeeps(RetiredOf(e, slot, n - 1), n - 1);
    }
  }

  lemma {:induction false} RetiredOfFrees(e: Engine, slot: nat, n: nat)
    requires Shaped(e) && n <= VOICES && slot < SLOTS
    ensures forall i :: 0 <= i < n ==> RetiredOf(e, slot, n).voices[i].slot != slot
  {
    if n > 0 {
      RetiredOfFrees(e, slot, n - 1);
    }
  }

  lemma {:induction false} ReplaceSample(e: Engine, slot: nat, sample: Option<Sample>)
    requires Valid(e) && slot < SLOTS && !Held(e.voices, slot)
    ensures Valid(e.(samples := e.samples[slot := sample],
                     generations := e.generations[slot := e.generations[slot] + 1],
                     states := e.states[slot := Resting(sample)]))
  {
    var r := e.(samples := e.samples[slot := sample], generations := e.generations[slot := e.generations[slot] + 1],
                states := e.states[slot := Resting(sample)]);
    forall j | 0 <= j < VOICES ensures VoiceInv(r.voices[j], r.samples, r.states, r.order) {
      assert VoiceInv(e.voices[j], e.samples, e.states, e.order);
      assert e.voices[j].slot == slot ==> Held(e.voices, slot);
    }
    assert forall s :: 0 <= s < SLOTS ==> SlotInv(e.states[s], e.samples[s], e.voices, s);
    hide Apart, Held;
  }

  lemma {:induction false} InstalledKeeps(e: Engine, slot: nat, sample: Option<Sample>)
    requires Valid(e) && slot < SLOTS
    ensures Valid(Installed(e, slot, sample))
  {
    assert Shaped(e);
    RetiredOfKeeps(e, slot, VOICES);
    RetiredOfFrees(e, slot, VOICES);
    ReplaceSample(RetiredOf(e, slot, VOICES), slot, sample);
    hide Valid, RetiredOf;
  }

  lemma {:induction false} EnqueuedKeeps(e: Engine, c: Command)
    requires Valid(e) && (c.stop || 0 <= c.slot < SLOTS)
    ensures Valid(Enqueued(e, c).0)
  {
    hide Apart, VoicesInv, SlotsInv;
  }

  // A free voice may be marked pending.
  lemma {:induction false} FreePendingKeeps(e: Engine, i: nat, pending: bool)
    requires Valid(e) && i < VOICES && e.voices[i].slot < 0
    ensures Valid(e.(voices := e.voices[i := e.voices[i].(pending := pending)]))
  {
    var r := e.(voices := e.voices[i := e.voices[i].(pending := pending)]);
    ReplaceKeepsApart(e.voices, i, r.voices[i]);
    hide Apart;
    forall j | 0 <= j < VOICES ensures VoiceInv(r.voices[j], r.samples, r.states, r.order) {
      assert VoiceInv(e.voices[j], e.samples, e.states, e.order);
    }
    forall s | 0 <= s < SLOTS ensures SlotInv(r.states[s], r.samples[s], r.voices, s) {
      assert SlotInv(e.states[s], e.samples[s], e.voices, s);
      if Held(e.voices, s) {
        var j :| 0 <= j < VOICES && e.voices[j].slot == s;
        assert r.voices[j].slot == s;
      }
    }
  }

  lemma {:induction false} LetGoKeeps(e: Engine, i: nat)
    requires Valid(e) && i < VOICES
    ensures Valid(LetGo(e, i)) && SameSlots(e, LetGo(e, i))
  {
    assert VoiceInv(e.voices[i], e.samples, e.states, e.order);
    RetiredKeeps(e, i);
    FreePendingKeeps(Retired(e, i), i, e.voices[i].pending);
    assert e.voices[i].slot >= 0 ==> Resting(e.samples[e.voices[i].slot]) == Ready;
    hide Valid;
    var v, free := e.voices[i], Freed(e.voices[i]);
    assert e.voices[i := free][i := free.(pending := v.pending)] == LetGo(e, i).voices;
  }

  lemma {:induction false} LetAllGoKeeps(e: Engine, n: nat)
    requires Valid(e) && n <= VOICES
    ensures Valid(LetAllGo(e, n)) && SameSlots(e, LetAllGo(e, n))
  {
    assert Shaped(e);
    hide Valid, LetGo;
    if n > 0 {
      LetAllGoKeeps(e, n - 1);
      LetGoKeeps(LetAllGo(e, n - 1), n - 1);
    }
  }

  lemma {:induction false} ReleasedKeeps(e: Engine)
    requires Valid(e)
    ensures Valid(Released(e)) && Valid(Released(e).(prepared := true))
    ensures Released(e).samples == e.samples && Released(e).generations == e.generations
  {
    LetAllGoKeeps(e, VOICES);
    hide LetAllGo, Apart, VoicesInv, SlotsInv;
  }

  // ---- Whole runs ----------------------------------------------------------------------

  datatype Action =
    | Trigger(slot: int, quantize: int)
    | Stop(slot: int)
    | Install(slot: int, sample: Option<Sample>)
    | Render(dropped: nat, executed: nat, passages: seq<Passage>)
    | Prepare
    | Release

  predicate Enabled(e: Engine, a: Action)
    requires Shaped(e)
  {
    match a
    case Trigger(_, _) => true
    case Stop(_) => true
    case Install(_, _) => true
    case Render(dropped, executed, passages) => |passages| == VOICES && Available(e, dropped, executed)
    case Prepare => true
    case Release => true
  }

  function Step(e: Engine, a: Action): (r: Engine)
    requires Shaped(e) && Enabled(e, a)
    ensures Shaped(r)
  {
    match a
    case Trigger(slot, quantize) => Triggered(e, slot, quantize).0
    case Stop(slot) => Stopped(e, slot)
    case Install(slot, sample) => if 0 <= slot < SLOTS then Installed(e, slot, sample) else e
    case Render(dropped, executed, passages) => Rendered(e, dropped, executed, passages)
    case Prepare => Released(e).(prepared := true)
    case Release => Released(e)
  }

  lemma {:induction false} StepKeeps(e: Engine, a: Action)
    requires Valid(e) && Enabled(e, a)
    ensures Valid(Step(e, a))
  {
    match a
    case Trigger(slot, quantize) =>
      if 0 <= slot < SLOTS {
        EnqueuedKeeps(e, Command(slot, quantize, false, e.generations[slot]));
      }
    case Stop(slot) =>
      EnqueuedKeeps(e, Command(slot, 0, true, 0));
      PanicKeeps(e);
    case Install(slot, sample) =>
      if 0 <= slot < SLOTS {
        InstalledKeeps(e, slot, sample);
      }
    case Render(dropped, executed, passages) => RenderedKeeps(e, dropped, executed, passages);
    case Prepare =>
      ReleasedKeeps(e);
      hide Released;
    case Release => ReleasedKeeps(e);
  }

  lemma PanicKeeps(e: Engine)
    requires Valid(e)
    ensures Valid(e.(panic := true))
  {
  }

  // An engine the program can reach.
  ghost predicate Reachable(run: seq<Engine>, actions: seq<Action>)
  {
    && |run| == |actions| + 1 && run[0] == Start()
    && forall k :: 0 <= k < |actions| ==>
         Shaped(run[k]) && Enabled(run[k], actions[k]) && run[k + 1] == Step(run[k], actions[k])
  }

  lemma {:induction false} RunKeeps(run: seq<Engine>, actions: seq<Action>, k: nat)
    requires Reachable(run, actions) && k < |run|
    ensures Valid(run[k])
  {
    hide Step, Enabled;
    if k > 0 {
      RunKeeps(run, actions, k - 1);
      hide Valid;
      StepKeeps(run[k - 1], actions[k - 1]);
    }
  }

  /** In every reachable state no slot has two voices, every held voice has the live sample
      of its slot, and a slot is Pending or Playing exactly when a voice holds it. */
  lemma {:induction false} VoicesAndSlotsAgree(run: seq<Engine>, actions: seq<Action>, k: nat, slot: nat)
    requires Reachable(run, actions) && k < |run| && slot < SLOTS
    ensures Shaped(run[k])
    ensures forall i, j :: 0 <= i < j < VOICES && run[k].voices[i].slot == slot ==> run[k].voices[j].slot != slot
    ensures forall i :: 0 <= i < VOICES && run[k].voices[i].slot == slot ==>
      run[k].samples[slot].Some? && run[k].voices[i].sample == run[k].samples[slot]
    ensures (run[k].states[slot] == Pending || run[k].states[slot] == Playing) <==> Held(run[k].voices, slot)
    ensures run[k].states[slot] == Empty <==> run[k].samples[slot].None?
  {
    RunKeeps(run, actions, k);
    var e := run[k];
    assert SlotInv(e.states[slot], e.samples[slot], e.voices, slot);
    assert forall i :: 0 <= i < VOICES ==> VoiceInv(e.voices[i], e.samples, e.states, e.order);
  }

  // A voice of this slot that a trigger would stop instead of restarting.
  predicate StopsOnTrigger(e: Engine, i: nat, slot: nat)
    requires Shaped(e) && i < VOICES && slot < SLOTS
  {
    && e.voices[i].slot == slot && !e.voices[i].stopping
    && e.samples[slot].Some? && (e.samples[slot].value.loop || e.voices[i].pending)
  }

  lemma {:induction false} ChoiceFails(e: Engine, slot: nat)
    requires Shaped(e)
    ensures Choice(e, slot) == VOICES <==>
      forall i :: 0 <= i < VOICES ==> e.voices[i].slot >= 0 && e.voices[i].slot != slot && !OneShot(e, i)
    ensures Holder(e.voices, slot, 0) < VOICES ==> Choice(e, slot) == Holder(e.voices, slot, 0)
  {
    hide OneShot;
  }

  /** What starting a loaded slot comes to: its looping or waiting voice begins to stop; or a
      voice plays it afresh, newer than all others; or it is busy, and that exactly if no voice
      holds it, none is free and all others loop. */
  lemma {:induction false} StartOutcome(e: Engine, slot: nat, quantize: int)
    requires Valid(e) && slot < SLOTS && e.samples[slot].Some?
    ensures var r := Started(e, slot, quantize);
      if exists i :: 0 <= i < VOICES && StopsOnTrigger(e, i, slot) then
        forall i :: 0 <= i < VOICES ==>
          r.voices[i] == e.voices[i].(stopping := e.voices[i].stopping || e.voices[i].slot == slot)
      else if forall i :: 0 <= i < VOICES ==> e.voices[i].slot >= 0 && e.voices[i].slot != slot && !OneShot(e, i) then
        r == e.(states := e.states[slot := Busy])
      else
        exists i :: 0 <= i < VOICES
          && r.voices[i] == Voice(slot, e.samples[slot], quantize > 0, false, e.order + 1)
  {
    ValidIsShaped(e);
    StopsItsOwn(e, slot);
    ChoiceFails(e, slot);
    var own, i := Holder(e.voices, slot, 0), Choice(e, slot);
    if own < VOICES && StopsOnTrigger(e, own, slot) {
      StoppingOne(e, slot, quantize);
    } else if i < VOICES {
      assert Started(e, slot, quantize).voices[i] == Voice(slot, e.samples[slot], quantize > 0, false, e.order + 1);
    }
    hide Valid, Holder, Choice, OneShot, Retired;
  }

  lemma {:induction false} StopsItsOwn(e: Engine, slot: nat)
    requires Valid(e) && slot < SLOTS
    ensures (exists i :: 0 <= i < VOICES && StopsOnTrigger(e, i, slot)) <==>
            (Holder(e.voices, slot, 0) < VOICES && StopsOnTrigger(e, Holder(e.voices, slot, 0), slot))
  {
    var own := Holder(e.voices, slot, 0);
    if own < VOICES {
      OthersElsewhere(e.voices, own);
    }
    hide Apart, VoicesInv, SlotsInv, Holder;
  }

  lemma {:induction false} StoppingOne(e: Engine, slot: nat, quantize: int)
    requires Valid(e) && slot < SLOTS
    requires Holder(e.voices, slot, 0) < VOICES && StopsOnTrigger(e, Holder(e.voices, slot, 0), slot)
    ensures forall i :: 0 <= i < VOICES ==>
      Started(e, slot, quantize).voices[i]
      == e.voices[i].(stopping := e.voices[i].stopping || e.voices[i].slot == slot)
  {
    OthersElsewhere(e.voices, Holder(e.voices, slot, 0));
    hide Apart, VoicesInv, SlotsInv, Holder, Choice;
  }

  lemma {:induction false} TakenIsOldest(e: Engine, slot: nat, quantize: int, i: nat)
    requires Shaped(e) && slot < SLOTS && i < VOICES && e.voices[i].slot >= 0 && e.voices[i].slot != slot
    requires Started(e, slot, quantize).voices[i] != e.voices[i]
    ensures i == Oldest(e, VOICES) && Started(e, slot, quantize).voices[i].slot == slot
    ensures forall j :: 0 <= j < VOICES ==> e.voices[j].slot >= 0 && e.voices[j].slot != slot
  {
    hide Oldest;
  }

  // Ages differ, so the oldest one-shot is strictly older than the others.
  lemma {:induction false} OldestIsAlone(e: Engine, i: nat, j: nat)
    requires Shaped(e) && Apart(e.voices) && i == Oldest(e, VOICES) < VOICES
    requires j < VOICES && j != i && OneShot(e, j)
    ensures e.voices[i].order < e.voices[j].order
  {
    assert e.voices[i].order <= e.voices[j].order;
    assert i < j ==> e.voices[i].order != e.voices[j].order;
    assert j < i ==> e.voices[j].order != e.voices[i].order;
  }

  /** Starting a slot leaves the voices of all other slots alone, except that it may take one
      when no voice is free: never a looping one, and of the others the oldest. */
  lemma {:induction false} OnlyTheOldestIsTaken(e: Engine, slot: nat, quantize: int, i: nat)
    requires Valid(e) && slot < SLOTS && i < VOICES && e.voices[i].slot >= 0 && e.voices[i].slot != slot
    requires Started(e, slot, quantize).voices[i] != e.voices[i]
    ensures forall j :: 0 <= j < VOICES ==> e.voices[j].slot >= 0 && e.voices[j].slot != slot
    ensures OneShot(e, i) && Started(e, slot, quantize).voices[i].slot == slot
    ensures forall j :: 0 <= j < VOICES && j != i && OneShot(e, j) ==> e.voices[i].order < e.voices[j].order
  {
    TakenIsOldest(e, slot, quantize, i);
    forall j | 0 <= j < VOICES && j != i && OneShot(e, j) ensures e.voices[i].order < e.voices[j].order {
      OldestIsAlone(e, i, j);
    }
    hide Started, Apart, VoicesInv, SlotsInv;
  }

  predicate Installs(a: Action, slot: nat) { a.Install? && a.slot == slot }

  // Only an install changes the sample of a slot, and it counts the generation up.
  lemma {:induction false} StepKeepsSample(e: Engine, a: Action, slot: nat)
    requires Valid(e) && Enabled(e, a) && slot < SLOTS
    ensures var r := Step(e, a);
      && r.generations[slot] == e.generations[slot] + (if Installs(a, slot) then 1 else 0)
      && (!Installs(a, slot) ==> r.samples[slot] == e.samples[slot])
  {
    match a
    case Trigger(_, _) =>
    case Stop(_) =>
    case Install(other, sample) =>
      if 0 <= other < SLOTS {
        RetiredOfKeepsSamples(e, other, VOICES);
      }
    case Render(dropped, executed, passages) => RenderedKeepsSamples(e, dropped, executed, passages);
    case Prepare => ReleasedKeeps(e);
    case Release => ReleasedKeeps(e);
    hide RetiredOf, Rendered, Released, Valid;
  }

  lemma {:induction false} RetiredOfKeepsSamples(e: Engine, slot: nat, n: nat)
    requires Shaped(e) && n <= VOICES
    ensures SameSlots(e, RetiredOf(e, slot, n))
  {
    hide Shaped;
    if n > 0 {
      RetiredOfKeepsSamples(e, slot, n - 1);
    }
  }

  lemma {:induction false} DrainedKeepsSamples(e: Engine, n: nat)
    requires Valid(e) && n <= |e.commands|
    ensures Drained(e, n).samples == e.samples && Drained(e, n).generations == e.generations
  {
    assert Shaped(e);
    hide Valid, Started;
    if n > 0 {
      DrainedKeepsSamples(e, n - 1);
      var d := Drained(e, n - 1);
      var c := d.commands[0];
      if !c.stop {
        StartedKeepsQueue(d, c.slot, c.quantize);
      }
    }
  }

  lemma {:induction false} RenderedKeepsSamples(e: Engine, dropped: nat, executed: nat, passages: seq<Passage>)
    requires Valid(e) && |passages| == VOICES && Available(e, dropped, executed)
    ensures var r := Rendered(e, dropped, executed, passages);
      r.samples == e.samples && r.generations == e.generations
  {
    CalmedKeeps(e, dropped);
    var calm := Calmed(e, dropped);
    DrainedKeepsSamples(calm, executed);
    DrainedKeeps(calm, executed);
    TickedAllKeeps(Drained(calm, executed), passages, VOICES);
    hide Valid, Drained, TickedAll;
  }

  // The generation of a slot counts the installs, and without one its sample stays.
  lemma {:induction false} RunKeepsSample(run: seq<Engine>, actions: seq<Action>, j: nat, k: nat, slot: nat)
    requires Reachable(run, actions) && j <= k < |run| && slot < SLOTS
    ensures Shaped(run[j]) && Shaped(run[k]) && run[j].generations[slot] <= run[k].generations[slot]
    ensures if exists i :: j <= i < k && Installs(actions[i], slot)
            then run[j].generations[slot] < run[k].generations[slot]
            else run[j].generations[slot] == run[k].generations[slot] && run[j].samples[slot] == run[k].samples[slot]
  {
    hide Step, Enabled, Installs, Start, Reachable, Valid;
    if j < k {
      RunKeepsSample(run, actions, j, k - 1, slot);
      RunStep(run, actions, k - 1);
      StepKeepsSample(run[k - 1], actions[k - 1], slot);
    } else {
      RunKeeps(run, actions, j);
      ValidIsShaped(run[j]);
    }
  }

  lemma {:induction false} RunStep(run: seq<Engine>, actions: seq<Action>, k: nat)
    requires Reachable(run, actions) && k + 1 < |run|
    ensures k < |actions| && Valid(run[k]) && Enabled(run[k], actions[k]) && run[k + 1] == Step(run[k], actions[k])
  {
    RunKeeps(run, actions, k);
    hide Valid, Enabled, Step;
  }

  lemma ValidIsShaped(e: Engine)
    requires Valid(e)
    ensures Shaped(e)
  {
  }

  /** A trigger that is executed later starts the sample its slot held when it was triggered,
      unless a sample was installed there meanwhile, be it an equal one: then it does nothing. */
  lemma {:induction false} TriggersStartTheirSample(run: seq<Engine>, actions: seq<Action>, j: nat, k: nat, slot: nat,
                                                    quantize: int)
    requires Reachable(run, actions) && j < k < |run| && slot < SLOTS && actions[j] == Trigger(slot, quantize)
    requires |run[j].commands| < QUEUE
    ensures Shaped(run[k]) && |run[j + 1].commands| == |run[j].commands| + 1
    ensures var command, e := run[j + 1].commands[|run[j].commands|], run[k];
      && command.slot == slot && !command.stop
      && if exists i :: j < i < k && Installs(actions[i], slot) then Executed(e, command) == e
         else Executed(e, command) == Started(e, slot, quantize) && e.samples[slot] == run[j].samples[slot]
  {
    RunKeepsSample(run, actions, j, j + 1, slot);
    RunKeepsSample(run, actions, j + 1, k, slot);
    assert run[j + 1] == Step(run[j], actions[j]);
    hide Started, Reachable;
  }

  // ---- What each operation does ----------------------------------------------------------

  // A free voice that waits for nothing.
  predicate Free(v: Voice) { v.slot == -1 && v.sample.None? && !v.pending }

  // What a block makes of a held voice and of its slot.
  predicate Aged(v: Voice, w: Voice, state: SlotState, p: Passage)
    requires v.sample.Some?
  {
    var stops := v.stopping || (p.ended && !v.sample.value.loop);
    if v.pending && v.stopping then Free(w) && state == Ready
    else if v.pending && !p.due then w == v && state == Pending
    else if stops && p.faded then Free(w) && state == Ready
    else w == v.(pending := false, stopping := stops) && state == Playing
  }

  lemma {:induction false} TickedOne(e: Engine, i: nat, p: Passage)
    requires Valid(e) && i < VOICES
    ensures var v, r := e.voices[i], Ticked(e, i, p);
      && (forall j :: 0 <= j < VOICES && j != i ==> r.voices[j] == e.voices[j])
      && (forall s :: 0 <= s < SLOTS && s != v.slot ==> r.states[s] == e.states[s])
      && (if v.slot < 0 then r.voices[i] == v
          else v.sample.Some? && e.samples[v.slot].Some? && Aged(v, r.voices[i], r.states[v.slot], p))
  {
    hide Valid;
    HeldVoice(e, i);
  }

  lemma HeldVoice(e: Engine, i: nat)
    requires Valid(e) && i < VOICES
    ensures Shaped(e)
    ensures var v := e.voices[i];
      v.slot >= 0 ==> && v.sample.Some? && e.samples[v.slot].Some?
                      && e.states[v.slot] == if v.pending then Pending else Playing
  {
    assert VoiceInv(e.voices[i], e.samples, e.states, e.order);
    hide Apart, SlotsInv;
  }

  // The first n voices have seen the block, the others have not.
  predicate AgedUpTo(d: Engine, r: Engine, passages: seq<Passage>, n: nat)
    requires Shaped(d) && Shaped(r) && |passages| == VOICES
  {
    && (forall i :: 0 <= i < VOICES && (d.voices[i].slot < 0 || i >= n) ==> r.voices[i] == d.voices[i])
    && (forall i :: 0 <= i < VOICES && d.voices[i].slot >= 0 && i < n ==>
          d.voices[i].sample.Some? && Aged(d.voices[i], r.voices[i], r.states[d.voices[i].slot], passages[i]))
    && (forall i :: 0 <= i < VOICES && d.voices[i].slot >= 0 && i >= n ==>
          r.states[d.voices[i].slot] == d.states[d.voices[i].slot])
    && (forall s :: 0 <= s < SLOTS && !Held(d.voices, s) ==> r.states[s] == d.states[s])
  }

  lemma {:induction false} AgesOneMore(d: Engine, e: Engine, passages: seq<Passage>, i: nat)
    requires Valid(d) && Valid(e) && |passages| == VOICES && i < VOICES && AgedUpTo(d, e, passages, i)
    ensures AgedUpTo(d, Ticked(e, i, passages[i]), passages, i + 1)
  {
    TickedOne(e, i, passages[i]);
    assert e.voices[i] == d.voices[i];
    if d.voices[i].slot >= 0 {
      OthersElsewhere(d.voices, i);
      assert Held(d.voices, d.voices[i].slot);
    }
    hide Ticked, Aged, Valid, Held;
  }

  lemma {:induction false} AllAge(d: Engine, passages: seq<Passage>, n: nat)
    requires Valid(d) && |passages| == VOICES && n <= VOICES
    ensures Shaped(d) && AgedUpTo(d, TickedAll(d, passages, n), passages, n)
  {
    ValidIsShaped(d);
    hide Valid, Ticked, AgedUpTo, Shaped;
    if n == 0 {
      NoneAged(d, passages);
    } else {
      AllAge(d, passages, n - 1);
      TickedAllKeeps(d, passages, n - 1);
      AgesOneMore(d, TickedAll(d, passages, n - 1), passages, n - 1);
    }
  }

  lemma NoneAged(d: Engine, passages: seq<Passage>)
    requires Shaped(d) && |passages| == VOICES
    ensures AgedUpTo(d, d, passages, 0)
  {
  }

  /** What a block does after the commands were executed, voice by voice: a waiting voice that is
      stopping is freed without playing; one that is not due stays as it is; any other begins to
      play or plays on, a one-shot that has ended begins to stop, and one that is stopping and has
      faded is freed. A freed voice leaves its slot Ready, a playing one Playing, and slots
      without a voice are left alone. */
  lemma {:induction false} BlockOutcome(e: Engine, dropped: nat, executed: nat, passages: seq<Passage>, i: nat)
    requires Valid(e) && e.prepared && |passages| == VOICES && Available(e, dropped, executed) && i < VOICES
    ensures var d, r := Drained(Calmed(e, dropped), executed), Rendered(e, dropped, executed, passages);
      && (if d.voices[i].slot < 0 then r.voices[i] == d.voices[i]
          else d.voices[i].sample.Some? && Aged(d.voices[i], r.voices[i], r.states[d.voices[i].slot], passages[i]))
      && (forall s :: 0 <= s < SLOTS && !Held(d.voices, s) ==> r.states[s] == d.states[s])
      && SameSlots(d, r)
  {
    CalmedKeeps(e, dropped);
    DrainedKeeps(Calmed(e, dropped), executed);
    AllAge(Drained(Calmed(e, dropped), executed), passages, VOICES);
    TickedAllKeeps(Drained(Calmed(e, dropped), executed), passages, VOICES);
    hide Valid, Drained, TickedAll, Calmed, Aged, Held;
  }

  /** Without a device a block does nothing. */
  lemma UnpreparedIsSilent(e: Engine, dropped: nat, executed: nat, passages: seq<Passage>)
    requires Shaped(e) && !e.prepared && |passages| == VOICES && Available(e, dropped, executed)
    ensures Rendered(e, dropped, executed, passages) == e
  {
  }

  /** Commands are executed oldest first, each on what the ones before it left. */
  lemma {:induction false} DrainIsInOrder(e: Engine, n: nat, k: nat)
    requires Shaped(e) && k < n <= |e.commands|
    ensures Drained(e, k).commands == e.commands[k..]
    ensures Drained(e, k + 1) == Executed(Drained(e, k), e.commands[k]).(commands := e.commands[k + 1..])
  {
    if k > 0 {
      DrainIsInOrder(e, n, k - 1);
    }
    hide Executed;
  }

  /** A stop makes exactly the voices of its slot stop, one without a slot all of them. */
  lemma {:induction false} StopOutcome(e: Engine, c: Command)
    requires Shaped(e) && c.stop
    ensures var r := Executed(e, c);
      && r == e.(voices := r.voices) && |r.voices| == VOICES
      && forall i :: 0 <= i < VOICES ==>
           r.voices[i] == e.voices[i].(stopping := e.voices[i].stopping || c.slot < 0 || e.voices[i].slot == c.slot)
  {
  }

  /** A panic drops the commands that are there and makes all voices stop, once. */
  lemma {:induction false} PanicOutcome(e: Engine, dropped: nat)
    requires Shaped(e) && dropped <= |e.commands|
    ensures var r := Calmed(e, dropped);
      && (!e.panic ==> r == e)
      && (e.panic ==>
            && r == e.(voices := r.voices, commands := e.commands[dropped..], panic := false) && |r.voices| == VOICES
            && forall i :: 0 <= i < VOICES ==> r.voices[i] == e.voices[i].(stopping := true))
  {
  }

  /** Installing frees the voices of the slot and no other, and replaces its sample. */
  lemma {:induction false} InstallOutcome(e: Engine, slot: nat, sample: Option<Sample>)
    requires Valid(e) && slot < SLOTS
    ensures var r := Step(e, Install(slot, sample));
      && r.samples == e.samples[slot := sample] && r.generations == e.generations[slot := e.generations[slot] + 1]
      && r.states == e.states[slot := if sample.Some? then Ready else Empty]
      && (forall i :: 0 <= i < VOICES ==>
            if e.voices[i].slot == slot then Free(r.voices[i]) else r.voices[i] == e.voices[i])
      && r.commands == e.commands && r.order == e.order && r.panic == e.panic && r.prepared == e.prepared
  {
    RetiredOfOnly(e, slot, VOICES);
    hide RetiredOf, Valid;
    assert Shaped(e);
  }

  lemma {:induction false} RetiredOfOnly(e: Engine, slot: nat, n: nat)
    requires Valid(e) && n <= VOICES && slot < SLOTS
    ensures Shaped(e)
    ensures var r := RetiredOf(e, slot, n);
      && r == e.(voices := r.voices, states := r.states)
      && (forall i :: 0 <= i < VOICES ==>
            if i < n && e.voices[i].slot == slot then Free(r.voices[i]) else r.voices[i] == e.voices[i])
      && (forall s :: 0 <= s < SLOTS && s != slot ==> r.states[s] == e.states[s])
  {
    ValidIsShaped(e);
    hide Valid, Shaped;
    if n > 0 {
      RetiredOfOnly(e, slot, n - 1);
      var f := RetiredOf(e, slot, n - 1);
      RetiredOnly(f, n - 1);
      hide Retired;
    }
  }

  lemma RetiredOnly(e: Engine, i: nat)
    requires Shaped(e) && i < VOICES
    ensures var r := Retired(e, i);
      && r == e.(voices := e.voices[i := r.voices[i]], states := r.states) && Free(r.voices[i])
      && (forall s :: 0 <= s < SLOTS && s != e.voices[i].slot ==> r.states[s] == e.states[s])
  {
  }

  /** Releasing frees every voice, makes held slots Ready, forgets all commands, and leaves
      nothing to render; preparing does the same and then lets blocks be rendered again. */
  lemma {:induction false} ReleaseOutcome(e: Engine)
    requires Valid(e)
    ensures var r := Step(e, Release);
      && (forall i :: 0 <= i < VOICES ==> r.voices[i].slot == -1 && r.voices[i].sample.None?)
      && (forall s :: 0 <= s < SLOTS ==> r.states[s] == if Held(e.voices, s) then Ready else e.states[s])
      && r.samples == e.samples && r.generations == e.generations && r.panic == e.panic
      && r.commands == [] && !r.prepared
      && Step(e, Prepare) == r.(prepared := true)
  {
    LetAllGoFrees(e, VOICES);
    hide LetAllGo, Valid;
    assert Shaped(e);
  }

  lemma {:induction false} LetAllGoFrees(e: Engine, n: nat)
    requires Valid(e) && n <= VOICES
    ensures Shaped(e)
    ensures var r := LetAllGo(e, n);
      && r == e.(voices := r.voices, states := r.states)
      && (forall i :: 0 <= i < VOICES ==>
            if i < n then r.voices[i].slot == -1 && r.voices[i].sample.None? else r.voices[i] == e.voices[i])
      && (forall s :: 0 <= s < SLOTS ==>
            r.states[s] == if exists i :: 0 <= i < n && e.voices[i].slot == s then Ready else e.states[s])
  {
    ValidIsShaped(e);
    hide Valid, Shaped;
    if n > 0 {
      LetAllGoFrees(e, n - 1);
    }
  }

  /** A trigger of a slot, or a stop, is queued behind the others while fewer than 256 wait. A
      trigger that does not fit is refused; a stop that does not fit becomes a panic. */
  lemma {:induction false} RequestOutcome(e: Engine, slot: int, quantize: int)
    requires Shaped(e)
    ensures var (r, queued) := Triggered(e, slot, quantize);
      && (queued <==> 0 <= slot < SLOTS && |e.commands| != QUEUE)
      && r == if queued then e.(commands := e.commands + [Command(slot, quantize, false, e.generations[slot])]) else e
    ensures Stopped(e, slot)
            == if |e.commands| == QUEUE then e.(panic := true)
               else e.(commands := e.commands + [Command(slot, 0, true, 0)])
  {
  }
}
