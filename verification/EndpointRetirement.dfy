/**
 Registration and retirement of the auxiliary endpoint. A reader counts itself in, loads the
 generation, the pointer and the generation again, and keeps the pointer only if both
 generations agree; when the device starts or stops, it loads the pointer alone. A control
 thread that retires the endpoint clears the pointer under a mutex and then waits for a zero
 count. Any number of control threads and readers.
 */
module EndpointRetirement {

  type Id = nat

  // `number` counts registrations from 1 and tells them apart, also when the same endpoint
  // registers again. The code cannot see it.
  datatype Pointer = Null | To(endpoint: nat, number: nat)

  datatype Mutex = Free | HeldBy(id: Id)

  datatype ReaderPoint = LoadBefore | LoadPointer | LoadAfter | Holding

  // `held` is the pointer that was loaded, Null once it was thrown away as stale; `checks`
  // whether the generations are loaded around it.
  datatype Reader = Reader(at: ReaderPoint, before: nat, held: Pointer, checks: bool)

  datatype ControlPoint = TakeMutex | StoreGeneration | StorePointer | ClearPointer | BumpGeneration | Unlock | Wait

  // `mine` is the registration being made or retired.
  datatype Control = Control(at: ControlPoint, mine: Pointer, retires: bool)

  // `next` is the next generation to give out.
  datatype Shared = Shared(pointer: Pointer, generation: nat, next: nat, mutex: Mutex, down: bool)

  // `retired` holds the registrations whose retirement has returned.
  datatype State = State(shared: Shared, count: int, readers: map<Id, Reader>, controls: map<Id, Control>,
                         retired: set<nat>)

  datatype Action =
    | Enter(id: Id, checks: bool)
    | ReaderStep(id: Id)
    | Register(id: Id, endpoint: nat)
    | Unregister(id: Id, endpoint: nat, generation: nat)
    | Shutdown(id: Id)
    | ControlStep(id: Id)

  const START := State(Shared(Null, 0, 1, Free, false), 0, map[], map[], {})

  predicate Enabled(s: State, a: Action)
  {
    match a
    case Enter(id, _) => id !in s.readers
    case ReaderStep(id) => id in s.readers
    case Register(id, _) => id !in s.controls && s.shared.mutex.Free?
    case Unregister(id, _, _) => id !in s.controls && s.shared.mutex.Free?
    case Shutdown(id) => id !in s.controls
    case ControlStep(id) => id in s.controls && (s.controls[id].at.TakeMutex? ==> s.shared.mutex.Free?)
  }

  predicate Matches(g: Shared, endpoint: nat, generation: nat)
  {
    g.generation == generation && g.pointer.To? && g.pointer.endpoint == endpoint
  }

  function Entering(checks: bool): Reader
  {
    Reader(if checks then LoadBefore else LoadPointer, 0, Null, checks)
  }

  function ReaderNext(r: Reader, g: Shared): Reader
  {
    if r.at.LoadBefore? then r.(at := LoadPointer, before := g.generation)
    else if r.at.LoadPointer? then r.(at := if r.checks then LoadAfter else Holding, held := g.pointer)
    else
      var stale := r.held.To? && (r.before == 0 || r.before != g.generation);
      r.(at := Holding, held := if stale then Null else r.held)
  }

  // What a control thread that holds the mutex does to the shared variables, and to itself.
  function GuardedNext(c: Control, id: Id, g: Shared): (Control, Shared)
  {
    if c.at.TakeMutex? then (c.(at := ClearPointer, mine := g.pointer), g.(mutex := HeldBy(id)))
    else if c.at.StoreGeneration? then
      (c.(at := StorePointer, mine := if c.mine.To? then To(c.mine.endpoint, g.next) else Null),
       g.(generation := g.next, next := g.next + 1))
    else if c.at.StorePointer? then (c.(at := Unlock), g.(pointer := c.mine))
    else if c.at.ClearPointer? then (c.(at := BumpGeneration), g.(pointer := Null))
    else if c.at.BumpGeneration? then (c.(at := Unlock), g.(generation := g.generation + 1))
    else (c.(at := Wait), g.(mutex := Free))
  }

  // The mutex is taken and the comparisons under it are made in one step: nobody else
  // writes those variables meanwhile.
  function Step(s: State, a: Action): State
    requires Enabled(s, a)
  {
    match a
    case Enter(id, checks) => s.(count := s.count + 1, readers := s.readers[id := Entering(checks)])
    case ReaderStep(id) =>
      if s.readers[id].at.Holding? then s.(count := s.count - 1, readers := s.readers - {id})
      else s.(readers := s.readers[id := ReaderNext(s.readers[id], s.shared)])
    case Register(id, endpoint) =>
      if s.shared.down || s.shared.pointer.To? then s
      else s.(shared := s.shared.(mutex := HeldBy(id)),
              controls := s.controls[id := Control(StoreGeneration, To(endpoint, 0), false)])
    case Unregister(id, endpoint, generation) =>
      if !Matches(s.shared, endpoint, generation) then s
      else s.(shared := s.shared.(mutex := HeldBy(id)),
              controls := s.controls[id := Control(ClearPointer, s.shared.pointer, true)])
    case Shutdown(id) =>
      s.(shared := s.shared.(down := true), controls := s.controls[id := Control(TakeMutex, Null, true)])
    case ControlStep(id) =>
      var c := s.controls[id];
      if c.at.Wait? then
        if s.count != 0 then s
        else s.(controls := s.controls - {id},
                retired := if c.mine.To? then s.retired + {c.mine.number} else s.retired)
      else
        var (next, shared) := GuardedNext(c, id, s.shared);
        s.(shared := shared, controls := if next.at.Wait? && !next.retires then s.controls - {id}
                                         else s.controls[id := next])
  }

  // ---- Invariant -------------------------------------------------------------------

  predicate InMutex(c: Control) { !c.at.TakeMutex? && !c.at.Wait? }

  // A registered pointer carries the current generation, and generations never go back.
  predicate SharedInv(g: Shared)
  {
    && g.next >= 1 && g.next <= g.generation + 1
    && (g.generation > g.next ==> g.down)
    && (g.pointer.To? ==> g.pointer.number == g.generation == g.next - 1 && g.generation >= 1)
  }

  predicate ControlInv(c: Control, g: Shared)
  {
    && (c.at.StoreGeneration? ==> g.pointer.Null? && !c.retires && g.generation <= g.next && c.mine.To?)
    && (c.at.StorePointer? ==> g.pointer.Null? && !c.retires && c.mine.To?
                               && c.mine.number == g.generation == g.next - 1 >= 1)
    && (c.at.TakeMutex? ==> c.mine.Null? && c.retires && g.down)
    && (c.at.ClearPointer? ==> c.retires && c.mine == g.pointer && (c.mine.Null? ==> g.down))
    && (c.at.BumpGeneration? ==>
          && c.retires && g.pointer.Null?
          && (c.mine.To? ==> 1 <= c.mine.number == g.generation == g.next - 1)
          && (c.mine.Null? ==> g.down))
    && ((c.at.Unlock? || c.at.Wait?) && c.retires && c.mine.To? ==>
          1 <= c.mine.number < g.generation && c.mine.number < g.next)
    && (c.at.Wait? ==> c.retires)
  }

  predicate ReaderInv(r: Reader, g: Shared)
  {
    && (!r.at.LoadBefore? ==> r.before <= g.generation)
    && (r.at.LoadAfter? && r.held.To? ==> r.before <= r.held.number <= g.generation && r.held.number < g.next)
    && (r.at.Holding? && r.held.To? ==> r.held.number < g.next && (r.checks ==> r.held.number == r.before >= 1))
    && (r.at.LoadAfter? ==> r.checks)
    && (r.at.LoadBefore? || r.at.LoadPointer? ==> r.held.Null?)
  }

  predicate Holds(readers: map<Id, Reader>, id: Id, n: nat)
  {
    id in readers && readers[id].held.To? && readers[id].held.number == n
  }

  predicate ReadersInv(readers: map<Id, Reader>, count: int, g: Shared)
  {
    && count == |readers.Keys|
    && forall id :: id in readers ==> ReaderInv(readers[id], g)
  }

  predicate ControlsInv(controls: map<Id, Control>, g: Shared)
  {
    && (forall id :: id in controls ==>
          ControlInv(controls[id], g) && (InMutex(controls[id]) <==> g.mutex == HeldBy(id)))
    && (g.mutex.HeldBy? ==> g.mutex.id in controls)
  }

  // A retired registration is gone for good.
  ghost predicate Gone(retired: set<nat>, readers: map<Id, Reader>, g: Shared)
  {
    && (forall n :: n in retired ==> n < g.next && n < g.generation)
    && (forall id, n :: Holds(readers, id, n) ==> n !in retired)
  }

  // Registering or retiring registration n.
  predicate HandlesNow(c: Control, n: nat)
  {
    c.mine.To? && c.mine.number == n && (c.retires || c.at.StorePointer?)
  }

  predicate Handles(controls: map<Id, Control>, id: Id, n: nat)
  {
    id in controls && HandlesNow(controls[id], n)
  }

  // A registration is registered, or on its way in or out, or retired.
  ghost predicate Accounted(retired: set<nat>, controls: map<Id, Control>, g: Shared)
  {
    forall n :: 1 <= n < g.next ==>
      n in retired || (g.pointer.To? && g.pointer.number == n) || exists id :: Handles(controls, id, n)
  }

  ghost predicate Inv(s: State)
  {
    && SharedInv(s.shared) && ReadersInv(s.readers, s.count, s.shared) && ControlsInv(s.controls, s.shared)
    && Gone(s.retired, s.readers, s.shared) && Accounted(s.retired, s.controls, s.shared)
  }

  lemma {:induction false} InitialInv()
    ensures Inv(START)
  {
    assert START.readers.Keys == {};
  }

  lemma {:induction false} EnterKeepsReaders(readers: map<Id, Reader>, count: int, g: Shared, retired: set<nat>,
                                             id: Id, checks: bool)
    requires ReadersInv(readers, count, g) && Gone(retired, readers, g) && id !in readers
    ensures ReadersInv(readers[id := Entering(checks)], count + 1, g)
    ensures Gone(retired, readers[id := Entering(checks)], g)
  {
    var after := readers[id := Entering(checks)];
    assert after.Keys == readers.Keys + {id};
    forall other, n | Holds(after, other, n) ensures n !in retired {
      assert Holds(readers, other, n);
    }
  }

  lemma {:induction false} EnterKeeps(s: State, a: Action)
    requires Inv(s) && Enabled(s, a) && a.Enter?
    ensures Inv(Step(s, a))
  {
    hide ControlsInv, Accounted, SharedInv;
    EnterKeepsReaders(s.readers, s.count, s.shared, s.retired, a.id, a.checks);
    hide ReadersInv, Gone;
  }

  lemma {:induction false} LeaveKeeps(s: State, a: Action)
    requires Inv(s) && Enabled(s, a) && a.ReaderStep? && s.readers[a.id].at.Holding?
    ensures Inv(Step(s, a))
  {
    hide ControlsInv, Accounted, SharedInv, ReaderInv;
    assert Step(s, a).readers.Keys == s.readers.Keys - {a.id};
    assert forall id, n :: Holds(Step(s, a).readers, id, n) ==> Holds(s.readers, id, n);
  }

  lemma {:induction false} LoadKeepsReader(r: Reader, g: Shared)
    requires SharedInv(g) && ReaderInv(r, g) && !r.at.Holding?
    ensures ReaderInv(ReaderNext(r, g), g)
    ensures ReaderNext(r, g).held in {r.held, g.pointer, Null}
  {
  }

  lemma {:induction false} LoadKeeps(s: State, a: Action)
    requires Inv(s) && Enabled(s, a) && a.ReaderStep? && !s.readers[a.id].at.Holding?
    ensures Inv(Step(s, a))
  {
    var t := Step(s, a);
    LoadKeepsReader(s.readers[a.id], s.shared);
    assert t.readers.Keys == s.readers.Keys;
    hide ControlsInv, Accounted, ReaderInv, ReaderNext;
    forall id, n | Holds(t.readers, id, n) ensures n !in t.retired {
      assert Holds(s.readers, id, n) || (s.shared.pointer.To? && s.shared.pointer.number == n);
    }
  }

  // What only grows, and what the waiting controls and the readers rely on.
  predicate Later(g: Shared, h: Shared)
  {
    g.generation <= h.generation && g.next <= h.next && (g.down ==> h.down)
  }

  // Control threads outside the mutex do not mind what the one inside does.
  lemma {:induction false} OutsidersKeep(controls: map<Id, Control>, g: Shared, id: Id, c: Control, h: Shared)
    requires ControlsInv(controls, g) && Later(g, h)
    requires g.mutex.Free? || g.mutex == HeldBy(id) || (g.mutex == h.mutex && h == g.(down := h.down))
    requires ControlInv(c, h) && (InMutex(c) <==> h.mutex == HeldBy(id))
    requires h.mutex == g.mutex || h.mutex.Free? || h.mutex == HeldBy(id)
    ensures ControlsInv(controls[id := c], h)
  {
    forall other | other in controls && other != id
      ensures ControlInv(controls[other], h) && (InMutex(controls[other]) <==> h.mutex == HeldBy(other))
    {
      assert ControlInv(controls[other], g);
    }
  }

  lemma {:induction false} RegisterKeeps(s: State, a: Action)
    requires SharedInv(s.shared) && ControlsInv(s.controls, s.shared) && Enabled(s, a)
    requires a.Register? || a.Unregister? || a.Shutdown?
    ensures SharedInv(Step(s, a).shared) && ControlsInv(Step(s, a).controls, Step(s, a).shared)
  {
    var t := Step(s, a);
    if a.id in t.controls && t.controls != s.controls {
      assert a.id !in s.controls;
      hide ControlsInv;
      OutsidersKeep(s.controls, s.shared, a.id, t.controls[a.id], t.shared);
    }
  }

  lemma {:induction false} BeginKeeps(s: State, a: Action)
    requires Inv(s) && Enabled(s, a) && (a.Register? || a.Unregister? || a.Shutdown?)
    ensures Inv(Step(s, a))
  {
    RegisterKeeps(s, a);
    BeginKeepsOthers(s, a);
    hide Step, SharedInv, ReadersInv, ControlsInv, Gone, Accounted;
  }

  lemma {:induction false} BeginKeepsOthers(s: State, a: Action)
    requires Inv(s) && Enabled(s, a) && (a.Register? || a.Unregister? || a.Shutdown?)
    ensures ReadersInv(Step(s, a).readers, Step(s, a).count, Step(s, a).shared)
    ensures Gone(Step(s, a).retired, Step(s, a).readers, Step(s, a).shared)
    ensures Accounted(Step(s, a).retired, Step(s, a).controls, Step(s, a).shared)
  {
    hide ControlsInv, SharedInv;
    AccountedFrame(s.retired, s.controls, s.shared, Step(s, a).controls, Step(s, a).shared, a.id);
  }

  // Registrations stay accounted for when one control thread that handles none of them, or
  // still handles what it handled, moves on.
  lemma {:induction false} AccountedFrame(retired: set<nat>, controls: map<Id, Control>, g: Shared,
                                          after: map<Id, Control>, h: Shared, id: Id)
    requires Accounted(retired, controls, g) && g.next == h.next && g.pointer == h.pointer
    requires forall other :: other in controls && other != id ==> other in after && after[other] == controls[other]
    requires forall n :: Handles(controls, id, n) ==> Handles(after, id, n)
    ensures Accounted(retired, after, h)
  {
    forall n | 1 <= n < h.next && n !in retired && !(h.pointer.To? && h.pointer.number == n)
      ensures exists other :: Handles(after, other, n)
    {
      var other :| Handles(controls, other, n);
      assert Handles(after, other, n);
    }
  }

  lemma {:induction false} GuardedKeeps(c: Control, id: Id, g: Shared)
    requires SharedInv(g) && ControlInv(c, g) && !c.at.Wait?
    requires if c.at.TakeMutex? then g.mutex.Free? else g.mutex == HeldBy(id)
    ensures var (d, h) := GuardedNext(c, id, g);
      && SharedInv(h) && Later(g, h)
      && h.mutex == (if InMutex(d) then HeldBy(id) else Free)
      && (d.retires || !d.at.Wait? ==> ControlInv(d, h))
  {
  }

  lemma {:induction false} GuardedKeepsControls(s: State, id: Id)
    requires SharedInv(s.shared) && ControlsInv(s.controls, s.shared) && Enabled(s, ControlStep(id))
    requires !s.controls[id].at.Wait?
    ensures var t := Step(s, ControlStep(id)); SharedInv(t.shared) && Later(s.shared, t.shared)
    ensures ControlsInv(Step(s, ControlStep(id)).controls, Step(s, ControlStep(id)).shared)
  {
    var c := s.controls[id];
    assert ControlInv(c, s.shared) && (InMutex(c) <==> s.shared.mutex == HeldBy(id));
    GuardedKeeps(c, id, s.shared);
    var (d, h) := GuardedNext(c, id, s.shared);
    hide GuardedNext, SharedInv, ControlInv, ControlsInv;
    if d.at.Wait? && !d.retires {
      LeaversKeep(s.controls, s.shared, id, h);
    } else {
      OutsidersKeep(s.controls, s.shared, id, d, h);
    }
  }

  // A control thread leaves for good when it lets go of the mutex.
  lemma {:induction false} LeaversKeep(controls: map<Id, Control>, g: Shared, id: Id, h: Shared)
    requires ControlsInv(controls, g) && Later(g, h) && g.mutex == HeldBy(id) && h.mutex.Free?
    ensures ControlsInv(controls - {id}, h)
  {
    forall other | other in controls && other != id
      ensures ControlInv(controls[other], h) && !InMutex(controls[other])
    {
      assert ControlInv(controls[other], g);
    }
  }

  lemma {:induction false} GuardedKeepsReaders(s: State, id: Id)
    requires Inv(s) && Enabled(s, ControlStep(id)) && !s.controls[id].at.Wait?
    requires Later(s.shared, Step(s, ControlStep(id)).shared)
    ensures var t := Step(s, ControlStep(id));
      ReadersInv(t.readers, t.count, t.shared) && Gone(t.retired, t.readers, t.shared)
  {
    hide GuardedNext, SharedInv, ControlsInv, Accounted;
  }

  // The registrations a control thread handles before and after its step.
  lemma {:induction false} GuardedAccounts(c: Control, id: Id, g: Shared, n: nat)
    requires SharedInv(g) && ControlInv(c, g) && !c.at.Wait?
    ensures var (d, h) := GuardedNext(c, id, g);
      (HandlesNow(c, n) || (g.pointer.To? && g.pointer.number == n) || g.next <= n < h.next)
        ==> HandlesNow(d, n) || (h.pointer.To? && h.pointer.number == n)
  {
  }

  lemma {:induction false} GuardedKeepsAccounts(s: State, id: Id)
    requires SharedInv(s.shared) && ControlsInv(s.controls, s.shared) && Accounted(s.retired, s.controls, s.shared)
    requires Enabled(s, ControlStep(id)) && !s.controls[id].at.Wait?
    ensures var t := Step(s, ControlStep(id)); Accounted(t.retired, t.controls, t.shared)
  {
    var t := Step(s, ControlStep(id));
    var c := s.controls[id];
    assert ControlInv(c, s.shared);
    hide GuardedNext, SharedInv, ControlsInv, ControlInv;
    forall n | 1 <= n < t.shared.next && n !in t.retired && !(t.shared.pointer.To? && t.shared.pointer.number == n)
      ensures exists other :: Handles(t.controls, other, n)
    {
      GuardedAccounts(c, id, s.shared, n);
      if Handles(s.controls, id, n) || (s.shared.pointer.To? && s.shared.pointer.number == n) || s.shared.next <= n {
        assert Handles(t.controls, id, n);
      } else {
        var other :| Handles(s.controls, other, n);
        assert Handles(t.controls, other, n);
      }
    }
  }

  lemma {:induction false} WaitKeepsControls(controls: map<Id, Control>, g: Shared, id: Id)
    requires ControlsInv(controls, g) && id in controls && controls[id].at.Wait?
    ensures ControlsInv(controls - {id}, g)
    ensures controls[id].mine.To? ==> controls[id].mine.number < g.next && controls[id].mine.number < g.generation
    ensures controls[id].retires
  {
    assert ControlInv(controls[id], g);
  }

  lemma {:induction false} WaitKeepsAccounts(retired: set<nat>, controls: map<Id, Control>, g: Shared, id: Id,
                                             after: set<nat>)
    requires Accounted(retired, controls, g) && id in controls && retired <= after
    requires controls[id].mine.To? ==> controls[id].mine.number in after
    ensures Accounted(after, controls - {id}, g)
  {
    forall n | 1 <= n < g.next && n !in after && !(g.pointer.To? && g.pointer.number == n)
      ensures exists other :: Handles(controls - {id}, other, n)
    {
      var other :| Handles(controls, other, n);
      assert Handles(controls - {id}, other, n);
    }
  }

  // Nobody is counted in, so nobody holds anything.
  lemma {:induction false} WaitKeepsGone(retired: set<nat>, readers: map<Id, Reader>, count: int, g: Shared,
                                         after: set<nat>)
    requires Gone(retired, readers, g) && ReadersInv(readers, count, g) && count == 0
    requires forall n :: n in after && n !in retired ==> n < g.next && n < g.generation
    ensures Gone(after, readers, g)
  {
    assert readers.Keys == {};
  }

  lemma {:induction false} WaitKeeps(s: State, id: Id)
    requires Inv(s) && Enabled(s, ControlStep(id)) && s.controls[id].at.Wait?
    ensures Inv(Step(s, ControlStep(id)))
  {
    hide SharedInv, ReadersInv, ControlsInv, Gone, Accounted;
    if s.count == 0 {
      var t := Step(s, ControlStep(id));
      WaitKeepsControls(s.controls, s.shared, id);
      WaitKeepsAccounts(s.retired, s.controls, s.shared, id, t.retired);
      WaitKeepsGone(s.retired, s.readers, s.count, s.shared, t.retired);
    }
  }

  lemma {:induction false} StepKeeps(s: State, a: Action)
    requires Inv(s) && Enabled(s, a)
    ensures Inv(Step(s, a))
  {
    if a.Enter? {
      EnterKeeps(s, a);
    } else if a.ReaderStep? {
      if s.readers[a.id].at.Holding? {
        LeaveKeeps(s, a);
      } else {
        LoadKeeps(s, a);
      }
    } else if a.Register? || a.Unregister? || a.Shutdown? {
      BeginKeeps(s, a);
    } else if s.controls[a.id].at.Wait? {
      WaitKeeps(s, a.id);
    } else {
      GuardedKeepsControls(s, a.id);
      GuardedKeepsReaders(s, a.id);
      GuardedKeepsAccounts(s, a.id);
    }
    hide Step, SharedInv, ReadersInv, ControlsInv, Gone, Accounted;
  }

  // ---- One control thread for each registration -----------------------------------------

  // A registration is made or retired by one control thread, and not again once retired.
  ghost predicate Exclusive(retired: set<nat>, controls: map<Id, Control>)
  {
    && (forall id, j, n :: Handles(controls, id, n) && Handles(controls, j, n) ==> id == j)
    && (forall id, n :: Handles(controls, id, n) ==> n !in retired)
  }

  // What a control thread outside the mutex handles is older than the current generation.
  lemma {:induction false} OutsidersAreOlder(controls: map<Id, Control>, g: Shared, id: Id, n: nat)
    requires ControlsInv(controls, g) && SharedInv(g) && Handles(controls, id, n) && g.mutex != HeldBy(id)
    ensures n < g.generation && n < g.next
  {
    assert ControlInv(controls[id], g);
  }

  // A control thread that goes on handling what it handled, or takes on something new.
  lemma {:induction false} TakeOnKeeps(retired: set<nat>, controls: map<Id, Control>, g: Shared, id: Id, c: Control)
    requires ControlsInv(controls, g) && SharedInv(g) && Exclusive(retired, controls)
    requires forall n :: n in retired ==> n < g.next && n < g.generation
    requires g.mutex.Free? || g.mutex == HeldBy(id) || forall n :: !HandlesNow(c, n)
    requires forall n: nat :: HandlesNow(c, n) ==>
      Handles(controls, id, n) || n >= g.next || (g.pointer.To? && n == g.pointer.number)
    ensures Exclusive(retired, controls[id := c])
  {
    var after := controls[id := c];
    forall j: nat, n: nat | j != id && Handles(controls, j, n) && !Handles(controls, id, n) && HandlesNow(c, n)
      ensures n < g.generation && n < g.next
    {
      OutsidersAreOlder(controls, g, j, n);
    }
    hide ControlsInv;
    assert forall n :: Handles(after, id, n) <==> HandlesNow(c, n);
    assert forall j, n :: j != id ==> (Handles(after, j, n) <==> Handles(controls, j, n));
  }

  lemma {:induction false} LetGoKeeps(retired: set<nat>, controls: map<Id, Control>, id: Id, after: set<nat>)
    requires Exclusive(retired, controls)
    requires forall n :: n in after ==> n in retired || Handles(controls, id, n)
    ensures Exclusive(after, controls - {id})
  {
    assert forall j, n :: Handles(controls - {id}, j, n) <==> Handles(controls, j, n) && j != id;
  }

  // What one guarded step may make its control thread handle.
  lemma {:induction false} GuardedHandles(c: Control, id: Id, g: Shared, n: nat)
    requires SharedInv(g) && ControlInv(c, g) && !c.at.Wait? && HandlesNow(GuardedNext(c, id, g).0, n)
    ensures HandlesNow(c, n) || n >= g.next || (g.pointer.To? && n == g.pointer.number)
  {
  }

  lemma {:induction false} GuardedKeepsExclusive(s: State, id: Id)
    requires Inv(s) && Exclusive(s.retired, s.controls) && Enabled(s, ControlStep(id)) && !s.controls[id].at.Wait?
    ensures Exclusive(Step(s, ControlStep(id)).retired, Step(s, ControlStep(id)).controls)
  {
    var c := s.controls[id];
    var (d, h) := GuardedNext(c, id, s.shared);
    assert ControlInv(c, s.shared) && (InMutex(c) <==> s.shared.mutex == HeldBy(id));
    forall n: nat | HandlesNow(d, n)
      ensures Handles(s.controls, id, n) || n >= s.shared.next || (s.shared.pointer.To? && n == s.shared.pointer.number)
    {
      GuardedHandles(c, id, s.shared, n);
    }
    hide GuardedNext, ControlInv, ReadersInv, Accounted, HandlesNow, Handles;
    TakeOnKeeps(s.retired, s.controls, s.shared, id, d);
    hide SharedInv, ControlsInv, Gone;
    LetGoKeeps(s.retired, s.controls, id, s.retired);
  }

  lemma {:induction false} BeginKeepsExclusive(s: State, a: Action)
    requires Inv(s) && Exclusive(s.retired, s.controls) && Enabled(s, a)
    requires a.Register? || a.Unregister? || a.Shutdown?
    ensures Exclusive(Step(s, a).retired, Step(s, a).controls)
  {
    var t := Step(s, a);
    hide ControlInv, ReadersInv, Accounted;
    if t.controls != s.controls {
      TakeOnKeeps(s.retired, s.controls, s.shared, a.id, t.controls[a.id]);
    }
    hide Exclusive, SharedInv, ControlsInv, Gone;
  }

  lemma {:induction false} StepKeepsExclusive(s: State, a: Action)
    requires Inv(s) && Exclusive(s.retired, s.controls) && Enabled(s, a)
    ensures Exclusive(Step(s, a).retired, Step(s, a).controls)
  {
    if a.Register? || a.Unregister? || a.Shutdown? {
      BeginKeepsExclusive(s, a);
    } else if a.ControlStep? && s.controls[a.id].at.Wait? {
      WaitKeepsExclusive(s, a.id);
    } else if a.ControlStep? {
      GuardedKeepsExclusive(s, a.id);
    } else {
      assert Step(s, a).controls == s.controls && Step(s, a).retired == s.retired;
    }
    hide Exclusive, Step, Inv;
  }

  lemma {:induction false} WaitKeepsExclusive(s: State, id: Id)
    requires Inv(s) && Exclusive(s.retired, s.controls) && Enabled(s, ControlStep(id)) && s.controls[id].at.Wait?
    ensures Exclusive(Step(s, ControlStep(id)).retired, Step(s, ControlStep(id)).controls)
  {
    WaitKeepsControls(s.controls, s.shared, id);
    hide SharedInv, ReadersInv, ControlsInv, Gone, Accounted;
    LetGoKeeps(s.retired, s.controls, id, Step(s, ControlStep(id)).retired);
  }

  // ---- Whole runs -------------------------------------------------------------------

  ghost predicate IsRun(run: seq<State>, actions: seq<Action>)
  {
    && |run| == |actions| + 1 && run[0] == START
    && forall i :: 0 <= i < |actions| ==> Enabled(run[i], actions[i]) && run[i + 1] == Step(run[i], actions[i])
  }

  lemma {:induction false} RunKeeps(run: seq<State>, actions: seq<Action>, k: nat)
    requires IsRun(run, actions) && k < |run|
    ensures Inv(run[k])
  {
    hide Inv, Step;
    if k == 0 {
      InitialInv();
    } else {
      RunKeeps(run, actions, k - 1);
      StepKeeps(run[k - 1], actions[k - 1]);
    }
  }

  lemma {:induction false} RunKeepsExclusive(run: seq<State>, actions: seq<Action>, k: nat)
    requires IsRun(run, actions) && k < |run|
    ensures Exclusive(run[k].retired, run[k].controls)
  {
    if k > 0 {
      RunKeepsExclusive(run, actions, k - 1);
      RunKeeps(run, actions, k - 1);
      hide Inv, Step, Exclusive;
      StepKeepsExclusive(run[k - 1], actions[k - 1]);
    }
  }

  lemma {:induction false} RetiredGrows(run: seq<State>, actions: seq<Action>, j: nat, k: nat)
    requires IsRun(run, actions) && j <= k < |run|
    ensures run[j].retired <= run[k].retired
  {
    if j < k {
      RetiredGrows(run, actions, j, k - 1);
      assert run[k] == Step(run[k - 1], actions[k - 1]);
      hide GuardedNext, ReaderNext;
    }
  }

  /** Once the retirement of a registration has returned at step j, no callback holds it at
      any later step, and it is never registered again. */
  lemma {:induction false} NobodyHoldsRetired(run: seq<State>, actions: seq<Action>, j: nat, k: nat, n: nat, id: Id)
    requires IsRun(run, actions) && j <= k < |run| && n in run[j].retired
    ensures !Holds(run[k].readers, id, n)
    ensures !(run[k].shared.pointer.To? && run[k].shared.pointer.number == n)
  {
    RunKeeps(run, actions, k);
    RetiredGrows(run, actions, j, k);
  }

  /** A callback that keeps the pointer after loading both generations holds the registration
      of the generation it saw. */
  lemma {:induction false} HeldIsOfItsGeneration(run: seq<State>, actions: seq<Action>, k: nat, id: Id)
    requires IsRun(run, actions) && k < |run| && id in run[k].readers
    requires run[k].readers[id].at == Holding && run[k].readers[id].held.To? && run[k].readers[id].checks
    ensures run[k].readers[id].held.number == run[k].readers[id].before
    ensures run[k].count == |run[k].readers.Keys| > 0
  {
    RunKeeps(run, actions, k);
    assert ReaderInv(run[k].readers[id], run[k].shared);
    assert run[k].readers.Keys != {};
  }

  /** Unregistering registration n returns at once when n is no longer registered. Its
      retirement has then returned, so that nobody holds it, if and only if no other control
      thread is still retiring it; and what such a thread does is wait for the callbacks. */
  lemma {:induction false} EarlyReturn(run: seq<State>, actions: seq<Action>, k: nat, n: nat, endpoint: nat)
    requires IsRun(run, actions) && k < |run| && 1 <= n < run[k].shared.next
    requires run[k].shared.mutex == Free && !Matches(run[k].shared, endpoint, n)
    requires run[k].shared.pointer.To? && run[k].shared.pointer.number == n ==>
      run[k].shared.pointer.endpoint == endpoint
    ensures n in run[k].retired <==> !exists id :: Handles(run[k].controls, id, n)
    ensures forall id :: Handles(run[k].controls, id, n) ==> run[k].controls[id].at == Wait
  {
    RunKeeps(run, actions, k);
    RunKeepsExclusive(run, actions, k);
    var s := run[k];
    forall id | Handles(s.controls, id, n) ensures s.controls[id].at == Wait {
      assert ControlInv(s.controls[id], s.shared);
      assert InMutex(s.controls[id]) <==> s.shared.mutex == HeldBy(id);
    }
    hide ControlsInv, ReadersInv;
  }

  // A run as a chain of actions, and the state it ends in.
  datatype Path = Begin | Then(path: Path, action: Action)

  ghost predicate Leads(p: Path, s: State)
  {
    match p
    case Begin => s == START
    case Then(path, a) => exists t :: Leads(path, t) && Enabled(t, a) && s == Step(t, a)
  }

  lemma {:induction false} Extend(p: Path, s: State, a: Action) returns (q: Path, t: State)
    requires Leads(p, s) && Enabled(s, a)
    ensures q == Then(p, a) && t == Step(s, a) && Leads(q, t)
  {
    q, t := Then(p, a), Step(s, a);
  }

  lemma Start()
    ensures Leads(Begin, START)
  {
  }

  lemma {:induction false} RegisteredOnce() returns (p: Path, s: State)
    ensures Leads(p, s) && s == State(Shared(To(7, 1), 1, 2, Free, false), 0, map[], map[], {})
  {
    hide Leads;
    Start();
    var c := ControlStep(1);
    p, s := Extend(Begin, START, Register(1, 7));
    p, s := Extend(p, s, c);
    p, s := Extend(p, s, c);
    p, s := Extend(p, s, c);
    assert s.controls == map[];
  }

  lemma {:induction false} ReadOnce(p: Path, s: State) returns (q: Path, t: State)
    requires Leads(p, s) && s == State(Shared(To(7, 1), 1, 2, Free, false), 0, map[], map[], {})
    ensures Leads(q, t) && t == State(s.shared, 1, map[0 := Reader(Holding, 1, To(7, 1), true)], map[], {})
  {
    hide Leads;
    var r := ReaderStep(0);
    q, t := Extend(p, s, Enter(0, true));
    q, t := Extend(q, t, r);
    q, t := Extend(q, t, r);
    q, t := Extend(q, t, r);
    assert t.readers == map[0 := Reader(Holding, 1, To(7, 1), true)];
  }

  lemma {:induction false} ShutDownWaits(p: Path, s: State) returns (q: Path, t: State)
    requires Leads(p, s) && s.shared == Shared(To(7, 1), 1, 2, Free, false) && s.controls == map[]
    ensures Leads(q, t)
    ensures t.shared == Shared(Null, 2, 2, Free, true) && t.readers == s.readers && t.controls.Keys == {1}
  {
    hide Leads;
    var c := ControlStep(1);
    q, t := Extend(p, s, Shutdown(1));
    q, t := Extend(q, t, c);
    q, t := Extend(q, t, c);
    q, t := Extend(q, t, c);
    q, t := Extend(q, t, c);
  }

  /** The condition is needed: while a shutdown waits for a callback, unregistering the same
      endpoint returns at once and the callback still holds it. */
  lemma {:induction false} EarlyReturnWhileHeld() returns (p: Path, s: State)
    ensures Leads(p, s)
    ensures Enabled(s, Unregister(2, 7, 1)) && Step(s, Unregister(2, 7, 1)) == s
    ensures Holds(s.readers, 0, 1) && s.readers[0].at == Holding
  {
    hide Leads;
    p, s := RegisteredOnce();
    p, s := ReadOnce(p, s);
    p, s := ShutDownWaits(p, s);
  }

  // ---- What each call achieves -------------------------------------------------------------

  // How many steps a control thread still needs.
  function ControlSteps(at: ControlPoint): nat
  {
    match at
    case TakeMutex => 6
    case ClearPointer => 5
    case BumpGeneration => 4
    case StoreGeneration => 4
    case StorePointer => 3
    case Unlock => 2
    case Wait => 1
  }

  /** Every step of a control thread brings its call nearer to its end, except that a retirement
      waits at its end for exactly as long as a reader is counted. */
  lemma {:induction false} CallsEnd(s: State, id: Id)
    requires Inv(s) && Enabled(s, ControlStep(id))
    ensures var t, c := Step(s, ControlStep(id)), s.controls[id];
      && (!c.at.Wait? && id in t.controls ==> ControlSteps(t.controls[id].at) < ControlSteps(c.at))
      && (c.at.Wait? ==> if s.readers == map[] then id !in t.controls else t == s)
      && (c.at.Unlock? ==> t.shared.mutex.Free? && (id in t.controls <==> c.retires))
  {
    assert s.count == |s.readers.Keys| by { hide SharedInv, ControlsInv, Gone, Accounted; }
    assert s.readers == map[] <==> s.readers.Keys == {};
    hide Inv;
  }

  // What the control thread that holds the mutex has done.
  predicate MutexInv(controls: map<Id, Control>, g: Shared)
  {
    forall id :: id in controls ==>
      && (controls[id].at.Unlock? && !controls[id].retires ==> g.pointer == controls[id].mine && g.pointer.To?)
      && (controls[id].at.Unlock? && controls[id].retires ==> g.pointer.Null?)
  }

  lemma {:induction false} StepKeepsMutex(s: State, a: Action)
    requires SharedInv(s.shared) && ControlsInv(s.controls, s.shared) && MutexInv(s.controls, s.shared) && Enabled(s, a)
    ensures MutexInv(Step(s, a).controls, Step(s, a).shared)
  {
    var t := Step(s, a);
    forall id | id in t.controls
      ensures t.controls[id].at.Unlock? && !t.controls[id].retires ==>
        t.shared.pointer == t.controls[id].mine && t.shared.pointer.To?
      ensures t.controls[id].at.Unlock? && t.controls[id].retires ==> t.shared.pointer.Null?
    {
      if id in s.controls {
        assert ControlInv(s.controls[id], s.shared) && (InMutex(s.controls[id]) <==> s.shared.mutex == HeldBy(id));
      }
      if a.ControlStep? {
        assert ControlInv(s.controls[a.id], s.shared)
               && (InMutex(s.controls[a.id]) <==> s.shared.mutex == HeldBy(a.id));
      }
    }
  }

  lemma {:induction false} RunKeepsMutex(run: seq<State>, actions: seq<Action>, k: nat)
    requires IsRun(run, actions) && k < |run|
    ensures MutexInv(run[k].controls, run[k].shared)
  {
    if k > 0 {
      RunKeepsMutex(run, actions, k - 1);
      RunKeeps(run, actions, k - 1);
      hide SharedInv, ControlsInv, ReadersInv, Gone, Accounted, Step, MutexInv;
      StepKeepsMutex(run[k - 1], actions[k - 1]);
    }
  }

  // Control thread `id` works on one call from step j + 1 to step k.
  predicate Registering(run: seq<State>, id: Id, j: nat, k: nat)
    requires k < |run|
  {
    forall i :: j < i <= k ==> id in run[i].controls
  }

  lemma {:induction false} EndpointIsKept(run: seq<State>, actions: seq<Action>, id: Id, endpoint: nat, j: nat, k: nat)
    requires IsRun(run, actions) && j < k < |run| && actions[j] == Register(id, endpoint)
    requires id !in run[j].controls && Registering(run, id, j, k)
    ensures var c := run[k].controls[id]; c.mine.To? && c.mine.endpoint == endpoint && !c.retires
  {
    assert run[k] == Step(run[k - 1], actions[k - 1]) && Enabled(run[k - 1], actions[k - 1]);
    if k > j + 1 {
      EndpointIsKept(run, actions, id, endpoint, j, k - 1);
      RunKeeps(run, actions, k - 1);
      assert ControlInv(run[k - 1].controls[id], run[k - 1].shared);
      hide SharedInv, ReadersInv, Gone, Accounted, ReaderNext;
    }
  }

  /** Registering is accepted exactly when nothing is registered and the engine is not shutting down;
      before the mutex is given back that endpoint is registered, with the newest generation. */
  lemma {:induction false} RegisterOutcome(run: seq<State>, actions: seq<Action>, id: Id, endpoint: nat, j: nat,
                                           k: nat)
    requires IsRun(run, actions) && j < k < |run| && actions[j] == Register(id, endpoint)
    ensures id in run[j + 1].controls <==> !run[j].shared.down && run[j].shared.pointer.Null?
    ensures Registering(run, id, j, k) && run[k].controls[id].at == Unlock ==>
      var g := run[k].shared;
      g.pointer == To(endpoint, g.generation) && g.generation + 1 == g.next && g.mutex == HeldBy(id)
  {
    assert run[j + 1] == Step(run[j], actions[j]) && Enabled(run[j], actions[j]);
    if Registering(run, id, j, k) && run[k].controls[id].at == Unlock {
      EndpointIsKept(run, actions, id, endpoint, j, k);
      RunKeepsMutex(run, actions, k);
      RunKeeps(run, actions, k);
      assert ControlInv(run[k].controls[id], run[k].shared);
      assert InMutex(run[k].controls[id]) <==> run[k].shared.mutex == HeldBy(id);
    }
    hide IsRun, ReadersInv, Gone, Accounted;
  }

  /** An unregistration goes ahead exactly when endpoint and generation match, a shutdown always;
      before the mutex is given back nothing is registered any more. */
  lemma {:induction false} RetireOutcome(run: seq<State>, actions: seq<Action>, k: nat, id: Id)
    requires IsRun(run, actions) && k < |run| && id in run[k].controls
    ensures run[k].controls[id].at == Unlock && run[k].controls[id].retires ==> run[k].shared.pointer.Null?
    ensures k < |actions| ==>
      match actions[k]
      case Unregister(other, endpoint, generation) =>
        other in run[k + 1].controls <==> Matches(run[k].shared, endpoint, generation)
      case Shutdown(other) => run[k + 1].shared.down && other in run[k + 1].controls
      case _ => true
  {
    RunKeepsMutex(run, actions, k);
    if k < |actions| {
      assert run[k + 1] == Step(run[k], actions[k]) && Enabled(run[k], actions[k]);
    }
    hide IsRun, GuardedNext, ReaderNext;
  }

  /** A callback that loads a generation, a pointer and a generation keeps the pointer unless the
      generation moved or was none; a device start or stop keeps what it loads. */
  lemma {:induction false} ReaderOutcome(before: Shared, between: Shared, after: Shared)
    ensures var r := ReaderNext(ReaderNext(ReaderNext(Entering(true), before), between), after);
      && r.at.Holding?
      && r.held == if before.generation != 0 && before.generation == after.generation then between.pointer else Null
    ensures var r := ReaderNext(Entering(false), between); r.at.Holding? && r.held == between.pointer
  {
  }
}
