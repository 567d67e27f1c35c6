/**
 DeckTrackLoader: one worker a deck prepares the newest requested track. All loaders share a
 count of pending audio loads; every loader opens cache handles that must end somewhere. Any
 number of loaders run at once, each with its control thread and its worker, one shared
 access a step. A mutex section is split where the shared count is changed inside it.
 */
module TrackLoader {

  import opened Wrappers

  // `listened` says whether the caller gave a completion callback.
  datatype Request = Request(generation: nat, listened: bool)

  datatype ControlPoint =
    | CIdle
    | CTestShutdown | CBump | CLock | CCount | CStore    // loadTrack
    | KBump | KRemove | KCountDown                       // requestCancel
    | SExchange | SBump | SRemove | SCountDown | SJoin   // shutdownAndJoin

  // `generation` is the one given out, `removed` whether a queued request was taken back.
  datatype Control = Control(at: ControlPoint, generation: nat, listened: bool, removed: bool)

  datatype WorkerPoint =
    | WWait | WPrepare
    | WOpenTest1 | WOpenTest2   // isCurrent after the handle was opened
    | WCountDown
    | WTest1 | WTest2           // isCurrent before the completion
    | WRelease | WComplete | WDone

  datatype Worker = Worker(at: WorkerPoint, request: Request, handle: Option<nat>, failed: bool)

  datatype Loader = Loader(generation: nat, shuttingDown: bool, pending: Option<Request>, locked: bool,
                           control: Control, worker: Worker)

  // Where every opened handle went. `passed` ones went to a completion callback.
  datatype Handles = Handles(issued: nat, released: set<nat>, passed: set<nat>, lost: set<nat>)

  datatype State = State(loaders: seq<Loader>, count: int, handles: Handles)

  datatype Action =
    | Load(i: nat, listened: bool)
    | Cancel(i: nat)
    | Shutdown(i: nat)
    | ControlStep(i: nat)
    | WorkerStep(i: nat, opens: bool)   // whether preparing gets as far as opening a handle

  predicate Initial(s: State)
  {
    && s.count == 0 && s.handles == Handles(0, {}, {}, {})
    && forall i :: 0 <= i < |s.loaders| ==>
         var l := s.loaders[i];
         && l.generation == 0 && !l.shuttingDown && l.pending.None? && !l.locked
         && l.control.at.CIdle? && l.worker.at.WWait? && l.worker.handle.None?
  }

  predicate Enabled(s: State, a: Action)
  {
    && a.i < |s.loaders|
    && var l := s.loaders[a.i];
       match a
       case Load(_, _) => l.control.at.CIdle?
       case Cancel(_) => l.control.at.CIdle?
       case Shutdown(_) => l.control.at.CIdle?
       case ControlStep(_) => !l.control.at.CIdle? && (l.control.at.SJoin? ==> l.worker.at.WDone?)
       case WorkerStep(_, _) =>
         && !l.worker.at.WDone?
         && (l.worker.at.WWait? ==> !l.locked && (l.shuttingDown || l.pending.Some?))
  }

  // A control step of one loader, and by how much it changes the shared count.
  function ControlNext(l: Loader): (Loader, int)
  {
    var c := l.control;
    if c.at.CTestShutdown? then (l.(control := c.(at := if l.shuttingDown then CIdle else CBump)), 0)
    else if c.at.CBump? then
      (l.(generation := l.generation + 1, control := c.(at := CLock, generation := l.generation + 1)), 0)
    else if c.at.CLock? then
      (l.(locked := true, control := c.(at := if l.pending.Some? then CStore else CCount)), 0)
    else if c.at.CCount? then (l.(control := c.(at := CStore)), 1)
    else if c.at.CStore? then
      (l.(pending := Some(Request(c.generation, c.listened)), locked := false, control := c.(at := CIdle)), 0)
    else if c.at.KBump? then (l.(generation := l.generation + 1, control := c.(at := KRemove)), 0)
    else if c.at.KRemove? then
      (l.(pending := None, control := c.(at := KCountDown, removed := l.pending.Some?)), 0)
    else if c.at.KCountDown? then (l.(control := c.(at := CIdle, removed := false)), if c.removed then -1 else 0)
    else if c.at.SExchange? then
      (l.(shuttingDown := true, control := c.(at := if l.shuttingDown then CIdle else SBump)), 0)
    else if c.at.SBump? then (l.(generation := l.generation + 1, control := c.(at := SRemove)), 0)
    else if c.at.SRemove? then
      (l.(pending := None, control := c.(at := SCountDown, removed := l.pending.Some?)), 0)
    else if c.at.SCountDown? then (l.(control := c.(at := SJoin, removed := false)), if c.removed then -1 else 0)
    else (l.(control := c.(at := CIdle)), 0)
  }

  function WorkerNext(l: Loader, opens: bool, next: nat): (Loader, int)
  {
    var w := l.worker;
    if w.at.WWait? then
      if l.shuttingDown || l.pending.None? then (l.(worker := w.(at := WDone)), 0)
      else (l.(pending := None, worker := Worker(WPrepare, l.pending.value, None, false)), 0)
    else if w.at.WPrepare? then
      (l.(worker := if opens then w.(at := WOpenTest1, handle := Some(next))
                    else w.(at := WCountDown, failed := true)), 0)
    else if w.at.WOpenTest1? then
      (l.(worker := if l.shuttingDown then w.(at := WCountDown, failed := true) else w.(at := WOpenTest2)), 0)
    else if w.at.WOpenTest2? then
      (l.(worker := w.(at := WCountDown, failed := l.generation != w.request.generation)), 0)
    else if w.at.WCountDown? then (l.(worker := w.(at := WTest1)), -1)
    else if w.at.WTest1? then (l.(worker := w.(at := if l.shuttingDown then WRelease else WTest2)), 0)
    else if w.at.WTest2? then
      (l.(worker := w.(at := if l.generation != w.request.generation then WRelease else WComplete)), 0)
    else (l.(worker := w.(at := WWait, handle := None)), 0)
  }

  function Added(known: set<nat>, handle: Option<nat>): set<nat>
  {
    if handle.Some? then known + {handle.value} else known
  }

  // What a worker step does to the handles.
  function HandlesNext(h: Handles, w: Worker, opens: bool): Handles
  {
    if w.at.WPrepare? && opens then h.(issued := h.issued + 1)
    else if w.at.WRelease? then h.(released := Added(h.released, w.handle))
    else if w.at.WComplete? && w.request.listened then h.(passed := Added(h.passed, w.handle))
    else if w.at.WComplete? then h.(lost := Added(h.lost, w.handle))
    else h
  }

  function Step(s: State, a: Action): State
    requires Enabled(s, a)
  {
    var l := s.loaders[a.i];
    match a
    case Load(i, listened) =>
      s.(loaders := s.loaders[i := l.(control := Control(CTestShutdown, 0, listened, false))])
    case Cancel(i) => s.(loaders := s.loaders[i := l.(control := Control(KBump, 0, false, false))])
    case Shutdown(i) => s.(loaders := s.loaders[i := l.(control := Control(SExchange, 0, false, false))])
    case ControlStep(i) =>
      var (next, change) := ControlNext(l);
      s.(loaders := s.loaders[i := next], count := s.count + change)
    case WorkerStep(i, opens) =>
      var (next, change) := WorkerNext(l, opens, s.handles.issued);
      State(s.loaders[i := next], s.count + change, HandlesNext(s.handles, l.worker, opens))
  }

  // ---- The shared count -------------------------------------------------------------------

  predicate Preparing(w: Worker)
  {
    w.at.WPrepare? || w.at.WOpenTest1? || w.at.WOpenTest2? || w.at.WCountDown?
  }

  // A request that is counted and not queued yet.
  predicate Queueing(l: Loader) { l.control.at.CStore? && l.pending.None? }

  // A request that was taken back and is still counted.
  predicate Removing(c: Control) { (c.at.KCountDown? || c.at.SCountDown?) && c.removed }

  function Bit(b: bool): nat { if b then 1 else 0 }

  // The loads one loader accounts for.
  function Loads(l: Loader): nat
  {
    Bit(l.pending.Some?) + Bit(Queueing(l)) + Bit(Preparing(l.worker)) + Bit(Removing(l.control))
  }

  function AllLoads(loaders: seq<Loader>): nat
  {
    if loaders == [] then 0 else AllLoads(loaders[..|loaders| - 1]) + Loads(loaders[|loaders| - 1])
  }

  lemma {:induction false} AllLoadsUpdate(loaders: seq<Loader>, i: nat, l: Loader)
    requires i < |loaders|
    ensures AllLoads(loaders[i := l]) == AllLoads(loaders) - Loads(loaders[i]) + Loads(l)
  {
    var n := |loaders| - 1;
    if i == n {
      assert loaders[i := l][..n] == loaders[..n];
    } else {
      assert loaders[i := l][..n] == loaders[..n][i := l];
      AllLoadsUpdate(loaders[..n], i, l);
    }
  }

  // The mutex is held exactly while a load is between locking and storing; nobody queues
  // while it is held; generations given out are in the past.
  predicate LoaderInv(l: Loader)
  {
    && (l.locked <==> l.control.at.CCount? || l.control.at.CStore?)
    && (l.control.at.CCount? ==> l.pending.None?)
    && (l.control.at.CLock? || l.control.at.CCount? || l.control.at.CStore? ==> l.control.generation <= l.generation)
    && (l.pending.Some? ==> l.pending.value.generation <= l.generation)
    && (!l.worker.at.WWait? && !l.worker.at.WDone? ==> l.worker.request.generation <= l.generation)
    && WorkerInv(l)
  }

  // A request that is not current stays so.
  predicate Stale(l: Loader, generation: nat)
  {
    l.shuttingDown || generation != l.generation
  }

  // A failed load that holds a handle is stale, so it cannot reach the completion.
  predicate WorkerInv(l: Loader)
  {
    var w := l.worker;
    && (w.at.WWait? || w.at.WPrepare? || w.at.WDone? ==> w.handle.None?)
    && (w.at.WPrepare? || w.at.WOpenTest1? || w.at.WOpenTest2? ==> !w.failed)
    && ((w.at.WCountDown? || w.at.WTest1?) && w.failed && w.handle.Some? ==>
          Stale(l, w.request.generation))
    && (w.at.WTest2? && w.failed && w.handle.Some? ==> l.generation != w.request.generation)
    && (w.at.WComplete? && w.failed ==> w.handle.None?)
  }

  // ---- Where handles are ------------------------------------------------------------------

  predicate HeldBy(loaders: seq<Loader>, i: nat, handle: nat)
  {
    i < |loaders| && loaders[i].worker.handle == Some(handle)
  }

  function Settled(h: Handles): set<nat> { h.released + h.passed + h.lost }

  // Every opened handle is with one worker or in one of the three sets.
  ghost predicate HandlesInv(loaders: seq<Loader>, h: Handles)
  {
    && h.released !! h.passed !! h.lost
    && (forall n :: n in Settled(h) ==> n < h.issued)
    && (forall i: nat, n: nat :: HeldBy(loaders, i, n) ==> n < h.issued && n !in Settled(h))
    && (forall i: nat, j: nat, n: nat :: HeldBy(loaders, i, n) && HeldBy(loaders, j, n) ==> i == j)
    && (forall n :: 0 <= n < h.issued && n !in Settled(h) ==> exists i :: HeldBy(loaders, i, n))
  }

  ghost predicate Inv(s: State)
  {
    && s.count == AllLoads(s.loaders)
    && (forall i :: 0 <= i < |s.loaders| ==> LoaderInv(s.loaders[i]))
    && HandlesInv(s.loaders, s.handles)
  }

  // A loader's generation and shutdown only move on.
  predicate MovesOn(l: Loader, m: Loader)
  {
    l.generation <= m.generation && (l.shuttingDown ==> m.shuttingDown)
  }

  lemma {:induction false} ControlMovesOn(l: Loader)
    ensures MovesOn(l, ControlNext(l).0) && ControlNext(l).0.worker == l.worker
  {
  }

  lemma {:induction false} MovingOnKeepsWorker(l: Loader, m: Loader)
    requires LoaderInv(l) && MovesOn(l, m) && m.worker == l.worker
    ensures WorkerInv(m)
  {
  }

  lemma {:induction false} ControlKeeps(l: Loader)
    requires LoaderInv(l) && !l.control.at.CIdle?
    ensures LoaderInv(ControlNext(l).0) && ControlNext(l).0.worker == l.worker
  {
    ControlMovesOn(l);
    MovingOnKeepsWorker(l, ControlNext(l).0);
    hide WorkerInv;
  }

  lemma {:induction false} ControlKeepsLoads(l: Loader)
    requires LoaderInv(l) && !l.control.at.CIdle?
    ensures Loads(ControlNext(l).0) == Loads(l) + ControlNext(l).1
  {
    hide WorkerInv;
  }

  lemma {:induction false} WorkerKeepsWorker(l: Loader, opens: bool, next: nat)
    requires WorkerInv(l) && !l.worker.at.WDone?
    ensures WorkerInv(WorkerNext(l, opens, next).0)
  {
  }

  lemma {:induction false} WorkerKeeps(l: Loader, opens: bool, next: nat)
    requires LoaderInv(l) && !l.worker.at.WDone?
    requires l.worker.at.WWait? ==> !l.locked && (l.shuttingDown || l.pending.Some?)
    ensures LoaderInv(WorkerNext(l, opens, next).0)
  {
    WorkerKeepsWorker(l, opens, next);
    hide WorkerInv;
  }

  lemma {:induction false} WorkerKeepsLoads(l: Loader, opens: bool, next: nat)
    requires LoaderInv(l) && !l.worker.at.WDone?
    requires l.worker.at.WWait? ==> !l.locked && (l.shuttingDown || l.pending.Some?)
    ensures var (after, change) := WorkerNext(l, opens, next); Loads(after) == Loads(l) + change
  {
    hide WorkerInv;
  }

  lemma {:induction false} BeginKeeps(l: Loader, c: Control)
    requires LoaderInv(l) && l.control.at.CIdle? && !c.removed
    requires c.at.CTestShutdown? || c.at.KBump? || c.at.SExchange?
    ensures LoaderInv(l.(control := c)) && Loads(l.(control := c)) == Loads(l)
  {
  }

  // A step that leaves all handles where they are.
  lemma {:induction false} SameHandles(loaders: seq<Loader>, h: Handles, i: nat, l: Loader)
    requires HandlesInv(loaders, h) && i < |loaders| && l.worker.handle == loaders[i].worker.handle
    ensures HandlesInv(loaders[i := l], h)
  {
    var after := loaders[i := l];
    assert forall j, n :: HeldBy(after, j, n) <==> HeldBy(loaders, j, n);
  }

  // A worker without a handle opens the next one.
  lemma {:induction false} OpenHandle(loaders: seq<Loader>, h: Handles, i: nat, l: Loader)
    requires HandlesInv(loaders, h) && i < |loaders| && loaders[i].worker.handle.None?
    requires l.worker.handle == Some(h.issued)
    ensures HandlesInv(loaders[i := l], h.(issued := h.issued + 1))
  {
    var after := loaders[i := l];
    assert HeldBy(after, i, h.issued);
    assert forall j, n :: j != i ==> (HeldBy(after, j, n) <==> HeldBy(loaders, j, n));
    assert forall n :: !HeldBy(loaders, i, n);
    forall n | 0 <= n < h.issued && n !in Settled(h) ensures exists j :: HeldBy(after, j, n) {
      var j :| HeldBy(loaders, j, n);
      assert HeldBy(after, j, n);
    }
  }

  // A worker gives up its handle, which settles in one of the sets.
  lemma {:induction false} SettleHandle(loaders: seq<Loader>, h: Handles, i: nat, l: Loader, after: Handles)
    requires HandlesInv(loaders, h) && i < |loaders| && l.worker.handle.None?
    requires var handle := loaders[i].worker.handle;
      || after == h.(released := Added(h.released, handle))
      || after == h.(passed := Added(h.passed, handle))
      || after == h.(lost := Added(h.lost, handle))
    ensures HandlesInv(loaders[i := l], after)
  {
    var left := loaders[i := l];
    var handle := loaders[i].worker.handle;
    assert forall j, n :: HeldBy(left, j, n) <==> HeldBy(loaders, j, n) && j != i;
    assert handle.Some? ==> HeldBy(loaders, i, handle.value);
    assert Settled(after) == Added(Settled(h), handle);
    forall n | 0 <= n < after.issued && n !in Settled(after) ensures exists j :: HeldBy(left, j, n) {
      var j :| HeldBy(loaders, j, n);
      assert j != i && HeldBy(left, j, n);
    }
  }

  lemma {:induction false} WorkerKeepsHandles(s: State, i: nat, opens: bool)
    requires HandlesInv(s.loaders, s.handles) && i < |s.loaders| && LoaderInv(s.loaders[i])
    requires Enabled(s, WorkerStep(i, opens))
    ensures HandlesInv(Step(s, WorkerStep(i, opens)).loaders, Step(s, WorkerStep(i, opens)).handles)
  {
    var l := s.loaders[i];
    var (next, _) := WorkerNext(l, opens, s.handles.issued);
    if l.worker.at.WPrepare? && opens {
      OpenHandle(s.loaders, s.handles, i, next);
    } else if l.worker.at.WRelease? || l.worker.at.WComplete? {
      SettleHandle(s.loaders, s.handles, i, next, HandlesNext(s.handles, l.worker, opens));
    } else {
      SameHandles(s.loaders, s.handles, i, next);
    }
    hide HandlesInv;
  }

  lemma {:induction false} StepKeeps(s: State, a: Action)
    requires Inv(s) && Enabled(s, a)
    ensures Inv(Step(s, a))
  {
    hide HandlesInv, LoaderInv, Loads, AllLoads, ControlNext, WorkerNext, HandlesNext;
    var l, t := s.loaders[a.i], Step(s, a);
    assert LoaderInv(l);
    AllLoadsUpdate(s.loaders, a.i, t.loaders[a.i]);
    if a.WorkerStep? {
      WorkerKeeps(l, a.opens, s.handles.issued);
      WorkerKeepsLoads(l, a.opens, s.handles.issued);
      WorkerKeepsHandles(s, a.i, a.opens);
    } else {
      if a.ControlStep? {
        ControlKeeps(l);
        ControlKeepsLoads(l);
      } else {
        BeginKeeps(l, t.loaders[a.i].control);
      }
      SameHandles(s.loaders, s.handles, a.i, t.loaders[a.i]);
    }
  }

  // ---- Whole runs -------------------------------------------------------------------------

  ghost predicate IsRun(run: seq<State>, actions: seq<Action>)
  {
    && |run| == |actions| + 1 && Initial(run[0])
    && forall k :: 0 <= k < |actions| ==> Enabled(run[k], actions[k]) && run[k + 1] == Step(run[k], actions[k])
  }

  lemma {:induction false} InitialInv(s: State)
    requires Initial(s)
    ensures Inv(s)
  {
    NoLoads(s.loaders);
    assert forall i, n :: !HeldBy(s.loaders, i, n);
  }

  lemma {:induction false} NoLoads(loaders: seq<Loader>)
    requires forall i :: 0 <= i < |loaders| ==> Loads(loaders[i]) == 0
    ensures AllLoads(loaders) == 0
  {
    if loaders != [] {
      NoLoads(loaders[..|loaders| - 1]);
    }
  }

  lemma {:induction false} RunKeeps(run: seq<State>, actions: seq<Action>, k: nat)
    requires IsRun(run, actions) && k < |run|
    ensures Inv(run[k])
  {
    hide Inv, Step, Enabled;
    if k == 0 {
      InitialInv(run[0]);
    } else {
      RunKeeps(run, actions, k - 1);
      StepKeeps(run[k - 1], actions[k - 1]);
    }
  }

  /** At every step the shared count is exactly the requests queued, about to be queued, being
      prepared, or taken back and not counted down yet, over all loaders. */
  lemma {:induction false} CountIsExact(run: seq<State>, actions: seq<Action>, k: nat)
    requires IsRun(run, actions) && k < |run|
    ensures run[k].count == AllLoads(run[k].loaders) >= 0
  {
    RunKeeps(run, actions, k);
  }

  /** Every opened handle is with exactly one worker, or was released, passed to one completion
      or lost, and never two of these. It is lost only for a request without a completion. */
  lemma {:induction false} HandlesEndOnce(run: seq<State>, actions: seq<Action>, k: nat, n: nat)
    requires IsRun(run, actions) && k < |run| && n < run[k].handles.issued
    ensures var h := run[k].handles;
      && h.released !! h.passed !! h.lost
      && (n in Settled(h) <==> !exists i :: HeldBy(run[k].loaders, i, n))
      && forall i, j :: HeldBy(run[k].loaders, i, n) && HeldBy(run[k].loaders, j, n) ==> i == j
  {
    RunKeeps(run, actions, k);
    hide LoaderInv, AllLoads;
  }

  /** A load that found itself superseded after it opened a handle releases it, because what is
      not current never becomes current again: when its worker lets go, the handle is released. */
  lemma {:induction false} SupersededIsReleased(run: seq<State>, actions: seq<Action>, k: nat, i: nat, n: nat)
    requires IsRun(run, actions) && k < |actions|
    requires HeldBy(run[k].loaders, i, n) && run[k].loaders[i].worker.failed
    requires !HeldBy(run[k + 1].loaders, i, n)
    ensures n in run[k + 1].handles.released
  {
    RunKeeps(run, actions, k);
    assert run[k + 1] == Step(run[k], actions[k]);
    assert LoaderInv(run[k].loaders[i]);
    hide HandlesInv, AllLoads, ControlNext;
    if actions[k].ControlStep? {
      ControlMovesOn(run[k].loaders[actions[k].i]);
    }
  }

  /** A completion gets a cache handle only from a load that did not fail. */
  lemma {:induction false} OnlySuccessIsPassed(run: seq<State>, actions: seq<Action>, k: nat, n: nat)
    requires IsRun(run, actions) && k < |actions| && n in run[k + 1].handles.passed && n !in run[k].handles.passed
    ensures actions[k].WorkerStep? && actions[k].i < |run[k].loaders|
    ensures var w := run[k].loaders[actions[k].i].worker;
      w.handle == Some(n) && !w.failed && w.request.listened
  {
    RunKeeps(run, actions, k);
    assert run[k + 1] == Step(run[k], actions[k]);
    assert LoaderInv(run[k].loaders[actions[k].i]);
    hide HandlesInv, AllLoads, ControlNext, WorkerNext;
  }

  /** A handle is lost exactly when a current load without a completion ends. */
  lemma {:induction false} OnlyUnheardHandlesAreLost(run: seq<State>, actions: seq<Action>, k: nat, n: nat)
    requires IsRun(run, actions) && k < |actions|
    ensures n in run[k + 1].handles.lost && n !in run[k].handles.lost <==>
      && n !in run[k].handles.lost
      && actions[k].WorkerStep? && actions[k].i < |run[k].loaders|
      && var w := run[k].loaders[actions[k].i].worker;
         w.at.WComplete? && w.handle == Some(n) && !w.request.listened
  {
    assert run[k + 1] == Step(run[k], actions[k]);
    hide ControlNext, WorkerNext;
  }

  // Every load that is on its way in this loader has a completion.
  predicate Heard(l: Loader)
  {
    var at := l.control.at;
    && (at.CTestShutdown? || at.CBump? || at.CLock? || at.CCount? || at.CStore? ==> l.control.listened)
    && (l.pending.Some? ==> l.pending.value.listened)
    && (!l.worker.at.WWait? && !l.worker.at.WDone? ==> l.worker.request.listened)
  }

  ghost predicate AllHeard(s: State)
  {
    s.handles.lost == {} && forall i :: 0 <= i < |s.loaders| ==> Heard(s.loaders[i])
  }

  lemma {:induction false} StepKeepsHeard(s: State, a: Action)
    requires AllHeard(s) && Enabled(s, a) && (a.Load? ==> a.listened)
    ensures AllHeard(Step(s, a))
  {
    var l, t := s.loaders[a.i], Step(s, a);
    assert Heard(l);
    if a.ControlStep? {
      ControlKeepsHeard(l);
    } else if a.WorkerStep? {
      WorkerKeepsHeard(l, a.opens, s.handles);
    }
    hide ControlNext, WorkerNext, HandlesNext;
  }

  lemma ControlKeepsHeard(l: Loader)
    requires Heard(l)
    ensures Heard(ControlNext(l).0)
  {
  }

  lemma WorkerKeepsHeard(l: Loader, opens: bool, h: Handles)
    requires Heard(l)
    ensures Heard(WorkerNext(l, opens, h.issued).0) && HandlesNext(h, l.worker, opens).lost == h.lost
  {
  }

  lemma {:induction false} RunKeepsHeard(run: seq<State>, actions: seq<Action>, k: nat)
    requires IsRun(run, actions) && k < |run|
    requires forall j :: 0 <= j < k && actions[j].Load? ==> actions[j].listened
    ensures AllHeard(run[k])
  {
    if k > 0 {
      RunKeepsHeard(run, actions, k - 1);
      StepKeepsHeard(run[k - 1], actions[k - 1]);
      hide Step, Enabled, AllHeard, Initial;
    }
  }

  /** When every load so far had a completion, nothing is lost: every opened handle is with its
      worker, or was released, or was passed to one completion, and never two of these. */
  lemma {:induction false} HeardLoadsLoseNothing(run: seq<State>, actions: seq<Action>, k: nat)
    requires IsRun(run, actions) && k < |run|
    requires forall j :: 0 <= j < k && actions[j].Load? ==> actions[j].listened
    ensures var h := run[k].handles;
      && h.lost == {} && h.released !! h.passed
      && forall n :: 0 <= n < h.issued ==> (n in h.released + h.passed <==> !exists i :: HeldBy(run[k].loaders, i, n))
  {
    RunKeeps(run, actions, k);
    RunKeepsHeard(run, actions, k);
    hide IsRun, LoaderInv, AllLoads, Heard, HeldBy;
    var h := run[k].handles;
    assert Settled(h) == h.released + h.passed;
    forall n | 0 <= n < h.issued
      ensures n in h.released + h.passed <==> !exists i :: HeldBy(run[k].loaders, i, n)
    {
      HandlesEndOnce(run, actions, k, n);
    }
  }

  // A run with one more step, and the state it ends in.
  lemma {:induction false} Extend(run: seq<State>, actions: seq<Action>, a: Action)
      returns (longer: seq<State>, more: seq<Action>, s: State)
    requires IsRun(run, actions) && Enabled(run[|actions|], a)
    ensures IsRun(longer, more) && longer[0] == run[0]
    ensures s == longer[|more|] == Step(run[|actions|], a)
  {
    s := Step(run[|actions|], a);
    longer, more := run + [s], actions + [a];
    hide Enabled, Step, Initial;
  }

  // The first loader's only request is one without a completion.
  predicate UnheardQueued(s: State)
  {
    && s.loaders != [] && s.handles == Handles(0, {}, {}, {})
    && var l := s.loaders[0];
       && !l.shuttingDown && !l.locked && l.pending == Some(Request(l.generation, false)) && l.worker.at.WWait?
  }

  lemma StartRun(first: State)
    requires Initial(first)
    ensures IsRun([first], [])
  {
  }

  lemma {:induction false} QueueUnheard(first: State) returns (run: seq<State>, actions: seq<Action>, s: State)
    requires Initial(first) && first.loaders != []
    ensures IsRun(run, actions) && run[0] == first && s == run[|actions|] && UnheardQueued(s)
  {
    hide IsRun, WorkerNext, HandlesNext;
    StartRun(first);
    run, actions, s := Extend([first], [], Load(0, false));
    run, actions, s := Extend(run, actions, ControlStep(0));
    run, actions, s := Extend(run, actions, ControlStep(0));
    run, actions, s := Extend(run, actions, ControlStep(0));
    run, actions, s := Extend(run, actions, ControlStep(0));
    run, actions, s := Extend(run, actions, ControlStep(0));
  }

  // That request was prepared, with the first cache handle, and is current.
  predicate UnheardPrepared(s: State)
  {
    && s.loaders != [] && s.handles == Handles(1, {}, {}, {})
    && var l := s.loaders[0];
       !l.shuttingDown && l.worker == Worker(WCountDown, Request(l.generation, false), Some(0), false)
  }

  lemma {:induction false} PrepareUnheard(run: seq<State>, actions: seq<Action>)
      returns (longer: seq<State>, more: seq<Action>, s: State)
    requires IsRun(run, actions) && UnheardQueued(run[|actions|])
    ensures IsRun(longer, more) && longer[0] == run[0] && s == longer[|more|] && UnheardPrepared(s)
  {
    hide IsRun, ControlNext;
    longer, more, s := Extend(run, actions, WorkerStep(0, true));
    longer, more, s := Extend(longer, more, WorkerStep(0, true));
    longer, more, s := Extend(longer, more, WorkerStep(0, true));
    longer, more, s := Extend(longer, more, WorkerStep(0, true));
  }

  lemma {:induction false} EndUnheard(run: seq<State>, actions: seq<Action>)
      returns (longer: seq<State>, more: seq<Action>, s: State)
    requires IsRun(run, actions) && UnheardPrepared(run[|actions|])
    ensures IsRun(longer, more) && longer[0] == run[0] && s == longer[|more|]
    ensures s.handles == Handles(1, {}, {}, {0})
  {
    hide IsRun, ControlNext;
    longer, more, s := Extend(run, actions, WorkerStep(0, true));
    longer, more, s := Extend(longer, more, WorkerStep(0, true));
    longer, more, s := Extend(longer, more, WorkerStep(0, true));
    longer, more, s := Extend(longer, more, WorkerStep(0, true));
  }

  /** The condition is needed: a run in which a current load without a completion ends, and its
      handle is neither released nor passed, nor with any worker. */
  lemma {:induction false} UnheardLoadLosesHandle(first: State) returns (run: seq<State>, actions: seq<Action>)
    requires Initial(first) && first.loaders != []
    ensures IsRun(run, actions) && run[0] == first && run[|actions|].handles == Handles(1, {}, {}, {0})
    ensures forall i :: !HeldBy(run[|actions|].loaders, i, 0)
  {
    var s: State;
    run, actions, s := QueueUnheard(first);
    run, actions, s := PrepareUnheard(run, actions);
    run, actions, s := EndUnheard(run, actions);
    hide IsRun, HeldBy;
    HandlesEndOnce(run, actions, |actions|, 0);
  }

  lemma {:induction false} StepMovesOn(s: State, a: Action, i: nat)
    requires Enabled(s, a) && i < |s.loaders|
    ensures i < |Step(s, a).loaders| && MovesOn(s.loaders[i], Step(s, a).loaders[i])
  {
    var l := s.loaders[a.i];
    assert MovesOn(l, ControlNext(l).0);
    assert a.WorkerStep? ==> MovesOn(l, WorkerNext(l, a.opens, s.handles.issued).0);
    hide ControlNext, WorkerNext;
  }

  /** Once a request is stale it is stale forever. */
  lemma {:induction false} StaleStays(run: seq<State>, actions: seq<Action>, j: nat, k: nat, i: nat, generation: nat)
    requires IsRun(run, actions) && j <= k < |run| && i < |run[j].loaders|
    requires generation <= run[j].loaders[i].generation && Stale(run[j].loaders[i], generation)
    ensures i < |run[k].loaders| && Stale(run[k].loaders[i], generation)
    ensures run[j].loaders[i].generation <= run[k].loaders[i].generation
  {
    hide Step, Enabled, Initial;
    if j < k {
      StaleStays(run, actions, j, k - 1, i, generation);
      StepMovesOn(run[k - 1], actions[k - 1], i);
    }
  }

  // ---- What each call achieves -------------------------------------------------------------

  // How many steps the control thread still needs, waiting for the worker apart.
  function ControlSteps(at: ControlPoint): nat
  {
    match at
    case CIdle => 0
    case CTestShutdown => 5
    case CBump => 4
    case CLock => 3
    case CCount => 2
    case CStore => 1
    case KBump => 3
    case KRemove => 2
    case KCountDown => 1
    case SExchange => 5
    case SBump => 4
    case SRemove => 3
    case SCountDown => 2
    case SJoin => 1
  }

  // How many steps the worker still needs for its request.
  function WorkerSteps(at: WorkerPoint): nat
  {
    match at
    case WWait => 0
    case WDone => 0
    case WPrepare => 7
    case WOpenTest1 => 6
    case WOpenTest2 => 5
    case WCountDown => 4
    case WTest1 => 3
    case WTest2 => 2
    case WRelease => 1
    case WComplete => 1
  }

  predicate Queues(at: ControlPoint)
  {
    at.CTestShutdown? || at.CBump? || at.CLock? || at.CCount? || at.CStore?
  }

  predicate Cancels(at: ControlPoint) { at.KBump? || at.KRemove? || at.KCountDown? }

  predicate Stops(at: ControlPoint)
  {
    at.SExchange? || at.SBump? || at.SRemove? || at.SCountDown? || at.SJoin?
  }

  /** Every call of the control thread comes to an end, and only there: a load with its request
      stored, a cancellation when what it removed is counted down, a shutdown when the worker has
      ended; or at once, a load or a shutdown of a loader that is shutting down. */
  lemma {:induction false} CallsEnd(l: Loader)
    ensures var at, t := l.control.at, ControlNext(l).0.control.at;
      && (!at.CIdle? ==> ControlSteps(t) < ControlSteps(at))
      && (Queues(at) ==> Queues(t) || (t.CIdle? && (at.CStore? || (at.CTestShutdown? && l.shuttingDown))))
      && (Cancels(at) ==> Cancels(t) || (t.CIdle? && at.KCountDown?))
      && (Stops(at) ==> Stops(t) || (t.CIdle? && (at.SJoin? || (at.SExchange? && l.shuttingDown))))
  {
  }

  /** Every load of the worker comes to an end, and then it takes what is queued, or ends when the
      loader shuts down. */
  lemma {:induction false} LoadsEnd(l: Loader, opens: bool, next: nat)
    ensures !l.worker.at.WWait? && !l.worker.at.WDone? ==>
      WorkerSteps(WorkerNext(l, opens, next).0.worker.at) < WorkerSteps(l.worker.at)
    ensures l.worker.at.WWait? ==>
      var w := WorkerNext(l, opens, next).0.worker;
      if l.shuttingDown || l.pending.None? then w.at.WDone?
      else w.at.WPrepare? && w.request == l.pending.value && w.handle.None?
  {
  }

  predicate Busy(w: Worker) { !w.at.WWait? && !w.at.WDone? }

  // Whatever the loader was asked for is older than its generation.
  predicate Outdated(l: Loader)
  {
    && (l.pending.Some? ==> l.pending.value.generation < l.generation)
    && (Busy(l.worker) ==> l.worker.request.generation < l.generation)
  }

  // What a call of the control thread has achieved so far.
  predicate CallInv(l: Loader)
  {
    var at := l.control.at;
    && (at.CLock? || at.CCount? || at.CStore? ==> l.control.generation == l.generation && Outdated(l))
    && (at.KRemove? || at.KCountDown? || at.SRemove? || at.SCountDown? || at.SJoin? ==> Outdated(l))
    && (at.KCountDown? || at.SCountDown? || at.SJoin? ==> l.pending.None?)
    && (at.SBump? || at.SRemove? || at.SCountDown? || at.SJoin? ==> l.shuttingDown)
    && (l.worker.at.WDone? ==> l.shuttingDown)
    && (l.shuttingDown && !at.SBump? && !at.SRemove? ==>
          l.pending.None? && !at.CBump? && !at.CLock? && !at.CCount? && !at.CStore?)
  }

  lemma {:induction false} ControlKeepsCall(l: Loader)
    requires LoaderInv(l) && CallInv(l) && !l.control.at.CIdle?
    ensures CallInv(ControlNext(l).0)
  {
    hide WorkerInv;
  }

  lemma {:induction false} WorkerKeepsCall(l: Loader, opens: bool, next: nat)
    requires LoaderInv(l) && CallInv(l) && !l.worker.at.WDone?
    requires l.worker.at.WWait? ==> !l.locked && (l.shuttingDown || l.pending.Some?)
    ensures CallInv(WorkerNext(l, opens, next).0)
  {
    hide WorkerInv;
  }

  // What one step does to one loader.
  predicate Steps(l: Loader, m: Loader, a: Action, i: nat, next: nat)
  {
    if a.i != i then m == l
    else
      match a
      case ControlStep(_) => m == ControlNext(l).0
      case WorkerStep(_, opens) => m == WorkerNext(l, opens, next).0
      case Load(_, listened) => m == l.(control := Control(CTestShutdown, 0, listened, false))
      case Cancel(_) => m == l.(control := Control(KBump, 0, false, false))
      case Shutdown(_) => m == l.(control := Control(SExchange, 0, false, false))
  }

  // What the step needs of the loader it is a step of.
  predicate CanStep(l: Loader, a: Action)
  {
    match a
    case ControlStep(_) => !l.control.at.CIdle? && (l.control.at.SJoin? ==> l.worker.at.WDone?)
    case WorkerStep(_, _) =>
      !l.worker.at.WDone? && (l.worker.at.WWait? ==> !l.locked && (l.shuttingDown || l.pending.Some?))
    case _ => l.control.at.CIdle?
  }

  lemma {:induction false} RunStep(run: seq<State>, actions: seq<Action>, k: nat, i: nat)
    requires IsRun(run, actions) && k < |actions| && i < |run[k].loaders|
    ensures |run[k + 1].loaders| == |run[k].loaders| && LoaderInv(run[k].loaders[i])
    ensures Steps(run[k].loaders[i], run[k + 1].loaders[i], actions[k], i, run[k].handles.issued)
    ensures actions[k].i == i ==> CanStep(run[k].loaders[i], actions[k])
  {
    RunKeeps(run, actions, k);
    assert Enabled(run[k], actions[k]) && run[k + 1] == Step(run[k], actions[k]);
    hide IsRun, LoaderInv, AllLoads, HandlesInv, ControlNext, WorkerNext, HandlesNext;
  }

  lemma RunLength(run: seq<State>, actions: seq<Action>)
    requires IsRun(run, actions)
    ensures |run| == |actions| + 1
  {
    hide Enabled, Step;
  }

  lemma {:induction false} SameLoaders(run: seq<State>, actions: seq<Action>, k: nat)
    requires IsRun(run, actions) && k < |run|
    ensures |run[k].loaders| == |run[0].loaders|
  {
    if k > 0 {
      SameLoaders(run, actions, k - 1);
      assert run[k] == Step(run[k - 1], actions[k - 1]);
      hide IsRun, ControlNext, WorkerNext, HandlesNext;
    }
  }

  lemma {:induction false} StepKeepsCall(l: Loader, m: Loader, a: Action, i: nat, next: nat)
    requires LoaderInv(l) && CallInv(l) && Steps(l, m, a, i, next) && (a.i == i ==> CanStep(l, a))
    ensures CallInv(m)
  {
    hide LoaderInv, ControlNext, WorkerNext;
    if a.i == i && a.ControlStep? {
      ControlKeepsCall(l);
    } else if a.i == i && a.WorkerStep? {
      WorkerKeepsCall(l, a.opens, next);
    }
  }

  lemma {:induction false} RunKeepsCall(run: seq<State>, actions: seq<Action>, k: nat, i: nat)
    requires IsRun(run, actions) && k < |run| && i < |run[k].loaders|
    ensures CallInv(run[k].loaders[i])
  {
    if k > 0 {
      hide IsRun, LoaderInv, CallInv, Steps, CanStep;
      SameLoaders(run, actions, k);
      SameLoaders(run, actions, k - 1);
      RunKeepsCall(run, actions, k - 1, i);
      RunStep(run, actions, k - 1, i);
      StepKeepsCall(run[k - 1].loaders[i], run[k].loaders[i], actions[k - 1], i, run[k - 1].handles.issued);
    }
  }

  /** When a load returns its request is queued as the newest one, and what the worker does then
      is outdated. A load that finds the loader shutting down does nothing. */
  lemma {:induction false} LoadSupersedes(run: seq<State>, actions: seq<Action>, k: nat)
    requires IsRun(run, actions) && k < |actions| && actions[k].ControlStep?
    ensures actions[k].i < |run[k].loaders| == |run[k + 1].loaders|
    ensures var l, m := run[k].loaders[actions[k].i], run[k + 1].loaders[actions[k].i];
      && (l.control.at.CStore? ==>
            && m == l.(pending := Some(Request(l.generation, l.control.listened)), locked := false,
                       control := l.control.(at := CIdle))
            && (Busy(m.worker) ==> Stale(m, m.worker.request.generation)))
      && (l.control.at.CTestShutdown? ==>
            m == l.(control := l.control.(at := if l.shuttingDown then CIdle else CBump)))
  {
    RunKeepsCall(run, actions, k, actions[k].i);
    assert run[k + 1] == Step(run[k], actions[k]);
    hide IsRun, LoaderInv;
  }

  /** When a cancellation returns nothing is queued, and what the worker does is outdated. */
  lemma {:induction false} CancelSupersedes(run: seq<State>, actions: seq<Action>, k: nat)
    requires IsRun(run, actions) && k < |actions| && actions[k].ControlStep?
    requires actions[k].i < |run[k].loaders| && run[k].loaders[actions[k].i].control.at.KCountDown?
    ensures actions[k].i < |run[k + 1].loaders|
    ensures var m := run[k + 1].loaders[actions[k].i];
      m.control.at.CIdle? && m.pending.None? && (Busy(m.worker) ==> Stale(m, m.worker.request.generation))
  {
    RunKeepsCall(run, actions, k, actions[k].i);
    assert run[k + 1] == Step(run[k], actions[k]);
    hide IsRun, LoaderInv;
  }

  // Nothing is left of what the loader was asked for, and nothing will come of what it is asked.
  predicate IsOver(l: Loader)
  {
    && l.shuttingDown && l.pending.None? && l.worker.at.WDone? && Loads(l) == 0
    && (l.control.at.CIdle? || l.control.at.CTestShutdown? || l.control.at.KBump? || l.control.at.KRemove?
        || l.control.at.KCountDown? || l.control.at.SExchange?)
  }

  lemma {:induction false} OverStays(l: Loader, m: Loader, a: Action, i: nat, next: nat)
    requires IsOver(l) && Steps(l, m, a, i, next) && (a.i == i ==> CanStep(l, a))
    ensures IsOver(m)
  {
  }

  /** When a shutdown returns the worker has ended, nothing is queued or counted any more, and it
      stays so whatever is called later. */
  lemma {:induction false} ShutdownIsFinal(run: seq<State>, actions: seq<Action>, k: nat, n: nat, i: nat)
    requires IsRun(run, actions) && k < n < |run| && actions[k] == ControlStep(i)
    requires i < |run[k].loaders| && run[k].loaders[i].control.at.SJoin?
    ensures i < |run[n].loaders| && IsOver(run[n].loaders[i])
  {
    RunLength(run, actions);
    hide IsRun, LoaderInv, IsOver, Steps, CanStep;
    if n == k + 1 {
      RunKeepsCall(run, actions, k, i);
      RunStep(run, actions, k, i);
      JoinEnds(run[k].loaders[i], run[n].loaders[i], i, run[k].handles.issued);
    } else {
      ShutdownIsFinal(run, actions, k, n - 1, i);
      RunStep(run, actions, n - 1, i);
      OverStays(run[n - 1].loaders[i], run[n].loaders[i], actions[n - 1], i, run[n - 1].handles.issued);
    }
  }

  lemma JoinEnds(l: Loader, m: Loader, i: nat, next: nat)
    requires CallInv(l) && LoaderInv(l) && l.control.at.SJoin? && CanStep(l, ControlStep(i))
    requires Steps(l, m, ControlStep(i), i, next)
    ensures IsOver(m)
  {
  }

  // ---- What becomes of a load --------------------------------------------------------------

  /** At the end of a load that was neither shut down nor superseded, the completion is told of a
      success exactly when a cache handle was opened. */
  lemma {:induction false} SuccessHasHandle(run: seq<State>, actions: seq<Action>, k: nat, i: nat)
    requires IsRun(run, actions) && k < |run| && i < |run[k].loaders|
    ensures Told(run[k].loaders[i].worker)
    ensures var w := run[k].loaders[i].worker; w.at.WComplete? ==> (w.failed <==> w.handle.None?)
  {
    RunKeeps(run, actions, k);
    assert LoaderInv(run[k].loaders[i]);
    if k > 0 {
      hide IsRun, Steps, CanStep, Told, HandlesInv, AllLoads;
      SameLoaders(run, actions, k);
      SameLoaders(run, actions, k - 1);
      SuccessHasHandle(run, actions, k - 1, i);
      RunStep(run, actions, k - 1, i);
      StepKeepsTold(run[k - 1].loaders[i], run[k].loaders[i], actions[k - 1], i, run[k - 1].handles.issued);
    }
    ToldAtEnd(run[k].loaders[i]);
    hide Inv;
  }

  // A load that has not failed has its handle.
  predicate Told(w: Worker)
  {
    Busy(w) && !w.at.WPrepare? && !w.failed ==> w.handle.Some?
  }

  lemma ToldAtEnd(l: Loader)
    requires LoaderInv(l) && Told(l.worker)
    ensures l.worker.at.WComplete? ==> (l.worker.failed <==> l.worker.handle.None?)
  {
  }

  lemma {:induction false} StepKeepsTold(l: Loader, m: Loader, a: Action, i: nat, next: nat)
    requires LoaderInv(l) && Told(l.worker) && Steps(l, m, a, i, next)
    ensures Told(m.worker)
  {
    ControlMovesOn(l);
    hide ControlNext;
  }

  // The load is outdated and will find out.
  predicate Doomed(l: Loader)
  {
    var at, g := l.worker.at, l.worker.request.generation;
    || ((at.WOpenTest1? || at.WOpenTest2? || at.WCountDown? || at.WTest1?) && Stale(l, g))
    || (at.WTest2? && l.generation != g) || at.WRelease?
  }

  lemma {:induction false} DoomedStays(l: Loader, opens: bool, next: nat)
    requires LoaderInv(l) && Doomed(l)
    ensures !l.control.at.CIdle? ==> Doomed(ControlNext(l).0)
    ensures !l.worker.at.WRelease? ==>
      Doomed(WorkerNext(l, opens, next).0) && WorkerNext(l, opens, next).0.worker.handle == l.worker.handle
  {
    ControlMovesOn(l);
    hide WorkerInv;
  }

  // The worker keeps its handle from step j to step k.
  predicate HeldThrough(run: seq<State>, i: nat, handle: nat, j: nat, k: nat)
    requires k < |run|
  {
    forall m :: j <= m <= k ==> HeldBy(run[m].loaders, i, handle)
  }

  // Loader i holds this handle and will find out that its load is outdated.
  predicate DoomedHolds(s: State, i: nat, n: nat)
  {
    HeldBy(s.loaders, i, n) && Doomed(s.loaders[i])
  }

  lemma {:induction false} DoomedNext(run: seq<State>, actions: seq<Action>, k: nat, i: nat, n: nat)
    requires IsRun(run, actions) && k < |actions| && DoomedHolds(run[k], i, n)
    ensures |run| == |actions| + 1
    ensures HeldBy(run[k + 1].loaders, i, n) ==> DoomedHolds(run[k + 1], i, n)
    ensures !HeldBy(run[k + 1].loaders, i, n) ==> n in run[k + 1].handles.released
  {
    RunLength(run, actions);
    RunStep(run, actions, k, i);
    assert Enabled(run[k], actions[k]) && run[k + 1] == Step(run[k], actions[k]);
    hide IsRun, Doomed, Step, LoaderInv, Enabled, Steps, CanStep;
    DoomedOne(run[k], actions[k], i, n);
  }

  lemma {:induction false} DoomedThrough(run: seq<State>, actions: seq<Action>, j: nat, k: nat, i: nat, n: nat)
    requires IsRun(run, actions) && j <= k < |run| && HeldThrough(run, i, n, j, k) && DoomedHolds(run[j], i, n)
    ensures DoomedHolds(run[k], i, n)
  {
    hide *;
    if j < k {
      RunLength(run, actions);
      HeldAt(run, i, n, j, k, k);
      HeldAt(run, i, n, j, k, k - 1);
      DoomedThrough(run, actions, j, k - 1, i, n);
      DoomedNext(run, actions, k - 1, i, n);
    }
  }

  lemma HeldAt(run: seq<State>, i: nat, n: nat, j: nat, k: nat, m: nat)
    requires k < |run| && HeldThrough(run, i, n, j, k) && j <= m <= k
    ensures HeldBy(run[m].loaders, i, n) && HeldThrough(run, i, n, j, m) && i < |run[m].loaders|
  {
  }

  /** A load that is superseded or shut down before it is tested the last time releases its handle:
      it is released, and neither passed nor lost, when the worker lets go of it. */
  lemma {:induction false} StaleIsReleased(run: seq<State>, actions: seq<Action>, j: nat, k: nat, i: nat, n: nat)
    requires IsRun(run, actions) && j <= k < |actions| && k < |run| && HeldThrough(run, i, n, j, k)
    requires DoomedHolds(run[j], i, n)
    ensures |run| == |actions| + 1 && (!HeldBy(run[k + 1].loaders, i, n) ==> n in run[k + 1].handles.released)
  {
    hide *;
    DoomedThrough(run, actions, j, k, i, n);
    DoomedNext(run, actions, k, i, n);
  }

  lemma {:induction false} DoomedOne(s: State, a: Action, i: nat, n: nat)
    requires Enabled(s, a) && HeldBy(s.loaders, i, n) && LoaderInv(s.loaders[i]) && Doomed(s.loaders[i])
    ensures var t := Step(s, a);
      if HeldBy(t.loaders, i, n) then Doomed(t.loaders[i]) else n in t.handles.released
  {
    if a.i == i {
      DoomedStays(s.loaders[i], a.WorkerStep? && a.opens, s.handles.issued);
      ControlMovesOn(s.loaders[i]);
    }
    hide LoaderInv, ControlNext;
  }

  // The worker of loader i does nothing between steps j and k.
  predicate WorkerRests(actions: seq<Action>, i: nat, j: nat, k: nat)
    requires k <= |actions|
  {
    forall m :: j <= m < k ==> !(actions[m].WorkerStep? && actions[m].i == i)
  }

  lemma {:induction false} RestKeepsWorker(run: seq<State>, actions: seq<Action>, i: nat, j: nat, k: nat)
    requires IsRun(run, actions) && j <= k < |run| && WorkerRests(actions, i, j, k) && i < |run[j].loaders|
    ensures i < |run[k].loaders| && run[k].loaders[i].worker == run[j].loaders[i].worker
  {
    RunLength(run, actions);
    hide IsRun, LoaderInv, CanStep, Steps;
    if j < k {
      RestKeepsWorker(run, actions, i, j, k - 1);
      RunStep(run, actions, k - 1, i);
      OthersKeepWorker(run[k - 1].loaders[i], run[k].loaders[i], actions[k - 1], i, run[k - 1].handles.issued);
    }
  }

  lemma OthersKeepWorker(l: Loader, m: Loader, a: Action, i: nat, next: nat)
    requires Steps(l, m, a, i, next) && !(a.WorkerStep? && a.i == i)
    ensures m.worker == l.worker
  {
    ControlMovesOn(l);
    hide ControlNext;
  }

  /** A load that is still current when it is tested the last time, and has a completion, passes
      its handle to it with the worker's next step. */
  lemma {:induction false} CurrentIsPassed(run: seq<State>, actions: seq<Action>, j: nat, k: nat, i: nat, n: nat)
    requires IsRun(run, actions) && j < k < |actions| && WorkerRests(actions, i, j + 1, k)
    requires actions[j].WorkerStep? && actions[j].i == i && actions[k].WorkerStep? && actions[k].i == i
    requires HeldBy(run[j].loaders, i, n)
    requires var l := run[j].loaders[i];
      l.worker.at.WTest2? && l.generation == l.worker.request.generation && l.worker.request.listened
    ensures n in run[k + 1].handles.passed
  {
    assert run[j + 1] == Step(run[j], actions[j]);
    RestKeepsWorker(run, actions, i, j + 1, k);
    assert run[k + 1] == Step(run[k], actions[k]);
    hide IsRun, ControlNext;
  }

  /** The first test lets a load on unless the loader is shutting down. */
  lemma {:induction false} FirstTestMeans(run: seq<State>, actions: seq<Action>, j: nat, i: nat)
    requires IsRun(run, actions) && j < |actions| && actions[j].WorkerStep? && actions[j].i == i
    requires i < |run[j].loaders| && run[j].loaders[i].worker.at.WTest1?
    ensures i < |run[j + 1].loaders|
    ensures run[j + 1].loaders[i].worker
            == run[j].loaders[i].worker.(at := if run[j].loaders[i].shuttingDown then WRelease else WTest2)
  {
    assert run[j + 1] == Step(run[j], actions[j]);
    hide ControlNext;
  }
}
