/**
 The quiescence protocol between readers and the control thread. Every reader counts itself
 in before it looks at the gate, and the control thread closes the gate before it looks at
 the count. Deck callbacks use it around track swaps, sampler renders and read-ahead around
 sample replacement. Any number of readers may come and go, one shared access per step.
 */
module ReaderGate {

  type Id = nat

  datatype ReaderPoint = Counted | Inside | Refused
  datatype SwapperPoint = Idle | Waiting | Swapping

  // `resource` stands for everything the gate protects: a track or a sample.
  datatype State = State(gate: bool, count: int, readers: map<Id, ReaderPoint>, swapper: SwapperPoint, resource: int)

  datatype Action =
    | Enter(id: Id)      // count up
    | LoadGate(id: Id)   // look at the gate
    | Leave(id: Id)      // count down
    | CloseGate
    | LoadCount          // one round of the waiting loop
    | Replace(value: int)
    | OpenGate

  predicate Initial(s: State)
  {
    !s.gate && s.count == 0 && s.readers == map[] && s.swapper.Idle?
  }

  predicate Enabled(s: State, a: Action)
  {
    match a
    case Enter(id) => id !in s.readers
    case LoadGate(id) => id in s.readers && s.readers[id].Counted?
    case Leave(id) => id in s.readers && !s.readers[id].Counted?
    case CloseGate => s.swapper.Idle?
    case LoadCount => s.swapper.Waiting?
    case Replace(_) => s.swapper.Swapping?
    case OpenGate => s.swapper.Swapping?
  }

  function Step(s: State, a: Action): State
  {
    match a
    case Enter(id) => s.(count := s.count + 1, readers := s.readers[id := Counted])
    case LoadGate(id) => s.(readers := s.readers[id := if s.gate then Refused else Inside])
    case Leave(id) => s.(count := s.count - 1, readers := s.readers - {id})
    case CloseGate => s.(gate := true, swapper := Waiting)
    case LoadCount => if s.count != 0 then s else s.(swapper := Swapping)
    case Replace(value) => s.(resource := value)
    case OpenGate => s.(gate := false, swapper := Idle)
  }

  // The gate is closed exactly while the control thread is busy, the count is exact, and
  // once the control thread saw a zero count nobody is inside.
  predicate Inv(s: State)
  {
    && s.gate == !s.swapper.Idle?
    && s.count == |s.readers.Keys|
    && (s.swapper.Swapping? ==> forall id :: id in s.readers ==> !s.readers[id].Inside?)
  }

  lemma {:induction false} StepKeeps(s: State, a: Action)
    requires Inv(s) && Enabled(s, a)
    ensures Inv(Step(s, a))
  {
    var t := Step(s, a);
    if a.Enter? {
      assert t.readers.Keys == s.readers.Keys + {a.id};
    } else if a.LoadGate? {
      assert t.readers.Keys == s.readers.Keys;
    } else if a.Leave? {
      assert t.readers.Keys == s.readers.Keys - {a.id};
    } else if a.LoadCount? {
      assert s.count == 0 ==> s.readers.Keys == {};
    }
  }

  ghost predicate IsRun(run: seq<State>, actions: seq<Action>)
  {
    && |run| == |actions| + 1 && Initial(run[0])
    && forall i :: 0 <= i < |actions| ==> Enabled(run[i], actions[i]) && run[i + 1] == Step(run[i], actions[i])
  }

  lemma {:induction false} RunKeeps(run: seq<State>, actions: seq<Action>, k: nat)
    requires IsRun(run, actions) && k < |run|
    ensures Inv(run[k])
  {
    if k == 0 {
      assert run[0].readers.Keys == {};
    } else {
      RunKeeps(run, actions, k - 1);
      StepKeeps(run[k - 1], actions[k - 1]);
    }
  }

  /** From the step that saw a zero count until the gate opens, no reader is inside, and the
      count is the number of readers between their two counting steps. */
  lemma {:induction false} SwapExcludesReaders(run: seq<State>, actions: seq<Action>, k: nat, id: Id)
    requires IsRun(run, actions) && k < |run|
    ensures run[k].count == |run[k].readers.Keys|
    ensures !(run[k].swapper == Swapping && id in run[k].readers && run[k].readers[id] == Inside)
  {
    RunKeeps(run, actions, k);
  }

  /** What a reader uses does not change while it is inside. */
  lemma {:induction false} ResourceIsStable(run: seq<State>, actions: seq<Action>, j: nat, k: nat, id: Id)
    requires IsRun(run, actions) && j <= k < |run|
    requires forall i :: j <= i <= k ==> id in run[i].readers && run[i].readers[id] == Inside
    ensures run[k].resource == run[j].resource
  {
    if j < k {
      ResourceIsStable(run, actions, j, k - 1, id);
      RunKeeps(run, actions, k - 1);
      assert run[k] == Step(run[k - 1], actions[k - 1]);
    }
  }

  /** Whoever publishes from inside the gate, or while swapping, publishes alone if at most
      one reader publishes: a callback inside and the control thread swapping exclude one
      another, so the sequence lock behind the gate has one writer at a time. */
  lemma {:induction false} OneWriterAtATime(run: seq<State>, actions: seq<Action>, k: nat, callback: Id)
    requires IsRun(run, actions) && k < |actions|
    requires callback in run[k].readers && run[k].readers[callback] == Inside
    ensures !actions[k].Replace?
    ensures run[k + 1].resource == run[k].resource
  {
    RunKeeps(run, actions, k);
    assert Enabled(run[k], actions[k]) && run[k + 1] == Step(run[k], actions[k]);
  }

  /** A reader is refused exactly while the control thread is replacing something, and any other
      reader gets in. */
  lemma {:induction false} RefusedWhileReplacing(run: seq<State>, actions: seq<Action>, k: nat, id: Id)
    requires IsRun(run, actions) && k < |actions| && actions[k] == LoadGate(id)
    ensures |run| == |actions| + 1 && id in run[k + 1].readers
    ensures run[k + 1].readers[id] == if run[k].swapper.Idle? then Inside else Refused
  {
    RunKeeps(run, actions, k);
    assert run[k + 1] == Step(run[k], actions[k]);
  }

  /** The control thread waits exactly for the readers that are counted, and then replaces what they
      use; only opening the gate lets readers in again. */
  lemma {:induction false} WaitsForReaders(run: seq<State>, actions: seq<Action>, k: nat)
    requires IsRun(run, actions) && k < |actions|
    ensures |run| == |actions| + 1
    ensures actions[k].LoadCount? ==>
      run[k + 1] == run[k].(swapper := if run[k].readers == map[] then Swapping else Waiting)
    ensures actions[k].Replace? ==> run[k + 1] == run[k].(resource := actions[k].value)
    ensures run[k + 1].swapper.Idle? && !run[k].swapper.Idle? <==> actions[k].OpenGate?
  {
    RunKeeps(run, actions, k);
    assert Enabled(run[k], actions[k]) && run[k + 1] == Step(run[k], actions[k]);
    if run[k].count == 0 {
      assert run[k].readers.Keys == {};
    } else {
      assert run[k].readers.Keys != {};
    }
  }
}
