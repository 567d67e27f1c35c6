/**
 AnalysisJobQueue: pending analysis jobs in one queue per priority, an index that finds a
 pending job by its key, and a fairness counter that keeps library work moving. The class
 works in place; its methods are proved against the functions Pushed and Popped, and the
 promises of the queue are lemmas about those.
 */
module AnalysisJobQueue {

  import opened Wrappers

  // LoadedDeck, UserSelected, VisibleLibrary, BackgroundLibrary, Maintenance.
  type Priority = p: nat | p < 5

  const LEVELS := 5
  const BACKGROUND: Priority := 3
  const MAINTENANCE: Priority := 4

  datatype Job = Job(filePath: string, title: string, key: string, priority: Priority, sequence: nat,
                     fingerprint: string)

  datatype Stats = Stats(queued: nat, deduplicated: nat, reprioritized: nat, dropped: nat, dequeued: nat)

  // The contents of a queue object. `index` is the level of every pending key.
  datatype Content = Content(levels: seq<seq<Job>>, index: map<string, nat>, sinceBackground: nat, sequence: nat,
                             stats: Stats)

  const EMPTY := Content([[], [], [], [], []], map[], 0, 0, Stats(0, 0, 0, 0, 0))

  // ---- Specification -----------------------------------------------------------------

  // Every lookup made on this content stays in range.
  predicate WellFormed(c: Content)
  {
    |c.levels| == LEVELS && forall k :: k in c.index ==> c.index[k] < LEVELS
  }

  function Total(levels: seq<seq<Job>>): (n: nat)
  {
    if levels == [] then 0 else Total(levels[..|levels| - 1]) + |levels[|levels| - 1]|
  }

  predicate EndsWith(s: string, suffix: string)
  {
    |suffix| <= |s| && s[|s| - |suffix|..] == suffix
  }

  // The identity of a job: its key, or else its path, for one set of options.
  function FullKey(job: Job): (key: string)
    ensures EndsWith(key, "|" + job.fingerprint)
  {
    var key := if job.key == "" then job.filePath else job.key;
    var suffix := "|" + job.fingerprint;
    if EndsWith(key, suffix) then key else key + suffix
  }

  // The first job with this key, or the length of the queue.
  function Find(queue: seq<Job>, key: string): (i: nat)
    ensures i <= |queue|
    ensures i < |queue| ==> queue[i].key == key
    ensures forall j :: 0 <= j < i ==> queue[j].key != key
  {
    if queue == [] || queue[0].key == key then 0 else 1 + Find(queue[1..], key)
  }

  function Without(queue: seq<Job>, i: nat): seq<Job>
    requires i < |queue|
  {
    queue[..i] + queue[i + 1..]
  }

  // Moves the job at place i of level `from` to the end of level `to`.
  function Promoted(c: Content, key: string, from: nat, i: nat, to: Priority): Content
    requires WellFormed(c) && to < from < LEVELS && i < |c.levels[from]|
  {
    var job := c.levels[from][i].(priority := to);
    c.(levels := c.levels[from := Without(c.levels[from], i)][to := c.levels[to] + [job]],
       index := c.index[key := to],
       stats := c.stats.(reprioritized := c.stats.reprioritized + 1))
  }

  function Inserted(c: Content, job: Job, capacity: nat): (Content, bool)
    requires WellFormed(c)
  {
    if Total(c.levels) >= capacity then (c.(stats := c.stats.(dropped := c.stats.dropped + 1)), false)
    else
      var added := job.(sequence := c.sequence + 1);
      (c.(levels := c.levels[job.priority := c.levels[job.priority] + [added]],
          index := c.index[job.key := job.priority],
          sequence := c.sequence + 1,
          stats := c.stats.(queued := c.stats.queued + 1)), true)
  }

  // A job that is already pending only moves up; any other one is added at the end.
  function Pushed(c: Content, given: Job, capacity: nat): (Content, bool)
    requires WellFormed(c)
  {
    var job := given.(key := FullKey(given));
    if job.key !in c.index then Inserted(c, job, capacity)
    else
      var from := c.index[job.key];
      var i := Find(c.levels[from], job.key);
      if i == |c.levels[from]| then Inserted(c.(index := c.index - {job.key}), job, capacity)
      else
        var counted := c.(stats := c.stats.(deduplicated := c.stats.deduplicated + 1));
        (if job.priority < from then Promoted(counted, job.key, from, i, job.priority) else counted, true)
  }

  // The first level from `from` on that is not empty.
  function FirstBusy(levels: seq<seq<Job>>, from: nat): (p: nat)
    requires from <= |levels|
    ensures from <= p <= |levels|
    ensures p < |levels| ==> levels[p] != []
    ensures forall j :: from <= j < p ==> levels[j] == []
    decreases |levels| - from
  {
    if from == |levels| || levels[from] != [] then from else FirstBusy(levels, from + 1)
  }

  // The level served next: library work when it has waited long enough, else the first.
  function Selected(c: Content, fairness: nat): (p: nat)
    requires WellFormed(c)
    ensures p <= LEVELS
  {
    var fair := FirstBusy(c.levels, BACKGROUND);
    if c.sinceBackground >= fairness && fair < LEVELS then fair else FirstBusy(c.levels, 0)
  }

  function Popped(c: Content, fairness: nat): (Content, Option<Job>)
    requires WellFormed(c)
  {
    var p := Selected(c, fairness);
    if p == LEVELS then (c, None)
    else
      var job := c.levels[p][0];
      (c.(levels := c.levels[p := c.levels[p][1..]], index := c.index - {job.key},
          sinceBackground := if p >= BACKGROUND then 0 else c.sinceBackground + 1,
          stats := c.stats.(dequeued := c.stats.dequeued + 1)), Some(job))
  }

  function Cleared(c: Content): Content
  {
    c.(levels := EMPTY.levels, index := map[], sinceBackground := 0)
  }

  /** A cleared queue is an empty one, except that numbering and statistics go on. */
  lemma ClearedIsEmpty(c: Content)
    ensures Cleared(c) == EMPTY.(sequence := c.sequence, stats := c.stats)
  {
  }

  lemma {:induction false} TotalUpdate(levels: seq<seq<Job>>, p: nat, queue: seq<Job>)
    requires p < |levels|
    ensures Total(levels[p := queue]) == Total(levels) - |levels[p]| + |queue|
  {
    var n := |levels| - 1;
    if p == n {
      assert levels[p := queue][..n] == levels[..n];
    } else {
      assert levels[p := queue][..n] == levels[..n][p := queue];
      TotalUpdate(levels[..n], p, queue);
    }
  }

  lemma {:induction false} TotalIsZero(levels: seq<seq<Job>>)
    ensures Total(levels) == 0 <==> forall p :: 0 <= p < |levels| ==> levels[p] == []
  {
    if levels != [] {
      var n := |levels| - 1;
      TotalIsZero(levels[..n]);
      assert forall p :: 0 <= p < n ==> levels[..n][p] == levels[p];
    }
  }

  // ---- The queue object ----------------------------------------------------------------

  class JobQueue {
    var queues: seq<seq<Job>>
    var pendingPriority: map<string, nat>
    var sinceBackground: nat
    var sequence: nat
    var stats: Stats
    const capacity: nat
    const fairnessInterval: nat

    function View(): Content
      reads this
    {
      Content(queues, pendingPriority, sinceBackground, sequence, stats)
    }

    constructor (capacity: nat, fairnessInterval: nat)
      ensures View() == EMPTY && this.capacity == capacity && this.fairnessInterval == fairnessInterval
    {
      this.capacity := capacity;
      this.fairnessInterval := fairnessInterval;
      queues := [[], [], [], [], []];
      pendingPriority := map[];
      sinceBackground := 0;
      sequence := 0;
      stats := Stats(0, 0, 0, 0, 0);
    }

    method Size() returns (total: nat)
      ensures total == Total(queues)
    {
      total := 0;
      for p := 0 to |queues|
        invariant total == Total(queues[..p])
      {
        assert queues[..p + 1][..p] == queues[..p];
        total := total + |queues[p]|;
      }
      assert queues[..|queues|] == queues;
    }

    // Adds a job, or promotes the pending one with the same key.
    method Push(given: Job) returns (accepted: bool)
      requires WellFormed(View())
      modifies this
      ensures (View(), accepted) == Pushed(old(View()), given, capacity)
      ensures WellFormed(View())
    {
      var job := given.(key := FullKey(given));
      if job.key in pendingPriority {
        var p := pendingPriority[job.key];
        var queue := queues[p];
        var i := 0;
        while i < |queue|
          invariant i <= |queue| && View() == old(View())
          invariant forall j :: 0 <= j < i ==> queue[j].key != job.key
        {
          if queue[i].key == job.key {
            assert i == Find(queue, job.key);
            stats := stats.(deduplicated := stats.deduplicated + 1);
            if job.priority < p {
              var promoted := queue[i].(priority := job.priority);
              queues := queues[p := queue[..i] + queue[i + 1..]];
              queues := queues[job.priority := queues[job.priority] + [promoted]];
              pendingPriority := pendingPriority[job.key := job.priority];
              stats := stats.(reprioritized := stats.reprioritized + 1);
            }
            return true;
          }
          i := i + 1;
        }
        pendingPriority := pendingPriority - {job.key};
      }
      var size := Size();
      if size >= capacity {
        stats := stats.(dropped := stats.dropped + 1);
        return false;
      }
      sequence := sequence + 1;
      job := job.(sequence := sequence);
      queues := queues[job.priority := queues[job.priority] + [job]];
      pendingPriority := pendingPriority[job.key := job.priority];
      stats := stats.(queued := stats.queued + 1);
      return true;
    }

    // The first level from `from` on that is not empty.
    method SelectFrom(from: nat) returns (p: nat)
      requires from <= |queues|
      ensures p == FirstBusy(queues, from)
    {
      p := from;
      while p < |queues| && queues[p] == []
        invariant from <= p <= |queues|
        invariant FirstBusy(queues, from) == FirstBusy(queues, p)
      {
        p := p + 1;
      }
    }

    // Takes the most urgent job, or a library job when that has waited long enough.
    method Pop() returns (result: Option<Job>)
      requires WellFormed(View())
      modifies this
      ensures (View(), result) == Popped(old(View()), fairnessInterval)
      ensures WellFormed(View())
    {
      var size := Size();
      TotalIsZero(queues);
      if size == 0 {
        return None;
      }
      var selected := |queues|;
      if sinceBackground >= fairnessInterval {
        selected := SelectFrom(BACKGROUND);
      }
      if selected == |queues| {
        selected := SelectFrom(0);
      }
      var job := queues[selected][0];
      queues := queues[selected := queues[selected][1..]];
      pendingPriority := pendingPriority - {job.key};
      sinceBackground := if selected >= BACKGROUND then 0 else sinceBackground + 1;
      stats := stats.(dequeued := stats.dequeued + 1);
      result := Some(job);
    }

    method Clear()
      requires WellFormed(View())
      modifies this
      ensures View() == Cleared(old(View()))
    {
      var p := 0;
      ghost var before := queues;
      while p < |queues|
        invariant p <= |queues| == LEVELS && queues == seq(p, _ => []) + before[p..]
        invariant pendingPriority == old(pendingPriority) && sequence == old(sequence) && stats == old(stats)
      {
        queues := queues[p := []];
        p := p + 1;
      }
      pendingPriority := map[];
      sinceBackground := 0;
    }
  }

  // ---- The index -----------------------------------------------------------------------

  predicate Has(queue: seq<Job>, key: string) { Find(queue, key) < |queue| }

  // Every job of a level is indexed there, has that priority, and no two share a key.
  predicate Filed(queue: seq<Job>, p: nat, index: map<string, nat>)
  {
    && (forall i :: 0 <= i < |queue| ==>
          queue[i].key in index && index[queue[i].key] == p == queue[i].priority)
    && (forall i, j :: 0 <= i < j < |queue| ==> queue[i].key != queue[j].key)
  }

  // Every key of the index has its job in the level the index names.
  predicate Indexed(levels: seq<seq<Job>>, index: map<string, nat>)
  {
    && |levels| == LEVELS
    && (forall p :: 0 <= p < LEVELS ==> Filed(levels[p], p, index))
    && (forall k :: k in index ==> index[k] < LEVELS && Has(levels[index[k]], k))
  }

  // What holds of a queue at all times.
  predicate Valid(c: Content, capacity: nat)
  {
    && Indexed(c.levels, c.index) && Total(c.levels) == |c.index| <= capacity
    && c.stats.queued == c.sequence
  }

  lemma {:induction false} HasAt(queue: seq<Job>, i: nat)
    requires i < |queue|
    ensures Has(queue, queue[i].key)
  {
  }

  // Removing a job removes exactly its key.
  lemma {:induction false} WithoutHas(queue: seq<Job>, i: nat, key: string)
    requires i < |queue| && Has(queue, key) && key != queue[i].key
    ensures Has(Without(queue, i), key)
  {
    var j := Find(queue, key);
    HasAt(Without(queue, i), if j < i then j else j - 1);
  }

  lemma {:induction false} WithoutFiled(queue: seq<Job>, p: nat, index: map<string, nat>, i: nat)
    requires Filed(queue, p, index) && i < |queue|
    ensures Filed(Without(queue, i), p, index - {queue[i].key})
  {
    var rest := Without(queue, i);
    forall j | 0 <= j < |rest| ensures rest[j].key != queue[i].key && rest[j] == queue[if j < i then j else j + 1] {
    }
  }

  lemma {:induction false} RemoveKeeps(levels: seq<seq<Job>>, index: map<string, nat>, p: nat, i: nat)
    requires Indexed(levels, index) && p < LEVELS && i < |levels[p]|
    ensures var key := levels[p][i].key; key in index && index[key] == p
    ensures Indexed(levels[p := Without(levels[p], i)], index - {levels[p][i].key})
  {
    var key := levels[p][i].key;
    assert Filed(levels[p], p, index);
    WithoutFiled(levels[p], p, index, i);
    var after, rest := levels[p := Without(levels[p], i)], index - {key};
    hide Has, Without;
    forall q | 0 <= q < LEVELS ensures Filed(after[q], q, rest) {
      assert Filed(levels[q], q, index);
    }
    forall k | k in rest ensures Has(after[rest[k]], k) {
      if rest[k] == p {
        WithoutHas(levels[p], i, k);
      }
    }
  }

  lemma {:induction false} AppendHas(queue: seq<Job>, job: Job, key: string)
    requires Has(queue, key) || job.key == key
    ensures Has(queue + [job], key)
  {
    HasAt(queue + [job], if Has(queue, key) then Find(queue, key) else |queue|);
  }

  lemma {:induction false} AppendKeeps(levels: seq<seq<Job>>, index: map<string, nat>, job: Job)
    requires Indexed(levels, index) && job.key !in index
    ensures var p := job.priority; Indexed(levels[p := levels[p] + [job]], index[job.key := p])
  {
    var p := job.priority;
    var after, more := levels[p := levels[p] + [job]], index[job.key := p];
    hide Has;
    forall q | 0 <= q < LEVELS ensures Filed(after[q], q, more) {
      assert Filed(levels[q], q, index);
    }
    forall k | k in more ensures Has(after[more[k]], k) {
      if more[k] == p {
        AppendHas(levels[p], job, k);
      }
    }
  }

  lemma ShapeOf(levels: seq<seq<Job>>, index: map<string, nat>)
    requires Indexed(levels, index)
    ensures |levels| == LEVELS && forall k :: k in index ==> index[k] < LEVELS
    ensures forall k :: k in index ==> Has(levels[index[k]], k)
  {
  }

  lemma {:induction false} InsertedKeeps(c: Content, job: Job, capacity: nat)
    requires Valid(c, capacity) && job.key !in c.index
    ensures Valid(Inserted(c, job, capacity).0, capacity)
  {
    hide Indexed, Find, Has;
    var added := job.(sequence := c.sequence + 1);
    AppendKeeps(c.levels, c.index, added);
    ShapeOf(c.levels, c.index);
    TotalUpdate(c.levels, job.priority, c.levels[job.priority] + [added]);
  }

  lemma WithoutLength(queue: seq<Job>, i: nat)
    requires i < |queue|
    ensures |Without(queue, i)| == |queue| - 1
  {
  }

  lemma {:induction false} PromotedKeeps(c: Content, key: string, from: nat, i: nat, to: Priority, capacity: nat)
    requires Valid(c, capacity) && to < from < LEVELS && i < |c.levels[from]| && c.levels[from][i].key == key
    ensures Valid(Promoted(c, key, from, i, to), capacity)
  {
    hide Indexed, Find, Has, Without, Total;
    ShapeOf(c.levels, c.index);
    var job := c.levels[from][i].(priority := to);
    var mid := c.levels[from := Without(c.levels[from], i)];
    WithoutLength(c.levels[from], i);
    RemoveKeeps(c.levels, c.index, from, i);
    AppendKeeps(mid, c.index - {key}, job);
    TotalUpdate(c.levels, from, Without(c.levels[from], i));
    TotalUpdate(mid, to, mid[to] + [job]);
    assert (c.index - {key})[key := to] == c.index[key := to];
    assert c.index[key := to].Keys == c.index.Keys;
  }

  /** Pushing keeps the index exact and the size within capacity. */
  lemma {:induction false} PushedKeeps(c: Content, given: Job, capacity: nat)
    requires Valid(c, capacity)
    ensures Valid(Pushed(c, given, capacity).0, capacity)
  {
    hide Indexed, Find, Promoted, Inserted, Total, FullKey;
    ShapeOf(c.levels, c.index);
    var job := given.(key := FullKey(given));
    if job.key !in c.index {
      InsertedKeeps(c, job, capacity);
    } else {
      var from := c.index[job.key];
      assert Has(c.levels[from], job.key);
      var counted := c.(stats := c.stats.(deduplicated := c.stats.deduplicated + 1));
      if job.priority < from {
        PromotedKeeps(counted, job.key, from, Find(c.levels[from], job.key), job.priority, capacity);
      }
    }
  }

  lemma {:induction false} PoppedKeeps(c: Content, fairness: nat, capacity: nat)
    requires Valid(c, capacity)
    ensures Valid(Popped(c, fairness).0, capacity)
  {
    hide Indexed, Find, Has, Total;
    ShapeOf(c.levels, c.index);
    var p := Selected(c, fairness);
    if p < LEVELS {
      RemoveKeeps(c.levels, c.index, p, 0);
      assert Without(c.levels[p], 0) == c.levels[p][1..];
      TotalUpdate(c.levels, p, c.levels[p][1..]);
      var key := c.levels[p][0].key;
      assert (c.index - {key}).Keys == c.index.Keys - {key};
    }
  }

  /** The repair of a key without a job never happens. */
  lemma {:induction false} RepairIsUnreachable(c: Content, given: Job, capacity: nat)
    requires Valid(c, capacity)
    ensures var key := FullKey(given); key in c.index ==> Has(c.levels[c.index[key]], key)
    ensures var key := FullKey(given); key !in c.index ==> forall p :: 0 <= p < LEVELS ==> !Has(c.levels[p], key)
  {
    var key := FullKey(given);
    forall p | 0 <= p < LEVELS && Has(c.levels[p], key) ensures key in c.index {
      assert Filed(c.levels[p], p, c.index);
    }
  }

  // The pending job with this key.
  function JobOf(c: Content, key: string): Job
    requires Indexed(c.levels, c.index) && key in c.index
  {
    c.levels[c.index[key]][Find(c.levels[c.index[key]], key)]
  }

  // `after` is `before` with one job of this key added at the end.
  predicate Grown(before: seq<Job>, after: seq<Job>, key: string)
  {
    |after| == |before| + 1 && before <= after && after[|before|].key == key
  }

  // `after` is `before` without its job of this key.
  predicate Shrunk(before: seq<Job>, after: seq<Job>, key: string)
  {
    Has(before, key) && after == Without(before, Find(before, key))
  }

  lemma {:induction false} FindIs(queue: seq<Job>, key: string, i: nat)
    requires i < |queue| && queue[i].key == key
    requires forall j :: 0 <= j < i ==> queue[j].key != key
    ensures Find(queue, key) == i
  {
  }

  lemma {:induction false} GrownFinds(before: seq<Job>, after: seq<Job>, added: string, key: string)
    requires Grown(before, after, added) && (Has(before, key) || added == key)
    ensures Find(after, key) == if Has(before, key) then Find(before, key) else |before|
  {
    var i := Find(before, key);
    assert forall j :: 0 <= j < |before| ==> after[j] == before[j];
    FindIs(after, key, i);
  }

  lemma {:induction false} ShrunkFinds(before: seq<Job>, after: seq<Job>, removed: string, key: string)
    requires Shrunk(before, after, removed) && Has(before, key) && key != removed
    ensures Has(after, key) && Find(after, key) <= Find(before, key)
    ensures after[Find(after, key)] == before[Find(before, key)]
  {
    var i, f := Find(before, removed), Find(before, key);
    var g := if i < f then f - 1 else f;
    assert after[g] == before[f];
    assert forall j :: 0 <= j < g ==> after[j] == before[if j < i then j else j + 1];
    FindIs(after, key, g);
  }

  /** A push adds its job to one level, or moves it from one level to a more urgent one; every
      other level stays as it is. */
  lemma {:induction false} PushShape(c: Content, given: Job, capacity: nat, q: nat)
    requires Valid(c, capacity) && q < LEVELS
    ensures var key, d := FullKey(given), Pushed(c, given, capacity).0;
      && |d.levels| == LEVELS && d.sinceBackground == c.sinceBackground
      && (d.levels[q] == c.levels[q]
          || (Grown(c.levels[q], d.levels[q], key) && given.priority == q && (key in c.index ==> q < c.index[key]))
          || (Shrunk(c.levels[q], d.levels[q], key) && given.priority < q && key in c.index && c.index[key] == q))
      && (d.index == c.index || d.index == c.index[key := given.priority])
      && (key in c.index && given.priority < c.index[key] ==>
            d.index[key] == given.priority && d.levels[given.priority] != c.levels[given.priority])
      && (key in c.index && given.priority >= c.index[key] ==> d.index == c.index && d.levels == c.levels)
  {
    hide Indexed, Find, Without, Total, FullKey;
    ShapeOf(c.levels, c.index);
  }

  /** A pending job that is not the one pushed stays in its level, unchanged. */
  lemma {:induction false} OthersStay(c: Content, given: Job, capacity: nat, k: string)
    requires Valid(c, capacity) && k in c.index && k != FullKey(given)
    requires Indexed(Pushed(c, given, capacity).0.levels, Pushed(c, given, capacity).0.index)
    ensures var d := Pushed(c, given, capacity).0;
      k in d.index && d.index[k] == c.index[k] && JobOf(d, k) == JobOf(c, k)
  {
    var q := c.index[k];
    var before, after := c.levels[q], Pushed(c, given, capacity).0.levels[q];
    PushShape(c, given, capacity, q);
    assert Has(before, k);
    if Grown(before, after, FullKey(given)) {
      GrownFinds(before, after, FullKey(given), k);
    } else if Shrunk(before, after, FullKey(given)) {
      ShrunkFinds(before, after, FullKey(given), k);
    }
    hide Pushed, Find, FullKey;
  }

  lemma {:induction false} NotElsewhere(c: Content, key: string, p: nat)
    requires Indexed(c.levels, c.index) && key in c.index && p < LEVELS && c.index[key] != p
    ensures !Has(c.levels[p], key)
  {
    assert Filed(c.levels[p], p, c.index);
  }

  /** Pushing a pending job again changes nothing of it but its priority, which becomes the
      more urgent of the two. */
  lemma {:induction false} PushOnlyRaises(c: Content, given: Job, capacity: nat)
    requires Valid(c, capacity) && FullKey(given) in c.index
    requires Indexed(Pushed(c, given, capacity).0.levels, Pushed(c, given, capacity).0.index)
    ensures var d, k := Pushed(c, given, capacity).0, FullKey(given);
      && d.index.Keys == c.index.Keys && d.sequence == c.sequence
      && d.index[k] == (if given.priority < c.index[k] then given.priority else c.index[k])
      && JobOf(d, k) == JobOf(c, k).(priority := d.index[k])
  {
    var k := FullKey(given);
    var p, to := c.index[k], given.priority;
    assert Has(c.levels[p], k) && Filed(c.levels[p], p, c.index);
    if to < p {
      var d := Pushed(c, given, capacity).0;
      var job := c.levels[p][Find(c.levels[p], k)].(priority := to);
      assert d.levels[to] == c.levels[to] + [job];
      NotElsewhere(c, k, to);
      GrownFinds(c.levels[to], d.levels[to], k, k);
      assert c.index[k := to].Keys == c.index.Keys;
    }
    hide Find, FullKey, Without;
  }

  /** Such a push succeeds, and is counted as deduplicated, and as reprioritized too when it raises
      the job. */
  lemma {:induction false} PushAgainCounts(c: Content, given: Job, capacity: nat)
    requires Valid(c, capacity) && FullKey(given) in c.index
    ensures var (d, accepted) := Pushed(c, given, capacity); var raised := given.priority < c.index[FullKey(given)];
      && accepted && d.stats == c.stats.(deduplicated := c.stats.deduplicated + 1,
                                         reprioritized := c.stats.reprioritized + (if raised then 1 else 0))
  {
    var k := FullKey(given);
    assert Has(c.levels[c.index[k]], k);
    hide FullKey, Without, Indexed, Total;
  }

  /** A job that is not pending is added at the end of its level with the next sequence number,
      or dropped, and that exactly if the queue is full. */
  lemma {:induction false} PushAddsOrDrops(c: Content, given: Job, capacity: nat)
    requires Valid(c, capacity) && FullKey(given) !in c.index
    ensures var (d, accepted) := Pushed(c, given, capacity); var job := given.(key := FullKey(given));
      && accepted == (|c.index| < capacity)
      && (accepted ==> d.levels == c.levels[job.priority := c.levels[job.priority] + [job.(sequence := c.sequence + 1)]]
                       && d.index == c.index[job.key := job.priority])
      && (!accepted ==> d == c.(stats := c.stats.(dropped := c.stats.dropped + 1)))
  {
    hide Indexed, Total, FullKey;
  }

  /** A pop serves nothing exactly if nothing is pending. What it serves is the front job of
      its level, and more urgent work is passed over only for library or maintenance work that
      is due by the fairness interval. */
  lemma {:induction false} PopServes(c: Content, fairness: nat, capacity: nat)
    requires Valid(c, capacity)
    ensures var (d, served) := Popped(c, fairness);
      && (served.None? <==> Total(c.levels) == 0)
      && (served.Some? ==>
            var job := served.value;
            && job.key in c.index && job.key !in d.index && job.priority == c.index[job.key]
            && c.levels[job.priority] != [] && c.levels[job.priority][0] == job
            && forall p :: 0 <= p < job.priority && c.levels[p] != [] ==>
                 p < BACKGROUND <= job.priority && c.sinceBackground >= fairness)
  {
    TotalIsZero(c.levels);
    ShapeOf(c.levels, c.index);
    var p := Selected(c, fairness);
    if p < LEVELS {
      assert Filed(c.levels[p], p, c.index);
    }
    hide Total, Indexed, Has;
  }

  /** A maintenance job is served only when no library job is pending, and then only when
      nothing more urgent is, or library work has waited long enough. */
  lemma {:induction false} MaintenanceGoesLast(c: Content, fairness: nat)
    requires WellFormed(c)
    ensures Selected(c, fairness) == MAINTENANCE <==>
      && c.levels[MAINTENANCE] != [] && c.levels[BACKGROUND] == []
      && (c.sinceBackground >= fairness || (c.levels[0] == [] && c.levels[1] == [] && c.levels[2] == []))
  {
  }

  // ---- Whole runs ------------------------------------------------------------------------

  datatype Op = Push(job: Job) | Pop | Clear

  function Apply(c: Content, op: Op, capacity: nat, fairness: nat): Content
    requires WellFormed(c)
  {
    match op
    case Push(job) => Pushed(c, job, capacity).0
    case Pop => Popped(c, fairness).0
    case Clear => Cleared(c)
  }

  // The content after the operations, taken from the last one backwards.
  function Run(ops: seq<Op>, capacity: nat, fairness: nat): (c: Content)
    ensures Valid(c, capacity)
  {
    if ops == [] then ValidAtStart(capacity); EMPTY
    else
      var before := Run(ops[..|ops| - 1], capacity, fairness);
      ApplyKeeps(before, ops[|ops| - 1], capacity, fairness);
      Apply(before, ops[|ops| - 1], capacity, fairness)
  }

  lemma ValidAtStart(capacity: nat)
    ensures Valid(EMPTY, capacity)
  {
    TotalIsZero(EMPTY.levels);
  }

  lemma {:induction false} ApplyKeeps(c: Content, op: Op, capacity: nat, fairness: nat)
    requires Valid(c, capacity)
    ensures Valid(Apply(c, op, capacity, fairness), capacity)
  {
    match op
    case Push(job) => PushedKeeps(c, job, capacity);
    case Pop => PoppedKeeps(c, fairness, capacity);
    case Clear => ValidAtStart(capacity);
  }

  function Count(ops: seq<Op>, push: bool): nat
  {
    if ops == [] then 0
    else
      var op := ops[|ops| - 1];
      Count(ops[..|ops| - 1], push) + (if (push && op.Push?) || (!push && op.Pop?) then 1 else 0)
  }

  /** In any run, every push was queued, deduplicated or dropped; without a clear, what was
      queued and not dequeued is still there. */
  lemma {:induction false} StatsBalance(ops: seq<Op>, capacity: nat, fairness: nat)
    ensures var c := Run(ops, capacity, fairness);
      && Count(ops, true) == c.stats.queued + c.stats.deduplicated + c.stats.dropped
      && (Clear !in ops ==> c.stats.queued - c.stats.dequeued == Total(c.levels))
      && Total(c.levels) == |c.index| <= capacity
  {
    if ops != [] {
      var n := |ops| - 1;
      StatsBalance(ops[..n], capacity, fairness);
      var c := Run(ops[..n], capacity, fairness);
      assert Clear !in ops ==> Clear !in ops[..n];
      match ops[n]
      case Push(job) => PushBalance(c, job, capacity);
      case Pop => PopBalance(c, fairness);
      case Clear =>
    }
  }

  // What was queued and not dequeued, beyond what is there.
  function Missing(c: Content): int { c.stats.queued - c.stats.dequeued - Total(c.levels) }

  function Answered(c: Content): nat { c.stats.queued + c.stats.deduplicated + c.stats.dropped }

  lemma {:induction false} PushBalance(c: Content, given: Job, capacity: nat)
    requires Valid(c, capacity)
    ensures var d := Pushed(c, given, capacity).0; Answered(d) == Answered(c) + 1 && Missing(d) == Missing(c)
  {
    hide Indexed, Find, Without, Total, FullKey;
    ShapeOf(c.levels, c.index);
    var job := given.(key := FullKey(given));
    if job.key !in c.index {
      TotalUpdate(c.levels, job.priority, c.levels[job.priority] + [job.(sequence := c.sequence + 1)]);
    } else {
      var from, to := c.index[job.key], job.priority;
      assert Has(c.levels[from], job.key);
      var i := Find(c.levels[from], job.key);
      var mid := c.levels[from := Without(c.levels[from], i)];
      WithoutLength(c.levels[from], i);
      TotalUpdate(c.levels, from, Without(c.levels[from], i));
      TotalUpdate(mid, to, mid[to] + [c.levels[from][i].(priority := to)]);
    }
  }

  lemma {:induction false} PopBalance(c: Content, fairness: nat)
    requires WellFormed(c)
    ensures var d := Popped(c, fairness).0; Answered(d) == Answered(c) && Missing(d) == Missing(c)
  {
    hide Total;
    var p := Selected(c, fairness);
    if p < LEVELS {
      TotalUpdate(c.levels, p, c.levels[p][1..]);
    }
  }

  // ---- Which jobs are the same -------------------------------------------------------------

  function Suffix(fingerprint: string): string { "|" + fingerprint }

  // What identifies a track: the key, or the path when there is no key.
  function Identity(job: Job): string { if job.key == "" then job.filePath else job.key }

  // The identity without the suffix that says for which options the job is.
  function Track(job: Job): string
  {
    var id, suffix := Identity(job), Suffix(job.fingerprint);
    if EndsWith(id, suffix) then id[..|id| - |suffix|] else id
  }

  lemma {:induction false} FullKeyIs(job: Job)
    ensures FullKey(job) == Track(job) + Suffix(job.fingerprint)
  {
    var id, suffix := Identity(job), Suffix(job.fingerprint);
    if EndsWith(id, suffix) {
      assert id == id[..|id| - |suffix|] + id[|id| - |suffix|..];
    }
  }

  // Fingerprints that one string can end with both of, as suffixes.
  predicate Nested(f: string, g: string)
  {
    f == g || EndsWith(f, Suffix(g)) || EndsWith(g, Suffix(f))
  }

  lemma {:induction false} SuffixesNest(t: string, f: string, u: string, g: string)
    requires t + Suffix(f) == u + Suffix(g) && |g| <= |f|
    ensures f == g || EndsWith(f, Suffix(g))
  {
    var whole := t + Suffix(f);
    if |f| == |g| {
      assert f == whole[|whole| - |f|..] == (u + Suffix(g))[|whole| - |f|..] == g;
    } else {
      var n := |whole| - |g| - 1;
      assert f[|f| - |g| - 1..] == whole[n..] == (u + Suffix(g))[n..] == Suffix(g);
    }
  }

  /** Jobs with the same options are the same exactly if they are of the same track. */
  lemma {:induction false} SameOptionsSameTrack(a: Job, b: Job)
    requires a.fingerprint == b.fingerprint
    ensures FullKey(a) == FullKey(b) <==> Track(a) == Track(b)
  {
    FullKeyIs(a);
    FullKeyIs(b);
    var s := Suffix(a.fingerprint);
    assert (Track(a) + s)[..|Track(a)|] == Track(a) && (Track(b) + s)[..|Track(b)|] == Track(b);
    hide FullKey, Track;
  }

  /** Jobs with other options are never the same, unless one fingerprint ends with a bar and the
      other one; and then they can be, whatever the track. */
  lemma {:induction false} OtherOptionsDiffer(a: Job, b: Job)
    requires !Nested(a.fingerprint, b.fingerprint)
    ensures FullKey(a) != FullKey(b)
  {
    FullKeyIs(a);
    FullKeyIs(b);
    hide FullKey, Track, EndsWith;
    if FullKey(a) == FullKey(b) {
      if |a.fingerprint| >= |b.fingerprint| {
        SuffixesNest(Track(a), a.fingerprint, Track(b), b.fingerprint);
      } else {
        SuffixesNest(Track(b), b.fingerprint, Track(a), a.fingerprint);
      }
    }
  }

  lemma {:induction false} NestedOptionsCollide(a: Job, g: string)
    requires EndsWith(a.fingerprint, Suffix(g))
    ensures FullKey(a) == FullKey(a.(key := FullKey(a), fingerprint := g))
  {
    FullKeyIs(a);
    var key, f := FullKey(a), a.fingerprint;
    EndIsEnd(Track(a), f, Suffix(g));
    hide Track;
  }

  lemma EndIsEnd(t: string, f: string, suffix: string)
    requires EndsWith(f, suffix)
    ensures EndsWith(t + Suffix(f), suffix)
  {
    var whole := t + Suffix(f);
    assert whole[|whole| - |suffix|..] == f[|f| - |suffix|..];
  }

  /** No bar occurs in a fingerprint of a profile and two tempos, as the queue's callers make them:
      such jobs with other options are never the same. */
  lemma {:induction false} PlainOptionsDiffer(a: Job, b: Job)
    requires a.fingerprint != b.fingerprint && '|' !in a.fingerprint && '|' !in b.fingerprint
    ensures FullKey(a) != FullKey(b)
  {
    if Nested(a.fingerprint, b.fingerprint) {
      if EndsWith(a.fingerprint, Suffix(b.fingerprint)) {
        SuffixHasBar(a.fingerprint, b.fingerprint);
      } else {
        SuffixHasBar(b.fingerprint, a.fingerprint);
      }
      assert false;
    }
    OtherOptionsDiffer(a, b);
  }

  lemma SuffixHasBar(f: string, g: string)
    requires EndsWith(f, Suffix(g))
    ensures '|' in f
  {
    var n := |f| - |Suffix(g)|;
    assert f[n] == f[n..][0] == '|';
  }

  /** A job that carries its full key keeps it. */
  lemma {:induction false} FullKeyStays(job: Job)
    ensures FullKey(job.(key := FullKey(job))) == FullKey(job)
  {
    FullKeyIs(job);
    hide Track;
  }

  lemma RunNext(ops: seq<Op>, op: Op, capacity: nat, fairness: nat)
    ensures Run(ops + [op], capacity, fairness) == Apply(Run(ops, capacity, fairness), op, capacity, fairness)
  {
    assert (ops + [op])[..|ops|] == ops;
    hide Apply;
  }

  // A pushed job is pending when there was room for it.
  lemma {:induction false} PushedIsPending(c: Content, given: Job, capacity: nat)
    requires Valid(c, capacity) && |c.index| < capacity
    ensures var d := Pushed(c, given, capacity).0;
      Valid(d, capacity) && d.index.Keys == c.index.Keys + {FullKey(given)} && |d.index| <= |c.index| + 1
  {
    hide Pushed, Indexed, Find, Total, FullKey;
    ShapeOf(c.levels, c.index);
    PushedKeeps(c, given, capacity);
    if FullKey(given) in c.index {
      PushOnlyRaises(c, given, capacity);
    } else {
      PushAddsOrDrops(c, given, capacity);
    }
  }

  lemma ShapeNow(c: Content, capacity: nat)
    requires Valid(c, capacity)
    ensures WellFormed(c)
  {
    ShapeOf(c.levels, c.index);
  }

  // Pushing goes on from a run.
  lemma {:induction false} PushNext(ops: seq<Op>, given: Job, capacity: nat, fairness: nat) returns (d: Content)
    requires |Run(ops, capacity, fairness).index| < capacity
    ensures var c := Run(ops, capacity, fairness);
      && d == Run(ops + [Push(given)], capacity, fairness) && |d.index| <= |c.index| + 1
      && d.index.Keys == c.index.Keys + {FullKey(given)}
  {
    var c := Run(ops, capacity, fairness);
    d := Run(ops + [Push(given)], capacity, fairness);
    hide Run, Pushed, Valid, FullKey, EndsWith, Indexed, Total;
    RunNext(ops, Push(given), capacity, fairness);
    ShapeNow(c, capacity);
    PushedIsPending(c, given, capacity);
  }

  lemma {:induction false} PathsAreKeys(a: Job, b: Job)
    requires a.key == "" == b.key && a.filePath != b.filePath && a.fingerprint == b.fingerprint
    requires !EndsWith(a.filePath, Suffix(a.fingerprint)) && !EndsWith(b.filePath, Suffix(b.fingerprint))
    ensures FullKey(a) == a.filePath + Suffix(a.fingerprint) && FullKey(b) == b.filePath + Suffix(b.fingerprint)
    ensures FullKey(a) != FullKey(b)
  {
    FullKeyIs(a);
    FullKeyIs(b);
    SameOptionsSameTrack(a, b);
    hide FullKey, EndsWith;
  }

  /** Two files without keys whose paths carry no suffix are two jobs for the same options: after
      any run that leaves room for both, pushing them makes each pending under its own path. */
  lemma {:induction false} TwoFilesAreTwoJobs(ops: seq<Op>, a: Job, b: Job, capacity: nat, fairness: nat)
    requires a.key == "" == b.key && a.filePath != b.filePath && a.fingerprint == b.fingerprint
    requires !EndsWith(a.filePath, Suffix(a.fingerprint)) && !EndsWith(b.filePath, Suffix(b.fingerprint))
    requires |Run(ops, capacity, fairness).index| + 2 <= capacity
    ensures var c, d := Run(ops, capacity, fairness), Run(ops + [Push(a)] + [Push(b)], capacity, fairness);
      var j, k := a.filePath + Suffix(a.fingerprint), b.filePath + Suffix(b.fingerprint);
      j != k && d.index.Keys == c.index.Keys + {j, k}
  {
    hide *;
    PathsAreKeys(a, b);
    var once := PushNext(ops, a, capacity, fairness);
    var twice := PushNext(ops + [Push(a)], b, capacity, fairness);
  }

  // ---- Library work keeps moving ---------------------------------------------------------

  predicate WaitsAt(c: Content, key: string, level: nat)
  {
    key in c.index && c.index[key] == level
  }

  function Times(k: nat, n: nat): nat { if k == 0 then 0 else n + Times(k - 1, n) }

  // How many pops a job with `ahead` library jobs before it can see at most.
  function Rank(ahead: nat, sinceBackground: nat, fairness: nat): nat
  {
    Times(ahead, fairness + 1) + (if sinceBackground < fairness then fairness - sinceBackground else 0) + 1
  }

  lemma {:induction false} TimesIsProduct(k: nat, n: nat)
    ensures Times(k, n) == k * n
  {
    if k > 0 {
      TimesIsProduct(k - 1, n);
    }
  }

  lemma {:induction false} RankBound(ahead: nat, sinceBackground: nat, fairness: nat)
    ensures Rank(ahead, sinceBackground, fairness) <= (ahead + 1) * (fairness + 1)
  {
    TimesIsProduct(ahead + 1, fairness + 1);
  }

  lemma TimesStep(k: nat, n: nat)
    ensures k > 0 ==> Times(k, n) == Times(k - 1, n) + n
  {
  }

  lemma {:induction false} TimesGrows(j: nat, k: nat, n: nat)
    requires j <= k
    ensures Times(j, n) <= Times(k, n)
  {
    if j < k {
      TimesGrows(j, k - 1, n);
    }
  }

  lemma {:induction false} PushKeepsPlace(c: Content, given: Job, capacity: nat, key: string)
    requires Valid(c, capacity) && WaitsAt(c, key, BACKGROUND)
    requires WaitsAt(Pushed(c, given, capacity).0, key, BACKGROUND)
    ensures var d := Pushed(c, given, capacity).0;
      && |d.levels| == LEVELS && d.sinceBackground == c.sinceBackground
      && Find(d.levels[BACKGROUND], key) <= Find(c.levels[BACKGROUND], key)
  {
    var before, after := c.levels[BACKGROUND], Pushed(c, given, capacity).0.levels[BACKGROUND];
    PushShape(c, given, capacity, BACKGROUND);
    assert Has(before, key);
    if Grown(before, after, FullKey(given)) {
      GrownFinds(before, after, FullKey(given), key);
    } else if Shrunk(before, after, FullKey(given)) {
      ShrunkFinds(before, after, FullKey(given), key);
    }
    hide Pushed, Find, FullKey, Without;
  }

  lemma {:induction false} PopMovesUp(c: Content, fairness: nat, capacity: nat, key: string)
    requires Valid(c, capacity) && WaitsAt(c, key, BACKGROUND)
    requires WaitsAt(Popped(c, fairness).0, key, BACKGROUND)
    ensures var d := Popped(c, fairness).0;
      && |d.levels| == LEVELS
      && (if d.sinceBackground == 0 then Find(d.levels[BACKGROUND], key) == Find(c.levels[BACKGROUND], key) - 1
          else d.levels[BACKGROUND] == c.levels[BACKGROUND] && c.sinceBackground < fairness
               && d.sinceBackground == c.sinceBackground + 1)
  {
    var queue := c.levels[BACKGROUND];
    assert Has(queue, key);
    var p := Selected(c, fairness);
    assert p <= BACKGROUND;
    if p == BACKGROUND {
      var i := Find(queue, key);
      assert queue[0].key != key;
      FindIs(queue[1..], key, i - 1);
    }
    hide Indexed, Find;
  }

  // The job of `key` never leaves its level during these operations.
  ghost predicate StaysThrough(c: Content, ops: seq<Op>, key: string, level: nat, capacity: nat, fairness: nat)
    requires Valid(c, capacity)
    decreases |ops|
  {
    if ops == [] then WaitsAt(c, key, level)
    else
      ApplyKeeps(c, ops[0], capacity, fairness);
      var d := Apply(c, ops[0], capacity, fairness);
      WaitsAt(c, key, level) && StaysThrough(d, ops[1..], key, level, capacity, fairness)
  }

  function Pops(ops: seq<Op>): nat
  {
    if ops == [] then 0 else (if ops[0].Pop? then 1 else 0) + Pops(ops[1..])
  }

  lemma {:induction false} StepLowersRank(c: Content, op: Op, key: string, capacity: nat, fairness: nat)
    requires Valid(c, capacity) && !op.Clear? && WaitsAt(c, key, BACKGROUND)
    requires WaitsAt(Apply(c, op, capacity, fairness), key, BACKGROUND)
    ensures var d := Apply(c, op, capacity, fairness);
      && |d.levels| == LEVELS
      && Rank(Find(d.levels[BACKGROUND], key), d.sinceBackground, fairness) + (if op.Pop? then 1 else 0)
         <= Rank(Find(c.levels[BACKGROUND], key), c.sinceBackground, fairness)
  {
    hide Pushed, Popped, Indexed, Find, Total, Times;
    ShapeOf(c.levels, c.index);
    var d := Apply(c, op, capacity, fairness);
    if op.Push? {
      PushKeepsPlace(c, op.job, capacity, key);
      TimesGrows(Find(d.levels[BACKGROUND], key), Find(c.levels[BACKGROUND], key), fairness + 1);
    } else {
      PopMovesUp(c, fairness, capacity, key);
      TimesStep(Find(c.levels[BACKGROUND], key), fairness + 1);
    }
  }

  lemma {:induction false} StaysNow(c: Content, ops: seq<Op>, key: string, capacity: nat, fairness: nat)
    requires Valid(c, capacity) && StaysThrough(c, ops, key, BACKGROUND, capacity, fairness)
    ensures WaitsAt(c, key, BACKGROUND)
  {
  }

  lemma {:induction false} StaysRank(c: Content, ops: seq<Op>, key: string, capacity: nat, fairness: nat)
    requires Valid(c, capacity) && StaysThrough(c, ops, key, BACKGROUND, capacity, fairness)
    ensures Pops(ops) < Rank(Find(c.levels[BACKGROUND], key), c.sinceBackground, fairness)
    decreases |ops|
  {
    if ops != [] {
      hide Apply, Find, Rank, Valid, WaitsAt;
      ApplyKeeps(c, ops[0], capacity, fairness);
      var d := Apply(c, ops[0], capacity, fairness);
      StaysNow(d, ops[1..], key, capacity, fairness);
      StaysRank(d, ops[1..], key, capacity, fairness);
      ClearEndsWait(c, ops[0], key, capacity, fairness);
      StepLowersRank(c, ops[0], key, capacity, fairness);
    }
  }

  lemma ClearEndsWait(c: Content, op: Op, key: string, capacity: nat, fairness: nat)
    requires Valid(c, capacity) && WaitsAt(Apply(c, op, capacity, fairness), key, BACKGROUND)
    ensures !op.Clear?
  {
  }

  /** Whatever is pushed and popped meanwhile, a library job with k library jobs ahead of it
      leaves its level within (k + 1) * (fairness + 1) pops: a run through which it stays has
      fewer pops. */
  lemma {:induction false} LibraryWaitIsBounded(c: Content, ops: seq<Op>, key: string, capacity: nat, fairness: nat)
    requires Valid(c, capacity) && StaysThrough(c, ops, key, BACKGROUND, capacity, fairness)
    ensures Pops(ops) < (Find(c.levels[BACKGROUND], key) + 1) * (fairness + 1)
  {
    StaysRank(c, ops, key, capacity, fairness);
    RankBound(Find(c.levels[BACKGROUND], key), c.sinceBackground, fairness);
    hide *;
  }

  // ---- Maintenance work can wait forever ---------------------------------------------------

  // A library job is pushed before every one of n pops.
  function BusyLibrary(lib: Job, n: nat): seq<Op>
  {
    if n == 0 then [] else [Push(lib)] + ([Pop] + BusyLibrary(lib, n - 1))
  }

  // The maintenance job of `key` waits, and pushing `lib` makes or finds a library job.
  predicate Starving(c: Content, key: string, lib: Job, capacity: nat)
  {
    && WaitsAt(c, key, MAINTENANCE) && lib.priority == BACKGROUND && FullKey(lib) != key
    && (FullKey(lib) in c.index ==> c.index[FullKey(lib)] == BACKGROUND) && |c.index| < capacity
  }

  // After the push the library level is not empty.
  lemma {:induction false} LibraryPushed(c: Content, key: string, lib: Job, capacity: nat)
    requires Valid(c, capacity) && Starving(c, key, lib, capacity)
    ensures var d := Pushed(c, lib, capacity).0;
      && Valid(d, capacity) && WaitsAt(d, key, MAINTENANCE) && d.levels[BACKGROUND] != []
      && WaitsAt(d, FullKey(lib), BACKGROUND) && |d.index| <= |c.index| + 1
  {
    hide Pushed, Indexed, FullKey, Find, Total, Has;
    ShapeOf(c.levels, c.index);
    PushedKeeps(c, lib, capacity);
    var d := Pushed(c, lib, capacity).0;
    OthersStay(c, lib, capacity, key);
    if FullKey(lib) !in c.index {
      PushAddsOrDrops(c, lib, capacity);
    } else {
      PushOnlyRaises(c, lib, capacity);
      assert d.index.Keys == c.index.Keys;
    }
    IsBusy(d.levels, d.index, FullKey(lib));
  }

  lemma IsBusy(levels: seq<seq<Job>>, index: map<string, nat>, key: string)
    requires Indexed(levels, index) && key in index
    ensures |levels| == LEVELS && index[key] < LEVELS && levels[index[key]] != []
  {
    assert Has(levels[index[key]], key);
  }

  // The pop then serves something more urgent than maintenance.
  lemma {:induction false} LibraryPopped(d: Content, key: string, lib: string, capacity: nat, fairness: nat)
    requires Valid(d, capacity) && WaitsAt(d, key, MAINTENANCE) && WaitsAt(d, lib, BACKGROUND)
    requires d.levels[BACKGROUND] != []
    ensures var e := Popped(d, fairness).0;
      && Valid(e, capacity) && WaitsAt(e, key, MAINTENANCE) && |e.index| == |d.index| - 1
      && (lib in e.index ==> e.index[lib] == BACKGROUND)
  {
    hide Indexed, Selected, Total, FirstBusy;
    ShapeOf(d.levels, d.index);
    PoppedKeeps(d, fairness, capacity);
    PopServes(d, fairness, capacity);
    NotEmpty(d.index, key);
    var served := Popped(d, fairness).1.value.key;
    assert (d.index - {served}).Keys == d.index.Keys - {served};
  }

  lemma NotEmpty(index: map<string, nat>, key: string)
    requires key in index
    ensures |index| > 0
  {
    assert index.Keys != {};
  }

  // One push and pop later the same can happen again.
  lemma {:induction false} CycleRepeats(c: Content, key: string, lib: Job, capacity: nat, fairness: nat)
    requires Valid(c, capacity) && Starving(c, key, lib, capacity)
    ensures var d := Pushed(c, lib, capacity).0;
      && Valid(d, capacity) && WaitsAt(d, key, MAINTENANCE)
      && var e := Popped(d, fairness).0; Valid(e, capacity) && Starving(e, key, lib, capacity)
  {
    hide Pushed, Popped, Indexed, FullKey, Total;
    ShapeOf(c.levels, c.index);
    LibraryPushed(c, key, lib, capacity);
    var d := Pushed(c, lib, capacity).0;
    ShapeOf(d.levels, d.index);
    LibraryPopped(d, key, FullKey(lib), capacity, fairness);
  }

  lemma {:induction false} CycleStays(c: Content, key: string, lib: Job, n: nat, capacity: nat, fairness: nat)
    requires Valid(c, capacity) && Starving(c, key, lib, capacity)
    ensures StaysThrough(c, BusyLibrary(lib, n), key, MAINTENANCE, capacity, fairness)
    ensures Pops(BusyLibrary(lib, n)) == n
    decreases n
  {
    hide Pushed, Popped, Indexed, FullKey, Total;
    ShapeOf(c.levels, c.index);
    if n > 0 {
      CycleRepeats(c, key, lib, capacity, fairness);
      var d := Pushed(c, lib, capacity).0;
      ShapeOf(d.levels, d.index);
      var rest := BusyLibrary(lib, n - 1);
      CycleStays(Popped(d, fairness).0, key, lib, n - 1, capacity, fairness);
      hide StaysThrough, Valid;
      StaysLonger(d, Pop, rest, key, MAINTENANCE, capacity, fairness);
      StaysLonger(c, Push(lib), [Pop] + rest, key, MAINTENANCE, capacity, fairness);
    }
  }

  lemma {:induction false} StaysLonger(c: Content, op: Op, rest: seq<Op>, key: string, level: nat, capacity: nat,
                                       fairness: nat)
    requires Valid(c, capacity) && WaitsAt(c, key, level) && Valid(Apply(c, op, capacity, fairness), capacity)
    requires StaysThrough(Apply(c, op, capacity, fairness), rest, key, level, capacity, fairness)
    ensures StaysThrough(c, [op] + rest, key, level, capacity, fairness)
    ensures Pops([op] + rest) == (if op.Pop? then 1 else 0) + Pops(rest)
  {
    hide Pushed, Popped, Has, Find, Total, Filed;
    var ops := [op] + rest;
    assert ops[0] == op && ops[1..] == rest;
    hide Apply, Valid;
  }

  lemma {:induction false} RunOfOne(op: Op, capacity: nat, fairness: nat)
    ensures Run([op], capacity, fairness) == Apply(EMPTY, op, capacity, fairness)
  {
    assert [op][..|[op]| - 1] == [];
    hide Apply;
  }

  // The index after the first push.
  lemma {:induction false} FirstPush(job: Job, capacity: nat)
    requires capacity > 0
    ensures Pushed(EMPTY, job, capacity).0.index == map[FullKey(job) := job.priority]
  {
    ValidAtStart(capacity);
    PushAddsOrDrops(EMPTY, job, capacity);
    hide Pushed, FullKey, Valid;
  }

  /** Maintenance work has no such bound: with room for two jobs, a maintenance job stays
      pending through any number of pops when a library job is pushed before each. */
  lemma {:induction false} MaintenanceCanStarve(job: Job, lib: Job, n: nat, capacity: nat, fairness: nat)
    requires job.priority == MAINTENANCE && lib.priority == BACKGROUND && FullKey(job) != FullKey(lib) && capacity >= 2
    ensures var ops := BusyLibrary(lib, n);
      && Pops(ops) == n
      && StaysThrough(Run([Push(job)], capacity, fairness), ops, FullKey(job), MAINTENANCE, capacity, fairness)
  {
    hide Pushed, FullKey, Valid, Run;
    FirstPush(job, capacity);
    RunOfOne(Push(job), capacity, fairness);
    CycleStays(Run([Push(job)], capacity, fairness), FullKey(job), lib, n, capacity, fairness);
  }

  lemma {:induction false} SmallerSet(a: set<string>, b: set<string>)
    requires a <= b
    ensures |a| <= |b|
  {
    assert b == a + (b - a);
  }

  /** With room for one job only, a pending maintenance job is served by the next pop. */
  lemma {:induction false} MaintenanceAloneIsServed(c: Content, key: string, capacity: nat, fairness: nat)
    requires Valid(c, capacity) && capacity <= 1 && WaitsAt(c, key, MAINTENANCE)
    ensures var (d, served) := Popped(c, fairness); served.Some? && served.value.key == key && key !in d.index
  {
    hide Indexed, Popped, Total;
    ShapeOf(c.levels, c.index);
    PopServes(c, fairness, capacity);
    NotEmpty(c.index, key);
    var served := Popped(c, fairness).1.value.key;
    if served != key {
      assert |{served, key}| == 2;
      SmallerSet({served, key}, c.index.Keys);
    }
  }
}
