/**
 The sampler's slots, the jobs that load samples for them in the background, and the asset
 files both own. A job commits to its slot only if the slot's generation is still the one
 the job began with. Every operation and every completion callback runs on one thread, so
 each is one step; workers finish their jobs at any time.
 */
module SamplerController {

  import opened Wrappers

  const SLOTS := 32

  // `content` stands for name, gain, range and whatever else a slot shows.
  datatype Slot = Slot(asset: Option<nat>, content: nat, generation: nat, loading: bool)

  // A worker that loaded an imported sample leaves an asset file.
  datatype Outcome = Running | Failed | Loaded(asset: Option<nat>)

  datatype Job = Job(slot: nat, generation: nat, imported: bool, session: nat, content: nat, outcome: Outcome)

  datatype Editor = Editor(session: nat, slot: nat, generation: nat, saving: bool)

  // Names that were not given out yet.
  datatype Names = Names(job: nat, asset: nat, session: nat)

  // `files` are the asset files on disk, `bank` the assets named by the saved bank file.
  datatype Desk = Desk(slots: seq<Slot>, jobs: map<nat, Job>, editor: Editor, files: set<nat>,
                       bank: seq<Option<nat>>, stopped: bool, names: Names)

  predicate Shaped(d: Desk)
  {
    && |d.slots| == SLOTS && d.editor.slot < SLOTS
    && forall id :: id in d.jobs ==> d.jobs[id].slot < SLOTS
  }

  // ---- Specification -----------------------------------------------------------------

  function Removed(files: set<nat>, asset: Option<nat>): set<nat>
  {
    if asset.Some? then files - {asset.value} else files
  }

  function AssetsOf(slots: seq<Slot>): (bank: seq<Option<nat>>)
    ensures |bank| == |slots|
    ensures forall i :: 0 <= i < |slots| ==> bank[i] == slots[i].asset
  {
    seq(|slots|, i requires 0 <= i < |slots| => slots[i].asset)
  }

  // Writing the bank file either replaces it or leaves it.
  function BankSaved(d: Desk, ok: bool): Desk
  {
    if ok then d.(bank := AssetsOf(d.slots)) else d
  }

  function LoadBegun(d: Desk, slot: nat, content: nat, imported: bool, session: nat): (r: Desk)
    requires Shaped(d) && slot < SLOTS
    ensures Shaped(r)
  {
    var generation := d.slots[slot].generation + 1;
    d.(slots := d.slots[slot := d.slots[slot].(generation := generation, loading := true)],
       jobs := d.jobs[d.names.job := Job(slot, generation, imported, session, content, Running)],
       names := d.names.(job := d.names.job + 1))
  }

  predicate EditorValid(d: Desk)
    requires Shaped(d)
  {
    !d.stopped && d.editor.session != 0 && d.slots[d.editor.slot].generation == d.editor.generation
  }

  function EditorCancelled(d: Desk, session: nat): (r: Desk)
    requires Shaped(d)
    ensures Shaped(r)
  {
    if session == 0 || session != d.editor.session then d
    else
      var slot := d.editor.slot;
      var supersedes := d.editor.saving && d.slots[slot].generation == d.editor.generation;
      d.(slots := if supersedes
                  then d.slots[slot := d.slots[slot].(generation := d.slots[slot].generation + 1, loading := false)]
                  else d.slots,
         editor := d.editor.(session := 0, saving := false))
  }

  function EditorBegun(d: Desk, slot: nat): (r: Desk)
    requires Shaped(d) && slot < SLOTS
    ensures Shaped(r)
  {
    var c := EditorCancelled(d, d.editor.session);
    if c.stopped || c.slots[slot].loading then c
    else
      var session := c.names.session + 1;
      c.(editor := Editor(session, slot, c.slots[slot].generation, false), names := c.names.(session := session))
  }

  // A source other than the slot's own asset is imported.
  function EditorApplied(d: Desk, content: nat, otherSource: bool): (r: Desk)
    requires Shaped(d)
    ensures Shaped(r)
  {
    if !EditorValid(d) || d.editor.saving then d
    else
      var slot := d.editor.slot;
      var imported := d.slots[slot].asset.None? || otherSource;
      var e := LoadBegun(d, slot, content, imported, d.editor.session);
      e.(editor := e.editor.(saving := true, generation := e.slots[slot].generation))
  }

  function EditorFinished(d: Desk, session: nat, success: bool): (r: Desk)
    requires Shaped(d)
    ensures Shaped(r)
  {
    if session == 0 || session != d.editor.session then d
    else
      var e := d.(editor := d.editor.(saving := false));
      if success then EditorCancelled(e, session) else e
  }

  function SlotCleared(d: Desk, slot: nat, saved: bool): (r: Desk)
    requires Shaped(d) && slot < SLOTS
    ensures Shaped(r)
  {
    var before := d.slots[slot];
    var generation := before.generation + 1;
    if saved then
      var e := d.(slots := d.slots[slot := Slot(None, 0, generation, false)]);
      BankSaved(e, true).(files := Removed(e.files, before.asset))
    else d.(slots := d.slots[slot := before.(generation := generation, loading := false)])
  }

  function EditorCleared(d: Desk, saved: bool): (r: Desk)
    requires Shaped(d)
    ensures Shaped(r)
  {
    if !EditorValid(d) || d.editor.saving then d
    else
      var e := SlotCleared(d, d.editor.slot, saved);
      EditorFinished(e.(editor := e.editor.(generation := e.slots[d.editor.slot].generation)), d.editor.session, saved)
  }

  // The worker's side of a job: it fails, or it succeeds and may leave a file.
  function WorkerDone(d: Desk, id: nat, works: bool): (r: Desk)
    requires Shaped(d) && id in d.jobs
    ensures Shaped(r)
  {
    var job := d.jobs[id];
    if !job.outcome.Running? then d
    else if !works then d.(jobs := d.jobs[id := job.(outcome := Failed)])
    else if !job.imported then d.(jobs := d.jobs[id := job.(outcome := Loaded(None))])
    else
      d.(jobs := d.jobs[id := job.(outcome := Loaded(Some(d.names.asset)))],
         files := d.files + {d.names.asset}, names := d.names.(asset := d.names.asset + 1))
  }

  predicate Superseded(d: Desk, job: Job)
    requires Shaped(d) && job.slot < SLOTS
  {
    || d.slots[job.slot].generation != job.generation || d.stopped
    || (job.session != 0 && d.editor.session != job.session)
  }

  function OutcomeAsset(o: Outcome): Option<nat> { if o.Loaded? then o.asset else None }

  // The completion callback of a finished job. `fits` says that the sample fits in memory,
  // `saved` that the bank file could be written.
  function JobFinished(d: Desk, id: nat, fits: bool, saved: bool): (r: Desk)
    requires Shaped(d) && id in d.jobs
    ensures Shaped(r)
  {
    var job := d.jobs[id];
    var asset := OutcomeAsset(job.outcome);
    var e := d.(jobs := d.jobs - {id});
    var slot := e.slots[job.slot];
    if job.outcome.Running? then d
    else if Superseded(e, job) then
      EditorFinished(e.(files := if job.imported then Removed(e.files, asset) else e.files), job.session, false)
    else
      var f := e.(slots := e.slots[job.slot := slot.(loading := false)]);
      if job.outcome.Failed? then EditorFinished(f, job.session, false)
      else if !fits || !saved then
        EditorFinished(f.(files := if job.imported then Removed(f.files, asset) else f.files), job.session, false)
      else
        var now := Slot(if job.imported then asset else slot.asset, job.content, job.generation, false);
        var g := BankSaved(f.(slots := f.slots[job.slot := now]), true);
        var gone := if job.imported && slot.asset != now.asset then slot.asset else None;
        EditorFinished(g.(files := Removed(g.files, gone)), job.session, true)
  }

  // Waits for every job and removes what it left.
  function ShutDown(d: Desk): (r: Desk)
    requires Shaped(d)
    ensures Shaped(r)
  {
    if d.stopped then d
    else
      var e := EditorCancelled(d, d.editor.session);
      e.(stopped := true, jobs := map[], files := e.files - LeftOver(e.jobs))
  }

  function LeftOver(jobs: map<nat, Job>): set<nat>
  {
    set id | id in jobs && OutcomeAsset(jobs[id].outcome).Some? :: OutcomeAsset(jobs[id].outcome).value
  }

  // ---- The controller object -----------------------------------------------------------

  class Controller {
    var slots: seq<Slot>
    var jobs: map<nat, Job>
    var editorSession: nat
    var editorSlot: nat
    var editorGeneration: nat
    var editorSaving: bool
    var files: set<nat>
    var bank: seq<Option<nat>>
    var stopped: bool
    var names: Names

    function View(): Desk
      reads this
    {
      Desk(slots, jobs, Editor(editorSession, editorSlot, editorGeneration, editorSaving), files, bank, stopped, names)
    }

    method Remove(asset: Option<nat>)
      modifies this`files
      ensures View() == old(View()).(files := Removed(old(files), asset))
    {
      if asset.Some? {
        files := files - {asset.value};
      }
    }

    method Load(slot: nat, content: nat, imported: bool, session: nat)
      requires Shaped(View()) && slot < SLOTS
      modifies this`slots, this`jobs, this`names
      ensures View() == LoadBegun(old(View()), slot, content, imported, session)
    {
      var generation := slots[slot].generation + 1;
      slots := slots[slot := slots[slot].(generation := generation, loading := true)];
      jobs := jobs[names.job := Job(slot, generation, imported, session, content, Running)];
      names := names.(job := names.job + 1);
    }

    method ClearSlot(slot: nat, saved: bool)
      requires Shaped(View()) && slot < SLOTS
      modifies this`slots, this`bank, this`files
      ensures View() == SlotCleared(old(View()), slot, saved)
    {
      var before := slots[slot];
      var generation := before.generation + 1;
      slots := slots[slot := Slot(None, 0, generation, false)];
      if !saved {
        slots := slots[slot := before.(generation := generation, loading := false)];
        return;
      }
      bank := AssetsOf(slots);
      Remove(before.asset);
    }

    method CancelEditor(session: nat)
      requires Shaped(View())
      modifies this`slots, this`editorSession, this`editorSaving
      ensures View() == EditorCancelled(old(View()), session)
    {
      if session == 0 || session != editorSession {
        return;
      }
      if editorSaving && slots[editorSlot].generation == editorGeneration {
        slots := slots[editorSlot := slots[editorSlot].(generation := slots[editorSlot].generation + 1,
                                                       loading := false)];
      }
      editorSession := 0;
      editorSaving := false;
    }

    method BeginEditor(slot: nat)
      requires Shaped(View()) && slot < SLOTS
      modifies this`slots, this`editorSession, this`editorSaving, this`editorSlot, this`editorGeneration, this`names
      ensures View() == EditorBegun(old(View()), slot)
    {
      CancelEditor(editorSession);
      if stopped || slots[slot].loading {
        return;
      }
      names := names.(session := names.session + 1);
      editorSession := names.session;
      editorSlot := slot;
      editorGeneration := slots[slot].generation;
      editorSaving := false;
    }

    method ApplyEditor(content: nat, otherSource: bool)
      requires Shaped(View())
      modifies this`slots, this`jobs, this`names, this`editorSaving, this`editorGeneration
      ensures View() == EditorApplied(old(View()), content, otherSource)
    {
      if stopped || editorSession == 0 || slots[editorSlot].generation != editorGeneration || editorSaving {
        return;
      }
      var imported := slots[editorSlot].asset.None? || otherSource;
      editorSaving := true;
      Load(editorSlot, content, imported, editorSession);
      editorGeneration := slots[editorSlot].generation;
    }

    method FinishEditorSave(session: nat, success: bool)
      requires Shaped(View())
      modifies this`slots, this`editorSession, this`editorSaving
      ensures View() == EditorFinished(old(View()), session, success)
    {
      if session == 0 || session != editorSession {
        return;
      }
      editorSaving := false;
      if success {
        CancelEditor(session);
      }
    }

    // The completion callback of a finished job.
    method OnJobFinished(id: nat, fits: bool, saved: bool)
      requires Shaped(View()) && id in jobs && !jobs[id].outcome.Running?
      modifies this
      ensures View() == JobFinished(old(View()), id, fits, saved)
    {
      var job := jobs[id];
      var asset := OutcomeAsset(job.outcome);
      jobs := jobs - {id};
      var slot := slots[job.slot];
      if slot.generation != job.generation || stopped || (job.session != 0 && editorSession != job.session) {
        if job.imported {
          Remove(asset);
        }
        FinishEditorSave(job.session, false);
        return;
      }
      slots := slots[job.slot := slot.(loading := false)];
      if job.outcome.Failed? {
        FinishEditorSave(job.session, false);
        return;
      }
      if !fits || !saved {
        if job.imported {
          Remove(asset);
        }
        FinishEditorSave(job.session, false);
        return;
      }
      var now := Slot(if job.imported then asset else slot.asset, job.content, job.generation, false);
      slots := slots[job.slot := now];
      bank := AssetsOf(slots);
      if job.imported && slot.asset != now.asset {
        Remove(slot.asset);
      }
      FinishEditorSave(job.session, true);
    }

    // Waits for every job and removes its file.
    method DropJobs()
      modifies this`jobs, this`files
      ensures jobs == map[] && files == old(files) - LeftOver(old(jobs))
    {
      while jobs.Keys != {}
        invariant files - LeftOver(jobs) == old(files) - LeftOver(old(jobs))
        decreases |jobs.Keys|
      {
        var id :| id in jobs;
        LeftOverGrows(jobs - {id}, jobs, id);
        DropJob(id);
      }
    }

    method DropJob(id: nat)
      requires id in jobs
      modifies this`jobs, this`files
      ensures jobs == old(jobs) - {id} && files == Removed(old(files), OutcomeAsset(old(jobs)[id].outcome))
    {
      var asset := OutcomeAsset(jobs[id].outcome);
      if asset.Some? {
        files := files - {asset.value};
      }
      jobs := jobs - {id};
    }

    method Shutdown()
      requires Shaped(View())
      modifies this
      ensures View() == ShutDown(old(View()))
    {
      if stopped {
        return;
      }
      CancelEditor(editorSession);
      stopped := true;
      DropJobs();
    }
  }

  lemma {:induction false} LeftOverGrows(done: map<nat, Job>, more: map<nat, Job>, id: nat)
    requires more.Keys == done.Keys + {id} && forall i :: i in done ==> more[i] == done[i]
    ensures var asset := OutcomeAsset(more[id].outcome);
      LeftOver(more) == if asset.Some? then LeftOver(done) + {asset.value} else LeftOver(done)
  {
    var asset := OutcomeAsset(more[id].outcome);
    forall a ensures a in LeftOver(more) <==> a in LeftOver(done) || asset == Some(a) {
      if a in LeftOver(done) {
        var i :| i in done && OutcomeAsset(done[i].outcome) == Some(a);
        assert i in more && OutcomeAsset(more[i].outcome) == Some(a);
      }
    }
  }

  // ---- Who owns a file ---------------------------------------------------------------

  datatype Owner = OfSlot(slot: nat) | OfJob(job: nat)

  function Holding(slots: seq<Slot>, jobs: map<nat, Job>, o: Owner): Option<nat>
  {
    match o
    case OfSlot(i) => if i < |slots| then slots[i].asset else None
    case OfJob(id) => if id in jobs then OutcomeAsset(jobs[id].outcome) else None
  }

  // Every file has exactly one owner, and every owned asset is a file.
  ghost predicate Accounted(files: set<nat>, slots: seq<Slot>, jobs: map<nat, Job>, nextAsset: nat)
  {
    && (forall o :: Holding(slots, jobs, o).Some? ==> Holding(slots, jobs, o).value in files)
    && (forall a :: a in files ==> a < nextAsset && exists o :: Holding(slots, jobs, o) == Some(a))
    && (forall o, p :: Holding(slots, jobs, o).Some? && Holding(slots, jobs, o) == Holding(slots, jobs, p) ==> o == p)
  }

  // Owner o lets go of its file and the file is removed.
  lemma {:induction false} ReleaseKeeps(files: set<nat>, slots: seq<Slot>, jobs: map<nat, Job>, next: nat, o: Owner,
                                        slots': seq<Slot>, jobs': map<nat, Job>)
    requires Accounted(files, slots, jobs, next)
    requires forall p :: p != o ==> Holding(slots', jobs', p) == Holding(slots, jobs, p)
    requires Holding(slots', jobs', o).None?
    ensures Accounted(Removed(files, Holding(slots, jobs, o)), slots', jobs', next)
  {
    hide Holding;
    var left := Removed(files, Holding(slots, jobs, o));
    forall a | a in left ensures exists p :: Holding(slots', jobs', p) == Some(a) {
      var p :| Holding(slots, jobs, p) == Some(a);
      assert Holding(slots', jobs', p) == Some(a);
    }
  }

  // Owner o gets the next file.
  lemma {:induction false} AcquireKeeps(files: set<nat>, slots: seq<Slot>, jobs: map<nat, Job>, next: nat, o: Owner,
                                        slots': seq<Slot>, jobs': map<nat, Job>)
    requires Accounted(files, slots, jobs, next)
    requires forall p :: p != o ==> Holding(slots', jobs', p) == Holding(slots, jobs, p)
    requires Holding(slots, jobs, o).None? && Holding(slots', jobs', o) == Some(next)
    ensures Accounted(files + {next}, slots', jobs', next + 1)
  {
    hide Holding;
    forall a | a in files ensures exists p :: Holding(slots', jobs', p) == Some(a) {
      var p :| Holding(slots, jobs, p) == Some(a);
      assert Holding(slots', jobs', p) == Some(a);
    }
  }

  // Owner o takes the file of owner from.
  lemma {:induction false} PassKeeps(files: set<nat>, slots: seq<Slot>, jobs: map<nat, Job>, next: nat, from: Owner,
                                     o: Owner, slots': seq<Slot>, jobs': map<nat, Job>)
    requires Accounted(files, slots, jobs, next) && from != o
    requires forall p :: p != o && p != from ==> Holding(slots', jobs', p) == Holding(slots, jobs, p)
    requires Holding(slots, jobs, o).None? && Holding(slots', jobs', from).None?
    requires Holding(slots', jobs', o) == Holding(slots, jobs, from)
    ensures Accounted(files, slots', jobs', next)
  {
    hide Holding;
    forall a | a in files ensures exists p :: Holding(slots', jobs', p) == Some(a) {
      var p :| Holding(slots, jobs, p) == Some(a);
      assert Holding(slots', jobs', if p == from then o else p) == Some(a);
    }
  }

  lemma {:induction false} SameKeeps(files: set<nat>, slots: seq<Slot>, jobs: map<nat, Job>, next: nat,
                                     slots': seq<Slot>, jobs': map<nat, Job>)
    requires Accounted(files, slots, jobs, next)
    requires forall p :: Holding(slots', jobs', p) == Holding(slots, jobs, p)
    ensures Accounted(files, slots', jobs', next)
  {
    hide Holding;
    forall a | a in files ensures exists p :: Holding(slots', jobs', p) == Some(a) {
      var p :| Holding(slots, jobs, p) == Some(a);
      assert Holding(slots', jobs', p) == Some(a);
    }
  }

  // ---- Invariant -----------------------------------------------------------------------

  predicate Current(slots: seq<Slot>, job: Job)
  {
    job.slot < |slots| && slots[job.slot].generation == job.generation
  }

  // No job is ahead of its slot, and two jobs of a slot differ in generation.
  predicate JobsInv(slots: seq<Slot>, jobs: map<nat, Job>, nextJob: nat)
  {
    && (forall id :: id in jobs ==>
          && id < nextJob && jobs[id].slot < |slots| && jobs[id].generation <= slots[jobs[id].slot].generation
          && (OutcomeAsset(jobs[id].outcome).Some? ==> jobs[id].imported))
    && (forall i, j :: i in jobs && j in jobs && i != j && jobs[i].slot == jobs[j].slot ==>
          jobs[i].generation != jobs[j].generation)
  }

  // The editor waits for at most one job, and a current job of an editor is that one.
  predicate EditorInv(slots: seq<Slot>, jobs: map<nat, Job>, editor: Editor, lastSession: nat)
  {
    && editor.session <= lastSession && editor.slot < |slots| && (editor.session == 0 ==> !editor.saving)
    && editor.generation <= slots[editor.slot].generation
    && (forall i, j :: i in jobs && j in jobs && i != j && jobs[i].session != 0 ==> jobs[i].session != jobs[j].session)
    && (forall id :: id in jobs ==> jobs[id].session <= lastSession)
    && (forall id :: id in jobs && jobs[id].session != 0 ==>
          && (jobs[id].session == editor.session ==> editor.saving)
          && (Current(slots, jobs[id]) ==>
                jobs[id].session == editor.session && jobs[id].slot == editor.slot
                && jobs[id].generation == editor.generation))
  }

  // A slot shows "loading" exactly while its current job is unfinished.
  ghost predicate LoadingInv(slots: seq<Slot>, jobs: map<nat, Job>)
  {
    && (forall id :: id in jobs && Current(slots, jobs[id]) ==> slots[jobs[id].slot].loading)
    && (forall i :: 0 <= i < |slots| && slots[i].loading ==>
          exists id :: id in jobs && jobs[id].slot == i && Current(slots, jobs[id]))
  }

  ghost predicate Inv(d: Desk)
  {
    && Shaped(d) && d.bank == AssetsOf(d.slots)
    && Accounted(d.files, d.slots, d.jobs, d.names.asset)
    && JobsInv(d.slots, d.jobs, d.names.job)
    && EditorInv(d.slots, d.jobs, d.editor, d.names.session)
    && (!d.stopped ==> LoadingInv(d.slots, d.jobs))
  }

  // A slot whose generation moves on, with its old jobs left behind.
  lemma {:induction false} BumpKeeps(d: Desk, slot: nat, next: Slot)
    requires Inv(d) && slot < SLOTS
    requires next == d.slots[slot].(generation := d.slots[slot].generation + 1, loading := false)
    ensures Inv(d.(slots := d.slots[slot := next]))
  {
    var r := d.(slots := d.slots[slot := next]);
    assert AssetsOf(r.slots) == AssetsOf(d.slots);
    SameKeeps(d.files, d.slots, d.jobs, d.names.asset, r.slots, r.jobs);
    BumpKeepsJobs(d, slot, next);
    hide Accounted, JobsInv, EditorInv, LoadingInv;
  }

  // Slots may change as long as generations do not go back.
  predicate Advances(slots: seq<Slot>, after: seq<Slot>)
  {
    |after| == |slots| && forall i :: 0 <= i < |slots| ==> slots[i].generation <= after[i].generation
  }

  lemma {:induction false} AdvanceKeepsJobs(slots: seq<Slot>, jobs: map<nat, Job>, nextJob: nat, after: seq<Slot>)
    requires JobsInv(slots, jobs, nextJob) && Advances(slots, after)
    ensures JobsInv(after, jobs, nextJob)
  {
  }

  lemma {:induction false} AdvanceKeepsEditor(slots: seq<Slot>, jobs: map<nat, Job>, editor: Editor, nextJob: nat,
                                              lastSession: nat, after: seq<Slot>)
    requires JobsInv(slots, jobs, nextJob) && EditorInv(slots, jobs, editor, lastSession) && Advances(slots, after)
    ensures EditorInv(after, jobs, editor, lastSession)
  {
    forall id | id in jobs && Current(after, jobs[id]) ensures Current(slots, jobs[id]) {
    }
  }

  lemma {:induction false} AdvanceKeepsLoading(slots: seq<Slot>, jobs: map<nat, Job>, nextJob: nat, slot: nat,
                                               next: Slot)
    requires JobsInv(slots, jobs, nextJob) && LoadingInv(slots, jobs) && slot < |slots|
    requires next.generation == slots[slot].generation + 1 && !next.loading
    ensures LoadingInv(slots[slot := next], jobs)
  {
    var after := slots[slot := next];
    forall id | id in jobs && Current(after, jobs[id]) ensures after[jobs[id].slot].loading {
      assert Current(slots, jobs[id]);
    }
    forall i | 0 <= i < |after| && after[i].loading
      ensures exists id :: id in jobs && jobs[id].slot == i && Current(after, jobs[id])
    {
      var id :| id in jobs && jobs[id].slot == i && Current(slots, jobs[id]);
      assert Current(after, jobs[id]);
    }
  }

  lemma {:induction false} BumpKeepsJobs(d: Desk, slot: nat, next: Slot)
    requires Inv(d) && slot < SLOTS && next.generation == d.slots[slot].generation + 1 && !next.loading
    ensures var slots := d.slots[slot := next];
      && JobsInv(slots, d.jobs, d.names.job) && EditorInv(slots, d.jobs, d.editor, d.names.session)
      && (!d.stopped ==> LoadingInv(slots, d.jobs))
  {
    hide Accounted, JobsInv, EditorInv, LoadingInv, AssetsOf;
    var slots := d.slots[slot := next];
    AdvanceKeepsJobs(d.slots, d.jobs, d.names.job, slots);
    AdvanceKeepsEditor(d.slots, d.jobs, d.editor, d.names.job, d.names.session, slots);
    if !d.stopped {
      AdvanceKeepsLoading(d.slots, d.jobs, d.names.job, slot, next);
    }
  }

  // ---- Operations keep it --------------------------------------------------------------

  lemma {:induction false} AddKeepsJobs(slots: seq<Slot>, jobs: map<nat, Job>, id: nat, job: Job)
    requires JobsInv(slots, jobs, id) && job.slot < |slots| && job.generation == slots[job.slot].generation + 1
    requires job.outcome.Running?
    ensures JobsInv(slots[job.slot := slots[job.slot].(generation := job.generation, loading := true)],
                    jobs[id := job], id + 1)
  {
  }

  lemma {:induction false} AddKeepsLoading(slots: seq<Slot>, jobs: map<nat, Job>, id: nat, job: Job)
    requires JobsInv(slots, jobs, id) && LoadingInv(slots, jobs) && job.slot < |slots|
    requires job.generation == slots[job.slot].generation + 1
    ensures LoadingInv(slots[job.slot := slots[job.slot].(generation := job.generation, loading := true)],
                       jobs[id := job])
  {
    var after := slots[job.slot := slots[job.slot].(generation := job.generation, loading := true)];
    var more := jobs[id := job];
    forall i | 0 <= i < |after| && after[i].loading
      ensures exists j :: j in more && more[j].slot == i && Current(after, more[j])
    {
      if i == job.slot {
        assert Current(after, more[id]);
      } else {
        var j :| j in jobs && jobs[j].slot == i && Current(slots, jobs[j]);
        assert more[j] == jobs[j] && Current(after, more[j]);
      }
    }
    forall j | j in more && Current(after, more[j]) ensures after[more[j].slot].loading {
      assert more[j].slot != job.slot ==> Current(slots, more[j]);
    }
  }

  lemma {:induction false} LoadKeepsJobs(d: Desk, slot: nat, content: nat, imported: bool, session: nat)
    requires Inv(d) && slot < SLOTS
    ensures var r := LoadBegun(d, slot, content, imported, session);
      JobsInv(r.slots, r.jobs, r.names.job) && (!d.stopped ==> LoadingInv(r.slots, r.jobs))
  {
    hide Accounted, JobsInv, EditorInv, LoadingInv, AssetsOf;
    var job := LoadBegun(d, slot, content, imported, session).jobs[d.names.job];
    AddKeepsJobs(d.slots, d.jobs, d.names.job, job);
    if !d.stopped {
      AddKeepsLoading(d.slots, d.jobs, d.names.job, job);
    }
  }

  lemma {:induction false} LoadKeepsFiles(d: Desk, slot: nat, content: nat, imported: bool, session: nat)
    requires Inv(d) && slot < SLOTS
    ensures var r := LoadBegun(d, slot, content, imported, session);
      Accounted(r.files, r.slots, r.jobs, r.names.asset) && r.bank == AssetsOf(r.slots)
  {
    hide Accounted, EditorInv, LoadingInv;
    var r := LoadBegun(d, slot, content, imported, session);
    assert AssetsOf(r.slots) == AssetsOf(d.slots);
    SameKeeps(d.files, d.slots, d.jobs, d.names.asset, r.slots, r.jobs);
  }

  lemma InvFacts(d: Desk)
    requires Inv(d)
    ensures Shaped(d) && d.editor.session <= d.names.session
    ensures d.editor.generation <= d.slots[d.editor.slot].generation
    ensures EditorInv(d.slots, d.jobs, d.editor, d.names.session) && JobsInv(d.slots, d.jobs, d.names.job)
    ensures d.editor.session == 0 ==> !d.editor.saving
    ensures d.names.job !in d.jobs
    ensures SessionOver(d.jobs, d.names.session + 1) && SessionOver(d.jobs, 0)
  {
    hide Accounted, LoadingInv, AssetsOf;
  }

  lemma {:induction false} LoadKeeps(d: Desk, slot: nat, content: nat, imported: bool)
    requires Inv(d) && slot < SLOTS
    ensures Inv(LoadBegun(d, slot, content, imported, 0))
  {
    hide Accounted, LoadingInv, JobsInv, EditorInv, AssetsOf;
    LoadKeepsJobs(d, slot, content, imported, 0);
    LoadKeepsFiles(d, slot, content, imported, 0);
    LoadKeepsEditor(d.slots, d.jobs, d.editor, d.names.session, d.names.job,
                    LoadBegun(d, slot, content, imported, 0).jobs[d.names.job], d.editor);
  }

  lemma {:induction false} ApplyKeeps(d: Desk, content: nat, otherSource: bool)
    requires Inv(d)
    ensures Inv(EditorApplied(d, content, otherSource))
  {
    InvFacts(d);
    hide Accounted, LoadingInv, JobsInv, EditorInv, AssetsOf;
    var slot := d.editor.slot;
    var imported := d.slots[slot].asset.None? || otherSource;
    if EditorValid(d) && !d.editor.saving {
      LoadKeepsJobs(d, slot, content, imported, d.editor.session);
      LoadKeepsFiles(d, slot, content, imported, d.editor.session);
      var e := LoadBegun(d, slot, content, imported, d.editor.session);
      LoadKeepsEditor(d.slots, d.jobs, d.editor, d.names.session, d.names.job, e.jobs[d.names.job],
                      d.editor.(saving := true, generation := e.slots[slot].generation));
    }
  }

  // A new job of no session, or of the session of an editor that waited for none.
  lemma {:induction false} LoadKeepsEditor(slots: seq<Slot>, jobs: map<nat, Job>, editor: Editor, lastSession: nat,
                                           id: nat, job: Job, after: Editor)
    requires EditorInv(slots, jobs, editor, lastSession) && JobsInv(slots, jobs, id)
    requires job.slot < |slots| && job.generation == slots[job.slot].generation + 1
    requires if job.session == 0 then after == editor
             else !editor.saving && job.session == editor.session && job.slot == editor.slot
                  && after == editor.(saving := true, generation := job.generation)
    ensures EditorInv(slots[job.slot := slots[job.slot].(generation := job.generation, loading := true)],
                      jobs[id := job], after, lastSession)
  {
    var later := slots[job.slot := slots[job.slot].(generation := job.generation, loading := true)];
    assert id !in jobs;
    forall i | i in jobs && jobs[i].session != 0
      ensures jobs[i].session == after.session ==> job.session == 0 && after.saving
      ensures Current(later, jobs[i]) ==> Current(slots, jobs[i]) && jobs[i].slot != job.slot
    {
    }
  }

  // No job belongs to the editor session any more.
  predicate SessionOver(jobs: map<nat, Job>, session: nat)
  {
    forall id :: id in jobs ==> jobs[id].session == 0 || jobs[id].session != session
  }

  lemma {:induction false} EditorChange(d: Desk, editor: Editor)
    requires Inv(d) && editor.session <= d.names.session && editor.slot < SLOTS
    requires editor.session == 0 ==> !editor.saving
    requires editor.generation <= d.slots[editor.slot].generation
    requires NoneCurrent(d.slots, d.jobs)
    requires SessionOver(d.jobs, editor.session)
    ensures Inv(d.(editor := editor))
  {
    hide Accounted, LoadingInv, JobsInv, AssetsOf;
  }

  // No job can commit for an editor.
  predicate NoneCurrent(slots: seq<Slot>, jobs: map<nat, Job>)
  {
    forall id :: id in jobs && jobs[id].session != 0 ==> !Current(slots, jobs[id])
  }

  lemma {:induction false} CancelEndsWait(slots: seq<Slot>, jobs: map<nat, Job>, editor: Editor, nextJob: nat,
                                          lastSession: nat, after: seq<Slot>)
    requires JobsInv(slots, jobs, nextJob) && EditorInv(slots, jobs, editor, lastSession)
    requires |after| == |slots|
    requires if editor.saving && slots[editor.slot].generation == editor.generation
             then after == slots[editor.slot := after[editor.slot]] && after[editor.slot].generation > editor.generation
             else after == slots
    ensures NoneCurrent(after, jobs)
  {
  }

  // Cancelling the editor leaves no job that could still commit for an editor.
  lemma {:induction false} CancelKeeps(d: Desk, session: nat)
    requires Inv(d)
    ensures Inv(EditorCancelled(d, session))
    ensures session == d.editor.session ==>
      var c := EditorCancelled(d, session);
      c.editor.session == 0 && !c.editor.saving && c.names == d.names && NoneCurrent(c.slots, c.jobs)
  {
    InvFacts(d);
    hide Inv, JobsInv, EditorInv, SessionOver;
    var slot := d.editor.slot;
    var c := EditorCancelled(d, session);
    BumpKeeps(d, slot, d.slots[slot].(generation := d.slots[slot].generation + 1, loading := false));
    if session == d.editor.session {
      CancelEndsWait(d.slots, d.jobs, d.editor, d.names.job, d.names.session, c.slots);
      if session != 0 {
        hide NoneCurrent;
        InvFacts(c.(editor := d.editor));
        EditorChange(c.(editor := d.editor), c.editor);
      }
    }
  }

  lemma {:induction false} NextSessionKeeps(d: Desk)
    requires Inv(d)
    ensures Inv(d.(names := d.names.(session := d.names.session + 1)))
  {
    hide Accounted, LoadingInv, AssetsOf, JobsInv;
  }

  lemma {:induction false} BeginEditorKeeps(d: Desk, slot: nat)
    requires Inv(d) && slot < SLOTS
    ensures Inv(EditorBegun(d, slot))
  {
    hide Inv, EditorCancelled, SessionOver, JobsInv, EditorInv, NoneCurrent;
    InvFacts(d);
    var c := EditorCancelled(d, d.editor.session);
    CancelKeeps(d, d.editor.session);
    if !c.stopped && !c.slots[slot].loading {
      InvFacts(c);
      var session := c.names.session + 1;
      var e := c.(names := c.names.(session := session));
      NextSessionKeeps(c);
      EditorChange(e, Editor(session, slot, c.slots[slot].generation, false));
    }
  }

  // The job an editor session waited for is gone.
  lemma {:induction false} FinishEditorKeeps(d: Desk, session: nat, success: bool)
    requires Inv(d) && SessionOver(d.jobs, session)
    ensures Inv(EditorFinished(d, session, success))
  {
    var e := d.(editor := d.editor.(saving := false));
    if session != 0 && session == d.editor.session {
      assert Inv(e) by { hide Accounted, LoadingInv, JobsInv, AssetsOf; }
      CancelKeeps(e, session);
    }
    hide Inv, EditorCancelled;
  }

  lemma {:induction false} ClearKeepsFiles(d: Desk, slot: nat)
    requires Inv(d) && slot < SLOTS
    ensures var r := SlotCleared(d, slot, true);
      Accounted(r.files, r.slots, r.jobs, r.names.asset) && r.bank == AssetsOf(r.slots)
  {
    hide Accounted, LoadingInv, JobsInv, EditorInv;
    var r := SlotCleared(d, slot, true);
    assert Holding(d.slots, d.jobs, OfSlot(slot)) == d.slots[slot].asset;
    ReleaseKeeps(d.files, d.slots, d.jobs, d.names.asset, OfSlot(slot), r.slots, r.jobs);
  }

  lemma {:induction false} ClearKeeps(d: Desk, slot: nat, saved: bool)
    requires Inv(d) && slot < SLOTS
    ensures Inv(SlotCleared(d, slot, saved))
  {
    var r := SlotCleared(d, slot, saved);
    if saved {
      ClearKeepsFiles(d, slot);
      BumpKeepsJobs(d, slot, r.slots[slot]);
    } else {
      BumpKeeps(d, slot, r.slots[slot]);
    }
    hide Accounted, LoadingInv, JobsInv, EditorInv, AssetsOf;
  }

  lemma {:induction false} ClearEditorKeeps(d: Desk, saved: bool)
    requires Inv(d)
    ensures Inv(EditorCleared(d, saved))
  {
    if EditorValid(d) && !d.editor.saving {
      var slot := d.editor.slot;
      var e := SlotCleared(d, slot, saved);
      ClearKeeps(d, slot, saved);
      var f := e.(editor := e.editor.(generation := e.slots[slot].generation));
      assert Inv(f) && SessionOver(f.jobs, d.editor.session) by {
        hide Accounted, LoadingInv, JobsInv, AssetsOf;
      }
      FinishEditorKeeps(f, d.editor.session, saved);
    }
    hide Inv, SlotCleared, EditorFinished;
  }

  // The jobs with only an outcome changed.
  function WithOutcome(jobs: map<nat, Job>, id: nat, outcome: Outcome): map<nat, Job>
    requires id in jobs
  {
    jobs[id := jobs[id].(outcome := outcome)]
  }

  lemma {:induction false} OutcomeKeepsJobs(slots: seq<Slot>, jobs: map<nat, Job>, nextJob: nat, id: nat,
                                            outcome: Outcome)
    requires id in jobs && JobsInv(slots, jobs, nextJob)
    requires OutcomeAsset(outcome).Some? ==> jobs[id].imported
    ensures JobsInv(slots, WithOutcome(jobs, id, outcome), nextJob)
  {
  }

  lemma {:induction false} OutcomeKeepsEditor(slots: seq<Slot>, jobs: map<nat, Job>, editor: Editor,
                                              lastSession: nat, id: nat, outcome: Outcome)
    requires id in jobs && EditorInv(slots, jobs, editor, lastSession)
    ensures EditorInv(slots, WithOutcome(jobs, id, outcome), editor, lastSession)
  {
  }

  lemma {:induction false} OutcomeKeepsLoading(slots: seq<Slot>, jobs: map<nat, Job>, id: nat, outcome: Outcome)
    requires id in jobs && LoadingInv(slots, jobs)
    ensures LoadingInv(slots, WithOutcome(jobs, id, outcome))
  {
    var after := WithOutcome(jobs, id, outcome);
    forall i | 0 <= i < |slots| && slots[i].loading
      ensures exists j :: j in after && after[j].slot == i && Current(slots, after[j])
    {
      var j :| j in jobs && jobs[j].slot == i && Current(slots, jobs[j]);
      assert Current(slots, after[j]);
    }
  }

  lemma {:induction false} WorkerKeepsFiles(d: Desk, id: nat, works: bool)
    requires Inv(d) && id in d.jobs
    ensures var r := WorkerDone(d, id, works); Accounted(r.files, r.slots, r.jobs, r.names.asset)
  {
    hide Accounted, JobsInv, EditorInv, LoadingInv, AssetsOf;
    var r := WorkerDone(d, id, works);
    assert forall o :: o != OfJob(id) ==> Holding(r.slots, r.jobs, o) == Holding(d.slots, d.jobs, o);
    if r.names != d.names {
      AcquireKeeps(d.files, d.slots, d.jobs, d.names.asset, OfJob(id), r.slots, r.jobs);
    } else {
      SameKeeps(d.files, d.slots, d.jobs, d.names.asset, r.slots, r.jobs);
    }
  }

  lemma {:induction false} WorkerKeeps(d: Desk, id: nat, works: bool)
    requires Inv(d) && id in d.jobs
    ensures Inv(WorkerDone(d, id, works))
  {
    if !d.jobs[id].outcome.Running? {
      return;
    }
    hide Accounted, JobsInv, EditorInv, LoadingInv, AssetsOf;
    var r := WorkerDone(d, id, works);
    WorkerKeepsFiles(d, id, works);
    var outcome := r.jobs[id].outcome;
    assert r.jobs == WithOutcome(d.jobs, id, outcome);
    OutcomeKeepsJobs(d.slots, d.jobs, d.names.job, id, outcome);
    OutcomeKeepsEditor(d.slots, d.jobs, d.editor, d.names.session, id, outcome);
    if !d.stopped {
      OutcomeKeepsLoading(d.slots, d.jobs, id, outcome);
    }
  }

  // ---- A job ends ------------------------------------------------------------------------

  // The slots differ in nothing that ties them to jobs.
  predicate SameGenerations(slots: seq<Slot>, after: seq<Slot>)
  {
    |after| == |slots| && forall i :: 0 <= i < |slots| ==> after[i].generation == slots[i].generation
  }

  lemma {:induction false} DropKeepsJobs(slots: seq<Slot>, jobs: map<nat, Job>, editor: Editor, nextJob: nat,
                                         lastSession: nat, id: nat, after: seq<Slot>)
    requires id in jobs && JobsInv(slots, jobs, nextJob) && EditorInv(slots, jobs, editor, lastSession)
    requires SameGenerations(slots, after)
    ensures JobsInv(after, jobs - {id}, nextJob) && EditorInv(after, jobs - {id}, editor, lastSession)
    ensures SessionOver(jobs - {id}, jobs[id].session)
  {
  }

  lemma {:induction false} DropKeepsLoading(slots: seq<Slot>, jobs: map<nat, Job>, nextJob: nat, id: nat,
                                            after: seq<Slot>)
    requires id in jobs && JobsInv(slots, jobs, nextJob) && LoadingInv(slots, jobs) && SameGenerations(slots, after)
    requires forall i :: 0 <= i < |slots| ==>
      after[i].loading == (slots[i].loading && !(i == jobs[id].slot && Current(slots, jobs[id])))
    ensures LoadingInv(after, jobs - {id})
  {
    var left := jobs - {id};
    forall j | j in left && Current(after, left[j]) ensures after[left[j].slot].loading {
      assert Current(slots, jobs[j]);
    }
    forall i | 0 <= i < |after| && after[i].loading
      ensures exists j :: j in left && left[j].slot == i && Current(after, left[j])
    {
      var j :| j in jobs && jobs[j].slot == i && Current(slots, jobs[j]);
      assert j in left && Current(after, left[j]);
    }
  }

  // A job goes away with its file, and its slot's "loading" with it.
  function Dropped(d: Desk, id: nat): (r: Desk)
    requires Shaped(d) && id in d.jobs
    ensures Shaped(r)
  {
    var job := d.jobs[id];
    d.(jobs := d.jobs - {id}, files := Removed(d.files, OutcomeAsset(job.outcome)),
       slots := if Current(d.slots, job) then d.slots[job.slot := d.slots[job.slot].(loading := false)] else d.slots)
  }

  lemma {:induction false} DroppedKeeps(d: Desk, id: nat)
    requires Inv(d) && id in d.jobs && !d.stopped
    ensures Inv(Dropped(d, id)) && SessionOver(Dropped(d, id).jobs, d.jobs[id].session)
  {
    hide Accounted, JobsInv, EditorInv, LoadingInv;
    var r := Dropped(d, id);
    assert AssetsOf(r.slots) == AssetsOf(d.slots);
    ReleaseKeeps(d.files, d.slots, d.jobs, d.names.asset, OfJob(id), r.slots, r.jobs);
    DropKeepsJobs(d.slots, d.jobs, d.editor, d.names.job, d.names.session, id, r.slots);
    DropKeepsLoading(d.slots, d.jobs, d.names.job, id, r.slots);
  }

  // After shutdown, a late callback finds nothing to do but clean up.
  lemma {:induction false} StoppedDropKeeps(d: Desk, id: nat)
    requires Inv(d) && id in d.jobs && d.stopped
    ensures var r := d.(jobs := d.jobs - {id}, files := Removed(d.files, OutcomeAsset(d.jobs[id].outcome)));
      Inv(r) && SessionOver(r.jobs, d.jobs[id].session)
  {
    hide Accounted, JobsInv, EditorInv, LoadingInv, AssetsOf;
    ReleaseKeeps(d.files, d.slots, d.jobs, d.names.asset, OfJob(id), d.slots, d.jobs - {id});
    DropKeepsJobs(d.slots, d.jobs, d.editor, d.names.job, d.names.session, id, d.slots);
  }

  // A finished job becomes its slot.
  function Committed(d: Desk, id: nat): (r: Desk)
    requires Shaped(d) && id in d.jobs
    ensures Shaped(r)
  {
    var job := d.jobs[id];
    var slot := d.slots[job.slot];
    var now := Slot(if job.imported then OutcomeAsset(job.outcome) else slot.asset, job.content, job.generation, false);
    var gone := if job.imported && slot.asset != now.asset then slot.asset else None;
    BankSaved(d.(slots := d.slots[job.slot := now], jobs := d.jobs - {id}), true).(files := Removed(d.files, gone))
  }

  lemma {:induction false} CommittedKeepsFiles(d: Desk, id: nat)
    requires Inv(d) && id in d.jobs
    ensures var r := Committed(d, id); Accounted(r.files, r.slots, r.jobs, r.names.asset)
  {
    var r, job := Committed(d, id), d.jobs[id];
    var slot := d.slots[job.slot];
    var asset := OutcomeAsset(job.outcome);
    assert asset.Some? ==> job.imported;
    hide Accounted, JobsInv, EditorInv, LoadingInv, AssetsOf;
    if job.imported {
      var emptied := d.slots[job.slot := slot.(asset := None)];
      OwnersDiffer(d.files, d.slots, d.jobs, d.names.asset, OfSlot(job.slot), OfJob(id));
      ReleaseKeeps(d.files, d.slots, d.jobs, d.names.asset, OfSlot(job.slot), emptied, d.jobs);
      PassKeeps(Removed(d.files, slot.asset), emptied, d.jobs, d.names.asset, OfJob(id), OfSlot(job.slot),
                r.slots, r.jobs);
    } else {
      SameKeeps(d.files, d.slots, d.jobs, d.names.asset, r.slots, r.jobs);
    }
  }

  lemma OwnersDiffer(files: set<nat>, slots: seq<Slot>, jobs: map<nat, Job>, next: nat, o: Owner, p: Owner)
    requires Accounted(files, slots, jobs, next) && o != p
    ensures Holding(slots, jobs, o).Some? ==> Holding(slots, jobs, o) != Holding(slots, jobs, p)
  {
  }

  lemma {:induction false} CommittedKeeps(d: Desk, id: nat)
    requires Inv(d) && id in d.jobs && !d.stopped && Current(d.slots, d.jobs[id])
    ensures Inv(Committed(d, id)) && SessionOver(Committed(d, id).jobs, d.jobs[id].session)
  {
    hide Accounted, JobsInv, EditorInv, LoadingInv, AssetsOf;
    var r := Committed(d, id);
    CommittedKeepsFiles(d, id);
    DropKeepsJobs(d.slots, d.jobs, d.editor, d.names.job, d.names.session, id, r.slots);
    DropKeepsLoading(d.slots, d.jobs, d.names.job, id, r.slots);
  }

  // A job that is not superseded is current, and a current job is superseded only by shutdown.
  lemma {:induction false} SupersededMeans(d: Desk, id: nat)
    requires Inv(d) && id in d.jobs
    ensures Superseded(d, d.jobs[id]) <==> d.stopped || !Current(d.slots, d.jobs[id])
    ensures OutcomeAsset(d.jobs[id].outcome).Some? ==> d.jobs[id].imported
  {
    hide Accounted, LoadingInv, AssetsOf;
  }

  /** A finished job is dropped with its file, or committed; whichever it is, the editor that
      waited for it is told. */
  lemma {:induction false} JobFinishedIs(d: Desk, id: nat, fits: bool, saved: bool)
    requires Inv(d) && id in d.jobs && !d.jobs[id].outcome.Running?
    ensures var job := d.jobs[id];
      JobFinished(d, id, fits, saved) ==
      if d.stopped then
        EditorFinished(d.(jobs := d.jobs - {id}, files := Removed(d.files, OutcomeAsset(job.outcome))),
                       job.session, false)
      else if Current(d.slots, job) && job.outcome.Loaded? && fits && saved
      then EditorFinished(Committed(d, id), job.session, true)
      else EditorFinished(Dropped(d, id), job.session, false)
  {
    SupersededMeans(d, id);
    InvFacts(d);
    hide Inv, AssetsOf, EditorFinished, Superseded, SessionOver, EditorInv;
  }

  lemma {:induction false} JobFinishedKeeps(d: Desk, id: nat, fits: bool, saved: bool)
    requires Inv(d) && id in d.jobs
    ensures Inv(JobFinished(d, id, fits, saved))
  {
    var job := d.jobs[id];
    if !job.outcome.Running? {
      JobFinishedIs(d, id, fits, saved);
      hide Inv, EditorFinished, Committed, Dropped, JobFinished;
      if d.stopped {
        StoppedDropKeeps(d, id);
        FinishEditorKeeps(d.(jobs := d.jobs - {id}, files := Removed(d.files, OutcomeAsset(job.outcome))),
                          job.session, false);
      } else if Current(d.slots, job) && job.outcome.Loaded? && fits && saved {
        CommittedKeeps(d, id);
        FinishEditorKeeps(Committed(d, id), job.session, true);
      } else {
        DroppedKeeps(d, id);
        FinishEditorKeeps(Dropped(d, id), job.session, false);
      }
    }
  }

  // ---- Shutdown --------------------------------------------------------------------------

  lemma {:induction false} AllReleasedKeeps(files: set<nat>, slots: seq<Slot>, jobs: map<nat, Job>, next: nat)
    requires Accounted(files, slots, jobs, next)
    ensures Accounted(files - LeftOver(jobs), slots, map[], next)
  {
    var left := files - LeftOver(jobs);
    forall a | a in left ensures exists o :: Holding(slots, map[], o) == Some(a) {
      var o :| Holding(slots, jobs, o) == Some(a);
      assert o.OfSlot?;
      assert Holding(slots, map[], o) == Some(a);
    }
    forall o | Holding(slots, map[], o).Some? ensures Holding(slots, map[], o).value in left {
      var a := Holding(slots, map[], o).value;
      assert o.OfSlot? && Holding(slots, jobs, o) == Some(a);
      assert forall id :: id in jobs ==> Holding(slots, jobs, OfJob(id)) != Some(a);
    }
    assert forall o, p :: Holding(slots, map[], o).Some? && Holding(slots, map[], o) == Holding(slots, map[], p) ==>
      Holding(slots, jobs, o) == Holding(slots, map[], o) && Holding(slots, jobs, p) == Holding(slots, jobs, o);
  }

  lemma {:induction false} ShutDownKeeps(d: Desk)
    requires Inv(d)
    ensures Inv(ShutDown(d))
  {
    if !d.stopped {
      var e := EditorCancelled(d, d.editor.session);
      CancelKeeps(d, d.editor.session);
      hide EditorCancelled;
      DropAllKeeps(e);
    }
  }

  lemma {:induction false} DropAllKeeps(d: Desk)
    requires Inv(d)
    ensures Inv(d.(stopped := true, jobs := map[], files := d.files - LeftOver(d.jobs)))
  {
    AllReleasedKeeps(d.files, d.slots, d.jobs, d.names.asset);
    hide Accounted, LoadingInv, AssetsOf, LeftOver;
  }

  // ---- Whole runs --------------------------------------------------------------------------

  datatype Action =
    | LoadFile(slot: nat, content: nat)
    | CaptureDeck(slot: nat, content: nat)
    | Edit(slot: nat, content: nat)
    | BeginEditor(slot: nat)
    | CancelEditor(session: nat)
    | ApplyEditor(content: nat, otherSource: bool)
    | ClearEditor(saved: bool)
    | Clear(slot: nat, saved: bool)
    | SaveBank(saved: bool)
    | Work(id: nat, works: bool)
    | Finish(id: nat, fits: bool, saved: bool)
    | ShutItDown

  predicate Enabled(d: Desk, a: Action)
    requires Shaped(d)
  {
    match a
    case LoadFile(slot, _) => slot < SLOTS && !d.stopped
    case CaptureDeck(slot, _) => slot < SLOTS
    case Edit(slot, _) => slot < SLOTS && d.slots[slot].asset.Some? && !d.slots[slot].loading
    case BeginEditor(slot) => slot < SLOTS
    case CancelEditor(_) => true
    case ApplyEditor(_, _) => true
    case ClearEditor(_) => true
    case Clear(slot, _) => slot < SLOTS
    case SaveBank(_) => true
    case Work(id, _) => id in d.jobs
    case Finish(id, _, _) => id in d.jobs && !d.jobs[id].outcome.Running?
    case ShutItDown => true
  }

  function Step(d: Desk, a: Action): (r: Desk)
    requires Shaped(d) && Enabled(d, a)
    ensures Shaped(r)
  {
    match a
    case LoadFile(slot, content) => LoadBegun(d, slot, content, true, 0)
    case CaptureDeck(slot, content) => LoadBegun(d, slot, content, true, 0)
    case Edit(slot, content) => LoadBegun(d, slot, content, false, 0)
    case BeginEditor(slot) => EditorBegun(d, slot)
    case CancelEditor(session) => EditorCancelled(d, session)
    case ApplyEditor(content, otherSource) => EditorApplied(d, content, otherSource)
    case ClearEditor(saved) => EditorCleared(d, saved)
    case Clear(slot, saved) => SlotCleared(d, slot, saved)
    case SaveBank(saved) => BankSaved(d, saved)
    case Work(id, works) => WorkerDone(d, id, works)
    case Finish(id, fits, saved) => JobFinished(d, id, fits, saved)
    case ShutItDown => ShutDown(d)
  }

  lemma {:induction false} StepKeeps(d: Desk, a: Action)
    requires Inv(d) && Enabled(d, a)
    ensures Inv(Step(d, a))
  {
    InvFacts(d);
    SaveKeeps(d);
    hide Inv, LoadBegun, EditorBegun, EditorCancelled, EditorApplied, EditorCleared, SlotCleared, WorkerDone,
      JobFinished, ShutDown, BankSaved;
    if a.LoadFile? || a.CaptureDeck? {
      LoadKeeps(d, a.slot, a.content, true);
    } else if a.Edit? {
      LoadKeeps(d, a.slot, a.content, false);
    } else if a.BeginEditor? {
      BeginEditorKeeps(d, a.slot);
    } else if a.CancelEditor? {
      CancelKeeps(d, a.session);
    } else if a.ApplyEditor? {
      ApplyKeeps(d, a.content, a.otherSource);
    } else if a.ClearEditor? {
      ClearEditorKeeps(d, a.saved);
    } else if a.Clear? {
      ClearKeeps(d, a.slot, a.saved);
    } else if a.Work? {
      WorkerKeeps(d, a.id, a.works);
    } else if a.Finish? {
      JobFinishedKeeps(d, a.id, a.fits, a.saved);
    } else if a.ShutItDown? {
      ShutDownKeeps(d);
    }
  }

  lemma SaveKeeps(d: Desk)
    requires Inv(d)
    ensures BankSaved(d, true) == d && BankSaved(d, false) == d
  {
    hide Accounted, JobsInv, EditorInv, LoadingInv;
  }

  // A restored bank names distinct assets, all of which are there; nothing else is.
  ghost predicate Initial(d: Desk)
  {
    && Shaped(d) && d.jobs == map[] && d.bank == AssetsOf(d.slots) && !d.stopped
    && d.editor.session == 0 && !d.editor.saving && d.editor.generation == 0
    && (forall i :: 0 <= i < SLOTS ==> !d.slots[i].loading)
    && (forall i :: 0 <= i < SLOTS && d.slots[i].asset.Some? ==> d.slots[i].asset.value in d.files)
    && (forall i, j :: 0 <= i < j < SLOTS && d.slots[i].asset.Some? ==> d.slots[i].asset != d.slots[j].asset)
    && (forall a :: a in d.files ==> a < d.names.asset && exists i :: 0 <= i < SLOTS && d.slots[i].asset == Some(a))
  }

  lemma {:induction false} InitialInv(d: Desk)
    requires Initial(d)
    ensures Inv(d)
  {
    forall a | a in d.files ensures exists o :: Holding(d.slots, d.jobs, o) == Some(a) {
      var i :| 0 <= i < SLOTS && d.slots[i].asset == Some(a);
      assert Holding(d.slots, d.jobs, OfSlot(i)) == Some(a);
    }
  }

  ghost predicate Reachable(run: seq<Desk>, actions: seq<Action>)
  {
    && |run| == |actions| + 1 && Initial(run[0])
    && forall k :: 0 <= k < |actions| ==>
         Shaped(run[k]) && Enabled(run[k], actions[k]) && run[k + 1] == Step(run[k], actions[k])
  }

  lemma {:induction false} RunKeeps(run: seq<Desk>, actions: seq<Action>, k: nat)
    requires Reachable(run, actions) && k < |run|
    ensures Inv(run[k])
  {
    hide Inv, Step, Enabled, Initial;
    if k == 0 {
      InitialInv(run[0]);
    } else {
      RunKeeps(run, actions, k - 1);
      StepKeeps(run[k - 1], actions[k - 1]);
    }
  }

  /** At every step each asset file is named by exactly one slot or owned by exactly one
      unfinished job, no owned file is missing, and the saved bank names the slots' assets. */
  lemma {:induction false} FilesHaveOneOwner(run: seq<Desk>, actions: seq<Action>, k: nat)
    requires Reachable(run, actions) && k < |run|
    ensures var d := run[k];
      && (forall a :: a in d.files <==> exists o :: Holding(d.slots, d.jobs, o) == Some(a))
      && (forall o, p :: Holding(d.slots, d.jobs, o).Some? && Holding(d.slots, d.jobs, o) == Holding(d.slots, d.jobs, p)
            ==> o == p)
      && d.bank == AssetsOf(d.slots)
  {
    RunKeeps(run, actions, k);
    hide Holding, JobsInv, EditorInv, LoadingInv;
  }

  /** Right after shutdown exactly the slots' assets are left on disk. */
  lemma {:induction false} ShutdownLeavesNoOrphans(run: seq<Desk>, actions: seq<Action>, k: nat, a: nat)
    requires Reachable(run, actions) && k < |actions| && actions[k] == ShutItDown && !run[k].stopped
    ensures var d := run[k + 1]; a in d.files <==> exists i :: 0 <= i < |d.slots| && d.slots[i].asset == Some(a)
  {
    RunKeeps(run, actions, k + 1);
    assert run[k + 1] == Step(run[k], actions[k]);
    var d := run[k + 1];
    hide JobsInv, EditorInv, LoadingInv, EditorCancelled, LeftOver;
    assert d.jobs == map[];
    if a in d.files {
      var o :| Holding(d.slots, d.jobs, o) == Some(a);
      assert o.OfSlot? && d.slots[o.slot].asset == Some(a);
    }
    if i :| 0 <= i < |d.slots| && d.slots[i].asset == Some(a) {
      assert Holding(d.slots, d.jobs, OfSlot(i)) == Some(a);
    }
  }

  /** No slot stays "loading" without a job that will end it. */
  lemma {:induction false} LoadingEnds(run: seq<Desk>, actions: seq<Action>, k: nat, slot: nat)
    requires Reachable(run, actions) && k < |run| && slot < SLOTS && !run[k].stopped
    ensures |run[k].slots| == SLOTS
    ensures run[k].slots[slot].loading <==>
      exists id :: id in run[k].jobs && run[k].jobs[id].slot == slot && Current(run[k].slots, run[k].jobs[id])
  {
    RunKeeps(run, actions, k);
    hide Accounted, JobsInv, EditorInv, AssetsOf;
  }

  // ---- Late jobs ---------------------------------------------------------------------------

  lemma FinishEditorKeepsSlots(d: Desk, session: nat, success: bool)
    requires Shaped(d)
    ensures EditorFinished(d, session, success).slots == d.slots && EditorFinished(d, session, success).jobs == d.jobs
  {
  }

  /** A job that ends after its slot moved on changes no slot at all; one that ends in time
      changes no other slot. */
  lemma {:induction false} FinishTouches(d: Desk, id: nat, fits: bool, saved: bool, slot: nat)
    requires Inv(d) && id in d.jobs && slot < SLOTS
    requires slot != d.jobs[id].slot || !Current(d.slots, d.jobs[id])
    ensures JobFinished(d, id, fits, saved).slots[slot] == d.slots[slot]
  {
    var job := d.jobs[id];
    if !job.outcome.Running? {
      JobFinishedIs(d, id, fits, saved);
      hide Inv, EditorFinished, JobFinished;
      FinishEditorKeepsSlots(d.(jobs := d.jobs - {id}, files := Removed(d.files, OutcomeAsset(job.outcome))),
                             job.session, false);
      FinishEditorKeepsSlots(Committed(d, id), job.session, true);
      FinishEditorKeepsSlots(Dropped(d, id), job.session, false);
    }
  }

  // Everything but a completion that changes a slot gives it a new generation.
  lemma {:induction false} StepMovesOn(d: Desk, a: Action, slot: nat)
    requires Inv(d) && Enabled(d, a) && slot < SLOTS
    ensures d.slots[slot].generation <= Step(d, a).slots[slot].generation
    ensures !a.Finish? && Step(d, a).slots[slot].generation == d.slots[slot].generation ==>
      Step(d, a).slots[slot] == d.slots[slot]
  {
    if a.Finish? {
      if slot == d.jobs[a.id].slot && Current(d.slots, d.jobs[a.id]) {
        FinishKeepsGeneration(d, a.id, a.fits, a.saved, slot);
      } else {
        FinishTouches(d, a.id, a.fits, a.saved, slot);
      }
      hide JobFinished;
    }
    hide Accounted, JobsInv, EditorInv, LoadingInv, AssetsOf, LeftOver;
  }

  lemma {:induction false} FinishKeepsGeneration(d: Desk, id: nat, fits: bool, saved: bool, slot: nat)
    requires Inv(d) && id in d.jobs && slot < SLOTS && Current(d.slots, d.jobs[id])
    ensures JobFinished(d, id, fits, saved).slots[slot].generation == d.slots[slot].generation
  {
    var job := d.jobs[id];
    if !job.outcome.Running? {
      JobFinishedIs(d, id, fits, saved);
      hide Inv, EditorFinished, JobFinished;
      FinishEditorKeepsSlots(d.(jobs := d.jobs - {id}, files := Removed(d.files, OutcomeAsset(job.outcome))),
                             job.session, false);
      FinishEditorKeepsSlots(Committed(d, id), job.session, true);
      FinishEditorKeepsSlots(Dropped(d, id), job.session, false);
    }
  }

  lemma {:induction false} FinishRemoves(d: Desk, id: nat, fits: bool, saved: bool)
    requires Inv(d) && id in d.jobs && !d.jobs[id].outcome.Running?
    ensures JobFinished(d, id, fits, saved).jobs == d.jobs - {id}
  {
    var job := d.jobs[id];
    JobFinishedIs(d, id, fits, saved);
    hide Inv, EditorFinished, JobFinished;
    FinishEditorKeepsSlots(d.(jobs := d.jobs - {id}, files := Removed(d.files, OutcomeAsset(job.outcome))),
                           job.session, false);
    FinishEditorKeepsSlots(Committed(d, id), job.session, true);
    FinishEditorKeepsSlots(Dropped(d, id), job.session, false);
  }

  // A job keeps its slot and generation for as long as it is there.
  lemma {:induction false} JobStays(d: Desk, a: Action, id: nat)
    requires Inv(d) && Enabled(d, a) && id in d.jobs && id in Step(d, a).jobs
    ensures Step(d, a).jobs[id].slot == d.jobs[id].slot && Step(d, a).jobs[id].generation == d.jobs[id].generation
    ensures a.Finish? ==> a.id != id
  {
    InvFacts(d);
    hide Inv, AssetsOf, LeftOver, EditorInv, SessionOver;
    if a.Finish? {
      FinishRemoves(d, a.id, a.fits, a.saved);
      hide JobFinished;
    } else {
      StepAddsJobs(d, a, id);
    }
  }

  // Other steps leave a job alone, except that its worker may finish.
  lemma {:induction false} StepAddsJobs(d: Desk, a: Action, id: nat)
    requires Shaped(d) && Enabled(d, a) && !a.Finish? && id in d.jobs && id in Step(d, a).jobs && d.names.job !in d.jobs
    ensures Step(d, a).jobs[id].(outcome := d.jobs[id].outcome) == d.jobs[id]
  {
    hide AssetsOf, LeftOver, Removed;
  }

  // While a job is current its slot does not change.
  lemma {:induction false} CurrentSlotIsUntouched(d: Desk, a: Action, id: nat)
    requires Inv(d) && Enabled(d, a) && id in d.jobs && Current(d.slots, d.jobs[id])
    requires id in Step(d, a).jobs && Current(Step(d, a).slots, Step(d, a).jobs[id])
    ensures Step(d, a).slots[d.jobs[id].slot] == d.slots[d.jobs[id].slot]
  {
    var slot := d.jobs[id].slot;
    JobStays(d, a, id);
    StepMovesOn(d, a, slot);
    if a.Finish? {
      OneCurrent(d, id, a.id);
      FinishTouches(d, a.id, a.fits, a.saved, slot);
    }
    hide Inv, EditorBegun, EditorCancelled, EditorApplied, EditorCleared, SlotCleared, WorkerDone, JobFinished,
      ShutDown, BankSaved, LoadBegun;
  }

  lemma {:induction false} OneCurrent(d: Desk, i: nat, j: nat)
    requires Inv(d) && i in d.jobs && j in d.jobs && i != j && Current(d.slots, d.jobs[i])
    ensures d.jobs[j].slot != d.jobs[i].slot || !Current(d.slots, d.jobs[j])
  {
    hide Accounted, EditorInv, LoadingInv, AssetsOf;
  }

  // The job is there from step j + 1 to step k.
  ghost predicate Pending(run: seq<Desk>, id: nat, j: nat, k: nat)
    requires k < |run|
  {
    forall i :: j < i <= k ==> id in run[i].jobs
  }

  lemma {:induction false} PendingSlot(run: seq<Desk>, actions: seq<Action>, j: nat, k: nat, id: nat)
    requires Reachable(run, actions) && j < k < |run| && Pending(run, id, j, k)
    ensures run[k].jobs[id].slot == run[j + 1].jobs[id].slot < SLOTS
    ensures run[k].jobs[id].generation == run[j + 1].jobs[id].generation
    ensures Shaped(run[k]) && Shaped(run[j + 1])
    ensures Current(run[k].slots, run[k].jobs[id]) ==>
      run[k].slots[run[k].jobs[id].slot] == run[j + 1].slots[run[k].jobs[id].slot]
  {
    RunKeeps(run, actions, k);
    if k > j + 1 {
      PendingSlot(run, actions, j, k - 1, id);
      RunKeeps(run, actions, k - 1);
      var d, a := run[k - 1], actions[k - 1];
      assert Enabled(d, a) && run[k] == Step(d, a);
      hide Inv, Step, Enabled;
      JobStays(d, a, id);
      StillCurrent(d, a, id);
      if Current(run[k].slots, run[k].jobs[id]) {
        CurrentSlotIsUntouched(d, a, id);
      }
    }
    hide Inv, Step, Enabled;
  }

  lemma {:induction false} StillCurrent(d: Desk, a: Action, id: nat)
    requires Inv(d) && Enabled(d, a) && id in d.jobs && id in Step(d, a).jobs
    ensures Current(Step(d, a).slots, Step(d, a).jobs[id]) ==> Current(d.slots, d.jobs[id])
  {
    JobStays(d, a, id);
    StepMovesOn(d, a, d.jobs[id].slot);
    assert d.jobs[id].generation <= d.slots[d.jobs[id].slot].generation by {
      hide Accounted, EditorInv, LoadingInv, AssetsOf, Step;
    }
    hide Inv, Step;
  }

  /** A job that ends in time and succeeds becomes its slot, and the slot's old file goes. */
  lemma {:induction false} InTimeJobsCommit(d: Desk, id: nat)
    requires Inv(d) && id in d.jobs && !d.stopped && Current(d.slots, d.jobs[id]) && d.jobs[id].outcome.Loaded?
    ensures var job := d.jobs[id]; var r := JobFinished(d, id, true, true);
      && r.slots[job.slot].content == job.content && !r.slots[job.slot].loading
      && r.slots[job.slot].asset == (if job.imported then job.outcome.asset else d.slots[job.slot].asset)
      && r.bank == AssetsOf(r.slots)
      && (job.imported && d.slots[job.slot].asset.Some? ==> d.slots[job.slot].asset.value !in r.files)
  {
    var job := d.jobs[id];
    JobFinishedIs(d, id, true, true);
    OwnersDiffer(d.files, d.slots, d.jobs, d.names.asset, OfSlot(job.slot), OfJob(id));
    hide Inv, EditorFinished, JobFinished;
    FinishEditorKeepsDisk(Committed(d, id), job.session, true);
  }

  lemma FinishEditorKeepsDisk(d: Desk, session: nat, success: bool)
    requires Shaped(d)
    ensures var r := EditorFinished(d, session, success);
      r.slots == d.slots && r.files == d.files && r.bank == d.bank
  {
  }

  /** A job that was superseded or cancelled never changes its slot: if a completion changes a
      slot, that slot is exactly as it was when the job began. */
  lemma {:induction false} LateJobsChangeNothing(run: seq<Desk>, actions: seq<Action>, j: nat, k: nat, id: nat,
                                                 slot: nat)
    requires Reachable(run, actions) && j < k < |actions| && Pending(run, id, j, k)
    requires actions[k].Finish? && actions[k].id == id && slot < SLOTS
    ensures Shaped(run[k]) && Shaped(run[k + 1]) && Shaped(run[j + 1])
    ensures run[k + 1].slots[slot] != run[k].slots[slot] ==>
      slot == run[j + 1].jobs[id].slot && run[k].slots[slot] == run[j + 1].slots[slot]
  {
    PendingSlot(run, actions, j, k, id);
    RunKeeps(run, actions, k);
    var d, a := run[k], actions[k];
    assert Enabled(d, a) && run[k + 1] == Step(d, a);
    if slot != d.jobs[id].slot || !Current(d.slots, d.jobs[id]) {
      FinishTouches(d, id, a.fits, a.saved, slot);
    }
    hide Inv, JobFinished;
  }

  // ---- What each operation does ----------------------------------------------------------

  // Nothing but this slot changes in the slots.
  predicate OnlySlot(d: Desk, r: Desk, slot: nat)
  {
    |r.slots| == |d.slots| && forall i :: 0 <= i < |d.slots| && i != slot ==> r.slots[i] == d.slots[i]
  }

  // `after` are the files without this one.
  ghost predicate Without(files: set<nat>, after: set<nat>, gone: Option<nat>)
  {
    forall a :: a in after <==> a in files && gone != Some(a)
  }

  /** A cleared slot is empty: its asset is neither in it nor in the bank nor on disk. When the
      bank cannot be saved, the slot keeps all it shows. Either way it has moved on, and nothing
      else changes. */
  lemma {:induction false} ClearOutcome(d: Desk, slot: nat, saved: bool)
    requires Inv(d) && slot < SLOTS
    ensures var was, r := d.slots[slot], Step(d, Clear(slot, saved));
      && r == d.(slots := r.slots, files := r.files, bank := r.bank) && OnlySlot(d, r, slot)
      && r.slots[slot].generation == was.generation + 1 && !r.slots[slot].loading
      && |r.bank| == SLOTS && (forall i :: 0 <= i < SLOTS && i != slot ==> r.bank[i] == d.slots[i].asset)
      && (saved ==> && r.slots[slot].asset.None? && r.slots[slot].content == 0 && r.bank[slot].None?
                    && Without(d.files, r.files, was.asset))
      && (!saved ==> && r.slots[slot].asset == was.asset && r.slots[slot].content == was.content
                     && r.files == d.files && r.bank == d.bank)
  {
    hide Accounted, JobsInv, EditorInv, LoadingInv;
  }

  // A job was begun: its slot shows "loading" and keeps the rest, and nothing else changes.
  predicate Begun(d: Desk, r: Desk, job: Job)
    requires Shaped(d) && job.slot < SLOTS
  {
    var was := d.slots[job.slot];
    && job.generation == was.generation + 1 && job.outcome.Running? && d.names.job !in d.jobs
    && r == d.(slots := d.slots[job.slot := was.(generation := was.generation + 1, loading := true)],
               jobs := d.jobs[d.names.job := job], names := d.names.(job := d.names.job + 1), editor := r.editor)
  }

  /** Loading a file and capturing a deck import a sample for the slot; an edit reads the slot's
      own asset again. */
  lemma {:induction false} LoadOutcome(d: Desk, a: Action)
    requires Inv(d) && Enabled(d, a) && (a.LoadFile? || a.CaptureDeck? || a.Edit?)
    ensures var r := Step(d, a);
      && Begun(d, r, Job(a.slot, d.slots[a.slot].generation + 1, !a.Edit?, 0, a.content, Running))
      && r.editor == d.editor
  {
    InvFacts(d);
    hide Inv, EditorInv, JobsInv, SessionOver;
  }

  // The editor waits for a job of the slot it was opened for.
  predicate Waits(d: Desk)
    requires Shaped(d)
  {
    d.editor.saving && d.slots[d.editor.slot].generation == d.editor.generation
  }

  /** Cancelling closes the editor of that session, and supersedes the job it waits for; no file,
      asset or content changes. */
  lemma {:induction false} CancelOutcome(d: Desk, session: nat)
    requires Inv(d)
    ensures var r := Step(d, CancelEditor(session));
      if session == 0 || session != d.editor.session then r == d
      else
        var slot, was := d.editor.slot, d.slots[d.editor.slot];
        && r == d.(slots := r.slots, editor := r.editor) && OnlySlot(d, r, slot)
        && r.editor.session == 0 && !r.editor.saving && r.editor.slot == slot
        && r.slots[slot] == (if Waits(d) then was.(generation := was.generation + 1, loading := false) else was)
        && forall id :: id in d.jobs && d.jobs[id].session == session ==> Superseded(r, d.jobs[id])
  {
    InvFacts(d);
    hide Inv, JobsInv, SessionOver;
  }

  /** Beginning an editor closes the one before and opens one for the slot as it is now, unless the
      controller stopped or the slot still shows "loading". */
  lemma {:induction false} BeginOutcome(d: Desk, slot: nat)
    requires Inv(d) && slot < SLOTS
    ensures var c, r := Step(d, CancelEditor(d.editor.session)), Step(d, BeginEditor(slot));
      && r == c.(editor := r.editor, names := r.names) && c.editor.session == 0
      && (r.editor.session != 0 <==> !d.stopped && !c.slots[slot].loading)
      && (r.editor.session != 0 ==>
            && EditorValid(r) && r.editor.slot == slot && !r.editor.saving
            && r.editor.session > d.names.session && r.names == d.names.(session := r.editor.session))
      && (r.editor.session == 0 ==> r == c)
  {
    CancelKeeps(d, d.editor.session);
    hide Inv, EditorCancelled, NoneCurrent;
  }

  /** Applying begins one job of the editor's session, and the editor waits for it; it does
      nothing when the slot has moved on or the editor waits already. Another source than the
      slot's own asset is imported. */
  lemma {:induction false} ApplyOutcome(d: Desk, content: nat, otherSource: bool)
    requires Inv(d)
    ensures var r, slot := Step(d, ApplyEditor(content, otherSource)), d.editor.slot;
      if !EditorValid(d) || d.editor.saving then r == d
      else
        var imported := d.slots[slot].asset.None? || otherSource;
        && Begun(d, r, Job(slot, d.slots[slot].generation + 1, imported, d.editor.session, content, Running))
        && r.editor.session == d.editor.session && r.editor.slot == slot && r.editor.saving && EditorValid(r)
  {
    InvFacts(d);
    hide Inv, EditorInv, JobsInv, SessionOver;
  }

  /** Clearing from the editor clears its slot and closes it; when the bank cannot be saved it
      stays open for the slot as it is. */
  lemma {:induction false} ClearEditorOutcome(d: Desk, saved: bool)
    requires Inv(d)
    ensures var r, slot := Step(d, ClearEditor(saved)), d.editor.slot;
      if !EditorValid(d) || d.editor.saving then r == d
      else
        && r == Step(d, Clear(slot, saved)).(editor := r.editor) && r.editor.slot == slot && !r.editor.saving
        && (if saved then r.editor.session == 0 else r.editor.session == d.editor.session && EditorValid(r))
  {
    InvFacts(d);
    hide Inv, EditorInv, JobsInv, SessionOver, AssetsOf;
  }

  /** A worker ends once. When it works and imported something it leaves a new file. */
  lemma {:induction false} WorkOutcome(d: Desk, id: nat, works: bool)
    requires Inv(d) && id in d.jobs
    ensures var job, r := d.jobs[id], Step(d, Work(id, works));
      if !job.outcome.Running? then r == d
      else
        var outcome := if !works then Failed else if job.imported then Loaded(Some(d.names.asset)) else Loaded(None);
        var file := OutcomeAsset(outcome);
        && r == d.(jobs := d.jobs[id := job.(outcome := outcome)], files := r.files, names := r.names)
        && (forall a :: a in r.files <==> a in d.files || file == Some(a))
        && (file.Some? ==> file.value !in d.files)
        && r.names == d.names.(asset := d.names.asset + (if file.Some? then 1 else 0))
  {
    hide JobsInv, EditorInv, LoadingInv, AssetsOf, Holding;
  }

  // What a completion does to the editor whose session the job has.
  predicate Told(before: Editor, after: Editor, session: nat, success: bool)
  {
    if session == 0 || session != before.session then after == before
    else after == before.(saving := false, session := if success then 0 else session)
  }

  // Whether a finished job becomes its slot.
  predicate Commits(d: Desk, job: Job, fits: bool, saved: bool)
  {
    !d.stopped && Current(d.slots, job) && job.outcome.Loaded? && fits && saved
  }

  // What a completion makes of slots, bank, jobs and files.
  ghost predicate Ended(d: Desk, r: Desk, id: nat, commits: bool)
    requires Shaped(d) && id in d.jobs
  {
    var job := d.jobs[id];
    var was := d.slots[job.slot];
    && r == d.(slots := r.slots, jobs := d.jobs - {id}, files := r.files, bank := r.bank) && OnlySlot(d, r, job.slot)
    && r.bank == AssetsOf(r.slots)
    && (if commits then
          && r.slots[job.slot] == Slot(if job.imported then OutcomeAsset(job.outcome) else was.asset, job.content,
                                       was.generation, false)
          && Without(d.files, r.files, if job.imported then was.asset else None)
        else
          && r.slots[job.slot] == (if !d.stopped && Current(d.slots, job) then was.(loading := false) else was)
          && Without(d.files, r.files, OutcomeAsset(job.outcome)))
  }

  /** What a completion does. A job of the slot's generation that worked, fits and can be saved
      becomes the slot and the bank, and the slot's old file goes; one that did not leaves the slot
      as it was, but no longer "loading"; and any other leaves all slots alone. A job that does
      not commit takes its own file with it. The editor that waited is told. */
  lemma {:induction false} FinishOutcome(d: Desk, id: nat, fits: bool, saved: bool)
    requires Inv(d) && id in d.jobs && !d.jobs[id].outcome.Running?
    ensures var r, commits := Step(d, Finish(id, fits, saved)), Commits(d, d.jobs[id], fits, saved);
      Ended(d, r.(editor := d.editor), id, commits) && Told(d.editor, r.editor, d.jobs[id].session, commits)
  {
    JobFinishedIs(d, id, fits, saved);
    var job := d.jobs[id];
    hide Inv, JobFinished, Ended, EditorFinished, Told, Removed;
    if d.stopped {
      StoppedEnds(d, id);
      FinishEditorOutcome(d.(jobs := d.jobs - {id}, files := Removed(d.files, OutcomeAsset(job.outcome))),
                          job.session, false);
    } else if Commits(d, job, fits, saved) {
      CommittedEnds(d, id);
      FinishEditorOutcome(Committed(d, id), job.session, true);
    } else {
      DroppedEnds(d, id);
      FinishEditorOutcome(Dropped(d, id), job.session, false);
    }
    hide Committed, Dropped, Current;
  }

  lemma {:induction false} StoppedEnds(d: Desk, id: nat)
    requires Inv(d) && id in d.jobs && d.stopped
    ensures Ended(d, d.(jobs := d.jobs - {id}, files := Removed(d.files, OutcomeAsset(d.jobs[id].outcome))), id, false)
  {
    hide Accounted, JobsInv, EditorInv, LoadingInv, AssetsOf;
  }

  lemma {:induction false} DroppedEnds(d: Desk, id: nat)
    requires Inv(d) && id in d.jobs && !d.stopped
    ensures Ended(d, Dropped(d, id), id, false) && Dropped(d, id).editor == d.editor
  {
    hide Accounted, JobsInv, EditorInv, LoadingInv;
    assert AssetsOf(Dropped(d, id).slots) == AssetsOf(d.slots);
  }

  lemma {:induction false} CommittedEnds(d: Desk, id: nat)
    requires Inv(d) && id in d.jobs && !d.stopped && Current(d.slots, d.jobs[id])
    ensures Ended(d, Committed(d, id), id, true) && Committed(d, id).editor == d.editor
  {
    OwnersDiffer(d.files, d.slots, d.jobs, d.names.asset, OfSlot(d.jobs[id].slot), OfJob(id));
    hide Accounted, EditorInv, LoadingInv, AssetsOf;
  }

  lemma {:induction false} FinishEditorOutcome(d: Desk, session: nat, success: bool)
    requires Shaped(d)
    ensures var r := EditorFinished(d, session, success);
      r == d.(editor := r.editor) && Told(d.editor, r.editor, session, success)
  {
  }

  /** Shutting down closes the editor and drops all jobs with their files, once. */
  lemma {:induction false} ShutdownOutcome(d: Desk)
    requires Inv(d)
    ensures var c, r := Step(d, CancelEditor(d.editor.session)), Step(d, ShutItDown);
      if d.stopped then r == d
      else
        && r == c.(stopped := true, jobs := map[], files := r.files) && r.editor.session == 0
        && forall a :: a in r.files <==> a in d.files && exists i :: 0 <= i < SLOTS && d.slots[i].asset == Some(a)
  {
    if !d.stopped {
      CancelKeeps(d, d.editor.session);
      var c := EditorCancelled(d, d.editor.session);
      assert c.files == d.files && forall i :: 0 <= i < SLOTS ==> c.slots[i].asset == d.slots[i].asset;
      hide EditorCancelled, JobsInv, EditorInv, LoadingInv, NoneCurrent, AssetsOf;
      LeftOverIsJobs(c);
    }
  }

  lemma {:induction false} LeftOverIsJobs(d: Desk)
    requires Inv(d)
    ensures forall a :: a in d.files - LeftOver(d.jobs) <==>
      a in d.files && exists i :: 0 <= i < SLOTS && d.slots[i].asset == Some(a)
  {
    hide JobsInv, EditorInv, LoadingInv, AssetsOf;
    forall a | a in d.files
      ensures a !in LeftOver(d.jobs) <==> exists i :: 0 <= i < SLOTS && d.slots[i].asset == Some(a)
    {
      var o :| Holding(d.slots, d.jobs, o) == Some(a);
      if o.OfSlot? {
        assert d.slots[o.slot].asset == Some(a);
        assert forall id :: id in d.jobs ==> Holding(d.slots, d.jobs, OfJob(id)) != Some(a);
      } else {
        assert forall i :: 0 <= i < SLOTS ==> Holding(d.slots, d.jobs, OfSlot(i)) == d.slots[i].asset;
        assert OutcomeAsset(d.jobs[o.job].outcome) == Some(a);
      }
    }
  }
}
