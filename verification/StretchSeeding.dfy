/**
 The handshake between the audio callback and the stretcher worker
 (TimeStretchProcessor): two pipelines, worker-side rebuilds, worker-side seeding with
 catch-up batches, and the direct bridge that plays while a seed is in flight.

 Each step performs at most one access to shared state; memory is sequentially
 consistent. The stretcher itself is a machine that records the frames it was fed
 since it was last reset.
 */
module StretchSeeding {

  import opened EmittedStream

  const HISTORY := 65536
  const MAX_PULL := 512

  datatype SlotState = Empty | Preparing | Prepared | Active
  datatype SeedState = Idle | Requested | Seeding | Seeded

  // Program points of one run of the audio callback, in program order: activation of a
  // prepared pipeline, the routing decision, the seed handshake, and a seed request.
  datatype CallbackPoint =
    | CbOutside
    | CbSeedCheck | CbWanted | CbScan | CbClaim | CbRefuse | CbSwap
    | CbPublishGeneration | CbMarkPending | CbRetire
    | CbDiscontinuity | CbDecide | CbFadeCheck | CbFade | CbOff | CbOffRender
    | CbPendingTest | CbSeedLoad | CbStamp | CbConsume | CbGoLive | CbLive | CbBridge
    | CbRequest | CbPublish

  // Program points of the worker loop: a seed job, then a rebuild.
  datatype WorkerPoint =
    | WkTop
    | WkGate | WkSlot | WkReset | WkFeed | WkDone
    | WkDesired | WkConfig | WkActive | WkCas | WkReclaim
    | WkPrepare | WkLatest | WkDrop | WkReady

  // Where the callback is, and its local variables there.
  datatype CallbackState = CallbackState(at: CallbackPoint, slot: int, prior: int, wanted: nat,
                                         seeded: bool, catchup: bool, request: bool, missed: nat)

  // `stopped` says that the worker was told to end while it waited with a seed job; it may
  // still take one rebuild before it does.
  datatype WorkerState = WorkerState(at: WorkerPoint, slot: int, offset: nat, config: nat, observed: nat,
                                     stopped: bool)

  // The seed job as the callback published it; `epoch` stands for the track, seek and
  // transport generations together.
  datatype SeedJob = SeedJob(state: SeedState, slot: int, snapshot: seq<Frame>, needsReset: bool,
                             end: nat, epoch: nat)

  // One value for each of the two pipelines.
  datatype Both<T> = Both(first: T, second: T) {
    function Get(i: int): T { if i == 0 then first else second }

    function Set(i: int, value: T): Both<T>
    {
      if i == 0 then Both(value, second) else Both(first, value)
    }
  }

  // The two pipelines, field by field: `readAhead` says that a pipeline is fed by a
  // read-ahead source instead of by the output history; `fed` is what its stretcher
  // received since its last reset.
  datatype Pipelines = Pipelines(config: Both<nat>, readAhead: Both<bool>, latency: Both<nat>,
                                 fed: Both<seq<Frame>>)

  // Fields that only the callback writes. `liveSlot` is the active slot once a seed of it
  // went live, and -1 from the moment another pipeline is swapped in.
  datatype Audio = Audio(emitted: seq<Frame>, playbackStart: nat, requireFresh: bool,
                         seedValid: bool, renderActive: bool, liveSlot: int)

  // Flags and counters that several threads write.
  datatype Flags = Flags(desired: nat, activeGeneration: nat, pending: bool, discontinuity: bool, epoch: nat)

  datatype State = State(slots: Both<SlotState>, active: int, pipes: Pipelines, job: SeedJob,
                         audio: Audio, flags: Flags, cb: CallbackState, wk: WorkerState)

  // The environment's choices. `flag` and `ok` stand for conditions decided outside the
  // handshake (keylock requested, playback active, resources available); `block` is the
  // rendered block, `input` what a live or read-ahead stretcher consumes.
  datatype Action =
    | Callback(flag: bool, ok: bool, block: seq<Frame>, input: seq<Frame>)
    | Worker(ok: bool, readAhead: bool, latency: nat)
    | RequestConfiguration
    | RaiseDiscontinuity
    | RaisePending
    | ChangeEpoch

  predicate Initial(s: State)
  {
    && 0 <= s.cb.slot < 2 && 0 <= s.wk.slot < 2
    && ((s.active == 0 && s.slots.Get(0).Active?) || (s.active == -1 && s.slots.Get(0).Empty?))
    && s.slots.Get(1).Empty?
    && s.job.state.Idle? && s.job.end == 0 && !s.audio.renderActive && s.audio.liveSlot == -1
    && s.audio.emitted == [] && s.audio.playbackStart == 0
    && s.cb.at.CbOutside? && s.wk.at.WkTop? && !s.wk.stopped
  }

  function Max(a: nat, b: nat): nat { if a < b then b else a }

  function Min(a: nat, b: nat): nat { if a < b then a else b }

  // ---- Steps of the callback -------------------------------------------------------

  function Goto(s: State, at: CallbackPoint): State
  {
    s.(cb := s.cb.(at := at))
  }

  function NextScan(cb: CallbackState): CallbackState
  {
    if cb.slot == 0 then cb.(at := CbScan, slot := 1) else cb.(at := CbDiscontinuity)
  }

  // activatePreparedPipelineAtBlockBoundary: look for a prepared slot, ...
  function ScanStep(s: State): State
  {
    var i := s.cb.slot;
    if s.cb.at.CbSeedCheck? then Goto(s, if s.job.state.Idle? then CbWanted else CbDiscontinuity)
    else if s.cb.at.CbWanted? then s.(cb := s.cb.(at := CbScan, slot := 0, wanted := s.flags.desired))
    else
      s.(cb := if s.slots.Get(i).Prepared? then s.cb.(at := CbClaim) else NextScan(s.cb))
  }

  // ... claim it, giving it back at once when it is outdated, ...
  function ClaimStep(s: State): State
  {
    var i := s.cb.slot;
    if s.cb.at.CbClaim? then
      var won := s.slots.Get(i).Prepared?;
      s.(slots := if won then s.slots.Set(i, Active) else s.slots,
         cb := if won then s.cb.(at := if s.pipes.config.Get(i) != s.cb.wanted then CbRefuse else CbSwap)
               else NextScan(s.cb))
    else s.(slots := s.slots.Set(i, Empty), cb := NextScan(s.cb))
  }

  // ... and hand over to it.
  function SwapStep(s: State): State
  {
    var i := s.cb.slot;
    if s.cb.at.CbSwap? then s.(active := i, audio := s.audio.(liveSlot := -1),
         cb := s.cb.(at := CbPublishGeneration, prior := s.active))
    else if s.cb.at.CbPublishGeneration? then
      s.(flags := s.flags.(activeGeneration := s.pipes.config.Get(i)), cb := s.cb.(at := CbMarkPending))
    else if s.cb.at.CbMarkPending? then s.(flags := s.flags.(pending := true), cb := s.cb.(at := CbRetire))
    else
      var p := s.cb.prior;
      s.(slots := if 0 <= p < 2 && p != i then s.slots.Set(p, Empty) else s.slots,
         cb := s.cb.(at := CbDiscontinuity))
  }

  function Fed(p: Pipelines, i: int, frames: seq<Frame>): Pipelines
  {
    p.(fed := p.fed.Set(i, p.fed.Get(i) + frames))
  }

  function Emitted(u: Audio, block: seq<Frame>): Audio
  {
    u.(emitted := u.emitted + block)
  }

  // getNextAudioBlock: how this block is going to be rendered
  function RoutingStep(s: State, flag: bool, ok: bool): State
  {
    if s.cb.at.CbOutside? then Goto(s, CbSeedCheck)
    else if s.cb.at.CbDiscontinuity? then
      s.(audio := if s.flags.discontinuity
                  then s.audio.(playbackStart := |s.audio.emitted|, requireFresh := true, seedValid := false)
                  else s.audio,
         flags := s.flags.(discontinuity := false), cb := s.cb.(at := CbDecide))
    else if s.cb.at.CbDecide? then
      s.(cb := if 0 <= s.active < 2 && flag then s.cb.(at := CbPendingTest, slot := s.active)
               else if 0 <= s.active < 2 && s.audio.renderActive && ok
               then s.cb.(at := CbFadeCheck, slot := s.active)
               else s.cb.(at := CbOff))
    else if s.cb.at.CbFadeCheck? then Goto(s, if s.flags.pending then CbOff else CbFade)
    else
      s.(audio := if s.flags.pending then s.audio.(seedValid := false, renderActive := false) else s.audio,
         flags := s.flags.(pending := false),
         cb := s.cb.(at := if s.audio.renderActive && !s.flags.pending then CbLive else CbSeedLoad))
  }

  // Blocks rendered through the stretcher, or direct with keylock off
  function RenderStep(s: State, flag: bool, ok: bool, block: seq<Frame>, input: seq<Frame>): State
  {
    if s.cb.at.CbFade? then
      s.(pipes := Fed(s.pipes, s.cb.slot, input), audio := Emitted(s.audio, block).(renderActive := flag),
         cb := s.cb.(at := CbOutside))
    else if s.cb.at.CbOff? then
      s.(audio := s.audio.(renderActive := false, seedValid := false),
         job := if s.job.state.Seeded? then s.job.(state := Idle) else s.job,
         cb := s.cb.(at := CbOffRender))
    else if s.cb.at.CbOffRender? then
      var u := Emitted(s.audio, block);
      s.(audio := if flag then u else u.(playbackStart := |u.emitted|, requireFresh := true),
         cb := s.cb.(at := CbOutside))
    // A failing read-ahead leaves the live path; the block is still emitted.
    else
      s.(pipes := Fed(s.pipes, s.cb.slot, input),
         audio := Emitted(s.audio, block).(renderActive := s.pipes.readAhead.Get(s.cb.slot) ==> ok),
         cb := s.cb.(at := CbOutside))
  }

  // What a stretcher is fed at first.
  function PreRoll(latency: nat): nat { Min(Max(4096, latency * 2), HISTORY) }

  /** A pre-roll is no shorter than 4096 frames and twice the latency, but for what the ring can hold. */
  lemma PreRollCovers(latency: nat)
    ensures PreRoll(latency) <= HISTORY && PreRoll(latency) >= 4096
    ensures PreRoll(latency) >= 2 * latency || PreRoll(latency) == HISTORY
    ensures PreRoll(latency) in {4096, 2 * latency, HISTORY}
  {
  }

  function SeedLength(latency: nat, catchup: nat): nat
  {
    if catchup == 0 || catchup > HISTORY then PreRoll(latency) else Min(catchup, HISTORY)
  }

  // The seed handshake
  function SeedStep(s: State, ok: bool): State
  {
    if s.cb.at.CbSeedLoad? then
      s.(cb := if s.job.state.Seeded? then s.cb.(at := CbStamp)
               else s.cb.(at := CbBridge, request := s.job.state.Idle?, catchup := false))
    else if s.cb.at.CbStamp? then
      // `ok` is the comparison of the track position at an unchanged output frame.
      var seeded := s.audio.seedValid && s.job.slot == s.cb.slot && s.flags.epoch == s.job.epoch
                    && (s.job.end == |s.audio.emitted| ==> ok);
      var current := s.job.end == |s.audio.emitted|;
      s.(cb := s.cb.(at := CbConsume, seeded := seeded && current, catchup := seeded && !current))
    else if s.cb.at.CbConsume? then
      s.(job := s.job.(state := Idle),
         cb := if s.cb.seeded then s.cb.(at := CbGoLive) else s.cb.(at := CbBridge, request := true))
    else
      s.(audio := s.audio.(renderActive := true, liveSlot := s.cb.slot), cb := s.cb.(at := CbLive))
  }

  // requestKeylockSeed up to the publication of the job
  function RequestSeed(s: State, flag: bool, ok: bool, input: seq<Frame>): State
  {
    var a := s.cb.slot;
    var readAhead := s.pipes.readAhead.Get(a);
    var reset := s.cb.missed == 0 || s.cb.missed > HISTORY;
    var length := SeedLength(s.pipes.latency.Get(a), s.cb.missed);
    var complete := !s.audio.requireFresh || |s.audio.emitted| - s.audio.playbackStart >= length;
    var publish := ok && if readAhead then flag && |input| == length else complete;
    s.(job := if publish
              then SeedJob(s.job.state, a, if readAhead then input else Newest(s.audio.emitted, length),
                           reset, |s.audio.emitted|, s.flags.epoch)
              else s.job.(needsReset := if ok then reset else s.job.needsReset),
       audio := s.audio.(seedValid := s.audio.seedValid || publish),
       cb := s.cb.(at := if publish then CbPublish else CbOutside))
  }

  // The direct bridge block, and the request that may follow it
  function BridgeStep(s: State, flag: bool, ok: bool, block: seq<Frame>, input: seq<Frame>): State
  {
    if s.cb.at.CbBridge? then
      var missed := |s.audio.emitted| + |block| - s.job.end;
      s.(audio := Emitted(s.audio, block),
         cb := if s.cb.request
               then s.cb.(at := CbRequest, missed := if s.cb.catchup && missed > 0 then missed else 0)
               else s.cb.(at := CbOutside))
    else if s.cb.at.CbRequest? then RequestSeed(s, flag, ok, input)
    else s.(job := s.job.(state := Requested), cb := s.cb.(at := CbOutside))
  }

  predicate Scanning(at: CallbackPoint)
  {
    at.CbSeedCheck? || at.CbWanted? || at.CbScan?
  }

  predicate Claiming(at: CallbackPoint)
  {
    at.CbClaim? || at.CbRefuse?
  }

  predicate Swapping(at: CallbackPoint)
  {
    at.CbSwap? || at.CbPublishGeneration? || at.CbMarkPending? || at.CbRetire?
  }

  predicate Routing(at: CallbackPoint)
  {
    at.CbOutside? || at.CbDiscontinuity? || at.CbDecide? || at.CbFadeCheck? || at.CbPendingTest?
  }

  predicate Rendering(at: CallbackPoint)
  {
    at.CbFade? || at.CbOff? || at.CbOffRender? || at.CbLive?
  }

  predicate Bridging(at: CallbackPoint)
  {
    at.CbBridge? || at.CbRequest? || at.CbPublish?
  }

  predicate Answering(at: CallbackPoint)
  {
    at.CbSeedLoad? || at.CbStamp? || at.CbConsume? || at.CbGoLive?
  }

  // ---- Steps of the worker ---------------------------------------------------------

  function WkGoto(s: State, at: WorkerPoint): State
  {
    s.(wk := s.wk.(at := at))
  }

  // serviceSeedRequest
  function SeedJobStep(s: State, ok: bool): State
  {
    if s.wk.at.WkTop? then
      if s.wk.stopped then s
      else if s.job.state.Requested?
      then s.(job := s.job.(state := Seeding), wk := s.wk.(at := WkGate))
      else WkGoto(s, WkDesired)
    else if s.wk.at.WkGate? then s.(wk := if ok then s.wk.(at := WkSlot) else s.wk.(at := WkDesired, stopped := true))
    else if s.wk.at.WkSlot? then
      if 0 <= s.job.slot < 2 && |s.job.snapshot| > 0
      then s.(wk := s.wk.(at := WkReset, slot := s.job.slot))
      else WkGoto(s, WkDone)
    else if s.wk.at.WkReset? then
      s.(pipes := if s.job.needsReset then s.pipes.(fed := s.pipes.fed.Set(s.wk.slot, [])) else s.pipes,
         wk := s.wk.(at := WkFeed, offset := 0))
    else if s.wk.at.WkFeed? then
      if s.wk.offset >= |s.job.snapshot| then WkGoto(s, WkDone) else
      var next := s.wk.offset + Min(MAX_PULL, |s.job.snapshot| - s.wk.offset);
      s.(pipes := Fed(s.pipes, s.wk.slot, s.job.snapshot[s.wk.offset..next]), wk := s.wk.(offset := next))
    else if s.wk.at.WkDone? then s.(job := s.job.(state := Seeded), wk := s.wk.(at := WkTop))
    else s
  }

  // workerLoop: claim the pipeline that is not active for a newer configuration, ...
  function TakeStep(s: State): State
  {
    var c := s.wk.slot;
    if s.wk.at.WkDesired? then WkGoto(s, if s.flags.desired == s.wk.observed then WkTop else WkConfig)
    else if s.wk.at.WkConfig? then
      s.(wk := s.wk.(at := WkActive, config := s.flags.desired, observed := s.flags.desired))
    else if s.wk.at.WkActive? then s.(wk := s.wk.(at := WkCas, slot := if s.active == 0 then 1 else 0))
    else if s.wk.at.WkCas? then
      if s.slots.Get(c).Empty? then s.(slots := s.slots.Set(c, Preparing), wk := s.wk.(at := WkPrepare))
      else WkGoto(s, if s.slots.Get(c).Prepared? && s.pipes.config.Get(c) != s.wk.config
                     then WkReclaim else WkTop)
    else s.(slots := s.slots.Set(c, Empty), wk := s.wk.(at := WkTop, observed := s.flags.activeGeneration))
  }

  // ... rebuild it, and publish it unless it was superseded meanwhile.
  function BuildStep(s: State, ok: bool, readAhead: bool, latency: nat): State
  {
    var c := s.wk.slot;
    if s.wk.at.WkPrepare? then
      if !ok then s.(slots := s.slots.Set(c, Empty), wk := s.wk.(at := WkTop))
      else s.(pipes := Pipelines(s.pipes.config.Set(c, s.wk.config), s.pipes.readAhead.Set(c, readAhead),
                                 s.pipes.latency.Set(c, latency), s.pipes.fed.Set(c, [])),
              wk := s.wk.(at := WkLatest))
    else if s.wk.at.WkLatest? then WkGoto(s, if s.flags.desired != s.wk.config then WkDrop else WkReady)
    else if s.wk.at.WkDrop? then
      s.(slots := s.slots.Set(c, Empty), wk := s.wk.(at := WkTop, observed := s.flags.activeGeneration))
    else s.(slots := s.slots.Set(c, Prepared), wk := s.wk.(at := WkTop))
  }

  predicate SeedWork(at: WorkerPoint)
  {
    at.WkTop? || at.WkGate? || at.WkSlot? || at.WkReset? || at.WkFeed? || at.WkDone?
  }

  predicate Building(at: WorkerPoint)
  {
    at.WkPrepare? || at.WkLatest? || at.WkDrop? || at.WkReady?
  }

  function Step(s: State, a: Action): State
  {
    match a
    case Callback(flag, ok, block, input) =>
      if Scanning(s.cb.at) then ScanStep(s)
      else if Claiming(s.cb.at) then ClaimStep(s)
      else if Swapping(s.cb.at) then SwapStep(s)
      else if Routing(s.cb.at) then RoutingStep(s, flag, ok)
      else if Rendering(s.cb.at) then RenderStep(s, flag, ok, block, input)
      else if Answering(s.cb.at) then SeedStep(s, ok)
      else BridgeStep(s, flag, ok, block, input)
    case Worker(ok, readAhead, latency) =>
      if SeedWork(s.wk.at) then SeedJobStep(s, ok)
      else if Building(s.wk.at) then BuildStep(s, ok, readAhead, latency)
      else TakeStep(s)
    case RequestConfiguration => s.(flags := s.flags.(desired := s.flags.desired + 1))
    case RaiseDiscontinuity => s.(flags := s.flags.(discontinuity := true))
    case RaisePending => s.(flags := s.flags.(pending := true))
    case ChangeEpoch => s.(flags := s.flags.(epoch := s.flags.epoch + 1))
  }

  // ---- Invariant: who owns a slot ----------------------------------------------------

  // The slot the callback has claimed to make it active, or has replaced but not yet retired.
  predicate CallbackKeeps(cb: CallbackState, i: int)
  {
    || (cb.at.CbSwap? && i == cb.slot)
    || ((cb.at.CbPublishGeneration? || cb.at.CbMarkPending? || cb.at.CbRetire?) && i == cb.prior)
  }

  predicate WorkerPrepares(wk: WorkerState, i: int)
  {
    Building(wk.at) && i == wk.slot
  }

  // The active slots are those the callback uses, or claimed and is about to give back; the
  // worker builds only in slots that nobody uses. A slot that the callback gives back late can
  // look empty meanwhile.
  predicate OneSlot(slot: SlotState, i: int, active: int, cb: CallbackState, wk: WorkerState)
  {
    && (active == i || CallbackKeeps(cb, i) ==> slot.Active?)
    && (slot.Active? ==> active == i || CallbackKeeps(cb, i) || (cb.at.CbRefuse? && cb.slot == i))
    && (WorkerPrepares(wk, i) ==> slot.Preparing? || slot.Empty?)
    && (slot.Preparing? ==> WorkerPrepares(wk, i))
    && (wk.at.WkReclaim? && wk.slot == i ==> active != i && !CallbackKeeps(cb, i))
  }

  predicate SlotInv(slots: Both<SlotState>, active: int, cb: CallbackState, wk: WorkerState)
  {
    && 0 <= cb.slot < 2 && 0 <= wk.slot < 2 && -1 <= active < 2
    && OneSlot(slots.first, 0, active, cb, wk) && OneSlot(slots.second, 1, active, cb, wk)
    && (cb.at.CbRefuse? || cb.at.CbSwap? ==> cb.slot != active)
    && (cb.at.CbPublishGeneration? || cb.at.CbMarkPending? || cb.at.CbRetire? ==>
          cb.slot == active && cb.prior != active)
    && ((wk.at.WkCas? || wk.at.WkReclaim?) && wk.slot == 1 ==> active >= 0)
  }

  // Between the worker's failed CAS on a slot and its store that gives the slot back, the
  // callback claims that slot and finds in it the configuration it wants.
  predicate Disturbing(s: State)
  {
    && s.cb.at.CbClaim? && s.wk.at.WkReclaim? && s.wk.slot == s.cb.slot
    && s.slots.Get(s.cb.slot).Prepared? && s.pipes.config.Get(s.cb.slot) == s.cb.wanted
  }

  predicate Disturbs(s: State, a: Action)
  {
    a.Callback? && Disturbing(s)
  }

  // ---- Invariant: who owns the stretcher ---------------------------------------------

  // Program points at which the callback is sure that no seed is in flight.
  predicate SeedFree(cb: CallbackState)
  {
    || cb.at.CbWanted? || cb.at.CbScan? || cb.at.CbClaim? || cb.at.CbRefuse? || cb.at.CbSwap?
    || cb.at.CbPublishGeneration? || cb.at.CbMarkPending? || cb.at.CbRetire?
    || cb.at.CbFadeCheck? || cb.at.CbFade? || cb.at.CbGoLive? || cb.at.CbLive?
    || (cb.at.CbBridge? && cb.request) || cb.at.CbRequest? || cb.at.CbPublish?
  }

  predicate SeedingPoint(at: WorkerPoint)
  {
    at.WkGate? || at.WkSlot? || at.WkReset? || at.WkFeed? || at.WkDone?
  }

  // Program points after the routing decision, where `cb.slot` is the active slot.
  predicate Bound(at: CallbackPoint)
  {
    || at.CbFadeCheck? || at.CbFade? || at.CbPendingTest? || Handshake(at)
  }

  predicate Handshake(at: CallbackPoint)
  {
    || at.CbSeedLoad? || at.CbStamp? || at.CbConsume? || at.CbGoLive? || at.CbLive?
    || at.CbBridge? || at.CbRequest? || at.CbPublish?
  }

  predicate OwnerInv(active: int, seed: SeedState, seedSlot: int, render: bool, cb: CallbackState, wk: WorkerState)
  {
    && 0 <= cb.slot < 2 && -1 <= active < 2
    && (SeedFree(cb) ==> seed.Idle?)
    && (cb.at.CbStamp? || cb.at.CbConsume? ==> seed.Seeded?)
    && (!seed.Idle? ==> !render && 0 <= active < 2 && seedSlot == active)
    && (render ==> 0 <= active < 2)
    && (render ==> !(Handshake(cb.at) && !cb.at.CbLive?) && !cb.at.CbOffRender?)
    && (cb.at.CbLive? || cb.at.CbFade? || cb.at.CbFadeCheck? ==> render)
    && (Bound(cb.at) ==> cb.slot == active && 0 <= active < 2)
    && (cb.at.CbPublish? ==> seedSlot == active)
    && (SeedingPoint(wk.at) ==> seed.Seeding?)
    && (seed.Seeding? ==> SeedingPoint(wk.at) || wk.stopped)
    && (wk.stopped ==> seed.Seeding? && !SeedingPoint(wk.at))
    && (wk.at.WkReset? || wk.at.WkFeed? ==> wk.slot == seedSlot)
  }

  // A pipeline renders live only after a seed of it went live.
  predicate LiveInv(active: int, render: bool, liveSlot: int, pending: bool, cb: CallbackState)
  {
    && (render ==> liveSlot == active || pending || cb.at.CbPublishGeneration? || cb.at.CbMarkPending?)
    && (cb.at.CbLive? || cb.at.CbFade? ==> liveSlot == cb.slot)
  }

  predicate Slots(s: State)
  {
    SlotInv(s.slots, s.active, s.cb, s.wk)
  }

  predicate Owned(s: State)
  {
    OwnerInv(s.active, s.job.state, s.job.slot, s.audio.renderActive, s.cb, s.wk)
  }

  predicate Core(s: State)
  {
    && Slots(s) && Owned(s)
    && LiveInv(s.active, s.audio.renderActive, s.audio.liveSlot, s.flags.pending, s.cb)
  }

  lemma {:induction false} ScanKeepsSlots(s: State)
    requires Slots(s) && Scanning(s.cb.at)
    ensures Slots(ScanStep(s))
  {
  }

  lemma {:induction false} ScanKeepsOwner(s: State)
    requires Owned(s) && Scanning(s.cb.at)
    ensures Owned(ScanStep(s))
  {
  }

  lemma {:induction false} ScanKeepsCore(s: State)
    requires Core(s) && Scanning(s.cb.at)
    ensures Core(ScanStep(s))
  {
    ScanKeepsSlots(s);
    ScanKeepsOwner(s);
    hide Slots, OwnerInv;
  }

  lemma {:induction false} ClaimKeepsSlots(s: State)
    requires Slots(s) && Claiming(s.cb.at) && !Disturbing(s)
    ensures Slots(ClaimStep(s))
  {
  }

  lemma {:induction false} ClaimKeepsOwner(s: State)
    requires Owned(s) && Claiming(s.cb.at)
    ensures Owned(ClaimStep(s))
  {
  }

  lemma {:induction false} ClaimKeepsCore(s: State)
    requires Core(s) && Claiming(s.cb.at) && !Disturbing(s)
    ensures Core(ClaimStep(s))
  {
    ClaimKeepsSlots(s);
    ClaimKeepsOwner(s);
    hide Slots, OwnerInv;
  }

  lemma {:induction false} SwapKeepsOwner(s: State)
    requires Owned(s) && Swapping(s.cb.at)
    ensures Owned(SwapStep(s))
  {
  }

  lemma {:induction false} SwapKeepsCore(s: State)
    requires Core(s) && Swapping(s.cb.at)
    ensures Core(SwapStep(s))
  {
  }

  lemma {:induction false} RoutingKeepsSlots(s: State, flag: bool, ok: bool)
    requires Slots(s) && Routing(s.cb.at)
    ensures Slots(RoutingStep(s, flag, ok))
  {
  }

  lemma {:induction false} DecideKeepsOwner(s: State, flag: bool, ok: bool)
    requires Owned(s) && (s.cb.at.CbDecide? || s.cb.at.CbFadeCheck?)
    ensures Owned(RoutingStep(s, flag, ok))
  {
  }

  lemma {:induction false} RoutingKeepsOwner(s: State, flag: bool, ok: bool)
    requires Owned(s) && Routing(s.cb.at)
    ensures Owned(RoutingStep(s, flag, ok))
  {
    if s.cb.at.CbDecide? || s.cb.at.CbFadeCheck? {
      DecideKeepsOwner(s, flag, ok);
      hide RoutingStep, OwnerInv;
    }
  }

  lemma {:induction false} RoutingKeepsCore(s: State, flag: bool, ok: bool)
    requires Core(s) && Routing(s.cb.at)
    ensures Core(RoutingStep(s, flag, ok))
  {
    RoutingKeepsSlots(s, flag, ok);
    RoutingKeepsOwner(s, flag, ok);
    hide Slots, OwnerInv;
  }

  lemma {:induction false} RenderKeepsOwner(s: State, flag: bool, ok: bool, block: seq<Frame>, input: seq<Frame>)
    requires Owned(s) && Rendering(s.cb.at)
    ensures Owned(RenderStep(s, flag, ok, block, input))
  {
  }

  lemma {:induction false} RenderKeepsCore(s: State, flag: bool, ok: bool, block: seq<Frame>, input: seq<Frame>)
    requires Core(s) && Rendering(s.cb.at)
    ensures Core(RenderStep(s, flag, ok, block, input))
  {
  }

  lemma {:induction false} SeedKeepsSlots(s: State, ok: bool)
    requires Slots(s) && Answering(s.cb.at)
    ensures Slots(SeedStep(s, ok))
  {
  }

  lemma {:induction false} SeedKeepsOwner(s: State, ok: bool)
    requires Owned(s) && Answering(s.cb.at)
    ensures Owned(SeedStep(s, ok))
  {
  }

  lemma {:induction false} SeedKeepsCore(s: State, ok: bool)
    requires Core(s) && Answering(s.cb.at)
    ensures Core(SeedStep(s, ok))
  {
    SeedKeepsSlots(s, ok);
    SeedKeepsOwner(s, ok);
    hide Slots, OwnerInv;
  }

  lemma {:induction false} RequestKeepsOwner(s: State, flag: bool, ok: bool, input: seq<Frame>)
    requires Owned(s) && s.cb.at.CbRequest?
    ensures Owned(RequestSeed(s, flag, ok, input))
  {
  }

  lemma {:induction false} BridgeKeepsOwner(s: State, flag: bool, ok: bool, block: seq<Frame>, input: seq<Frame>)
    requires Owned(s) && Bridging(s.cb.at)
    ensures Owned(BridgeStep(s, flag, ok, block, input))
  {
    hide RequestSeed;
    if s.cb.at.CbRequest? {
      RequestKeepsOwner(s, flag, ok, input);
    }
  }

  lemma {:induction false} RequestKeepsCore(s: State, flag: bool, ok: bool, input: seq<Frame>)
    requires Core(s) && s.cb.at.CbRequest?
    ensures Core(RequestSeed(s, flag, ok, input))
  {
  }

  lemma {:induction false} BridgeKeepsCore(s: State, flag: bool, ok: bool, block: seq<Frame>, input: seq<Frame>)
    requires Core(s) && Bridging(s.cb.at)
    ensures Core(BridgeStep(s, flag, ok, block, input))
  {
    hide RequestSeed;
    if s.cb.at.CbRequest? {
      RequestKeepsCore(s, flag, ok, input);
    }
  }

  lemma {:induction false} SeedJobKeepsSlots(s: State, ok: bool)
    requires Slots(s) && SeedWork(s.wk.at)
    ensures Slots(SeedJobStep(s, ok))
  {
  }

  lemma {:induction false} SeedJobKeepsOwner(s: State, ok: bool)
    requires Owned(s) && SeedWork(s.wk.at)
    ensures Owned(SeedJobStep(s, ok))
  {
  }

  lemma {:induction false} SeedJobKeepsCore(s: State, ok: bool)
    requires Core(s) && SeedWork(s.wk.at)
    ensures Core(SeedJobStep(s, ok))
  {
    SeedJobKeepsSlots(s, ok);
    SeedJobKeepsOwner(s, ok);
    hide Slots, OwnerInv;
  }

  lemma {:induction false} TakeKeepsSlots(s: State)
    requires Slots(s) && !SeedWork(s.wk.at) && !Building(s.wk.at)
    ensures Slots(TakeStep(s))
  {
  }

  lemma {:induction false} TakeKeepsOwner(s: State)
    requires Owned(s) && !SeedWork(s.wk.at) && !Building(s.wk.at)
    ensures Owned(TakeStep(s))
  {
  }

  lemma {:induction false} TakeKeepsCore(s: State)
    requires Core(s) && !SeedWork(s.wk.at) && !Building(s.wk.at)
    ensures Core(TakeStep(s))
  {
    TakeKeepsSlots(s);
    TakeKeepsOwner(s);
    hide Slots, OwnerInv;
  }

  lemma {:induction false} BuildKeepsOwner(s: State, ok: bool, readAhead: bool, latency: nat)
    requires Owned(s) && Building(s.wk.at)
    ensures Owned(BuildStep(s, ok, readAhead, latency))
  {
  }

  lemma {:induction false} BuildKeepsCore(s: State, ok: bool, readAhead: bool, latency: nat)
    requires Core(s) && Building(s.wk.at)
    ensures Core(BuildStep(s, ok, readAhead, latency))
  {
  }

  lemma {:induction false} StepKeepsCore(s: State, a: Action)
    requires Core(s) && !Disturbs(s, a)
    ensures Core(Step(s, a))
  {
    hide ScanStep, ClaimStep, SwapStep, RoutingStep, RenderStep, SeedStep, BridgeStep, SeedJobStep, TakeStep, BuildStep;
    match a
    case Callback(flag, ok, block, input) =>
      if Scanning(s.cb.at) {
        ScanKeepsCore(s);
      } else if Claiming(s.cb.at) {
        ClaimKeepsCore(s);
      } else if Swapping(s.cb.at) {
        SwapKeepsCore(s);
      } else if Routing(s.cb.at) {
        RoutingKeepsCore(s, flag, ok);
      } else if Rendering(s.cb.at) {
        RenderKeepsCore(s, flag, ok, block, input);
      } else if Answering(s.cb.at) {
        SeedKeepsCore(s, ok);
      } else {
        BridgeKeepsCore(s, flag, ok, block, input);
      }
    case Worker(ok, readAhead, latency) =>
      if SeedWork(s.wk.at) {
        SeedJobKeepsCore(s, ok);
      } else if Building(s.wk.at) {
        BuildKeepsCore(s, ok, readAhead, latency);
      } else {
        TakeKeepsCore(s);
      }
    case _ =>
  }

  /** Who owns a seed does not depend on the slots: every step keeps it, a disturbing claim too. */
  lemma {:induction false} StepKeepsOwned(s: State, a: Action)
    requires Owned(s)
    ensures Owned(Step(s, a))
  {
    hide ScanStep, ClaimStep, SwapStep, RoutingStep, RenderStep, SeedStep, BridgeStep, SeedJobStep, TakeStep, BuildStep;
    match a
    case Callback(flag, ok, block, input) =>
      if Scanning(s.cb.at) {
        ScanKeepsOwner(s);
      } else if Claiming(s.cb.at) {
        ClaimKeepsOwner(s);
      } else if Swapping(s.cb.at) {
        SwapKeepsOwner(s);
      } else if Routing(s.cb.at) {
        RoutingKeepsOwner(s, flag, ok);
      } else if Rendering(s.cb.at) {
        RenderKeepsOwner(s, flag, ok, block, input);
      } else if Answering(s.cb.at) {
        SeedKeepsOwner(s, ok);
      } else {
        BridgeKeepsOwner(s, flag, ok, block, input);
      }
    case Worker(ok, readAhead, latency) =>
      if SeedWork(s.wk.at) {
        SeedJobKeepsOwner(s, ok);
      } else if Building(s.wk.at) {
        BuildKeepsOwner(s, ok, readAhead, latency);
      } else {
        TakeKeepsOwner(s);
      }
    case _ =>
  }

  // ---- Invariant: what a seeded stretcher was fed --------------------------------------

  // While a valid seed has to wait for fresh playback, n frames that end just before position
  // `end` were all emitted since playback started.
  predicate SincePlayback(u: Audio, n: nat, end: int)
  {
    u.seedValid && u.requireFresh ==> n <= end - u.playbackStart
  }

  // A pipeline fed from the output history has received a window of the emitted stream that
  // ends just before position `end`, and that is a whole pre-roll once `rest` more frames are in.
  ghost predicate FedTo(pipes: Pipelines, slot: int, u: Audio, end: int, rest: int)
  {
    !pipes.readAhead.Get(slot) ==>
      && EndsAt(pipes.fed.Get(slot), u.emitted, end) && SincePlayback(u, |pipes.fed.Get(slot)|, end)
      && |pipes.fed.Get(slot)| + rest >= PreRoll(pipes.latency.Get(slot))
  }

  ghost predicate JobInv(pipes: Pipelines, job: SeedJob, u: Audio)
  {
    && |job.snapshot| > 0
    && (!pipes.readAhead.Get(job.slot) ==>
          && EndsAt(job.snapshot, u.emitted, job.end)
          && (job.needsReset ==> SincePlayback(u, |job.snapshot|, job.end)))
    && (job.needsReset ==> |job.snapshot| >= PreRoll(pipes.latency.Get(job.slot)))
  }

  ghost predicate BeforeBatch(pipes: Pipelines, job: SeedJob, u: Audio)
  {
    !job.needsReset ==> FedTo(pipes, job.slot, u, job.end - |job.snapshot|, |job.snapshot|)
  }

  ghost predicate CallbackWindow(pipes: Pipelines, job: SeedJob, u: Audio, cb: CallbackState)
  {
    && (cb.at.CbPublish? ==> JobInv(pipes, job, u) && BeforeBatch(pipes, job, u))
    && (cb.at.CbConsume? && cb.seeded ==> job.end == |u.emitted| && u.seedValid)
    && (cb.at.CbGoLive? ==> FedTo(pipes, cb.slot, u, |u.emitted|, 0) && u.seedValid)
    && ((cb.at.CbConsume? || cb.at.CbBridge?) && cb.catchup ==> u.seedValid)
    && (cb.at.CbOffRender? ==> !u.seedValid)
    && (cb.at.CbBridge? && cb.catchup ==> cb.request && FedTo(pipes, cb.slot, u, job.end, 0))
    && (cb.at.CbRequest? && cb.missed > 0 ==>
          cb.missed == |u.emitted| - job.end && u.seedValid && FedTo(pipes, cb.slot, u, job.end, 0))
  }

  ghost predicate WorkerWindow(pipes: Pipelines, job: SeedJob, u: Audio, wk: WorkerState)
  {
    && (job.state.Requested? || job.state.Seeding? ==> JobInv(pipes, job, u))
    && (job.state.Requested? || wk.at.WkGate? || wk.at.WkSlot? || wk.at.WkReset? ==> BeforeBatch(pipes, job, u))
    && (wk.at.WkFeed? ==>
          && wk.offset <= |job.snapshot|
          && FedTo(pipes, wk.slot, u, job.end - |job.snapshot| + wk.offset, |job.snapshot| - wk.offset))
    && (job.state.Seeded? || wk.at.WkDone? ==> FedTo(pipes, job.slot, u, job.end, 0))
  }

  ghost predicate Fresh(s: State)
  {
    && s.job.end <= |s.audio.emitted|
    && CallbackWindow(s.pipes, s.job, s.audio, s.cb)
    && WorkerWindow(s.pipes, s.job, s.audio, s.wk)
  }

  lemma {:induction false} ScanKeepsWindow(s: State)
    requires Core(s) && Fresh(s) && Scanning(s.cb.at)
    ensures Fresh(ScanStep(s))
  {
    hide EndsAt;
  }

  lemma {:induction false} ClaimKeepsWindow(s: State)
    requires Core(s) && Fresh(s) && Claiming(s.cb.at)
    ensures Fresh(ClaimStep(s))
  {
    hide EndsAt;
  }

  lemma {:induction false} SwapKeepsWindow(s: State)
    requires Core(s) && Fresh(s) && Swapping(s.cb.at)
    ensures Fresh(SwapStep(s))
  {
    hide EndsAt;
  }

  lemma {:induction false} RoutingKeepsWindow(s: State, flag: bool, ok: bool)
    requires Core(s) && Fresh(s) && Routing(s.cb.at)
    ensures Fresh(RoutingStep(s, flag, ok))
  {
    hide EndsAt, PreRoll, SlotInv, LiveInv;
  }

  lemma {:induction false} RenderKeepsWindow(s: State, flag: bool, ok: bool, block: seq<Frame>, input: seq<Frame>)
    requires Core(s) && Fresh(s) && Rendering(s.cb.at)
    ensures Fresh(RenderStep(s, flag, ok, block, input))
  {
    EndsAtGrows(s.audio.emitted, block);
    hide EndsAt;
  }

  lemma {:induction false} SeedKeepsWindow(s: State, ok: bool)
    requires Core(s) && Fresh(s) && Answering(s.cb.at)
    ensures Fresh(SeedStep(s, ok))
  {
    hide EndsAt;
  }

  lemma {:induction false} RequestKeepsWindow(s: State, flag: bool, ok: bool, input: seq<Frame>)
    requires Core(s) && Fresh(s) && s.cb.at.CbRequest?
    ensures Fresh(RequestSeed(s, flag, ok, input))
  {
    var newest := Newest(s.audio.emitted, SeedLength(s.pipes.latency.Get(s.cb.slot), s.cb.missed));
    assert EndsAt(newest, s.audio.emitted, |s.audio.emitted|);
    hide EndsAt;
  }

  lemma {:induction false} BridgeKeepsWindow(s: State, flag: bool, ok: bool, block: seq<Frame>, input: seq<Frame>)
    requires Core(s) && Fresh(s) && Bridging(s.cb.at)
    ensures Fresh(BridgeStep(s, flag, ok, block, input))
  {
    EndsAtGrows(s.audio.emitted, block);
    hide EndsAt, RequestSeed;
    if s.cb.at.CbRequest? {
      RequestKeepsWindow(s, flag, ok, input);
    }
  }

  lemma {:induction false} FeedKeepsWindow(s: State)
    requires Core(s) && Fresh(s) && s.wk.at.WkFeed?
    ensures Fresh(SeedJobStep(s, true))
  {
    if s.wk.offset < |s.job.snapshot| && !s.pipes.readAhead.Get(s.wk.slot) {
      var next := s.wk.offset + Min(MAX_PULL, |s.job.snapshot| - s.wk.offset);
      var start := s.job.end - |s.job.snapshot| + s.wk.offset;
      EndsAtSlice(s.job.snapshot, s.audio.emitted, s.job.end, s.wk.offset, next);
      EndsAtJoin(s.pipes.fed.Get(s.wk.slot), s.job.snapshot[s.wk.offset..next], s.audio.emitted, start);
      assert FedTo(SeedJobStep(s, true).pipes, s.wk.slot, s.audio, s.job.end - |s.job.snapshot| + next,
                   |s.job.snapshot| - next);
    }
    hide EndsAt;
  }

  lemma {:induction false} SeedJobKeepsWindow(s: State, ok: bool)
    requires Core(s) && Fresh(s) && SeedWork(s.wk.at)
    ensures Fresh(SeedJobStep(s, ok))
  {
    assert EndsAt([], s.audio.emitted, s.job.end - |s.job.snapshot|);
    hide EndsAt;
    if s.wk.at.WkFeed? {
      FeedKeepsWindow(s);
    }
  }

  lemma {:induction false} TakeKeepsWindow(s: State)
    requires Core(s) && Fresh(s) && !SeedWork(s.wk.at) && !Building(s.wk.at)
    ensures Fresh(TakeStep(s))
  {
    hide EndsAt;
  }

  lemma {:induction false} BuildKeepsWindow(s: State, ok: bool, readAhead: bool, latency: nat)
    requires Core(s) && Fresh(s) && Building(s.wk.at)
    ensures Fresh(BuildStep(s, ok, readAhead, latency))
  {
    hide EndsAt, PreRoll, LiveInv;
  }

  lemma {:induction false} StepKeepsWindow(s: State, a: Action)
    requires Core(s) && Fresh(s)
    ensures Fresh(Step(s, a))
  {
    hide ScanStep, ClaimStep, SwapStep, RoutingStep, RenderStep, SeedStep, BridgeStep, SeedJobStep,
      TakeStep, BuildStep, EndsAt;
    match a
    case Callback(flag, ok, block, input) =>
      if Scanning(s.cb.at) {
        ScanKeepsWindow(s);
      } else if Claiming(s.cb.at) {
        ClaimKeepsWindow(s);
      } else if Swapping(s.cb.at) {
        SwapKeepsWindow(s);
      } else if Routing(s.cb.at) {
        RoutingKeepsWindow(s, flag, ok);
      } else if Rendering(s.cb.at) {
        RenderKeepsWindow(s, flag, ok, block, input);
      } else if Answering(s.cb.at) {
        SeedKeepsWindow(s, ok);
      } else {
        BridgeKeepsWindow(s, flag, ok, block, input);
      }
    case Worker(ok, readAhead, latency) =>
      if SeedWork(s.wk.at) {
        SeedJobKeepsWindow(s, ok);
      } else if Building(s.wk.at) {
        BuildKeepsWindow(s, ok, readAhead, latency);
      } else {
        TakeKeepsWindow(s);
      }
    case _ =>
  }

  // ---- Whole runs -------------------------------------------------------------------

  function Exec(s: State, actions: seq<Action>): State
  {
    if actions == [] then s
    else Step(Exec(s, actions[..|actions| - 1]), actions[|actions| - 1])
  }

  // No step of the run makes a claim that crosses with the worker giving the slot back.
  predicate Undisturbed(s: State, actions: seq<Action>)
  {
    forall i :: 0 <= i < |actions| ==> !Disturbs(Exec(s, actions[..i]), actions[i])
  }

  lemma {:induction false} InitialKeeps(s: State)
    requires Initial(s)
    ensures Core(s) && Fresh(s)
  {
    hide EndsAt;
  }

  lemma {:induction false} RunKeepsInvariant(s: State, actions: seq<Action>)
    requires Initial(s) && Undisturbed(s, actions)
    ensures Core(Exec(s, actions)) && Fresh(Exec(s, actions))
    decreases |actions|
  {
    hide Step, Core, Fresh, Initial, Disturbs;
    if actions == [] {
      InitialKeeps(s);
    } else {
      var n := |actions| - 1;
      var before := actions[..n];
      assert forall i :: 0 <= i < n ==> before[..i] == actions[..i] && before[i] == actions[i];
      RunKeepsInvariant(s, before);
      StepKeepsCore(Exec(s, before), actions[n]);
      StepKeepsWindow(Exec(s, before), actions[n]);
    }
  }

  // The worker works on this pipeline's stretcher: it seeds it or rebuilds it.
  predicate WorkerTouches(s: State, i: int)
  {
    s.wk.slot == i && (s.wk.at.WkReset? || s.wk.at.WkFeed? || s.wk.at.WkPrepare?)
  }

  // The callback works on this pipeline's stretcher: it renders through it.
  predicate CallbackTouches(s: State, i: int)
  {
    s.cb.slot == i && (s.cb.at.CbLive? || s.cb.at.CbFade? || s.cb.at.CbGoLive?)
  }

  /** In every interleaving, a seed in flight means that nothing renders through the
      stretcher, that the active slot is the seeded one and does not change, and that the
      snapshot is left alone; no stretcher is ever used by both threads; the slot that is
      being rebuilt is never the active one. */
  lemma {:induction false} SeedOwnership(s0: State, actions: seq<Action>, a: Action)
    requires Initial(s0) && Undisturbed(s0, actions)
    ensures var s := Exec(s0, actions);
      && (!s.job.state.Idle? ==>
            && !s.audio.renderActive
            && s.job.slot == s.active && s.slots.Get(s.active).Active?
            && Step(s, a).active == s.active
            && Step(s, a).job.snapshot == s.job.snapshot)
      && (forall i :: !(WorkerTouches(s, i) && CallbackTouches(s, i)))
      && (0 <= s.active < 2 ==> !s.slots.Get(s.active).Preparing? && !WorkerPrepares(s.wk, s.active))
  {
    RunKeepsInvariant(s0, actions);
    var s := Exec(s0, actions);
    hide Exec;
    if !s.job.state.Idle? {
      SeedPinsSlot(s, a);
    }
  }

  lemma {:induction false} SeedPinsSlot(s: State, a: Action)
    requires Owned(s) && !s.job.state.Idle?
    ensures Step(s, a).active == s.active && Step(s, a).job.snapshot == s.job.snapshot
  {
  }

  lemma {:induction false} RunIsOwned(s0: State, actions: seq<Action>)
    requires Initial(s0)
    ensures Owned(Exec(s0, actions))
    decreases |actions|
  {
    if actions == [] {
    } else {
      hide Step, Owned, Initial;
      RunIsOwned(s0, actions[..|actions| - 1]);
      StepKeepsOwned(Exec(s0, actions[..|actions| - 1]), actions[|actions| - 1]);
    }
  }

  /** In every interleaving, disturbing claims or not, a seed in flight means that nothing renders
      through a stretcher, that the seeded slot is the active one, and that neither it nor the
      snapshot changes. */
  lemma {:induction false} SeedIsPinned(s0: State, actions: seq<Action>, a: Action)
    requires Initial(s0)
    ensures var s := Exec(s0, actions);
      !s.job.state.Idle? ==>
        && !s.audio.renderActive && 0 <= s.active < 2 && s.job.slot == s.active
        && Step(s, a).active == s.active && Step(s, a).job.snapshot == s.job.snapshot
  {
    RunIsOwned(s0, actions);
    var s := Exec(s0, actions);
    hide Exec;
    if !s.job.state.Idle? {
      SeedPinsSlot(s, a);
    }
  }

  // The pipeline was fed one gap-free window of the emitted stream, a whole pre-roll or more,
  // that ends just before position `end`, and none of it from before playback started.
  ghost predicate OneWindow(pipes: Pipelines, i: int, u: Audio, end: int)
  {
    && EndsAt(pipes.fed.Get(i), u.emitted, end) && |pipes.fed.Get(i)| >= PreRoll(pipes.latency.Get(i))
    && SincePlayback(u, |pipes.fed.Get(i)|, end)
  }

  /** Whenever a seed is complete, a pipeline fed from the output history has received, since
      its last reset, one gap-free window of the emitted stream that is at least a whole
      pre-roll, however many catch-up batches it took; and rendering goes live only when that
      window ends at the last frame emitted and, after a pause, began after it. */
  lemma {:induction false} FedIsOneWindow(s0: State, actions: seq<Action>)
    requires Initial(s0) && Undisturbed(s0, actions)
    ensures var s := Exec(s0, actions);
      && (s.job.state.Seeded? && !s.pipes.readAhead.Get(s.active) ==>
            OneWindow(s.pipes, s.active, s.audio, s.job.end))
      && (s.cb.at.CbGoLive? ==> s.audio.seedValid)
      && (s.cb.at.CbGoLive? && !s.pipes.readAhead.Get(s.active) ==>
            OneWindow(s.pipes, s.active, s.audio, |s.audio.emitted|))
      && (s.cb.at.CbLive? || s.cb.at.CbFade? ==> s.audio.liveSlot == s.active == s.cb.slot)
  {
    RunKeepsInvariant(s0, actions);
  }

  // ---- The race that the runs above exclude ------------------------------------------

  /** Exactly the disturbing claim breaks the ownership invariant: every other step keeps it. */
  lemma {:induction false} OnlyDisturbingBreaks(s: State, a: Action)
    requires Core(s)
    ensures Core(Step(s, a)) <==> !Disturbs(s, a)
  {
    if !Disturbs(s, a) {
      StepKeepsCore(s, a);
      hide Step;
    } else {
      hide SeedJobStep, TakeStep, BuildStep;
      assert Scanning(s.cb.at) == false && Step(s, a) == ClaimStep(s);
      assert CallbackKeeps(Step(s, a).cb, s.wk.slot);
    }
  }

  lemma Extend(s0: State, actions: seq<Action>, a: Action) returns (longer: seq<Action>)
    ensures longer == actions + [a] && Exec(s0, longer) == Step(Exec(s0, actions), a)
  {
    longer := actions + [a];
    assert longer[..|longer| - 1] == actions;
  }

  // The callback is about to swap in the slot that the worker would take next.
  predicate Crossing(s: State)
  {
    && s.cb.at.CbSwap? && s.wk.slot == s.cb.slot && !s.wk.stopped && s.job.state.Idle? && -1 <= s.active < 2
    && s.cb.slot == (if s.active == 0 then 1 else 0)
  }

  // The worker gives back the slot the callback just claimed ...
  lemma {:induction false} WorkerReclaims(s0: State, start: seq<Action>) returns (run: seq<Action>)
    requires Crossing(Exec(s0, start)) && Exec(s0, start).wk.at.WkReclaim?
    ensures |start| <= |run| && run[..|start|] == start
    ensures var s, t := Exec(s0, start), Exec(s0, run);
      && t.cb == s.cb && Crossing(t) && t.wk.at.WkTop? && t.slots.Get(t.cb.slot).Empty?
      && t.flags.desired != t.wk.observed
  {
    hide Exec, ScanStep, ClaimStep, SwapStep, RoutingStep, RenderStep, SeedStep, BridgeStep, BuildStep, SeedJobStep;
    run := Extend(s0, start, W);
    if Exec(s0, run).flags.desired == Exec(s0, run).wk.observed {
      run := Extend(s0, run, RequestConfiguration);
    }
  }

  // ... and takes it again.
  lemma {:induction false} WorkerRetakes(s0: State, start: seq<Action>) returns (run: seq<Action>)
    requires Crossing(Exec(s0, start)) && Exec(s0, start).wk.at.WkTop?
    requires var s := Exec(s0, start); s.slots.Get(s.cb.slot).Empty? && s.flags.desired != s.wk.observed
    ensures |start| <= |run| && run[..|start|] == start
    ensures var s, t := Exec(s0, start), Exec(s0, run); t.cb == s.cb && t.wk.at.WkPrepare? && t.wk.slot == s.cb.slot
  {
    hide Exec, ScanStep, ClaimStep, SwapStep, RoutingStep, RenderStep, SeedStep, BridgeStep, BuildStep;
    run := Extend(s0, start, W);
    run := Extend(s0, run, W);
    run := Extend(s0, run, W);
    run := Extend(s0, run, W);
    run := Extend(s0, run, W);
  }

  /** The exclusion is exact: every disturbing claim can be followed by steps after which the
      active slot is being rebuilt. */
  lemma {:induction false} DisturbingHarms(s0: State, start: seq<Action>, a: Action) returns (run: seq<Action>)
    requires Core(Exec(s0, start)) && Disturbs(Exec(s0, start), a)
    ensures |start| < |run| && run[..|start|] == start && run[|start|] == a
    ensures var t := Exec(s0, run); 0 <= t.active < 2 && t.wk.at.WkPrepare? && t.wk.slot == t.active
  {
    hide Exec, ScanStep, RoutingStep, RenderStep, SeedStep, BridgeStep, SeedJobStep, TakeStep, BuildStep, LiveInv;
    var claimed := Extend(s0, start, a);
    run := WorkerReclaims(s0, claimed);
    run := WorkerRetakes(s0, run);
    run := Extend(s0, run, C);
    assert run[..|claimed|] == claimed;
  }

  const W := Worker(true, false, 0)
  const C := Callback(true, true, [], [])

  // Slot 0 plays; nothing has been requested yet.
  const START := State(
    Both(Active, Empty), 0, Pipelines(Both(1, 0), Both(false, false), Both(0, 0), Both([], [])),
    SeedJob(Idle, -1, [], true, 0, 0), Audio([], 0, false, false, false, -1), Flags(1, 1, false, false, 0),
    CallbackState(CbOutside, 0, -1, 0, false, false, false, 0), WorkerState(WkTop, 0, 0, 0, 1, false))

  // The worker has built configuration 2 in slot 1.
  const BUILT := START.(
    slots := Both(Active, Prepared), pipes := START.pipes.(config := Both(1, 2)),
    flags := Flags(2, 1, false, false, 0), wk := WorkerState(WkTop, 1, 0, 2, 2, false))

  // The callback is about to claim it while the worker is about to give it back.
  const CROSSED := BUILT.(
    flags := Flags(3, 1, false, false, 0), cb := BUILT.cb.(at := CbClaim, slot := 1, wanted := 2),
    wk := WorkerState(WkReclaim, 1, 0, 3, 3, false))

  lemma WorkerBuilds() returns (run: seq<Action>)
    ensures Exec(START, run) == BUILT
  {
    hide ScanStep, ClaimStep, SwapStep, RoutingStep, RenderStep, SeedStep, BridgeStep;
    run := [];
    run := Extend(START, run, RequestConfiguration);
    run := Extend(START, run, W);
    run := Extend(START, run, W);
    run := Extend(START, run, W);
    run := Extend(START, run, W);
    run := Extend(START, run, W);
    assert Exec(START, run).wk == WorkerState(WkPrepare, 1, 0, 2, 2, false);
    run := Extend(START, run, W);
    run := Extend(START, run, W);
    run := Extend(START, run, W);
  }

  lemma CallbackArrives(start: seq<Action>) returns (run: seq<Action>)
    requires Exec(START, start) == BUILT
    ensures Exec(START, run) == BUILT.(cb := CROSSED.cb)
  {
    hide ClaimStep, SwapStep, RenderStep, SeedStep, BridgeStep, SeedJobStep, TakeStep, BuildStep;
    run := Extend(START, start, C);
    run := Extend(START, run, C);
    run := Extend(START, run, C);
    run := Extend(START, run, C);
    run := Extend(START, run, C);
  }

  lemma WorkerArrives(start: seq<Action>) returns (run: seq<Action>)
    requires Exec(START, start) == BUILT.(cb := CROSSED.cb)
    ensures Exec(START, run) == CROSSED
  {
    hide ScanStep, ClaimStep, SwapStep, RoutingStep, RenderStep, SeedStep, BridgeStep, BuildStep;
    run := Extend(START, start, RequestConfiguration);
    run := Extend(START, run, W);
    run := Extend(START, run, W);
    run := Extend(START, run, W);
    run := Extend(START, run, W);
    run := Extend(START, run, W);
  }

  /** Without the exclusion the property fails: in this run, which asks for two further
      configurations in quick succession, the callback makes a slot active while the worker is
      rebuilding it. */
  lemma DisturbedRun() returns (run: seq<Action>)
    ensures Initial(START) && !Undisturbed(START, run)
    ensures var s := Exec(START, run); 0 <= s.active < 2 && s.wk.at.WkPrepare? && s.wk.slot == s.active
  {
    run := WorkerBuilds();
    run := CallbackArrives(run);
    var crossed := WorkerArrives(run);
    hide Exec, Step;
    run := DisturbingHarms(START, crossed, C);
    assert Disturbs(Exec(START, run[..|crossed|]), run[|crossed|]);
    }
}
