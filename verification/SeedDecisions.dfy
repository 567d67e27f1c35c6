/**
 Which seeds the callback lets go live. The runs are those of StretchSeeding; what makes a
 seed worthless is told by what happened in the run since it was published.
 */
module SeedDecisions {

  import opened EmittedStream
  import opened StretchSeeding

  // ---- What happens in a run -----------------------------------------------------------

  // The state after the first i actions.
  function Reached(s0: State, actions: seq<Action>, i: nat): State
    requires i <= |actions|
  {
    Exec(s0, actions[..i])
  }

  lemma ReachedNext(s0: State, actions: seq<Action>, i: nat)
    requires i < |actions|
    ensures Reached(s0, actions, i + 1) == Step(Reached(s0, actions, i), actions[i])
  {
    assert actions[..i + 1][..i] == actions[..i];
    hide Step;
  }

  lemma ReachedIsSound(s0: State, actions: seq<Action>, i: nat)
    requires Initial(s0) && i <= |actions|
    ensures Owned(Reached(s0, actions, i))
  {
    hide Exec, Owned, Initial;
    RunIsOwned(s0, actions[..i]);
  }

  // A seed job is written down, with the present epoch.
  predicate Publishes(s: State, a: Action)
  {
    a.Callback? && s.cb.at.CbRequest? && Step(s, a).cb.at.CbPublish?
  }

  // What makes every seed worthless: the track, a seek or the transport moves on, a pending
  // discontinuity or a new pipeline is noticed, or a block is rendered with keylock off.
  predicate Spoils(s: State, a: Action)
  {
    || a.ChangeEpoch?
    || (a.Callback? && s.cb.at.CbDiscontinuity? && s.flags.discontinuity)
    || (a.Callback? && s.cb.at.CbPendingTest? && s.flags.pending)
    || (a.Callback? && s.cb.at.CbOff?)
  }

  predicate PublishedAt(s0: State, actions: seq<Action>, j: nat)
    requires j < |actions|
  {
    Publishes(Reached(s0, actions, j), actions[j])
  }

  predicate SpoiledAt(s0: State, actions: seq<Action>, i: nat)
    requires i < |actions|
  {
    Spoils(Reached(s0, actions, i), actions[i])
  }

  predicate Published(s0: State, actions: seq<Action>, n: nat)
    requires n <= |actions|
  {
    exists j :: 0 <= j < n && PublishedAt(s0, actions, j)
  }

  // The seed published at step j is the latest before step n, and nothing spoiled it.
  predicate IntactSince(s0: State, actions: seq<Action>, j: nat, n: nat)
    requires n <= |actions|
  {
    && j < n && PublishedAt(s0, actions, j)
    && forall i :: j < i < n ==> !PublishedAt(s0, actions, i) && !SpoiledAt(s0, actions, i)
  }

  predicate Intact(s0: State, actions: seq<Action>, n: nat)
    requires n <= |actions|
  {
    exists j :: 0 <= j < n && IntactSince(s0, actions, j, n)
  }

  lemma {:induction false} IntactNext(s0: State, actions: seq<Action>, n: nat)
    requires n < |actions|
    ensures Intact(s0, actions, n + 1) <==>
      PublishedAt(s0, actions, n) || (Intact(s0, actions, n) && !SpoiledAt(s0, actions, n))
    ensures Published(s0, actions, n + 1) <==> PublishedAt(s0, actions, n) || Published(s0, actions, n)
  {
    hide PublishedAt, SpoiledAt;
    if PublishedAt(s0, actions, n) {
      assert IntactSince(s0, actions, n, n + 1);
    } else if Intact(s0, actions, n) && !SpoiledAt(s0, actions, n) {
      var j :| 0 <= j < n && IntactSince(s0, actions, j, n);
      assert IntactSince(s0, actions, j, n + 1);
    }
    if Intact(s0, actions, n + 1) && !PublishedAt(s0, actions, n) {
      var j :| 0 <= j < n + 1 && IntactSince(s0, actions, j, n + 1);
      assert IntactSince(s0, actions, j, n);
    }
  }

  // What the callback looks at.
  predicate LooksValid(s: State) { s.audio.seedValid && s.flags.epoch == s.job.epoch }

  predicate Unpublished(s: State) { s.job.state.Idle? && !s.cb.at.CbPublish? }

  // One step, as far as it concerns the two tests and the state of the job.
  predicate KeepsValidity(s: State, t: State, publishes: bool, spoils: bool)
  {
    && (publishes ==> LooksValid(t) && t.job.epoch <= t.flags.epoch)
    && (!publishes && s.job.epoch <= s.flags.epoch ==>
          t.job.epoch <= t.flags.epoch && (LooksValid(t) <==> LooksValid(s) && !spoils))
    && (!Unpublished(t) ==> !Unpublished(s) || publishes)
  }

  // A step that does not concern them.
  predicate Unconcerned(s: State, t: State)
  {
    && t.audio.seedValid == s.audio.seedValid && t.flags.epoch == s.flags.epoch && t.job.epoch == s.job.epoch
    && (Unpublished(s) ==> Unpublished(t))
  }

  lemma {:induction false} SwitchUnconcerned(s: State)
    ensures Scanning(s.cb.at) ==> Unconcerned(s, ScanStep(s))
    ensures Claiming(s.cb.at) ==> Unconcerned(s, ClaimStep(s))
    ensures Swapping(s.cb.at) ==> Unconcerned(s, SwapStep(s))
  {
  }

  lemma {:induction false} AnswerUnconcerned(s: State, ok: bool)
    requires Answering(s.cb.at)
    ensures Unconcerned(s, SeedStep(s, ok))
  {
  }

  lemma {:induction false} WorkerUnconcerned(s: State, ok: bool, readAhead: bool, latency: nat)
    requires Owned(s)
    ensures Unconcerned(s, SeedJobStep(s, ok)) && Unconcerned(s, TakeStep(s))
    ensures Unconcerned(s, BuildStep(s, ok, readAhead, latency))
  {
  }

  lemma {:induction false} RenderConcerned(s: State, flag: bool, ok: bool, block: seq<Frame>, input: seq<Frame>)
    requires Rendering(s.cb.at)
    ensures KeepsValidity(s, RenderStep(s, flag, ok, block, input), false, s.cb.at.CbOff?)
  {
  }

  lemma {:induction false} RoutingConcerned(s: State, flag: bool, ok: bool)
    requires Routing(s.cb.at)
    ensures KeepsValidity(s, RoutingStep(s, flag, ok), false,
                          (s.cb.at.CbDiscontinuity? && s.flags.discontinuity)
                          || (s.cb.at.CbPendingTest? && s.flags.pending))
  {
  }

  lemma {:induction false} RequestConcerned(s: State, flag: bool, ok: bool, input: seq<Frame>)
    requires s.cb.at.CbRequest?
    ensures var t := RequestSeed(s, flag, ok, input); KeepsValidity(s, t, t.cb.at.CbPublish?, false)
  {
  }

  lemma {:induction false} BridgeConcerned(s: State, flag: bool, ok: bool, block: seq<Frame>, input: seq<Frame>)
    requires Bridging(s.cb.at)
    ensures var t := BridgeStep(s, flag, ok, block, input);
      KeepsValidity(s, t, s.cb.at.CbRequest? && t.cb.at.CbPublish?, false)
  {
    hide RequestSeed;
    if s.cb.at.CbRequest? {
      RequestConcerned(s, flag, ok, input);
    }
  }

  lemma {:induction false} StepKeepsValidity(s: State, a: Action)
    requires Owned(s)
    ensures KeepsValidity(s, Step(s, a), Publishes(s, a), Spoils(s, a))
  {
    hide ScanStep, ClaimStep, SwapStep, RoutingStep, RenderStep, SeedStep, BridgeStep, SeedJobStep, TakeStep, BuildStep,
      SlotInv, OwnerInv, LiveInv, KeepsValidity, Unconcerned;
    UnconcernedKeeps(s, Step(s, a));
    match a
    case Callback(flag, ok, block, input) =>
      if Routing(s.cb.at) {
        RoutingConcerned(s, flag, ok);
      } else if Rendering(s.cb.at) {
        RenderConcerned(s, flag, ok, block, input);
      } else if Bridging(s.cb.at) {
        BridgeConcerned(s, flag, ok, block, input);
      } else if Answering(s.cb.at) {
        AnswerUnconcerned(s, ok);
      } else {
        SwitchUnconcerned(s);
      }
    case Worker(ok, readAhead, latency) => WorkerUnconcerned(s, ok, readAhead, latency);
    case _ => OutsideConcerned(s, a);
  }

  lemma UnconcernedKeeps(s: State, t: State)
    ensures Unconcerned(s, t) ==> KeepsValidity(s, t, false, false)
  {
  }

  lemma OutsideConcerned(s: State, a: Action)
    requires !a.Callback? && !a.Worker?
    ensures KeepsValidity(s, Step(s, a), false, a.ChangeEpoch?)
  {
  }

  // The callback's two tests say exactly that the latest seed is intact.
  predicate Judged(s: State, published: bool, intact: bool)
  {
    && (published ==> s.job.epoch <= s.flags.epoch && (LooksValid(s) <==> intact))
    && (!Unpublished(s) ==> published)
  }

  lemma JudgedNext(s: State, t: State, published: bool, intact: bool, publishes: bool, spoils: bool)
    requires Judged(s, published, intact) && KeepsValidity(s, t, publishes, spoils)
    ensures Judged(t, publishes || published, publishes || (intact && !spoils))
  {
    hide LooksValid, Unpublished;
  }

  lemma {:induction false} ValidityIsIntactness(s0: State, actions: seq<Action>, n: nat)
    requires Initial(s0) && n <= |actions|
    ensures Judged(Reached(s0, actions, n), Published(s0, actions, n), Intact(s0, actions, n))
  {
    hide *;
    if n == 0 {
      NothingIsJudged(s0, actions);
    } else {
      var s, a := Reached(s0, actions, n - 1), actions[n - 1];
      ValidityIsIntactness(s0, actions, n - 1);
      ReachedNext(s0, actions, n - 1);
      IntactNext(s0, actions, n - 1);
      ReachedIsSound(s0, actions, n - 1);
      StepKeepsValidity(s, a);
      EventsAt(s0, actions, n - 1);
      JudgedNext(s, Reached(s0, actions, n), Published(s0, actions, n - 1), Intact(s0, actions, n - 1),
                 Publishes(s, a), Spoils(s, a));
    }
  }

  lemma EventsAt(s0: State, actions: seq<Action>, i: nat)
    requires i < |actions|
    ensures PublishedAt(s0, actions, i) == Publishes(Reached(s0, actions, i), actions[i])
    ensures SpoiledAt(s0, actions, i) == Spoils(Reached(s0, actions, i), actions[i])
  {
    hide Publishes, Spoils, Reached;
  }

  lemma NothingIsJudged(s0: State, actions: seq<Action>)
    requires Initial(s0)
    ensures Judged(Reached(s0, actions, 0), Published(s0, actions, 0), Intact(s0, actions, 0))
  {
    NothingAtStart(s0, actions);
    hide Reached, Published, Unpublished, LooksValid, Intact;
  }

  lemma NothingAtStart(s0: State, actions: seq<Action>)
    requires Initial(s0)
    ensures !Published(s0, actions, 0) && Unpublished(Reached(s0, actions, 0)) && !Sure(Reached(s0, actions, 0).cb)
  {
  }

  // ---- What the callback decides ---------------------------------------------------------

  predicate Callbacks(actions: seq<Action>, i: nat, k: nat)
  {
    && i < k < |actions| && actions[i].Callback? && actions[k].Callback?
    && forall j :: i < j < k ==> !actions[j].Callback?
  }

  // Other threads leave the callback's state alone, and of a finished seed everything.
  predicate Rested(s: State, t: State)
  {
    t.cb == s.cb && t.audio == s.audio && (s.job.state.Seeded? ==> t.job == s.job)
    && (s.job.state.Idle? ==> t.job == s.job)
  }

  lemma {:induction false} OthersRest(s: State, a: Action)
    requires Owned(s) && !a.Callback?
    ensures Rested(s, Step(s, a))
  {
  }

  lemma {:induction false} RestUntil(s0: State, actions: seq<Action>, i: nat, k: nat)
    requires Initial(s0) && i <= k <= |actions|
    requires forall j :: i <= j < k ==> !actions[j].Callback?
    ensures Rested(Reached(s0, actions, i), Reached(s0, actions, k))
  {
    if i < k {
      hide Step, Reached, Initial;
      RestUntil(s0, actions, i, k - 1);
      ReachedIsSound(s0, actions, k - 1);
      ReachedNext(s0, actions, k - 1);
      OthersRest(Reached(s0, actions, k - 1), actions[k - 1]);
    }
  }

  // From one callback step to just before the next.
  lemma {:induction false} NextTurn(s0: State, actions: seq<Action>, i: nat, k: nat)
    requires Initial(s0) && Callbacks(actions, i, k)
    ensures Rested(Step(Reached(s0, actions, i), actions[i]), Reached(s0, actions, k))
  {
    hide Step, Reached, Initial, Rested;
    ReachedNext(s0, actions, i);
    RestUntil(s0, actions, i + 1, k);
  }

  // The four turns of a callback block that finds a finished seed: it looks at the job, stamps
  // it, consumes it, and goes live or plays a bridge block.
  ghost predicate FindsSeed(s0: State, actions: seq<Action>, r: nat, t: nat, u: nat, v: nat)
  {
    && Callbacks(actions, r, t) && Callbacks(actions, t, u) && Callbacks(actions, u, v)
    && Reached(s0, actions, r).cb.at.CbSeedLoad? && Reached(s0, actions, r).job.state.Seeded?
  }

  lemma {:induction false} StampTurn(s: State, a: Action)
    requires Owned(s) && a.Callback? && s.cb.at.CbSeedLoad? && s.job.state.Seeded?
    ensures var t := Step(s, a);
      t.cb.at.CbStamp? && t.job == s.job && t.audio == s.audio && t.cb.slot == t.job.slot == s.active
  {
  }

  lemma {:induction false} ConsumeTurn(s: State, a: Action)
    requires a.Callback? && s.cb.at.CbStamp? && s.cb.slot == s.job.slot
    ensures var t := Step(s, a); var current := s.job.end == |s.audio.emitted|;
      && t.cb.at.CbConsume? && t.audio == s.audio && t.job == s.job && t.cb.slot == s.cb.slot
      && (t.cb.seeded <==> LooksValid(s) && current && a.ok)
      && (t.cb.catchup <==> LooksValid(s) && !current)
  {
  }

  lemma {:induction false} DecisionTurn(s: State, a: Action)
    requires a.Callback? && s.cb.at.CbConsume?
    ensures var t := Step(s, a);
      && t.job == s.job.(state := Idle) && t.audio == s.audio && t.cb.slot == s.cb.slot && t.cb.catchup == s.cb.catchup
      && if s.cb.seeded then t.cb.at.CbGoLive? else t.cb.at.CbBridge? && t.cb.request
  {
  }

  /** What becomes of a finished seed. It goes live if and only if it is intact, ends at the last
      emitted frame and the track stands where it stood; otherwise a bridge block is played and
      another seed is requested, which goes on from this one if and only if it is intact and
      frames were emitted since. In every case the job is given up. */
  lemma {:induction false} SeedOutcome(s0: State, actions: seq<Action>, r: nat, t: nat, u: nat, v: nat)
    requires Initial(s0) && FindsSeed(s0, actions, r, t, u, v)
    ensures var s, e := Reached(s0, actions, r), Reached(s0, actions, v);
      var intact, current := Intact(s0, actions, t), s.job.end == |s.audio.emitted|;
      && e.job == s.job.(state := Idle) && e.audio == s.audio && e.cb.slot == s.active
      && if intact && current && actions[t].ok then e.cb.at.CbGoLive?
         else e.cb.at.CbBridge? && e.cb.request && (e.cb.catchup <==> intact && !current)
  {
    hide Step, Reached, Initial, LooksValid, Intact, Published;
    ReachedIsSound(s0, actions, r);
    StampTurn(Reached(s0, actions, r), actions[r]);
    NextTurn(s0, actions, r, t);
    ValidityIsIntactness(s0, actions, t);
    ConsumeTurn(Reached(s0, actions, t), actions[t]);
    NextTurn(s0, actions, t, u);
    DecisionTurn(Reached(s0, actions, u), actions[u]);
    NextTurn(s0, actions, u, v);
  }

  // At step t the callback stamped the latest seed, which was intact then and ended at the last
  // emitted frame, and the track stood where it stood; nothing was emitted since.
  predicate StampedAt(s0: State, actions: seq<Action>, t: nat, n: nat)
    requires t < |actions| && n <= |actions|
  {
    var s := Reached(s0, actions, t);
    && s.cb.at.CbStamp? && actions[t].Callback? && actions[t].ok && Intact(s0, actions, t)
    && s.job.end == |s.audio.emitted| && s.audio.emitted == Reached(s0, actions, n).audio.emitted
  }

  predicate Stamped(s0: State, actions: seq<Action>, n: nat)
    requires n <= |actions|
  {
    exists t :: 0 <= t < n && StampedAt(s0, actions, t, n)
  }

  // The callback is sure that it will go live.
  predicate Sure(cb: CallbackState) { (cb.at.CbConsume? && cb.seeded) || cb.at.CbGoLive? }

  // A step of the callback that neither makes it sure nor starts rendering through a stretcher.
  predicate Quiet(s: State, t: State)
  {
    !Sure(t.cb) && (t.audio.renderActive ==> s.audio.renderActive)
  }

  lemma {:induction false} SwitchIsQuiet(s: State)
    ensures Scanning(s.cb.at) ==> Quiet(s, ScanStep(s))
    ensures Claiming(s.cb.at) ==> Quiet(s, ClaimStep(s))
    ensures Swapping(s.cb.at) ==> Quiet(s, SwapStep(s))
  {
  }

  lemma {:induction false} RoutingIsQuiet(s: State, flag: bool, ok: bool)
    requires Routing(s.cb.at)
    ensures Quiet(s, RoutingStep(s, flag, ok))
  {
  }

  lemma {:induction false} RenderIsQuiet(s: State, flag: bool, ok: bool, block: seq<Frame>, input: seq<Frame>)
    requires Owned(s) && Rendering(s.cb.at)
    ensures Quiet(s, RenderStep(s, flag, ok, block, input))
  {
  }

  lemma {:induction false} BridgeIsQuiet(s: State, flag: bool, ok: bool, block: seq<Frame>, input: seq<Frame>)
    requires Bridging(s.cb.at)
    ensures Quiet(s, BridgeStep(s, flag, ok, block, input))
  {
  }

  lemma {:induction false} AnswerBecomesSure(s: State, ok: bool)
    requires Owned(s) && Answering(s.cb.at)
    ensures var t := SeedStep(s, ok);
      && t.audio.emitted == s.audio.emitted
      && (Sure(t.cb) ==> Sure(s.cb) || (s.cb.at.CbStamp? && ok && LooksValid(s) && s.job.end == |s.audio.emitted|
                                        && s.job.state.Seeded?))
      && (t.audio.renderActive ==> s.audio.renderActive || s.cb.at.CbGoLive?)
  {
  }

  lemma {:induction false} BecomesSure(s: State, a: Action)
    requires Owned(s)
    ensures var t := Step(s, a);
      && (Sure(t.cb) ==> t.audio.emitted == s.audio.emitted)
      && (Sure(t.cb) ==> Sure(s.cb) || (s.cb.at.CbStamp? && a.Callback? && a.ok && LooksValid(s)
                                        && s.job.end == |s.audio.emitted| && s.job.state.Seeded?))
      && (t.audio.renderActive ==> s.audio.renderActive || (s.cb.at.CbGoLive? && a.Callback?))
  {
    hide ScanStep, ClaimStep, SwapStep, RoutingStep, RenderStep, SeedStep, BridgeStep, SeedJobStep, TakeStep, BuildStep,
      SlotInv, LiveInv, OwnerInv, LooksValid;
    match a
    case Callback(flag, ok, block, input) =>
      if Routing(s.cb.at) {
        RoutingIsQuiet(s, flag, ok);
      } else if Rendering(s.cb.at) {
        RenderIsQuiet(s, flag, ok, block, input);
      } else if Bridging(s.cb.at) {
        BridgeIsQuiet(s, flag, ok, block, input);
      } else if Answering(s.cb.at) {
        AnswerBecomesSure(s, ok);
      } else {
        SwitchIsQuiet(s);
      }
    case _ => OthersRest(s, a);
  }

  lemma SeededIsPublished(s: State)
    ensures s.job.state.Seeded? ==> !Unpublished(s)
  {
  }

  lemma {:induction false} SureIsStamped(s0: State, actions: seq<Action>, n: nat)
    requires Initial(s0) && n <= |actions|
    requires Sure(Reached(s0, actions, n).cb)
    ensures Stamped(s0, actions, n)
  {
    hide *;
    NothingAtStart(s0, actions);
    if n > 0 {
      var s := Reached(s0, actions, n - 1);
      ReachedNext(s0, actions, n - 1);
      ReachedIsSound(s0, actions, n - 1);
      BecomesSure(s, actions[n - 1]);
      if Sure(s.cb) {
        SureIsStamped(s0, actions, n - 1);
        StampedStill(s0, actions, n);
      } else {
        SeededIsIntact(s0, actions, n - 1);
        StampedNow(s0, actions, n - 1);
      }
    }
  }

  lemma {:induction false} SeededIsIntact(s0: State, actions: seq<Action>, n: nat)
    requires Initial(s0) && n <= |actions|
    requires Reached(s0, actions, n).job.state.Seeded? && LooksValid(Reached(s0, actions, n))
    ensures Intact(s0, actions, n)
  {
    hide Initial, Reached, Published, Intact, LooksValid;
    ValidityIsIntactness(s0, actions, n);
    SeededIsPublished(Reached(s0, actions, n));
  }

  lemma {:induction false} StampedStill(s0: State, actions: seq<Action>, n: nat)
    requires 0 < n <= |actions| && Stamped(s0, actions, n - 1)
    requires Reached(s0, actions, n).audio.emitted == Reached(s0, actions, n - 1).audio.emitted
    ensures Stamped(s0, actions, n)
  {
    hide Reached, Intact;
    var t :| 0 <= t < n - 1 && StampedAt(s0, actions, t, n - 1);
    assert StampedAt(s0, actions, t, n);
  }

  lemma {:induction false} StampedNow(s0: State, actions: seq<Action>, t: nat)
    requires t < |actions| && actions[t].Callback? && actions[t].ok && Intact(s0, actions, t)
    requires var s := Reached(s0, actions, t); s.cb.at.CbStamp? && s.job.end == |s.audio.emitted|
    requires Reached(s0, actions, t + 1).audio.emitted == Reached(s0, actions, t).audio.emitted
    ensures Stamped(s0, actions, t + 1)
  {
    hide Reached, Intact;
    assert StampedAt(s0, actions, t, t + 1);
  }

  /** Rendering through the stretcher starts only from an intact seed: between the step that
      published it and the one that stamped it, no discontinuity and no new pipeline was
      noticed, no block was rendered with keylock off, and track, seek and transport did not
      move; and it ends at the last emitted frame. */
  lemma {:induction false} LiveSeedsAreIntact(s0: State, actions: seq<Action>, k: nat) returns (j: nat, t: nat)
    requires Initial(s0) && k < |actions|
    requires !Reached(s0, actions, k).audio.renderActive && Reached(s0, actions, k + 1).audio.renderActive
    ensures j < t < k && IntactSince(s0, actions, j, t) && StampedAt(s0, actions, t, k)
    ensures Reached(s0, actions, t).job.end == |Reached(s0, actions, k).audio.emitted|
  {
    hide Step, Exec, Initial, PublishedAt, SpoiledAt;
    ReachedNext(s0, actions, k);
    ReachedIsSound(s0, actions, k);
    BecomesSure(Reached(s0, actions, k), actions[k]);
    SureIsStamped(s0, actions, k);
    t :| 0 <= t < k && StampedAt(s0, actions, t, k);
    j :| 0 <= j < t && IntactSince(s0, actions, j, t);
  }

  // A discontinuity is noticed, or a block is rendered while playback stands still.
  predicate Interrupts(s: State, a: Action)
  {
    a.Callback? && ((s.cb.at.CbDiscontinuity? && s.flags.discontinuity) || (s.cb.at.CbOffRender? && !a.flag))
  }

  // Playback started at position p or later, and a seed has to wait for it.
  predicate StartedSince(u: Audio, p: nat) { u.requireFresh && p <= u.playbackStart <= |u.emitted| }

  // Emitting goes on and playback starts again only at the end of what was emitted.
  predicate MovesOn(u: Audio, v: Audio)
  {
    && |u.emitted| <= |v.emitted| && (u.requireFresh ==> v.requireFresh)
    && (v.playbackStart == u.playbackStart || v.playbackStart == |v.emitted|)
  }

  lemma {:induction false} RoutingMovesOn(s: State, flag: bool, ok: bool)
    requires Routing(s.cb.at)
    ensures var v := RoutingStep(s, flag, ok).audio;
      && MovesOn(s.audio, v)
      && (s.cb.at.CbDiscontinuity? && s.flags.discontinuity ==> v.requireFresh && v.playbackStart == |v.emitted|)
  {
  }

  lemma {:induction false} RenderMovesOn(s: State, flag: bool, ok: bool, block: seq<Frame>, input: seq<Frame>)
    requires Rendering(s.cb.at)
    ensures var v := RenderStep(s, flag, ok, block, input).audio;
      && MovesOn(s.audio, v)
      && (s.cb.at.CbOffRender? && !flag ==> v.requireFresh && v.playbackStart == |v.emitted|)
  {
  }

  lemma {:induction false} BridgeMovesOn(s: State, flag: bool, ok: bool, block: seq<Frame>, input: seq<Frame>)
    requires Bridging(s.cb.at)
    ensures MovesOn(s.audio, BridgeStep(s, flag, ok, block, input).audio)
  {
  }

  lemma {:induction false} StepMovesOn(s: State, a: Action)
    ensures var v := Step(s, a).audio;
      MovesOn(s.audio, v) && (Interrupts(s, a) ==> v.requireFresh && v.playbackStart == |v.emitted|)
  {
    hide ScanStep, ClaimStep, SwapStep, RoutingStep, RenderStep, SeedStep, BridgeStep, SeedJobStep, TakeStep, BuildStep;
    if a.Callback? && Routing(s.cb.at) {
      RoutingMovesOn(s, a.flag, a.ok);
    } else if a.Callback? && Rendering(s.cb.at) {
      RenderMovesOn(s, a.flag, a.ok, a.block, a.input);
    } else if a.Callback? && Bridging(s.cb.at) {
      BridgeMovesOn(s, a.flag, a.ok, a.block, a.input);
    } else {
      AudioElsewhere(s, a);
    }
  }

  lemma {:induction false} RunRemembers(s0: State, actions: seq<Action>, i: nat, n: nat)
    requires i < n <= |actions| && Interrupts(Reached(s0, actions, i), actions[i])
    ensures StartedSince(Reached(s0, actions, n).audio, |Reached(s0, actions, i + 1).audio.emitted|)
  {
    hide Step, Reached, Interrupts;
    ReachedNext(s0, actions, n - 1);
    StepMovesOn(Reached(s0, actions, n - 1), actions[n - 1]);
    if i + 1 < n {
      RunRemembers(s0, actions, i, n - 1);
    }
  }

  /** A pipeline fed from the output history goes live without a frame that was emitted before
      the last discontinuity or pause: what it was fed fits in what was emitted since. */
  lemma {:induction false} SeedStartsAfterInterruption(s0: State, actions: seq<Action>, i: nat, n: nat)
    requires Initial(s0) && Undisturbed(s0, actions) && i < n <= |actions|
    requires Interrupts(Reached(s0, actions, i), actions[i])
    requires var s := Reached(s0, actions, n); s.cb.at.CbGoLive? && !s.pipes.readAhead.Get(s.active)
    ensures var s := Reached(s0, actions, n);
      |s.pipes.fed.Get(s.active)| <= |s.audio.emitted| - |Reached(s0, actions, i + 1).audio.emitted|
  {
    hide Step, Exec, Initial, Disturbs, Interrupts;
    RunRemembers(s0, actions, i, n);
    assert forall k :: 0 <= k < n ==> actions[..n][..k] == actions[..k] && actions[..n][k] == actions[k];
    FedIsOneWindow(s0, actions[..n]);
    hide EndsAt;
  }

  // Most steps leave these fields alone.
  lemma {:induction false} AudioElsewhere(s: State, a: Action)
    requires !a.Callback? || (!Routing(s.cb.at) && !Rendering(s.cb.at) && !Bridging(s.cb.at))
    ensures var u, v := s.audio, Step(s, a).audio;
      v.emitted == u.emitted && v.playbackStart == u.playbackStart && v.requireFresh == u.requireFresh
  {
  }

  // ---- What is raised is noticed ---------------------------------------------------------

  // A discontinuity, or with `swap` a new pipeline, is waiting to be noticed.
  predicate Waits(s: State, swap: bool) { if swap then s.flags.pending else s.flags.discontinuity }

  predicate Raises(a: Action, swap: bool) { if swap then a.RaisePending? else a.RaiseDiscontinuity? }

  // The callback's look for it.
  predicate LooksFor(s: State, a: Action, swap: bool)
  {
    a.Callback? && if swap then s.cb.at.CbPendingTest? else s.cb.at.CbDiscontinuity?
  }

  lemma {:induction false} StepKeepsWaiting(s: State, a: Action, swap: bool)
    ensures Raises(a, swap) || (Waits(s, swap) && !LooksFor(s, a, swap)) ==> Waits(Step(s, a), swap)
    ensures LooksFor(s, a, swap) && Waits(s, swap) ==> Spoils(s, a)
  {
    hide RenderStep, SeedStep, BridgeStep, SeedJobStep, TakeStep, BuildStep;
    if a.Callback? {
      FlagsElsewhere(s, a.flag, a.ok, a.block, a.input);
    } else if a.Worker? {
      WorkerRaisesNothing(s, a.ok, a.readAhead, a.latency);
    }
  }

  lemma FlagsElsewhere(s: State, flag: bool, ok: bool, block: seq<Frame>, input: seq<Frame>)
    ensures Rendering(s.cb.at) ==> RenderStep(s, flag, ok, block, input).flags == s.flags
    ensures Answering(s.cb.at) ==> SeedStep(s, ok).flags == s.flags
    ensures BridgeStep(s, flag, ok, block, input).flags == s.flags
  {
  }

  lemma WorkerRaisesNothing(s: State, ok: bool, readAhead: bool, latency: nat)
    ensures SeedJobStep(s, ok).flags == s.flags && TakeStep(s).flags == s.flags
    ensures BuildStep(s, ok, readAhead, latency).flags == s.flags
  {
  }

  /** A discontinuity or a new pipeline that is announced before the callback looks for it in a block
      has been noticed when it has looked, so that no seed published before the announcement is
      intact from then on. */
  lemma {:induction false} RaisedIsNoticed(s0: State, actions: seq<Action>, i: nat, n: nat, swap: bool)
    returns (m: nat)
    requires i < n < |actions| && Raises(actions[i], swap)
    requires LooksFor(Reached(s0, actions, n), actions[n], swap)
    ensures i < m <= n && SpoiledAt(s0, actions, m)
    ensures forall j, t :: 0 <= j <= i && n < t <= |actions| ==> !IntactSince(s0, actions, j, t)
  {
    hide Step, Spoils, Waits, Raises, LooksFor, Reached, PublishedAt;
    m := i;
    while m < n && (m == i || !SpoiledAt(s0, actions, m))
      invariant i <= m <= n
      invariant m == i || Waits(Reached(s0, actions, m), swap)
    {
      StepKeepsWaiting(Reached(s0, actions, m), actions[m], swap);
      ReachedNext(s0, actions, m);
      m := m + 1;
    }
    StepKeepsWaiting(Reached(s0, actions, m), actions[m], swap);
  }

  // How many frames a request has to make up for: those emitted since the intact seed it goes on
  // from, or 0 to start over.
  function Missed(s: State, catchup: bool): nat
  {
    if catchup && |s.audio.emitted| > s.job.end then |s.audio.emitted| - s.job.end else 0
  }

  /** A bridge block is emitted as it is, and the request after it publishes a seed for the active
      pipeline that ends with that block: exactly the missed frames, fed on top of what the
      pipeline has, when it goes on from an intact seed and the ring still has them; else a whole
      pre-roll after a reset. A pipeline fed from the output history is refused only while too
      few frames were emitted since playback started, one that reads ahead only when the source
      cannot give all frames. */
  lemma {:induction false} RequestOutcome(s: State, a: Action, b: Action)
    requires s.cb.at.CbBridge? && a.Callback? && b.Callback? && s.job.state.Idle? && s.job.end <= |s.audio.emitted|
    ensures var t := Step(s, a);
      && t.audio == s.audio.(emitted := s.audio.emitted + a.block) && t.job == s.job && t.pipes == s.pipes
      && t.active == s.active && t.cb.at == (if s.cb.request then CbRequest else CbOutside)
    ensures s.cb.request ==>
      var t := Step(s, a);
      var v, u, i, missed := Step(t, b), t.audio, s.cb.slot, Missed(t, s.cb.catchup);
      var goesOn := 0 < missed <= HISTORY;
      var length := if goesOn then missed else PreRoll(s.pipes.latency.Get(i));
      && (v.cb.at.CbPublish? || (v.cb.at.CbOutside? && v.job.state.Idle? && v.audio == u))
      && (v.cb.at.CbPublish? ==>
            && v.job == SeedJob(Idle, i, v.job.snapshot, !goesOn, |u.emitted|, s.flags.epoch)
            && |v.job.snapshot| == length && v.audio == u.(seedValid := true)
            && (if s.pipes.readAhead.Get(i) then v.job.snapshot == b.input
                else EndsAt(v.job.snapshot, u.emitted, |u.emitted|)))
      && (s.pipes.readAhead.Get(i) ==> (v.cb.at.CbPublish? <==> b.ok && b.flag && |b.input| == length))
      && (!s.pipes.readAhead.Get(i) ==>
            (v.cb.at.CbPublish? <==> b.ok && (u.requireFresh ==> length <= |u.emitted| - u.playbackStart)))
  {
    hide ScanStep, ClaimStep, SwapStep, RoutingStep, RenderStep, SeedStep, SeedJobStep, TakeStep, BuildStep, EndsAt;
  }

  /** What was published is offered to the worker with the callback's next step, as it is. */
  lemma {:induction false} PublishOutcome(s: State, a: Action)
    requires a.Callback? && s.cb.at.CbPublish?
    ensures Step(s, a) == s.(job := s.job.(state := Requested), cb := s.cb.(at := CbOutside))
  {
    hide ScanStep, ClaimStep, SwapStep, RoutingStep, RenderStep, SeedStep, SeedJobStep, TakeStep, BuildStep;
  }
}
