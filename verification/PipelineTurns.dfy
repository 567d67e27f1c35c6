/**
 What one pass of the callback and one pass of the worker come to when the other one does
 not interfere. The runs are those of StretchSeeding, taken from any sound state.
 */
module PipelineTurns {

  import opened EmittedStream
  import opened StretchSeeding

  // Only the callback moves.
  predicate OnlyCallback(actions: seq<Action>) { forall a :: a in actions ==> a.Callback? }

  // Only the worker moves.
  predicate OnlyWorker(actions: seq<Action>) { forall a :: a in actions ==> a.Worker? }

  lemma Join(s: State, p: seq<Action>, q: seq<Action>)
    ensures Exec(s, p + q) == Exec(Exec(s, p), q)
  {
    if q == [] {
      assert p + q == p;
    } else {
      var n := |q| - 1;
      Join(s, p, q[..n]);
      assert (p + q)[..|p + q| - 1] == p + q[..n];
    }
    hide Step;
  }

  lemma Once(s: State, a: Action)
    ensures Exec(s, [a]) == Step(s, a)
  {
    assert [a][..0] == [];
    hide Step;
  }

  lemma Twice(s: State, a: Action, b: Action)
    ensures Exec(s, [a, b]) == Step(Step(s, a), b)
  {
    Once(s, a);
    assert [a, b][..1] == [a];
    hide Step;
  }

  // ---- Activating a prepared pipeline ------------------------------------------------------

  // Slot i holds a finished pipeline of this configuration.
  predicate Offers(s: State, i: int, wanted: nat)
  {
    s.slots.Get(i).Prepared? && s.pipes.config.Get(i) == wanted
  }

  // After a look at it, an outdated pipeline is given back.
  function Looked(slots: Both<SlotState>, i: int): Both<SlotState>
  {
    if slots.Get(i).Prepared? then slots.Set(i, Empty) else slots
  }

  // The callback swapped in slot i: it is the active one, its configuration is the active one, a
  // new seed is needed before it renders, and the pipeline before it is given back.
  predicate SwappedIn(s: State, e: State, i: int, slots: Both<SlotState>)
  {
    && e == s.(slots := e.slots, active := i, audio := s.audio.(liveSlot := -1), cb := e.cb,
               flags := s.flags.(activeGeneration := s.pipes.config.Get(i), pending := true))
    && e.cb.at.CbDiscontinuity?
    && e.slots == (if 0 <= s.active < 2 && s.active != i then slots.Set(i, Active).Set(s.active, Empty)
                   else slots.Set(i, Active))
  }

  lemma {:induction false} SwapAlone(s: State) returns (run: seq<Action>)
    requires s.cb.at.CbSwap? && 0 <= s.cb.slot < 2
    ensures OnlyCallback(run)
    ensures var e, i := Exec(s, run), s.cb.slot;
      && e == s.(slots := e.slots, active := i, audio := s.audio.(liveSlot := -1), cb := e.cb,
                 flags := s.flags.(activeGeneration := s.pipes.config.Get(i), pending := true))
      && e.cb.at.CbDiscontinuity?
      && e.slots == (if 0 <= s.active < 2 && s.active != i then s.slots.Set(s.active, Empty) else s.slots)
  {
    SwapTurns(s);
    Twice(s, C, C);
    var t := Exec(s, [C, C]);
    hide Step, Exec;
    Twice(t, C, C);
    RetireTurns(t);
    Join(s, [C, C], [C, C]);
    run := [C, C] + [C, C];
  }

  lemma SwapTurns(s: State)
    requires s.cb.at.CbSwap? && 0 <= s.cb.slot < 2
    ensures var i := s.cb.slot;
      Step(Step(s, C), C) == s.(active := i, audio := s.audio.(liveSlot := -1),
                                flags := s.flags.(activeGeneration := s.pipes.config.Get(i)),
                                cb := s.cb.(at := CbMarkPending, prior := s.active))
  {
    hide ScanStep, ClaimStep, RoutingStep, RenderStep, SeedStep, BridgeStep, SeedJobStep, TakeStep, BuildStep;
  }

  lemma RetireTurns(s: State)
    requires s.cb.at.CbMarkPending?
    ensures var p := s.cb.prior;
      Step(Step(s, C), C) == s.(flags := s.flags.(pending := true), cb := s.cb.(at := CbDiscontinuity),
                                slots := if 0 <= p < 2 && p != s.cb.slot then s.slots.Set(p, Empty) else s.slots)
  {
    hide ScanStep, ClaimStep, RoutingStep, RenderStep, SeedStep, BridgeStep, SeedJobStep, TakeStep, BuildStep;
  }

  // From the look at slot i on.
  lemma {:induction false} LookAlone(s: State) returns (run: seq<Action>)
    requires s.cb.at.CbScan? && 0 <= s.cb.slot < 2
    ensures OnlyCallback(run)
    ensures var e, i := Exec(s, run), s.cb.slot;
      if Offers(s, i, s.cb.wanted) then e == s.(slots := s.slots.Set(i, Active), cb := s.cb.(at := CbSwap))
      else e == s.(slots := Looked(s.slots, i), cb := NextScan(s.cb))
  {
    hide ScanStep, ClaimStep, SwapStep, RoutingStep, RenderStep, SeedStep, BridgeStep, SeedJobStep, TakeStep, BuildStep;
    var i := s.cb.slot;
    Once(s, C);
    LookStep(s);
    if !s.slots.Get(i).Prepared? {
      run := [C];
    } else {
      Twice(s, C, C);
      ClaimTurn(Exec(s, [C]));
      if Offers(s, i, s.cb.wanted) {
        run := [C, C];
      } else {
        var t := Exec(s, [C, C]);
        Once(t, C);
        Join(s, [C, C], [C]);
        RefuseTurn(t);
        run := [C, C] + [C];
        assert s.slots.Set(i, Active).Set(i, Empty) == s.slots.Set(i, Empty);
      }
    }
  }

  lemma LookStep(s: State)
    requires s.cb.at.CbScan?
    ensures Step(s, C) == s.(cb := if s.slots.Get(s.cb.slot).Prepared? then s.cb.(at := CbClaim) else NextScan(s.cb))
  {
  }

  lemma ClaimTurn(s: State)
    requires s.cb.at.CbClaim? && s.slots.Get(s.cb.slot).Prepared?
    ensures var wanted := Offers(s, s.cb.slot, s.cb.wanted);
      Step(s, C) == s.(slots := s.slots.Set(s.cb.slot, Active),
                       cb := s.cb.(at := if wanted then CbSwap else CbRefuse))
  {
  }

  lemma RefuseTurn(s: State)
    requires s.cb.at.CbRefuse?
    ensures Step(s, C) == s.(slots := s.slots.Set(s.cb.slot, Empty), cb := NextScan(s.cb))
  {
  }

  /** One look for prepared pipelines. While a seed is in flight the callback does not look. Else it
      swaps in the first slot that offers the configuration wanted now, giving back the pipeline
      it replaces and what it found outdated on the way; if there is none it only gives back. */
  lemma {:induction false} ActivationAlone(s: State) returns (run: seq<Action>)
    requires Core(s) && s.cb.at.CbSeedCheck?
    ensures OnlyCallback(run)
    ensures var e, wanted := Exec(s, run), s.flags.desired;
      if !s.job.state.Idle? then e == s.(cb := e.cb) && e.cb.at.CbDiscontinuity?
      else if Offers(s, 0, wanted) then SwappedIn(s, e, 0, s.slots)
      else if Offers(s, 1, wanted) then SwappedIn(s, e, 1, Looked(s.slots, 0))
      else e == s.(slots := Looked(Looked(s.slots, 0), 1), cb := e.cb) && e.cb.at.CbDiscontinuity?
  {
    CheckStep(s);
    Once(s, C);
    if !s.job.state.Idle? {
      run := [C];
      return;
    }
    Twice(s, C, C);
    WantedStep(Exec(s, [C]));
    var t := Exec(s, [C, C]);
    hide Step, Core, Exec, Looked;
    var first := LookAlone(t);
    Join(s, [C, C], first);
    run := [C, C] + first;
    var u := Exec(s, run);
    if Offers(s, 0, s.flags.desired) {
      var swap := SwapAlone(u);
      Join(s, run, swap);
      run := run + swap;
    } else {
      var second := LookAlone(u);
      Join(s, run, second);
      run := run + second;
      if Offers(s, 1, s.flags.desired) {
        var v := Exec(s, run);
        var swap := SwapAlone(v);
        Join(s, run, swap);
        run := run + swap;
      }
    }
  }

  lemma CheckStep(s: State)
    requires s.cb.at.CbSeedCheck?
    ensures Step(s, C) == s.(cb := s.cb.(at := if s.job.state.Idle? then CbWanted else CbDiscontinuity))
  {
  }

  lemma WantedStep(s: State)
    requires s.cb.at.CbWanted?
    ensures Step(s, C) == s.(cb := s.cb.(at := CbScan, slot := 0, wanted := s.flags.desired))
  {
  }

  // ---- What is activated, whoever interferes -------------------------------------------------

  // The callback looks for the configuration `wanted`.
  predicate Looking(at: CallbackPoint)
  {
    at.CbScan? || at.CbClaim? || at.CbRefuse? || at.CbSwap?
  }

  lemma {:induction false} LooksOn(s: State, a: Action)
    ensures Looking(Step(s, a).cb.at) ==>
      && Step(s, a).active == s.active
      && if Looking(s.cb.at) then Step(s, a).cb.wanted == s.cb.wanted
         else s.cb.at.CbWanted? && a.Callback? && Step(s, a).cb.wanted == s.flags.desired
  {
    hide ScanStep, ClaimStep, SwapStep, SeedJobStep, TakeStep, BuildStep, RoutingStep, RenderStep, SeedStep, BridgeStep,
      Looking;
    if a.Callback? {
      RouteLooksNowhere(s, a.flag, a.ok, a.block, a.input);
      SeedLooksNowhere(s, a.flag, a.ok, a.block, a.input);
      LookStays(s);
    } else if a.Worker? {
      WorkerLooksNowhere(s, a.ok, a.readAhead, a.latency);
    }
  }

  lemma LookStays(s: State)
    ensures Scanning(s.cb.at) ==> LookedOn(s, ScanStep(s))
    ensures Claiming(s.cb.at) ==> LookedOn(s, ClaimStep(s))
    ensures Swapping(s.cb.at) ==> LookedOn(s, SwapStep(s))
  {
  }

  predicate LookedOn(s: State, t: State)
  {
    Looking(t.cb.at) ==>
      && t.active == s.active
      && if Looking(s.cb.at) then t.cb.wanted == s.cb.wanted else s.cb.at.CbWanted? && t.cb.wanted == s.flags.desired
  }

  lemma RouteLooksNowhere(s: State, flag: bool, ok: bool, block: seq<Frame>, input: seq<Frame>)
    ensures Routing(s.cb.at) ==> !Looking(RoutingStep(s, flag, ok).cb.at)
    ensures Rendering(s.cb.at) ==> !Looking(RenderStep(s, flag, ok, block, input).cb.at)
  {
  }

  lemma SeedLooksNowhere(s: State, flag: bool, ok: bool, block: seq<Frame>, input: seq<Frame>)
    ensures Answering(s.cb.at) ==> !Looking(SeedStep(s, ok).cb.at)
    ensures Bridging(s.cb.at) ==> !Looking(BridgeStep(s, flag, ok, block, input).cb.at)
  {
  }

  lemma WorkerLooksNowhere(s: State, ok: bool, readAhead: bool, latency: nat)
    ensures SeedJobStep(s, ok).cb == s.cb && SeedJobStep(s, ok).active == s.active
    ensures TakeStep(s).cb == s.cb && TakeStep(s).active == s.active
    ensures BuildStep(s, ok, readAhead, latency).cb == s.cb && BuildStep(s, ok, readAhead, latency).active == s.active
  {
  }

  lemma ExecNext(s: State, actions: seq<Action>, i: nat)
    requires i < |actions|
    ensures Exec(s, actions[..i + 1]) == Step(Exec(s, actions[..i]), actions[i])
  {
    assert actions[..i + 1][..i] == actions[..i];
    hide Step;
  }

  lemma StartsElsewhere(s0: State, actions: seq<Action>)
    requires Initial(s0)
    ensures !Looking(Exec(s0, actions[..0]).cb.at)
  {
  }

  // The step at which the callback last loaded the wanted configuration.
  lemma {:induction false} WantedSince(s0: State, actions: seq<Action>, n: nat) returns (w: nat)
    requires Initial(s0) && n <= |actions| && Looking(Exec(s0, actions[..n]).cb.at)
    ensures w < n && actions[w].Callback? && Exec(s0, actions[..w]).cb.at.CbWanted?
    ensures Exec(s0, actions[..w]).flags.desired == Exec(s0, actions[..n]).cb.wanted
    ensures forall i :: w < i <= n ==> Looking(Exec(s0, actions[..i]).cb.at)
  {
    hide Step, Exec, Looking, Initial;
    w := 0;
    StartsElsewhere(s0, actions);
    if n > 0 {
      ExecNext(s0, actions, n - 1);
      LooksOn(Exec(s0, actions[..n - 1]), actions[n - 1]);
      if Looking(Exec(s0, actions[..n - 1]).cb.at) {
        w := WantedSince(s0, actions, n - 1);
      } else {
        w := n - 1;
      }
    }
  }

  // What was claimed for the wanted configuration has it.
  predicate Claimed(s: State) { s.cb.at.CbSwap? ==> s.pipes.config.Get(s.cb.slot) == s.cb.wanted }

  lemma {:induction false} StepKeepsClaim(s: State, a: Action)
    requires Core(s) && Claimed(s)
    ensures Claimed(Step(s, a))
  {
    hide OwnerInv, LiveInv;
    if a.Callback? && !Scanning(s.cb.at) && !Claiming(s.cb.at) && !Swapping(s.cb.at) {
      hide RoutingStep, RenderStep, SeedStep, BridgeStep, SeedJobStep, TakeStep, BuildStep;
      RouteLooksNowhere(s, a.flag, a.ok, a.block, a.input);
      SeedLooksNowhere(s, a.flag, a.ok, a.block, a.input);
    }
  }

  lemma {:induction false} RunKeepsClaim(s0: State, actions: seq<Action>, n: nat)
    requires Initial(s0) && Undisturbed(s0, actions) && n <= |actions|
    ensures Core(Exec(s0, actions[..n])) && Claimed(Exec(s0, actions[..n]))
  {
    assert forall k :: 0 <= k < n ==> actions[..n][..k] == actions[..k] && actions[..n][k] == actions[k];
    RunKeepsInvariant(s0, actions[..n]) by { hide Disturbs, Core, Fresh, Exec; }
    if n == 0 {
      assert actions[..0] == [];
    } else {
      hide Step, Core, Claimed, Initial, Disturbs, Fresh;
      RunKeepsClaim(s0, actions, n - 1);
      ExecNext(s0, actions, n - 1);
      StepKeepsClaim(Exec(s0, actions[..n - 1]), actions[n - 1]);
    }
  }

  lemma {:induction false} OnlySwapActivates(s: State, a: Action)
    ensures Step(s, a).active != s.active ==> s.cb.at.CbSwap? && a.Callback? && Step(s, a).active == s.cb.slot
  {
  }

  /** The pipeline that becomes active has the configuration that was wanted when this block began
      to look for one. */
  lemma {:induction false} ActiveIsWanted(s0: State, actions: seq<Action>, k: nat) returns (w: nat)
    requires Initial(s0) && Undisturbed(s0, actions) && k < |actions|
    requires Exec(s0, actions[..k + 1]).active != Exec(s0, actions[..k]).active
    ensures var s, e := Exec(s0, actions[..k]), Exec(s0, actions[..k + 1]);
      && w < k && Exec(s0, actions[..w]).cb.at.CbWanted?
      && (forall i :: w < i <= k ==> Looking(Exec(s0, actions[..i]).cb.at))
      && 0 <= e.active < 2 && e.pipes.config.Get(e.active) == Exec(s0, actions[..w]).flags.desired
      && e.slots.Get(e.active).Active?
  {
    ExecNext(s0, actions, k);
    OnlySwapActivates(Exec(s0, actions[..k]), actions[k]);
    RunKeepsClaim(s0, actions, k);
    SwapTurn(Exec(s0, actions[..k]), actions[k]);
    hide Exec, Step, Initial, Disturbs, Core;
    w := WantedSince(s0, actions, k);
  }

  lemma SwapTurn(s: State, a: Action)
    requires Core(s) && Claimed(s)
    ensures s.cb.at.CbSwap? && a.Callback? ==>
      var e := Step(s, a);
      0 <= e.active < 2 && e.slots.Get(e.active).Active? && e.pipes.config.Get(e.active) == s.cb.wanted
  {
    hide OwnerInv, LiveInv, ScanStep, ClaimStep, RoutingStep, RenderStep, SeedStep, BridgeStep;
  }

  // The claimed slot was given back, and the worker is about to look for what is wanted.
  const GIVEN_BACK := CROSSED.(
    slots := Both(Active, Empty), cb := CROSSED.cb.(at := CbSwap), wk := WorkerState(WkDesired, 1, 0, 3, 1, false))

  lemma WorkerGivesBack(start: seq<Action>) returns (run: seq<Action>)
    requires Exec(START, start) == CROSSED
    ensures Exec(START, run) == GIVEN_BACK
  {
    hide Exec, ScanStep, SwapStep, RoutingStep, RenderStep, SeedStep, BridgeStep, BuildStep;
    run := Extend(START, start, C);
    run := Extend(START, run, W);
    run := Extend(START, run, W);
  }

  lemma WorkerRebuildsClaimed(start: seq<Action>) returns (run: seq<Action>)
    requires Exec(START, start) == GIVEN_BACK
    ensures var s := Exec(START, run);
      s.active == 0 && s.cb.at.CbSwap? && s.cb.slot == 1 && s.cb.wanted == 2 && s.pipes.config.Get(1) == 3
  {
    hide Exec, ScanStep, ClaimStep, SwapStep, RoutingStep, RenderStep, SeedStep, BridgeStep, SeedJobStep;
    run := Extend(START, start, W);
    run := Extend(START, run, W);
    run := Extend(START, run, W);
    run := Extend(START, run, W);
    run := Extend(START, run, W);
  }

  /** After a disturbing claim that can fail: in this run the callback claims configuration 2, the
      worker rebuilds the slot for configuration 3, and the callback swaps that one in. */
  lemma DisturbedActivation() returns (run: seq<Action>)
    ensures Initial(START) && run != []
    ensures var s, e := Exec(START, run[..|run| - 1]), Exec(START, run);
      && s.active == 0 && e.active == 1
      && e.pipes.config.Get(1) == 3 && e.cb.wanted == s.cb.wanted == 2
  {
    run := WorkerBuilds();
    run := CallbackArrives(run);
    run := WorkerArrives(run);
    run := WorkerGivesBack(run);
    run := WorkerRebuildsClaimed(run);
    var before := run;
    run := Extend(START, before, C);
    assert run[..|run| - 1] == before;
    hide Exec;
  }

  // ---- How a block is rendered -------------------------------------------------------------

  // A pending discontinuity is noticed: a seed of before is worthless and playback starts here.
  function Noticed(s: State): State
  {
    s.(audio := if s.flags.discontinuity
                then s.audio.(playbackStart := |s.audio.emitted|, requireFresh := true, seedValid := false)
                else s.audio,
       flags := s.flags.(discontinuity := false))
  }

  /** How the callback decides to render. With keylock wanted and a pipeline active it goes through
      that pipeline if it renders already and no new one was swapped in, and looks for a seed
      otherwise. Without keylock it fades out what it renders, if it may, and else plays direct;
      then no seed is valid any more, and a finished one is given up. */
  lemma {:induction false} RoutingAlone(s: State, flag: bool, ok: bool) returns (run: seq<Action>)
    requires s.cb.at.CbDiscontinuity?
    ensures OnlyCallback(run)
    ensures var e, n := Exec(s, run), Noticed(s);
      if 0 <= s.active < 2 && flag then
        var through := s.audio.renderActive && !s.flags.pending;
        && e.cb == n.cb.(at := if through then CbLive else CbSeedLoad, slot := s.active)
        && e.audio == (if s.flags.pending then n.audio.(seedValid := false, renderActive := false) else n.audio)
        && e == n.(audio := e.audio, cb := e.cb, flags := n.flags.(pending := false))
      else if 0 <= s.active < 2 && s.audio.renderActive && ok && !s.flags.pending then
        e == n.(cb := n.cb.(at := CbFade, slot := s.active))
      else
        && e.cb.at.CbOffRender?
        && e == n.(audio := n.audio.(renderActive := false, seedValid := false), cb := e.cb,
                   job := if s.job.state.Seeded? then s.job.(state := Idle) else s.job)
  {
    hide Exec, Step;
    var a := Callback(flag, ok, [], []);
    DecisionTurns(s, a);
    Twice(s, a, a);
    var t := Exec(s, [a, a]);
    Once(t, a);
    Twice(t, a, a);
    RouteTurn(t, a);
    if t.cb.at.CbFadeCheck? && s.flags.pending {
      RouteTurn(Exec(t, [a]), a);
      Join(s, [a, a], [a, a]);
      run := [a, a] + [a, a];
    } else {
      Join(s, [a, a], [a]);
      run := [a, a] + [a];
    }
  }

  lemma DecisionTurns(s: State, a: Action)
    requires s.cb.at.CbDiscontinuity? && a.Callback?
    ensures var n := Noticed(s);
      Step(Step(s, a), a) ==
      if 0 <= s.active < 2 && a.flag then n.(cb := s.cb.(at := CbPendingTest, slot := s.active))
      else if 0 <= s.active < 2 && s.audio.renderActive && a.ok
      then n.(cb := s.cb.(at := CbFadeCheck, slot := s.active))
      else n.(cb := s.cb.(at := CbOff))
  {
    hide ScanStep, ClaimStep, SwapStep, SeedStep, BridgeStep, SeedJobStep, TakeStep, BuildStep, RenderStep;
  }

  lemma RouteTurn(s: State, a: Action)
    requires a.Callback?
    ensures s.cb.at.CbFadeCheck? ==> Step(s, a) == s.(cb := s.cb.(at := if s.flags.pending then CbOff else CbFade))
    ensures s.cb.at.CbOff? ==>
      Step(s, a) == s.(audio := s.audio.(renderActive := false, seedValid := false), cb := s.cb.(at := CbOffRender),
                       job := if s.job.state.Seeded? then s.job.(state := Idle) else s.job)
    ensures s.cb.at.CbPendingTest? ==>
      Step(s, a) == s.(audio := if s.flags.pending then s.audio.(seedValid := false, renderActive := false)
                                else s.audio,
                       cb := s.cb.(at := if s.audio.renderActive && !s.flags.pending then CbLive else CbSeedLoad),
                       flags := s.flags.(pending := false))
  {
    hide ScanStep, ClaimStep, SwapStep, SeedStep, BridgeStep, SeedJobStep, TakeStep, BuildStep;
  }

  /** Every block is emitted once, whichever way it is rendered. A fade lets go of the pipeline when
      it is done, a pipeline that reads ahead when reading fails; and playback that stands still
      starts again after the block. What a pipeline renders it was fed. */
  lemma {:induction false} RenderOutcome(s: State, flag: bool, ok: bool, block: seq<Frame>, input: seq<Frame>)
    requires s.cb.at.CbFade? || s.cb.at.CbOffRender? || s.cb.at.CbLive?
    ensures var e := Step(s, Callback(flag, ok, block, input)); var u, v := s.audio, e.audio;
      && e.cb.at.CbOutside? && v.emitted == u.emitted + block && v.seedValid == u.seedValid
      && e == s.(pipes := e.pipes, audio := v, cb := e.cb)
      && v.renderActive == (if s.cb.at.CbFade? then flag
                            else if s.cb.at.CbLive? then s.pipes.readAhead.Get(s.cb.slot) ==> ok else u.renderActive)
      && (if s.cb.at.CbOffRender? && !flag then v.requireFresh && v.playbackStart == |v.emitted|
          else v.requireFresh == u.requireFresh && v.playbackStart == u.playbackStart)
      && e.pipes == (if s.cb.at.CbOffRender? then s.pipes
                     else s.pipes.(fed := s.pipes.fed.Set(s.cb.slot, s.pipes.fed.Get(s.cb.slot) + input)))
  {
    hide ScanStep, ClaimStep, SwapStep, RoutingStep, SeedStep, BridgeStep, SeedJobStep, TakeStep, BuildStep;
  }

  // ---- The worker's seed job ----------------------------------------------------------------

  lemma {:induction false} FeedAlone(s: State) returns (run: seq<Action>)
    requires s.wk.at.WkFeed? && s.wk.offset <= |s.job.snapshot| && 0 <= s.wk.slot < 2
    ensures OnlyWorker(run)
    ensures var e, i := Exec(s, run), s.wk.slot;
      && e == s.(pipes := s.pipes.(fed := s.pipes.fed.Set(i, s.pipes.fed.Get(i) + s.job.snapshot[s.wk.offset..])),
                 wk := e.wk)
      && e.wk.at.WkDone? && e.wk.stopped == s.wk.stopped
    decreases |s.job.snapshot| - s.wk.offset
  {
    var t := Step(s, W);
    Once(s, W);
    FeedStep(s);
    hide Step;
    if s.wk.offset >= |s.job.snapshot| {
      run := [W];
      assert s.pipes.fed.Get(s.wk.slot) + s.job.snapshot[s.wk.offset..] == s.pipes.fed.Get(s.wk.slot);
      SetSame(s.pipes.fed, s.wk.slot);
    } else {
      var rest := FeedAlone(t);
      Join(s, [W], rest);
      run := [W] + rest;
      var fed, from, to := s.pipes.fed.Get(s.wk.slot), s.wk.offset, t.wk.offset;
      assert fed + s.job.snapshot[from..to] + s.job.snapshot[to..] == fed + s.job.snapshot[from..];
    }
  }

  lemma SetSame<T>(b: Both<T>, i: int)
    requires 0 <= i < 2
    ensures b.Set(i, b.Get(i)) == b
  {
  }

  // Frames go in by batches of at most 512.
  lemma FeedStep(s: State)
    requires s.wk.at.WkFeed? && 0 <= s.wk.slot < 2
    ensures var t, i := Step(s, W), s.wk.slot;
      if s.wk.offset >= |s.job.snapshot| then t == s.(wk := s.wk.(at := WkDone))
      else
        var next := t.wk.offset;
        && s.wk.offset < next <= |s.job.snapshot| && next <= s.wk.offset + MAX_PULL
        && t == s.(pipes := s.pipes.(fed := s.pipes.fed.Set(i, s.pipes.fed.Get(i) + s.job.snapshot[s.wk.offset..next])),
                   wk := s.wk.(offset := next))
  {
  }

  /** The worker takes a requested seed before anything else, and feeds the whole snapshot to the
      stretcher, after a reset if the job says so. Then the seed is finished. */
  lemma {:induction false} SeedJobAlone(s: State) returns (run: seq<Action>)
    requires Core(s) && Fresh(s) && s.wk.at.WkTop? && !s.wk.stopped && s.job.state.Requested?
    ensures OnlyWorker(run)
    ensures var e, i := Exec(s, run), s.job.slot;
      var base := if s.job.needsReset then [] else s.pipes.fed.Get(i);
      && e == s.(pipes := s.pipes.(fed := s.pipes.fed.Set(i, base + s.job.snapshot)),
                 job := s.job.(state := Seeded), wk := e.wk)
      && e.wk.at.WkTop? && !e.wk.stopped
  {
    var i := s.job.slot;
    assert 0 <= i < 2 && |s.job.snapshot| > 0 by { hide EndsAt, SlotInv, LiveInv; }
    Twice(s, W, W);
    var t := Exec(s, [W, W]);
    Twice(t, W, W);
    Join(s, [W, W], [W, W]);
    run := [W, W] + [W, W];
    var u := Exec(s, run);
    TakeSeed(s);
    hide Step, Core, Fresh, Exec;
    var feed := FeedAlone(u);
    Join(s, run, feed);
    run := run + feed;
    var v := Exec(s, run);
    Once(v, W);
    DoneStep(v);
    Join(s, run, [W]);
    run := run + [W];
    assert s.job.snapshot[0..] == s.job.snapshot;
  }

  lemma TakeSeed(s: State)
    requires s.wk.at.WkTop? && !s.wk.stopped && s.job.state.Requested? && 0 <= s.job.slot < 2 && |s.job.snapshot| > 0
    ensures var u, i := Step(Step(Step(Step(s, W), W), W), W), s.job.slot;
      && u == s.(pipes := if s.job.needsReset then s.pipes.(fed := s.pipes.fed.Set(i, [])) else s.pipes,
                 job := s.job.(state := Seeding), wk := u.wk)
      && u.wk.at.WkFeed? && u.wk.slot == i && u.wk.offset == 0 && !u.wk.stopped
  {
    hide TakeStep, BuildStep, ScanStep, ClaimStep, SwapStep, RoutingStep, RenderStep, SeedStep, BridgeStep;
  }

  lemma DoneStep(s: State)
    requires s.wk.at.WkDone?
    ensures Step(s, W) == s.(job := s.job.(state := Seeded), wk := s.wk.(at := WkTop))
  {
  }

  /** A worker that is stopped while it waits with a seed job leaves the job as it is, and takes at
      most one more rebuild; after that it does nothing. */
  lemma {:induction false} StoppedWorkerEnds(s: State, a: Action)
    requires a.Worker?
    ensures s.wk.at.WkGate? ==>
      Step(s, a) == s.(wk := if a.ok then s.wk.(at := WkSlot) else s.wk.(at := WkDesired, stopped := true))
    ensures s.wk.stopped && !SeedWork(s.wk.at) ==>
      Step(s, a).job == s.job && Step(s, a).wk.stopped && (SeedWork(Step(s, a).wk.at) ==> Step(s, a).wk.at.WkTop?)
    ensures s.wk.stopped && s.wk.at.WkTop? ==> Step(s, a) == s
  {
    hide ScanStep, ClaimStep, SwapStep, RoutingStep, RenderStep, SeedStep, BridgeStep;
  }

  // ---- The worker's rebuild ------------------------------------------------------------------

  // The slot that the worker would rebuild.
  function Spare(active: int): int { if active == 0 then 1 else 0 }

  // A pipeline of the wanted configuration, new and unfed, waits to be swapped in.
  predicate Built(s: State, e: State, i: int, readAhead: bool, latency: nat)
  {
    && e == s.(slots := s.slots.Set(i, Prepared),
               pipes := Pipelines(s.pipes.config.Set(i, s.flags.desired), s.pipes.readAhead.Set(i, readAhead),
                                  s.pipes.latency.Set(i, latency), s.pipes.fed.Set(i, [])),
               wk := e.wk)
    && e.wk.observed == s.flags.desired
  }

  lemma {:induction false} ChooseAlone(s: State)
    requires s.wk.at.WkTop? && !s.wk.stopped && !s.job.state.Requested? && s.flags.desired != s.wk.observed
    ensures var t := Step(Step(Step(Step(s, W), W), W), W);
      t == s.(wk := s.wk.(at := WkCas, slot := Spare(s.active), config := s.flags.desired, observed := s.flags.desired))
  {
    hide BuildStep, ScanStep, ClaimStep, SwapStep, RoutingStep, RenderStep, SeedStep, BridgeStep;
  }

  lemma {:induction false} BuildAlone(s: State, a: Action)
    requires s.wk.at.WkPrepare? && a.Worker? && 0 <= s.wk.slot < 2 && s.wk.config == s.flags.desired
    ensures !a.ok ==> Step(s, a) == s.(slots := s.slots.Set(s.wk.slot, Empty), wk := s.wk.(at := WkTop))
    ensures a.ok ==> var e := Step(Step(Step(s, a), a), a);
      && e.wk == s.wk.(at := WkTop)
      && e == s.(slots := s.slots.Set(s.wk.slot, Prepared),
                 pipes := Pipelines(s.pipes.config.Set(s.wk.slot, s.wk.config),
                                    s.pipes.readAhead.Set(s.wk.slot, a.readAhead),
                                    s.pipes.latency.Set(s.wk.slot, a.latency), s.pipes.fed.Set(s.wk.slot, [])),
                 wk := e.wk)
  {
    hide SeedJobStep, TakeStep, ScanStep, ClaimStep, SwapStep, RoutingStep, RenderStep, SeedStep, BridgeStep;
  }

  /** One rebuild. When another configuration is wanted and the slot that is not active is empty, the
      worker builds that configuration there, or leaves the slot empty when it cannot. A pipeline
      that waits there with another configuration is given back, and the worker will try again
      unless the active one is what is wanted. Nothing else is touched. */
  lemma {:induction false} RebuildAlone(s: State, ok: bool, readAhead: bool, latency: nat) returns (run: seq<Action>)
    requires Core(s) && s.wk.at.WkTop? && !s.wk.stopped && !s.job.state.Requested?
    ensures OnlyWorker(run)
    ensures var e, i := Exec(s, run), Spare(s.active);
      && e.wk.at.WkTop? && !e.wk.stopped
      && if s.flags.desired == s.wk.observed then e == s
         else if s.slots.Get(i).Empty? then
           if ok then Built(s, e, i, readAhead, latency)
           else e == s.(wk := e.wk) && e.wk.observed == s.flags.desired
         else if s.slots.Get(i).Prepared? && s.pipes.config.Get(i) != s.flags.desired then
           e == s.(slots := s.slots.Set(i, Empty), wk := e.wk) && e.wk.observed == s.flags.activeGeneration
         else e == s.(wk := e.wk) && e.wk.observed == s.flags.desired
  {
    var a := Worker(ok, readAhead, latency);
    if s.flags.desired == s.wk.observed {
      IdleTurn(s);
      Twice(s, W, W);
      run := [W, W];
      return;
    }
    ChooseAlone(s);
    Twice(s, W, W);
    Twice(Exec(s, [W, W]), W, W);
    Join(s, [W, W], [W, W]);
    run := [W, W] + [W, W];
    var t := Exec(s, run);
    Once(t, W);
    TakeTurn(t);
    Join(s, run, [W]);
    run := run + [W];
    var u, i := Exec(s, run), Spare(s.active);
    hide Step, Core, Exec;
    if s.slots.Get(i).Empty? {
      BuildAlone(u, a);
      Once(u, a);
      if ok {
        Twice(u, a, a);
        Once(Exec(u, [a, a]), a);
        Join(u, [a, a], [a]);
        Join(s, run, [a, a] + [a]);
        run := run + ([a, a] + [a]);
        assert s.slots.Set(i, Preparing).Set(i, Prepared) == s.slots.Set(i, Prepared);
      } else {
        Join(s, run, [a]);
        run := run + [a];
        assert s.slots.Set(i, Preparing).Set(i, Empty) == s.slots;
      }
    } else if u.wk.at.WkReclaim? {
      Once(u, W);
      ReclaimTurn(u);
      Join(s, run, [W]);
      run := run + [W];
    }
  }

  lemma IdleTurn(s: State)
    requires s.wk.at.WkTop? && !s.wk.stopped && !s.job.state.Requested? && s.flags.desired == s.wk.observed
    ensures Step(Step(s, W), W) == s
  {
    hide BuildStep, ScanStep, ClaimStep, SwapStep, RoutingStep, RenderStep, SeedStep, BridgeStep;
  }

  lemma TakeTurn(s: State)
    requires s.wk.at.WkCas?
    ensures var i := s.wk.slot;
      Step(s, W) ==
      if s.slots.Get(i).Empty? then s.(slots := s.slots.Set(i, Preparing), wk := s.wk.(at := WkPrepare))
      else if s.slots.Get(i).Prepared? && s.pipes.config.Get(i) != s.wk.config then s.(wk := s.wk.(at := WkReclaim))
      else s.(wk := s.wk.(at := WkTop))
  {
  }

  lemma ReclaimTurn(s: State)
    requires s.wk.at.WkReclaim?
    ensures Step(s, W) == s.(slots := s.slots.Set(s.wk.slot, Empty),
                             wk := s.wk.(at := WkTop, observed := s.flags.activeGeneration))
  {
  }

  /** A pipeline that was superseded while it was built is not offered: its slot is emptied, and the
      worker will try again unless the active one is what is wanted. */
  lemma {:induction false} SupersededAlone(s: State) returns (run: seq<Action>)
    requires s.wk.at.WkLatest? && s.flags.desired != s.wk.config
    ensures OnlyWorker(run)
    ensures Exec(s, run) == s.(slots := s.slots.Set(s.wk.slot, Empty),
                               wk := s.wk.(at := WkTop, observed := s.flags.activeGeneration))
  {
    hide SeedJobStep, TakeStep, ScanStep, ClaimStep, SwapStep, RoutingStep, RenderStep, SeedStep, BridgeStep;
    Twice(s, W, W);
    run := [W, W];
  }

  // ---- Every block ends, and is emitted once -------------------------------------------------

  // How many steps of the callback are left in a block, at most.
  function StepsLeft(cb: CallbackState): nat
  {
    match cb.at
    case CbOutside => 0
    case CbSeedCheck => 21
    case CbWanted => 20
    case CbScan => if cb.slot == 0 then 19 else 16
    case CbClaim => if cb.slot == 0 then 18 else 15
    case CbRefuse => if cb.slot == 0 then 17 else 14
    case CbSwap => 13
    case CbPublishGeneration => 12
    case CbMarkPending => 11
    case CbRetire => 10
    case CbDiscontinuity => 9
    case CbDecide => 8
    case CbPendingTest => 7
    case CbSeedLoad => 6
    case CbStamp => 5
    case CbConsume => 4
    case CbFadeCheck => 3
    case CbBridge => 3
    case CbOff => 2
    case CbGoLive => 2
    case CbRequest => 2
    case CbFade => 1
    case CbOffRender => 1
    case CbLive => 1
    case CbPublish => 1
  }

  lemma SwitchEnds(s: State)
    ensures Scanning(s.cb.at) ==> StepsLeft(ScanStep(s).cb) < StepsLeft(s.cb)
    ensures Claiming(s.cb.at) ==> StepsLeft(ClaimStep(s).cb) < StepsLeft(s.cb)
    ensures Swapping(s.cb.at) ==> StepsLeft(SwapStep(s).cb) < StepsLeft(s.cb)
  {
  }

  lemma RouteEnds(s: State, flag: bool, ok: bool)
    requires Routing(s.cb.at) && !s.cb.at.CbOutside?
    ensures StepsLeft(RoutingStep(s, flag, ok).cb) < StepsLeft(s.cb)
  {
  }

  lemma RenderEnds(s: State, flag: bool, ok: bool, block: seq<Frame>, input: seq<Frame>)
    requires Rendering(s.cb.at)
    ensures StepsLeft(RenderStep(s, flag, ok, block, input).cb) < StepsLeft(s.cb)
  {
  }

  lemma SeedEnds(s: State, ok: bool)
    requires Answering(s.cb.at)
    ensures StepsLeft(SeedStep(s, ok).cb) < StepsLeft(s.cb)
  {
  }

  lemma BridgeEnds(s: State, flag: bool, ok: bool, block: seq<Frame>, input: seq<Frame>)
    requires Bridging(s.cb.at)
    ensures StepsLeft(BridgeStep(s, flag, ok, block, input).cb) < StepsLeft(s.cb)
  {
  }

  /** The callback never waits for anybody: every one of its steps brings the end of the block
      nearer, and no other thread moves it. */
  lemma {:induction false} BlockEnds(s: State, a: Action)
    ensures a.Callback? && !s.cb.at.CbOutside? ==> StepsLeft(Step(s, a).cb) < StepsLeft(s.cb) <= 21
    ensures !a.Callback? ==> Step(s, a).cb == s.cb
  {
    hide ScanStep, ClaimStep, SwapStep, SeedJobStep, TakeStep, BuildStep, RoutingStep, RenderStep, SeedStep, BridgeStep;
    if a.Worker? {
      WorkerLooksNowhere(s, a.ok, a.readAhead, a.latency);
    } else if a.Callback? && !s.cb.at.CbOutside? {
      if Routing(s.cb.at) {
        RouteEnds(s, a.flag, a.ok);
      } else if Rendering(s.cb.at) {
        RenderEnds(s, a.flag, a.ok, a.block, a.input);
      } else if Answering(s.cb.at) {
        SeedEnds(s, a.ok);
      } else if Bridging(s.cb.at) {
        BridgeEnds(s, a.flag, a.ok, a.block, a.input);
      } else {
        SwitchEnds(s);
      }
    }
  }

  /** Without a finished seed a bridge block is played, and a seed is requested after it exactly when
      none is on its way. */
  lemma {:induction false} NoSeedIsBridged(s: State, a: Action)
    requires a.Callback? && s.cb.at.CbSeedLoad? && !s.job.state.Seeded?
    ensures Step(s, a) == s.(cb := s.cb.(at := CbBridge, request := s.job.state.Idle?, catchup := false))
  {
    hide ScanStep, ClaimStep, SwapStep, RoutingStep, RenderStep, BridgeStep;
  }

  // The steps that emit a block.
  predicate Emits(at: CallbackPoint) { at.CbFade? || at.CbOffRender? || at.CbLive? || at.CbBridge? }

  // The block that the callback is at is still to be emitted.
  predicate Owes(at: CallbackPoint) { !at.CbOutside? && !at.CbRequest? && !at.CbPublish? }

  // One step, as far as it concerns what is emitted.
  predicate EmitsOnce(s: State, t: State, block: seq<Frame>)
  {
    && t.audio.emitted == (if Emits(s.cb.at) then s.audio.emitted + block else s.audio.emitted)
    && (if Emits(s.cb.at) then Owes(s.cb.at) && !Owes(t.cb.at)
        else if s.cb.at.CbOutside? then Owes(t.cb.at)
        else Owes(t.cb.at) == Owes(s.cb.at))
  }

  lemma SwitchEmits(s: State)
    ensures Scanning(s.cb.at) ==> EmitsOnce(s, ScanStep(s), [])
    ensures Claiming(s.cb.at) ==> EmitsOnce(s, ClaimStep(s), [])
    ensures Swapping(s.cb.at) ==> EmitsOnce(s, SwapStep(s), [])
  {
  }

  lemma RouteEmits(s: State, flag: bool, ok: bool, block: seq<Frame>, input: seq<Frame>)
    ensures Routing(s.cb.at) ==> EmitsOnce(s, RoutingStep(s, flag, ok), block)
    ensures Rendering(s.cb.at) ==> EmitsOnce(s, RenderStep(s, flag, ok, block, input), block)
  {
  }

  lemma SeedEmits(s: State, flag: bool, ok: bool, block: seq<Frame>, input: seq<Frame>)
    ensures Answering(s.cb.at) ==> EmitsOnce(s, SeedStep(s, ok), block)
    ensures Bridging(s.cb.at) ==> EmitsOnce(s, BridgeStep(s, flag, ok, block, input), block)
  {
  }

  lemma {:induction false} StepEmits(s: State, a: Action)
    ensures var t := Step(s, a);
      if a.Callback? then EmitsOnce(s, t, a.block) else t.cb == s.cb && t.audio.emitted == s.audio.emitted
  {
    if a.Callback? {
      SwitchEmits(s);
      RouteEmits(s, a.flag, a.ok, a.block, a.input);
      SeedEmits(s, a.flag, a.ok, a.block, a.input);
      hide ScanStep, ClaimStep, SwapStep, RoutingStep, RenderStep, SeedStep, BridgeStep;
    }
  }

  // How many blocks a run begins.
  function Begun(s0: State, actions: seq<Action>): nat
  {
    if actions == [] then 0
    else
      var n := |actions| - 1;
      Begun(s0, actions[..n])
      + (if actions[n].Callback? && Exec(s0, actions[..n]).cb.at.CbOutside? then 1 else 0)
  }

  // The blocks that a run emits.
  function Blocks(s0: State, actions: seq<Action>): seq<seq<Frame>>
  {
    if actions == [] then []
    else
      var n := |actions| - 1;
      var before := Blocks(s0, actions[..n]);
      if actions[n].Callback? && Emits(Exec(s0, actions[..n]).cb.at) then before + [actions[n].block] else before
  }

  function Joined(blocks: seq<seq<Frame>>): seq<Frame>
  {
    if blocks == [] then [] else Joined(blocks[..|blocks| - 1]) + blocks[|blocks| - 1]
  }

  lemma JoinedNext(blocks: seq<seq<Frame>>, block: seq<Frame>)
    ensures Joined(blocks + [block]) == Joined(blocks) + block
  {
    assert (blocks + [block])[..|blocks|] == blocks;
  }

  // The blocks make up what was emitted after `before`, and one of those begun may be owed.
  predicate Account(s: State, before: seq<Frame>, begun: nat, blocks: seq<seq<Frame>>)
  {
    && |blocks| + (if Owes(s.cb.at) then 1 else 0) == begun
    && s.audio.emitted == before + Joined(blocks)
  }

  lemma {:induction false} StepKeepsAccount(s: State, a: Action, before: seq<Frame>, begun: nat,
                                            blocks: seq<seq<Frame>>)
    requires Account(s, before, begun, blocks)
    ensures Account(Step(s, a), before, begun + (if a.Callback? && s.cb.at.CbOutside? then 1 else 0),
                    if a.Callback? && Emits(s.cb.at) then blocks + [a.block] else blocks)
  {
    StepEmits(s, a);
    if a.Callback? {
      JoinedNext(blocks, a.block);
      assert before + Joined(blocks) + a.block == before + (Joined(blocks) + a.block);
    }
    hide Step, Joined;
  }

  /** In every run, whatever is swapped, seeded or given up meanwhile, the emitted stream is made of
      one block for every callback that has rendered, in order. */
  lemma {:induction false} EveryBlockOnce(s0: State, actions: seq<Action>)
    requires s0.cb.at.CbOutside?
    ensures var e := Exec(s0, actions);
      && |Blocks(s0, actions)| + (if Owes(e.cb.at) then 1 else 0) == Begun(s0, actions)
      && e.audio.emitted == s0.audio.emitted + Joined(Blocks(s0, actions))
  {
    if actions == [] {
    } else {
      var n := |actions| - 1;
      EveryBlockOnce(s0, actions[..n]);
      StepKeepsAccount(Exec(s0, actions[..n]), actions[n], s0.audio.emitted, Begun(s0, actions[..n]),
                       Blocks(s0, actions[..n]));
      hide Step, Joined, Owes, Emits;
    }
  }
}
