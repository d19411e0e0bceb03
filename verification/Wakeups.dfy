/** No lost wake-up: an event that the source's goroutine has read is carried by something until a full reconcile
    starts. */
module Wakeups {
  import opened Records
  import opened Backoff
  import opened Watch
  import opened Tokens

  // ---- One watcher ---------------------------------------------------------------------------------------

  /** How the two goroutines of a watcher and their channels fit together while the context is live. */
  predicate Fits(w: Watcher) {
    && (w.error.Some? ==> !w.error.value.NilError? && !w.error.value.Canceled?)
    && (match w.reader
        case Reading(_, _) => w.error.None? && !w.errorsClosed && !w.hintsClosed
        case Offering(_, _) => w.error.None? && !w.errorsClosed && !w.hintsClosed
        case Closing => !w.errorsClosed && !w.hintsClosed
        case ClosingHints => w.errorsClosed && !w.hintsClosed
        case Ended => w.errorsClosed && w.hintsClosed)
    && (w.forwarder.SendingDisconnect? || w.forwarder.Finished? ==> !w.reader.Reading? && !w.reader.Offering?)
    && (w.forwarder.Forwarding? || w.forwarder.SendingHint? ==>
          && (w.forwarder.hints || (w.hintsClosed && !w.hint))
          && (w.forwarder.errors || (w.errorsClosed && w.error.None?)))
    && (w.forwarder.Forwarding? ==> w.forwarder.hints || w.forwarder.errors)
    && (w.forwarder.SendingHint? ==> w.forwarder.hints)
  }

  /** The watcher will still tell the main loop. */
  predicate Carries(w: Watcher) {
    || w.forwarder.SendingDisconnect? || w.forwarder.SendingHint?
    || (w.forwarder.Forwarding? && (w.hint || w.reader.Offering?))
  }

  lemma WatcherStepFits(s: State, w: Watcher, step: Step)
    requires WatcherEnabled(s, w, step) && Fits(w) && !s.cancelled
    ensures Fits(WatcherNext(s, w, step))
  {
  }

  /** The carrier stays with the watcher or moves to the event queue. */
  lemma WatcherStepCarries(s: State, w: Watcher, step: Step)
    requires WatcherEnabled(s, w, step) && Fits(w) && Carries(w) && !s.cancelled
    requires step.TakeError? && w.error.Some? ==> !IsCancellation(w.error.value)
    ensures || Carries(WatcherNext(s, w, step))
            || (step.SendHint? && HintEvent(w.source) in EventsAfter(s, w, step))
            || (step.SendDisconnect? && DisconnectEvent(w.source) in EventsAfter(s, w, step))
  {
  }

  // ---- The whole machine -----------------------------------------------------------------------------------

  ghost predicate WatchersFit(s: State) {
    forall k :: 0 <= k < |s.watchers| ==> Fits(s.watchers[k])
  }

  ghost predicate WatcherCarries(s: State, i: nat) {
    exists k :: 0 <= k < |s.watchers| && s.watchers[k].source == i && Carries(s.watchers[k])
  }

  predicate QueueCarries(s: State, i: nat) {
    HintEvent(i) in s.events || DisconnectEvent(i) in s.events || ReconnectEvent(i) in s.events
  }

  /** The debounce timer is running or has fired, or the main loop is on its way to a reconcile. */
  predicate MainCarries(s: State) {
    || !s.timer.Off?
    || s.phase.Starting? || s.phase.Due? || s.phase.RepairStart? || s.phase.RepairClear?
  }

  /** Something will still bring a full reconcile about for the source. */
  ghost predicate Carrier(s: State, i: nat) {
    WatcherCarries(s, i) || QueueCarries(s, i) || LiveSleepers(s.sleepers, i) > 0 || MainCarries(s)
  }

  /** The run goes on: neither cancelled nor ended by a failed reconcile. */
  predicate GoesOn(s: State) {
    !s.cancelled && !s.phase.Stopped?
  }

  lemma StepFits(s: State, step: Step)
    requires Enabled(s, step) && WatchersFit(s) && !s.cancelled
    ensures WatchersFit(Next(s, step))
  {
    hide Fits, WatcherNext, EventsAfter, WatcherEnabled, Handle;
    if IsWatcherStep(step) {
      WatcherStepFits(s, s.watchers[step.w], step);
    } else if step.StartWatch? || step.RestartWatch? {
      NewWatcherFits(if step.StartWatch? then step.source else s.phase.source);
    } else {
      OtherStepsKeepWatchers(s, step);
    }
  }

  lemma NewWatcherFits(i: nat)
    ensures Fits(NewWatcher(i)) && NewWatcher(i).source == i
  {
  }

  lemma OtherStepsKeepWatchers(s: State, step: Step)
    requires Enabled(s, step) && !IsWatcherStep(step) && !step.StartWatch? && !step.RestartWatch?
    ensures Next(s, step).watchers == s.watchers
  {
  }

  lemma WatcherStepKeepsCarrier(s: State, step: Step, i: nat)
    requires Enabled(s, step) && IsWatcherStep(step) && WatchersFit(s) && !s.cancelled && Carrier(s, i)
    requires !SilentExit(s, step, i)
    ensures Carrier(Next(s, step), i)
  {
    hide Fits, Carries, WatcherNext, WatcherEnabled, LiveSleepers;
    var s', w := Next(s, step), s.watchers[step.w];
    assert s.events <= s'.events;
    if k :| 0 <= k < |s.watchers| && s.watchers[k].source == i && Carries(s.watchers[k]) {
      if k == step.w {
        WatcherStepCarries(s, w, step);
        SourceStays(s, w, step);
        assert s'.watchers[k] == WatcherNext(s, w, step);
      } else {
        assert s'.watchers[k] == s.watchers[k];
      }
    }
  }

  lemma SourceStays(s: State, w: Watcher, step: Step)
    requires WatcherEnabled(s, w, step)
    ensures WatcherNext(s, w, step).source == w.source
  {
  }

  lemma SleeperStepKeepsCarrier(s: State, step: Step, i: nat)
    requires Enabled(s, step) && IsSleeperStep(step) && !s.cancelled && Carrier(s, i)
    ensures Carrier(Next(s, step), i)
  {
    hide Carries, LiveSleepers;
    var r := s.sleepers[step.r];
    SleeperChanged(s.sleepers, step.r, r.(phase := if step.Wake? then SendingReconnect else Done), i);
    if WatcherCarries(s, i) {
      SameWatchersCarry(s, Next(s, step), i);
    }
  }

  lemma SameWatchersCarry(s: State, s': State, i: nat)
    requires WatcherCarries(s, i) && s.watchers <= s'.watchers
    ensures WatcherCarries(s', i)
  {
    hide Carries;
    var k :| 0 <= k < |s.watchers| && s.watchers[k].source == i && Carries(s.watchers[k]);
    assert s'.watchers[k] == s.watchers[k];
  }

  /** An event leaves the queue only into a reconcile, the debounce timer, or a reconnect. */
  lemma EventKeepsCarrier(s: State, i: nat)
    requires Enabled(s, TakeEvent) && TokenInv(s, i) && Carrier(s, i)
    ensures Carrier(Next(s, TakeEvent), i)
  {
    hide Carries, LiveSleepers, LiveWatchers;
    var s' := Next(s, TakeEvent);
    var e := s.events[0];
    assert s.events == [e] + s.events[1..];
    if WatcherCarries(s, i) {
      SameWatchersCarry(s, s', i);
    } else {
      if e.DisconnectEvent? && e.source !in s.pending {
        var delay := if e.source in s.delays then s.delays[e.source] else 0;
        SleeperAdded(s.sleepers, Sleeper(e.source, delay, Sleeping), i);
      }
    }
  }

  /** The main loop gives up what it carries only by starting a reconcile; a failed reconcile ends the run. */
  lemma MainStepKeepsCarrier(s: State, step: Step, i: nat)
    requires Enabled(s, step) && !IsWatcherStep(step) && !IsSleeperStep(step) && !step.TakeEvent? && Carrier(s, i)
    requires GoesOn(Next(s, step)) && s.config.watchable != {}
    ensures Carrier(Next(s, step), i) || Next(s, step).reconciles == s.reconciles + 1
  {
    hide Carries, LiveSleepers;
    if WatcherCarries(s, i) {
      assert s.watchers <= Next(s, step).watchers;
      SameWatchersCarry(s, Next(s, step), i);
    }
  }

  lemma StepKeepsCarrier(s: State, step: Step, i: nat)
    requires Enabled(s, step) && WatchersFit(s) && TokenInv(s, i) && Carrier(s, i)
    requires GoesOn(Next(s, step)) && !s.cancelled && s.config.watchable != {} && !SilentExit(s, step, i)
    ensures Carrier(Next(s, step), i) || Next(s, step).reconciles == s.reconciles + 1
  {
    hide Carrier, TokenInv, WatchersFit, Enabled, Next, SilentExit;
    if IsWatcherStep(step) {
      WatcherStepKeepsCarrier(s, step, i);
    } else if IsSleeperStep(step) {
      SleeperStepKeepsCarrier(s, step, i);
    } else if step.TakeEvent? {
      EventKeepsCarrier(s, i);
    } else {
      MainStepKeepsCarrier(s, step, i);
    }
  }

  // ---- Runs --------------------------------------------------------------------------------------------

  lemma Monotone(s: State, step: Step)
    requires Enabled(s, step)
    ensures Next(s, step).reconciles >= s.reconciles && Next(s, step).config == s.config
    ensures GoesOn(Next(s, step)) ==> GoesOn(s)
  {
  }

  lemma {:induction false} RunFits(config: Config, states: seq<State>, steps: seq<Step>, j: nat)
    requires IsRun(config, states, steps) && j < |states| && !states[j].cancelled
    ensures WatchersFit(states[j])
    ensures states[j].config == config
  {
    hide Enabled, Next, Fits;
    if j > 0 {
      if states[j - 1].cancelled {
        StaysCancelled(states[j - 1], steps[j - 1]);
      }
      RunFits(config, states, steps, j - 1);
      Monotone(states[j - 1], steps[j - 1]);
      StepFits(states[j - 1], steps[j - 1]);
    }
  }

  /** As long as the run goes on, a carrier stays until a reconcile starts. */
  lemma {:induction false} CarrierStays(config: Config, states: seq<State>, steps: seq<Step>, i: nat, k: nat, j: nat)
    requires IsRun(config, states, steps) && k <= j < |states| && GoesOn(states[j])
    requires !ExitedSilently(states, steps, j, i) && config.watchable != {} && Carrier(states[k], i)
    ensures states[j].reconciles > states[k].reconciles || Carrier(states[j], i)
  {
    hide Enabled, Next, Carrier, WatchersFit, TokenInv, TokenCount, SilentExit;
    if k < j {
      Monotone(states[j - 1], steps[j - 1]);
      SilentExitNext(states, steps, j - 1, i);
      CarrierStays(config, states, steps, i, k, j - 1);
      RunFits(config, states, steps, j - 1);
      TokenIsConserved(config, states, steps, j - 1, i);
      if Carrier(states[j - 1], i) {
        StepKeepsCarrier(states[j - 1], steps[j - 1], i);
      }
      ReconcilesGrow(config, states, steps, k, j - 1);
    }
  }

  lemma {:induction false} ReconcilesGrow(config: Config, states: seq<State>, steps: seq<Step>, k: nat, j: nat)
    requires IsRun(config, states, steps) && k <= j < |states|
    ensures states[j].reconciles >= states[k].reconciles
  {
    hide Enabled, Next;
    if k < j {
      ReconcilesGrow(config, states, steps, k, j - 1);
      Monotone(states[j - 1], steps[j - 1]);
    }
  }

  /** Once the source's goroutine has read a relevant event, every later state of the run has seen a full reconcile
      start after it, or still holds a carrier; until the run is cancelled or ends, and unless a forwarder of the
      source exits silently. */
  lemma NoLostWakeup(config: Config, states: seq<State>, steps: seq<Step>, k: nat, j: nat)
    requires IsRun(config, states, steps) && k < j < |states|
    requires steps[k].ReadMessage? && steps[k].relevant && GoesOn(states[j])
    requires !ExitedSilently(states, steps, j, states[k].watchers[steps[k].w].source)
    ensures var i := states[k].watchers[steps[k].w].source;
      states[j].reconciles > states[k].reconciles || Carrier(states[j], i)
  {
    hide Next, Carrier, Fits, ExitedSilently;
    var w := steps[k].w;
    var i := states[k].watchers[w].source;
    StillGoing(config, states, steps, k + 1, j);
    Monotone(states[k], steps[k]);
    RunFits(config, states, steps, k);
    ReadingIsCarried(states[k], steps[k]);
    WatchersMeanSources(config, states, steps, k);
    CarrierStays(config, states, steps, i, k + 1, j);
  }

  lemma {:induction false} StillGoing(config: Config, states: seq<State>, steps: seq<Step>, k: nat, j: nat)
    requires IsRun(config, states, steps) && k <= j < |states| && GoesOn(states[j])
    ensures GoesOn(states[k])
  {
    hide Enabled, Next;
    if k < j {
      Monotone(states[j - 1], steps[j - 1]);
      StillGoing(config, states, steps, k, j - 1);
    }
  }

  lemma ReadingIsCarried(s: State, step: Step)
    requires Enabled(s, step) && step.ReadMessage? && step.relevant && WatchersFit(s)
    ensures Carrier(Next(s, step), s.watchers[step.w].source) && Next(s, step).reconciles == s.reconciles
  {
    var s' := Next(s, step);
    assert Fits(s.watchers[step.w]);
    assert s'.watchers[step.w].source == s.watchers[step.w].source && Carries(s'.watchers[step.w]);
  }

  lemma {:induction false} WatchersMeanSources(config: Config, states: seq<State>, steps: seq<Step>, j: nat)
    requires IsRun(config, states, steps) && j < |states|
    ensures (states[j].phase.Starting? ==> states[j].phase.todo <= config.watchable)
    ensures states[j].watchers != [] || states[j].events != [] || states[j].sleepers != [] || states[j].phase.RepairStart?
            ==> config.watchable != {}
  {
    hide WatcherEnabled, WatcherNext, SleeperEnabled, NextBackoffDelay;
    if j > 0 {
      WatchersMeanSources(config, states, steps, j - 1);
    }
  }

  // ---- When a forwarder exits silently -------------------------------------------------------------------

  predicate ReportsWrappedCancellation(step: Step) {
    step.StreamFails? && step.err.WrappedCanceled?
  }

  ghost predicate NoneWrapped(s: State) {
    forall k :: 0 <= k < |s.watchers| ==> s.watchers[k].error != Some(WrappedCanceled)
  }

  lemma StepWrapsNothing(s: State, step: Step)
    requires Enabled(s, step) && NoneWrapped(s) && !ReportsWrappedCancellation(step)
    ensures NoneWrapped(Next(s, step))
  {
    hide Handle, NextBackoffDelay;
    if !IsWatcherStep(step) && !step.StartWatch? && !step.RestartWatch? {
      OtherStepsKeepWatchers(s, step);
    }
  }

  /** A forwarder exits silently only if a stream has reported a cancellation wrapped in another error. */
  lemma {:induction false} SilentExitIsWrapped(config: Config, states: seq<State>, steps: seq<Step>, j: nat, i: nat)
    requires IsRun(config, states, steps) && j <= |steps| && !states[j].cancelled
    requires forall k :: 0 <= k < j ==> !ReportsWrappedCancellation(steps[k])
    ensures !ExitedSilently(states, steps, j, i) && NoneWrapped(states[j])
  {
    hide Enabled, Next, Fits, ReportsWrappedCancellation, SilentExit, NoneWrapped;
    if j == 0 {
      NothingWrappedAtFirst(config);
    } else {
      if states[j - 1].cancelled {
        StaysCancelled(states[j - 1], steps[j - 1]);
      }
      SilentExitIsWrapped(config, states, steps, j - 1, i);
      RunFits(config, states, steps, j - 1);
      StepWrapsNothing(states[j - 1], steps[j - 1]);
      SilentExitNext(states, steps, j - 1, i);
      NotSilent(states[j - 1], steps[j - 1], i);
    }
  }

  lemma NothingWrappedAtFirst(config: Config)
    ensures NoneWrapped(Initial(config))
  {
  }

  lemma NotSilent(s: State, step: Step, i: nat)
    requires WatchersFit(s) && NoneWrapped(s)
    ensures !SilentExit(s, step, i)
  {
    if step.TakeError? && step.w < |s.watchers| {
      assert Fits(s.watchers[step.w]);
    }
  }

  // ---- Progress ------------------------------------------------------------------------------------------

  /** Steps that need nothing from the event stream or the operator. */
  predicate IsInternal(step: Step) {
    !step.ReadMessage? && !step.MessagesClose? && !step.ErrorsClose? && !step.StreamFails? && !step.Cancel?
  }

  lemma CarryingWatcherMoves(s: State, k: nat)
    requires k < |s.watchers| && Fits(s.watchers[k]) && Carries(s.watchers[k]) && s.phase.Selecting?
    requires s.config.watchable != {}
    ensures exists step :: IsInternal(step) && Enabled(s, step)
  {
    var w := s.watchers[k];
    var step :=
      if w.forwarder.Forwarding? && w.hint then TakeHint(k)
      else if w.forwarder.Forwarding? then Offer(k)
      else if !HasRoom(s) then TakeEvent
      else if w.forwarder.SendingHint? then SendHint(k)
      else SendDisconnect(k);
    assert IsInternal(step) && Enabled(s, step);
  }

  lemma {:induction false} LiveSleeper(rs: seq<Sleeper>, i: nat) returns (r: nat)
    requires LiveSleepers(rs, i) > 0
    ensures r < |rs| && !rs[r].phase.Done?
  {
    r := |rs| - 1;
    if Awaiting(rs[r], i) == 0 {
      r := LiveSleeper(rs[..r], i);
    }
  }

  /** A carrier is never stuck: when the main loop waits for work, some goroutine other than the outside can move. */
  lemma CarrierCanMove(s: State, i: nat)
    requires WatchersFit(s) && Carrier(s, i) && s.phase.Selecting? && s.config.watchable != {}
    ensures exists step :: IsInternal(step) && Enabled(s, step)
  {
    hide Fits, Carries, LiveSleepers;
    if k :| 0 <= k < |s.watchers| && s.watchers[k].source == i && Carries(s.watchers[k]) {
      CarryingWatcherMoves(s, k);
    } else if QueueCarries(s, i) {
      assert IsInternal(TakeEvent) && Enabled(s, TakeEvent);
    } else if LiveSleepers(s.sleepers, i) > 0 {
      var r := LiveSleeper(s.sleepers, i);
      var step := if s.sleepers[r].phase.Sleeping? then Wake(r) else if HasRoom(s) then SendReconnect(r) else TakeEvent;
      assert IsInternal(step) && Enabled(s, step);
    } else {
      var step := if s.timer.Armed? then TimerFires else TakeTimer;
      assert IsInternal(step) && Enabled(s, step);
    }
  }
}
