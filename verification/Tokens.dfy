/** Every watchable source has exactly one token: a live watcher, a disconnect or reconnect event, or a sleeping
    reconnect. */
module Tokens {
  import opened Backoff
  import opened Watch

  // ---- Counting --------------------------------------------------------------------------------------

  function Live(w: Watcher, i: nat): nat {
    if w.source == i && !w.forwarder.Finished? then 1 else 0
  }

  function LiveWatchers(ws: seq<Watcher>, i: nat): nat {
    if ws == [] then 0 else LiveWatchers(ws[..|ws| - 1], i) + Live(ws[|ws| - 1], i)
  }

  function Awaiting(r: Sleeper, i: nat): nat {
    if r.source == i && !r.phase.Done? then 1 else 0
  }

  function LiveSleepers(rs: seq<Sleeper>, i: nat): nat {
    if rs == [] then 0 else LiveSleepers(rs[..|rs| - 1], i) + Awaiting(rs[|rs| - 1], i)
  }

  /** The main loop is about to start a watch for the source. */
  function InHand(phase: Phase, i: nat): nat {
    if (phase.Starting? && i in phase.todo) || phase == RepairStart(i) then 1 else 0
  }

  /** How many watchers the source has, or will have without anything else happening to it. */
  function TokenCount(s: State, i: nat): nat {
    LiveWatchers(s.watchers, i) + LiveSleepers(s.sleepers, i)
    + multiset(s.events)[DisconnectEvent(i)] + multiset(s.events)[ReconnectEvent(i)] + InHand(s.phase, i)
  }

  lemma {:induction false} WatcherChanged(ws: seq<Watcher>, k: nat, w: Watcher, i: nat)
    requires k < |ws|
    ensures LiveWatchers(ws[k := w], i) + Live(ws[k], i) == LiveWatchers(ws, i) + Live(w, i)
  {
    var n := |ws| - 1;
    if k == n {
      assert ws[k := w][..n] == ws[..n];
    } else {
      assert ws[k := w][..n] == ws[..n][k := w];
      WatcherChanged(ws[..n], k, w, i);
    }
  }

  lemma {:induction false} SleeperChanged(rs: seq<Sleeper>, k: nat, r: Sleeper, i: nat)
    requires k < |rs|
    ensures LiveSleepers(rs[k := r], i) + Awaiting(rs[k], i) == LiveSleepers(rs, i) + Awaiting(r, i)
  {
    var n := |rs| - 1;
    if k == n {
      assert rs[k := r][..n] == rs[..n];
    } else {
      assert rs[k := r][..n] == rs[..n][k := r];
      SleeperChanged(rs[..n], k, r, i);
    }
  }

  lemma WatcherAdded(ws: seq<Watcher>, w: Watcher, i: nat)
    ensures LiveWatchers(ws + [w], i) == LiveWatchers(ws, i) + Live(w, i)
  {
    assert (ws + [w])[..|ws|] == ws;
  }

  lemma SleeperAdded(rs: seq<Sleeper>, r: Sleeper, i: nat)
    ensures LiveSleepers(rs + [r], i) == LiveSleepers(rs, i) + Awaiting(r, i)
  {
    assert (rs + [r])[..|rs|] == rs;
  }

  lemma {:induction false} WatcherCounted(ws: seq<Watcher>, k: nat)
    requires k < |ws|
    ensures LiveWatchers(ws, ws[k].source) >= Live(ws[k], ws[k].source)
  {
    if k < |ws| - 1 {
      WatcherCounted(ws[..|ws| - 1], k);
    }
  }

  lemma EventTaken(events: seq<Event>, e: Event)
    requires events != []
    ensures multiset(events)[e] == multiset(events[1..])[e] + if events[0] == e then 1 else 0
  {
    assert events == [events[0]] + events[1..];
  }

  // ---- The invariant -----------------------------------------------------------------------------------

  function Reconnecting(s: State, i: nat): nat {
    LiveSleepers(s.sleepers, i) + multiset(s.events)[ReconnectEvent(i)]
  }

  /** At most one token, and the pending flag says that the token is a reconnect. */
  predicate TokenInv(s: State, i: nat) {
    TokenCount(s, i) <= 1 && (i in s.pending <==> Reconnecting(s, i) == 1)
  }

  /** The forwarder ends without telling anyone: it has read something it takes for a cancellation. */
  predicate SilentExit(s: State, step: Step, i: nat) {
    && step.TakeError? && step.w < |s.watchers| && s.watchers[step.w].source == i
    && s.watchers[step.w].error.Some? && IsCancellation(s.watchers[step.w].error.value)
  }

  lemma WatcherStepKeepsToken(s: State, step: Step, i: nat)
    requires Enabled(s, step) && IsWatcherStep(step) && !s.cancelled
    ensures TokenCount(Next(s, step), i) + (if SilentExit(s, step, i) then 1 else 0) == TokenCount(s, i)
    ensures Reconnecting(Next(s, step), i) == Reconnecting(s, i)
  {
    hide LiveWatchers, LiveSleepers, WatcherNext, EventsAfter;
    var w := s.watchers[step.w];
    WatcherChanged(s.watchers, step.w, WatcherNext(s, w, step), i);
    WatcherTokenMoves(s, w, step, i);
  }

  /** A watcher's token stays, or moves to the event queue, or is lost in a silent exit. */
  lemma WatcherTokenMoves(s: State, w: Watcher, step: Step, i: nat)
    requires WatcherEnabled(s, w, step) && !s.cancelled
    ensures Live(WatcherNext(s, w, step), i) + multiset(EventsAfter(s, w, step))[DisconnectEvent(i)]
            + (if step.TakeError? && IsCancellation(w.error.value) && w.source == i then 1 else 0)
         == Live(w, i) + multiset(s.events)[DisconnectEvent(i)]
    ensures multiset(EventsAfter(s, w, step))[ReconnectEvent(i)] == multiset(s.events)[ReconnectEvent(i)]
  {
  }

  lemma SleeperStepKeepsToken(s: State, step: Step, i: nat)
    requires Enabled(s, step) && IsSleeperStep(step) && !s.cancelled
    ensures TokenCount(Next(s, step), i) == TokenCount(s, i)
    ensures Reconnecting(Next(s, step), i) == Reconnecting(s, i)
  {
    hide LiveWatchers, LiveSleepers;
    var r := s.sleepers[step.r];
    SleeperChanged(s.sleepers, step.r, r.(phase := if step.Wake? then SendingReconnect else Done), i);
  }

  lemma MainStepKeepsToken(s: State, step: Step, i: nat)
    requires Enabled(s, step) && !IsWatcherStep(step) && !IsSleeperStep(step) && !step.TakeEvent? && !s.cancelled
    ensures TokenCount(Next(s, step), i) == TokenCount(s, i)
    ensures Reconnecting(Next(s, step), i) == Reconnecting(s, i) && Next(s, step).pending == s.pending
  {
    hide LiveWatchers, LiveSleepers;
    match step {
      case StartWatch(j) => WatcherAdded(s.watchers, NewWatcher(j), i);
      case RestartWatch => WatcherAdded(s.watchers, NewWatcher(s.phase.source), i);
      case _ =>
    }
  }

  /** In particular a disconnect never meets a pending reconnect of its source. */
  lemma EventKeepsToken(s: State, i: nat)
    requires Enabled(s, TakeEvent) && !s.cancelled && TokenInv(s, i)
    ensures TokenCount(Next(s, TakeEvent), i) == TokenCount(s, i) && TokenInv(Next(s, TakeEvent), i)
    ensures s.events[0] == DisconnectEvent(i) ==> i !in s.pending
  {
    hide LiveWatchers, LiveSleepers;
    var e := s.events[0];
    EventTaken(s.events, DisconnectEvent(i));
    EventTaken(s.events, ReconnectEvent(i));
    if e.DisconnectEvent? {
      var delay := if e.source in s.delays then s.delays[e.source] else 0;
      SleeperAdded(s.sleepers, Sleeper(e.source, delay, Sleeping), i);
    }
  }

  /** Every step of every goroutine keeps the token of every source, except the silent exit of its own forwarder. */
  lemma StepKeepsToken(s: State, step: Step, i: nat)
    requires Enabled(s, step) && !s.cancelled && TokenInv(s, i)
    ensures TokenCount(Next(s, step), i) + (if SilentExit(s, step, i) then 1 else 0) == TokenCount(s, i)
    ensures TokenInv(Next(s, step), i)
  {
    hide LiveWatchers, LiveSleepers, TokenCount, Reconnecting;
    if IsWatcherStep(step) {
      WatcherStepKeepsToken(s, step, i);
    } else if IsSleeperStep(step) {
      SleeperStepKeepsToken(s, step, i);
    } else if step.TakeEvent? {
      EventKeepsToken(s, i);
    } else {
      MainStepKeepsToken(s, step, i);
    }
  }

  // ---- Runs ------------------------------------------------------------------------------------------

  ghost predicate ExitedSilently(states: seq<State>, steps: seq<Step>, j: nat, i: nat)
    requires |states| > |steps| >= j
  {
    exists k :: 0 <= k < j && SilentExit(states[k], steps[k], i)
  }

  lemma StaysCancelled(s: State, step: Step)
    requires Enabled(s, step) && s.cancelled
    ensures Next(s, step).cancelled
  {
  }

  lemma SilentExitNext(states: seq<State>, steps: seq<Step>, j: nat, i: nat)
    requires |states| > |steps| > j
    ensures ExitedSilently(states, steps, j + 1, i)
       <==> ExitedSilently(states, steps, j, i) || SilentExit(states[j], steps[j], i)
  {
  }

  /** In every live state of every run each watchable source has exactly one token, unless one of its forwarders took
      a stream error for a cancellation; then it has none, and never gets one back. */
  lemma {:induction false} TokenIsConserved(config: Config, states: seq<State>, steps: seq<Step>, j: nat, i: nat)
    requires IsRun(config, states, steps) && j < |states| && !states[j].cancelled
    ensures TokenInv(states[j], i)
    ensures TokenCount(states[j], i) == if i in config.watchable && !ExitedSilently(states, steps, j, i) then 1 else 0
  {
    hide Enabled, Next, SilentExit;
    if j == 0 {
      StartsWithToken(config, i);
    } else {
      if states[j - 1].cancelled {
        StaysCancelled(states[j - 1], steps[j - 1]);
      }
      TokenIsConserved(config, states, steps, j - 1, i);
      StepKeepsToken(states[j - 1], steps[j - 1], i);
      SilentExitNext(states, steps, j - 1, i);
    }
  }

  lemma StartsWithToken(config: Config, i: nat)
    ensures TokenInv(Initial(config), i)
    ensures TokenCount(Initial(config), i) == if i in config.watchable then 1 else 0
  {
  }

  /** Two watchers never run for one source. */
  lemma OneWatcherPerSource(config: Config, states: seq<State>, steps: seq<Step>, j: nat, a: nat, b: nat)
    requires IsRun(config, states, steps) && j < |states| && !states[j].cancelled
    requires a < b < |states[j].watchers| && states[j].watchers[a].source == states[j].watchers[b].source
    ensures states[j].watchers[a].forwarder.Finished? || states[j].watchers[b].forwarder.Finished?
  {
    hide Enabled, Next, SilentExit;
    var i := states[j].watchers[a].source;
    TokenIsConserved(config, states, steps, j, i);
    TwoLive(states[j].watchers, a, b);
  }

  lemma {:induction false} TwoLive(ws: seq<Watcher>, a: nat, b: nat)
    requires a < b < |ws| && ws[a].source == ws[b].source
    ensures LiveWatchers(ws, ws[a].source) >= Live(ws[a], ws[a].source) + Live(ws[b], ws[a].source)
  {
    if b == |ws| - 1 {
      WatcherCounted(ws[..b], a);
    } else {
      TwoLive(ws[..|ws| - 1], a, b);
    }
  }

  /** The branch that ignores a disconnect is never taken. */
  lemma DisconnectIsNeverIgnored(config: Config, states: seq<State>, steps: seq<Step>, j: nat)
    requires IsRun(config, states, steps) && j < |steps| && !states[j].cancelled && steps[j] == TakeEvent
    requires states[j].events != [] && states[j].events[0].DisconnectEvent?
    ensures states[j].events[0].source !in states[j].pending
  {
    hide TokenInv, TokenCount, SilentExit;
    var i := states[j].events[0].source;
    TokenIsConserved(config, states, steps, j, i);
    EventKeepsToken(states[j], i);
  }

  // ---- Reconnect delays ----------------------------------------------------------------------------------

  /** One of the delays of the backoff sequence. */
  ghost predicate IsBackoff(config: Config, delay: int) {
    exists n: nat :: delay == Delay(config.initialInterval, config.maxInterval, n)
  }

  ghost predicate BacksOff(s: State) {
    && (forall w :: w in s.watchers ==> w.source in s.delays)
    && (forall e :: e in s.events ==> e.source in s.delays)
    && (forall r :: r in s.sleepers ==> r.source in s.delays && IsBackoff(s.config, r.delay))
    && (forall i :: i in s.delays ==> IsBackoff(s.config, s.delays[i]))
    && (s.phase.RepairStart? || s.phase.RepairClear? ==> s.phase.source in s.delays)
  }

  lemma FirstBackoff(config: Config)
    ensures IsBackoff(config, config.initialInterval)
  {
    FirstDelay(config.initialInterval, config.maxInterval);
  }

  lemma NextBackoff(config: Config, delay: int)
    requires IsBackoff(config, delay)
    ensures IsBackoff(config, NextBackoffDelay(delay, config.maxInterval))
  {
    hide NextBackoffDelay;
    var n: nat :| delay == Delay(config.initialInterval, config.maxInterval, n);
    assert NextBackoffDelay(delay, config.maxInterval) == Delay(config.initialInterval, config.maxInterval, n + 1);
  }

  lemma StepBacksOff(s: State, step: Step)
    requires Enabled(s, step) && BacksOff(s)
    ensures BacksOff(Next(s, step))
  {
    hide NextBackoffDelay, IsBackoff;
    FirstBackoff(s.config);
    if IsWatcherStep(step) {
      WatcherStepBacksOff(s, step);
    } else if step.TakeEvent? {
      EventBacksOff(s);
    } else if IsSleeperStep(step) {
      assert s.sleepers[step.r] in s.sleepers;
    }
  }

  lemma WatcherStepBacksOff(s: State, step: Step)
    requires Enabled(s, step) && BacksOff(s) && IsWatcherStep(step)
    ensures BacksOff(Next(s, step))
  {
    hide NextBackoffDelay, IsBackoff, WatcherEnabled;
    var w := s.watchers[step.w];
    assert w in s.watchers;
    assert WatcherNext(s, w, step).source == w.source;
  }

  lemma EventBacksOff(s: State)
    requires Enabled(s, TakeEvent) && BacksOff(s)
    ensures BacksOff(Next(s, TakeEvent))
  {
    hide NextBackoffDelay, IsBackoff;
    FirstBackoff(s.config);
    var e := s.events[0];
    assert e in s.events;
    if e.DisconnectEvent? {
      NextBackoff(s.config, s.delays[e.source]);
    }
  }

  lemma {:induction false} RunBacksOff(config: Config, states: seq<State>, steps: seq<Step>, j: nat)
    requires IsRun(config, states, steps) && j < |states|
    ensures BacksOff(states[j]) && states[j].config == config
  {
    hide Enabled, Next, BacksOff;
    if j == 0 {
      NothingScheduled(config);
    } else {
      RunBacksOff(config, states, steps, j - 1);
      StepBacksOff(states[j - 1], steps[j - 1]);
      ConfigStays(states[j - 1], steps[j - 1]);
    }
  }

  lemma ConfigStays(s: State, step: Step)
    requires Enabled(s, step)
    ensures Next(s, step).config == s.config
  {
  }

  lemma NothingScheduled(config: Config)
    ensures BacksOff(Initial(config))
  {
  }

  /** No reconnect is scheduled without a delay, and none with more than the larger of the two intervals. */
  lemma ReconnectsAreSpaced(config: Config, states: seq<State>, steps: seq<Step>, j: nat, r: Sleeper)
    requires IsRun(config, states, steps) && j < |states| && r in states[j].sleepers
    requires Sound(config.initialInterval, config.maxInterval)
    ensures r.delay >= Min(config.initialInterval, config.maxInterval) > 0
    ensures r.delay <= config.initialInterval || r.delay <= config.maxInterval
  {
    hide Enabled, Next;
    RunBacksOff(config, states, steps, j);
    var n: nat :| r.delay == Delay(config.initialInterval, config.maxInterval, n);
    DelayIsClamped(config.initialInterval, config.maxInterval, n);
  }
}
