/** What the main loop of the watch does with each kind of event: how hints are coalesced, how many reconciles they cost,
    and how long each reconnect waits. */
module Debounce {
  import opened Backoff
  import opened Watch
  import Tokens

  // ---- What has happened in a run ------------------------------------------------------------------------------

  /** Hints taken from the queue, hints that found the timer off, firings, timers cleared by a repair, reconnects taken,
      hand-overs to the loop with and without sources; and the reconciles begun, by reason. */
  datatype Tally = Tally(
    hints: nat, armings: nat, firings: nat, cleared: nat, reconnects: nat, handOvers: nat,
    startups: nat, hintReconciles: nat, repairs: nat)

  const NOTHING := Tally(0, 0, 0, 0, 0, 0, 0, 0, 0)

  function OneIf(b: bool): nat {
    if b then 1 else 0
  }

  /** What one step adds. */
  function Added(s: State, step: Step, t: Tally): Tally {
    match step
    case TimerFires => t.(firings := t.firings + 1)
    case ClearTimer => t.(cleared := t.cleared + OneIf(!s.timer.Off?))
    case HandOff => t.(handOvers := t.handOvers + OneIf(s.config.watchable != {}))
    case BeginReconcile =>
      if !s.phase.Due? then t
      else
        (match s.phase.reason
         case Startup => t.(startups := t.startups + 1)
         case Hint => t.(hintReconciles := t.hintReconciles + 1)
         case Repair(_) => t.(repairs := t.repairs + 1))
    case TakeEvent =>
      if s.events == [] then t
      else
        (match s.events[0]
         case HintEvent(_) => t.(hints := t.hints + 1, armings := t.armings + OneIf(s.timer.Off?))
         case ReconnectEvent(_) => t.(reconnects := t.reconnects + 1)
         case DisconnectEvent(_) => t)
    case _ => t
  }

  /** What has happened up to state `j`. */
  function TallyOf(states: seq<State>, steps: seq<Step>, j: nat): Tally
    requires j <= |steps| && j <= |states|
  {
    if j == 0 then NOTHING else Added(states[j - 1], steps[j - 1], TallyOf(states, steps, j - 1))
  }

  // ---- The balance ---------------------------------------------------------------------------------------------

  predicate IsDue(s: State, reason: Reason) {
    s.phase == Due(reason)
  }

  predicate RepairIsDue(s: State) {
    s.phase.RepairStart? || s.phase.RepairClear? || (s.phase.Due? && s.phase.reason.Repair?)
  }

  /** While a reconcile is due or runs no timer is set; a timer needs a debounce. */
  predicate TimerRests(s: State) {
    && (s.phase.Due? || s.phase.Reconciling? || s.phase.Starting? || s.phase.Waiting? ==> s.timer.Off?)
    && (s.config.debounce <= 0 ==> s.timer.Off?)
  }

  /** Every reconcile that began, or is due, has its own cause, and every cause its reconcile. */
  predicate Balanced(s: State, t: Tally) {
    && t.startups + OneIf(IsDue(s, Startup)) == t.handOvers
    && t.repairs + OneIf(RepairIsDue(s)) == t.reconnects
    && t.hintReconciles + OneIf(IsDue(s, Hint)) + OneIf(!s.timer.Off?) + t.cleared
       == (if s.config.debounce > 0 then t.armings else t.hints)
    && s.reconciles == t.startups + t.hintReconciles + t.repairs
    && (s.phase.Starting? ==> t.handOvers == 0) && t.handOvers <= 1
  }

  /** When the loop has stopped, what was due when it did is lost. */
  predicate Bounded(s: State, t: Tally) {
    && t.startups <= t.handOvers <= 1 && t.repairs <= t.reconnects
    && t.hintReconciles + t.cleared <= (if s.config.debounce > 0 then t.armings else t.hints)
    && s.reconciles == t.startups + t.hintReconciles + t.repairs
  }

  predicate TallyFits(s: State, t: Tally) {
    TimerRests(s) && if s.phase.Stopped? then Bounded(s, t) else Balanced(s, t)
  }

  lemma OtherStepKeeps(s: State, step: Step, t: Tally)
    requires Enabled(s, step) && (IsWatcherStep(step) || IsSleeperStep(step)) && TallyFits(s, t)
    ensures TallyFits(Next(s, step), Added(s, step, t))
  {
    hide WatcherEnabled, WatcherNext, EventsAfter, SleeperEnabled;
  }

  lemma MainStepKeeps(s: State, step: Step, t: Tally)
    requires Enabled(s, step) && !IsWatcherStep(step) && !IsSleeperStep(step) && TallyFits(s, t)
    ensures TallyFits(Next(s, step), Added(s, step, t))
  {
    hide NextBackoffDelay, ResetAll;
  }

  lemma {:induction false} RunFits(config: Config, states: seq<State>, steps: seq<Step>, j: nat)
    requires IsRun(config, states, steps) && j < |states|
    ensures states[j].config == config && TallyFits(states[j], TallyOf(states, steps, j))
  {
    hide Enabled, Next, TallyFits, Added, IsWatcherStep, IsSleeperStep;
    if j == 0 {
      NothingTallied(config);
    } else {
      RunFits(config, states, steps, j - 1);
      Tokens.ConfigStays(states[j - 1], steps[j - 1]);
      if IsWatcherStep(steps[j - 1]) || IsSleeperStep(steps[j - 1]) {
        OtherStepKeeps(states[j - 1], steps[j - 1], TallyOf(states, steps, j - 1));
      } else {
        MainStepKeeps(states[j - 1], steps[j - 1], TallyOf(states, steps, j - 1));
      }
    }
  }

  lemma NothingTallied(config: Config)
    ensures TallyFits(Initial(config), NOTHING)
  {
  }

  /** In every state of a run that goes on, each reconcile has its cause and each cause its reconcile: one for the start,
      one for every reconnect, and for hints one for every time the timer was armed, unless it still runs or was cleared by
      a repair. Without a debounce it is one for every hint. */
  lemma ReconcilesHaveCauses(config: Config, states: seq<State>, steps: seq<Step>, j: nat)
    requires IsRun(config, states, steps) && j < |states| && !states[j].phase.Stopped?
    ensures var s, t := states[j], TallyOf(states, steps, j);
      && s.reconciles == t.startups + t.hintReconciles + t.repairs
      && t.startups + OneIf(s.phase == Due(Startup)) == t.handOvers <= 1
      && t.repairs + OneIf(RepairIsDue(s)) == t.reconnects
      && (config.debounce > 0 ==>
            t.hintReconciles + OneIf(s.phase == Due(Hint)) + OneIf(!s.timer.Off?) + t.cleared == t.armings)
      && (config.debounce <= 0 ==> t.hintReconciles + OneIf(s.phase == Due(Hint)) == t.hints)
  {
    hide Enabled, Next, Added;
    RunFits(config, states, steps, j);
    if config.debounce <= 0 {
      NothingCleared(config, states, steps, j);
    }
  }

  lemma {:induction false} NothingCleared(config: Config, states: seq<State>, steps: seq<Step>, j: nat)
    requires IsRun(config, states, steps) && j < |states| && config.debounce <= 0
    ensures TallyOf(states, steps, j).cleared == 0 && states[j].timer.Off?
  {
    hide Enabled, Next;
    RunFits(config, states, steps, j);
    if j > 0 {
      NothingCleared(config, states, steps, j - 1);
    }
  }

  // ---- Hints -----------------------------------------------------------------------------------------------------

  /** A hint that is taken: without a debounce it is due at once and no timer is set; with one it arms the timer if that is
      off, and otherwise changes neither the timer nor the phase. */
  lemma HintIsCoalesced(config: Config, states: seq<State>, steps: seq<Step>, k: nat)
    requires IsRun(config, states, steps) && k < |steps|
    requires steps[k].TakeEvent? && states[k].events[0].HintEvent?
    ensures var s, next := states[k], states[k + 1];
      && next.events == s.events[1..] && next.reconciles == s.reconciles && next.sleepers == s.sleepers
      && next.pending == s.pending
      && next.delays == s.delays[s.events[0].source := config.initialInterval]
      && (if config.debounce <= 0 then next.phase == Due(Hint) && next.timer.Off?
          else next.phase == s.phase == Selecting && next.timer == if s.timer.Off? then Armed else s.timer)
  {
    hide WatcherEnabled, WatcherNext;
    NoteConfig(config, states, steps, k);
  }

  lemma NoteConfig(config: Config, states: seq<State>, steps: seq<Step>, k: nat)
    requires IsRun(config, states, steps) && k < |states|
    ensures states[k].config == config && TimerRests(states[k])
  {
    hide IsRun;
    RunFits(config, states, steps, k);
  }

  /** A hint reconcile that is ready to begin, or whose timer has fired. */
  function Ready(s: State): nat {
    OneIf(s.phase == Due(Hint)) + OneIf(s.timer.Fired?)
  }

  lemma ReadyStep(s: State, step: Step, t: Tally)
    requires Enabled(s, step) && TimerRests(s) && s.config.debounce > 0
    ensures var after := Added(s, step, t);
      after.hintReconciles + Ready(Next(s, step)) + t.firings <= t.hintReconciles + Ready(s) + after.firings
  {
    hide WatcherEnabled, WatcherNext, EventsAfter, SleeperEnabled, NextBackoffDelay, ResetAll;
  }

  /** With a debounce, between any two states: a hint reconcile needs a firing of the timer of its own. However many hints
      are taken while it does not fire, no more than the one that was ready begins. */
  lemma {:induction false} HintReconcilesNeedFirings(
    config: Config, states: seq<State>, steps: seq<Step>, i: nat, j: nat)
    requires IsRun(config, states, steps) && i <= j < |states| && config.debounce > 0
    ensures var from, to := TallyOf(states, steps, i), TallyOf(states, steps, j);
      && to.hintReconciles + Ready(states[j]) + from.firings <= from.hintReconciles + Ready(states[i]) + to.firings
      && (i == 0 ==> to.hintReconciles <= to.firings)
  {
    hide Enabled, Next, Added, Ready, TimerRests;
    if i < j {
      HintReconcilesNeedFirings(config, states, steps, i, j - 1);
      NoteConfig(config, states, steps, j - 1);
      ReadyStep(states[j - 1], steps[j - 1], TallyOf(states, steps, j - 1));
    }
    NothingReady(config);
  }

  lemma NothingReady(config: Config)
    ensures Ready(Initial(config)) == 0
  {
  }

  /** Without a source to watch there is no reconcile. */
  lemma NoSourcesNoReconcile(config: Config, states: seq<State>, steps: seq<Step>, j: nat)
    requires IsRun(config, states, steps) && j < |states| && config.watchable == {}
    ensures states[j].reconciles == 0
  {
    hide Enabled, Next;
    StaysEmpty(config, states, steps, j);
  }

  lemma {:induction false} StaysEmpty(config: Config, states: seq<State>, steps: seq<Step>, j: nat)
    requires IsRun(config, states, steps) && j < |states| && config.watchable == {}
    ensures var s := states[j];
      && s.config == config && s.watchers == [] && s.sleepers == [] && s.reconciles == 0
      && (s.phase == Starting({}) || s.phase.Waiting? || s.phase.Stopped?)
  {
    if j > 0 {
      StaysEmpty(config, states, steps, j - 1);
    }
  }

  /** A reconcile that fails ends the loop, and nothing starts it again. */
  lemma {:induction false} FailedReconcileEnds(config: Config, states: seq<State>, steps: seq<Step>, k: nat, j: nat)
    requires IsRun(config, states, steps) && k < j < |states| && steps[k] == EndReconcile(false)
    ensures states[j].phase.Stopped? && states[j].reconciles == states[k].reconciles
  {
    if k + 1 < j {
      FailedReconcileEnds(config, states, steps, k, j - 1);
    }
  }

  // ---- Reconnects ------------------------------------------------------------------------------------------------

  /** The step shows that the source works: its watch is started at first, a hint of it is taken, or the reconcile after
      its reconnect succeeds. */
  predicate Restores(s: State, step: Step, i: nat) {
    || step == StartWatch(i)
    || (step.TakeEvent? && s.events != [] && s.events[0] == HintEvent(i))
    || (step == EndReconcile(true) && (s.phase == Reconciling(Repair(i)) || s.phase == Reconciling(Startup)))
  }

  predicate Disconnects(s: State, step: Step, i: nat) {
    step.TakeEvent? && s.events != [] && s.events[0] == DisconnectEvent(i) && i !in s.pending
  }

  /** How often the source has disconnected since it last worked. */
  function Failures(states: seq<State>, steps: seq<Step>, j: nat, i: nat): nat
    requires j <= |steps| && j <= |states|
  {
    if j == 0 then 0
    else if Restores(states[j - 1], steps[j - 1], i) then 0
    else Failures(states, steps, j - 1, i) + OneIf(Disconnects(states[j - 1], steps[j - 1], i))
  }

  predicate DelayIs(s: State, i: nat, n: nat) {
    i in s.delays ==> s.delays[i] == Delay(s.config.initialInterval, s.config.maxInterval, n)
  }

  lemma DelayStep(s: State, step: Step, i: nat, n: nat)
    requires Enabled(s, step) && DelayIs(s, i, n) && (Disconnects(s, step, i) ==> i in s.delays)
    ensures DelayIs(Next(s, step), i, if Restores(s, step, i) then 0 else n + OneIf(Disconnects(s, step, i)))
  {
    hide WatcherEnabled, WatcherNext, EventsAfter, SleeperEnabled, NextBackoffDelay;
  }

  lemma DisconnectedIsKnown(s: State, step: Step, i: nat)
    requires Tokens.BacksOff(s) && Disconnects(s, step, i)
    ensures i in s.delays
  {
    hide Tokens.IsBackoff;
    assert s.events[0] in s.events;
  }

  lemma {:induction false} DelayFollowsFailures(
    config: Config, states: seq<State>, steps: seq<Step>, j: nat, i: nat)
    requires IsRun(config, states, steps) && j < |states|
    ensures DelayIs(states[j], i, Failures(states, steps, j, i))
  {
    hide Enabled, Next, DelayIs, Restores, Disconnects, Tokens.BacksOff;
    if j == 0 {
      NoDelay(config, i);
    } else {
      DelayFollowsFailures(config, states, steps, j - 1, i);
      Tokens.RunBacksOff(config, states, steps, j - 1);
      if Disconnects(states[j - 1], steps[j - 1], i) {
        DisconnectedIsKnown(states[j - 1], steps[j - 1], i);
      }
      DelayStep(states[j - 1], steps[j - 1], i, Failures(states, steps, j - 1, i));
    }
  }

  lemma NoDelay(config: Config, i: nat)
    ensures DelayIs(Initial(config), i, 0)
  {
  }

  /** A disconnect schedules one reconnect, after the delay of the backoff for the disconnects since the source last
      worked. */
  lemma ReconnectWaitsItsTurn(config: Config, states: seq<State>, steps: seq<Step>, k: nat, i: nat)
    requires IsRun(config, states, steps) && k < |steps| && Disconnects(states[k], steps[k], i)
    ensures states[k + 1].sleepers
         == states[k].sleepers
            + [Sleeper(i, Delay(config.initialInterval, config.maxInterval, Failures(states, steps, k, i)), Sleeping)]
    ensures states[k + 1].phase == states[k].phase && states[k + 1].timer == states[k].timer
    ensures states[k + 1].pending == states[k].pending + {i}
  {
    hide WatcherEnabled, WatcherNext, NextBackoffDelay, Tokens.BacksOff, Delay, Failures;
    DelayFollowsFailures(config, states, steps, k, i);
    Tokens.RunBacksOff(config, states, steps, k);
    DisconnectedIsKnown(states[k], steps[k], i);
  }
}
