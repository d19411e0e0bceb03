/** No reconcile without a cause from outside: the start, a relevant event that was read, or the end of a stream. */
module Causes {
  import opened Backoff
  import opened Watch
  import opened Streams
  import opened Debounce

  // ---- Hints -----------------------------------------------------------------------------------------------------

  /** Relevant events read so far. */
  function Reads(steps: seq<Step>, j: nat): nat
    requires j <= |steps|
  {
    if j == 0 then 0 else Reads(steps, j - 1) + OneIf(steps[j - 1].ReadMessage? && steps[j - 1].relevant)
  }

  /** Hints that are still on their way in one watcher. */
  function HintsIn(w: Watcher): nat {
    OneIf(w.reader.Offering?) + OneIf(w.hint) + OneIf(w.forwarder.SendingHint?)
  }

  function HintsInAll(ws: seq<Watcher>): nat {
    if ws == [] then 0 else HintsInAll(ws[..|ws| - 1]) + HintsIn(ws[|ws| - 1])
  }

  function Hints(events: seq<Event>): nat {
    if events == [] then 0 else OneIf(events[0].HintEvent?) + Hints(events[1..])
  }

  lemma {:induction false} HintsChanged(ws: seq<Watcher>, k: nat, w: Watcher)
    requires k < |ws|
    ensures HintsInAll(ws[k := w]) + HintsIn(ws[k]) == HintsInAll(ws) + HintsIn(w)
  {
    hide HintsIn;
    var n := |ws| - 1;
    if k == n {
      assert ws[k := w][..n] == ws[..n];
    } else {
      assert ws[k := w][..n] == ws[..n][k := w];
      HintsChanged(ws[..n], k, w);
    }
  }

  lemma HintsOfNew(ws: seq<Watcher>, i: nat)
    ensures HintsInAll(ws + [NewWatcher(i)]) == HintsInAll(ws)
  {
    assert (ws + [NewWatcher(i)])[..|ws|] == ws;
  }

  lemma {:induction false} HintSent(events: seq<Event>, e: Event)
    ensures Hints(events + [e]) == Hints(events) + OneIf(e.HintEvent?)
  {
    if events == [] {
      assert ([e])[1..] == [];
    } else {
      assert (events + [e])[1..] == events[1..] + [e];
      HintSent(events[1..], e);
    }
  }

  lemma WatcherStepHints(s: State, w: Watcher, step: Step)
    requires WatcherEnabled(s, w, step)
    ensures HintsIn(WatcherNext(s, w, step)) + OneIf(step.SendHint?) <= HintsIn(w) + OneIf(step.ReadMessage? && step.relevant)
  {
  }

  lemma HintEventsAfter(s: State, w: Watcher, step: Step)
    ensures Hints(EventsAfter(s, w, step)) == Hints(s.events) + OneIf(step.SendHint?)
  {
    if step.SendHint? {
      HintSent(s.events, HintEvent(w.source));
    } else if step.SendDisconnect? {
      HintSent(s.events, DisconnectEvent(w.source));
    }
  }

  lemma HintStep(s: State, step: Step, t: Tally)
    requires Enabled(s, step)
    ensures var after, next := Added(s, step, t), Next(s, step);
      after.hints + HintsInAll(next.watchers) + Hints(next.events)
      <= t.hints + HintsInAll(s.watchers) + Hints(s.events) + OneIf(step.ReadMessage? && step.relevant)
  {
    hide WatcherEnabled, WatcherNext, EventsAfter, HintsInAll, Hints, HintsIn, Handle;
    if IsWatcherStep(step) {
      var w := s.watchers[step.w];
      WatcherStepHints(s, w, step);
      HintEventsAfter(s, w, step);
      HintsChanged(s.watchers, step.w, WatcherNext(s, w, step));
    } else if IsSleeperStep(step) {
      HintSent(s.events, ReconnectEvent(s.sleepers[step.r].source));
    } else if step.StartWatch? || step.RestartWatch? {
      HintsOfNew(s.watchers, if step.StartWatch? then step.source else s.phase.source);
    } else if step.TakeEvent? {
      HintTaken(s, t);
    }
  }

  lemma HintTaken(s: State, t: Tally)
    requires Enabled(s, TakeEvent)
    ensures Added(s, TakeEvent, t).hints + Hints(Next(s, TakeEvent).events) == t.hints + Hints(s.events)
    ensures Next(s, TakeEvent).watchers == s.watchers
  {
  }

  /** Every hint the main loop takes comes from a relevant event of its own. */
  lemma {:induction false} HintsAreRead(config: Config, states: seq<State>, steps: seq<Step>, j: nat)
    requires IsRun(config, states, steps) && j < |states|
    ensures TallyOf(states, steps, j).hints + HintsInAll(states[j].watchers) + Hints(states[j].events) <= Reads(steps, j)
  {
    hide Enabled, Next, Added, HintsInAll, Hints;
    if j == 0 {
      NoHints(config);
    } else {
      HintsAreRead(config, states, steps, j - 1);
      HintStep(states[j - 1], steps[j - 1], TallyOf(states, steps, j - 1));
    }
  }

  lemma NoHints(config: Config)
    ensures HintsInAll(Initial(config).watchers) == 0 && Hints(Initial(config).events) == 0
  {
  }

  // ---- Reconnects --------------------------------------------------------------------------------------------------

  function FinishedIn(ws: seq<Watcher>): nat {
    if ws == [] then 0 else FinishedIn(ws[..|ws| - 1]) + OneIf(ws[|ws| - 1].forwarder.Finished?)
  }

  function WaitingIn(rs: seq<Sleeper>): nat {
    if rs == [] then 0 else WaitingIn(rs[..|rs| - 1]) + OneIf(!rs[|rs| - 1].phase.Done?)
  }

  function Repairing(events: seq<Event>): nat {
    if events == [] then 0 else OneIf(!events[0].HintEvent?) + Repairing(events[1..])
  }

  lemma {:induction false} FinishedChanged(ws: seq<Watcher>, k: nat, w: Watcher)
    requires k < |ws|
    ensures FinishedIn(ws[k := w]) + OneIf(ws[k].forwarder.Finished?) == FinishedIn(ws) + OneIf(w.forwarder.Finished?)
  {
    var n := |ws| - 1;
    if k == n {
      assert ws[k := w][..n] == ws[..n];
    } else {
      assert ws[k := w][..n] == ws[..n][k := w];
      FinishedChanged(ws[..n], k, w);
    }
  }

  lemma {:induction false} WaitingChanged(rs: seq<Sleeper>, k: nat, r: Sleeper)
    requires k < |rs|
    ensures WaitingIn(rs[k := r]) + OneIf(!rs[k].phase.Done?) == WaitingIn(rs) + OneIf(!r.phase.Done?)
  {
    var n := |rs| - 1;
    if k == n {
      assert rs[k := r][..n] == rs[..n];
    } else {
      assert rs[k := r][..n] == rs[..n][k := r];
      WaitingChanged(rs[..n], k, r);
    }
  }

  lemma FinishedOfNew(ws: seq<Watcher>, i: nat)
    ensures FinishedIn(ws + [NewWatcher(i)]) == FinishedIn(ws)
  {
    assert (ws + [NewWatcher(i)])[..|ws|] == ws;
  }

  lemma WaitingOfNew(rs: seq<Sleeper>, r: Sleeper)
    ensures WaitingIn(rs + [r]) == WaitingIn(rs) + OneIf(!r.phase.Done?)
  {
    assert (rs + [r])[..|rs|] == rs;
  }

  lemma {:induction false} RepairSent(events: seq<Event>, e: Event)
    ensures Repairing(events + [e]) == Repairing(events) + OneIf(!e.HintEvent?)
  {
    if events == [] {
      assert ([e])[1..] == [];
    } else {
      assert (events + [e])[1..] == events[1..] + [e];
      RepairSent(events[1..], e);
    }
  }

  lemma WatcherStepRepairs(s: State, w: Watcher, step: Step)
    requires WatcherEnabled(s, w, step)
    ensures OneIf(step.SendDisconnect?) + OneIf(w.forwarder.Finished?) <= OneIf(WatcherNext(s, w, step).forwarder.Finished?)
    ensures Repairing(EventsAfter(s, w, step)) == Repairing(s.events) + OneIf(step.SendDisconnect?)
  {
    if step.SendHint? {
      RepairSent(s.events, HintEvent(w.source));
    } else if step.SendDisconnect? {
      RepairSent(s.events, DisconnectEvent(w.source));
    }
  }

  lemma RepairStep(s: State, step: Step, t: Tally)
    requires Enabled(s, step)
    ensures var after, next := Added(s, step, t), Next(s, step);
      after.reconnects + WaitingIn(next.sleepers) + Repairing(next.events) + FinishedIn(s.watchers)
      <= t.reconnects + WaitingIn(s.sleepers) + Repairing(s.events) + FinishedIn(next.watchers)
  {
    hide WatcherEnabled, WatcherNext, EventsAfter, WaitingIn, Repairing, FinishedIn, Handle;
    if IsWatcherStep(step) {
      var w := s.watchers[step.w];
      WatcherStepRepairs(s, w, step);
      FinishedChanged(s.watchers, step.w, WatcherNext(s, w, step));
    } else if IsSleeperStep(step) {
      var r := s.sleepers[step.r];
      RepairSent(s.events, ReconnectEvent(r.source));
      WaitingChanged(s.sleepers, step.r, r.(phase := if step.Wake? then SendingReconnect else Done));
    } else if step.StartWatch? || step.RestartWatch? {
      FinishedOfNew(s.watchers, if step.StartWatch? then step.source else s.phase.source);
    } else if step.TakeEvent? {
      RepairTaken(s, t);
    }
  }

  lemma RepairTaken(s: State, t: Tally)
    requires Enabled(s, TakeEvent)
    ensures var after, next := Added(s, TakeEvent, t), Next(s, TakeEvent);
      && after.reconnects + WaitingIn(next.sleepers) + Repairing(next.events)
         <= t.reconnects + WaitingIn(s.sleepers) + Repairing(s.events)
      && next.watchers == s.watchers
  {
    hide WaitingIn, NextBackoffDelay;
    var e := s.events[0];
    if e.DisconnectEvent? && e.source !in s.pending {
      var delay := if e.source in s.delays then s.delays[e.source] else 0;
      WaitingOfNew(s.sleepers, Sleeper(e.source, delay, Sleeping));
    }
  }

  lemma {:induction false} ReconnectsAreEnds(config: Config, states: seq<State>, steps: seq<Step>, j: nat)
    requires IsRun(config, states, steps) && j < |states|
    ensures TallyOf(states, steps, j).reconnects + WaitingIn(states[j].sleepers) + Repairing(states[j].events)
         <= FinishedIn(states[j].watchers)
  {
    hide Enabled, Next, Added, WaitingIn, Repairing, FinishedIn;
    if j == 0 {
      NoRepairs(config);
    } else {
      ReconnectsAreEnds(config, states, steps, j - 1);
      RepairStep(states[j - 1], steps[j - 1], TallyOf(states, steps, j - 1));
    }
  }

  lemma NoRepairs(config: Config)
    ensures WaitingIn(Initial(config).sleepers) == 0 && Repairing(Initial(config).events) == 0
  {
  }

  /** Watchers among the first `n` whose stream has ended. */
  function EndedStreams(steps: seq<Step>, j: nat, n: nat): nat
    requires j <= |steps|
  {
    if n == 0 then 0 else EndedStreams(steps, j, n - 1) + OneIf(!IsOpen(StreamOf(steps, j, n - 1)))
  }

  lemma {:induction false} FinishedHaveEnded(config: Config, states: seq<State>, steps: seq<Step>, j: nat, n: nat)
    requires IsRun(config, states, steps) && j < |states| && !states[j].cancelled && n <= |states[j].watchers|
    ensures FinishedIn(states[j].watchers[..n]) <= EndedStreams(steps, j, n)
  {
    hide Enabled, Next, StreamOf, IsOpen, Report;
    if n > 0 {
      FinishedHaveEnded(config, states, steps, j, n - 1);
      ReaderFollowsStream(config, states, steps, j, n - 1);
      assert states[j].watchers[..n][..n - 1] == states[j].watchers[..n - 1];
    }
  }

  /** In every live state of every run there were at most as many reconciles as causes: one for the start, the relevant
      events that were read, and the streams that have ended. */
  lemma ReconcilesAreCaused(config: Config, states: seq<State>, steps: seq<Step>, j: nat)
    requires IsRun(config, states, steps) && j < |states| && !states[j].cancelled
    ensures states[j].reconciles <= 1 + Reads(steps, j) + EndedStreams(steps, j, |states[j].watchers|)
  {
    hide Enabled, Next, Added, EndedStreams, HintsInAll, Hints, WaitingIn, Repairing, FinishedIn, TimerRests;
    var s := states[j];
    HintsAreRead(config, states, steps, j);
    ReconnectsAreEnds(config, states, steps, j);
    FinishedHaveEnded(config, states, steps, j, |s.watchers|);
    assert s.watchers[..|s.watchers|] == s.watchers;
    Debounce.RunFits(config, states, steps, j);
    ArmingsAreHints(states, steps, j);
  }

  lemma {:induction false} ArmingsAreHints(states: seq<State>, steps: seq<Step>, j: nat)
    requires j <= |steps| && j <= |states|
    ensures TallyOf(states, steps, j).armings <= TallyOf(states, steps, j).hints
  {
    if j > 0 {
      ArmingsAreHints(states, steps, j - 1);
    }
  }
}
