/** The machine always comes to rest when the outside is quiet, and at rest everything has been served and is watched
    again; and once it is cancelled everything can end. No fairness is needed: the work that is left is a number. */
module Progress {
  import opened Backoff
  import opened Watch
  import opened Tokens
  import opened Wakeups
  import Cancellations

  // ---- The work that is left -------------------------------------------------------------------------------------

  function One(b: bool): nat {
    if b then 1 else 0
  }

  predicate IsReading(w: Watcher) {
    w.reader.Reading? || w.reader.Offering?
  }

  /** Steps that one watcher still causes: a hint costs up to seven, telling of the end of a stream up to nine. */
  function WatcherWork(w: Watcher): nat {
    (match w.reader
     case Reading(_, _) => 0
     case Offering(_, _) => 8
     case Closing => 2
     case ClosingHints => 1
     case Ended => 0)
    + (if w.hint then 7 else 0)
    + (match w.forwarder
       case Forwarding(hints, errors) => if IsReading(w) then 0 else 9 + One(hints) + One(errors)
       case SendingHint(hints, errors) => 6 + if IsReading(w) then 0 else 9 + One(hints) + One(errors)
       case SendingDisconnect => 9
       case Finished => 0)
  }

  function WatchersWork(ws: seq<Watcher>): nat {
    if ws == [] then 0 else WatchersWork(ws[..|ws| - 1]) + WatcherWork(ws[|ws| - 1])
  }

  function EventWork(e: Event): nat {
    if e.DisconnectEvent? then 8 else 5
  }

  function EventsWork(events: seq<Event>): nat {
    if events == [] then 0 else EventWork(events[0]) + EventsWork(events[1..])
  }

  function SleeperWork(r: Sleeper): nat {
    match r.phase
    case Sleeping => 7
    case SendingReconnect => 6
    case Done => 0
  }

  function SleepersWork(rs: seq<Sleeper>): nat {
    if rs == [] then 0 else SleepersWork(rs[..|rs| - 1]) + SleeperWork(rs[|rs| - 1])
  }

  function MainWork(s: State): nat {
    (match s.phase
     case Starting(todo) => 3 + |todo|
     case Waiting => 0
     case Selecting => 0
     case RepairStart(_) => 4
     case RepairClear(_) => 3
     case Due(_) => 2
     case Reconciling(_) => 1
     case Stopped => 0)
    + (match s.timer
       case Off => 0
       case Armed => 4
       case Fired => 3)
  }

  function Work(s: State): nat {
    WatchersWork(s.watchers) + EventsWork(s.events) + SleepersWork(s.sleepers) + MainWork(s)
  }

  lemma {:induction false} WatcherWorkChanged(ws: seq<Watcher>, k: nat, w: Watcher)
    requires k < |ws|
    ensures WatchersWork(ws[k := w]) + WatcherWork(ws[k]) == WatchersWork(ws) + WatcherWork(w)
  {
    hide WatcherWork;
    var n := |ws| - 1;
    if k == n {
      assert ws[k := w][..n] == ws[..n];
    } else {
      assert ws[k := w][..n] == ws[..n][k := w];
      WatcherWorkChanged(ws[..n], k, w);
    }
  }

  lemma {:induction false} SleeperWorkChanged(rs: seq<Sleeper>, k: nat, r: Sleeper)
    requires k < |rs|
    ensures SleepersWork(rs[k := r]) + SleeperWork(rs[k]) == SleepersWork(rs) + SleeperWork(r)
  {
    hide SleeperWork;
    var n := |rs| - 1;
    if k == n {
      assert rs[k := r][..n] == rs[..n];
    } else {
      assert rs[k := r][..n] == rs[..n][k := r];
      SleeperWorkChanged(rs[..n], k, r);
    }
  }

  lemma WatcherWorkAdded(ws: seq<Watcher>, i: nat)
    ensures WatchersWork(ws + [NewWatcher(i)]) == WatchersWork(ws)
  {
    assert (ws + [NewWatcher(i)])[..|ws|] == ws;
  }

  lemma SleeperWorkAdded(rs: seq<Sleeper>, r: Sleeper)
    ensures SleepersWork(rs + [r]) == SleepersWork(rs) + SleeperWork(r)
  {
    assert (rs + [r])[..|rs|] == rs;
  }

  lemma {:induction false} EventWorkAdded(events: seq<Event>, e: Event)
    ensures EventsWork(events + [e]) == EventsWork(events) + EventWork(e)
  {
    if events == [] {
      assert ([e])[1..] == [];
    } else {
      assert (events + [e])[1..] == events[1..] + [e];
      EventWorkAdded(events[1..], e);
    }
  }

  // ---- Every internal step does some of it -----------------------------------------------------------------------

  lemma WatcherStepWorks(s: State, w: Watcher, step: Step)
    requires WatcherEnabled(s, w, step) && Fits(w) && !s.cancelled && IsInternal(step)
    ensures WatcherWork(WatcherNext(s, w, step))
            + (if step.SendHint? then 5 else if step.SendDisconnect? then 8 else 0) < WatcherWork(w)
  {
  }

  lemma WatcherStepEvents(s: State, w: Watcher, step: Step)
    ensures EventsWork(EventsAfter(s, w, step))
         == EventsWork(s.events) + (if step.SendHint? then 5 else if step.SendDisconnect? then 8 else 0)
  {
    if step.SendHint? {
      EventWorkAdded(s.events, HintEvent(w.source));
    } else if step.SendDisconnect? {
      EventWorkAdded(s.events, DisconnectEvent(w.source));
    }
  }

  lemma WatcherWorks(s: State, step: Step)
    requires Enabled(s, step) && IsWatcherStep(step) && WatchersFit(s) && !s.cancelled && IsInternal(step)
    ensures Work(Next(s, step)) < Work(s)
  {
    hide WatcherEnabled, WatcherNext, EventsAfter, WatchersWork, EventsWork, SleepersWork, WatcherWork, Fits;
    var w := s.watchers[step.w];
    WatcherStepWorks(s, w, step);
    WatcherStepEvents(s, w, step);
    WatcherWorkChanged(s.watchers, step.w, WatcherNext(s, w, step));
  }

  lemma SleeperWorks(s: State, step: Step)
    requires Enabled(s, step) && IsSleeperStep(step) && !s.cancelled
    ensures Work(Next(s, step)) < Work(s)
  {
    hide WatchersWork, EventsWork, SleepersWork;
    var r := s.sleepers[step.r];
    SleeperWorkChanged(s.sleepers, step.r, r.(phase := if step.Wake? then SendingReconnect else Done));
    EventWorkAdded(s.events, ReconnectEvent(r.source));
  }

  lemma EventWorks(s: State)
    requires Enabled(s, TakeEvent)
    ensures Work(Next(s, TakeEvent)) < Work(s)
  {
    hide WatchersWork, SleepersWork, NextBackoffDelay;
    var e := s.events[0];
    if e.DisconnectEvent? && e.source !in s.pending {
      var delay := if e.source in s.delays then s.delays[e.source] else 0;
      SleeperWorkAdded(s.sleepers, Sleeper(e.source, delay, Sleeping));
    }
  }

  lemma MainWorks(s: State, step: Step)
    requires Enabled(s, step) && !IsWatcherStep(step) && !IsSleeperStep(step) && !step.TakeEvent?
    requires !s.cancelled && IsInternal(step)
    ensures Work(Next(s, step)) < Work(s)
  {
    hide WatchersWork, EventsWork, SleepersWork, ResetAll;
    match step {
      case StartWatch(i) =>
        WatcherWorkAdded(s.watchers, i);
        Cancellations.SmallerTodo(s.phase.todo, i);
      case RestartWatch => WatcherWorkAdded(s.watchers, s.phase.source);
      case _ =>
    }
  }

  lemma StepWorks(s: State, step: Step)
    requires Enabled(s, step) && WatchersFit(s) && !s.cancelled && IsInternal(step)
    ensures Work(Next(s, step)) < Work(s)
  {
    hide Enabled, Next, Work, WatchersFit, IsInternal;
    if IsWatcherStep(step) {
      WatcherWorks(s, step);
    } else if IsSleeperStep(step) {
      SleeperWorks(s, step);
    } else if step.TakeEvent? {
      EventWorks(s);
    } else {
      MainWorks(s, step);
    }
  }

  /** While the outside is quiet the machine makes at most as many steps as there is work left, in whatever order. */
  lemma {:induction false} InternalStepsEnd(config: Config, states: seq<State>, steps: seq<Step>, i: nat, j: nat)
    requires IsRun(config, states, steps) && i <= j < |states| && !states[j].cancelled
    requires forall k :: i <= k < j ==> IsInternal(steps[k])
    ensures j - i + Work(states[j]) <= Work(states[i])
  {
    hide Enabled, Next, Work, WatchersFit, IsInternal;
    if i < j {
      if states[j - 1].cancelled {
        StaysCancelled(states[j - 1], steps[j - 1]);
      }
      InternalStepsEnd(config, states, steps, i, j - 1);
      Wakeups.RunFits(config, states, steps, j - 1);
      StepWorks(states[j - 1], steps[j - 1]);
    }
  }

  // ---- At rest -----------------------------------------------------------------------------------------------------

  /** Nothing moves until the outside does. */
  ghost predicate AtRest(s: State) {
    forall step :: Enabled(s, step) ==> !IsInternal(step)
  }

  /** The watcher reads an open stream and forwards, with nothing on the way; or both its goroutines have ended. */
  predicate IsIdle(w: Watcher) {
    if w.reader.Reading? then w.forwarder.Forwarding? && !w.hint else w.reader.Ended? && w.forwarder.Finished?
  }

  lemma MainRests(s: State)
    requires AtRest(s) && GoesOn(s) && s.config.watchable != {}
    ensures s.phase.Selecting? || s.phase.Waiting?
    ensures s.phase.Selecting? ==> s.events == [] && s.timer.Off?
  {
    hide WatcherEnabled, SleeperEnabled;
    var step :=
      match s.phase
      case Starting(todo) => if todo == {} then HandOff else var i :| i in todo; StartWatch(i)
      case RepairStart(_) => RestartWatch
      case RepairClear(_) => ClearTimer
      case Due(_) => BeginReconcile
      case Reconciling(_) => EndReconcile(true)
      case _ => if s.events != [] then TakeEvent else if s.timer.Armed? then TimerFires else TakeTimer;
    assert IsInternal(step) && (Enabled(s, step) <==> MainEnabled(s, step));
  }

  lemma SleeperRests(s: State, r: nat)
    requires AtRest(s) && r < |s.sleepers| && HasRoom(s)
    ensures s.sleepers[r].phase.Done?
  {
    var step := if s.sleepers[r].phase.Sleeping? then Wake(r) else SendReconnect(r);
    assert IsInternal(step) && (Enabled(s, step) <==> SleeperEnabled(s, s.sleepers[r], step));
  }

  /** The step that a watcher can make unless it is idle. */
  function OwnStep(w: Watcher, k: nat): Step {
    match w.forwarder
    case SendingHint(_, _) => SendHint(k)
    case SendingDisconnect => SendDisconnect(k)
    case Forwarding(hints, errors) =>
      if w.reader.Offering? then Offer(k)
      else if w.reader.Closing? then CloseErrors(k)
      else if w.reader.ClosingHints? then CloseHints(k)
      else if w.hint && hints then TakeHint(k)
      else if hints then SeeHintsClosed(k)
      else if w.error.Some? then TakeError(k)
      else SeeErrorsClosed(k)
    case Finished => if w.reader.Closing? then CloseErrors(k) else CloseHints(k)
  }

  lemma WatcherRests(s: State, k: nat)
    requires AtRest(s) && k < |s.watchers| && Fits(s.watchers[k]) && HasRoom(s)
    ensures IsIdle(s.watchers[k])
  {
    var w := s.watchers[k];
    var step := OwnStep(w, k);
    assert IsInternal(step) && IsWatcherStep(step) && step.w == k;
    assert Enabled(s, step) <==> WatcherEnabled(s, w, step);
  }

  lemma RestIsIdle(s: State)
    requires AtRest(s) && GoesOn(s) && WatchersFit(s) && s.config.watchable != {} && !s.phase.Waiting?
    ensures s.phase.Selecting? && s.events == [] && s.timer.Off?
    ensures forall k :: 0 <= k < |s.watchers| ==> IsIdle(s.watchers[k])
    ensures forall r :: 0 <= r < |s.sleepers| ==> s.sleepers[r].phase.Done?
  {
    hide AtRest, Fits, IsIdle;
    MainRests(s);
    RoomWhenEmpty(s);
    forall k | 0 <= k < |s.watchers| ensures IsIdle(s.watchers[k]) {
      WatcherRests(s, k);
    }
    forall r | 0 <= r < |s.sleepers| ensures s.sleepers[r].phase.Done? {
      SleeperRests(s, r);
    }
  }

  lemma RoomWhenEmpty(s: State)
    requires s.events == [] && s.config.watchable != {}
    ensures HasRoom(s)
  {
    var i :| i in s.config.watchable;
    assert |s.config.watchable - {i}| < |s.config.watchable|;
  }

  lemma {:induction false} NotWaiting(config: Config, states: seq<State>, steps: seq<Step>, j: nat)
    requires IsRun(config, states, steps) && j < |states| && config.watchable != {}
    ensures !states[j].phase.Waiting? && states[j].config == config
  {
    hide WatcherEnabled, WatcherNext, SleeperEnabled, NextBackoffDelay;
    if j > 0 {
      NotWaiting(config, states, steps, j - 1);
    }
  }

  /** Whatever the schedule: when the machine has come to rest after a relevant event was read, a reconcile has begun since,
      unless a forwarder of the source took a wrapped cancellation for a shutdown. */
  lemma RestHasServed(config: Config, states: seq<State>, steps: seq<Step>, k: nat, j: nat)
    requires IsRun(config, states, steps) && k < j < |states| && config.watchable != {}
    requires steps[k].ReadMessage? && steps[k].relevant && GoesOn(states[j]) && AtRest(states[j])
    requires !ExitedSilently(states, steps, j, states[k].watchers[steps[k].w].source)
    ensures states[j].reconciles > states[k].reconciles
  {
    var i := states[k].watchers[steps[k].w].source;
    hide Enabled, Next, Carrier, ExitedSilently, AtRest, WatchersFit, IsIdle;
    NoLostWakeup(config, states, steps, k, j);
    Wakeups.RunFits(config, states, steps, j);
    NotWaiting(config, states, steps, j);
    RestIsIdle(states[j]);
    if Carrier(states[j], i) {
      CarrierCanMove(states[j], i);
      SomethingMoves(states[j]);
    }
  }

  lemma SomethingMoves(s: State)
    requires exists step :: IsInternal(step) && Enabled(s, step)
    ensures !AtRest(s)
  {
  }

  /** Whatever the schedule: when the machine has come to rest, every source is watched by exactly one watcher that reads an
      open stream, nothing is on the way, and no reconnect waits; unless a forwarder of the source took a wrapped
      cancellation for a shutdown. */
  lemma RestIsWatched(config: Config, states: seq<State>, steps: seq<Step>, j: nat, i: nat)
    requires IsRun(config, states, steps) && j < |states| && GoesOn(states[j]) && AtRest(states[j])
    requires i in config.watchable && !ExitedSilently(states, steps, j, i)
    ensures states[j].phase.Selecting? && states[j].events == [] && states[j].timer.Off?
    ensures exists k :: IsWatching(states[j], k, i) && forall l :: IsWatching(states[j], l, i) ==> l == k
  {
    hide Enabled, Next, ExitedSilently, AtRest, WatchersFit, TokenInv;
    var s := states[j];
    Wakeups.RunFits(config, states, steps, j);
    NotWaiting(config, states, steps, j);
    RestIsIdle(s);
    TokenIsConserved(config, states, steps, j, i);
    NoneAwaiting(s.sleepers, i);
    var k := LiveWatcher(s.watchers, i);
    assert IsIdle(s.watchers[k]);
    assert IsWatching(s, k, i);
    forall l | IsWatching(s, l, i) ensures l == k {
      OnlyLive(config, states, steps, j, i, k, l);
    }
  }

  lemma OnlyLive(config: Config, states: seq<State>, steps: seq<Step>, j: nat, i: nat, k: nat, l: nat)
    requires IsRun(config, states, steps) && j < |states| && !states[j].cancelled
    requires IsWatching(states[j], k, i) && IsWatching(states[j], l, i)
    ensures l == k
  {
    hide Enabled, Next;
    if l < k {
      OneWatcherPerSource(config, states, steps, j, l, k);
    } else if k < l {
      OneWatcherPerSource(config, states, steps, j, k, l);
    }
  }

  /** The watcher serves the source: its stream is open, and its forwarder listens. */
  predicate IsWatching(s: State, k: nat, i: nat) {
    k < |s.watchers| && s.watchers[k].source == i && s.watchers[k].reader.Reading? && s.watchers[k].forwarder.Forwarding?
  }

  lemma {:induction false} NoneAwaiting(rs: seq<Sleeper>, i: nat)
    requires forall r :: 0 <= r < |rs| ==> rs[r].phase.Done?
    ensures LiveSleepers(rs, i) == 0
  {
    if rs != [] {
      NoneAwaiting(rs[..|rs| - 1], i);
    }
  }

  lemma {:induction false} LiveWatcher(ws: seq<Watcher>, i: nat) returns (k: nat)
    requires LiveWatchers(ws, i) > 0
    ensures k < |ws| && ws[k].source == i && !ws[k].forwarder.Finished?
  {
    k := |ws| - 1;
    if Live(ws[k], i) == 0 {
      k := LiveWatcher(ws[..k], i);
    }
  }

  // ---- Shutdown ------------------------------------------------------------------------------------------------------

  /** All goroutines have ended. */
  predicate AllEnded(s: State) {
    && s.phase.Stopped?
    && (forall k :: 0 <= k < |s.watchers| ==> s.watchers[k].reader.Ended? && s.watchers[k].forwarder.Finished?)
    && (forall r :: 0 <= r < |s.sleepers| ==> s.sleepers[r].phase.Done?)
  }

  function WatcherRank(w: Watcher): nat {
    (match w.reader
     case Offering(_, _) => 4
     case Reading(_, _) => 3
     case Closing => 2
     case ClosingHints => 1
     case Ended => 0)
    + (match w.forwarder
       case SendingHint(_, _) => 2
       case Finished => 0
       case _ => 1)
  }

  function WatchersRank(ws: seq<Watcher>): nat {
    if ws == [] then 0 else WatchersRank(ws[..|ws| - 1]) + WatcherRank(ws[|ws| - 1])
  }

  function SleepersRank(rs: seq<Sleeper>): nat {
    if rs == [] then 0 else SleepersRank(rs[..|rs| - 1]) + One(!rs[|rs| - 1].phase.Done?)
  }

  function Rank(s: State): nat {
    WatchersRank(s.watchers) + SleepersRank(s.sleepers) + One(!s.phase.Stopped?)
  }

  lemma {:induction false} WatcherRankChanged(ws: seq<Watcher>, k: nat, w: Watcher)
    requires k < |ws|
    ensures WatchersRank(ws[k := w]) + WatcherRank(ws[k]) == WatchersRank(ws) + WatcherRank(w)
  {
    hide WatcherRank;
    var n := |ws| - 1;
    if k == n {
      assert ws[k := w][..n] == ws[..n];
    } else {
      assert ws[k := w][..n] == ws[..n][k := w];
      WatcherRankChanged(ws[..n], k, w);
    }
  }

  lemma {:induction false} SleeperRankChanged(rs: seq<Sleeper>, k: nat, r: Sleeper)
    requires k < |rs|
    ensures SleepersRank(rs[k := r]) + One(!rs[k].phase.Done?) == SleepersRank(rs) + One(!r.phase.Done?)
  {
    var n := |rs| - 1;
    if k == n {
      assert rs[k := r][..n] == rs[..n];
    } else {
      assert rs[k := r][..n] == rs[..n][k := r];
      SleeperRankChanged(rs[..n], k, r);
    }
  }

  /** The step that brings a watcher nearer to its end once the context is cancelled. */
  function EndingStep(w: Watcher, k: nat): Step {
    if !w.forwarder.Finished? then ForwarderStops(k)
    else if w.reader.Offering? then Offer(k)
    else if w.reader.Reading? then ReaderStops(k)
    else if w.reader.Closing? then CloseErrors(k)
    else CloseHints(k)
  }

  lemma WatcherEnds(s: State, k: nat) returns (step: Step)
    requires s.cancelled && k < |s.watchers|
    requires !(s.watchers[k].reader.Ended? && s.watchers[k].forwarder.Finished?)
    ensures Enabled(s, step) && Rank(Next(s, step)) < Rank(s) && Next(s, step).cancelled
    ensures Next(s, step).reconciles == s.reconciles && Next(s, step).events == s.events
  {
    hide WatchersRank, SleepersRank;
    var w := s.watchers[k];
    step := EndingStep(w, k);
    WatcherRankChanged(s.watchers, k, WatcherNext(s, w, step));
  }

  lemma SleeperEnds(s: State, r: nat)
    requires s.cancelled && r < |s.sleepers| && !s.sleepers[r].phase.Done?
    ensures Enabled(s, SleeperStops(r)) && Rank(Next(s, SleeperStops(r))) < Rank(s) && Next(s, SleeperStops(r)).cancelled
    ensures Next(s, SleeperStops(r)).reconciles == s.reconciles && Next(s, SleeperStops(r)).events == s.events
  {
    hide WatchersRank, SleepersRank;
    SleeperRankChanged(s.sleepers, r, s.sleepers[r].(phase := Done));
  }

  lemma MainEnds(s: State)
    requires s.cancelled && !s.phase.Stopped?
    ensures Enabled(s, MainStops) && Rank(Next(s, MainStops)) < Rank(s) && Next(s, MainStops).cancelled
    ensures Next(s, MainStops).reconciles == s.reconciles && Next(s, MainStops).events == s.events
  {
    hide WatchersRank, SleepersRank;
  }

  lemma SomeStepEnds(s: State) returns (step: Step)
    requires s.cancelled && !AllEnded(s)
    ensures Enabled(s, step) && Rank(Next(s, step)) < Rank(s) && Next(s, step).cancelled
    ensures Next(s, step).reconciles == s.reconciles && Next(s, step).events == s.events
  {
    hide Enabled, Next, Rank;
    if !s.phase.Stopped? {
      step := MainStops;
      MainEnds(s);
    } else if k :| 0 <= k < |s.watchers| && !(s.watchers[k].reader.Ended? && s.watchers[k].forwarder.Finished?) {
      step := WatcherEnds(s, k);
    } else {
      var r :| 0 <= r < |s.sleepers| && !s.sleepers[r].phase.Done?;
      step := SleeperStops(r);
      SleeperEnds(s, r);
    }
  }

  lemma {:induction false} AllCanEnd(config: Config, states: seq<State>, steps: seq<Step>)
    returns (states': seq<State>, steps': seq<Step>)
    requires IsRun(config, states, steps) && states[|steps|].cancelled
    ensures IsRun(config, states', steps') && steps <= steps' && AllEnded(states'[|steps'|])
    ensures states'[|steps'|].reconciles == states[|steps|].reconciles
    ensures states'[|steps'|].events == states[|steps|].events
    decreases Rank(states[|steps|])
  {
    hide Enabled, Next, Rank, AllEnded;
    states', steps' := states, steps;
    if !AllEnded(states[|steps|]) {
      var step := SomeStepEnds(states[|steps|]);
      states', steps' := Cancellations.ExtendRun(config, states, steps, step);
      states', steps' := AllCanEnd(config, states', steps');
    }
  }

  lemma CancelIsPossible(s: State)
    ensures Enabled(s, Cancel) && Next(s, Cancel) == s.(cancelled := true)
  {
  }

  /** At any moment of any run the operator can cancel, and then all goroutines can end without another reconcile and
      without anything more being sent to the main loop. */
  lemma CancelEndsEverything(config: Config, states: seq<State>, steps: seq<Step>)
    returns (states': seq<State>, steps': seq<Step>)
    requires IsRun(config, states, steps)
    ensures IsRun(config, states', steps') && steps + [Cancel] <= steps' && AllEnded(states'[|steps'|])
    ensures states'[|steps'|].reconciles == states[|steps|].reconciles
    ensures states'[|steps'|].events == states[|steps|].events
  {
    hide Enabled, Next, AllEnded;
    CancelIsPossible(states[|steps|]);
    states', steps' := Cancellations.ExtendRun(config, states, steps, Cancel);
    states', steps' := AllCanEnd(config, states', steps');
  }

  /** Once cancelled, no stream that ends is reported and no forwarder that sees its channels close tells the main loop. */
  lemma CancelledIsQuiet(s: State, step: Step)
    requires Enabled(s, step) && IsWatcherStep(step) && s.cancelled
    ensures var w, next := s.watchers[step.w], Next(s, step).watchers[step.w];
      && (next.error.Some? && !step.StreamFails? ==> next.error == w.error)
      && (next.forwarder.SendingDisconnect? && !step.TakeError? ==> w.forwarder.SendingDisconnect?)
  {
  }
}
