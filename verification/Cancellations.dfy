/** Lost wake-ups and the stream errors behind them: a wrapped cancellation, and nothing else. */
module Cancellations {
  import opened Records
  import opened Watch
  import opened Tokens
  import opened Wakeups

  /** Whatever the streams report is among the errors. */
  ghost predicate ErrorsWithin(steps: seq<Step>, allowed: set<StreamError>) {
    forall k :: 0 <= k < |steps| && steps[k].StreamFails? ==> steps[k].err in allowed
  }

  /** The event read at step `k` has led to a reconcile at state `j`, or is carried there. */
  ghost predicate IsKept(states: seq<State>, steps: seq<Step>, k: nat, j: nat)
    requires k < |steps| && k < j < |states|
  {
    steps[k].ReadMessage? && steps[k].relevant && steps[k].w < |states[k].watchers| && GoesOn(states[j]) ==>
      states[j].reconciles > states[k].reconciles || Carrier(states[j], states[k].watchers[steps[k].w].source)
  }

  ghost predicate KeepsWakeups(states: seq<State>, steps: seq<Step>) {
    forall k, j :: 0 <= k < |steps| && k < j < |states| ==> IsKept(states, steps, k, j)
  }

  /** No run with the errors loses a wake-up. */
  ghost predicate NeverLoses(config: Config, allowed: set<StreamError>) {
    forall states, steps :: IsRun(config, states, steps) && ErrorsWithin(steps, allowed) ==> KeepsWakeups(states, steps)
  }

  lemma OtherErrorsKeep(config: Config, states: seq<State>, steps: seq<Step>, allowed: set<StreamError>)
    requires IsRun(config, states, steps) && ErrorsWithin(steps, allowed) && WrappedCanceled !in allowed
    ensures KeepsWakeups(states, steps)
  {
    hide Enabled, Next, Carrier, ExitedSilently, NoneWrapped, WatchersFit;
    forall k, j | 0 <= k < |steps| && k < j < |states| ensures IsKept(states, steps, k, j) {
      if steps[k].ReadMessage? && steps[k].relevant && steps[k].w < |states[k].watchers| && GoesOn(states[j]) {
        SilentExitIsWrapped(config, states, steps, j, states[k].watchers[steps[k].w].source);
        NoLostWakeup(config, states, steps, k, j);
      }
    }
  }

  // ---- Runs, step by step ----------------------------------------------------------------------------------------

  lemma ExtendRun(config: Config, states: seq<State>, steps: seq<Step>, step: Step)
    returns (states': seq<State>, steps': seq<Step>)
    requires IsRun(config, states, steps) && Enabled(states[|steps|], step)
    ensures states' == states + [Next(states[|steps|], step)] && steps' == steps + [step]
    ensures IsRun(config, states', steps')
  {
    hide Enabled, Next;
    states', steps' := states + [Next(states[|steps|], step)], steps + [step];
  }

  /** Watches are started one by one and nothing else has happened. */
  ghost predicate Quiet(s: State, config: Config) {
    && s.config == config && !s.cancelled && s.sleepers == [] && s.events == [] && s.timer.Off? && s.reconciles == 0
    && s.phase.Starting? && s.phase.todo <= config.watchable
    && (forall w :: 0 <= w < |s.watchers| ==> s.watchers[w] == NewWatcher(s.watchers[w].source))
    && (forall w :: 0 <= w < |s.watchers| ==> s.watchers[w].source !in s.phase.todo)
    && (forall v, w :: 0 <= v < w < |s.watchers| ==> s.watchers[v].source != s.watchers[w].source)
    && (s.watchers == [] ==> s.phase.todo == config.watchable)
  }

  ghost predicate OnlyStarts(steps: seq<Step>) {
    forall k :: 0 <= k < |steps| ==> steps[k].StartWatch?
  }

  lemma StartOne(s: State, config: Config, i: nat)
    requires Quiet(s, config) && i in s.phase.todo
    ensures Enabled(s, StartWatch(i)) && Quiet(Next(s, StartWatch(i)), config)
    ensures Next(s, StartWatch(i)).phase == Starting(s.phase.todo - {i})
  {
  }

  lemma StartAll(config: Config, states: seq<State>, steps: seq<Step>)
    returns (states': seq<State>, steps': seq<Step>)
    requires IsRun(config, states, steps) && Quiet(states[|steps|], config) && OnlyStarts(steps)
    ensures IsRun(config, states', steps') && Quiet(states'[|steps'|], config) && OnlyStarts(steps')
    ensures states'[|steps'|].phase.todo == {}
    decreases |states[|steps|].phase.todo|
  {
    hide Enabled, Next, Quiet, IsRun;
    states', steps' := states, steps;
    RunHasEnd(config, states, steps);
    QuietIsStarting(states[|steps|], config);
    var todo := states[|steps|].phase.todo;
    if todo != {} {
      var i :| i in todo;
      StartOne(states[|steps|], config, i);
      states', steps' := ExtendRun(config, states, steps, StartWatch(i));
      SmallerTodo(todo, i);
      states', steps' := StartAll(config, states', steps');
    }
  }

  lemma RunHasEnd(config: Config, states: seq<State>, steps: seq<Step>)
    requires IsRun(config, states, steps)
    ensures |states| == |steps| + 1
  {
  }

  lemma QuietIsStarting(s: State, config: Config)
    requires Quiet(s, config)
    ensures s.phase.Starting?
  {
  }

  lemma SmallerTodo(todo: set<nat>, i: nat)
    requires i in todo
    ensures |todo - {i}| < |todo|
  {
  }

  // ---- A run that loses a wake-up ------------------------------------------------------------------------------------

  /** The first watcher has been started and the first reconcile is over; the other watchers serve other sources. */
  ghost predicate Settled(s: State, w: Watcher, reconciles: nat) {
    && !s.cancelled && s.sleepers == [] && s.events == [] && s.timer.Off? && s.reconciles == reconciles
    && s.phase.Selecting? && s.watchers != [] && s.watchers[0] == w
    && (forall v :: 1 <= v < |s.watchers| ==> s.watchers[v].source != w.source)
  }

  lemma HandOver(s: State, config: Config)
    requires Quiet(s, config) && s.phase.todo == {} && config.watchable != {}
    ensures s.watchers != []
    ensures Enabled(s, HandOff) && Enabled(Next(s, HandOff), BeginReconcile)
    ensures var due := Next(Next(s, HandOff), BeginReconcile);
      Enabled(due, EndReconcile(true)) && Settled(Next(due, EndReconcile(true)), NewWatcher(s.watchers[0].source), 1)
  {
  }

  /** A step of the first watcher that touches nothing else. */
  lemma OwnStep(s: State, w: Watcher, step: Step)
    requires Settled(s, w, s.reconciles) && IsWatcherStep(step) && step.w == 0 && WatcherEnabled(s, w, step)
    requires !step.SendHint? && !step.SendDisconnect?
    ensures Enabled(s, step) && Settled(Next(s, step), WatcherNext(s, w, step), s.reconciles)
  {
    SourceStays(s, w, step);
    hide WatcherNext, WatcherEnabled;
  }

  lemma Loses(config: Config, states: seq<State>, steps: seq<Step>, i: nat)
    returns (states': seq<State>, steps': seq<Step>)
    requires IsRun(config, states, steps) && Settled(states[|steps|], NewWatcher(i), 1)
    ensures IsRun(config, states', steps') && |steps'| == |steps| + 4
    ensures steps' == steps + [ReadMessage(0, true), Offer(0), StreamFails(0, WrappedCanceled), TakeError(0)]
    ensures states'[|steps|] == states[|steps|]
    ensures Settled(states'[|steps'|], NewWatcher(i).(reader := Closing, hint := true, forwarder := Finished), 1)
  {
    hide Enabled, Next, Settled;
    var s := states[|steps|];
    SettledReconciles(s, NewWatcher(i), 1);
    var w := NewWatcher(i);
    OwnStep(s, w, ReadMessage(0, true));
    states', steps' := ExtendRun(config, states, steps, ReadMessage(0, true));
    var w1 := w.(reader := Offering(true, true));
    s := states'[|steps'|];
    SettledReconciles(s, w1, 1);
    OwnStep(s, w1, Offer(0));
    states', steps' := ExtendRun(config, states', steps', Offer(0));
    var w2 := w.(hint := true);
    s := states'[|steps'|];
    SettledReconciles(s, w2, 1);
    OwnStep(s, w2, StreamFails(0, WrappedCanceled));
    states', steps' := ExtendRun(config, states', steps', StreamFails(0, WrappedCanceled));
    var w3 := w2.(reader := Closing, error := Some(WrappedCanceled));
    s := states'[|steps'|];
    SettledReconciles(s, w3, 1);
    OwnStep(s, w3, TakeError(0));
    states', steps' := ExtendRun(config, states', steps', TakeError(0));
  }

  lemma SettledReconciles(s: State, w: Watcher, reconciles: nat)
    requires Settled(s, w, reconciles)
    ensures s.reconciles == reconciles
  {
  }

  lemma NothingLeft(s: State, w: Watcher)
    requires Settled(s, w, 1) && w.forwarder.Finished?
    ensures GoesOn(s) && !Carrier(s, w.source) && TokenCount(s, w.source) == 0
  {
    hide LiveWatchers;
    assert !WatcherCarries(s, w.source);
    NoneLive(s.watchers, w.source);
  }

  lemma {:induction false} NoneLive(ws: seq<Watcher>, i: nat)
    requires forall v :: 0 <= v < |ws| ==> Live(ws[v], i) == 0
    ensures LiveWatchers(ws, i) == 0
  {
    if ws != [] {
      NoneLive(ws[..|ws| - 1], i);
    }
  }

  /** With any sources at all and a wrapped cancellation there is a run that loses an event: it goes on, no reconcile has
      started since the event was read, nothing carries it, and its source is never watched again. */
  lemma WrappedCancellationLosesWakeup(config: Config)
    returns (states: seq<State>, steps: seq<Step>, k: nat, i: nat)
    requires config.watchable != {}
    ensures IsRun(config, states, steps) && ErrorsWithin(steps, {WrappedCanceled})
    ensures |states| == k + 5 && |steps| == k + 4
    ensures steps[k] == ReadMessage(0, true) && states[k].watchers != [] && states[k].watchers[0].source == i
    ensures GoesOn(states[k + 4]) && states[k + 4].phase.Selecting? && states[k + 4].reconciles == states[k].reconciles
    ensures !Carrier(states[k + 4], i) && TokenCount(states[k + 4], i) == 0
  {
    hide Enabled, Next, Quiet, Settled, Carrier, TokenCount, IsRun;
    QuietAtFirst(config);
    states, steps := StartAll(config, [Initial(config)], []);
    RunHasEnd(config, states, steps);
    HandOver(states[|steps|], config);
    i := states[|steps|].watchers[0].source;
    ghost var starts := steps;
    states, steps := ExtendRun(config, states, steps, HandOff);
    states, steps := ExtendRun(config, states, steps, BeginReconcile);
    states, steps := ExtendRun(config, states, steps, EndReconcile(true));
    k := |steps|;
    ghost var before := steps;
    var s := states[k];
    states, steps := Loses(config, states, steps, i);
    RunHasEnd(config, states, steps);
    var w := NewWatcher(i).(reader := Closing, hint := true, forwarder := Finished);
    NothingLeft(states[k + 4], w);
    SettledIs(states[k + 4], w, 1);
    SettledIs(s, NewWatcher(i), 1);
    assert steps == starts + [HandOff, BeginReconcile, EndReconcile(true), ReadMessage(0, true), Offer(0),
                              StreamFails(0, WrappedCanceled), TakeError(0)];
    OnlyWrapped(starts, steps);
  }

  lemma QuietAtFirst(config: Config)
    ensures IsRun(config, [Initial(config)], []) && Quiet(Initial(config), config) && OnlyStarts([])
  {
  }

  lemma SettledIs(s: State, w: Watcher, reconciles: nat)
    requires Settled(s, w, reconciles)
    ensures s.phase.Selecting? && s.reconciles == reconciles && s.watchers != [] && s.watchers[0] == w
  {
  }

  lemma OnlyWrapped(starts: seq<Step>, steps: seq<Step>)
    requires OnlyStarts(starts)
    requires steps == starts + [HandOff, BeginReconcile, EndReconcile(true), ReadMessage(0, true), Offer(0),
                                StreamFails(0, WrappedCanceled), TakeError(0)]
    ensures ErrorsWithin(steps, {WrappedCanceled})
  {
    assert forall k :: 0 <= k < |starts| ==> starts[k] == steps[k];
  }

  /** No run loses a wake-up exactly if no stream reports a wrapped cancellation. */
  lemma WakeupsAreKeptExactly(config: Config, allowed: set<StreamError>)
    requires config.watchable != {}
    ensures NeverLoses(config, allowed) <==> WrappedCanceled !in allowed
  {
    hide IsRun, ErrorsWithin, KeepsWakeups, Carrier, TokenCount;
    if WrappedCanceled in allowed {
      var states, steps, k, i := WrappedCancellationLosesWakeup(config);
      MoreErrors(steps, allowed);
      NotKept(states, steps, k, i);
    } else {
      forall states, steps | IsRun(config, states, steps) && ErrorsWithin(steps, allowed)
        ensures KeepsWakeups(states, steps)
      {
        OtherErrorsKeep(config, states, steps, allowed);
      }
    }
  }

  lemma MoreErrors(steps: seq<Step>, allowed: set<StreamError>)
    requires ErrorsWithin(steps, {WrappedCanceled}) && WrappedCanceled in allowed
    ensures ErrorsWithin(steps, allowed)
  {
  }

  lemma NotKept(states: seq<State>, steps: seq<Step>, k: nat, i: nat)
    requires |states| == k + 5 && |steps| == k + 4
    requires steps[k] == ReadMessage(0, true) && states[k].watchers != [] && states[k].watchers[0].source == i
    requires GoesOn(states[k + 4]) && states[k + 4].reconciles == states[k].reconciles && !Carrier(states[k + 4], i)
    ensures !KeepsWakeups(states, steps)
  {
    hide Carrier;
    var j := k + 4;
    assert !IsKept(states, steps, k, j);
  }
}
