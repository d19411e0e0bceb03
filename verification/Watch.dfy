/** The watchers: goroutines, bounded channels, debounce timer and reconnects as one step relation. */
module Watch {
  import opened Records
  import opened Backoff

  // ---- States ----------------------------------------------------------------------------------------

  /** What a container engine's event stream can report. A cancellation may come wrapped in another error. */
  datatype StreamError = NilError | Canceled | WrappedCanceled | EndOfFile | OtherError

  /** The goroutine of the source: which stream channels are still open, an event in hand, closing its channels. */
  datatype Reader =
    | Reading(messages: bool, errors: bool)
    | Offering(messages: bool, errors: bool)
    | Closing
    | ClosingHints
    | Ended

  /** The goroutine of the runtime that forwards one source's hints and its end to the event queue. */
  datatype Forwarder =
    | Forwarding(hints: bool, errors: bool)
    | SendingHint(hints: bool, errors: bool)
    | SendingDisconnect
    | Finished

  /** One call of `startSourceWatch`: both goroutines, the one-slot hint channel and the one-slot error channel. */
  datatype Watcher = Watcher(
    source: nat, reader: Reader, hint: bool, error: Option<StreamError>, hintsClosed: bool, errorsClosed: bool,
    forwarder: Forwarder)

  datatype Event = HintEvent(source: nat) | DisconnectEvent(source: nat) | ReconnectEvent(source: nat)

  datatype SleeperPhase = Sleeping | SendingReconnect | Done

  /** One call of `scheduleSourceReconnect`. */
  datatype Sleeper = Sleeper(source: nat, delay: int, phase: SleeperPhase)

  datatype Timer = Off | Armed | Fired

  datatype Reason = Startup | Hint | Repair(source: nat)

  /** Where `runSteadyState` is. */
  datatype Phase =
    | Starting(todo: set<nat>)
    | Waiting
    | Selecting
    | RepairStart(source: nat)
    | RepairClear(source: nat)
    | Due(reason: Reason)
    | Reconciling(reason: Reason)
    | Stopped

  datatype Config = Config(watchable: set<nat>, debounce: int, initialInterval: int, maxInterval: int)

  datatype State = State(
    config: Config, cancelled: bool, watchers: seq<Watcher>, sleepers: seq<Sleeper>, events: seq<Event>,
    phase: Phase, timer: Timer, pending: set<nat>, delays: map<nat, int>, reconciles: nat)

  function Initial(config: Config): State {
    State(config, false, [], [], [], Starting(config.watchable), Off, {}, map[], 0)
  }

  // ---- Steps -----------------------------------------------------------------------------------------

  datatype Step =
    // the source's goroutine; its stream is the environment
    | ReadMessage(w: nat, relevant: bool)
    | Offer(w: nat)
    | MessagesClose(w: nat)
    | ErrorsClose(w: nat)
    | StreamFails(w: nat, err: StreamError)
    | CloseErrors(w: nat)
    | CloseHints(w: nat)
    // the forwarder
    | TakeHint(w: nat)
    | TakeError(w: nat)
    | SeeHintsClosed(w: nat)
    | SeeErrorsClosed(w: nat)
    | SendHint(w: nat)
    | SendDisconnect(w: nat)
    // reconnects and the timer
    | Wake(r: nat)
    | SendReconnect(r: nat)
    | TimerFires
    // the main loop
    | StartWatch(source: nat)
    | HandOff
    | BeginReconcile
    | EndReconcile(ok: bool)
    | TakeTimer
    | TakeEvent
    | RestartWatch
    | ClearTimer
    // the end
    | Cancel
    | ReaderStops(w: nat)
    | ForwarderStops(w: nat)
    | SleeperStops(r: nat)
    | MainStops

  function NewWatcher(source: nat): Watcher {
    Watcher(source, Reading(true, true), false, None, false, false, Forwarding(true, true))
  }

  /** How the reader goes on with the stream channels that are left; the last one to close ends it with an error. */
  function ReadOn(w: Watcher, messages: bool, errors: bool, cancelled: bool): Watcher {
    if messages || errors then w.(reader := Reading(messages, errors))
    else if cancelled then w.(reader := Closing)
    else w.(reader := Closing, error := Some(OtherError))
  }

  /** The reader drops a bare cancellation only. */
  function ReadError(w: Watcher, err: StreamError): Watcher {
    match err
    case NilError => w.(reader := Closing)
    case Canceled => w.(reader := Closing)
    case _ => w.(reader := Closing, error := Some(err))
  }

  predicate IsCancellation(err: StreamError) {
    err.NilError? || err.Canceled? || err.WrappedCanceled?
  }

  /** How the forwarder goes on with the channels that are left. */
  function ForwardOn(hints: bool, errors: bool, cancelled: bool): Forwarder {
    if hints || errors then Forwarding(hints, errors)
    else if cancelled then Finished
    else SendingDisconnect
  }

  predicate HasRoom(s: State) {
    |s.events| < |s.config.watchable|
  }

  predicate WatcherEnabled(s: State, w: Watcher, step: Step) {
    match step
    case ReadMessage(_, _) => w.reader.Reading? && w.reader.messages
    case Offer(_) => w.reader.Offering?
    case MessagesClose(_) => w.reader.Reading? && w.reader.messages
    case ErrorsClose(_) => w.reader.Reading? && w.reader.errors
    case StreamFails(_, _) => w.reader.Reading? && w.reader.errors
    case CloseErrors(_) => w.reader.Closing?
    case CloseHints(_) => w.reader.ClosingHints?
    case TakeHint(_) => w.forwarder.Forwarding? && w.forwarder.hints && w.hint
    case TakeError(_) => w.forwarder.Forwarding? && w.forwarder.errors && w.error.Some?
    case SeeHintsClosed(_) => w.forwarder.Forwarding? && w.forwarder.hints && !w.hint && w.hintsClosed
    case SeeErrorsClosed(_) => w.forwarder.Forwarding? && w.forwarder.errors && w.error.None? && w.errorsClosed
    case SendHint(_) => w.forwarder.SendingHint? && HasRoom(s)
    case SendDisconnect(_) => w.forwarder.SendingDisconnect? && HasRoom(s)
    case ReaderStops(_) => s.cancelled && w.reader.Reading?
    case ForwarderStops(_) => s.cancelled && !w.forwarder.Finished?
    case _ => false
  }

  /** A watcher's own part of a step. */
  function WatcherNext(s: State, w: Watcher, step: Step): Watcher
    requires WatcherEnabled(s, w, step)
  {
    match step
    case ReadMessage(_, relevant) => if relevant then w.(reader := Offering(true, w.reader.errors)) else w
    case Offer(_) => w.(reader := Reading(w.reader.messages, w.reader.errors), hint := true)
    case MessagesClose(_) => ReadOn(w, false, w.reader.errors, s.cancelled)
    case ErrorsClose(_) => ReadOn(w, w.reader.messages, false, s.cancelled)
    case StreamFails(_, err) => ReadError(w, err)
    case CloseErrors(_) => w.(reader := ClosingHints, errorsClosed := true)
    case CloseHints(_) => w.(reader := Ended, hintsClosed := true)
    case TakeHint(_) => w.(hint := false, forwarder := SendingHint(w.forwarder.hints, w.forwarder.errors))
    case TakeError(_) =>
      w.(error := None, forwarder := if IsCancellation(w.error.value) then Finished else SendingDisconnect)
    case SeeHintsClosed(_) => w.(forwarder := ForwardOn(false, w.forwarder.errors, s.cancelled))
    case SeeErrorsClosed(_) => w.(forwarder := ForwardOn(w.forwarder.hints, false, s.cancelled))
    case SendHint(_) => w.(forwarder := Forwarding(w.forwarder.hints, w.forwarder.errors))
    case SendDisconnect(_) => w.(forwarder := Finished)
    case ReaderStops(_) => w.(reader := Closing)
    case ForwarderStops(_) =>
      w.(forwarder := if w.forwarder.SendingHint? then Forwarding(w.forwarder.hints, w.forwarder.errors) else Finished)
  }

  function EventsAfter(s: State, w: Watcher, step: Step): seq<Event> {
    match step
    case SendHint(_) => s.events + [HintEvent(w.source)]
    case SendDisconnect(_) => s.events + [DisconnectEvent(w.source)]
    case _ => s.events
  }

  predicate IsWatcherStep(step: Step) {
    || step.ReadMessage? || step.Offer? || step.MessagesClose? || step.ErrorsClose? || step.StreamFails?
    || step.CloseErrors? || step.CloseHints? || step.TakeHint? || step.TakeError? || step.SeeHintsClosed?
    || step.SeeErrorsClosed? || step.SendHint? || step.SendDisconnect? || step.ReaderStops? || step.ForwarderStops?
  }

  predicate IsSleeperStep(step: Step) {
    step.Wake? || step.SendReconnect? || step.SleeperStops?
  }

  predicate SleeperEnabled(s: State, r: Sleeper, step: Step) {
    match step
    case Wake(_) => r.phase.Sleeping?
    case SendReconnect(_) => r.phase.SendingReconnect? && HasRoom(s)
    case SleeperStops(_) => s.cancelled && !r.phase.Done?
    case _ => false
  }

  predicate Enabled(s: State, step: Step) {
    if IsWatcherStep(step) then step.w < |s.watchers| && WatcherEnabled(s, s.watchers[step.w], step)
    else if IsSleeperStep(step) then step.r < |s.sleepers| && SleeperEnabled(s, s.sleepers[step.r], step)
    else MainEnabled(s, step)
  }

  predicate MainEnabled(s: State, step: Step) {
    match step
    case TimerFires => s.timer.Armed?
    case StartWatch(i) => s.phase.Starting? && i in s.phase.todo
    case HandOff => s.phase == Starting({})
    case BeginReconcile => s.phase.Due?
    case EndReconcile(_) => s.phase.Reconciling?
    case TakeTimer => s.phase.Selecting? && s.timer.Fired?
    case TakeEvent => s.phase.Selecting? && s.events != []
    case RestartWatch => s.phase.RepairStart?
    case ClearTimer => s.phase.RepairClear?
    case Cancel => true
    case MainStops => s.cancelled
    case _ => false
  }

  function StartOn(s: State, i: nat, phase: Phase): State {
    s.(watchers := s.watchers + [NewWatcher(i)], phase := phase)
  }

  function ResetAll(delays: map<nat, int>, initialInterval: int): map<nat, int> {
    map i | i in delays :: initialInterval
  }

  /** What the main loop does with the first event of the queue. */
  function Handle(s: State, event: Event): State {
    var i := event.source;
    match event
    case HintEvent(_) =>
      var reset := s.(delays := s.delays[i := s.config.initialInterval]);
      if s.config.debounce <= 0 then reset.(phase := Due(Hint))
      else if s.timer.Off? then reset.(timer := Armed)
      else reset
    case ReconnectEvent(_) =>
      s.(pending := s.pending - {i}, phase := RepairStart(i))
    case DisconnectEvent(_) =>
      if i in s.pending then s
      else
        var delay := if i in s.delays then s.delays[i] else 0;
        s.(pending := s.pending + {i}, sleepers := s.sleepers + [Sleeper(i, delay, Sleeping)],
           delays := s.delays[i := NextBackoffDelay(delay, s.config.maxInterval)])
  }

  function Next(s: State, step: Step): State
    requires Enabled(s, step)
  {
    if IsWatcherStep(step) then
      var w := s.watchers[step.w];
      s.(watchers := s.watchers[step.w := WatcherNext(s, w, step)], events := EventsAfter(s, w, step))
    else if IsSleeperStep(step) then
      var r := s.sleepers[step.r];
      if step.Wake? then s.(sleepers := s.sleepers[step.r := r.(phase := SendingReconnect)])
      else
        var sent := if step.SendReconnect? then s.events + [ReconnectEvent(r.source)] else s.events;
        s.(sleepers := s.sleepers[step.r := r.(phase := Done)], events := sent)
    else MainNext(s, step)
  }

  function MainNext(s: State, step: Step): State
    requires MainEnabled(s, step)
  {
    match step
    case TimerFires => s.(timer := Fired)
    case StartWatch(i) =>
      StartOn(s, i, Starting(s.phase.todo - {i})).(delays := s.delays[i := s.config.initialInterval])
    case HandOff => s.(phase := if s.config.watchable == {} then Waiting else Due(Startup))
    case BeginReconcile => s.(phase := Reconciling(s.phase.reason), reconciles := s.reconciles + 1)
    case EndReconcile(ok) =>
      if !ok then s.(phase := Stopped)
      else
        var delays := match s.phase.reason
          case Startup => ResetAll(s.delays, s.config.initialInterval)
          case Hint => s.delays
          case Repair(i) => s.delays[i := s.config.initialInterval];
        s.(phase := Selecting, delays := delays)
    case TakeTimer => s.(timer := Off, phase := Due(Hint))
    case TakeEvent => Handle(s.(events := s.events[1..]), s.events[0])
    case RestartWatch => StartOn(s, s.phase.source, RepairClear(s.phase.source))
    case ClearTimer => s.(timer := Off, phase := Due(Repair(s.phase.source)))
    case Cancel => s.(cancelled := true)
    case MainStops => s.(phase := Stopped)
  }

  /** A run of the machine: the states it goes through and the steps between them. */
  ghost predicate IsRun(config: Config, states: seq<State>, steps: seq<Step>) {
    && |states| == |steps| + 1 && states[0] == Initial(config)
    && forall k :: 0 <= k < |steps| ==> Enabled(states[k], steps[k]) && states[k + 1] == Next(states[k], steps[k])
  }
}
