/** What each watcher makes of its event stream: the reader follows it, and how it ended decides what is reported. */
module Streams {
  import opened Records
  import opened Backoff
  import opened Watch
  import opened Tokens
  import opened Wakeups

  // ---- The event queue -----------------------------------------------------------------------------------------

  /** The queue never holds more events than there are watchable sources. */
  lemma {:induction false} QueueIsBounded(config: Config, states: seq<State>, steps: seq<Step>, j: nat)
    requires IsRun(config, states, steps) && j < |states|
    ensures |states[j].events| <= |config.watchable| && states[j].config == config
  {
    hide Enabled, Next;
    if j > 0 {
      QueueIsBounded(config, states, steps, j - 1);
      QueueStep(states[j - 1], steps[j - 1]);
    }
  }

  lemma QueueStep(s: State, step: Step)
    requires Enabled(s, step) && |s.events| <= |s.config.watchable|
    ensures |Next(s, step).events| <= |s.config.watchable| && Next(s, step).config == s.config
  {
    hide WatcherNext, NextBackoffDelay, ResetAll;
  }

  // ---- One stream ------------------------------------------------------------------------------------------------

  /** What a watcher's stream has done: which of its channels are still open, and the error it reported. */
  datatype Stream = Stream(messages: bool, errors: bool, failure: Option<StreamError>)

  function StreamStep(stream: Stream, w: nat, step: Step): Stream {
    match step
    case MessagesClose(v) => if v == w then stream.(messages := false) else stream
    case ErrorsClose(v) => if v == w then stream.(errors := false) else stream
    case StreamFails(v, err) => if v == w then stream.(failure := Some(err)) else stream
    case _ => stream
  }

  function StreamOf(steps: seq<Step>, j: nat, w: nat): Stream
    requires j <= |steps|
  {
    if j == 0 then Stream(true, true, None) else StreamStep(StreamOf(steps, j - 1, w), w, steps[j - 1])
  }

  predicate IsOpen(stream: Stream) {
    stream.failure.None? && (stream.messages || stream.errors)
  }

  /** The error that the end of a stream comes to: its own, unless it is a bare cancellation or none; and one for a stream
      whose channels just close. */
  function Report(stream: Stream): Option<StreamError> {
    if IsOpen(stream) then None
    else if stream.failure.None? then Some(OtherError)
    else if stream.failure.value in {NilError, Canceled} then None
    else stream.failure
  }

  /** Reader, error channel and forwarder are where the stream has brought them. */
  predicate Follows(w: Watcher, stream: Stream) {
    && (IsOpen(stream) <==> w.reader.Reading? || w.reader.Offering?)
    && (w.reader.Reading? || w.reader.Offering? ==>
          w.reader.messages == stream.messages && w.reader.errors == stream.errors)
    && (w.errorsClosed <==> w.reader.ClosingHints? || w.reader.Ended?) && (w.hintsClosed <==> w.reader.Ended?)
    && (match w.forwarder
        case Forwarding(hints, errors) =>
          w.error == Report(stream) && (!hints ==> w.hintsClosed && !w.hint) && (!errors ==> w.errorsClosed && w.error.None?)
        case SendingHint(hints, errors) => w.error == Report(stream) && hints && (!errors ==> w.errorsClosed && w.error.None?)
        case SendingDisconnect => !IsOpen(stream) && w.error.None? && Report(stream) != Some(WrappedCanceled)
        case Finished => !IsOpen(stream) && w.error.None?)
  }

  lemma WatcherStepFollows(s: State, w: Watcher, step: Step, stream: Stream)
    requires WatcherEnabled(s, w, step) && !s.cancelled && Follows(w, stream)
    requires step.ReadMessage? || step.MessagesClose? ==> stream.messages
    ensures Follows(WatcherNext(s, w, step), StreamStep(stream, step.w, step))
  {
  }

  /** A channel of the stream says something only while it is open, and nothing after a failure. */
  lemma OpenChannelsSpeak(s: State, w: Watcher, step: Step, stream: Stream)
    requires WatcherEnabled(s, w, step) && Follows(w, stream)
    ensures step.ReadMessage? || step.MessagesClose? ==> IsOpen(stream) && stream.messages
    ensures step.ErrorsClose? || step.StreamFails? ==> IsOpen(stream) && stream.errors
  {
  }

  lemma NewWatcherFollows(i: nat)
    ensures Follows(NewWatcher(i), Stream(true, true, None))
  {
  }

  /** Before a watcher is started its stream has done nothing. */
  lemma {:induction false} StreamBefore(config: Config, states: seq<State>, steps: seq<Step>, j: nat, w: nat)
    requires IsRun(config, states, steps) && j < |states| && w >= |states[j].watchers|
    ensures StreamOf(steps, j, w) == Stream(true, true, None)
  {
    hide Next, WatcherEnabled;
    if j > 0 {
      WatchersGrow(states[j - 1], steps[j - 1]);
      StreamBefore(config, states, steps, j - 1, w);
    }
  }

  lemma WatchersGrow(s: State, step: Step)
    requires Enabled(s, step)
    ensures |s.watchers| <= |Next(s, step).watchers|
    ensures forall k :: 0 <= k < |s.watchers| && (IsWatcherStep(step) ==> step.w != k) ==>
      Next(s, step).watchers[k] == s.watchers[k]
    ensures forall k :: |s.watchers| <= k < |Next(s, step).watchers| ==>
      Next(s, step).watchers[k] == NewWatcher(Next(s, step).watchers[k].source)
    ensures IsWatcherStep(step) ==>
      Next(s, step).watchers[step.w] == WatcherNext(s, s.watchers[step.w], step)
  {
    hide WatcherNext, WatcherEnabled, Handle, NewWatcher;
    if step.StartWatch? || step.RestartWatch? {
      NewWatcherFits(if step.StartWatch? then step.source else s.phase.source);
    } else if !IsWatcherStep(step) {
      OtherStepsKeepWatchers(s, step);
    }
  }

  /** In every live state of a run every watcher is where its stream has brought it. */
  lemma {:induction false} ReaderFollowsStream(config: Config, states: seq<State>, steps: seq<Step>, j: nat, w: nat)
    requires IsRun(config, states, steps) && j < |states| && !states[j].cancelled && w < |states[j].watchers|
    ensures Follows(states[j].watchers[w], StreamOf(steps, j, w))
  {
    hide Enabled, Next, Follows, WatcherNext, WatcherEnabled, NewWatcher;
    if j > 0 {
      var s, step := states[j - 1], steps[j - 1];
      if s.cancelled {
        StaysCancelled(s, step);
      }
      WatchersGrow(s, step);
      if w >= |s.watchers| {
        StreamBefore(config, states, steps, j - 1, w);
        NewWatcherFollows(states[j].watchers[w].source);
        OtherStream(s, step, w, StreamOf(steps, j - 1, w));
      } else {
        ReaderFollowsStream(config, states, steps, j - 1, w);
        if IsWatcherStep(step) && step.w == w {
          EnabledWatcher(s, step);
          OpenChannelsSpeak(s, s.watchers[w], step, StreamOf(steps, j - 1, w));
          WatcherStepFollows(s, s.watchers[w], step, StreamOf(steps, j - 1, w));
        } else {
          OtherStream(s, step, w, StreamOf(steps, j - 1, w));
        }
      }
    }
  }

  lemma EnabledWatcher(s: State, step: Step)
    requires Enabled(s, step) && IsWatcherStep(step)
    ensures step.w < |s.watchers| && WatcherEnabled(s, s.watchers[step.w], step)
  {
  }

  lemma OtherStream(s: State, step: Step, w: nat, stream: Stream)
    requires Enabled(s, step) && (w >= |s.watchers| || !IsWatcherStep(step) || step.w != w)
    ensures StreamStep(stream, w, step) == stream
  {
    hide WatcherEnabled;
  }

  /** What the outside does with a stream in a run: it speaks only through channels that are open. */
  lemma StreamsSpeakInOrder(config: Config, states: seq<State>, steps: seq<Step>, k: nat)
    requires IsRun(config, states, steps) && k < |steps| && !states[k].cancelled
    ensures steps[k].ReadMessage? || steps[k].MessagesClose? ==>
      IsOpen(StreamOf(steps, k, steps[k].w)) && StreamOf(steps, k, steps[k].w).messages
    ensures steps[k].ErrorsClose? || steps[k].StreamFails? ==>
      IsOpen(StreamOf(steps, k, steps[k].w)) && StreamOf(steps, k, steps[k].w).errors
  {
    hide Next, Follows, WatcherEnabled;
    if IsWatcherStep(steps[k]) {
      EnabledWatcher(states[k], steps[k]);
      ReaderFollowsStream(config, states, steps, k, steps[k].w);
      OpenChannelsSpeak(states[k], states[k].watchers[steps[k].w], steps[k], StreamOf(steps, k, steps[k].w));
    }
  }

  /** A forwarder that gives up in a live run does so after its stream has ended; and it tells the main loop, unless what
      the stream reported is a wrapped cancellation. */
  lemma EndIsTold(config: Config, states: seq<State>, steps: seq<Step>, k: nat, w: nat)
    requires IsRun(config, states, steps) && k < |steps| && !states[k + 1].cancelled && w < |states[k].watchers|
    requires states[k + 1].watchers[w].forwarder.Finished? && !states[k].watchers[w].forwarder.Finished?
    ensures var stream := StreamOf(steps, k, w);
      && !IsOpen(stream)
      && (if Report(stream) == Some(WrappedCanceled) then steps[k] == TakeError(w)
          else steps[k] == SendDisconnect(w)
               && states[k + 1].events == states[k].events + [DisconnectEvent(states[k].watchers[w].source)])
  {
    hide Next, Follows, WatcherEnabled, WatcherNext, EventsAfter;
    WatchersGrow(states[k], steps[k]);
    if states[k].cancelled {
      StaysCancelled(states[k], steps[k]);
    }
    ReaderFollowsStream(config, states, steps, k, w);
    EnabledWatcher(states[k], steps[k]);
    GivesUp(states[k], states[k].watchers[w], steps[k], StreamOf(steps, k, w));
    WatcherStepEvents(states[k], steps[k]);
  }

  lemma WatcherStepEvents(s: State, step: Step)
    requires Enabled(s, step) && IsWatcherStep(step)
    ensures Next(s, step).events == EventsAfter(s, s.watchers[step.w], step)
  {
    hide WatcherNext, WatcherEnabled;
  }

  lemma GivesUp(s: State, w: Watcher, step: Step, stream: Stream)
    requires WatcherEnabled(s, w, step) && !s.cancelled && Follows(w, stream)
    requires WatcherNext(s, w, step).forwarder.Finished? && !w.forwarder.Finished?
    ensures !IsOpen(stream)
    ensures if Report(stream) == Some(WrappedCanceled) then step.TakeError?
            else step.SendDisconnect? && EventsAfter(s, w, step) == s.events + [DisconnectEvent(w.source)]
  {
  }
}
