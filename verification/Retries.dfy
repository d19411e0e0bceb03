/** The retry loop around whole passes: temporary failures followed by success leave what an undisturbed pass leaves. */
module Retries {
  import opened Records
  import opened Seqs
  import opened Planner
  import opened Remote
  import opened Apply
  import opened Fates
  import opened Steps
  import opened Replay
  import opened Resume
  import opened Locality
  import opened Backoff
  import opened Ownership
  import opened App
  import opened Passes

  /** The turn stands for the pass that would have run undisturbed from the start. */
  ghost predicate Undisturbed(turn: Turn) {
    Tidy(turn.facts) && IsPlan(turn.facts, turn.plan) && StartsFrom(turn.facts, turn.origin)
  }

  /** So far the output has gone through the first `done` calls of the undisturbed pass. */
  ghost predicate Underway(turn: Turn, remote: RemoteState, managed: seq<ManagedRecord>) {
    StandsAt(turn.facts, turn.plan, turn.now, turn.origin, turn.done, remote, managed)
  }

  /** Remote and store are as the undisturbed pass leaves them, time stamps aside. */
  ghost predicate Arrived(turn: Turn, remote: RemoteState, managed: seq<ManagedRecord>) {
    && turn.done == |Calls(turn.facts.output, turn.plan)|
    && StoredAt(turn.facts, turn.plan, turn.now, turn.origin, turn.done, remote, managed)
  }

  lemma UnderwayAtStart(turn: Turn)
    requires Undisturbed(turn) && turn.done == 0
    ensures Underway(turn, turn.origin, turn.facts.managed)
  {
    hide Calls, IsPlan, FateAt, CellOf, OneManagedPerHost, BarFreeManaged, OneDesiredPerHost, VisibleOn, BarFreeDesired,
         Base, HostOf, Pending, ManagedIn, OwnKeys, OneRecordPerHost, BarFreeRecords, IsStable, IsSettled;
    var facts, plan, now, origin := turn.facts, turn.plan, turn.now, turn.origin;
    var calls := Calls(facts.output, plan);
    PrefixSettles(facts, plan, now, origin, 0);
    TidyIsOrderly(facts);
    assert StateAt(facts, plan, now, origin, 0).remote == origin;
    hide StateAt;
    forall host ensures CellStands(facts, plan, now, origin, 0, facts.managed, host) {
      assert ManagedIn(facts.output, facts.managed, host) == ManagedAt(facts, host);
      if FateAt(facts, host).Called? {
        CallOfHost(facts, host);
        CalledIsPending(facts, plan, host);
        assert IsAsBefore(facts, StateAt(facts, plan, now, origin, 0), host);
      }
    }
  }

  /** The next pass takes the output further along the same undisturbed pass. */
  lemma PassResumes(
    turn: Turn, remote: RemoteState, managed: seq<ManagedRecord>, next: Turn, remote': RemoteState,
    managed': seq<ManagedRecord>)
    requires Undisturbed(turn) && Underway(turn, remote, managed)
    requires next.facts == Again(turn.facts, remote, managed) && next.origin == remote
    requires Stopped(next, remote', managed', true)
    ensures var further := turn.(done := turn.done + next.done);
      && Underway(further, remote', managed')
      && (Finished(next, remote', managed') ==> Arrived(further, remote', managed'))
  {
    hide Tidy, StandsAt, IsPlan, StateAt, HoldsFor, SamePart, Calls;
    var facts, plan, now, origin, k := turn.facts, turn.plan, turn.now, turn.origin, turn.done;
    if Advanced(next, remote', managed') {
      StoreAfterResume(facts, plan, now, origin, k, remote, managed, next.plan, next.now, next.done, managed');
      ReplanIsSuffix(facts, plan, now, origin, k, remote, managed, next.plan);
    } else {
      SamePartSymmetric(facts.output, managed', managed);
      StandingIsLocal(facts, plan, now, origin, k, remote, managed, managed');
    }
  }

  /** The output has served exactly the first `done` calls of the undisturbed pass, in order. */
  lemma UnderwayIsLogged(turn: Turn, remote: RemoteState, managed: seq<ManagedRecord>)
    requires Undisturbed(turn) && Underway(turn, remote, managed)
    ensures turn.done <= |Calls(turn.facts.output, turn.plan)|
    ensures remote.served == turn.origin.served + Calls(turn.facts.output, turn.plan)[..turn.done]
  {
    hide Tidy, IsPlan, Calls, CellStands, SettledUpTo, OneManagedPerHost, BarFreeManaged, Base;
    PrefixSettles(turn.facts, turn.plan, turn.now, turn.origin, turn.done);
    RunIsLogged(StartOf(turn.facts, turn.plan, turn.now, turn.origin),
                Calls(turn.facts.output, turn.plan)[..turn.done], turn.now);
  }

  /** The output has served the first `done` calls of the plan since `before`, in order and nothing else. */
  ghost predicate Logged(turn: Turn, output: ProviderRef, before: RemoteState, after: RemoteState) {
    && turn.done <= |Calls(output, turn.plan)|
    && after.served == before.served + Calls(output, turn.plan)[..turn.done]
  }

  lemma {:induction false} RunIsLogged(w: World, calls: seq<Call>, now: int)
    requires Runs(w, calls, now)
    ensures RunCalls(w, calls, now).remote.served == w.remote.served + calls
  {
    hide Commit, Possible, Response, Mutate;
    if calls != [] {
      var init, c := calls[..|calls| - 1], calls[|calls| - 1];
      RunIsLogged(w, init, now);
      CallIsLogged(RunCalls(w, init, now).remote, c);
      assert calls == init + [c];
    }
  }

  lemma CallIsLogged(r: RemoteState, c: Call)
    requires Possible(r, c)
    ensures Mutate(r, c).served == r.served + [c]
  {
  }

  // ---- All outputs ------------------------------------------------------------------------------------

  ghost predicate AllUndisturbed(turns: seq<Turn>) {
    forall i :: 0 <= i < |turns| ==> Undisturbed(turns[i])
  }

  ghost predicate AllUnderway(turns: seq<Turn>, states: seq<RemoteState>, managed: seq<ManagedRecord>)
    requires |states| == |turns|
  {
    forall i :: 0 <= i < |turns| ==> Underway(turns[i], states[i], managed)
  }

  ghost predicate AllArrived(turns: seq<Turn>, states: seq<RemoteState>, managed: seq<ManagedRecord>)
    requires |states| == |turns|
  {
    forall i :: 0 <= i < |turns| ==> Arrived(turns[i], states[i], managed)
  }

  /** Equal in everything but how far they have come. */
  ghost predicate SamePass(a: seq<Turn>, b: seq<Turn>) {
    |a| == |b| && forall i :: 0 <= i < |a| ==> a[i] == b[i].(done := a[i].done)
  }

  ghost function Further(turns: seq<Turn>, next: seq<Turn>): (r: seq<Turn>)
    requires |next| == |turns|
    ensures |r| == |turns| && forall i :: 0 <= i < |turns| ==> r[i] == turns[i].(done := turns[i].done + next[i].done)
  {
    seq(|turns|, i requires 0 <= i < |turns| => turns[i].(done := turns[i].done + next[i].done))
  }

  lemma AllResume(
    turns: seq<Turn>, outputs: seq<Output>, desired: seq<DesiredRecord>, origins: seq<RemoteState>,
    before: seq<ManagedRecord>, states: seq<RemoteState>, managed: seq<ManagedRecord>,
    next: seq<Turn>, states': seq<RemoteState>, managed': seq<ManagedRecord>, reached: nat)
    requires |origins| == |states| == |states'| == |outputs|
    requires StartAlone(turns, outputs, desired, origins, before) && AllUndisturbed(turns)
    requires AllUnderway(turns, states, managed)
    requires StartAlone(next, outputs, desired, states, managed)
    requires Progressed(next, states', managed', reached, true)
    ensures AllUnderway(Further(turns, next), states', managed')
    ensures reached == |outputs| ==> AllArrived(Further(turns, next), states', managed')
  {
    hide Undisturbed, Underway, Arrived, Stopped, Finished, Idle, Filter;
    var further := Further(turns, next);
    forall i | 0 <= i < |turns|
      ensures Underway(further[i], states'[i], managed')
      ensures reached == |outputs| ==> Arrived(further[i], states'[i], managed')
    {
      assert TurnStands(next[i], states'[i], managed', i, reached, true);
      PassResumes(turns[i], states[i], managed, next[i], states'[i], managed');
    }
  }

  // ---- Why an attempt ends -----------------------------------------------------------------------------------

  /** The four ways to fail that another attempt may mend: a listing or a mutation that failed temporarily. */
  predicate FailedForNow(result: PassResult) {
    || result == SourceListFailed(Temporary) || result == OutputListFailed(Temporary)
    || result == OutputFailed(MutationFailed(Temporary, true)) || result == OutputFailed(MutationFailed(Temporary, false))
  }

  /** Some source or output has reported the fault. A lost target makes a mutation fail for good without a report. */
  ghost predicate IsReported(result: PassResult, sources: seq<Source>, outputs: seq<Output>) {
    match result
    case SourceListFailed(fault) => SourceReports(sources, fault)
    case OutputListFailed(fault) => OutputReports(outputs, fault)
    case OutputFailed(outcome) =>
      outcome.MutationFailed? ==> outcome.fault.Permanent? || OutputReports(outputs, outcome.fault)
    case _ => true
  }

  ghost predicate SourceReports(sources: seq<Source>, fault: Fault) {
    exists j, n: nat :: 0 <= j < |sources| && sources[j].faults(n) == Some(fault)
  }

  ghost predicate OutputReports(outputs: seq<Output>, fault: Fault) {
    exists j, n: nat :: 0 <= j < |outputs| && outputs[j].faults(n) == Some(fault)
  }

  lemma FailureIsReported(result: PassResult, sources: seq<Source>, outputs: seq<Output>, store: Store, reached: nat)
    requires FailsAtSource(result, sources)
    requires result.OutputListFailed? || result.OutputFailed? ==>
      reached < |outputs| && FailsAt(result, outputs[reached], store)
    ensures IsReported(result, sources, outputs)
  {
  }

  /** The loop tries again after these four and no others. */
  lemma RetryableExactly(result: PassResult)
    ensures Retryable(result) <==> FailedForNow(result)
    ensures result.PassDone? || result.LoadFailed? ==> !FailedForNow(result)
  {
  }

  /** Every attempt in front of the last has failed for now, for a reason that was reported; the first one has failed to
      load the state exactly if that has another version. */
  ghost predicate IsTrace(trace: seq<PassResult>, sources: seq<Source>, outputs: seq<Output>, version: int) {
    && (trace != [] ==> (trace[0].LoadFailed? <==> version != SNAPSHOT_VERSION))
    && (forall k :: 0 <= k < |trace| ==> IsReported(trace[k], sources, outputs))
    && (forall k :: 0 <= k < |trace| - 1 ==> FailedForNow(trace[k]))
  }

  lemma TraceGrows(trace: seq<PassResult>, result: PassResult, sources: seq<Source>, outputs: seq<Output>, version: int)
    requires IsTrace(trace, sources, outputs, version) && IsReported(result, sources, outputs)
    requires if trace == [] then result.LoadFailed? <==> version != SNAPSHOT_VERSION else FailedForNow(trace[|trace| - 1])
    ensures IsTrace(trace + [result], sources, outputs, version)
  {
    hide IsReported, FailedForNow;
  }

  /** Since `from` no request was made to an output after one that failed for good, and the result says so. */
  ghost predicate StopsForGood(outputs: seq<Output>, from: seq<nat>, to: seq<nat>, result: PassResult)
    requires |from| == |to| == |outputs|
  {
    forall i, n :: 0 <= i < |outputs| && from[i] <= n < to[i] && outputs[i].faults(n) == Some(Permanent) ==>
      n == to[i] - 1 && FaultIn(result) == Some(Permanent)
  }

  lemma StopsAtFault(
    outputs: seq<Output>, from: seq<nat>, to: seq<nat>, to': seq<nat>, before: PassResult, result: PassResult)
    requires |from| == |to| == |to'| == |outputs|
    requires StopsForGood(outputs, from, to, before) && FaultIn(before) != Some(Permanent)
    requires AllEndAtFault(outputs, to, to', result)
    ensures StopsForGood(outputs, from, to', result)
  {
    hide FaultIn;
    forall i, n | 0 <= i < |outputs| && from[i] <= n < to'[i] && outputs[i].faults(n) == Some(Permanent)
      ensures n == to'[i] - 1 && FaultIn(result) == Some(Permanent)
    {
      if n >= to[i] {
        assert EndsAtFault(outputs[i].faults, to[i], to'[i], result);
      }
    }
  }


  function LastOf(trace: seq<PassResult>): PassResult {
    if trace == [] then PassDone else trace[|trace| - 1]
  }

  /** What the attempts so far have ended with, and that no request followed a fault for good. */
  ghost predicate Traced(
    trace: seq<PassResult>, sources: seq<Source>, outputs: seq<Output>, version: int, from: seq<nat>, to: seq<nat>)
    requires |from| == |to| == |outputs|
  {
    IsTrace(trace, sources, outputs, version) && StopsForGood(outputs, from, to, LastOf(trace))
  }

  lemma NothingTraced(sources: seq<Source>, outputs: seq<Output>, version: int, from: seq<nat>)
    requires |from| == |outputs|
    ensures Traced([], sources, outputs, version, from, from)
  {
  }

  lemma TracedOn(
    trace: seq<PassResult>, result: PassResult, sources: seq<Source>, outputs: seq<Output>, version: int, from: seq<nat>,
    to: seq<nat>, to': seq<nat>)
    requires |from| == |to| == |to'| == |outputs|
    requires Traced(trace, sources, outputs, version, from, to) && (trace != [] ==> FailedForNow(LastOf(trace)))
    requires trace == [] ==> (result.LoadFailed? <==> version != SNAPSHOT_VERSION)
    requires IsReported(result, sources, outputs) && AllEndAtFault(outputs, to, to', result)
    ensures Traced(trace + [result], sources, outputs, version, from, to')
  {
    hide IsReported, AllEndAtFault, StopsForGood, IsTrace, FailedForNow, FaultIn;
    TraceGrows(trace, result, sources, outputs, version);
    LastIsNotForGood(trace);
    StopsAtFault(outputs, from, to, to', LastOf(trace), result);
  }

  lemma LastIsNotForGood(trace: seq<PassResult>)
    requires trace != [] ==> FailedForNow(LastOf(trace))
    ensures FaultIn(LastOf(trace)) != Some(Permanent)
  {
  }

  lemma UnfoldTraced(
    trace: seq<PassResult>, sources: seq<Source>, outputs: seq<Output>, version: int, from: seq<nat>, to: seq<nat>)
    requires |from| == |to| == |outputs| && Traced(trace, sources, outputs, version, from, to) && trace != []
    ensures IsTrace(trace, sources, outputs, version) && StopsForGood(outputs, from, to, trace[|trace| - 1])
  {
    hide IsTrace, StopsForGood;
  }

  /** One attempt of the retry loop. */
  method Attempt(sources: seq<Source>, outputs: seq<Output>, store: Store, times: nat -> int,
                 ghost turns: seq<Turn>, ghost pass: seq<Turn>, ghost desired: seq<DesiredRecord>,
                 ghost origins: seq<RemoteState>, ghost before: seq<ManagedRecord>, ghost run: seq<Pass>,
                 ghost trace: seq<PassResult>, ghost version: int, ghost from: seq<nat>)
    returns (result: PassResult, ghost turns': seq<Turn>, ghost run': seq<Pass>)
    requires Distinct(outputs) && Reliable(store) && |origins| == |outputs| && desired == AllDesired(sources)
    requires forall o :: o in outputs ==> o.Valid()
    requires OnCourse(turns, pass, outputs, desired, origins, before, States(outputs), store.snapshot.managedRecords, run)
    requires |from| == |outputs| && Traced(trace, sources, outputs, version, from, Attempts(outputs))
    requires if trace == [] then store.snapshot.version == version else FailedForNow(LastOf(trace))
    modifies sources, outputs, store
    ensures forall o :: o in outputs ==> o.Valid()
    ensures OnCourse(turns', pass, outputs, desired, origins, before, States(outputs), store.snapshot.managedRecords, run')
    ensures |turns'| == |outputs|
    ensures result.PassDone? ==> AllArrived(turns', States(outputs), store.snapshot.managedRecords)
    ensures old(store.snapshot.version) == SNAPSHOT_VERSION ==> store.snapshot.version == SNAPSHOT_VERSION
    ensures old(store.snapshot.version) == SNAPSHOT_VERSION && AllListable(sources) && AllTemporary(outputs) ==>
      result.PassDone? || Retryable(result)
    ensures Traced(trace + [result], sources, outputs, version, from, Attempts(outputs))
  {
    hide Progressed, StartAlone, OnCourse, AllArrived, Retryable, Distinct, ForeignStay, IsRun, AllListable, AllTemporary,
         AllTidy, Reliable, FailsAt, FailsAtSource, IsReported, AllEndAtFault, Traced,
         FailedForNow;
    ghost var states, managed := States(outputs), store.snapshot.managedRecords;
    ghost var reached, next, saved, more;
    result, reached, next, saved, more := ReconcileOnce(sources, outputs, store, times);
    FailureIsReported(result, sources, outputs, store, reached);
    TracedOn(trace, result, sources, outputs, version, from, old(Attempts(outputs)), Attempts(outputs));
    turns' := StaysOnCourse(turns, pass, outputs, desired, origins, before, states, managed, next, States(outputs),
                            store.snapshot.managedRecords, reached, run, more);
    run' := run + more;
    CourseTaken(turns', pass, outputs, desired, origins, before, States(outputs), store.snapshot.managedRecords, run');
  }

  /** `reconcile`: `clock(n)` is the time since the start when attempt `n + 1` has failed, `times(n)(i)` the time of
      output `i` in that attempt. `pass` is the pass that would run if nothing failed. */
  method Reconcile(sources: seq<Source>, outputs: seq<Output>, store: Store, policy: RetryPolicy, clock: nat -> int,
                   times: nat -> nat -> int, ghost pass: seq<Turn>)
    returns (result: PassResult, attempts: nat, slept: int, ghost turns: seq<Turn>, ghost run: seq<Pass>,
             ghost trace: seq<PassResult>)
    requires Distinct(outputs) && Reliable(store)
    requires forall o :: o in outputs ==> o.Valid()
    requires Sound(policy.initialInterval, policy.maxInterval) && Ticks(policy, clock)
    requires 0 < policy.maxElapsedTime <= MAX_INT64
    requires StartAlone(pass, outputs, AllDesired(sources), States(outputs), store.snapshot.managedRecords)
    requires AllUndisturbed(pass)
    modifies sources, outputs, store
    ensures forall o :: o in outputs ==> o.Valid()
    ensures SamePass(turns, pass) && |turns| == |outputs|
    ensures AllUnderway(turns, States(outputs), store.snapshot.managedRecords)
    ensures result.PassDone? ==> AllArrived(turns, States(outputs), store.snapshot.managedRecords)
    ensures forall i :: 0 <= i < |outputs| ==>
      Logged(turns[i], outputs[i].provider, old(States(outputs))[i], States(outputs)[i])
    ensures ForeignStay(outputs, store.snapshot.managedRecords, old(store.snapshot.managedRecords))
    ensures IsRun(old(store.snapshot.managedRecords), run)
    ensures store.snapshot.managedRecords == StateAfter(old(store.snapshot.managedRecords), run)
    ensures old(store.snapshot.version) == SNAPSHOT_VERSION && AllListable(sources) && AllTemporary(outputs) ==>
      result.PassDone? || FailedForNow(result)
    ensures attempts >= 1 && |trace| == attempts && trace[attempts - 1] == result
    ensures IsTrace(trace, sources, outputs, old(store.snapshot.version))
    ensures StopsForGood(outputs, old(Attempts(outputs)), Attempts(outputs), result)
    ensures attempts >= 1 && slept == Slept(policy.initialInterval, policy.maxInterval, attempts - 1)
    ensures slept <= policy.maxElapsedTime
    ensures attempts <= 1 + policy.maxElapsedTime / Min(policy.initialInterval, policy.maxInterval)
    ensures FailedForNow(result) ==>
      clock(attempts - 1) + Delay(policy.initialInterval, policy.maxInterval, attempts - 1) > policy.maxElapsedTime
  {
    hide Wrap64, NextBackoffDelay, Delay, Ticks, Min, Progressed, StartAlone, Slept, OnCourse, SamePass, AllUndisturbed,
         AllUnderway, AllArrived, Retryable, Distinct, Calls, ForeignStay, Sound, IsRun, AllListable, AllTemporary, AllTidy,
         Reliable, IsTrace, StopsForGood, FailedForNow, Traced;
    ghost var initial, limit := policy.initialInterval, policy.maxInterval;
    ghost var before, origins, desired := store.snapshot.managedRecords, States(outputs), AllDesired(sources);
    FirstDelay(initial, limit);
    var delay := policy.initialInterval;
    attempts, slept, run, trace := 1, 0, [], [];
    ghost var from, version := Attempts(outputs), store.snapshot.version;
    NothingTraced(sources, outputs, version, from);
    turns := Rewound(pass);
    OnCourseAtStart(pass, outputs, desired, origins, before);
    while true
      invariant attempts >= 1 && delay == Delay(initial, limit, attempts - 1)
      invariant slept == Slept(initial, limit, attempts - 1) <= policy.maxElapsedTime
      invariant forall o :: o in outputs ==> o.Valid()
      invariant OnCourse(turns, pass, outputs, desired, origins, before, States(outputs), store.snapshot.managedRecords, run)
      invariant version == SNAPSHOT_VERSION ==> store.snapshot.version == SNAPSHOT_VERSION
      invariant |trace| == attempts - 1 && Traced(trace, sources, outputs, version, from, Attempts(outputs))
      invariant if trace == [] then store.snapshot.version == version else FailedForNow(LastOf(trace))
      decreases policy.maxElapsedTime - slept
    {
      result, turns, run :=
        Attempt(sources, outputs, store, times(attempts - 1), turns, pass, desired, origins, before, run, trace,
                version, from);
      trace := trace + [result];
      RetryableExactly(result);
      NextRetry(policy, clock, attempts, delay, slept);
      if !Retryable(result) || Wrap64(clock(attempts - 1) + delay) > policy.maxElapsedTime {
        CourseTaken(turns, pass, outputs, desired, origins, before, States(outputs), store.snapshot.managedRecords, run);
        UnfoldTraced(trace, sources, outputs, version, from, Attempts(outputs));
        return;
      }
      slept := slept + delay;
      delay := NextBackoffDelay(delay, policy.maxInterval);
      attempts := attempts + 1;
    }
  }

  /** The passes so far have kept to the undisturbed pass, and to the configured outputs. */
  ghost predicate OnCourse(
    turns: seq<Turn>, pass: seq<Turn>, outputs: seq<Output>, desired: seq<DesiredRecord>, origins: seq<RemoteState>,
    before: seq<ManagedRecord>, states: seq<RemoteState>, managed: seq<ManagedRecord>, run: seq<Pass>)
    requires |origins| == |states| == |outputs|
  {
    && SamePass(turns, pass) && StartAlone(turns, outputs, desired, origins, before)
    && AllUndisturbed(turns) && AllUnderway(turns, states, managed)
    && ForeignStay(outputs, managed, before)
    && IsRun(before, run) && managed == StateAfter(before, run)
  }

  lemma OnCourseAtStart(
    pass: seq<Turn>, outputs: seq<Output>, desired: seq<DesiredRecord>, origins: seq<RemoteState>,
    managed: seq<ManagedRecord>)
    requires |origins| == |outputs| && StartAlone(pass, outputs, desired, origins, managed) && AllUndisturbed(pass)
    ensures OnCourse(Rewound(pass), pass, outputs, desired, origins, managed, origins, managed, [])
  {
    hide Undisturbed, AllUnderway, SamePart, FactsFor;
    StillUndisturbed(Rewound(pass), pass);
    StartsUnderway(Rewound(pass), outputs, desired, origins, managed);
    PartsStay(outputs, managed);
    NothingRun(managed);
  }

  lemma StaysOnCourse(
    turns: seq<Turn>, pass: seq<Turn>, outputs: seq<Output>, desired: seq<DesiredRecord>, origins: seq<RemoteState>,
    before: seq<ManagedRecord>, states: seq<RemoteState>, managed: seq<ManagedRecord>,
    next: seq<Turn>, states': seq<RemoteState>, managed': seq<ManagedRecord>, reached: nat,
    run: seq<Pass>, more: seq<Pass>)
    returns (turns': seq<Turn>)
    requires |origins| == |states| == |states'| == |outputs|
    requires OnCourse(turns, pass, outputs, desired, origins, before, states, managed, run)
    requires IsRun(managed, more) && managed' == StateAfter(managed, more)
    requires StartAlone(next, outputs, desired, states, managed)
    requires Progressed(next, states', managed', reached, true)
    requires ForeignStay(outputs, managed', managed)
    ensures AllTidy(next)
    ensures OnCourse(turns', pass, outputs, desired, origins, before, states', managed', run + more)
    ensures reached == |outputs| ==> AllArrived(turns', states', managed')
  {
    hide Undisturbed, AllUnderway, AllArrived, Progressed, SamePart, FactsFor, Unconfigured, IsRun, AllTidy;
    AllResume(turns, outputs, desired, origins, before, states, managed, next, states', managed', reached);
    turns' := Further(turns, next);
    forall i | 0 <= i < |turns| ensures Undisturbed(turns'[i]) {
      FartherUndisturbed(turns[i], next[i].done);
    }
    forall o | Unconfigured(outputs, o) ensures SamePart(o, managed', before) {
      SamePartTransitive(o, managed', managed, before);
    }
    RunGrows(before, run, more);
    PassesAreTidy(turns, outputs, desired, origins, before, states, managed, next);
  }

  /** Every pass starts from facts that satisfy H1 to H4 again. */
  lemma PassesAreTidy(
    turns: seq<Turn>, outputs: seq<Output>, desired: seq<DesiredRecord>, origins: seq<RemoteState>,
    before: seq<ManagedRecord>, states: seq<RemoteState>, managed: seq<ManagedRecord>, next: seq<Turn>)
    requires |origins| == |states| == |outputs|
    requires StartAlone(turns, outputs, desired, origins, before) && AllUndisturbed(turns)
    requires AllUnderway(turns, states, managed) && StartAlone(next, outputs, desired, states, managed)
    ensures AllTidy(next)
  {
    hide Tidy, IsPlan, StandsAt, Filter, Calls;
    forall i | 0 <= i < |next| ensures Tidy(next[i].facts) {
      assert Undisturbed(turns[i]) && Underway(turns[i], states[i], managed);
      AgainIsTidy(turns[i].facts, turns[i].plan, turns[i].now, turns[i].origin, turns[i].done, states[i], managed);
    }
  }

  lemma FartherUndisturbed(turn: Turn, j: nat)
    requires Undisturbed(turn)
    ensures Undisturbed(turn.(done := turn.done + j))
  {
    hide Tidy, IsPlan;
  }

  lemma CourseTaken(
    turns: seq<Turn>, pass: seq<Turn>, outputs: seq<Output>, desired: seq<DesiredRecord>, origins: seq<RemoteState>,
    before: seq<ManagedRecord>, states: seq<RemoteState>, managed: seq<ManagedRecord>, run: seq<Pass>)
    requires |origins| == |states| == |outputs|
    requires OnCourse(turns, pass, outputs, desired, origins, before, states, managed, run)
    ensures SamePass(turns, pass) && |turns| == |outputs| && AllUnderway(turns, states, managed)
    ensures forall i :: 0 <= i < |outputs| ==> Logged(turns[i], outputs[i].provider, origins[i], states[i])
    ensures ForeignStay(outputs, managed, before)
    ensures IsRun(before, run) && managed == StateAfter(before, run)
  {
    hide Undisturbed, Underway, Filter, Calls, Unconfigured, SamePart, IsRun;
    forall i | 0 <= i < |outputs| ensures Logged(turns[i], outputs[i].provider, origins[i], states[i]) {
      UnderwayIsLogged(turns[i], states[i], managed);
    }
  }

  ghost function Rewound(turns: seq<Turn>): (r: seq<Turn>)
    ensures |r| == |turns| && forall i :: 0 <= i < |turns| ==> r[i] == turns[i].(done := 0)
  {
    seq(|turns|, i requires 0 <= i < |turns| => turns[i].(done := 0))
  }

  lemma StartsUnderway(
    turns: seq<Turn>, outputs: seq<Output>, desired: seq<DesiredRecord>, origins: seq<RemoteState>,
    managed: seq<ManagedRecord>)
    requires |origins| == |outputs| && StartAlone(turns, outputs, desired, origins, managed)
    requires forall i :: 0 <= i < |turns| ==> Undisturbed(turns[i]) && turns[i].done == 0
    ensures AllUnderway(turns, origins, managed)
  {
    hide Undisturbed, Underway, Filter;
    forall i | 0 <= i < |turns| ensures Underway(turns[i], origins[i], managed) {
      UnderwayAtStart(turns[i]);
    }
  }

  lemma StillUndisturbed(turns: seq<Turn>, pass: seq<Turn>)
    requires SamePass(turns, pass) && AllUndisturbed(pass)
    ensures AllUndisturbed(turns)
  {
    hide Tidy, IsPlan;
    forall i | 0 <= i < |turns| ensures Undisturbed(turns[i]) {
      assert Undisturbed(pass[i]);
    }
  }
}
