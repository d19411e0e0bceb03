/** One pass over all outputs: every output gets what it would get alone. */
module Passes {
  import opened Text
  import opened Records
  import opened Seqs
  import opened Planner
  import opened Remote
  import opened Apply
  import opened Fates
  import opened Replay
  import opened Resume
  import opened Locality
  import opened Safety
  import opened Ownership
  import opened Exits
  import opened App

  /** A source. What it desires does not change here; listing it can fail. */
  class Source {
    const records: seq<DesiredRecord>
    const faults: nat -> Option<Fault>
    var attempts: nat

    constructor (records: seq<DesiredRecord>, faults: nat -> Option<Fault>)
      ensures this.records == records && this.faults == faults && attempts == 0
    {
      this.records := records;
      this.faults := faults;
      attempts := 0;
    }

    method ListDesired() returns (listed: seq<DesiredRecord>, fault: Option<Fault>)
      modifies this
      ensures attempts == old(attempts) + 1 && fault == faults(old(attempts))
      ensures fault.None? ==> listed == records
    {
      fault := faults(attempts);
      attempts := attempts + 1;
      listed := if fault.None? then records else [];
    }
  }

  function AllDesired(sources: seq<Source>): seq<DesiredRecord> {
    if sources == [] then [] else AllDesired(sources[..|sources| - 1]) + sources[|sources| - 1].records
  }

  /** The records of one source after the other. */
  lemma {:induction false} AllDesiredInOrder(a: seq<Source>, b: seq<Source>)
    ensures AllDesired(a + b) == AllDesired(a) + AllDesired(b)
    ensures |a| == 1 ==> AllDesired(a) == a[0].records
  {
    if b == [] {
      assert a + b == a;
    } else {
      assert (a + b)[..|a + b| - 1] == a + b[..|b| - 1];
      AllDesiredInOrder(a, b[..|b| - 1]);
    }
    if |a| == 1 {
      assert a[..0] == [];
    }
  }

  /** Records without an output type go everywhere, the others to outputs of their type. */
  function MeantFor(output: ProviderRef): DesiredRecord -> bool {
    (d: DesiredRecord) => d.output == "" || Fold(d.output) == Fold(output.typ)
  }

  function FactsFor(
    output: ProviderRef, desired: seq<DesiredRecord>, records: seq<VisibleRecord>, managed: seq<ManagedRecord>): Facts
  {
    Facts(output, Filter(desired, MeantFor(output)), records, managed)
  }

  datatype PassResult =
    | PassDone
    | LoadFailed
    | SourceListFailed(fault: Fault)
    | OutputListFailed(fault: Fault)
    | OutputFailed(outcome: Outcome)

  ghost predicate Distinct(outputs: seq<Output>) {
    forall i, j :: 0 <= i < j < |outputs| ==> outputs[i] != outputs[j] && outputs[i].provider != outputs[j].provider
  }

  /** No configured output has the reference. */
  ghost predicate Unconfigured(outputs: seq<Output>, o: ProviderRef) {
    forall j :: 0 <= j < |outputs| ==> outputs[j].provider != o
  }

  ghost predicate Reliable(store: Store) {
    forall n :: !store.faults(n)
  }

  /** Only a temporary failure of a listing or of a mutation is tried again. */
  predicate Retryable(result: PassResult) {
    match result
    case SourceListFailed(fault) => fault.Temporary?
    case OutputListFailed(fault) => fault.Temporary?
    case OutputFailed(MutationFailed(fault, _)) => fault.Temporary?
    case _ => false
  }

  /** Whatever fails, fails temporarily. */
  ghost predicate OnlyTemporary(faults: nat -> Option<Fault>) {
    forall n :: faults(n) != Some(Permanent)
  }

  // ---- One output's share ------------------------------------------------------------------------------

  /** One output's share of a pass: the facts it starts from, the time of its records, the plan it gets, and how
      many calls succeed. */
  datatype Turn = Turn(facts: Facts, origin: RemoteState, now: int, plan: Plan, done: nat)

  /** The output has gone through `done` calls of the plan it would have got alone, and the store says so. */
  ghost predicate Advanced(turn: Turn, remote: RemoteState, managed: seq<ManagedRecord>) {
    && IsPlan(turn.facts, turn.plan) && turn.done <= |Calls(turn.facts.output, turn.plan)|
    && remote == StateAt(turn.facts, turn.plan, turn.now, turn.origin, turn.done).remote
    && HoldsFor(turn.facts.output, managed, StateAt(turn.facts, turn.plan, turn.now, turn.origin, turn.done).recs)
  }

  /** The output has gone through all of its calls. */
  ghost predicate Finished(turn: Turn, remote: RemoteState, managed: seq<ManagedRecord>) {
    Advanced(turn, remote, managed) && turn.done == |Calls(turn.facts.output, turn.plan)|
  }

  /** Neither the output nor its part of the store has changed. */
  ghost predicate Idle(turn: Turn, remote: RemoteState, managed: seq<ManagedRecord>) {
    turn.done == 0 && remote == turn.origin && SamePart(turn.facts.output, managed, turn.facts.managed)
  }

  /** The output has gone through `done` calls, but its part of the store is as before: a save has failed. */
  ghost predicate Unsaved(turn: Turn, remote: RemoteState, managed: seq<ManagedRecord>) {
    && IsPlan(turn.facts, turn.plan) && turn.done <= |Calls(turn.facts.output, turn.plan)|
    && remote == StateAt(turn.facts, turn.plan, turn.now, turn.origin, turn.done).remote
    && SamePart(turn.facts.output, managed, turn.facts.managed)
  }

  ghost predicate Stopped(turn: Turn, remote: RemoteState, managed: seq<ManagedRecord>, saved: bool) {
    Advanced(turn, remote, managed) || Idle(turn, remote, managed) || (!saved && Unsaved(turn, remote, managed))
  }

  /** One output's pass, told in terms of the state in front of the whole pass. */
  lemma OutputAdvanced(turn: Turn, current: seq<ManagedRecord>, after: Snapshot)
    requires SamePart(turn.facts.output, turn.facts.managed, current)
    requires IsPlan(turn.facts.(managed := current), turn.plan) && turn.done <= |Calls(turn.facts.output, turn.plan)|
    requires var recs := StateAt(turn.facts.(managed := current), turn.plan, turn.now, turn.origin, turn.done).recs;
      && OwnKeys(turn.facts.output, recs)
      && IsSnapshot(after, Filter(current, OwnedElsewhere(turn.facts.output)), recs)
    ensures Advanced(turn, StateAt(turn.facts.(managed := current), turn.plan, turn.now, turn.origin, turn.done).remote,
                     after.managedRecords)
    ensures forall o :: o != turn.facts.output ==> SamePart(o, after.managedRecords, current)
  {
    hide IsPlan, Calls, OwnKeys, IsSnapshot, HoldsFor, StartOf, RunCalls, SamePart, Filter;
    var o := turn.facts.output;
    PassIsLocal(turn.facts, current, turn.plan, turn.now, turn.origin);
    var recs := StateAt(turn.facts.(managed := current), turn.plan, turn.now, turn.origin, turn.done).recs;
    forall p | p != o ensures SamePart(p, after.managedRecords, current) {
      StoringKeepsOtherParts(o, current, recs, after, p);
    }
    SnapshotHolds(o, Filter(current, OwnedElsewhere(o)), recs, after);
  }

  lemma NothingDoneIsLocal(turn: Turn, current: seq<ManagedRecord>, plan: Plan, now: int)
    ensures StateAt(turn.facts.(managed := current), plan, now, turn.origin, 0).remote == turn.origin
  {
    hide IsPlan, Base, SamePart, Calls;
  }

  lemma OutputUnsaved(turn: Turn, current: seq<ManagedRecord>)
    requires SamePart(turn.facts.output, turn.facts.managed, current)
    requires IsPlan(turn.facts.(managed := current), turn.plan) && turn.done <= |Calls(turn.facts.output, turn.plan)|
    ensures Unsaved(turn, StateAt(turn.facts.(managed := current), turn.plan, turn.now, turn.origin, turn.done).remote,
                    current)
  {
    hide IsPlan, Calls, StartOf, RunCalls, Filter;
    PassIsLocal(turn.facts, current, turn.plan, turn.now, turn.origin);
  }

  /** Under H1 to H4 a pass whose calls fail only temporarily, if they fail, ends in completion or in such a failure. */
  lemma EndsTemporarily(
    turn: Turn, current: seq<ManagedRecord>, output: Output, outcome: Outcome, before: Snapshot, after: Snapshot)
    requires SamePart(turn.facts.output, current, turn.facts.managed) && current == before.managedRecords
    requires Tidy(turn.facts) && StartsFrom(turn.facts, turn.origin) && OnlyTemporary(output.faults)
    requires Ends(turn.facts.(managed := current), turn.plan, turn.now, turn.origin, outcome, turn.done, output.state,
                  before, after)
    requires FailsForCause(output, outcome, Calls(turn.facts.output, turn.plan), turn.done)
    requires !outcome.SaveFailed?
    ensures outcome.Completed? || (outcome.MutationFailed? && outcome.fault.Temporary?)
  {
    hide Tidy, IsPlan, Calls, StartOf, RunCalls, SamePart, NoAmbiguity, IsSnapshot, OwnKeys, Runs, Possible;
    SamePartSymmetric(turn.facts.output, current, turn.facts.managed);
    PassIsLocal(turn.facts, current, turn.plan, turn.now, turn.origin);
    TidyIsOrderly(turn.facts);
    AmbiguousAlike(turn.facts, current);
    if outcome.MutationFailed? {
      NeverCausesAmbiguity(turn.facts, turn.plan, turn.now, turn.origin, turn.done,
                           turn.facts.(visible := output.state.records));
    }
  }

  /** `at` holds the positions, among the first `n`, of the records that name no output type or the output's; `filtered` are
      the records there. */
  ghost predicate AreThoseMeant(
    desired: seq<DesiredRecord>, output: ProviderRef, n: nat, filtered: seq<DesiredRecord>, at: seq<nat>)
    requires n <= |desired|
  {
    && |at| == |filtered| && (forall i, j :: 0 <= i < j < |at| ==> at[i] < at[j])
    && (forall i :: 0 <= i < |at| ==> at[i] < n && filtered[i] == desired[at[i]])
    && forall k :: 0 <= k < n ==> (k in at <==> desired[k].output == "" || Fold(desired[k].output) == Fold(output.typ))
  }

  lemma OneMoreMeant(
    desired: seq<DesiredRecord>, output: ProviderRef, n: nat, filtered: seq<DesiredRecord>, at: seq<nat>)
    requires n < |desired| && AreThoseMeant(desired, output, n, filtered, at)
    ensures if desired[n].output == "" || Fold(desired[n].output) == Fold(output.typ)
            then AreThoseMeant(desired, output, n + 1, filtered + [desired[n]], at + [n])
            else AreThoseMeant(desired, output, n + 1, filtered, at)
  {
    hide Fold;
    var more := at + [n];
    assert forall k :: k in more <==> k in at || k == n;
  }

  lemma NoneMeant(desired: seq<DesiredRecord>, output: ProviderRef)
    ensures AreThoseMeant(desired, output, 0, [], [])
  {
  }

  method FilterDesiredForOutput(desired: seq<DesiredRecord>, output: ProviderRef)
    returns (filtered: seq<DesiredRecord>, ghost at: seq<nat>)
    ensures filtered == Filter(desired, MeantFor(output))
    ensures AreThoseMeant(desired, output, |desired|, filtered, at)
  {
    hide Fold, AreThoseMeant;
    filtered, at := [], [];
    NoneMeant(desired, output);
    for i := 0 to |desired|
      invariant filtered == Filter(desired[..i], MeantFor(output)) && AreThoseMeant(desired, output, i, filtered, at)
    {
      assert desired[..i + 1][..i] == desired[..i];
      OneMoreMeant(desired, output, i, filtered, at);
      if desired[i].output == "" || Fold(desired[i].output) == Fold(output.typ) {
        filtered, at := filtered + [desired[i]], at + [i];
      }
    }
    assert desired[..|desired|] == desired;
  }

  /** The state behind the last pass of a run. */
  function StateAfter(initial: seq<ManagedRecord>, run: seq<Pass>): seq<ManagedRecord> {
    StateBefore(initial, run, |run|)
  }

  lemma RunGrows(initial: seq<ManagedRecord>, run: seq<Pass>, more: seq<Pass>)
    requires IsRun(initial, run) && IsRun(StateAfter(initial, run), more)
    ensures IsRun(initial, run + more) && StateAfter(initial, run + more) == StateAfter(StateAfter(initial, run), more)
  {
    hide IsPass;
    var both := run + more;
    forall i | 0 <= i < |both| ensures IsPass(both[i]) && both[i].facts.managed == StateBefore(initial, both, i) {
      if i < |run| {
        assert IsPass(run[i]) && run[i].facts.managed == StateBefore(initial, run, i);
      } else {
        assert IsPass(more[i - |run|]);
        assert more[i - |run|].facts.managed == StateBefore(StateAfter(initial, run), more, i - |run|);
      }
    }
  }

  /** One turn of the loop over the outputs: list, plan, apply, store. `passes` is empty when the listing failed. */
  method ReconcileListed(output: Output, store: Store, desired: seq<DesiredRecord>, owned: Snapshot, now: int,
                         ghost turn: Turn)
    returns (result: PassResult, next: Snapshot, ghost turn': Turn, ghost saved: bool, ghost passes: seq<Pass>)
    requires output.Valid() && owned == store.snapshot
    requires turn.facts == FactsFor(output.provider, desired, output.state.records, turn.facts.managed)
    requires Idle(turn, output.state, store.snapshot.managedRecords)
    modifies output, store
    ensures output.Valid() && turn' == turn.(now := now, plan := turn'.plan, done := turn'.done)
    ensures Stopped(turn', output.state, store.snapshot.managedRecords, saved)
    ensures Reliable(store) ==> saved
    ensures result.PassDone? ==> Finished(turn', output.state, store.snapshot.managedRecords)
    ensures result.PassDone? ==> next == store.snapshot
    ensures forall o :: o != output.provider ==>
      SamePart(o, store.snapshot.managedRecords, old(store.snapshot.managedRecords))
    ensures store.snapshot.version == SNAPSHOT_VERSION || store.snapshot == old(store.snapshot)
    ensures IsRun(old(store.snapshot.managedRecords), passes)
    ensures store.snapshot.managedRecords == StateAfter(old(store.snapshot.managedRecords), passes)
    ensures FailsAt(result, output, store) && !result.LoadFailed? && !result.SourceListFailed?
    ensures EndsAtFault(output.faults, old(output.attempts), output.attempts, result)
    ensures result == OutputFailed(AmbiguousListing) ==> !NoAmbiguity(turn'.facts)
    ensures Reliable(store) && Tidy(turn.facts) && OnlyTemporary(output.faults) ==>
      result.PassDone? || Retryable(result)
  {
    hide Calls, IsPlan, StateAt, ListsByLineage, OwnKeys, Runs, NoAmbiguity, Filter, HoldsFor, IsPass, FailsForCause, Tidy,
         OnlyTemporary, Ends, IsSnapshot, SamePart, Reliable;
    ghost var before, origin := store.snapshot, output.state;
    ghost var current := before.managedRecords;
    turn', next, saved, passes := turn.(now := now), owned, true, [];
    forall o ensures SamePart(o, current, current) {
      SamePartReflexive(o, current);
    }
    var outputDesired;
    ghost var at;
    outputDesired, at := FilterDesiredForOutput(desired, output.provider);
    var listed, fault := output.ListVisible();
    if fault.Some? {
      TemporaryFault(output.faults, old(output.attempts));
      return OutputListFailed(fault.value), next, turn', saved, passes;
    }
    var outcome;
    ghost var plan, done;
    outcome, next, plan, done := ReconcileAndPersist(output, store, outputDesired, listed.value, owned, now);
    result := if outcome.Completed? then PassDone else OutputFailed(outcome);
    turn' := turn.(now := now, plan := plan, done := done);
    ghost var pass := EveryEndIsPass(turn.facts.(managed := current), plan, now, origin, outcome, done, output.state, before,
                                     store.snapshot);
    passes := [pass];
    OneEndIsRun(current, pass);
    saved := !outcome.SaveFailed? && (outcome.MutationFailed? ==> outcome.saved);
    UnfoldReliable(store);
    OutcomeEndsAtFault(output, outcome, Calls(output.provider, plan), done, old(output.attempts), output.attempts);
    if !outcome.Completed? {
      FailsForThat(output, store, outcome, Calls(output.provider, plan), done);
    }
    EndsAtAmbiguity(turn'.facts.(managed := current), plan, now, origin, outcome, done, output.state, before, store.snapshot);
    AmbiguousAlike(turn'.facts, current);
    TurnEnds(turn', current, outcome, output.state, before, store.snapshot);
    if Reliable(store) && Tidy(turn.facts) && OnlyTemporary(output.faults) {
      EndsTemporarily(turn', current, output, outcome, before, store.snapshot);
    }
  }

  /** The fault that a result reports. */
  function FaultIn(result: PassResult): Option<Fault> {
    match result
    case SourceListFailed(fault) => Some(fault)
    case OutputListFailed(fault) => Some(fault)
    case OutputFailed(MutationFailed(fault, _)) => Some(fault)
    case _ => None
  }

  /** Of the requests since `from` only the last one can have failed, and then the result has its fault. */
  ghost predicate EndsAtFault(faults: nat -> Option<Fault>, from: nat, to: nat, result: PassResult) {
    forall n :: from <= n < to && faults(n).Some? ==> n == to - 1 && FaultIn(result) == faults(n)
  }

  ghost predicate NoFault(faults: nat -> Option<Fault>, from: nat, to: nat) {
    forall n :: from <= n < to ==> faults(n).None?
  }

  /** Whatever the result, no fault is among no requests or among requests without fault; and a pass that is done had none. */
  lemma FaultsEnd(faults: nat -> Option<Fault>, from: nat, to: nat, result: PassResult)
    ensures NoFault(faults, from, to) ==> EndsAtFault(faults, from, to, result)
    ensures EndsAtFault(faults, from, to, PassDone) ==> NoFault(faults, from, to)
  {
  }

  lemma OutcomeEndsAtFault(output: Output, outcome: Outcome, calls: seq<Call>, done: nat, from: nat, to: nat)
    requires to == output.attempts && from < to && output.faults(from).None?
    requires outcome.AmbiguousListing? ==> to == from + 1
    requires !outcome.AmbiguousListing? ==>
      Requested(if outcome.MutationFailed? then Some(outcome.fault) else None, done, from + 1, to, output.faults)
    requires FailsForCause(output, outcome, calls, done)
    ensures EndsAtFault(output.faults, from, to, if outcome.Completed? then PassDone else OutputFailed(outcome))
  {
  }

  /** A failure at an output has the fault that its last attempt reported; a call that has lost its target fails for good;
      a failed save was one. */
  ghost predicate FailsAt(result: PassResult, output: Output, store: Store)
    reads output, store
  {
    match result
    case OutputListFailed(fault) => output.attempts > 0 && output.faults(output.attempts - 1) == Some(fault)
    case OutputFailed(outcome) =>
      && !outcome.Completed?
      && (outcome.MutationFailed? ==>
            && output.attempts > 0
            && (output.faults(output.attempts - 1) == Some(outcome.fault)
                || (output.faults(output.attempts - 1).None? && outcome.fault.Permanent?)))
      && (outcome.SaveFailed? ==> store.saves > 0 && store.faults(store.saves - 1))
    case _ => true
  }

  lemma FailsForThat(output: Output, store: Store, outcome: Outcome, calls: seq<Call>, done: nat)
    requires FailsForCause(output, outcome, calls, done) && !outcome.Completed?
    requires outcome.SaveFailed? ==> store.saves > 0 && store.faults(store.saves - 1)
    ensures FailsAt(OutputFailed(outcome), output, store)
  {
  }

  lemma EndsAtAmbiguity(
    facts: Facts, plan: Plan, now: int, origin: RemoteState, outcome: Outcome, done: nat, remote: RemoteState,
    before: Snapshot, after: Snapshot)
    requires Ends(facts, plan, now, origin, outcome, done, remote, before, after)
    ensures outcome.AmbiguousListing? <==> !NoAmbiguity(facts)
  {
    hide IsPlan, Calls, StateAt, NoAmbiguity, OwnKeys, IsSnapshot, Runs;
  }

  lemma AmbiguousAlike(facts: Facts, managed: seq<ManagedRecord>)
    ensures NoAmbiguity(facts.(managed := managed)) <==> NoAmbiguity(facts)
  {
    hide GroupBy, LastBy;
    forall k ensures |Lookup(Index(facts.(managed := managed)).byKey, k)| == |Lookup(Index(facts).byKey, k)| {
    }
  }

  lemma UnfoldReliable(store: Store)
    ensures Reliable(store) <==> forall n :: !store.faults(n)
  {
  }

  lemma TemporaryFault(faults: nat -> Option<Fault>, n: nat)
    ensures OnlyTemporary(faults) && faults(n).Some? ==> faults(n).value.Temporary?
  {
  }

  lemma OneEndIsRun(initial: seq<ManagedRecord>, pass: Pass)
    requires IsPass(pass) && pass.facts.managed == initial
    ensures IsRun(initial, [pass]) && StateAfter(initial, [pass]) == pass.next
  {
    hide IsPass;
  }

  /** The end of one output's pass, in terms of the state in front of the whole pass. */
  lemma TurnEnds(
    turn: Turn, current: seq<ManagedRecord>, outcome: Outcome, remote: RemoteState, before: Snapshot, after: Snapshot)
    requires SamePart(turn.facts.output, current, turn.facts.managed) && current == before.managedRecords
    requires Ends(turn.facts.(managed := current), turn.plan, turn.now, turn.origin, outcome, turn.done, remote, before,
                  after)
    ensures Stopped(turn, remote, after.managedRecords, !outcome.SaveFailed? && (outcome.MutationFailed? ==> outcome.saved))
    ensures outcome.Completed? ==> Finished(turn, remote, after.managedRecords)
    ensures forall o :: o != turn.facts.output ==> SamePart(o, after.managedRecords, current)
    ensures after.version == SNAPSHOT_VERSION || after == before
  {
    hide Calls, IsPlan, StateAt, ListsByLineage, OwnKeys, Runs, NoAmbiguity, HoldsFor, Filter, Advanced, Unsaved;
    NothingDoneIsLocal(turn, current, turn.plan, turn.now);
    OutputUnsaved(turn, current);
    if HasStored(outcome, turn.done) {
      OutputAdvanced(turn, current, after);
      UnfoldAdvanced(turn, remote, after.managedRecords);
    }
  }

  lemma UnfoldAdvanced(turn: Turn, remote: RemoteState, managed: seq<ManagedRecord>)
    requires Advanced(turn, remote, managed)
    ensures turn.done <= |Calls(turn.facts.output, turn.plan)|
  {
  }

  // ---- All outputs ------------------------------------------------------------------------------------

  ghost function States(outputs: seq<Output>): (r: seq<RemoteState>)
    reads outputs
    ensures |r| == |outputs| && forall i :: 0 <= i < |outputs| ==> r[i] == outputs[i].state
  {
    if outputs == [] then [] else States(outputs[..|outputs| - 1]) + [outputs[|outputs| - 1].state]
  }

  /** The facts every output would start from if it were the only one. */
  ghost predicate StartAlone(
    turns: seq<Turn>, outputs: seq<Output>, desired: seq<DesiredRecord>, origins: seq<RemoteState>,
    managed: seq<ManagedRecord>)
    requires |origins| == |outputs|
  {
    && |turns| == |outputs|
    && forall i :: 0 <= i < |turns| ==>
         turns[i].facts == FactsFor(outputs[i].provider, desired, origins[i].records, managed)
         && turns[i].origin == origins[i]
  }

  /** Where an output stands when `reached` outputs are done: those in front of it finally, those behind it untouched. */
  ghost predicate TurnStands(
    turn: Turn, remote: RemoteState, managed: seq<ManagedRecord>, i: nat, reached: nat, saved: bool)
  {
    && Stopped(turn, remote, managed, saved)
    && (i < reached ==> Finished(turn, remote, managed))
    && (i > reached ==> Idle(turn, remote, managed))
  }

  ghost predicate Progressed(
    turns: seq<Turn>, states: seq<RemoteState>, managed: seq<ManagedRecord>, reached: nat, saved: bool)
    requires |states| == |turns|
  {
    forall i :: 0 <= i < |turns| ==> TurnStands(turns[i], states[i], managed, i, reached, saved)
  }

  /** Another output's turn does not change where an output stands. */
  lemma OthersStay(
    turn: Turn, remote: RemoteState, managed: seq<ManagedRecord>, managed': seq<ManagedRecord>, i: nat, reached: nat,
    saved: bool)
    requires SamePart(turn.facts.output, managed', managed) && i != reached
    requires TurnStands(turn, remote, managed, i, reached, true)
    ensures TurnStands(turn, remote, managed', i, reached, saved)
    ensures TurnStands(turn, remote, managed', i, reached + 1, saved)
    ensures i > reached ==> Idle(turn, remote, managed')
  {
    hide Calls, IsPlan, StateAt, ListsByLineage, Filter;
  }

  /** One more output has had its turn. */
  lemma NextTurn(
    turns: seq<Turn>, states: seq<RemoteState>, managed: seq<ManagedRecord>, i: nat, turn: Turn,
    remote: RemoteState, managed': seq<ManagedRecord>, completed: bool, saved: bool)
    requires |states| == |turns| && i < |turns| && Progressed(turns, states, managed, i, true)
    requires forall j :: 0 <= j < |turns| && j != i ==> SamePart(turns[j].facts.output, managed', managed)
    requires Stopped(turn, remote, managed', saved) && (completed ==> Finished(turn, remote, managed'))
    ensures var turns', states' := turns[i := turn], states[i := remote];
      && Progressed(turns', states', managed', i, saved)
      && (completed ==> Progressed(turns', states', managed', i + 1, true))
      && (forall j :: i < j < |turns| ==> Idle(turns'[j], states'[j], managed'))
  {
    hide Stopped, Finished, Idle, SamePart;
    var turns', states' := turns[i := turn], states[i := remote];
    if completed {
      FinishedIsStopped(turn, remote, managed');
    }
    forall j | 0 <= j < |turns|
      ensures TurnStands(turns'[j], states'[j], managed', j, i, saved)
      ensures completed ==> TurnStands(turns'[j], states'[j], managed', j, i + 1, true)
      ensures j > i ==> Idle(turns'[j], states'[j], managed')
    {
      if j != i {
        OthersStay(turns[j], states[j], managed, managed', j, i, saved);
        OthersStay(turns[j], states[j], managed, managed', j, i, true);
      }
    }
  }

  lemma FinishedIsStopped(turn: Turn, remote: RemoteState, managed: seq<ManagedRecord>)
    requires Finished(turn, remote, managed)
    ensures Stopped(turn, remote, managed, true)
  {
    hide Advanced;
  }

  lemma AllIdle(turns: seq<Turn>, states: seq<RemoteState>, managed: seq<ManagedRecord>)
    requires |states| == |turns|
    requires forall j :: 0 <= j < |turns| ==> Idle(turns[j], states[j], managed)
    ensures Progressed(turns, states, managed, 0, true)
  {
    hide Idle, Finished, Advanced;
  }

  /** The turns in front of the pass. */
  ghost function StartTurns(
    outputs: seq<Output>, desired: seq<DesiredRecord>, origins: seq<RemoteState>, managed: seq<ManagedRecord>)
    : (turns: seq<Turn>)
    requires |origins| == |outputs|
    ensures StartAlone(turns, outputs, desired, origins, managed)
    ensures forall i :: 0 <= i < |turns| ==> Idle(turns[i], origins[i], managed)
  {
    seq(|outputs|, i requires 0 <= i < |outputs| =>
      Turn(FactsFor(outputs[i].provider, desired, origins[i].records, managed), origins[i], 0, EMPTY_PLAN, 0))
  }

  /** All sources' records, or the fault of the first source whose listing failed. */
  method CollectDesired(sources: seq<Source>)
    returns (desired: seq<DesiredRecord>, fault: Option<Fault>, ghost failed: nat)
    modifies sources
    ensures fault.None? ==> desired == AllDesired(sources)
    ensures fault.Some? ==>
      && failed < |sources| && desired == AllDesired(sources[..failed])
      && sources[failed].attempts > 0 && fault == sources[failed].faults(sources[failed].attempts - 1)
      && forall i :: 0 <= i < failed && sources[i] != sources[failed] ==> LastListed(sources[i])
  {
    desired, fault, failed := [], None, 0;
    for i := 0 to |sources|
      invariant desired == AllDesired(sources[..i])
      invariant forall j :: 0 <= j < i ==> LastListed(sources[j])
    {
      assert sources[..i + 1][..i] == sources[..i];
      var listed, failure := sources[i].ListDesired();
      if failure.Some? {
        return desired, failure, i;
      }
      desired := desired + listed;
    }
    assert sources[..|sources|] == sources;
  }

  /** The last listing of the source succeeded. */
  ghost predicate LastListed(source: Source)
    reads source
  {
    source.attempts > 0 && source.faults(source.attempts - 1).None?
  }

  lemma OneOutputChanged(outputs: seq<Output>, i: nat, states: seq<RemoteState>, attempts: seq<nat>)
    requires |states| == |attempts| == |outputs| && i < |outputs|
    requires forall j :: 0 <= j < |outputs| && j != i ==> states[j] == outputs[j].state && attempts[j] == outputs[j].attempts
    ensures States(outputs) == states[i := outputs[i].state]
    ensures Attempts(outputs) == attempts[i := outputs[i].attempts]
  {
    assert forall j :: 0 <= j < |outputs| ==> States(outputs)[j] == states[i := outputs[i].state][j];
    assert forall j :: 0 <= j < |outputs| ==> Attempts(outputs)[j] == attempts[i := outputs[i].attempts][j];
  }

  ghost predicate AllTemporary(outputs: seq<Output>) {
    forall i :: 0 <= i < |outputs| ==> OnlyTemporary(outputs[i].faults)
  }

  ghost predicate AllTidy(turns: seq<Turn>) {
    forall i :: 0 <= i < |turns| ==> Tidy(turns[i].facts)
  }

  ghost function Attempts(outputs: seq<Output>): (r: seq<nat>)
    reads outputs
    ensures |r| == |outputs| && forall i :: 0 <= i < |outputs| ==> r[i] == outputs[i].attempts
  {
    if outputs == [] then [] else Attempts(outputs[..|outputs| - 1]) + [outputs[|outputs| - 1].attempts]
  }

  /** Since `from` only the last request of an output can have failed, and then the result has its fault. */
  ghost predicate AllEndAtFault(outputs: seq<Output>, from: seq<nat>, to: seq<nat>, result: PassResult)
    requires |from| == |to| == |outputs|
  {
    forall i :: 0 <= i < |outputs| ==> EndsAtFault(outputs[i].faults, from[i], to[i], result)
  }

  /** Since `from` the outputs in front of `i` have had no fault, and the others no request. */
  ghost predicate Cleared(outputs: seq<Output>, from: seq<nat>, to: seq<nat>, i: nat)
    requires |from| == |to| == |outputs|
  {
    && (forall j :: 0 <= j < i && j < |outputs| ==> NoFault(outputs[j].faults, from[j], to[j]))
    && (forall j :: i <= j < |outputs| ==> to[j] == from[j])
  }

  lemma ClearedAtStart(outputs: seq<Output>, from: seq<nat>)
    requires |from| == |outputs|
    ensures Cleared(outputs, from, from, 0)
  {
  }

  lemma ClearedAtEnd(outputs: seq<Output>, from: seq<nat>, to: seq<nat>, i: nat, result: PassResult)
    requires |from| == |to| == |outputs| && Cleared(outputs, from, to, i)
    ensures AllEndAtFault(outputs, from, to, result)
  {
    hide NoFault, EndsAtFault;
    forall j | 0 <= j < |outputs| ensures EndsAtFault(outputs[j].faults, from[j], to[j], result) {
      FaultsEnd(outputs[j].faults, from[j], to[j], result);
      if i <= j {
        NoRequest(outputs[j].faults, from[j]);
      }
    }
  }

  lemma NoRequest(faults: nat -> Option<Fault>, from: nat)
    ensures NoFault(faults, from, from)
  {
  }

  lemma ClearedOn(outputs: seq<Output>, from: seq<nat>, to: seq<nat>, to': seq<nat>, i: nat, result: PassResult)
    requires |from| == |to| == |to'| == |outputs| && i < |outputs| && Cleared(outputs, from, to, i)
    requires to' == to[i := to'[i]] && EndsAtFault(outputs[i].faults, to[i], to'[i], result)
    ensures AllEndAtFault(outputs, from, to', result)
    ensures result.PassDone? ==> Cleared(outputs, from, to', i + 1)
  {
    hide NoFault, EndsAtFault;
    ClearedAtEnd(outputs, from, to, i, result);
    FaultsEnd(outputs[i].faults, to[i], to'[i], result);
  }

  /** The loop over the outputs, threading the stored snapshot from one to the next; `clock(i)` is the time at
      output `i`. */
  method ReconcileOutputs(
    outputs: seq<Output>, store: Store, desired: seq<DesiredRecord>, start: Snapshot, clock: nat -> int)
    returns (result: PassResult, ghost reached: nat, ghost turns: seq<Turn>, ghost saved: bool, ghost run: seq<Pass>)
    requires Distinct(outputs) && start == store.snapshot
    requires forall o :: o in outputs ==> o.Valid()
    modifies outputs, store
    ensures forall o :: o in outputs ==> o.Valid()
    ensures reached <= |outputs| && (result.PassDone? ==> reached == |outputs|)
    ensures StartAlone(turns, outputs, desired, old(States(outputs)), start.managedRecords)
    ensures Progressed(turns, States(outputs), store.snapshot.managedRecords, reached, saved)
    ensures Reliable(store) ==> saved
    ensures ForeignStay(outputs, store.snapshot.managedRecords, start.managedRecords)
    ensures IsRun(start.managedRecords, run) && store.snapshot.managedRecords == StateAfter(start.managedRecords, run)
    ensures store.snapshot.version == SNAPSHOT_VERSION || store.snapshot == start
    ensures !result.LoadFailed? && !result.SourceListFailed?
    ensures !result.PassDone? ==> reached < |outputs| && FailsAt(result, outputs[reached], store)
    ensures AllEndAtFault(outputs, old(Attempts(outputs)), Attempts(outputs), result)
    ensures result == OutputFailed(AmbiguousListing) ==> !NoAmbiguity(turns[reached].facts)
    ensures Reliable(store) && AllTemporary(outputs) && AllTidy(turns) ==> result.PassDone? || Retryable(result)
  {
    hide FailsAt, NoAmbiguity, EndsAtFault, FaultIn, Cleared, AllEndAtFault, Threads, Tidy, Reliable, Retryable, OnlyTemporary, Filter, SamePart, Stopped, Finished, Idle, StartAlone, Progressed,
         ForeignStay, IsRun, AllTidy;
    ghost var before, origins := start.managedRecords, States(outputs);
    turns := StartTurns(outputs, desired, origins, before);
    reached, result, saved, run := 0, PassDone, true, [];
    var owned := start;
    ThreadsAtStart(turns, outputs, desired, origins, before);
    ghost var from := Attempts(outputs);
    ClearedAtStart(outputs, from);
    for i := 0 to |outputs|
      invariant reached == i && result.PassDone? && owned == store.snapshot && saved
      invariant forall o :: o in outputs ==> o.Valid()
      invariant Cleared(outputs, from, Attempts(outputs), i)
      invariant Threads(turns, outputs, desired, origins, before, States(outputs), store.snapshot.managedRecords, i, run)
      invariant store.snapshot.version == SNAPSHOT_VERSION || store.snapshot == start
    {
      ghost var current, states, attempts := store.snapshot.managedRecords, States(outputs), Attempts(outputs);
      ghost var turn, passes;
      ThreadsTo(turns, outputs, desired, origins, before, states, current, i, run);
      result, owned, turn, saved, passes := ReconcileListed(outputs[i], store, desired, owned, clock(i), turns[i]);
      OneOutputChanged(outputs, i, states, attempts);
      ClearedOn(outputs, from, attempts, Attempts(outputs), i, result);
      ThreadOn(turns, outputs, desired, origins, before, states, current, i, run, turn, outputs[i].state,
               store.snapshot.managedRecords, result.PassDone?, saved, passes);
      SameTidiness(turns, i, turn);
      run, turns := run + passes, turns[i := turn];
      if !result.PassDone? {
        return;
      }
      reached, saved := i + 1, true;
    }
    ThreadsEnd(turns, outputs, desired, origins, before, States(outputs), store.snapshot.managedRecords, run);
    ClearedAtEnd(outputs, from, Attempts(outputs), |outputs|, PassDone);
  }

  /** The outputs in front of `i` are done, those from `i` on untouched, and the stored state is that of the run. */
  ghost predicate Threads(
    turns: seq<Turn>, outputs: seq<Output>, desired: seq<DesiredRecord>, origins: seq<RemoteState>,
    before: seq<ManagedRecord>, states: seq<RemoteState>, managed: seq<ManagedRecord>, i: nat, run: seq<Pass>)
    requires |origins| == |states| == |outputs|
  {
    && StartAlone(turns, outputs, desired, origins, before)
    && Progressed(turns, states, managed, i, true)
    && (forall j :: i <= j < |outputs| ==> Idle(turns[j], states[j], managed))
    && ForeignStay(outputs, managed, before)
    && IsRun(before, run) && managed == StateAfter(before, run)
  }

  lemma ThreadsAtStart(
    turns: seq<Turn>, outputs: seq<Output>, desired: seq<DesiredRecord>, origins: seq<RemoteState>,
    before: seq<ManagedRecord>)
    requires |origins| == |outputs| && StartAlone(turns, outputs, desired, origins, before)
    requires forall i :: 0 <= i < |turns| ==> Idle(turns[i], origins[i], before)
    ensures Threads(turns, outputs, desired, origins, before, origins, before, 0, [])
  {
    hide Idle, Filter, IsRun, ForeignStay, Progressed;
    AllIdle(turns, origins, before);
    NothingRun(before);
    PartsStay(outputs, before);
  }

  /** What the turn of output `i` starts from. */
  lemma ThreadsTo(
    turns: seq<Turn>, outputs: seq<Output>, desired: seq<DesiredRecord>, origins: seq<RemoteState>,
    before: seq<ManagedRecord>, states: seq<RemoteState>, managed: seq<ManagedRecord>, i: nat, run: seq<Pass>)
    requires |origins| == |states| == |outputs| && i < |outputs|
    requires Threads(turns, outputs, desired, origins, before, states, managed, i, run)
    ensures |turns| == |outputs| && Idle(turns[i], states[i], managed)
    ensures turns[i].facts == FactsFor(outputs[i].provider, desired, states[i].records, turns[i].facts.managed)
  {
    hide SamePart, IsRun, ForeignStay, Progressed, Filter;
  }

  lemma ThreadOn(
    turns: seq<Turn>, outputs: seq<Output>, desired: seq<DesiredRecord>, origins: seq<RemoteState>,
    before: seq<ManagedRecord>, states: seq<RemoteState>, managed: seq<ManagedRecord>, i: nat, run: seq<Pass>,
    turn: Turn, remote: RemoteState, managed': seq<ManagedRecord>, completed: bool, saved: bool, passes: seq<Pass>)
    requires |origins| == |states| == |outputs| && i < |outputs| && Distinct(outputs)
    requires Threads(turns, outputs, desired, origins, before, states, managed, i, run)
    requires turn == turns[i].(now := turn.now, plan := turn.plan, done := turn.done)
    requires Stopped(turn, remote, managed', saved) && (completed ==> Finished(turn, remote, managed'))
    requires forall o :: o != outputs[i].provider ==> SamePart(o, managed', managed)
    requires IsRun(managed, passes) && managed' == StateAfter(managed, passes)
    ensures |turns| == |outputs|
    ensures var turns', states', run' := turns[i := turn], states[i := remote], run + passes;
      && (completed ==> Threads(turns', outputs, desired, origins, before, states', managed', i + 1, run'))
      && StartAlone(turns', outputs, desired, origins, before)
      && Progressed(turns', states', managed', i, saved)
      && ForeignStay(outputs, managed', before)
      && IsRun(before, run') && managed' == StateAfter(before, run')
  {
    hide Stopped, Finished, Idle, SamePart, IsRun, ForeignStay, Progressed, Filter;
    forall j | 0 <= j < |turns| && j != i ensures SamePart(turns[j].facts.output, managed', managed) {
      assert turns[j].facts.output == outputs[j].provider;
    }
    NextTurn(turns, states, managed, i, turn, remote, managed', completed, saved);
    ForeignStayOn(outputs, i, managed', managed, before);
    RunGrows(before, run, passes);
  }

  lemma ThreadsEnd(
    turns: seq<Turn>, outputs: seq<Output>, desired: seq<DesiredRecord>, origins: seq<RemoteState>,
    before: seq<ManagedRecord>, states: seq<RemoteState>, managed: seq<ManagedRecord>, run: seq<Pass>)
    requires |origins| == |states| == |outputs|
    requires Threads(turns, outputs, desired, origins, before, states, managed, |outputs|, run)
    ensures StartAlone(turns, outputs, desired, origins, before) && Progressed(turns, states, managed, |outputs|, true)
    ensures ForeignStay(outputs, managed, before) && IsRun(before, run) && managed == StateAfter(before, run)
  {
    hide IsRun, ForeignStay, Progressed, Filter, Idle;
  }

  lemma SameTidiness(turns: seq<Turn>, i: nat, turn: Turn)
    requires i < |turns| && turn.facts == turns[i].facts
    ensures AllTidy(turns[i := turn]) ==> Tidy(turn.facts)
  {
    hide Tidy;
    var after := turns[i := turn];
    if AllTidy(after) {
      assert Tidy(after[i].facts);
    }
  }

  /** Records of outputs that are not configured stay as they were. */
  ghost predicate ForeignStay(outputs: seq<Output>, managed: seq<ManagedRecord>, before: seq<ManagedRecord>) {
    forall o :: Unconfigured(outputs, o) ==> SamePart(o, managed, before)
  }

  lemma PartsStay(outputs: seq<Output>, managed: seq<ManagedRecord>)
    ensures ForeignStay(outputs, managed, managed)
  {
    hide Filter;
  }

  lemma ForeignStayOn(
    outputs: seq<Output>, i: nat, managed: seq<ManagedRecord>, current: seq<ManagedRecord>, before: seq<ManagedRecord>)
    requires i < |outputs| && ForeignStay(outputs, current, before)
    requires forall o :: o != outputs[i].provider ==> SamePart(o, managed, current)
    ensures ForeignStay(outputs, managed, before)
  {
    hide SamePart;
    forall o | Unconfigured(outputs, o) ensures SamePart(o, managed, before) {
      SamePartTransitive(o, managed, current, before);
    }
  }

  lemma NothingRun(managed: seq<ManagedRecord>)
    ensures IsRun(managed, []) && StateAfter(managed, []) == managed
  {
  }

  ghost predicate AllListable(sources: seq<Source>) {
    forall i :: 0 <= i < |sources| ==> OnlyTemporary(sources[i].faults)
  }

  lemma ListableFault(sources: seq<Source>, i: nat)
    requires i < |sources| && sources[i].attempts > 0
    ensures AllListable(sources) && sources[i].faults(sources[i].attempts - 1).Some? ==>
      sources[i].faults(sources[i].attempts - 1).value.Temporary?
  {
    hide OnlyTemporary;
    TemporaryFault(sources[i].faults, sources[i].attempts - 1);
  }

  lemma NothingRequested(outputs: seq<Output>, from: seq<nat>)
    requires |from| == |outputs|
    ensures forall result :: AllEndAtFault(outputs, from, from, result)
  {
    forall result ensures AllEndAtFault(outputs, from, from, result) {
      ClearedAtStart(outputs, from);
      ClearedAtEnd(outputs, from, from, 0, result);
    }
  }

  /** The first half of a pass: every source is listed. */
  method ListSources(sources: seq<Source>) returns (desired: seq<DesiredRecord>, fault: Option<Fault>)
    modifies sources
    ensures fault.None? ==> desired == AllDesired(sources)
    ensures fault.Some? ==> FailsAtSource(SourceListFailed(fault.value), sources)
    ensures fault.Some? && AllListable(sources) ==> fault.value.Temporary?
  {
    ghost var failed;
    desired, fault, failed := CollectDesired(sources);
    if fault.Some? {
      ListableFault(sources, failed);
      SourceAtFault(sources, failed);
    }
  }

  /** A failed source listing has the fault that the last attempt of some source reported. */
  ghost predicate FailsAtSource(result: PassResult, sources: seq<Source>)
    reads sources
  {
    result.SourceListFailed? ==>
      exists j :: 0 <= j < |sources| && sources[j].attempts > 0
                  && sources[j].faults(sources[j].attempts - 1) == Some(result.fault)
  }

  lemma SourceAtFault(sources: seq<Source>, j: nat)
    requires j < |sources| && sources[j].attempts > 0 && sources[j].faults(sources[j].attempts - 1).Some?
    ensures FailsAtSource(SourceListFailed(sources[j].faults(sources[j].attempts - 1).value), sources)
  {
  }

  lemma OtherFailure(result: PassResult, sources: seq<Source>)
    requires !result.SourceListFailed?
    ensures FailsAtSource(result, sources)
  {
  }

  /** `reconcileOnce`: each output gets exactly what it would get alone, up to the first one that fails. */
  method ReconcileOnce(sources: seq<Source>, outputs: seq<Output>, store: Store, clock: nat -> int)
    returns (result: PassResult, ghost reached: nat, ghost turns: seq<Turn>, ghost saved: bool, ghost run: seq<Pass>)
    requires Distinct(outputs)
    requires forall o :: o in outputs ==> o.Valid()
    modifies sources, outputs, store
    ensures forall o :: o in outputs ==> o.Valid()
    ensures reached <= |outputs| && (result.PassDone? ==> reached == |outputs|)
    ensures StartAlone(turns, outputs, AllDesired(sources), old(States(outputs)), old(store.snapshot.managedRecords))
    ensures Progressed(turns, States(outputs), store.snapshot.managedRecords, reached, saved)
    ensures Reliable(store) ==> saved
    ensures ForeignStay(outputs, store.snapshot.managedRecords, old(store.snapshot.managedRecords))
    ensures IsRun(old(store.snapshot.managedRecords), run)
    ensures store.snapshot.managedRecords == StateAfter(old(store.snapshot.managedRecords), run)
    ensures store.snapshot.version == SNAPSHOT_VERSION || store.snapshot == old(store.snapshot)
    ensures AllEndAtFault(outputs, old(Attempts(outputs)), Attempts(outputs), result)
    ensures result.LoadFailed? <==> old(store.snapshot.version) != SNAPSHOT_VERSION
    ensures FailsAtSource(result, sources)
    ensures result.OutputListFailed? || result.OutputFailed? ==>
      reached < |outputs| && FailsAt(result, outputs[reached], store)
    ensures result == OutputFailed(AmbiguousListing) ==> !NoAmbiguity(turns[reached].facts)
    ensures
      old(store.snapshot.version) == SNAPSHOT_VERSION && Reliable(store) && AllListable(sources) && AllTemporary(outputs)
        && AllTidy(turns)
      ==> result.PassDone? || Retryable(result)
  {
    hide Finished, Stopped, Idle, FactsFor, StartAlone, Progressed, Filter, IsRun, ForeignStay, AllTemporary, AllTidy,
         Reliable, OnlyTemporary, Distinct, LastListed, AllListable, FailsAt, NoAmbiguity, Cleared,
         AllEndAtFault, FailsAtSource;
    ghost var before, origins := store.snapshot.managedRecords, States(outputs);
    reached, turns, saved, run := 0, StartTurns(outputs, AllDesired(sources), origins, before), true, [];
    AllIdle(turns, origins, before);
    NothingRun(before);
    PartsStay(outputs, before);
    ghost var from := Attempts(outputs);
    NothingRequested(outputs, from);
    var loaded := store.Load();
    if loaded.None? {
      OtherFailure(LoadFailed, sources);
      return LoadFailed, reached, turns, saved, run;
    }
    var desired, fault := ListSources(sources);
    assert States(outputs) == origins && Attempts(outputs) == from;
    if fault.Some? {
      return SourceListFailed(fault.value), reached, turns, saved, run;
    }
    result, reached, turns, saved, run := ReconcileOutputs(outputs, store, desired, loaded.value, clock);
    OtherFailure(result, sources);
  }
}
