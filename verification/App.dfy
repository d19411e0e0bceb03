/** One pass over one output, and the state file it writes. */
module App {
  import opened Records
  import opened Seqs
  import opened Planner
  import opened Remote
  import opened Apply
  import opened Fates
  import opened Gates
  import opened Replay

  /** The state file. A failed save leaves the old contents. */
  class Store {
    const faults: nat -> bool
    var snapshot: Snapshot
    var saves: nat

    constructor (snapshot: Snapshot, faults: nat -> bool)
      ensures this.snapshot == snapshot && this.faults == faults && saves == 0
    {
      this.snapshot := snapshot;
      this.faults := faults;
      saves := 0;
    }

    /** Saving forces the current version. */
    method Save(next: Snapshot) returns (ok: bool)
      modifies this
      ensures ok == !faults(old(saves)) && saves == old(saves) + 1
      ensures snapshot == if ok then Snapshot(SNAPSHOT_VERSION, next.managedRecords) else old(snapshot)
    {
      ok := !faults(saves);
      saves := saves + 1;
      if ok {
        snapshot := Snapshot(SNAPSHOT_VERSION, next.managedRecords);
      }
    }

    /** Loading rejects every other version. */
    method Load() returns (loaded: Option<Snapshot>)
      ensures loaded == if snapshot.version == SNAPSHOT_VERSION then Some(snapshot) else None
    {
      loaded := if snapshot.version == SNAPSHOT_VERSION then Some(snapshot) else None;
    }
  }

  // ---- One output ------------------------------------------------------------------------------------

  datatype Outcome =
    | Completed
    | AmbiguousListing
    | MutationFailed(fault: Fault, saved: bool)
    | SaveFailed

  /** Whether the pass has put its bookkeeping into the store. */
  predicate HasStored(outcome: Outcome, done: nat) {
    outcome.Completed? || (outcome.MutationFailed? && outcome.saved && done > 0)
  }

  /** How a pass over one output ends: `done` calls of a plan have succeeded, and the store holds either what they
      have booked or what it held before. */
  ghost predicate Ends(
    facts: Facts, plan: Plan, now: int, origin: RemoteState, outcome: Outcome, done: nat, remote: RemoteState,
    before: Snapshot, after: Snapshot)
  {
    && IsPlan(facts, plan) && done <= |Calls(facts.output, plan)|
    && Runs(StartOf(facts, plan, now, origin), Calls(facts.output, plan)[..done], now)
    && remote == StateAt(facts, plan, now, origin, done).remote
    && OwnKeys(facts.output, StateAt(facts, plan, now, origin, done).recs)
    && (outcome.AmbiguousListing? <==> !NoAmbiguity(facts))
    && (outcome.AmbiguousListing? ==> done == 0 && remote == origin)
    && (outcome.MutationFailed? ==> done < |Calls(facts.output, plan)|)
    && (outcome.Completed? || outcome.SaveFailed? ==> done == |Calls(facts.output, plan)|)
    && (if HasStored(outcome, done) then
          IsSnapshot(after, Filter(facts.managed, OwnedElsewhere(facts.output)),
                     StateAt(facts, plan, now, origin, done).recs)
        else after == before)
  }

  /** A mutation fails because the output says so, or for good because the call has lost its target. */
  ghost predicate FailsForCause(output: Output, outcome: Outcome, calls: seq<Call>, done: nat)
    reads output
  {
    outcome.MutationFailed? ==>
      && output.attempts > 0 && done < |calls|
      && (output.faults(output.attempts - 1) == Some(outcome.fault)
          || (output.faults(output.attempts - 1).None? && outcome.fault.Permanent? && !Possible(output.state, calls[done])))
  }

  /** `ReconcileAndPersist`: an ambiguous listing stops it before any call; partial progress is stored. */
  method ReconcileAndPersist(
    output: Output, store: Store, desired: seq<DesiredRecord>, visible: seq<VisibleRecord>, owned: Snapshot, now: int)
    returns (outcome: Outcome, next: Snapshot, ghost plan: Plan, ghost done: nat)
    requires output.Valid()
    modifies output, store
    ensures output.Valid()
    ensures Ends(Facts(output.provider, desired, visible, owned.managedRecords), plan, now, old(output.state), outcome,
                 done, output.state, old(store.snapshot), store.snapshot)
    ensures outcome.AmbiguousListing? ==> output.attempts == old(output.attempts)
    ensures !outcome.AmbiguousListing? ==>
      Requested(if outcome.MutationFailed? then Some(outcome.fault) else None, done, old(output.attempts), output.attempts,
                output.faults)
    ensures outcome.Completed? ==> next == store.snapshot
    ensures FailsForCause(output, outcome, Calls(output.provider, plan), done)
    ensures outcome.SaveFailed? ==> store.saves > 0 && store.faults(store.saves - 1)
    ensures (forall n :: !store.faults(n)) ==> !outcome.SaveFailed? && (outcome.MutationFailed? ==> outcome.saved)
  {
    hide Calls, Index, NoAmbiguity, DesiredPart, StalePart, Base, IsSnapshot, OwnKeys, OwnedElsewhere, PlanFits, IsPlan,
         RunCalls, Runs, Possible;
    ghost var facts := Facts(output.provider, desired, visible, owned.managedRecords);
    plan, done, next := EMPTY_PLAN, 0, owned;
    var built := BuildReconcilePlan(Facts(output.provider, desired, visible, owned.managedRecords));
    plan := built;
    AmbiguityIsReported(facts, plan);
    PlanFitsOutput(facts, plan);
    ghost var start := StartOf(facts, plan, now, output.state);
    BaseOwnKeys(output.provider, owned.managedRecords, plan, now);
    if built.ambiguities != [] {
      outcome := AmbiguousListing;
      NothingRuns(start, Calls(output.provider, plan), now);
      return;
    }
    var progressed, fault;
    next, progressed, fault, done := ApplyReconcilePlan(output, owned, built, now);
    RunOwnKeys(start, Calls(output.provider, plan)[..done], now);
    if fault.Some? {
      if progressed {
        var ok := store.Save(next);
        outcome := MutationFailed(fault.value, ok);
        SavedAsIs(next, store.snapshot, Filter(owned.managedRecords, OwnedElsewhere(output.provider)),
                  StateAt(facts, plan, now, start.remote, done).recs);
      } else {
        outcome := MutationFailed(fault.value, true);
      }
      return;
    }
    var ok := store.Save(next);
    outcome := if ok then Completed else SaveFailed;
    SavedAsIs(next, store.snapshot, Filter(owned.managedRecords, OwnedElsewhere(output.provider)),
              StateAt(facts, plan, now, start.remote, done).recs);
  }

  lemma NothingRuns(w: World, calls: seq<Call>, now: int)
    ensures Runs(w, calls[..0], now) && RunCalls(w, calls[..0], now) == w
  {
  }

  /** A snapshot already carries the version that saving forces. */
  lemma SavedAsIs(next: Snapshot, saved: Snapshot, others: seq<ManagedRecord>, recs: Lineages)
    requires IsSnapshot(next, others, recs)
    ensures Snapshot(SNAPSHOT_VERSION, next.managedRecords) == next
    ensures saved == next ==> IsSnapshot(saved, others, recs)
  {
  }
}
