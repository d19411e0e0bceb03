/** The theorems about exits, at the contract of `ReconcileAndPersist`: every way a pass over one output can end. */
module Exits {
  import opened Records
  import opened Keys
  import opened Seqs
  import opened Planner
  import opened Remote
  import opened Apply
  import opened Fates
  import opened Replay
  import opened Conservation
  import opened Replacement
  import opened Ownership
  import opened App

  /** The bookkeeping of a pass is that of its calls and of the answers they got. */
  lemma {:induction false} RunIsCommitted(w: World, calls: seq<Call>, now: int)
    returns (responses: seq<Option<RecordProvenance>>)
    requires Runs(w, calls, now)
    ensures |responses| == |calls|
    ensures RunCalls(w, calls, now).remote.provider == w.remote.provider
    ensures RunCalls(w, calls, now).recs == CommitAll(w.remote.provider, w.recs, calls, responses, now)
  {
    hide Commit, Possible, Response;
    if calls == [] {
      responses := [];
    } else {
      var n := |calls| - 1;
      var earlier := RunIsCommitted(w, calls[..n], now);
      responses := earlier + [Response(RunCalls(w, calls[..n], now).remote, calls[n])];
      assert responses[..n] == earlier;
    }
  }

  lemma EndIsBooked(
    facts: Facts, plan: Plan, now: int, origin: RemoteState, outcome: Outcome, done: nat, remote: RemoteState,
    before: Snapshot, after: Snapshot)
    returns (responses: seq<Option<RecordProvenance>>)
    requires Ends(facts, plan, now, origin, outcome, done, remote, before, after) && origin.provider == facts.output
    ensures |responses| == done && done <= |Calls(facts.output, plan)|
    ensures StateAt(facts, plan, now, origin, done).recs == BookedAt(facts, plan, now, responses)
  {
    hide Calls, IsPlan, Base, Runs, IsSnapshot, OwnKeys, NoAmbiguity, CommitAll;
    responses := RunIsCommitted(StartOf(facts, plan, now, origin), Calls(facts.output, plan)[..done], now);
  }

  /** However the pass ends, the store satisfies H3 and still holds the other outputs' records. */
  lemma EveryEndIsOrderly(
    facts: Facts, plan: Plan, now: int, origin: RemoteState, outcome: Outcome, done: nat, remote: RemoteState,
    before: Snapshot, after: Snapshot)
    requires Ends(facts, plan, now, origin, outcome, done, remote, before, after) && origin.provider == facts.output
    requires NoBars(facts) && OneDesiredPerHost(facts) && OneManagedPerHost(facts.output, facts.managed)
    requires before.managedRecords == facts.managed
    ensures OneManagedPerHost(facts.output, after.managedRecords)
    ensures Filter(after.managedRecords, OwnedElsewhere(facts.output)) == Filter(facts.managed, OwnedElsewhere(facts.output))
  {
    hide Calls, IsPlan, NoBars, OneDesiredPerHost, OneManagedPerHost, NoAmbiguity, BookedAt, IsSnapshot, StateAt, Runs,
         OwnKeys, OwnedByLineage;
    if HasStored(outcome, done) {
      var responses := EndIsBooked(facts, plan, now, origin, outcome, done, remote, before, after);
      EveryExitIsOrderly(facts, plan, now, responses, after);
    }
  }

  /** A record whose source identity changed is stored under exactly one of both lineages, whenever anything is. */
  lemma StoredIdentityIsExclusive(
    facts: Facts, plan: Plan, now: int, origin: RemoteState, outcome: Outcome, done: nat, remote: RemoteState,
    before: Snapshot, after: Snapshot, d: DesiredRecord, m: ManagedRecord)
    requires Ends(facts, plan, now, origin, outcome, done, remote, before, after) && origin.provider == facts.output
    requires Orderly(facts) && HasStored(outcome, done)
    requires DesiredAt(facts, DesiredHost(d)) == Some(d) && ManagedAt(facts, DesiredHost(d)) == Some(m)
    requires ManagedLineage(m) != DesiredLineage(facts.output, d)
    ensures var stored := OwnedByLineage(facts.output, after.managedRecords);
      ManagedLineage(m) in stored <==> DesiredLineage(facts.output, d) !in stored
  {
    hide Calls, IsPlan, Orderly, NoAmbiguity, BookedAt, IsSnapshot, StateAt, Runs, OwnKeys, OwnedByLineage,
         LineageKey, NormalizeHostname, DesiredAt, ManagedAt, TakesOver;
    var responses := EndIsBooked(facts, plan, now, origin, outcome, done, remote, before, after);
    EveryExitIsOrderly(facts, plan, now, responses, after);
    IdentityIsNeverLostOrDoubled(facts, plan, now, responses, d, m);
  }

  /** The store lists a record of the lineage. */
  ghost predicate Stores(managed: seq<ManagedRecord>, output: ProviderRef, lineage: string) {
    exists m :: m in managed && m.output == output && ManagedLineage(m) == lineage
  }

  /** A desired record of the hostname is stored under a lineage that was not owned before. */
  ghost predicate Succeeded(facts: Facts, managed: seq<ManagedRecord>, host: string) {
    exists l :: Stores(managed, facts.output, l) && l in Index(facts).desired && l !in Index(facts).owned
             && DesiredHost(Index(facts).desired[l]) == host
  }

  lemma ListedIsStored(output: ProviderRef, others: seq<ManagedRecord>, recs: Lineages, snapshot: Snapshot, l: string)
    requires IsSnapshot(snapshot, others, recs) && OwnKeys(output, recs) && l in recs
    ensures Stores(snapshot.managedRecords, output, l)
  {
    hide ManagedLineage, Ascending;
    assert Has(recs, recs[l]);
    assert recs[l] in snapshot.managedRecords[|others|..];
  }

  /** However the pass ends, every owned record's lineage is still stored, or a desired record of its hostname has
      succeeded it, or its remote delete has succeeded, or the output lists nothing under its hostname. */
  lemma OwnershipIsConservedAtEnd(
    facts: Facts, plan: Plan, now: int, origin: RemoteState, outcome: Outcome, done: nat, remote: RemoteState,
    before: Snapshot, after: Snapshot, m: ManagedRecord)
    requires Ends(facts, plan, now, origin, outcome, done, remote, before, after) && origin.provider == facts.output
    requires NoBars(facts) && before.managedRecords == facts.managed && m in facts.managed && m.output == facts.output
    ensures || Stores(after.managedRecords, facts.output, ManagedLineage(m))
            || Succeeded(facts, after.managedRecords, ManagedHost(m))
            || DeletedBy(Calls(facts.output, plan)[..done], ManagedLineage(m))
            || Unlisted(facts, ManagedHost(m))
  {
    hide Calls, IsPlan, NoBars, NoAmbiguity, IsSnapshot, StateAt, Runs, OwnKeys, LineageKey, NormalizeHostname, Index,
         CommitAll, Base;
    if HasStored(outcome, done) {
      var responses := EndIsBooked(facts, plan, now, origin, outcome, done, remote, before, after);
      var recs := BookedAt(facts, plan, now, responses);
      OwnershipIsConserved(facts, plan, now, responses, m);
      var others := Filter(facts.managed, OwnedElsewhere(facts.output));
      if ManagedLineage(m) in recs {
        ListedIsStored(facts.output, others, recs, after, ManagedLineage(m));
      }
      if TakenOver(facts, recs, ManagedHost(m)) {
        var l :| l in recs && l in Index(facts).desired && l !in Index(facts).owned
             && DesiredHost(Index(facts).desired[l]) == ManagedHost(m);
        ListedIsStored(facts.output, others, recs, after, l);
      }
    }
  }

  /** However the pass ends, it is one of the passes that ownership safety ranges over. */
  lemma EveryEndIsPass(
    facts: Facts, plan: Plan, now: int, origin: RemoteState, outcome: Outcome, done: nat, remote: RemoteState,
    before: Snapshot, after: Snapshot)
    returns (pass: Pass)
    requires Ends(facts, plan, now, origin, outcome, done, remote, before, after) && origin.provider == facts.output
    requires before.managedRecords == facts.managed
    ensures IsPass(pass) && pass.facts == facts && pass.plan == plan
    ensures |pass.responses| == done && pass.next == after.managedRecords
  {
    hide Calls, IsPlan, NoAmbiguity, StateAt, Runs, OwnKeys, CommitAll, Base, ListsByLineage;
    var responses := EndIsBooked(facts, plan, now, origin, outcome, done, remote, before, after);
    pass := Pass(facts, plan, responses, now, HasStored(outcome, done), after.managedRecords);
    if HasStored(outcome, done) {
      assert Snapshot(SNAPSHOT_VERSION, after.managedRecords) == after;
    }
  }
}
