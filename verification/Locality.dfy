/** Planning and bookkeeping for one output only see that output's own part of the stored records. */
module Locality {
  import opened Records
  import opened Keys
  import opened Seqs
  import opened Planner
  import opened Remote
  import opened Apply
  import opened Fates
  import opened Steps
  import opened Replay
  import opened Resume

  ghost predicate SamePart(output: ProviderRef, a: seq<ManagedRecord>, b: seq<ManagedRecord>) {
    Filter(a, OwnedFor(output)) == Filter(b, OwnedFor(output))
  }

  lemma SamePartReflexive(o: ProviderRef, managed: seq<ManagedRecord>)
    ensures SamePart(o, managed, managed)
  {
  }

  lemma SamePartTransitive(o: ProviderRef, a: seq<ManagedRecord>, b: seq<ManagedRecord>, c: seq<ManagedRecord>)
    requires SamePart(o, a, b) && SamePart(o, b, c)
    ensures SamePart(o, a, c)
  {
  }

  lemma SamePartSymmetric(o: ProviderRef, a: seq<ManagedRecord>, b: seq<ManagedRecord>)
    requires SamePart(o, a, b)
    ensures SamePart(o, b, a)
  {
  }

  lemma IndexIsLocal(facts: Facts, managed: seq<ManagedRecord>)
    requires SamePart(facts.output, facts.managed, managed)
    ensures Index(facts.(managed := managed)) == Index(facts)
    ensures OwnedByLineage(facts.output, managed) == OwnedByLineage(facts.output, facts.managed)
  {
    hide GroupBy, LastBy, Filter, LineageKey, NormalizeHostname, RecordKey;
    var o := facts.output;
    IndexesSeeOwnPart(managed, OwnedFor(o), ManagedLineage);
    IndexesSeeOwnPart(facts.managed, OwnedFor(o), ManagedLineage);
    IndexesSeeOwnPart(managed, OwnedFor(o), DisplayLineageIn(o));
    IndexesSeeOwnPart(facts.managed, OwnedFor(o), DisplayLineageIn(o));
    IndexesSeeOwnPart(managed, OwnedFor(o), ManagedHost);
    IndexesSeeOwnPart(facts.managed, OwnedFor(o), ManagedHost);
  }

  /** The same plans and the same course of the pass, whatever else the state file holds. */
  lemma PassIsLocal(facts: Facts, managed: seq<ManagedRecord>, plan: Plan, now: int, origin: RemoteState)
    requires SamePart(facts.output, facts.managed, managed)
    ensures IsPlan(facts.(managed := managed), plan) <==> IsPlan(facts, plan)
    ensures StartOf(facts.(managed := managed), plan, now, origin) == StartOf(facts, plan, now, origin)
  {
    hide Index, DesiredPart, StalePart, SortedBy, KeepAll, DropAll;
    IndexIsLocal(facts, managed);
  }

  /** Where a pass stands for an output depends on that output's part alone. */
  lemma StandingIsLocal(
    facts: Facts, plan: Plan, now: int, origin: RemoteState, k: nat, remote: RemoteState,
    managed: seq<ManagedRecord>, managed': seq<ManagedRecord>)
    requires StandsAt(facts, plan, now, origin, k, remote, managed)
    requires SamePart(facts.output, managed, managed')
    ensures StandsAt(facts, plan, now, origin, k, remote, managed')
    ensures StoredAt(facts, plan, now, origin, k, remote, managed) ==>
      StoredAt(facts, plan, now, origin, k, remote, managed')
  {
    hide Calls, StateAt, ManagedHost, Pending, OneManagedPerHost, CellOf, FateAt, BarFreeManaged, ManagedAt;
    forall host
      ensures Filter(managed', Matching(OwnedFor(facts.output), ManagedHost, host))
           == Filter(managed, Matching(OwnedFor(facts.output), ManagedHost, host))
    {
      ScanOwnPart(facts.output, managed, host);
      ScanOwnPart(facts.output, managed', host);
    }
    OneManagedByScan(facts.output, managed);
    OneManagedByScan(facts.output, managed');
    forall m | m in managed' && m.output == facts.output ensures BarFreeManaged(m) {
      assert m in Filter(managed', OwnedFor(facts.output));
      assert m in Filter(managed, OwnedFor(facts.output));
    }
    hide Filter;
    forall host ensures CellStands(facts, plan, now, origin, k, managed', host) {
      assert CellStands(facts, plan, now, origin, k, managed, host);
    }
  }

  /** Storing one output's pass leaves every other output's part as it was. */
  lemma StoringKeepsOtherParts(
    output: ProviderRef, managed: seq<ManagedRecord>, recs: Lineages, snapshot: Snapshot, other: ProviderRef)
    requires IsSnapshot(snapshot, Filter(managed, OwnedElsewhere(output)), recs) && OwnKeys(output, recs)
    requires other != output
    ensures SamePart(other, snapshot.managedRecords, managed)
  {
    hide IsSnapshot, OwnKeys;
    var others := Filter(managed, OwnedElsewhere(output));
    SnapshotHolds(output, others, recs, snapshot);
    FilterThrough(managed, OwnedElsewhere(output), OwnedFor(other));
  }
}
