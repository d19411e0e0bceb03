/** After a successful pass there is nothing left to do; and the order in which the planner visits its maps does
    not matter. */
module Convergence {
  import opened Records
  import opened Keys
  import opened Seqs
  import opened Planner
  import opened Remote
  import opened Apply
  import opened Fates
  import opened Gates
  import opened Refinement
  import opened Cells
  import opened Steps
  import opened Replay
  import opened Resume

  // ---- The stored records, hostname by hostname ----------------------------------------------------------

  ghost function StoredCells(output: ProviderRef, managed: seq<ManagedRecord>): string -> Option<ManagedRecord> {
    host => ManagedIn(output, managed, host)
  }

  lemma OwnedCells(output: ProviderRef, managed: seq<ManagedRecord>)
    requires OneManagedPerHost(output, managed)
    requires forall m :: m in managed && m.output == output ==> BarFreeManaged(m)
    ensures var owned := OwnedByLineage(output, managed);
      OwnKeys(output, owned) && CellsAre(owned, StoredCells(output, managed))
  {
    hide LineageKey, NormalizeHostname, OneManagedPerHost, BarFreeManaged, LastBy, ManagedIn;
    var owned := OwnedByLineage(output, managed);
    OwnedIndex(output, managed);
    forall host ensures CellIs(owned, host, StoredCells(output, managed)(host)) {
      var facts := Facts(output, [], [], managed);
      ManagedEntry(facts, host);
      var cell := ManagedIn(output, managed, host);
      assert cell == ManagedAt(facts, host);
      if cell.Some? {
        assert Some(cell.value) == ManagedAt(facts, host);
        SameManagedLineage(owned[ManagedLineage(cell.value)], cell.value);
      }
    }
  }

  /** What the store holds, read back, is what the undisturbed pass has booked. */
  lemma StoredIsBooked(
    facts: Facts, plan: Plan, now: int, origin: RemoteState, k: nat, remote: RemoteState, managed: seq<ManagedRecord>)
    requires Tidy(facts) && IsPlan(facts, plan) && StartsFrom(facts, origin)
    requires StoredAt(facts, plan, now, origin, k, remote, managed)
    ensures SameRecords(OwnedByLineage(facts.output, managed), StateAt(facts, plan, now, origin, k).recs)
  {
    hide Calls, IsPlan, Tidy, CellOf, OneManagedPerHost, StateAt, BarFreeManaged, IsStable, IsSettled, IsAsBefore,
         OwnKeys, OneRecordPerHost, CellsAre, ManagedIn, OwnedByLineage, SameRecords, CellStands, VisibleOn;
    var owned, recs := OwnedByLineage(facts.output, managed), StateAt(facts, plan, now, origin, k).recs;
    PrefixSettles(facts, plan, now, origin, k);
    OwnedCells(facts.output, managed);
    CellsAreOnePerHost(facts.output, owned, StoredCells(facts.output, managed));
    forall host ensures SameCell(CellOf(owned, host), CellOf(recs, host)) {
      assert CellOf(owned, host) == StoredCells(facts.output, managed)(host);
    }
    SameCellsSameRecords(facts.output, owned, recs);
  }

  lemma SameRecordsTransitive(a: Lineages, b: Lineages, c: Lineages)
    requires SameRecords(a, c) && SameRecords(b, c)
    ensures SameRecords(a, b)
  {
  }

  // ---- Convergence ---------------------------------------------------------------------------------------

  lemma NothingDropped(
    facts: Facts, plan: Plan, now: int, origin: RemoteState, remote: RemoteState, managed: seq<ManagedRecord>,
    host: string)
    requires Tidy(facts) && IsPlan(facts, plan) && StartsFrom(facts, origin)
    requires StoredAt(facts, plan, now, origin, |Calls(facts.output, plan)|, remote, managed)
    ensures !FateAt(Again(facts, remote, managed), host).Forgotten?
  {
    hide Calls, IsPlan, Tidy, CellOf, OneManagedPerHost, StateAt, BarFreeManaged, IsSettled, OwnKeys, OneRecordPerHost,
         CellStands, DesiredAt, ManagedIn, VisibleOn, Stable, FateAt;
    var k := |Calls(facts.output, plan)|;
    var w := StateAt(facts, plan, now, origin, k);
    PrefixSettles(facts, plan, now, origin, k);
    SameDesired(facts, remote, managed, host);
    assert !Pending(Calls(facts.output, plan), k, host);
    assert IsStable(facts, w, host);
    var again := Again(facts, remote, managed);
    StableIgnoresTime(facts.output, DesiredAt(facts, host), ManagedAt(again, host), CellOf(w.recs, host),
                      VisibleAt(again, host));
    StableSettles(again, now, host);
  }

  /** Planning again after a pass that succeeded and was stored finds nothing to do, and a pass over that plan keeps
      every record as it is, time stamps aside. */
  lemma Converges(
    facts: Facts, plan: Plan, now: int, origin: RemoteState, remote: RemoteState, managed: seq<ManagedRecord>,
    plan': Plan, now': int)
    requires Tidy(facts) && IsPlan(facts, plan) && StartsFrom(facts, origin)
    requires StoredAt(facts, plan, now, origin, |Calls(facts.output, plan)|, remote, managed)
    requires IsPlan(Again(facts, remote, managed), plan')
    ensures plan'.creates == [] && plan'.updates == [] && plan'.deletes == []
    ensures plan'.drops == [] && plan'.ambiguities == []
    ensures StateAt(Again(facts, remote, managed), plan', now', remote, 0).remote == remote
    ensures SameRecords(Base(facts.output, managed, plan', now'), OwnedByLineage(facts.output, managed))
  {
    hide IsPlan, Tidy, StateAt, StandsAt, Base, SameRecords, OwnedByLineage, FateAt, Calls;
    var k := |Calls(facts.output, plan)|;
    var again := Again(facts, remote, managed);
    ReplanIsSuffix(facts, plan, now, origin, k, remote, managed, plan');
    NoCalls(facts.output, plan');
    AgainIsTidy(facts, plan, now, origin, k, remote, managed);
    TidyIsOrderly(again);
    AmbiguityIsReported(again, plan');
    if plan'.drops != [] {
      DropsByFate(again, plan', plan'.drops[0]);
      NothingDropped(facts, plan, now, origin, remote, managed, ManagedHost(plan'.drops[0]));
    }
    ResumedBase(facts, plan, now, origin, k, remote, managed, plan', now');
    StoredIsBooked(facts, plan, now, origin, k, remote, managed);
    SameRecordsTransitive(Base(facts.output, managed, plan', now'), OwnedByLineage(facts.output, managed),
                          StateAt(facts, plan, now, origin, k).recs);
    assert StateAt(again, plan', now', remote, 0).remote == remote by {
      NoCallYet(again, plan', now', remote);
    }
  }

  lemma NoCalls(output: ProviderRef, plan: Plan)
    requires Calls(output, plan) == []
    ensures plan.creates == [] && plan.updates == [] && plan.deletes == []
  {
    assert |Calls(output, plan)| == |plan.creates| + |plan.updates| + |plan.deletes|;
  }

  lemma NoCallYet(facts: Facts, plan: Plan, now: int, remote: RemoteState)
    ensures StateAt(facts, plan, now, remote, 0).remote == remote
  {
    hide Calls, Base;
  }

  // ---- Independence of the order of map iteration ----------------------------------------------------------

  /** Two runs of the planner on the same facts may fill their lists in different orders, yet they make the same
      calls in the same order and reach the same states with the same bookkeeping. */
  lemma OrderDoesNotMatter(facts: Facts, p: Plan, q: Plan, now: int, origin: RemoteState)
    requires Orderly(facts) && IsPlan(facts, p) && IsPlan(facts, q)
    ensures Calls(facts.output, p) == Calls(facts.output, q)
    ensures StartOf(facts, p, now, origin) == StartOf(facts, q, now, origin)
    ensures forall k :: 0 <= k <= |Calls(facts.output, p)| ==>
      StateAt(facts, p, now, origin, k) == StateAt(facts, q, now, origin, k)
    ensures forall m :: m in p.drops <==> m in q.drops
    ensures p.ambiguities == q.ambiguities == []
  {
    hide Orderly, IsPlan, Calls, Base, FateAt, CellsAre;
    CallsAreDetermined(facts, p, q);
    PlanFitsOutput(facts, p);
    PlanFitsOutput(facts, q);
    BaseOwnKeys(facts.output, facts.managed, p, now);
    BaseOwnKeys(facts.output, facts.managed, q, now);
    BaseCells(facts, p, now);
    BaseCells(facts, q, now);
    CellsDetermine(facts.output, Base(facts.output, facts.managed, p, now), Base(facts.output, facts.managed, q, now),
                   SettledCells(facts, now));
    forall m ensures m in p.drops <==> m in q.drops {
      DropsByFate(facts, p, m);
      DropsByFate(facts, q, m);
    }
    OrderlyIsUnambiguous(facts);
    AmbiguityIsReported(facts, p);
    AmbiguityIsReported(facts, q);
  }

  lemma OrderlyIsUnambiguous(facts: Facts)
    requires Orderly(facts)
    ensures NoAmbiguity(facts)
  {
  }

  /** The bookkeeping determines the stored snapshot. */
  lemma SnapshotIsUnique(s: Snapshot, t: Snapshot, others: seq<ManagedRecord>, recs: Lineages)
    requires IsSnapshot(s, others, recs) && IsSnapshot(t, others, recs)
    ensures s == t
  {
    hide ListsByLineage;
    ListingIsUnique(s.managedRecords[|others|..], t.managedRecords[|others|..], recs);
    assert s.managedRecords == others + s.managedRecords[|others|..];
    assert t.managedRecords == others + t.managedRecords[|others|..];
  }

  lemma ListingIsUnique(a: seq<ManagedRecord>, b: seq<ManagedRecord>, recs: Lineages)
    requires ListsByLineage(a, recs) && ListsByLineage(b, recs)
    ensures a == b
  {
    hide Has, ManagedLineage;
    AscendingIsUnique(a, b, ManagedLineage);
  }
}
