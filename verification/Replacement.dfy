/** Every exit of a pass, early or not: one record per hostname, and a changed source identity is never lost or
    doubled. Needs no H4 and nothing about what the output answers. */
module Replacement {
  import opened Records
  import opened Keys
  import opened Seqs
  import opened Planner
  import opened Remote
  import opened Apply
  import opened Fates
  import opened Gates
  import opened Refinement
  import opened Cells
  import opened Steps
  import opened Replay
  import opened Resume

  /** The bookkeeping when the pass ends after as many successful calls as there are responses. */
  function BookedAt(facts: Facts, plan: Plan, now: int, responses: seq<Option<RecordProvenance>>): Lineages
    requires |responses| <= |Calls(facts.output, plan)|
  {
    CommitAll(facts.output, Base(facts.output, facts.managed, plan, now), Calls(facts.output, plan)[..|responses|],
              responses, now)
  }

  /** What a hostname holds then. */
  ghost function ExitCell(
    facts: Facts, calls: seq<Call>, now: int, responses: seq<Option<RecordProvenance>>, host: string)
    : Option<ManagedRecord>
    requires |responses| <= |calls|
  {
    if responses == [] then Settled(facts, now, host)
    else
      var n := |responses| - 1;
      if HostOf(calls[n]) == host then Booked(facts.output, calls[n], responses[n], now)
      else ExitCell(facts, calls, now, responses[..n], host)
  }

  lemma CalledContinues(
    output: ProviderRef, desired: Option<DesiredRecord>, cell: Option<ManagedRecord>, vs: seq<VisibleRecord>, c: Call)
    requires FateOf(output, desired, cell, vs) == Called(c)
    ensures Continues(output, c, cell)
    ensures c.DeleteCall? <==> desired == None
    ensures !c.DeleteCall? ==> desired == Some(c.to)
  {
    hide LineageKey, RecordKey, NormalizeHostname, WithKey, CanUpdate, OnlyHostInCommon;
  }

  lemma {:induction false} UncalledExit(
    facts: Facts, calls: seq<Call>, now: int, responses: seq<Option<RecordProvenance>>, host: string)
    requires |responses| <= |calls|
    requires forall i :: 0 <= i < |responses| ==> HostOf(calls[i]) != host
    ensures ExitCell(facts, calls, now, responses, host) == Settled(facts, now, host)
  {
    hide HostOf, Settled, Booked;
    if responses != [] {
      UncalledExit(facts, calls, now, responses[..|responses| - 1], host);
    }
  }

  lemma {:induction false} CalledExit(
    facts: Facts, plan: Plan, now: int, responses: seq<Option<RecordProvenance>>, i: nat)
    requires Orderly(facts) && IsPlan(facts, plan) && i < |responses| <= |Calls(facts.output, plan)|
    ensures var calls := Calls(facts.output, plan);
      ExitCell(facts, calls, now, responses, HostOf(calls[i])) == Booked(facts.output, calls[i], responses[i], now)
  {
    hide HostOf, Settled, Booked, Calls, Orderly, IsPlan;
    var n := |responses| - 1;
    if i < n {
      HostsAreDistinct(facts, plan, i, n);
      CalledExit(facts, plan, now, responses[..n], i);
    }
  }

  lemma BarFreeBase(facts: Facts, plan: Plan, now: int)
    requires Orderly(facts) && IsPlan(facts, plan)
    ensures BarFreeRecords(Base(facts.output, facts.managed, plan, now))
  {
    hide Orderly, IsPlan, Base, Settled, BarFreeManaged, ManagedLineage;
    var base := Base(facts.output, facts.managed, plan, now);
    forall l | l in base ensures BarFreeManaged(base[l]) {
      BaseEntry(facts, plan, now, l);
      SettledIsBarFree(facts, now, ManagedHost(base[l]));
    }
  }

  lemma CommitOneMore(facts: Facts, plan: Plan, now: int, responses: seq<Option<RecordProvenance>>)
    requires 0 < |responses| <= |Calls(facts.output, plan)|
    ensures var n := |responses| - 1;
      BookedAt(facts, plan, now, responses)
      == Commit(facts.output, BookedAt(facts, plan, now, responses[..n]), Calls(facts.output, plan)[n], responses[n], now)
  {
    hide Calls, Base, Commit;
    var calls, n := Calls(facts.output, plan), |responses| - 1;
    assert calls[..|responses|][..n] == calls[..n];
  }

  lemma {:induction false} ExitCells(facts: Facts, plan: Plan, now: int, responses: seq<Option<RecordProvenance>>)
    requires Orderly(facts) && IsPlan(facts, plan) && |responses| <= |Calls(facts.output, plan)|
    ensures var recs := BookedAt(facts, plan, now, responses);
      && OwnKeys(facts.output, recs) && OneRecordPerHost(recs) && BarFreeRecords(recs)
      && forall host :: CellOf(recs, host) == ExitCell(facts, Calls(facts.output, plan), now, responses, host)
  {
    hide HostOf, Settled, Booked, Calls, Orderly, IsPlan, Base, CellOf, OwnKeys, OneRecordPerHost, BarFreeRecords, BookedAt,
         Continues, CellsAre;
    var output, calls := facts.output, Calls(facts.output, plan);
    if responses == [] {
      NothingBooked(facts, plan, now);
      PlanFitsOutput(facts, plan);
      BaseOwnKeys(output, facts.managed, plan, now);
      BaseCells(facts, plan, now);
      CellsAreOnePerHost(output, Base(output, facts.managed, plan, now), SettledCells(facts, now));
      BarFreeBase(facts, plan, now);
      forall host ensures CellOf(BookedAt(facts, plan, now, []), host) == ExitCell(facts, calls, now, [], host) {
        assert CellOf(BookedAt(facts, plan, now, []), host) == SettledCells(facts, now)(host);
      }
    } else {
      var n := |responses| - 1;
      var c, before := calls[n], BookedAt(facts, plan, now, responses[..n]);
      ExitCells(facts, plan, now, responses[..n]);
      CellInFront(facts, plan, now, responses[..n]);
      AfterCells(output, before, c, responses[n], now);
      CommitOneMore(facts, plan, now, responses);
    }
  }

  lemma NothingBooked(facts: Facts, plan: Plan, now: int)
    ensures BookedAt(facts, plan, now, []) == Base(facts.output, facts.managed, plan, now)
  {
    hide Calls, Base;
  }

  /** In front of its call a hostname still holds what the call was planned on. */
  lemma CellInFront(facts: Facts, plan: Plan, now: int, responses: seq<Option<RecordProvenance>>)
    requires Orderly(facts) && IsPlan(facts, plan) && |responses| < |Calls(facts.output, plan)|
    ensures var calls := Calls(facts.output, plan); var c := calls[|responses|];
      && ExitCell(facts, calls, now, responses, HostOf(c)) == ManagedAt(facts, HostOf(c))
      && Continues(facts.output, c, ManagedAt(facts, HostOf(c)))
      && BarFreeCall(c) && BarFreeRef(facts.output)
  {
    hide HostOf, Calls, Orderly, IsPlan, ExitCell, Continues, FateOf, BarFreeCall, ManagedAt, DesiredAt, VisibleAt;
    var calls := Calls(facts.output, plan);
    var c := calls[|responses|];
    forall i | 0 <= i < |responses| ensures HostOf(calls[i]) != HostOf(c) {
      HostsAreDistinct(facts, plan, i, |responses|);
    }
    UncalledExit(facts, calls, now, responses, HostOf(c));
    CallsByFate(facts, plan, c);
    CallHasBarFreeRecords(facts, c);
    CalledContinues(facts.output, DesiredAt(facts, HostOf(c)), ManagedAt(facts, HostOf(c)), VisibleAt(facts, HostOf(c)), c);
  }

  /** At every exit each call that has succeeded is booked as what it did, when, and with the identifier the output answered;
      an update that got none keeps the one that was listed. */
  lemma EveryCallIsBooked(facts: Facts, plan: Plan, now: int, responses: seq<Option<RecordProvenance>>, i: nat)
    requires Orderly(facts) && IsPlan(facts, plan) && i < |responses| <= |Calls(facts.output, plan)|
    ensures var c := Calls(facts.output, plan)[i];
      CellOf(BookedAt(facts, plan, now, responses), HostOf(c))
      == match c
         case CreateCall(to, _) =>
           Some(ManagedRecord(facts.output, to.source, to.hostname, to.answer, responses[i], now))
         case UpdateCall(from, to, _) =>
           var answered := if responses[i].Some? then responses[i] else from.provenance;
           Some(ManagedRecord(facts.output, to.source, to.hostname, to.answer, answered, now))
         case DeleteCall(_, _) => None
  {
    hide HostOf, Calls, Orderly, IsPlan, ExitCell, BookedAt, CellOf, OwnKeys, OneRecordPerHost, BarFreeRecords;
    ExitCells(facts, plan, now, responses);
    CalledExit(facts, plan, now, responses, i);
  }

  /** At every exit a hostname without a call is booked by its fate: what is kept or retained is stamped, what is forgotten
      is gone, and everything else is as it was. */
  lemma OtherHostsAreBooked(facts: Facts, plan: Plan, now: int, responses: seq<Option<RecordProvenance>>, host: string)
    requires Orderly(facts) && IsPlan(facts, plan) && |responses| <= |Calls(facts.output, plan)|
    requires forall i :: 0 <= i < |responses| ==> HostOf(Calls(facts.output, plan)[i]) != host
    ensures CellOf(BookedAt(facts, plan, now, responses), host)
         == match FateAt(facts, host)
            case Kept(record, _) => Some(record.(lastAppliedAt := now))
            case Retained(managed) => Some(managed.(lastAppliedAt := now))
            case Forgotten(_) => None
            case _ => ManagedAt(facts, host)
  {
    hide HostOf, Calls, Orderly, IsPlan, ExitCell, BookedAt, CellOf, OwnKeys, OneRecordPerHost, BarFreeRecords, FateAt,
         ManagedAt;
    ExitCells(facts, plan, now, responses);
    UncalledExit(facts, Calls(facts.output, plan), now, responses, host);
  }

  /** The snapshot returned at any exit holds one record per hostname, each listed under its own key, and leaves the
      other outputs' records alone. */
  lemma EveryExitIsOrderly(
    facts: Facts, plan: Plan, now: int, responses: seq<Option<RecordProvenance>>, snapshot: Snapshot)
    requires Orderly(facts) && IsPlan(facts, plan) && |responses| <= |Calls(facts.output, plan)|
    requires IsSnapshot(snapshot, Filter(facts.managed, OwnedElsewhere(facts.output)),
                        BookedAt(facts, plan, now, responses))
    ensures OneManagedPerHost(facts.output, snapshot.managedRecords)
    ensures OwnKeys(facts.output, BookedAt(facts, plan, now, responses))
    ensures OwnedByLineage(facts.output, snapshot.managedRecords) == BookedAt(facts, plan, now, responses)
    ensures Filter(snapshot.managedRecords, OwnedElsewhere(facts.output))
         == Filter(facts.managed, OwnedElsewhere(facts.output))
  {
    hide Orderly, IsPlan, Calls, BookedAt, IsSnapshot, OwnKeys, OneRecordPerHost, HoldsFor, OneManagedPerHost, OwnedByLineage,
         CellOf, ExitCell;
    ExitCells(facts, plan, now, responses);
    var recs := BookedAt(facts, plan, now, responses);
    SnapshotHolds(facts.output, Filter(facts.managed, OwnedElsewhere(facts.output)), recs, snapshot);
    HeldCells(facts.output, snapshot.managedRecords, recs);
    StoredRoundTrip(facts.output, snapshot.managedRecords, recs);
  }

  /** The new identity has taken over: by a kept record, or by a call that has succeeded. */
  ghost predicate TakesOver(facts: Facts, calls: seq<Call>, done: nat, host: string)
    requires done <= |calls|
  {
    FateAt(facts, host).Kept? || exists i :: 0 <= i < done && HostOf(calls[i]) == host
  }

  /** When the record of a hostname continues under another source identity, every exit holds exactly one of the two
      lineages: the new one once it has taken over, the old one until then. */
  lemma IdentityIsNeverLostOrDoubled(
    facts: Facts, plan: Plan, now: int, responses: seq<Option<RecordProvenance>>, d: DesiredRecord, m: ManagedRecord)
    requires Orderly(facts) && IsPlan(facts, plan) && |responses| <= |Calls(facts.output, plan)|
    requires DesiredAt(facts, DesiredHost(d)) == Some(d) && ManagedAt(facts, DesiredHost(d)) == Some(m)
    requires ManagedLineage(m) != DesiredLineage(facts.output, d)
    ensures var recs := BookedAt(facts, plan, now, responses);
      && (DesiredLineage(facts.output, d) in recs
          <==> TakesOver(facts, Calls(facts.output, plan), |responses|, DesiredHost(d)))
      && (ManagedLineage(m) in recs
          <==> !TakesOver(facts, Calls(facts.output, plan), |responses|, DesiredHost(d)))
  {
    hide LineageKey, NormalizeHostname, Calls, Orderly, IsPlan, OwnKeys, OneRecordPerHost, BookedAt, CellOf, ExitCell,
         ManagedAt, DesiredAt, FateAt;
    var host, recs := DesiredHost(d), BookedAt(facts, plan, now, responses);
    ExitCells(facts, plan, now, responses);
    CellOfIs(facts.output, recs, host);
    ExitIdentity(facts, plan, now, responses, d, m);
    FateOfOwned(facts, host);
    WinnerAtIsBarFree(facts, host);
    SameHostInRecords(facts, recs, d, m);
  }

  lemma WinnerAtIsBarFree(facts: Facts, host: string)
    requires Orderly(facts) && DesiredAt(facts, host).Some?
    ensures BarFreeDesired(DesiredAt(facts, host).value) && BarFreeRef(facts.output)
  {
    hide Index, NoAmbiguity, OneDesiredPerHost, OneManagedPerHost;
    DesiredAtIsWinner(facts, host);
    WinnerIsBarFree(facts, DesiredAt(facts, host).value);
  }

  /** Both lineages can only be held under the hostname they share. */
  lemma SameHostInRecords(facts: Facts, recs: Lineages, d: DesiredRecord, m: ManagedRecord)
    requires OwnKeys(facts.output, recs) && BarFreeRecords(recs)
    requires BarFreeRef(facts.output) && BarFreeDesired(d) && BarFreeManaged(m) && ManagedHost(m) == DesiredHost(d)
    ensures var l := DesiredLineage(facts.output, d); l in recs ==> ManagedHost(recs[l]) == DesiredHost(d)
    ensures ManagedLineage(m) in recs ==> ManagedHost(recs[ManagedLineage(m)]) == DesiredHost(d)
  {
    hide LineageKey, NormalizeHostname, BarFreeDesired, BarFreeManaged;
    if DesiredLineage(facts.output, d) in recs {
      SameDesiredLineage(facts.output, d, recs[DesiredLineage(facts.output, d)]);
    }
    if ManagedLineage(m) in recs {
      SameManagedLineage(recs[ManagedLineage(m)], m);
    }
  }

  lemma ExitIdentity(
    facts: Facts, plan: Plan, now: int, responses: seq<Option<RecordProvenance>>, d: DesiredRecord, m: ManagedRecord)
    requires Orderly(facts) && IsPlan(facts, plan) && |responses| <= |Calls(facts.output, plan)|
    requires DesiredAt(facts, DesiredHost(d)) == Some(d) && ManagedAt(facts, DesiredHost(d)) == Some(m)
    ensures var calls := Calls(facts.output, plan); var cell := ExitCell(facts, calls, now, responses, DesiredHost(d));
      && cell.Some?
      && (TakesOver(facts, calls, |responses|, DesiredHost(d)) ==>
            ManagedLineage(cell.value) == DesiredLineage(facts.output, d))
      && (!TakesOver(facts, calls, |responses|, DesiredHost(d)) ==> cell == Some(m))
  {
    hide LineageKey, NormalizeHostname, Calls, Orderly, IsPlan, ExitCell, ManagedAt, DesiredAt, FateOf, VisibleAt, Booked;
    var host, calls := DesiredHost(d), Calls(facts.output, plan);
    if i :| 0 <= i < |responses| && HostOf(calls[i]) == host {
      CalledExit(facts, plan, now, responses, i);
      CallsByFate(facts, plan, calls[i]);
      CalledContinues(facts.output, Some(d), Some(m), VisibleAt(facts, host), calls[i]);
      BookedIs(facts.output, calls[i], responses[i], now);
    } else {
      UncalledExit(facts, calls, now, responses, host);
      KeptIdentity(facts, d, m, now);
    }
  }

  lemma BookedIs(output: ProviderRef, c: Call, response: Option<RecordProvenance>, now: int)
    requires !c.DeleteCall?
    ensures var m := Booked(output, c, response, now);
      m.Some? && ManagedLineage(m.value) == DesiredLineage(output, c.to)
  {
    hide LineageKey;
  }

  lemma KeptIdentity(facts: Facts, d: DesiredRecord, m: ManagedRecord, now: int)
    requires DesiredAt(facts, DesiredHost(d)) == Some(d) && ManagedAt(facts, DesiredHost(d)) == Some(m)
    ensures var fate, settled := FateAt(facts, DesiredHost(d)), Settled(facts, now, DesiredHost(d));
      && (fate.Kept? ==> settled.Some? && ManagedLineage(settled.value) == DesiredLineage(facts.output, d))
      && (!fate.Kept? ==> settled == Some(m))
  {
    hide LineageKey, RecordKey, NormalizeHostname, ManagedAt, DesiredAt, VisibleAt, WithKey, CanUpdate, OnlyHostInCommon;
  }
}
