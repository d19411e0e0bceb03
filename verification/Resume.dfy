/** Failure transparency: planning again after any prefix of the calls yields exactly the rest of them. */
module Resume {
  import opened Records
  import opened Keys
  import opened Seqs
  import opened Planner
  import opened Remote
  import opened Apply
  import opened Fates
  import opened Refinement
  import opened Cells
  import opened Steps
  import opened Replay

  predicate SameCell(a: Option<ManagedRecord>, b: Option<ManagedRecord>) {
    (a.None? && b.None?) || (a.Some? && b.Some? && SameButTime(a.value, b.value))
  }

  /** The remote and the stored records stand where the undisturbed pass stands after `k` calls, time stamps
      aside. A hostname without a call may still be as it was: nothing is stored before the first success. */
  ghost predicate StandsAt(
    facts: Facts, plan: Plan, now: int, origin: RemoteState, k: nat, remote: RemoteState, managed: seq<ManagedRecord>)
  {
    && k <= |Calls(facts.output, plan)|
    && remote == StateAt(facts, plan, now, origin, k).remote
    && (forall m :: m in managed && m.output == facts.output ==> BarFreeManaged(m))
    && OneManagedPerHost(facts.output, managed)
    && forall host :: CellStands(facts, plan, now, origin, k, managed, host)
  }

  ghost predicate CellStands(
    facts: Facts, plan: Plan, now: int, origin: RemoteState, k: nat, managed: seq<ManagedRecord>, host: string)
    requires k <= |Calls(facts.output, plan)|
  {
    var cell := ManagedIn(facts.output, managed, host);
    && (Pending(Calls(facts.output, plan), k, host) ==> cell == ManagedAt(facts, host))
    && (|| SameCell(cell, CellOf(StateAt(facts, plan, now, origin, k).recs, host))
        || (!FateAt(facts, host).Called? && cell == ManagedAt(facts, host)))
  }

  /** The arguments of the next planning: same desired records, new listing, new snapshot. */
  function Again(facts: Facts, remote: RemoteState, managed: seq<ManagedRecord>): Facts {
    facts.(visible := remote.records, managed := managed)
  }

  lemma SameDesired(facts: Facts, remote: RemoteState, managed: seq<ManagedRecord>, host: string)
    ensures DesiredAt(Again(facts, remote, managed), host) == DesiredAt(facts, host)
    ensures OneDesiredPerHost(facts) ==> OneDesiredPerHost(Again(facts, remote, managed))
  {
    hide DesiredByLineage, WinnerAt, DesiredHost;
    assert Index(Again(facts, remote, managed)).desired == Index(facts).desired;
  }

  lemma AgainIsTidy(
    facts: Facts, plan: Plan, now: int, origin: RemoteState, k: nat, remote: RemoteState, managed: seq<ManagedRecord>)
    requires Tidy(facts) && IsPlan(facts, plan) && StartsFrom(facts, origin)
    requires StandsAt(facts, plan, now, origin, k, remote, managed)
    ensures Tidy(Again(facts, remote, managed)) && StartsFrom(Again(facts, remote, managed), remote)
    ensures SettledUpTo(facts, Calls(facts.output, plan), k, now, StateAt(facts, plan, now, origin, k))
  {
    hide Calls, IsPlan, CellStands, OneDesiredPerHost, OneManagedPerHost, StateAt, BarFreeManaged, BarFreeDesired,
         VisibleOn, Pending, IsStable, IsSettled, IsAsBefore;
    PrefixSettles(facts, plan, now, origin, k);
    SameDesired(facts, remote, managed, "");
  }

  // ---- Time stamps do not matter --------------------------------------------------------------------

  lemma StableIgnoresTime(
    output: ProviderRef, desired: Option<DesiredRecord>, a: Option<ManagedRecord>, b: Option<ManagedRecord>,
    vs: seq<VisibleRecord>)
    requires SameCell(a, b) && Stable(output, desired, b, vs)
    ensures Stable(output, desired, a, vs)
  {
    hide LineageKey, RecordKey, NormalizeHostname, WithKey;
  }

  /** A stable hostname settles to what it holds. */
  lemma StableSettles(facts: Facts, now: int, host: string)
    requires Stable(facts.output, DesiredAt(facts, host), ManagedAt(facts, host), VisibleAt(facts, host))
    ensures !FateAt(facts, host).Called? && !FateAt(facts, host).Forgotten?
    ensures SameCell(Settled(facts, now, host), ManagedAt(facts, host))
  {
    hide LineageKey, RecordKey, NormalizeHostname, WithKey, CanUpdate, DesiredAt, ManagedAt, VisibleAt,
         OnlyHostInCommon;
  }

  lemma SameFate(facts: Facts, again: Facts, now: int, now': int, host: string)
    requires again.output == facts.output && DesiredAt(again, host) == DesiredAt(facts, host)
    requires ManagedAt(again, host) == ManagedAt(facts, host) && VisibleAt(again, host) == VisibleAt(facts, host)
    ensures FateAt(again, host) == FateAt(facts, host)
    ensures SameCell(Settled(again, now', host), Settled(facts, now, host))
  {
    hide FateOf, DesiredAt, ManagedAt, VisibleAt;
  }

  /** Planning again: pending hostnames keep their fate, the others need no call and settle to what they hold. */
  lemma FateAgain(
    facts: Facts, plan: Plan, now: int, origin: RemoteState, k: nat, remote: RemoteState, managed: seq<ManagedRecord>,
    now': int, host: string)
    requires Tidy(facts) && IsPlan(facts, plan) && StartsFrom(facts, origin)
    requires StandsAt(facts, plan, now, origin, k, remote, managed)
    ensures var again := Again(facts, remote, managed);
      && (Pending(Calls(facts.output, plan), k, host) ==> FateAt(again, host) == FateAt(facts, host))
      && (!Pending(Calls(facts.output, plan), k, host) ==> !FateAt(again, host).Called?)
      && SameCell(Settled(again, now', host), CellOf(StateAt(facts, plan, now, origin, k).recs, host))
  {
    hide Calls, IsPlan, OneDesiredPerHost, OneManagedPerHost, StateAt, Tidy, Pending, FateAt, Settled, Stable,
         DesiredAt, ManagedIn, VisibleOn, CellOf, OwnKeys, OneRecordPerHost, BarFreeRecords;
    var again := Again(facts, remote, managed);
    var calls := Calls(facts.output, plan);
    var w := StateAt(facts, plan, now, origin, k);
    AgainIsTidy(facts, plan, now, origin, k, remote, managed);
    TidyIsOrderly(facts);
    SameDesired(facts, remote, managed, host);
    assert CellStands(facts, plan, now, origin, k, managed, host);
    var cell := ManagedAt(again, host);
    if Pending(calls, k, host) {
      assert IsAsBefore(facts, w, host);
      SameFate(facts, again, now, now', host);
      PendingIsCalled(facts, plan, k, host);
      CalledSettles(facts, now, host);
    } else if SameCell(cell, CellOf(w.recs, host)) {
      assert IsStable(facts, w, host);
      StableIgnoresTime(facts.output, DesiredAt(facts, host), cell, CellOf(w.recs, host), VisibleAt(again, host));
      StableSettles(again, now', host);
    } else {
      assert IsSettled(facts, now, w, host);
      SameFate(facts, again, now, now', host);
    }
  }

  lemma CalledSettles(facts: Facts, now: int, host: string)
    requires FateAt(facts, host).Called?
    ensures Settled(facts, now, host) == ManagedAt(facts, host)
  {
    hide FateAt, ManagedAt;
  }

  /** Every plan made now has exactly the remaining calls, in the same order. */
  lemma ReplanIsSuffix(
    facts: Facts, plan: Plan, now: int, origin: RemoteState, k: nat, remote: RemoteState, managed: seq<ManagedRecord>,
    plan': Plan)
    requires Tidy(facts) && IsPlan(facts, plan) && StartsFrom(facts, origin)
    requires StandsAt(facts, plan, now, origin, k, remote, managed)
    requires IsPlan(Again(facts, remote, managed), plan')
    ensures Calls(facts.output, plan') == Calls(facts.output, plan)[k..]
  {
    hide Calls, IsPlan, StateAt, Tidy, FateAt, StandsAt, Settled, CellOf, HostOf, Before;
    var again := Again(facts, remote, managed);
    var calls := Calls(facts.output, plan);
    AgainIsTidy(facts, plan, now, origin, k, remote, managed);
    TidyIsOrderly(facts);
    TidyIsOrderly(again);
    CallsInOrder(facts, plan);
    CallsInOrder(again, plan');
    StandsWithin(facts, plan, now, origin, k, remote, managed);
    forall c ensures c in Calls(facts.output, plan') <==> c in calls[k..] {
      CallsByFate(again, plan', c);
      CallsByFate(facts, plan, c);
      FateAgain(facts, plan, now, origin, k, remote, managed, now, HostOf(c));
      PendingSuffix(facts, plan, k, c);
    }
    BeforeIsStrict();
    OrderIsUnique(Calls(facts.output, plan'), calls[k..], InFront());
  }

  lemma StandsWithin(
    facts: Facts, plan: Plan, now: int, origin: RemoteState, k: nat, remote: RemoteState, managed: seq<ManagedRecord>)
    requires StandsAt(facts, plan, now, origin, k, remote, managed)
    ensures k <= |Calls(facts.output, plan)|
  {
    hide Calls, CellStands, StateAt, OneManagedPerHost;
  }

  lemma PendingSuffix(facts: Facts, plan: Plan, k: nat, c: Call)
    requires Orderly(facts) && IsPlan(facts, plan) && k <= |Calls(facts.output, plan)|
    ensures c in Calls(facts.output, plan)[k..]
       <==> Pending(Calls(facts.output, plan), k, HostOf(c)) && FateAt(facts, HostOf(c)) == Called(c)
  {
    hide Calls, IsPlan, FateAt, HostOf, Orderly;
    var calls := Calls(facts.output, plan);
    CallsByFate(facts, plan, c);
    if i :| k <= i < |calls| && calls[i] == c {
      assert calls[k..][i - k] == c;
    }
    if i :| k <= i < |calls| && HostOf(calls[i]) == HostOf(c) {
      CallsByFate(facts, plan, calls[i]);
      if FateAt(facts, HostOf(c)) == Called(c) {
        assert calls[k..][i - k] == c;
      }
    }
  }

  // ---- Running the rest --------------------------------------------------------------------------------

  /** The same records under the same keys, time stamps aside. */
  ghost predicate SameRecords(a: Lineages, b: Lineages) {
    a.Keys == b.Keys && forall l :: l in a ==> SameButTime(a[l], b[l])
  }

  lemma SameCellsSameRecords(output: ProviderRef, a: Lineages, b: Lineages)
    requires OwnKeys(output, a) && OneRecordPerHost(a) && OwnKeys(output, b) && OneRecordPerHost(b)
    requires forall host :: SameCell(CellOf(a, host), CellOf(b, host))
    ensures SameRecords(a, b)
  {
    hide LineageKey, NormalizeHostname, CellOf, OwnKeys, OneRecordPerHost;
    SameCellsIncluded(output, a, b);
    forall host ensures SameCell(CellOf(b, host), CellOf(a, host)) {
      assert SameCell(CellOf(a, host), CellOf(b, host));
    }
    SameCellsIncluded(output, b, a);
  }

  lemma SameCellsIncluded(output: ProviderRef, a: Lineages, b: Lineages)
    requires OwnKeys(output, a) && OneRecordPerHost(a) && OwnKeys(output, b) && OneRecordPerHost(b)
    requires forall host :: SameCell(CellOf(a, host), CellOf(b, host))
    ensures forall l :: l in a ==> l in b && SameButTime(a[l], b[l])
  {
    hide LineageKey, NormalizeHostname;
    forall l | l in a ensures l in b && SameButTime(a[l], b[l]) {
      var host := ManagedHost(a[l]);
      CellOfIs(output, a, host);
      CellOfIs(output, b, host);
      assert SameCell(CellOf(a, host), CellOf(b, host));
    }
  }

  lemma SameCommit(
    output: ProviderRef, a: Lineages, b: Lineages, c: Call, response: Option<RecordProvenance>, now: int, now': int)
    requires SameRecords(a, b)
    ensures SameRecords(Commit(output, a, c, response, now), Commit(output, b, c, response, now'))
  {
    hide LineageKey;
  }

  /** The same calls on the same remote: same remote, same records. */
  lemma {:induction false} SameRun(v: World, w: World, calls: seq<Call>, now: int, now': int)
    requires v.remote == w.remote && SameRecords(v.recs, w.recs)
    ensures RunCalls(v, calls, now).remote == RunCalls(w, calls, now').remote
    ensures SameRecords(RunCalls(v, calls, now).recs, RunCalls(w, calls, now').recs)
  {
    hide SameRecords, Mutate, Possible, Commit, Response;
    if calls != [] {
      var init, c := calls[..|calls| - 1], calls[|calls| - 1];
      SameRun(v, w, init, now, now');
      var a, b := RunCalls(v, init, now), RunCalls(w, init, now');
      SameCommit(a.remote.provider, a.recs, b.recs, c, Response(a.remote, c), now, now');
    }
  }

  lemma {:induction false} RunInTwo(w: World, first: seq<Call>, second: seq<Call>, now: int)
    ensures RunCalls(w, first + second, now) == RunCalls(RunCalls(w, first, now), second, now)
  {
    hide Mutate, Possible, Commit, Response;
    if second == [] {
      assert first + second == first;
    } else {
      var init := second[..|second| - 1];
      RunInTwo(w, first, init, now);
      assert (first + second)[..|first + second| - 1] == first + init;
    }
  }

  /** What a pass has reached, time stamps aside, whether or not anything was stored. */
  ghost predicate SameWorld(a: World, b: World) {
    a.remote == b.remote && SameRecords(a.recs, b.recs)
  }

  /** The next pass, after `j` of its own calls, stands where the undisturbed pass stands after `k + j`. */
  lemma ResumedRun(
    facts: Facts, plan: Plan, now: int, origin: RemoteState, k: nat, remote: RemoteState, managed: seq<ManagedRecord>,
    plan': Plan, now': int, j: nat)
    requires Tidy(facts) && IsPlan(facts, plan) && StartsFrom(facts, origin)
    requires StandsAt(facts, plan, now, origin, k, remote, managed)
    requires IsPlan(Again(facts, remote, managed), plan')
    requires j <= |Calls(facts.output, plan')|
    ensures k + j <= |Calls(facts.output, plan)|
    ensures SameWorld(StateAt(Again(facts, remote, managed), plan', now', remote, j),
                      StateAt(facts, plan, now, origin, k + j))
  {
    hide Calls, IsPlan, Tidy, StandsAt, SameRecords, Base, FateAt, Settled, CellOf;
    var again := Again(facts, remote, managed);
    var calls := Calls(facts.output, plan);
    ReplanIsSuffix(facts, plan, now, origin, k, remote, managed, plan');
    StandsWithin(facts, plan, now, origin, k, remote, managed);
    assert calls[k..][..j] == calls[k..k + j];
    assert calls[..k + j] == calls[..k] + calls[k..k + j];
    RunInTwo(StartOf(facts, plan, now, origin), calls[..k], calls[k..k + j], now);
    ResumedBase(facts, plan, now, origin, k, remote, managed, plan', now');
    SameRun(StartOf(again, plan', now', remote), StateAt(facts, plan, now, origin, k), calls[k..k + j], now', now);
  }

  lemma ResumedBase(
    facts: Facts, plan: Plan, now: int, origin: RemoteState, k: nat, remote: RemoteState, managed: seq<ManagedRecord>,
    plan': Plan, now': int)
    requires Tidy(facts) && IsPlan(facts, plan) && StartsFrom(facts, origin)
    requires StandsAt(facts, plan, now, origin, k, remote, managed)
    requires IsPlan(Again(facts, remote, managed), plan')
    ensures StateAt(facts, plan, now, origin, k).remote == remote
    ensures SameRecords(Base(facts.output, managed, plan', now'), StateAt(facts, plan, now, origin, k).recs)
  {
    hide Calls, IsPlan, Tidy, CellStands, SameRecords, Base, FateAt, Settled, CellOf, OneManagedPerHost, StateAt,
         IsStable, IsSettled, IsAsBefore;
    var again := Again(facts, remote, managed);
    AgainIsTidy(facts, plan, now, origin, k, remote, managed);
    TidyIsOrderly(again);
    SettledAtStart(again, plan', now', remote);
    BaseCells(again, plan', now');
    CellsAreOnePerHost(facts.output, Base(facts.output, managed, plan', now'), SettledCells(again, now'));
    forall host
      ensures SameCell(CellOf(Base(facts.output, managed, plan', now'), host),
                       CellOf(StateAt(facts, plan, now, origin, k).recs, host))
    {
      FateAgain(facts, plan, now, origin, k, remote, managed, now', host);
      assert CellOf(Base(facts.output, managed, plan', now'), host) == SettledCells(again, now')(host);
    }
    SameCellsSameRecords(facts.output, Base(facts.output, managed, plan', now'), StateAt(facts, plan, now, origin, k).recs);
  }

  // ---- Storing and reading back ------------------------------------------------------------------------

  ghost predicate AllElsewhere(output: ProviderRef, others: seq<ManagedRecord>) {
    forall m :: m in others ==> m.output != output
  }

  /** The output's part of the stored records is a listing of `recs`. */
  ghost predicate HoldsFor(output: ProviderRef, managed: seq<ManagedRecord>, recs: Lineages) {
    ListsByLineage(Filter(managed, OwnedFor(output)), recs)
  }

  /** A stored snapshot holds the bookkeeping of its output and every other record unchanged and in order. */
  lemma SnapshotHolds(output: ProviderRef, others: seq<ManagedRecord>, recs: Lineages, snapshot: Snapshot)
    requires IsSnapshot(snapshot, others, recs) && OwnKeys(output, recs) && AllElsewhere(output, others)
    ensures HoldsFor(output, snapshot.managedRecords, recs)
    ensures Filter(snapshot.managedRecords, OwnedElsewhere(output)) == others
    ensures forall o :: o != output ==>
      Filter(snapshot.managedRecords, OwnedFor(o)) == Filter(others, OwnedFor(o))
  {
    hide ManagedLineage, Filter;
    var list := snapshot.managedRecords[|others|..];
    assert snapshot.managedRecords == others + list;
    forall m | m in list ensures m.output == output {
      assert Has(recs, m);
    }
    hide ListsByLineage, OwnKeys;
    OwnPart(output, others, list);
    forall o | o != output ensures Filter(snapshot.managedRecords, OwnedFor(o)) == Filter(others, OwnedFor(o)) {
      FilterConcat(others, list, OwnedFor(o));
      FilterNone(list, OwnedFor(o));
    }
  }

  lemma OwnPart(output: ProviderRef, others: seq<ManagedRecord>, list: seq<ManagedRecord>)
    requires AllElsewhere(output, others) && forall m :: m in list ==> m.output == output
    ensures Filter(others + list, OwnedElsewhere(output)) == others
    ensures Filter(others + list, OwnedFor(output)) == list
  {
    hide Filter;
    FilterConcat(others, list, OwnedElsewhere(output));
    FilterAll(others, OwnedElsewhere(output));
    FilterNone(list, OwnedElsewhere(output));
    FilterConcat(others, list, OwnedFor(output));
    FilterNone(others, OwnedFor(output));
    FilterAll(list, OwnedFor(output));
  }

  lemma HeldMembers(output: ProviderRef, managed: seq<ManagedRecord>, recs: Lineages)
    requires HoldsFor(output, managed, recs)
    ensures forall m :: m in managed && m.output == output <==> Has(recs, m)
  {
    hide ManagedLineage, Has;
    forall m ensures m in managed && m.output == output <==> Has(recs, m) {
      assert m in Filter(managed, OwnedFor(output)) <==> m in managed && OwnedFor(output)(m);
    }
  }

  lemma OwnedIndex(output: ProviderRef, managed: seq<ManagedRecord>)
    ensures var owned := OwnedByLineage(output, managed);
      && (forall l :: l in owned ==>
            owned[l] in managed && owned[l].output == output && ManagedLineage(owned[l]) == l)
      && (forall m :: m in managed && m.output == output ==> ManagedLineage(m) in owned)
  {
    hide LineageKey;
  }

  /** Reading the stored records back gives the same bookkeeping. */
  lemma StoredRoundTrip(output: ProviderRef, managed: seq<ManagedRecord>, recs: Lineages)
    requires HoldsFor(output, managed, recs) && OwnKeys(output, recs)
    ensures OwnedByLineage(output, managed) == recs
  {
    hide ManagedLineage, OwnedByLineage, HoldsFor;
    HeldMembers(output, managed, recs);
    OwnedIndex(output, managed);
    forall l | l in recs ensures l in OwnedByLineage(output, managed) {
      assert Has(recs, recs[l]);
    }
    forall l | l in OwnedByLineage(output, managed) ensures l in recs && recs[l] == OwnedByLineage(output, managed)[l] {
      assert Has(recs, OwnedByLineage(output, managed)[l]);
    }
  }

  /** H3 by positions is H3 by scans. */
  lemma OneManagedByScan(output: ProviderRef, managed: seq<ManagedRecord>)
    ensures OneManagedPerHost(output, managed)
       <==> forall host :: |Filter(managed, Matching(OwnedFor(output), ManagedHost, host))| <= 1
  {
    hide NormalizeHostname;
    if OneManagedPerHost(output, managed) {
      forall host ensures |Filter(managed, Matching(OwnedFor(output), ManagedHost, host))| <= 1 {
        ManagedEntry(Facts(output, [], [], managed), host);
      }
    } else {
      var i, j :| 0 <= i < j < |managed| && managed[i].output == output == managed[j].output
        && ManagedHost(managed[i]) == ManagedHost(managed[j]);
      FilterTwo(managed, Matching(OwnedFor(output), ManagedHost, ManagedHost(managed[i])), i, j);
      assert |Filter(managed, Matching(OwnedFor(output), ManagedHost, ManagedHost(managed[i])))| >= 2;
    }
  }

  /** The scan for a hostname only looks at the output's own records. */
  lemma ScanOwnPart(output: ProviderRef, managed: seq<ManagedRecord>, host: string)
    ensures Filter(Filter(managed, OwnedFor(output)), Matching(OwnedFor(output), ManagedHost, host))
         == Filter(managed, Matching(OwnedFor(output), ManagedHost, host))
  {
    hide NormalizeHostname;
    FilterThrough(managed, OwnedFor(output), Matching(OwnedFor(output), ManagedHost, host));
  }

  /** The hostnames of a stored listing are those of the bookkeeping, each once. */
  lemma HeldCells(output: ProviderRef, managed: seq<ManagedRecord>, recs: Lineages)
    requires HoldsFor(output, managed, recs) && OwnKeys(output, recs) && OneRecordPerHost(recs)
    ensures OneManagedPerHost(output, managed)
    ensures forall host :: ManagedIn(output, managed, host) == CellOf(recs, host)
  {
    hide ManagedLineage, ManagedHost, ListsByLineage, OwnKeys, OneRecordPerHost, CellOf;
    forall host ensures |Filter(managed, Matching(OwnedFor(output), ManagedHost, host))| <= 1
      ensures ManagedIn(output, managed, host) == CellOf(recs, host)
    {
      ScanOwnPart(output, managed, host);
      ListCell(output, Filter(managed, OwnedFor(output)), recs, host);
    }
    OneManagedByScan(output, managed);
  }

  lemma ListCell(output: ProviderRef, list: seq<ManagedRecord>, recs: Lineages, host: string)
    requires ListsByLineage(list, recs) && OwnKeys(output, recs) && OneRecordPerHost(recs)
    ensures var found := Filter(list, Matching(OwnedFor(output), ManagedHost, host));
      |found| <= 1 && First(found) == CellOf(recs, host)
  {
    hide ManagedLineage, ManagedHost, Text.Less;
    var p := Matching(OwnedFor(output), ManagedHost, host);
    CellOfIs(output, recs, host);
    if i :| 0 <= i < |list| && p(list[i]) {
      forall j | 0 <= j < |list| && j != i ensures !p(list[j]) {
        ListedOnce(list, recs, i, j);
      }
      FilterOne(list, p, i);
      assert list[i] in list;
    } else {
      FilterNone(list, p);
    }
  }

  /** Two positions of a listing hold records of different lineages, hence of different hostnames. */
  lemma ListedOnce(list: seq<ManagedRecord>, recs: Lineages, i: nat, j: nat)
    requires ListsByLineage(list, recs) && OneRecordPerHost(recs) && i < |list| && j < |list| && i != j
    ensures ManagedHost(list[i]) != ManagedHost(list[j])
  {
    hide ManagedLineage, ManagedHost;
    assert list[i] in list && list[j] in list;
    Text.LessIrreflexive(ManagedLineage(list[i]));
    if i < j {
      assert Text.Less(ManagedLineage(list[i]), ManagedLineage(list[j]));
    } else {
      assert Text.Less(ManagedLineage(list[j]), ManagedLineage(list[i]));
    }
  }

  /** Once a snapshot is stored, nothing is left unsettled. */
  ghost predicate StoredAt(
    facts: Facts, plan: Plan, now: int, origin: RemoteState, k: nat, remote: RemoteState, managed: seq<ManagedRecord>)
  {
    && StandsAt(facts, plan, now, origin, k, remote, managed)
    && forall host :: SameCell(ManagedIn(facts.output, managed, host),
                               CellOf(StateAt(facts, plan, now, origin, k).recs, host))
  }

  /** The next pass makes `j` of its calls and stores what it has booked. */
  lemma StoreAfterResume(
    facts: Facts, plan: Plan, now: int, origin: RemoteState, k: nat, remote: RemoteState, managed: seq<ManagedRecord>,
    plan': Plan, now': int, j: nat, stored: seq<ManagedRecord>)
    requires Tidy(facts) && IsPlan(facts, plan) && StartsFrom(facts, origin)
    requires StandsAt(facts, plan, now, origin, k, remote, managed)
    requires IsPlan(Again(facts, remote, managed), plan')
    requires j <= |Calls(facts.output, plan')|
    requires HoldsFor(facts.output, stored, StateAt(Again(facts, remote, managed), plan', now', remote, j).recs)
    ensures k + j <= |Calls(facts.output, plan)|
    ensures StoredAt(facts, plan, now, origin, k + j,
                     StateAt(Again(facts, remote, managed), plan', now', remote, j).remote, stored)
  {
    hide Calls, IsPlan, Tidy, SameRecords, FateAt, Settled, CellOf, OneManagedPerHost, StateAt, BarFreeManaged,
         IsStable, IsSettled, OwnKeys, OneRecordPerHost, HoldsFor, ManagedLineage, OneVisiblePerHost, ManagedIn,
         ManagedHost, StandsAt, Pending;
    var again := Again(facts, remote, managed);
    var w := StateAt(again, plan', now', remote, j);
    ResumedRun(facts, plan, now, origin, k, remote, managed, plan', now', j);
    AgainIsTidy(facts, plan, now, origin, k, remote, managed);
    PrefixSettles(again, plan', now', remote, j);
    PrefixSettles(facts, plan, now, origin, k + j);
    HeldMembers(facts.output, stored, w.recs);
    HeldCells(facts.output, stored, w.recs);
    forall m | m in stored && m.output == facts.output ensures BarFreeManaged(m) {
      assert Has(w.recs, m);
    }
    forall host
      ensures SameCell(ManagedIn(facts.output, stored, host),
                       CellOf(StateAt(facts, plan, now, origin, k + j).recs, host))
      ensures CellStands(facts, plan, now, origin, k + j, stored, host)
    {
      CellStandsAfter(facts, plan, now, origin, k, remote, managed, plan', now', j, host);
    }
    StandsIntro(facts, plan, now, origin, k + j, w.remote, stored);
  }

  lemma StandsIntro(
    facts: Facts, plan: Plan, now: int, origin: RemoteState, k: nat, remote: RemoteState, managed: seq<ManagedRecord>)
    requires k <= |Calls(facts.output, plan)|
    requires remote == StateAt(facts, plan, now, origin, k).remote
    requires forall m :: m in managed && m.output == facts.output ==> BarFreeManaged(m)
    requires OneManagedPerHost(facts.output, managed)
    requires forall host :: CellStands(facts, plan, now, origin, k, managed, host)
    ensures StandsAt(facts, plan, now, origin, k, remote, managed)
  {
    hide Calls, CellStands, StateAt, OneManagedPerHost, BarFreeManaged;
  }

  /** The cells of the resumed pass: pending hostnames exactly as at first, all of them equal up to time. */
  lemma CellStandsAfter(
    facts: Facts, plan: Plan, now: int, origin: RemoteState, k: nat, remote: RemoteState, managed: seq<ManagedRecord>,
    plan': Plan, now': int, j: nat, host: string)
    requires Tidy(facts) && IsPlan(facts, plan) && StartsFrom(facts, origin)
    requires StandsAt(facts, plan, now, origin, k, remote, managed)
    requires IsPlan(Again(facts, remote, managed), plan')
    requires j <= |Calls(facts.output, plan')| && k + j <= |Calls(facts.output, plan)|
    ensures var cell := CellOf(StateAt(Again(facts, remote, managed), plan', now', remote, j).recs, host);
      && SameCell(cell, CellOf(StateAt(facts, plan, now, origin, k + j).recs, host))
      && (Pending(Calls(facts.output, plan), k + j, host) ==> cell == ManagedAt(facts, host))
  {
    hide Calls, IsPlan, Tidy, SameRecords, FateAt, Settled, CellOf, OneManagedPerHost, StateAt, BarFreeManaged,
         IsStable, IsSettled, OwnKeys, OneRecordPerHost, OneVisiblePerHost, ManagedIn, HostOf, CellStands, Pending, StandsAt;
    var again := Again(facts, remote, managed);
    var calls := Calls(facts.output, plan);
    ReplanIsSuffix(facts, plan, now, origin, k, remote, managed, plan');
    ResumedRun(facts, plan, now, origin, k, remote, managed, plan', now', j);
    AgainIsTidy(facts, plan, now, origin, k, remote, managed);
    PrefixSettles(again, plan', now', remote, j);
    PrefixSettles(facts, plan, now, origin, k + j);
    SameRecordsSameCells(facts.output, StateAt(again, plan', now', remote, j).recs,
                         StateAt(facts, plan, now, origin, k + j).recs, host);
    if Pending(calls, k + j, host) {
      PendingInSuffix(calls, k, j, host);
      assert IsAsBefore(again, StateAt(again, plan', now', remote, j), host);
      StillPending(calls, k, j, host);
      PendingCellKept(facts, plan, now, origin, k, remote, managed, host);
    }
  }

  lemma PendingCellKept(
    facts: Facts, plan: Plan, now: int, origin: RemoteState, k: nat, remote: RemoteState, managed: seq<ManagedRecord>,
    host: string)
    requires StandsAt(facts, plan, now, origin, k, remote, managed)
    requires Pending(Calls(facts.output, plan), k, host)
    ensures ManagedAt(Again(facts, remote, managed), host) == ManagedAt(facts, host)
  {
    hide Calls, StateAt, FateAt, CellOf, ManagedIn, OneManagedPerHost, BarFreeManaged, Pending;
    assert CellStands(facts, plan, now, origin, k, managed, host);
  }

  lemma PendingInSuffix(calls: seq<Call>, k: nat, j: nat, host: string)
    requires k + j <= |calls| && Pending(calls, k + j, host)
    ensures Pending(calls[k..], j, host)
  {
    hide HostOf;
    var i :| k + j <= i < |calls| && HostOf(calls[i]) == host;
    assert calls[k..][i - k] == calls[i];
  }

  lemma StillPending(calls: seq<Call>, k: nat, j: nat, host: string)
    requires Pending(calls, k + j, host)
    ensures Pending(calls, k, host)
  {
    hide HostOf;
  }

  lemma SameRecordsSameCells(output: ProviderRef, a: Lineages, b: Lineages, host: string)
    requires OwnKeys(output, a) && OneRecordPerHost(a) && OwnKeys(output, b) && OneRecordPerHost(b)
    requires SameRecords(a, b)
    ensures SameCell(CellOf(a, host), CellOf(b, host))
  {
    hide LineageKey, NormalizeHostname;
    CellOfIs(output, a, host);
    CellOfIs(output, b, host);
  }
}
