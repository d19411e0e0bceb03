/** A pass as a run of settled hostnames, and why a new pass after a failure carries on where the last one stopped. */
module Replay {
  import opened Records
  import opened Keys
  import opened Seqs
  import opened Planner
  import opened Remote
  import opened Apply
  import opened Fates
  import opened Refinement
  import opened Cells
  import opened Steps

  /** Planning this hostname again would change nothing but a time stamp. */
  predicate Stable(
    output: ProviderRef, desired: Option<DesiredRecord>, cell: Option<ManagedRecord>, vs: seq<VisibleRecord>)
  {
    match FateOf(output, desired, cell, vs)
    case Untouched => true
    case Kept(record, replaced) => replaced == None && cell.Some? && SameButTime(record, cell.value)
    case Retained(_) => true
    case _ => false
  }

  ghost predicate Pending(calls: seq<Call>, k: nat, host: string) {
    exists i :: k <= i < |calls| && HostOf(calls[i]) == host
  }

  /** The state of a pass after `k` of its calls: pending hostnames are as they were, all others are stable. */
  ghost predicate SettledUpTo(facts: Facts, calls: seq<Call>, k: nat, now: int, w: World) {
    && w.remote.provider == facts.output
    && OwnKeys(facts.output, w.recs) && OneRecordPerHost(w.recs) && BarFreeRecords(w.recs)
    && (forall v :: v in w.remote.records && v.output == facts.output ==> BarFree(v.hostname))
    && OneVisiblePerHost(facts.output, w.remote.records)
    && (forall host :: Pending(calls, k, host) ==> IsAsBefore(facts, w, host))
    && (forall host :: !Pending(calls, k, host) ==> IsStable(facts, w, host))
    && (forall host :: !FateAt(facts, host).Called? ==> IsSettled(facts, now, w, host))
  }

  ghost predicate IsAsBefore(facts: Facts, w: World, host: string) {
    && CellOf(w.recs, host) == ManagedAt(facts, host)
    && VisibleOn(facts.output, w.remote.records, host) == VisibleAt(facts, host)
  }

  ghost predicate IsStable(facts: Facts, w: World, host: string) {
    Stable(facts.output, DesiredAt(facts, host), CellOf(w.recs, host), VisibleOn(facts.output, w.remote.records, host))
  }

  ghost predicate IsSettled(facts: Facts, now: int, w: World, host: string) {
    && CellOf(w.recs, host) == Settled(facts, now, host)
    && VisibleOn(facts.output, w.remote.records, host) == VisibleAt(facts, host)
  }

  // ---- Fates settle -----------------------------------------------------------------------------------

  lemma WithKeyAlone(output: ProviderRef, vs: seq<VisibleRecord>, key: string)
    requires forall v :: v in vs ==> v.output == output
    ensures vs == [] ==> WithKey(output, vs, key) == None
    ensures |vs| == 1 ==> WithKey(output, vs, key) == if VisibleKey(vs[0]) == key then Some(vs[0]) else None
  {
    hide RecordKey;
    var p := Matching(ListedBy(output), VisibleKey, key);
    if |vs| == 1 {
      if VisibleKey(vs[0]) == key {
        FilterOne(vs, p, 0);
      } else {
        FilterNone(vs, p);
      }
    }
  }

  /** Keeps and retentions only stamp the record; a dropped or untouched hostname has nothing left to do. */
  lemma SettledIsStable(facts: Facts, now: int, host: string)
    requires Tidy(facts) && !FateAt(facts, host).Called?
    ensures Stable(facts.output, DesiredAt(facts, host), Settled(facts, now, host), VisibleAt(facts, host))
  {
    hide LineageKey, RecordKey, NormalizeHostname, Index, OneDesiredPerHost, OneManagedPerHost, NoBars,
         ManagedAt, DesiredAt, VisibleOn, WithKey, OnlyHostInCommon, CanUpdate;
    var vs := VisibleAt(facts, host);
    assert |VisibleOn(facts.output, facts.visible, host)| <= 1;
    ListedByOutput(facts.output, facts.visible, host);
    var d, m := DesiredAt(facts, host), ManagedAt(facts, host);
    if m.Some? {
      WithKeyAlone(facts.output, vs, ManagedKey(m.value));
    }
    if d.Some? {
      WithKeyAlone(facts.output, vs, DesiredKey(d.value));
    }
  }

  lemma ListedByOutput(output: ProviderRef, records: seq<VisibleRecord>, host: string)
    ensures forall v :: v in VisibleOn(output, records, host) ==>
      v in records && v.output == output && VisibleHost(v) == host
  {
    hide NormalizeHostname;
  }

  /** A successful call leaves its hostname stable. */
  lemma CalledIsStable(
    r: RemoteState, desired: Option<DesiredRecord>, cell: Option<ManagedRecord>, vs: seq<VisibleRecord>, c: Call, now: int)
    requires |vs| <= 1 && forall v :: v in vs ==> v.output == r.provider
    requires FateOf(r.provider, desired, cell, vs) == Called(c)
    ensures Targets(c, vs) && Continues(r.provider, c, cell)
    ensures c.DeleteCall? <==> desired == None
    ensures !c.DeleteCall? ==> desired == Some(c.to)
    ensures Stable(r.provider, desired, Booked(r.provider, c, Response(r, c), now), Listed(r, c))
  {
    hide LineageKey, RecordKey, NormalizeHostname, WithKey, OnlyHostInCommon, CanUpdate;
    if cell.Some? {
      WithKeyAlone(r.provider, vs, ManagedKey(cell.value));
    }
    if desired.Some? {
      WithKeyAlone(r.provider, vs, DesiredKey(desired.value));
      if Listed(r, c) != [] {
        WithKeyAlone(r.provider, Listed(r, c), DesiredKey(desired.value));
      }
    }
  }

  // ---- The run of one pass ------------------------------------------------------------------------------

  lemma PendingIsCalled(facts: Facts, plan: Plan, k: nat, host: string)
    requires Orderly(facts) && IsPlan(facts, plan)
    requires Pending(Calls(facts.output, plan), k, host)
    ensures FateAt(facts, host).Called?
  {
    hide HostOf, Calls, FateAt, IsPlan, Orderly;
    var calls := Calls(facts.output, plan);
    var i :| k <= i < |calls| && HostOf(calls[i]) == host;
    CallsByFate(facts, plan, calls[i]);
  }

  lemma CalledIsPending(facts: Facts, plan: Plan, host: string)
    requires Orderly(facts) && IsPlan(facts, plan) && FateAt(facts, host).Called?
    requires HostOf(FateAt(facts, host).call) == host
    ensures Pending(Calls(facts.output, plan), 0, host)
  {
    hide HostOf, Calls, FateAt, IsPlan, Orderly;
    CallsByFate(facts, plan, FateAt(facts, host).call);
  }

  lemma CallOfHost(facts: Facts, host: string)
    requires Orderly(facts) && FateAt(facts, host).Called?
    ensures HostOf(FateAt(facts, host).call) == host
  {
    hide LineageKey, RecordKey, NormalizeHostname, Index, NoAmbiguity, OneDesiredPerHost, OneManagedPerHost, CanUpdate,
         Replaced, OnlyHostInCommon, NoBars, ManagedAt, DesiredAt, VisibleAt;
    FateOfOwned(facts, host);
    if DesiredAt(facts, host).Some? {
      DesiredAtIsWinner(facts, host);
    }
  }

  ghost predicate StartsFrom(facts: Facts, remote: RemoteState) {
    remote.provider == facts.output && remote.records == facts.visible
  }

  /** In front of the first call. */
  lemma SettledAtStart(facts: Facts, plan: Plan, now: int, remote: RemoteState)
    requires Tidy(facts) && IsPlan(facts, plan) && StartsFrom(facts, remote)
    ensures PlanFits(facts.output, plan)
    ensures SettledUpTo(facts, Calls(facts.output, plan), 0, now,
                        World(remote, Base(facts.output, facts.managed, plan, now)))
  {
    hide ManagedLineage, NormalizeHostname, Calls, IsPlan, FateAt, Base, OneDesiredPerHost, OneManagedPerHost, Stable,
         CellOf, ManagedAt, DesiredAt, VisibleOn, Pending;
    TidyIsOrderly(facts);
    forall m | m in plan.nextManaged ensures m.output == facts.output {
      KeepsByFate(facts, plan, m);
    }
    var calls := Calls(facts.output, plan);
    var base := Base(facts.output, facts.managed, plan, now);
    var w := World(remote, base);
    BaseOwnKeys(facts.output, facts.managed, plan, now);
    BaseCells(facts, plan, now);
    CellsAreOnePerHost(facts.output, base, SettledCells(facts, now));
    forall l | l in base ensures BarFreeManaged(base[l]) {
      BaseEntry(facts, plan, now, l);
      SettledIsBarFree(facts, now, ManagedHost(base[l]));
    }
    forall host ensures CellOf(base, host) == Settled(facts, now, host) {
      assert CellOf(base, host) == SettledCells(facts, now)(host);
    }
    forall host | Pending(calls, 0, host) ensures IsAsBefore(facts, w, host) {
      PendingIsCalled(facts, plan, 0, host);
    }
    forall host | !Pending(calls, 0, host) ensures IsStable(facts, w, host) {
      if FateAt(facts, host).Called? {
        CallOfHost(facts, host);
        CalledIsPending(facts, plan, host);
      }
      SettledIsStable(facts, now, host);
    }
  }

  lemma SettledIsBarFree(facts: Facts, now: int, host: string)
    requires Orderly(facts) && Settled(facts, now, host).Some?
    ensures BarFreeManaged(Settled(facts, now, host).value)
  {
    hide NormalizeHostname, FateAt, ManagedAt, Orderly;
    FateOfOwned(facts, host);
  }

  /** Distinct calls of a plan concern distinct hostnames. */
  lemma HostsAreDistinct(facts: Facts, plan: Plan, i: nat, j: nat)
    requires Orderly(facts) && IsPlan(facts, plan) && i < j < |Calls(facts.output, plan)|
    ensures HostOf(Calls(facts.output, plan)[i]) != HostOf(Calls(facts.output, plan)[j])
  {
    hide HostOf, Calls, FateAt, IsPlan, Orderly;
    var calls := Calls(facts.output, plan);
    CallsByFate(facts, plan, calls[i]);
    CallsByFate(facts, plan, calls[j]);
    CallsAreDistinct(facts, plan);
  }

  /** The records after a successful call, for all hostnames at once, whatever the output answered. */
  lemma AfterCells(output: ProviderRef, recs: Lineages, c: Call, response: Option<RecordProvenance>, now: int)
    requires OwnKeys(output, recs) && OneRecordPerHost(recs) && BarFreeRecords(recs)
    requires BarFreeRef(output) && BarFreeCall(c) && Continues(output, c, CellOf(recs, HostOf(c)))
    ensures var next := Commit(output, recs, c, response, now);
      && OwnKeys(output, next) && OneRecordPerHost(next) && BarFreeRecords(next)
      && forall host :: CellOf(next, host)
           == if host == HostOf(c) then Booked(output, c, response, now) else CellOf(recs, host)
  {
    hide LineageKey, NormalizeHostname, CellOf, Commit, Booked, CellIs, OwnKeys, OneRecordPerHost, BarFreeRecords,
         BarFreeCall, Continues;
    var next := Commit(output, recs, c, response, now);
    var cells := (host: string) =>
      if host == HostOf(c) then Booked(output, c, response, now) else CellOf(recs, host);
    CommitOwnKeys(output, recs, c, response, now);
    forall host ensures CellIs(next, host, cells(host)) {
      CommitCell(output, recs, c, response, now, host);
    }
    CommitCell(output, recs, c, response, now, HostOf(c));
    CellsAreOnePerHost(output, next, cells);
    forall host ensures CellOf(next, host)
           == if host == HostOf(c) then Booked(output, c, response, now) else CellOf(recs, host)
    {
      assert CellOf(next, host) == cells(host);
    }
  }

  /** The listing after a successful call, for all hostnames at once. */
  lemma AfterListing(r: RemoteState, c: Call)
    requires OneVisiblePerHost(r.provider, r.records)
    requires Targets(c, VisibleOn(r.provider, r.records, HostOf(c)))
    requires forall v :: v in r.records && v.output == r.provider ==> BarFree(v.hostname)
    requires BarFreeCall(c)
    ensures Possible(r, c) && Mutate(r, c).provider == r.provider
    ensures OneVisiblePerHost(r.provider, Mutate(r, c).records)
    ensures forall v :: v in Mutate(r, c).records && v.output == r.provider ==> BarFree(v.hostname)
    ensures forall host ::
      VisibleOn(r.provider, Mutate(r, c).records, host)
      == if host == HostOf(c) then Listed(r, c) else VisibleOn(r.provider, r.records, host)
  {
    hide VisibleOn, HostOf, Targets;
    MutateListing(r, c, HostOf(c));
    forall host ensures && |VisibleOn(r.provider, Mutate(r, c).records, host)| <= 1
                        && VisibleOn(r.provider, Mutate(r, c).records, host)
                        == if host == HostOf(c) then Listed(r, c) else VisibleOn(r.provider, r.records, host)
    {
      MutateListing(r, c, host);
      assert |VisibleOn(r.provider, r.records, host)| <= 1;
    }
  }

  /** One more call succeeds: the next hostname settles. */
  lemma SettledStep(facts: Facts, plan: Plan, k: nat, now: int, w: World)
    requires Tidy(facts) && IsPlan(facts, plan)
    requires k < |Calls(facts.output, plan)| && SettledUpTo(facts, Calls(facts.output, plan), k, now, w)
    ensures var c := Calls(facts.output, plan)[k];
      Possible(w.remote, c) && SettledUpTo(facts, Calls(facts.output, plan), k + 1, now, After(w, c, now))
  {
    hide HostOf, Calls, IsPlan, Mutate, Possible, Commit, Response, CellOf, VisibleOn, DesiredAt, ManagedAt, Stable,
         Targets, Continues, Settled, FateOf, OneDesiredPerHost, OneManagedPerHost, OwnKeys, OneRecordPerHost,
         BarFreeRecords, BarFreeCall, Booked, Listed, BarFree;
    TidyIsOrderly(facts);
    var output, calls := facts.output, Calls(facts.output, plan);
    var c := calls[k];
    var own := HostOf(c);
    assert Pending(calls, k, own);
    CallsByFate(facts, plan, c);
    CallHasBarFreeRecords(facts, c);
    ListedByOutput(output, w.remote.records, own);
    assert |VisibleOn(output, w.remote.records, own)| <= 1;
    CalledIsStable(w.remote, DesiredAt(facts, own), CellOf(w.recs, own), VisibleOn(output, w.remote.records, own), c, now);
    AfterListing(w.remote, c);
    AfterCells(output, w.recs, c, Response(w.remote, c), now);
    OwnIsDone(facts, plan, k);
    var next := After(w, c, now);
    assert IsStable(facts, next, own);
    forall host | Pending(calls, k + 1, host) ensures IsAsBefore(facts, next, host) {
      PendingNext(calls, k, host);
    }
    forall host | !Pending(calls, k + 1, host) ensures IsStable(facts, next, host) {
      PendingNext(calls, k, host);
    }
  }

  lemma CallHasBarFreeRecords(facts: Facts, c: Call)
    requires Orderly(facts) && FateAt(facts, HostOf(c)) == Called(c)
    ensures BarFreeCall(c) && BarFreeRef(facts.output)
  {
    hide HostOf, FateAt, OneDesiredPerHost, OneManagedPerHost, NoAmbiguity, BarFreeDesired;
    CallIsBarFree(facts, c);
  }

  lemma PendingNext(calls: seq<Call>, k: nat, host: string)
    requires k < |calls|
    ensures Pending(calls, k, host) <==> Pending(calls, k + 1, host) || host == HostOf(calls[k])
  {
    hide HostOf;
  }

  lemma OwnIsDone(facts: Facts, plan: Plan, k: nat)
    requires Orderly(facts) && IsPlan(facts, plan) && k < |Calls(facts.output, plan)|
    ensures !Pending(Calls(facts.output, plan), k + 1, HostOf(Calls(facts.output, plan)[k]))
  {
    hide HostOf, Calls, IsPlan, Orderly;
    var calls := Calls(facts.output, plan);
    forall i | k + 1 <= i < |calls| ensures HostOf(calls[i]) != HostOf(calls[k]) {
      HostsAreDistinct(facts, plan, k, i);
    }
  }

  ghost function StartOf(facts: Facts, plan: Plan, now: int, remote: RemoteState): World {
    World(remote, Base(facts.output, facts.managed, plan, now))
  }

  /** The state after the first `k` calls of the plan. */
  ghost function StateAt(facts: Facts, plan: Plan, now: int, remote: RemoteState, k: nat): World
    requires k <= |Calls(facts.output, plan)|
  {
    RunCalls(StartOf(facts, plan, now, remote), Calls(facts.output, plan)[..k], now)
  }

  /** Every prefix of the calls can run, and leaves H3 and H4 intact and the hostnames done so far stable. */
  lemma {:induction false} PrefixSettles(facts: Facts, plan: Plan, now: int, remote: RemoteState, k: nat)
    requires Tidy(facts) && IsPlan(facts, plan) && StartsFrom(facts, remote)
    requires k <= |Calls(facts.output, plan)|
    ensures Runs(StartOf(facts, plan, now, remote), Calls(facts.output, plan)[..k], now)
    ensures SettledUpTo(facts, Calls(facts.output, plan), k, now, StateAt(facts, plan, now, remote, k))
  {
    hide Calls, IsPlan, Base, SettledUpTo, Tidy, Possible, Mutate, After;
    var calls := Calls(facts.output, plan);
    if k == 0 {
      SettledAtStart(facts, plan, now, remote);
      assert calls[..0] == [];
    } else {
      PrefixSettles(facts, plan, now, remote, k - 1);
      SettledStep(facts, plan, k - 1, now, StateAt(facts, plan, now, remote, k - 1));
      assert calls[..k][..k - 1] == calls[..k - 1] && calls[..k][k - 1] == calls[k - 1];
    }
  }
}
