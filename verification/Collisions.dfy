/** Without H2 and H4: which prefixes of a pass can be made, and which of them leave an ambiguous listing. */
module Collisions {
  import opened Records
  import opened Keys
  import opened Seqs
  import opened Planner
  import opened Remote
  import opened Apply
  import opened Fates
  import opened Refinement
  import opened Replay
  import opened Safety

  // ---- Ambiguity, hostname by hostname ---------------------------------------------------------------------

  ghost predicate DistinctKeys(vs: seq<VisibleRecord>) {
    forall i, j :: 0 <= i < j < |vs| ==> VisibleKey(vs[i]) != VisibleKey(vs[j])
  }

  ghost predicate BarFreeListing(output: ProviderRef, records: seq<VisibleRecord>) {
    forall v :: v in records && v.output == output ==> BarFree(v.hostname)
  }

  /** The records with a key are found among those of the key's hostname. */
  lemma KeyWithinHost(output: ProviderRef, records: seq<VisibleRecord>, v: VisibleRecord)
    requires BarFreeListing(output, records) && v in records && v.output == output
    ensures Filter(VisibleOn(output, records, VisibleHost(v)), Matching(ListedBy(output), VisibleKey, VisibleKey(v)))
         == Filter(records, Matching(ListedBy(output), VisibleKey, VisibleKey(v)))
  {
    var strong := Matching(ListedBy(output), VisibleKey, VisibleKey(v));
    var weak := Matching(ListedBy(output), VisibleHost, VisibleHost(v));
    forall x | x in records && strong(x) ensures weak(x) {
      RecordKeyFaithful(x.hostname, x.answer, v.hostname, v.answer);
    }
    hide RecordKey, NormalizeHostname;
    FilterThrough(records, weak, strong);
  }

  /** A listing is unambiguous exactly when every hostname's records have distinct keys. */
  lemma UnambiguousByHost(facts: Facts)
    requires BarFreeListing(facts.output, facts.visible)
    ensures NoAmbiguity(facts) <==> forall host :: DistinctKeys(VisibleAt(facts, host))
  {
    hide RecordKey, NormalizeHostname, GroupBy, VisibleOn;
    if NoAmbiguity(facts) {
      forall host ensures DistinctKeys(VisibleAt(facts, host)) {
        UnambiguousHost(facts, host);
      }
    }
    if forall host :: DistinctKeys(VisibleAt(facts, host)) {
      forall k ensures |Lookup(Index(facts).byKey, k)| <= 1 {
        DistinctIsUnambiguous(facts, k);
      }
    }
  }

  lemma UnambiguousHost(facts: Facts, host: string)
    requires BarFreeListing(facts.output, facts.visible) && NoAmbiguity(facts)
    ensures DistinctKeys(VisibleAt(facts, host))
  {
    hide RecordKey, NormalizeHostname, GroupBy;
    var vs := VisibleAt(facts, host);
    forall i, j | 0 <= i < j < |vs| ensures VisibleKey(vs[i]) != VisibleKey(vs[j]) {
      var k := VisibleKey(vs[i]);
      assert vs[i] in vs && vs[j] in vs;
      GroupByIsScan(facts.visible, ListedBy(facts.output), VisibleKey, k);
      assert |Lookup(Index(facts).byKey, k)| <= 1;
      KeyWithinHost(facts.output, facts.visible, vs[i]);
      if VisibleKey(vs[j]) == k {
        FilterTwo(vs, Matching(ListedBy(facts.output), VisibleKey, k), i, j);
      }
    }
  }

  lemma DistinctIsUnambiguous(facts: Facts, k: string)
    requires BarFreeListing(facts.output, facts.visible)
    requires forall host :: DistinctKeys(VisibleAt(facts, host))
    ensures |Lookup(Index(facts).byKey, k)| <= 1
  {
    hide RecordKey, NormalizeHostname, GroupBy, VisibleOn;
    var p := Matching(ListedBy(facts.output), VisibleKey, k);
    GroupByIsScan(facts.visible, ListedBy(facts.output), VisibleKey, k);
    var found := Filter(facts.visible, p);
    if |found| >= 2 {
      assert found[0] in found;
      KeyWithinHost(facts.output, facts.visible, found[0]);
      var vs := VisibleAt(facts, VisibleHost(found[0]));
      var i, j := FilterPair(vs, p);
      assert DistinctKeys(vs);
    }
  }

  // ---- Keys are conserved ------------------------------------------------------------------------------------

  /** The output's records with the key. */
  function Keyed(output: ProviderRef, records: seq<VisibleRecord>, key: string): seq<VisibleRecord> {
    Filter(records, Matching(ListedBy(output), VisibleKey, key))
  }

  /** The calls that change or remove a record with the key. */
  function Takes(key: string): Call -> bool {
    (c: Call) => TargetOf(c).Some? && VisibleKey(TargetOf(c).value) == key
  }

  /** The calls that leave a record with the key behind. */
  function Puts(key: string): Call -> bool {
    (c: Call) => !c.DeleteCall? && DesiredKey(c.to) == key
  }

  function OneIf(b: bool): nat {
    if b then 1 else 0
  }

  lemma KeyedOne(output: ProviderRef, v: VisibleRecord, key: string)
    ensures |Keyed(output, [v], key)| == OneIf(v.output == output && VisibleKey(v) == key)
  {
    FilterSingle(v, Matching(ListedBy(output), VisibleKey, key));
  }

  lemma KeyedConcat(output: ProviderRef, a: seq<VisibleRecord>, b: seq<VisibleRecord>, key: string)
    ensures |Keyed(output, a + b, key)| == |Keyed(output, a, key)| + |Keyed(output, b, key)|
  {
    FilterConcat(a, b, Matching(ListedBy(output), VisibleKey, key));
  }

  lemma KeyedSplit(output: ProviderRef, records: seq<VisibleRecord>, i: nat, insert: seq<VisibleRecord>, key: string)
    requires i < |records|
    ensures |Keyed(output, records, key)| + |Keyed(output, insert, key)|
         == |Keyed(output, records[..i] + insert + records[i + 1..], key)| + |Keyed(output, [records[i]], key)|
  {
    hide Keyed;
    var front, back := records[..i], records[i + 1..];
    assert records == front + [records[i]] + back;
    KeyedConcat(output, front + [records[i]], back, key);
    KeyedConcat(output, front, [records[i]], key);
    KeyedConcat(output, front + insert, back, key);
    KeyedConcat(output, front, insert, key);
  }

  /** The call is aimed at a record of the output. */
  predicate Fits(output: ProviderRef, c: Call) {
    TargetOf(c).Some? ==> TargetOf(c).value.output == output
  }

  lemma MutateBalance(r: RemoteState, c: Call, key: string)
    requires Possible(r, c) && Fits(r.provider, c)
    ensures Mutate(r, c).provider == r.provider
    ensures |Keyed(r.provider, Mutate(r, c).records, key)| + OneIf(Takes(key)(c))
         == |Keyed(r.provider, r.records, key)| + OneIf(Puts(key)(c))
  {
    hide RecordKey, Keyed;
    match c {
      case CreateCall(to, _) =>
        var x := VisibleRecord(r.provider, to.hostname, to.answer, NewProvenance(r));
        KeyedConcat(r.provider, r.records, [x], key);
        KeyedOne(r.provider, x, key);
      case UpdateCall(from, to, _) =>
        var x, i := VisibleRecord(r.provider, to.hostname, to.answer, from.provenance), IndexOf(r.records, from);
        assert r.records[i := x] == r.records[..i] + [x] + r.records[i + 1..];
        KeyedSplit(r.provider, r.records, i, [x], key);
        KeyedOne(r.provider, x, key);
        KeyedOne(r.provider, from, key);
      case DeleteCall(visible, _) =>
        var i := IndexOf(r.records, visible);
        assert r.records[..i] + [] + r.records[i + 1..] == r.records[..i] + r.records[i + 1..];
        KeyedSplit(r.provider, r.records, i, [], key);
        KeyedOne(r.provider, visible, key);
        NoneKeyed(r.provider, key);
    }
  }

  lemma NoneKeyed(output: ProviderRef, key: string)
    ensures Keyed(output, [], key) == []
  {
  }

  lemma FilterLast<T(!new)>(xs: seq<T>, p: T -> bool)
    requires xs != []
    ensures |Filter(xs, p)| == |Filter(xs[..|xs| - 1], p)| + OneIf(p(xs[|xs| - 1]))
  {
  }

  /** Whatever the calls are: the records with a key, and those that were taken, are those there were and those put. */
  lemma {:induction false} KeyBalance(w: World, calls: seq<Call>, now: int, key: string)
    requires Runs(w, calls, now) && forall c :: c in calls ==> Fits(w.remote.provider, c)
    ensures var after := RunCalls(w, calls, now).remote;
      && after.provider == w.remote.provider
      && |Keyed(after.provider, after.records, key)| + |Filter(calls, Takes(key))|
         == |Keyed(w.remote.provider, w.remote.records, key)| + |Filter(calls, Puts(key))|
  {
    hide Keyed, Takes, Puts, Fits, Mutate, Possible, Commit;
    if calls != [] {
      var n := |calls| - 1;
      KeyBalance(w, calls[..n], now, key);
      assert calls[n] in calls;
      MutateBalance(RunCalls(w, calls[..n], now).remote, calls[n], key);
      FilterLast(calls, Takes(key));
      FilterLast(calls, Puts(key));
    }
  }

  /** A record that no call is aimed at stays. */
  lemma {:induction false} Survives(w: World, calls: seq<Call>, now: int, v: VisibleRecord)
    requires v in w.remote.records && forall c :: c in calls ==> TargetOf(c) != Some(v)
    ensures v in RunCalls(w, calls, now).remote.records
  {
    hide Mutate, Possible, Commit, TargetOf;
    if calls != [] {
      var n := |calls| - 1;
      Survives(w, calls[..n], now, v);
      assert calls[n] in calls;
      if Possible(RunCalls(w, calls[..n], now).remote, calls[n]) {
        OtherStays(RunCalls(w, calls[..n], now).remote, calls[n], v);
      }
    }
  }

  lemma OtherStays(r: RemoteState, c: Call, v: VisibleRecord)
    requires Possible(r, c) && v in r.records && TargetOf(c) != Some(v)
    ensures v in Mutate(r, c).records
  {
    var k :| 0 <= k < |r.records| && r.records[k] == v;
    match c {
      case CreateCall(_, _) => assert Mutate(r, c).records[k] == v;
      case UpdateCall(from, _, _) => assert Mutate(r, c).records[k] == v;
      case DeleteCall(visible, _) =>
        var i := IndexOf(r.records, visible);
        assert Mutate(r, c).records[if k < i then k else k - 1] == v;
    }
  }

  lemma UnambiguousByCount(facts: Facts)
    ensures NoAmbiguity(facts) <==> forall key :: |Keyed(facts.output, facts.visible, key)| <= 1
  {
    hide VisibleKey, GroupBy, Filter;
    forall key ensures Lookup(Index(facts).byKey, key) == Keyed(facts.output, facts.visible, key) {
      GroupByIsScan(facts.visible, ListedBy(facts.output), VisibleKey, key);
    }
  }

  // ---- The calls of a plan -------------------------------------------------------------------------------------

  /** H1, H3 and an unambiguous listing. */
  ghost predicate Unambiguous(facts: Facts) {
    NoBars(facts) && OneManagedPerHost(facts.output, facts.managed) && NoAmbiguity(facts)
  }

  /** What its hostname's records say of a call. */
  ghost predicate DecidedAtHost(facts: Facts, c: Call) {
    var host := HostOf(c);
    var m, vs := ManagedAt(facts, host), VisibleAt(facts, host);
    match c
    case CreateCall(to, _) =>
      DesiredAt(facts, host).Some? && BarFree(to.hostname) && vs == []
    case UpdateCall(from, to, _) =>
      && DesiredAt(facts, host).Some? && BarFree(to.hostname)
      && exists replaced :: FateOf(facts.output, Some(to), m, vs) == Called(UpdateCall(from, to, replaced))
    case DeleteCall(_, _) =>
      DesiredAt(facts, host).None? && FateOf(facts.output, None, m, vs) == Called(c)
  }

  lemma WinnerIsSome(facts: Facts, d: DesiredRecord)
    requires IsDesired(facts.output, Index(facts), Index(facts).desired.Keys, d)
    ensures DesiredAt(facts, DesiredHost(d)).Some?
  {
    hide DesiredLineage, NormalizeHostname, Index;
  }

  lemma DesiredIsDecided(facts: Facts, c: Call)
    requires Unambiguous(facts) && !c.DeleteCall?
    requires IsDesired(facts.output, Index(facts), Index(facts).desired.Keys, c.to)
    requires var decision := Decide(facts.output, Index(facts), c.to);
      match c
      case CreateCall(_, _) => decision.Create?
      case UpdateCall(from, _, _) => decision.Update? && decision.from == from
      case DeleteCall(_, _) => false
    ensures DecidedAtHost(facts, c)
  {
    hide DesiredHost, Index, VisibleAt, IsDesired, OneManagedPerHost, NoBars, ManagedAt, DesiredAt, NoAmbiguity, FateOf,
         Decide, BarFreeSource, BarFree;
    WinnerIsSome(facts, c.to);
    WinnerIsBarFree(facts, c.to);
    DecideByHost(facts, c.to);
    if c.CreateCall? {
      var replaced := Decide(facts.output, Index(facts), c.to).replaced;
      TargetHasHost(facts.output, Some(c.to), ManagedAt(facts, HostOf(c)), VisibleAt(facts, HostOf(c)),
                    CreateCall(c.to, replaced));
    }
  }

  lemma StaleIsDecided(facts: Facts, c: Call)
    requires Unambiguous(facts) && c.DeleteCall?
    requires ToDelete(facts.output, Index(facts), Index(facts).owned.Keys)(DeleteStep(c.visible, c.managed))
    ensures DecidedAtHost(facts, c)
  {
    hide ManagedHost, Index, VisibleAt, OneManagedPerHost, NoBars, ManagedAt, DesiredAt, NoAmbiguity, FateOf, DecideStale,
         IsStale;
    StaleInIsStale(facts, c.managed);
    StaleIsUndesired(facts, c.managed);
    DecideStaleIsFate(facts, c.managed);
  }

  /** Every call was decided from the records of its hostname. */
  lemma CallIsDecided(facts: Facts, plan: Plan, c: Call)
    requires Unambiguous(facts) && IsPlan(facts, plan) && c in Calls(facts.output, plan)
    ensures DecidedAtHost(facts, c)
  {
    hide Unambiguous, DecidedAtHost, Index, Decide, IsDesired, ToDelete, ToKeep, StalePart, DropsOf, SortedBy,
         DesiredLineage;
    var ix := Index(facts);
    match c {
      case CreateCall(to, _) =>
        assert to in plan.creates;
        assert ToCreate(facts.output, ix, ix.desired.Keys)(to);
        DesiredIsDecided(facts, c);
      case UpdateCall(from, to, _) =>
        assert UpdateStep(from, to) in plan.updates;
        assert ToUpdate(facts.output, ix, ix.desired.Keys)(UpdateStep(from, to));
        DesiredIsDecided(facts, c);
      case DeleteCall(visible, managed) =>
        DeletesAreCalled(facts.output, plan, DeleteStep(visible, managed));
        DeletesAreDecided(facts, plan, DeleteStep(visible, managed));
        StaleIsDecided(facts, c);
    }
  }

  /** Everything updated under one hostname starts from the same record. */
  lemma UpdatesShare(
    output: ProviderRef, m: Option<ManagedRecord>, vs: seq<VisibleRecord>, a: Call, b: Call, to: DesiredRecord,
    other: DesiredRecord)
    requires a.UpdateCall? && FateOf(output, Some(to), m, vs) == Called(a)
    requires b.UpdateCall? && FateOf(output, Some(other), m, vs) == Called(b)
    ensures a.from == b.from
  {
    hide LineageKey, RecordKey, NormalizeHostname, CanUpdate, OnlyHostInCommon, WithKey;
    WithKeyOfOne(output, vs, ManagedKey(m.value));
  }

  lemma WithKeyOfOne(output: ProviderRef, vs: seq<VisibleRecord>, key: string)
    ensures |vs| == 1 && WithKey(output, vs, key).Some? ==> WithKey(output, vs, key).value == vs[0]
  {
    WithKeyHasKey(output, vs, key);
  }

  lemma UpdateChangesKey(
    output: ProviderRef, desired: Option<DesiredRecord>, managed: Option<ManagedRecord>, vs: seq<VisibleRecord>, c: Call)
    requires FateOf(output, desired, managed, vs) == Called(c) && c.UpdateCall?
    ensures VisibleKey(c.from) != DesiredKey(c.to)
  {
    hide LineageKey, RecordKey, NormalizeHostname, CanUpdate, OnlyHostInCommon, WithKey;
    if managed.Some? {
      WithKeyHasKey(output, vs, ManagedKey(managed.value));
    }
  }

  /** Under one hostname there are only creates, or only updates of one record, or a single delete. */
  lemma SameHostSameKind(facts: Facts, a: Call, b: Call)
    requires DecidedAtHost(facts, a) && DecidedAtHost(facts, b) && HostOf(a) == HostOf(b)
    ensures a.CreateCall? ==> b.CreateCall?
    ensures a.UpdateCall? ==> b.UpdateCall? && a.from == b.from
    ensures a.DeleteCall? ==> a == b
  {
    hide HostOf, FateOf, ManagedAt, DesiredAt, VisibleAt;
    var m, vs := ManagedAt(facts, HostOf(a)), VisibleAt(facts, HostOf(a));
    if a.UpdateCall? {
      var r :| FateOf(facts.output, Some(a.to), m, vs) == Called(UpdateCall(a.from, a.to, r));
      TargetHasHost(facts.output, Some(a.to), m, vs, UpdateCall(a.from, a.to, r));
      if b.UpdateCall? {
        var s :| FateOf(facts.output, Some(b.to), m, vs) == Called(UpdateCall(b.from, b.to, s));
        UpdatesShare(facts.output, m, vs, UpdateCall(a.from, a.to, r), UpdateCall(b.from, b.to, s), a.to, b.to);
      }
    } else if b.UpdateCall? && a.CreateCall? {
      var s :| FateOf(facts.output, Some(b.to), m, vs) == Called(UpdateCall(b.from, b.to, s));
      TargetHasHost(facts.output, Some(b.to), m, vs, UpdateCall(b.from, b.to, s));
    }
  }

  /** The target of a call is listed under the call's hostname. An update changes the key, a create meets nothing. */
  lemma CallsAim(facts: Facts, c: Call)
    requires DecidedAtHost(facts, c)
    ensures Fits(facts.output, c)
    ensures TargetOf(c).Some? ==> TargetOf(c).value in facts.visible && VisibleHost(TargetOf(c).value) == HostOf(c)
    ensures c.UpdateCall? ==> VisibleKey(c.from) != DesiredKey(c.to)
    ensures c.CreateCall? ==> VisibleAt(facts, HostOf(c)) == []
  {
    hide HostOf, FateOf, ManagedAt, DesiredAt, VisibleOn, VisibleKey, VisibleHost, DesiredKey;
    var m, vs := ManagedAt(facts, HostOf(c)), VisibleAt(facts, HostOf(c));
    ListedByOutput(facts.output, facts.visible, HostOf(c));
    match c {
      case CreateCall(_, _) =>
      case UpdateCall(from, to, _) =>
        var r :| FateOf(facts.output, Some(to), m, vs) == Called(UpdateCall(from, to, r));
        TargetHasHost(facts.output, Some(to), m, vs, UpdateCall(from, to, r));
        UpdateChangesKey(facts.output, Some(to), m, vs, UpdateCall(from, to, r));
      case DeleteCall(_, _) =>
        TargetHasHost(facts.output, None, m, vs, c);
    }
  }

  lemma KeyOfHost(facts: Facts, v: VisibleRecord, d: DesiredRecord)
    requires NoBars(facts) && v in facts.visible && v.output == facts.output && BarFree(d.hostname)
    ensures VisibleKey(v) == DesiredKey(d) ==> VisibleHost(v) == DesiredHost(d)
  {
    RecordKeyFaithful(v.hostname, v.answer, d.hostname, d.answer);
  }

  lemma PutIsBarFree(facts: Facts, c: Call)
    requires DecidedAtHost(facts, c) && !c.DeleteCall?
    ensures BarFree(c.to.hostname) && HostOf(c) == DesiredHost(c.to)
  {
    hide FateOf, ManagedAt, DesiredAt, VisibleOn, BarFree, NormalizeHostname;
  }

  /** No call takes a key that a call puts. */
  lemma PutIsNotTaken(facts: Facts, c: Call, x: Call)
    requires NoBars(facts) && DecidedAtHost(facts, c) && DecidedAtHost(facts, x) && !c.DeleteCall?
    ensures !Takes(DesiredKey(c.to))(x)
  {
    hide NoBars, HostOf, DecidedAtHost, VisibleKey, VisibleHost, DesiredKey, DesiredHost;
    if Takes(DesiredKey(c.to))(x) {
      CallsAim(facts, x);
      PutIsBarFree(facts, c);
      KeyOfHost(facts, TargetOf(x).value, c.to);
      SameHostSameKind(facts, c, x);
      CallsAim(facts, c);
    }
  }

  // ---- Which prefixes can be made --------------------------------------------------------------------------------

  /** Two of the first calls update the same record. */
  ghost predicate SharesTarget(calls: seq<Call>, k: nat)
    requires k <= |calls|
  {
    exists i, j :: 0 <= i < j < k && calls[i].UpdateCall? && calls[j].UpdateCall? && calls[i].from == calls[j].from
  }

  lemma PrefixRuns(w: World, calls: seq<Call>, now: int, j: nat)
    requires j < |calls| && Runs(w, calls, now)
    ensures Runs(w, calls[..j], now) && Possible(RunCalls(w, calls[..j], now).remote, calls[j])
  {
    hide Possible, Mutate, Commit;
    var n := |calls| - 1;
    if j < n {
      PrefixRuns(w, calls[..n], now, j);
      assert calls[..n][..j] == calls[..j];
    }
  }

  lemma AllDecided(facts: Facts, plan: Plan)
    requires Unambiguous(facts) && IsPlan(facts, plan)
    ensures forall c :: c in Calls(facts.output, plan) ==> DecidedAtHost(facts, c) && Fits(facts.output, c)
  {
    hide Unambiguous, IsPlan, DecidedAtHost, Calls, Fits;
    forall c | c in Calls(facts.output, plan) ensures DecidedAtHost(facts, c) && Fits(facts.output, c) {
      CallIsDecided(facts, plan, c);
      CallsAim(facts, c);
    }
  }

  /** Two calls with one target are updates. */
  lemma OneTarget(facts: Facts, a: Call, b: Call)
    requires DecidedAtHost(facts, a) && DecidedAtHost(facts, b) && a != b
    requires TargetOf(a).Some? && TargetOf(a) == TargetOf(b)
    ensures a.UpdateCall? && b.UpdateCall? && a.from == b.from
  {
    hide HostOf, DecidedAtHost, VisibleHost;
    CallsAim(facts, a);
    CallsAim(facts, b);
    SameHostSameKind(facts, a, b);
  }

  lemma NextCanBeMade(facts: Facts, plan: Plan, now: int, origin: RemoteState, k: nat)
    requires Unambiguous(facts) && IsPlan(facts, plan) && StartsFrom(facts, origin) && k < |Calls(facts.output, plan)|
    requires !SharesTarget(Calls(facts.output, plan), k + 1)
    ensures Possible(StateAt(facts, plan, now, origin, k).remote, Calls(facts.output, plan)[k])
  {
    hide Unambiguous, IsPlan, DecidedAtHost, Calls, Fits, TargetOf, RunCalls, Base;
    var calls := Calls(facts.output, plan);
    var target := TargetOf(calls[k]);
    AllDecided(facts, plan);
    CallsAreDistinct(facts, plan);
    CallsAim(facts, calls[k]);
    NeedsTarget(StateAt(facts, plan, now, origin, k).remote, calls[k]);
    if target.Some? {
      forall c | c in calls[..k] ensures TargetOf(c) != target {
        var i :| 0 <= i < k && calls[..k][i] == c;
        if TargetOf(c) == target {
          OneTarget(facts, calls[i], calls[k]);
        }
      }
      Survives(StartOf(facts, plan, now, origin), calls[..k], now, target.value);
    }
  }

  lemma NeedsTarget(r: RemoteState, c: Call)
    ensures Possible(r, c) <==> (TargetOf(c).Some? ==> TargetOf(c).value in r.records)
  {
  }

  lemma {:induction false} UnsharedRuns(facts: Facts, plan: Plan, now: int, origin: RemoteState, k: nat)
    requires Unambiguous(facts) && IsPlan(facts, plan) && StartsFrom(facts, origin) && k <= |Calls(facts.output, plan)|
    requires !SharesTarget(Calls(facts.output, plan), k)
    ensures Runs(StartOf(facts, plan, now, origin), Calls(facts.output, plan)[..k], now)
  {
    hide Unambiguous, IsPlan, Calls, Base, Possible, RunCalls;
    var calls := Calls(facts.output, plan);
    if k > 0 {
      UnsharedRuns(facts, plan, now, origin, k - 1);
      NextCanBeMade(facts, plan, now, origin, k - 1);
      assert calls[..k][..k - 1] == calls[..k - 1] && calls[..k][k - 1] == calls[k - 1];
    }
  }

  /** The second update of a record finds its target gone. */
  lemma SharedIsGone(facts: Facts, plan: Plan, now: int, origin: RemoteState, i: nat, j: nat)
    requires Unambiguous(facts) && IsPlan(facts, plan) && StartsFrom(facts, origin) && i < j < |Calls(facts.output, plan)|
    requires var calls := Calls(facts.output, plan);
      calls[i].UpdateCall? && calls[j].UpdateCall? && calls[i].from == calls[j].from
    requires Runs(StartOf(facts, plan, now, origin), Calls(facts.output, plan)[..j], now)
    ensures !Possible(StateAt(facts, plan, now, origin, j).remote, Calls(facts.output, plan)[j])
  {
    hide IsPlan, DecidedAtHost, Calls, Fits, RunCalls, Base, NoBars, OneManagedPerHost, NoAmbiguity, VisibleKey, DesiredKey,
         Runs, Filter;
    var calls, w := Calls(facts.output, plan), StartOf(facts, plan, now, origin);
    var from := calls[i].from;
    var key, r := VisibleKey(from), StateAt(facts, plan, now, origin, j).remote;
    AllDecided(facts, plan);
    CallsAim(facts, calls[i]);
    assert Fits(facts.output, calls[i]);
    KeyBalance(w, calls[..j], now, key);
    UnambiguousByCount(facts);
    assert |Keyed(facts.output, facts.visible, key)| <= 1;
    assert calls[..j][i] == calls[i];
    FilterHas(calls[..j], Takes(key), calls[i]);
    forall c | c in calls[..j] ensures !Puts(key)(c) {
      if Puts(key)(c) {
        PutIsNotTaken(facts, c, calls[i]);
      }
    }
    FilterNone(calls[..j], Puts(key));
    FitsOutput(facts.output, calls[i]);
    if from in r.records {
      FilterHas(r.records, Matching(ListedBy(facts.output), VisibleKey, key), from);
    }
  }

  lemma FitsOutput(output: ProviderRef, c: Call)
    requires Fits(output, c) && c.UpdateCall?
    ensures c.from.output == output
  {
  }

  /** Under H1, H3 and an unambiguous listing a prefix of the calls can be made exactly if no two of its updates start
      from the same record. */
  lemma RunsExactly(facts: Facts, plan: Plan, now: int, origin: RemoteState, k: nat)
    requires Unambiguous(facts) && IsPlan(facts, plan) && StartsFrom(facts, origin) && k <= |Calls(facts.output, plan)|
    ensures Runs(StartOf(facts, plan, now, origin), Calls(facts.output, plan)[..k], now)
       <==> !SharesTarget(Calls(facts.output, plan), k)
  {
    hide Unambiguous, IsPlan, Calls, Base, Possible, RunCalls, Runs;
    var calls, w := Calls(facts.output, plan), StartOf(facts, plan, now, origin);
    if SharesTarget(calls, k) {
      var i, j :| 0 <= i < j < k && calls[i].UpdateCall? && calls[j].UpdateCall? && calls[i].from == calls[j].from;
      if Runs(w, calls[..k], now) {
        PrefixRuns(w, calls[..k], now, j);
        assert calls[..k][..j] == calls[..j] && calls[..k][j] == calls[j];
        SharedIsGone(facts, plan, now, origin, i, j);
      }
    } else {
      UnsharedRuns(facts, plan, now, origin, k);
    }
  }

  // ---- Which prefixes leave an ambiguity ---------------------------------------------------------------------------

  /** The update puts its record next to another one with the same key. */
  ghost predicate Collides(facts: Facts, c: Call) {
    c.UpdateCall? && KeyIsListed(facts, DesiredKey(c.to))
  }

  /** Two of the first calls leave records with the same key behind. */
  ghost predicate PutsTwice(calls: seq<Call>, k: nat)
    requires k <= |calls|
  {
    exists i, j :: 0 <= i < j < k && !calls[i].DeleteCall? && !calls[j].DeleteCall?
                   && DesiredKey(calls[i].to) == DesiredKey(calls[j].to)
  }

  ghost predicate NoneCollides(facts: Facts, calls: seq<Call>, k: nat)
    requires k <= |calls|
  {
    forall i :: 0 <= i < k ==> !Collides(facts, calls[i])
  }

  /** What the calls of a prefix put is added to what was listed. */
  lemma PutsAreAdded(facts: Facts, plan: Plan, now: int, origin: RemoteState, k: nat, key: string)
    requires Unambiguous(facts) && IsPlan(facts, plan) && StartsFrom(facts, origin) && k <= |Calls(facts.output, plan)|
    requires Runs(StartOf(facts, plan, now, origin), Calls(facts.output, plan)[..k], now)
    ensures var calls := Calls(facts.output, plan)[..k];
      var before, after := facts.visible, StateAt(facts, plan, now, origin, k).remote.records;
      && |Keyed(facts.output, after, key)| <= |Keyed(facts.output, before, key)| + |Filter(calls, Puts(key))|
      && (Filter(calls, Puts(key)) != [] ==>
            |Keyed(facts.output, after, key)| == |Keyed(facts.output, before, key)| + |Filter(calls, Puts(key))|)
  {
    hide IsPlan, DecidedAtHost, Calls, Fits, RunCalls, Base, NoBars, OneManagedPerHost, NoAmbiguity, Keyed, Runs, DesiredKey;
    var calls := Calls(facts.output, plan);
    AllDecided(facts, plan);
    KeyBalance(StartOf(facts, plan, now, origin), calls[..k], now, key);
    var puts := Filter(calls[..k], Puts(key));
    if puts != [] {
      assert puts[0] in puts;
      forall x | x in calls[..k] ensures !Takes(key)(x) {
        PutIsNotTaken(facts, puts[0], x);
      }
      FilterNone(calls[..k], Takes(key));
    }
  }

  lemma ListedAtOwnHost(facts: Facts, v: VisibleRecord)
    requires v in facts.visible && v.output == facts.output
    ensures v in VisibleAt(facts, VisibleHost(v))
  {
    hide NormalizeHostname;
  }

  /** What is put without a collision was not listed before. */
  lemma PutIsNew(facts: Facts, c: Call)
    requires NoBars(facts) && DecidedAtHost(facts, c) && !c.DeleteCall? && !Collides(facts, c)
    ensures Keyed(facts.output, facts.visible, DesiredKey(c.to)) == []
  {
    hide NoBars, HostOf, DecidedAtHost, VisibleKey, VisibleHost, DesiredKey, DesiredHost;
    PutIsBarFree(facts, c);
    CallsAim(facts, c);
    var keyed := Keyed(facts.output, facts.visible, DesiredKey(c.to));
    if keyed != [] {
      var v := keyed[0];
      assert v in keyed;
      assert KeyIsListed(facts, DesiredKey(c.to));
      KeyOfHost(facts, v, c.to);
      ListedAtOwnHost(facts, v);
    }
  }

  lemma KeyAmbiguous(facts: Facts, key: string)
    requires |Keyed(facts.output, facts.visible, key)| >= 2
    ensures !NoAmbiguity(facts)
  {
    hide Keyed, NoAmbiguity;
    UnambiguousByCount(facts);
  }

  lemma CollisionIsAmbiguous(facts: Facts, plan: Plan, now: int, origin: RemoteState, k: nat, i: nat)
    requires Unambiguous(facts) && IsPlan(facts, plan) && StartsFrom(facts, origin) && i < k <= |Calls(facts.output, plan)|
    requires Runs(StartOf(facts, plan, now, origin), Calls(facts.output, plan)[..k], now)
    requires Collides(facts, Calls(facts.output, plan)[i])
    ensures |Keyed(facts.output, StateAt(facts, plan, now, origin, k).remote.records,
                   DesiredKey(Calls(facts.output, plan)[i].to))| >= 2
  {
    hide Unambiguous, IsPlan, Calls, StateAt, StartOf, Runs, DesiredKey, VisibleKey, Filter;
    var calls := Calls(facts.output, plan);
    var key := DesiredKey(calls[i].to);
    PutsAreAdded(facts, plan, now, origin, k, key);
    assert calls[..k][i] == calls[i];
    FilterHas(calls[..k], Puts(key), calls[i]);
    var v :| v in facts.visible && v.output == facts.output && VisibleKey(v) == key;
    FilterHas(facts.visible, Matching(ListedBy(facts.output), VisibleKey, key), v);
  }

  lemma RepetitionIsAmbiguous(facts: Facts, plan: Plan, now: int, origin: RemoteState, k: nat, i: nat, j: nat)
    requires Unambiguous(facts) && IsPlan(facts, plan) && StartsFrom(facts, origin)
    requires i < j < k <= |Calls(facts.output, plan)|
    requires Runs(StartOf(facts, plan, now, origin), Calls(facts.output, plan)[..k], now)
    requires var calls := Calls(facts.output, plan);
      !calls[i].DeleteCall? && !calls[j].DeleteCall? && DesiredKey(calls[i].to) == DesiredKey(calls[j].to)
    ensures |Keyed(facts.output, StateAt(facts, plan, now, origin, k).remote.records,
                   DesiredKey(Calls(facts.output, plan)[i].to))| >= 2
  {
    hide Unambiguous, IsPlan, Calls, StateAt, StartOf, Runs, DesiredKey, Keyed, Filter;
    var calls := Calls(facts.output, plan);
    var key := DesiredKey(calls[i].to);
    PutsAreAdded(facts, plan, now, origin, k, key);
    assert calls[..k][i] == calls[i] && calls[..k][j] == calls[j];
    FilterTwo(calls[..k], Puts(key), i, j);
  }

  lemma RepeatedPuts(calls: seq<Call>, k: nat, key: string)
    requires k <= |calls| && |Filter(calls[..k], Puts(key))| >= 2
    ensures PutsTwice(calls, k)
  {
    hide DesiredKey;
    var i, j := FilterPair(calls[..k], Puts(key));
    assert calls[..k][i] == calls[i] && calls[..k][j] == calls[j];
  }

  lemma OtherwiseUnambiguous(facts: Facts, plan: Plan, now: int, origin: RemoteState, k: nat, key: string)
    requires Unambiguous(facts) && IsPlan(facts, plan) && StartsFrom(facts, origin) && k <= |Calls(facts.output, plan)|
    requires Runs(StartOf(facts, plan, now, origin), Calls(facts.output, plan)[..k], now)
    requires NoneCollides(facts, Calls(facts.output, plan), k) && !PutsTwice(Calls(facts.output, plan), k)
    ensures |Keyed(facts.output, StateAt(facts, plan, now, origin, k).remote.records, key)| <= 1
  {
    hide IsPlan, DecidedAtHost, Calls, StateAt, StartOf, Runs, DesiredKey, Keyed, NoBars, OneManagedPerHost, NoAmbiguity,
         Collides;
    var calls := Calls(facts.output, plan);
    PutsAreAdded(facts, plan, now, origin, k, key);
    UnambiguousByCount(facts);
    assert |Keyed(facts.output, facts.visible, key)| <= 1;
    var puts := Filter(calls[..k], Puts(key));
    if |puts| >= 2 {
      RepeatedPuts(calls, k, key);
    } else if puts != [] {
      assert puts[0] in puts;
      var i :| 0 <= i < k && calls[..k][i] == puts[0];
      AllDecided(facts, plan);
      assert !Collides(facts, calls[i]);
      PutIsNew(facts, calls[i]);
    }
  }

  /** Such a prefix leaves an ambiguous listing exactly if one of its updates takes a key that is already listed, or two
      of its calls put the same key. */
  lemma AmbiguousExactly(facts: Facts, plan: Plan, now: int, origin: RemoteState, k: nat, next: Facts)
    requires Unambiguous(facts) && IsPlan(facts, plan) && StartsFrom(facts, origin) && k <= |Calls(facts.output, plan)|
    requires Runs(StartOf(facts, plan, now, origin), Calls(facts.output, plan)[..k], now)
    requires next.output == facts.output && next.visible == StateAt(facts, plan, now, origin, k).remote.records
    ensures NoAmbiguity(next)
       <==> NoneCollides(facts, Calls(facts.output, plan), k) && !PutsTwice(Calls(facts.output, plan), k)
  {
    hide Unambiguous, IsPlan, Calls, StateAt, StartOf, Runs, DesiredKey, Keyed, NoAmbiguity, Collides;
    var calls := Calls(facts.output, plan);
    if !NoneCollides(facts, calls, k) {
      var i :| 0 <= i < k && Collides(facts, calls[i]);
      CollisionIsAmbiguous(facts, plan, now, origin, k, i);
      CollidingUpdates(facts, calls[i]);
      KeyAmbiguous(next, DesiredKey(calls[i].to));
    } else if PutsTwice(calls, k) {
      var i, j :| 0 <= i < j < k && !calls[i].DeleteCall? && !calls[j].DeleteCall?
                  && DesiredKey(calls[i].to) == DesiredKey(calls[j].to);
      RepetitionIsAmbiguous(facts, plan, now, origin, k, i, j);
      KeyAmbiguous(next, DesiredKey(calls[i].to));
    } else {
      forall key ensures |Keyed(next.output, next.visible, key)| <= 1 {
        OtherwiseUnambiguous(facts, plan, now, origin, k, key);
      }
      UnambiguousByCount(next);
    }
  }

  lemma CollidingUpdates(facts: Facts, c: Call)
    requires Collides(facts, c)
    ensures c.UpdateCall?
  {
  }

  // ---- With H2 -----------------------------------------------------------------------------------------------------

  lemma OneCallPerHost(facts: Facts, plan: Plan, k: nat)
    requires Orderly(facts) && IsPlan(facts, plan) && k <= |Calls(facts.output, plan)|
    ensures !SharesTarget(Calls(facts.output, plan), k) && !PutsTwice(Calls(facts.output, plan), k)
  {
    hide HostOf, Calls, IsPlan, NoBars, OneDesiredPerHost, OneManagedPerHost, NoAmbiguity, DecidedAtHost, Fits, DesiredKey,
         VisibleHost;
    var calls := Calls(facts.output, plan);
    AllDecided(facts, plan);
    forall i, j | 0 <= i < j < k
      ensures !(calls[i].UpdateCall? && calls[j].UpdateCall? && calls[i].from == calls[j].from)
      ensures !calls[i].DeleteCall? && !calls[j].DeleteCall? ==> DesiredKey(calls[i].to) != DesiredKey(calls[j].to)
    {
      HostsAreDistinct(facts, plan, i, j);
      CallsAim(facts, calls[i]);
      CallsAim(facts, calls[j]);
      if !calls[i].DeleteCall? && !calls[j].DeleteCall? {
        OtherHostOtherKey(facts, calls[i], calls[j]);
      }
    }
  }

  lemma OtherHostOtherKey(facts: Facts, a: Call, b: Call)
    requires DecidedAtHost(facts, a) && DecidedAtHost(facts, b) && !a.DeleteCall? && !b.DeleteCall?
    requires HostOf(a) != HostOf(b)
    ensures DesiredKey(a.to) != DesiredKey(b.to)
  {
    hide DecidedAtHost;
    PutIsBarFree(facts, a);
    PutIsBarFree(facts, b);
    RecordKeyFaithful(a.to.hostname, a.to.answer, b.to.hostname, b.to.answer);
  }

  /** Under H2, too, every prefix of the calls can be made, and it leaves an ambiguous listing exactly when one of its
      updates gives a record the key of another listed one. */
  lemma AmbiguousExactlyByCollision(facts: Facts, plan: Plan, now: int, origin: RemoteState, k: nat, next: Facts)
    requires Orderly(facts) && IsPlan(facts, plan) && StartsFrom(facts, origin) && k <= |Calls(facts.output, plan)|
    requires next.output == facts.output && next.visible == StateAt(facts, plan, now, origin, k).remote.records
    ensures Runs(StartOf(facts, plan, now, origin), Calls(facts.output, plan)[..k], now)
    ensures NoAmbiguity(next) <==> forall i :: 0 <= i < k ==> !Collides(facts, Calls(facts.output, plan)[i])
  {
    hide Calls, IsPlan, NoBars, OneDesiredPerHost, OneManagedPerHost, NoAmbiguity, Collides, StateAt, StartOf, Runs,
         SharesTarget, PutsTwice;
    OneCallPerHost(facts, plan, k);
    RunsExactly(facts, plan, now, origin, k);
    AmbiguousExactly(facts, plan, now, origin, k, next);
  }
}
