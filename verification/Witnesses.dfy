/** Why H2 and H4 are needed: concrete facts for which the results fail without them. */
module Witnesses {
  import opened Text
  import opened Records
  import opened Keys
  import opened Seqs
  import opened Planner
  import opened Remote
  import opened Apply
  import opened Fates
  import opened Refinement

  const HOME := ProviderRef("adguard", "home")
  const DOCKER := ProviderRef("docker", "local")

  function Container(id: string): SourceObjectRef {
    SourceObjectRef(DOCKER, id, "web")
  }

  function Wanted(id: string, answer: string): DesiredRecord {
    DesiredRecord("h", answer, Container(id), "")
  }

  function OwnedBy(id: string, answer: string): ManagedRecord {
    ManagedRecord(HOME, Container(id), "h", answer, None, 0)
  }

  function Shown(answer: string): VisibleRecord {
    VisibleRecord(HOME, "h", answer, None)
  }

  lemma DifferentLineages()
    ensures DesiredLineage(HOME, Wanted("1", "a")) != DesiredLineage(HOME, Wanted("2", "a"))
  {
    DifferentIdentities("1", "2");
  }

  lemma DifferentIdentities(i: string, j: string)
    requires Plain(i) && Plain(j) && BarFree(i) && BarFree(j) && i != j
    ensures DesiredLineage(HOME, Wanted(i, "a")) != DesiredLineage(HOME, Wanted(j, "a"))
  {
    PlainIsFixed(i);
    PlainIsFixed(j);
    hide Fold, FoldName, LineageKey;
    LineageKeyFaithful(HOME, DOCKER, i, "h", HOME, DOCKER, j, "h");
  }

  lemma DifferentKeys()
    ensures RecordKey("h", "a") != RecordKey("h", "b")
  {
    RecordKeyFaithful("h", "a", "h", "b");
    PlainIsFixed("a");
    PlainIsFixed("b");
  }

  lemma GroupOfOne<T(!new)>(x: T, keep: T -> bool, key: T -> string)
    requires keep(x)
    ensures GroupBy([x], keep, key) == map[key(x) := [x]]
    ensures LastBy([x], keep, key) == map[key(x) := x]
  {
    assert [x][..0] == [];
    assert Lookup(map[], key(x)) + [x] == [x];
  }

  lemma LastOfTwo<T(!new)>(x: T, y: T, keep: T -> bool, key: T -> string)
    requires keep(x) && keep(y) && key(x) != key(y)
    ensures LastBy([x, y], keep, key) == map[key(x) := x, key(y) := y]
  {
    assert [x, y][..1] == [x];
    GroupOfOne(x, keep, key);
  }

  // ---- H2 -------------------------------------------------------------------------------------------

  /** Two containers share hostname and display name; one of them is the owner so far. */
  const TWINS := Facts(HOME, [Wanted("1", "a"), Wanted("2", "a")], [Shown("a")], [OwnedBy("1", "a")])

  lemma TwinsIndex()
    ensures var l1, l2 := DesiredLineage(HOME, Wanted("1", "a")), DesiredLineage(HOME, Wanted("2", "a"));
      var m, v := OwnedBy("1", "a"), Shown("a");
      Index(TWINS) == Indexes(
        map[VisibleKey(v) := [v]], map[VisibleHost(v) := [v]],
        map[l1 := Wanted("1", "a"), l2 := Wanted("2", "a")],
        map[l1 := m], map[DisplayLineage(HOME, Container("1"), "h") := [m]], map[ManagedHost(m) := [m]])
  {
    hide LineageKey, RecordKey, NormalizeHostname, GroupBy, LastBy;
    DifferentLineages();
    IndexOfFew(Wanted("1", "a"), Wanted("2", "a"), Shown("a"), OwnedBy("1", "a"));
  }

  lemma IndexOfFew(d: DesiredRecord, e: DesiredRecord, v: VisibleRecord, m: ManagedRecord)
    requires v.output == m.output == HOME && DesiredLineage(HOME, d) != DesiredLineage(HOME, e)
    ensures Index(Facts(HOME, [d, e], [v], [m])) == Indexes(
        map[VisibleKey(v) := [v]], map[VisibleHost(v) := [v]],
        map[DesiredLineage(HOME, d) := d, DesiredLineage(HOME, e) := e],
        map[ManagedLineage(m) := m], map[DisplayLineage(HOME, m.source, m.hostname) := [m]], map[ManagedHost(m) := [m]])
  {
    hide LineageKey, RecordKey, NormalizeHostname, GroupBy, LastBy;
    GroupOfOne(v, ListedBy(HOME), VisibleKey);
    GroupOfOne(v, ListedBy(HOME), VisibleHost);
    GroupOfOne(m, OwnedFor(HOME), ManagedLineage);
    GroupOfOne(m, OwnedFor(HOME), DisplayLineageIn(HOME));
    GroupOfOne(m, OwnedFor(HOME), ManagedHost);
    LastOfTwo(d, e, Any(), DesiredLineageIn(HOME));
  }

  function KeptFor(id: string): ManagedRecord { OwnedBy(id, "a") }

  lemma TwinsDecide()
    ensures Decide(HOME, Index(TWINS), Wanted("1", "a")) == Keep(KeptFor("1"), None)
    ensures Decide(HOME, Index(TWINS), Wanted("2", "a")) == Keep(KeptFor("2"), Some(OwnedBy("1", "a")))
  {
    hide LineageKey, RecordKey, NormalizeHostname, Index;
    TwinsIndex();
    DifferentLineages();
  }

  /** The two orders in which the loop over the desired lineages can visit the twins. */
  function TwinPlan(first: string, second: string): Plan {
    EMPTY_PLAN.(keepDrops := map[DesiredLineage(HOME, Wanted("2", "a")) := OwnedBy("1", "a")],
                nextManaged := [KeptFor(first), KeptFor(second)])
  }

  lemma TwinsAreNotStale(m: ManagedRecord)
    ensures !IsStale(HOME, Index(TWINS), m)
  {
    hide LineageKey, RecordKey, NormalizeHostname, Index, LineageMatched;
    TwinsIndex();
  }

  lemma TwinsAreKept(m: ManagedRecord)
    ensures ToKeep(HOME, Index(TWINS), Index(TWINS).desired.Keys)(m) <==> m == KeptFor("1") || m == KeptFor("2")
    ensures KeptFor("1") != KeptFor("2")
  {
    hide LineageKey, RecordKey, NormalizeHostname, Index, Decide;
    TwinsIndex();
    TwinsDecide();
    DifferentLineages();
    assert ManagedLineage(KeptFor("1")) == DesiredLineage(HOME, Wanted("1", "a"));
    assert ManagedLineage(KeptFor("2")) == DesiredLineage(HOME, Wanted("2", "a"));
  }

  lemma TwinsAsDesired(first: string, second: string)
    requires (first == "1" && second == "2") || (first == "2" && second == "1")
    ensures DesiredPart(HOME, Index(TWINS), Index(TWINS).desired.Keys, TwinPlan(first, second))
  {
    hide LineageKey, RecordKey, NormalizeHostname, Decide, Index, ToKeep;
    var ix, plan := Index(TWINS), TwinPlan(first, second);
    TwinsIndex();
    TwinsDecide();
    DifferentLineages();
    forall m ensures m in plan.nextManaged <==> ToKeep(HOME, ix, ix.desired.Keys)(m) {
      TwinsAreKept(m);
    }
    assert NoDuplicates(plan.nextManaged) by {
      TwinsAreKept(KeptFor("1"));
    }
  }

  lemma TwinsAsOwned()
    ensures StalePart(HOME, Index(TWINS), Index(TWINS).owned.Keys, [], [], [])
  {
    hide LineageKey, RecordKey, NormalizeHostname, Index, IsStale, DecideStale;
    forall m ensures !IsStale(HOME, Index(TWINS), m) {
      TwinsAreNotStale(m);
    }
  }

  lemma TwinPlans(first: string, second: string)
    requires (first == "1" && second == "2") || (first == "2" && second == "1")
    ensures IsPlan(TWINS, TwinPlan(first, second))
  {
    hide LineageKey, RecordKey, NormalizeHostname, Index, DesiredPart, StalePart;
    var ix, plan := Index(TWINS), TwinPlan(first, second);
    TwinsIndex();
    TwinsAsDesired(first, second);
    TwinsAsOwned();
    assert plan.nextManaged == plan.nextManaged + [];
    assert plan.(nextManaged := plan.nextManaged) == plan;
    assert StalePart(HOME, ix, ix.owned.Keys, plan.deletes, plan.drops, []);
  }

  /** Without H2 the bookkeeping depends on the order of map iteration: visiting the owner first loses it. */
  lemma OrderMattersWithoutH2()
    ensures NoBars(TWINS) && OneManagedPerHost(HOME, TWINS.managed) && OneVisiblePerHost(HOME, TWINS.visible)
    ensures var p, q := TwinPlan("1", "2"), TwinPlan("2", "1");
      && IsPlan(TWINS, p) && IsPlan(TWINS, q)
      && Base(HOME, TWINS.managed, p, 0).Keys == {DesiredLineage(HOME, Wanted("2", "a"))}
      && Base(HOME, TWINS.managed, q, 0).Keys
         == {DesiredLineage(HOME, Wanted("1", "a")), DesiredLineage(HOME, Wanted("2", "a"))}
  {
    hide LineageKey, RecordKey, NormalizeHostname, IsPlan, Base, TWINS;
    TwinPlans("1", "2");
    TwinPlans("2", "1");
    TwinBase("1", "2");
    TwinBase("2", "1");
    TwinsAreOtherwiseTidy();
  }

  lemma TwinsAreBarFree()
    ensures BarFreeRef(HOME) && BarFreeRef(DOCKER) && BarFree("1") && BarFree("2") && BarFree("web") && BarFree("h")
  {
  }

  lemma TwinsAreOtherwiseTidy()
    ensures NoBars(TWINS) && OneManagedPerHost(HOME, TWINS.managed) && OneVisiblePerHost(HOME, TWINS.visible)
  {
    hide LineageKey, RecordKey, NormalizeHostname, VisibleOn, BarFree, BarFreeRef;
    TwinsAreBarFree();
    forall host ensures |VisibleOn(HOME, TWINS.visible, host)| <= 1 {
      AtMostOne(HOME, TWINS.visible, host);
    }
  }

  lemma AtMostOne(output: ProviderRef, records: seq<VisibleRecord>, host: string)
    requires |records| <= 1
    ensures |VisibleOn(output, records, host)| <= 1
  {
    FilterShrinks(records, Matching(ListedBy(output), VisibleHost, host));
  }

  lemma TwinBase(first: string, second: string)
    requires (first == "1" && second == "2") || (first == "2" && second == "1")
    ensures var l1, l2 := DesiredLineage(HOME, Wanted("1", "a")), DesiredLineage(HOME, Wanted("2", "a"));
      Base(HOME, TWINS.managed, TwinPlan(first, second), 0).Keys == if first == "1" then {l2} else {l1, l2}
  {
    hide LineageKey, RecordKey, NormalizeHostname, Index;
    var plan := TwinPlan(first, second);
    var l1, l2 := DesiredLineage(HOME, Wanted("1", "a")), DesiredLineage(HOME, Wanted("2", "a"));
    DifferentLineages();
    TwinsIndex();
    var recs := OwnedByLineage(HOME, TWINS.managed);
    assert recs == Index(TWINS).owned by {
      GroupOfOne(OwnedBy("1", "a"), OwnedFor(HOME), ManagedLineage);
    }
    assert ManagedLineage(KeptFor("1")) == l1 && ManagedLineage(KeptFor("2")) == l2;
    assert plan.nextManaged[..1] == [KeptFor(first)];
    assert plan.nextManaged[..1][..0] == [];
    assert DropAll(recs, plan.drops) == recs;
    var one := KeepOne(recs, KeptFor(first), plan.keepDrops, 0);
    assert KeepAll(recs, [KeptFor(first)], plan.keepDrops, 0) == one;
    assert KeepAll(recs, plan.nextManaged, plan.keepDrops, 0) == KeepOne(one, KeptFor(second), plan.keepDrops, 0);
  }

  // ---- H4 -------------------------------------------------------------------------------------------

  /** The answer changes to one that the output already lists under the same hostname. */
  const DRIFTED := Facts(HOME, [Wanted("1", "b")], [Shown("a"), Shown("b")], [OwnedBy("1", "a")])

  const COLLISION := UpdateCall(Shown("a"), Wanted("1", "b"), None)

  lemma DriftedAt(host: string)
    ensures DesiredAt(DRIFTED, host) == if host == VisibleHost(Shown("a")) then Some(Wanted("1", "b")) else None
    ensures ManagedAt(DRIFTED, host) == if host == VisibleHost(Shown("a")) then Some(OwnedBy("1", "a")) else None
    ensures host == VisibleHost(Shown("a")) ==> VisibleAt(DRIFTED, host) == DRIFTED.visible
  {
    hide LineageKey, RecordKey, NormalizeHostname, DesiredAt, ManagedAt;
    OneWantedAt(HOME, Wanted("1", "b"), DRIFTED.visible, OwnedBy("1", "a"), host);
    if host == VisibleHost(Shown("a")) {
      FilterAll(DRIFTED.visible, Matching(ListedBy(HOME), VisibleHost, host));
    }
  }

  lemma DriftedIsUnambiguous(k: string)
    ensures |Lookup(Index(DRIFTED).byKey, k)| <= 1
  {
    hide LineageKey, RecordKey, NormalizeHostname, GroupBy, LastBy;
    DifferentKeys();
    var p := Matching(ListedBy(HOME), VisibleKey, k);
    GroupByIsScan(DRIFTED.visible, ListedBy(HOME), VisibleKey, k);
    if p(Shown("a")) {
      FilterOne(DRIFTED.visible, p, 0);
    } else if p(Shown("b")) {
      FilterOne(DRIFTED.visible, p, 1);
    } else {
      FilterNone(DRIFTED.visible, p);
    }
  }

  lemma DriftedHasOneWinner()
    ensures OneDesiredPerHost(DRIFTED)
  {
    hide LineageKey, RecordKey, NormalizeHostname, GroupBy, LastBy;
    GroupOfOne(Wanted("1", "b"), Any(), DesiredLineageIn(HOME));
  }

  lemma DriftedIsOrderly()
    ensures Orderly(DRIFTED)
  {
    hide LineageKey, RecordKey, NormalizeHostname, Index, OneDesiredPerHost;
    DriftedHasOneWinner();
    forall k ensures |Lookup(Index(DRIFTED).byKey, k)| <= 1 {
      DriftedIsUnambiguous(k);
    }
  }

  /** The listed record has the owned key and shows no identifier, and another key is desired. */
  lemma DriftIsUpdated(output: ProviderRef, d: DesiredRecord, m: ManagedRecord, vs: seq<VisibleRecord>, v: VisibleRecord)
    requires WithKey(output, vs, ManagedKey(m)) == Some(v) && !HasProvenance(v.provenance)
    requires DesiredKey(d) != ManagedKey(m) && ManagedLineage(m) == DesiredLineage(output, d)
    ensures FateOf(output, Some(d), Some(m), vs) == Called(UpdateCall(v, d, None))
  {
    hide LineageKey, RecordKey, WithKey;
  }

  lemma HolderIsFound(vs: seq<VisibleRecord>)
    requires vs == DRIFTED.visible || vs == [Shown("a")]
    ensures WithKey(HOME, vs, ManagedKey(OwnedBy("1", "a"))) == Some(Shown("a"))
  {
    hide RecordKey;
    DifferentKeys();
    FilterOne(vs, Matching(ListedBy(HOME), VisibleKey, RecordKey("h", "a")), 0);
  }

  lemma HolderIsUpdated(vs: seq<VisibleRecord>)
    requires vs == DRIFTED.visible || vs == [Shown("a")]
    ensures FateOf(HOME, Some(Wanted("1", "b")), Some(OwnedBy("1", "a")), vs) == Called(COLLISION)
  {
    hide LineageKey, RecordKey, FateOf, WithKey;
    DifferentKeys();
    HolderIsFound(vs);
    DriftIsUpdated(HOME, Wanted("1", "b"), OwnedBy("1", "a"), vs, Shown("a"));
  }

  lemma NothingWantedOrOwned(output: ProviderRef, vs: seq<VisibleRecord>)
    ensures FateOf(output, None, None, vs) == Untouched
  {
  }

  lemma DriftedFate(host: string)
    ensures FateAt(DRIFTED, host) == if host == VisibleHost(Shown("a")) then Called(COLLISION) else Untouched
  {
    hide VisibleHost, DesiredAt, ManagedAt, VisibleAt, FateOf;
    DriftedAt(host);
    HolderIsUpdated(DRIFTED.visible);
    NothingWantedOrOwned(HOME, VisibleAt(DRIFTED, host));
  }

  /** H1 to H3 hold and the listing is unambiguous, yet every plan updates one record onto another one, and the next
      pass over the result stops at the ambiguity. */
  lemma UpdateCollidesWithoutH4(plan: Plan, origin: RemoteState)
    requires IsPlan(DRIFTED, plan) && origin.provider == HOME && origin.records == DRIFTED.visible
    ensures Orderly(DRIFTED) && Calls(HOME, plan) == [COLLISION]
    ensures Possible(origin, COLLISION)
    ensures !NoAmbiguity(DRIFTED.(visible := Mutate(origin, COLLISION).records))
  {
    hide LineageKey, RecordKey, NormalizeHostname, FateAt, IsPlan, Calls, Index, Orderly;
    DriftedIsOrderly();
    DriftedFate(VisibleHost(Shown("a")));
    var calls := Calls(HOME, plan);
    CallsByFate(DRIFTED, plan, COLLISION);
    forall c | c in calls ensures c == COLLISION {
      CallsByFate(DRIFTED, plan, c);
      DriftedFate(HostOf(c));
    }
    CallsAreDistinct(DRIFTED, plan);
    OnlyOne(calls, COLLISION);
    Collides(origin);
  }

  lemma OnlyOne(calls: seq<Call>, c: Call)
    requires c in calls && NoDuplicates(calls) && forall x :: x in calls ==> x == c
    ensures calls == [c]
  {
    var i :| 0 <= i < |calls| && calls[i] == c;
    assert calls[0] in calls && calls[|calls| - 1] in calls;
  }

  lemma Collides(origin: RemoteState)
    requires origin.provider == HOME && origin.records == DRIFTED.visible
    ensures Possible(origin, COLLISION)
    ensures !NoAmbiguity(DRIFTED.(visible := Mutate(origin, COLLISION).records))
  {
    hide LineageKey, RecordKey, NormalizeHostname, GroupBy, LastBy;
    var after := Mutate(origin, COLLISION).records;
    assert IndexOf(origin.records, Shown("a")) == 0;
    assert after == [Shown("b"), Shown("b")];
    var key := VisibleKey(Shown("b"));
    GroupByIsScan(after, ListedBy(HOME), VisibleKey, key);
    FilterTwo(after, Matching(ListedBy(HOME), VisibleKey, key), 0, 1);
    assert |Lookup(Index(DRIFTED.(visible := after)).byKey, key)| > 1;
  }

  // ---- The hypotheses can be met ---------------------------------------------------------------------

  /** One container whose answer has changed. */
  const MOVED := DRIFTED.(visible := [Shown("a")])

  lemma MovedFate(host: string)
    ensures FateAt(MOVED, host) == if host == VisibleHost(Shown("a")) then Called(COLLISION) else Untouched
  {
    hide NormalizeHostname, DesiredAt, ManagedAt, VisibleAt, FateOf;
    SinglesAt(HOME, Wanted("1", "b"), Shown("a"), OwnedBy("1", "a"), host);
    HolderIsUpdated([Shown("a")]);
    NothingWantedOrOwned(HOME, VisibleAt(MOVED, host));
  }

  /** One desired, one listed and one owned record. */
  function Singles(output: ProviderRef, d: DesiredRecord, v: VisibleRecord, m: ManagedRecord): Facts {
    Facts(output, [d], [v], [m])
  }

  lemma OneWantedAt(output: ProviderRef, d: DesiredRecord, vs: seq<VisibleRecord>, m: ManagedRecord, host: string)
    requires m.output == output
    ensures var facts := Facts(output, [d], vs, [m]);
      && DesiredAt(facts, host) == (if host == DesiredHost(d) then Some(d) else None)
      && ManagedAt(facts, host) == (if host == ManagedHost(m) then Some(m) else None)
  {
    hide LineageKey, NormalizeHostname, GroupBy, LastBy;
    GroupOfOne(d, Any(), DesiredLineageIn(output));
    FilterSingle(m, Matching(OwnedFor(output), ManagedHost, host));
  }

  lemma SinglesAt(output: ProviderRef, d: DesiredRecord, v: VisibleRecord, m: ManagedRecord, host: string)
    requires v.output == m.output == output
    ensures var facts := Singles(output, d, v, m);
      && DesiredAt(facts, host) == (if host == DesiredHost(d) then Some(d) else None)
      && ManagedAt(facts, host) == (if host == ManagedHost(m) then Some(m) else None)
      && VisibleAt(facts, host) == (if host == VisibleHost(v) then [v] else [])
  {
    hide LineageKey, NormalizeHostname, DesiredAt, ManagedAt;
    OneWantedAt(output, d, [v], m, host);
    FilterSingle(v, Matching(ListedBy(output), VisibleHost, host));
  }

  lemma SinglesAreTidy(output: ProviderRef, d: DesiredRecord, v: VisibleRecord, m: ManagedRecord)
    requires v.output == m.output == output && BarFreeRef(output)
    requires BarFreeDesired(d) && BarFree(v.hostname) && BarFreeManaged(m)
    ensures Tidy(Singles(output, d, v, m))
  {
    hide LineageKey, NormalizeHostname, GroupBy, LastBy, VisibleOn, BarFree, BarFreeDesired, BarFreeManaged, BarFreeRef;
    GroupOfOne(d, Any(), DesiredLineageIn(output));
    forall host ensures |VisibleOn(output, [v], host)| <= 1 {
      AtMostOne(output, [v], host);
    }
  }

  /** H1 to H4 hold of facts that leave work to do: every plan is the one update. */
  lemma HypothesesCanBeMet(plan: Plan)
    requires IsPlan(MOVED, plan)
    ensures Tidy(MOVED) && Calls(HOME, plan) == [COLLISION]
  {
    hide LineageKey, RecordKey, NormalizeHostname, FateAt, IsPlan, Calls, Index, Tidy;
    MovedIsTidy();
    TidyIsOrderly(MOVED);
    MovedFate(VisibleHost(Shown("a")));
    var calls := Calls(HOME, plan);
    CallsByFate(MOVED, plan, COLLISION);
    forall c | c in calls ensures c == COLLISION {
      CallsByFate(MOVED, plan, c);
      MovedFate(HostOf(c));
    }
    CallsAreDistinct(MOVED, plan);
    OnlyOne(calls, COLLISION);
  }

  lemma MovedIsTidy()
    ensures Tidy(MOVED)
  {
    hide Tidy;
    SinglesAreTidy(HOME, Wanted("1", "b"), Shown("a"), OwnedBy("1", "a"));
  }
}
