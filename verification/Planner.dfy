/** The three-way planner: desired against visible against owned, for one output. */
module Planner {
  import opened Records
  import opened Keys
  import opened Seqs

  /** The planner's arguments. */
  datatype Facts = Facts(
    output: ProviderRef, desired: seq<DesiredRecord>, visible: seq<VisibleRecord>, managed: seq<ManagedRecord>)

  function VisibleKey(v: VisibleRecord): string { RecordKey(v.hostname, v.answer) }

  function VisibleHost(v: VisibleRecord): string { NormalizeHostname(v.hostname) }

  function DesiredKey(d: DesiredRecord): string { RecordKey(d.hostname, d.answer) }

  function DesiredHost(d: DesiredRecord): string { NormalizeHostname(d.hostname) }

  function ManagedKey(m: ManagedRecord): string { RecordKey(m.hostname, m.answer) }

  function ManagedHost(m: ManagedRecord): string { NormalizeHostname(m.hostname) }

  function ListedBy(output: ProviderRef): VisibleRecord -> bool {
    (v: VisibleRecord) => v.output == output
  }

  function OwnedFor(output: ProviderRef): ManagedRecord -> bool {
    (m: ManagedRecord) => m.output == output
  }

  function Any(): DesiredRecord -> bool {
    (d: DesiredRecord) => true
  }

  function DesiredLineageIn(output: ProviderRef): DesiredRecord -> string {
    (d: DesiredRecord) => DesiredLineage(output, d)
  }

  function DisplayLineageIn(output: ProviderRef): ManagedRecord -> string {
    (m: ManagedRecord) => DisplayLineage(output, m.source, m.hostname)
  }

  // ---- The indexes -------------------------------------------------------------------------

  datatype Indexes = Indexes(
    byKey: map<string, seq<VisibleRecord>>, byHost: map<string, seq<VisibleRecord>>,
    desired: map<string, DesiredRecord>,
    owned: map<string, ManagedRecord>, ownedByDisplay: map<string, seq<ManagedRecord>>,
    ownedByHost: map<string, seq<ManagedRecord>>)

  function DesiredByLineage(output: ProviderRef, desired: seq<DesiredRecord>): map<string, DesiredRecord> {
    LastBy(desired, Any(), DesiredLineageIn(output))
  }

  function OwnedByLineage(output: ProviderRef, managed: seq<ManagedRecord>): map<string, ManagedRecord> {
    LastBy(managed, OwnedFor(output), ManagedLineage)
  }

  function Index(facts: Facts): Indexes {
    Indexes(
      GroupBy(facts.visible, ListedBy(facts.output), VisibleKey),
      GroupBy(facts.visible, ListedBy(facts.output), VisibleHost),
      DesiredByLineage(facts.output, facts.desired),
      OwnedByLineage(facts.output, facts.managed),
      GroupBy(facts.managed, OwnedFor(facts.output), DisplayLineageIn(facts.output)),
      GroupBy(facts.managed, OwnedFor(facts.output), ManagedHost))
  }

  method IndexVisible(output: ProviderRef, visible: seq<VisibleRecord>)
    returns (byKey: map<string, seq<VisibleRecord>>, byHost: map<string, seq<VisibleRecord>>)
    ensures byKey == GroupBy(visible, ListedBy(output), VisibleKey)
    ensures byHost == GroupBy(visible, ListedBy(output), VisibleHost)
  {
    hide RecordKey, NormalizeHostname;
    byKey, byHost := map[], map[];
    for i := 0 to |visible|
      invariant byKey == GroupBy(visible[..i], ListedBy(output), VisibleKey)
      invariant byHost == GroupBy(visible[..i], ListedBy(output), VisibleHost)
    {
      var v := visible[i];
      assert visible[..i + 1][..i] == visible[..i];
      if v.output == output {
        byKey := byKey[VisibleKey(v) := Lookup(byKey, VisibleKey(v)) + [v]];
        byHost := byHost[VisibleHost(v) := Lookup(byHost, VisibleHost(v)) + [v]];
      }
    }
    assert visible[..|visible|] == visible;
  }

  method IndexDesired(output: ProviderRef, desired: seq<DesiredRecord>) returns (byLineage: map<string, DesiredRecord>)
    ensures byLineage == DesiredByLineage(output, desired)
  {
    hide LineageKey;
    byLineage := map[];
    for i := 0 to |desired|
      invariant byLineage == DesiredByLineage(output, desired[..i])
    {
      assert desired[..i + 1][..i] == desired[..i];
      byLineage := byLineage[DesiredLineage(output, desired[i]) := desired[i]];
    }
    assert desired[..|desired|] == desired;
  }

  method IndexOwned(output: ProviderRef, managed: seq<ManagedRecord>)
    returns (owned: map<string, ManagedRecord>, byDisplay: map<string, seq<ManagedRecord>>,
             byHost: map<string, seq<ManagedRecord>>)
    ensures owned == OwnedByLineage(output, managed)
    ensures byDisplay == GroupBy(managed, OwnedFor(output), DisplayLineageIn(output))
    ensures byHost == GroupBy(managed, OwnedFor(output), ManagedHost)
  {
    hide LineageKey, NormalizeHostname;
    owned, byDisplay, byHost := map[], map[], map[];
    for i := 0 to |managed|
      invariant owned == OwnedByLineage(output, managed[..i])
      invariant byDisplay == GroupBy(managed[..i], OwnedFor(output), DisplayLineageIn(output))
      invariant byHost == GroupBy(managed[..i], OwnedFor(output), ManagedHost)
    {
      var m := managed[i];
      assert managed[..i + 1][..i] == managed[..i];
      if m.output == output {
        var display := DisplayLineage(output, m.source, m.hostname);
        owned := owned[ManagedLineage(m) := m];
        byDisplay := byDisplay[display := Lookup(byDisplay, display) + [m]];
        byHost := byHost[ManagedHost(m) := Lookup(byHost, ManagedHost(m)) + [m]];
      }
    }
    assert managed[..|managed|] == managed;
  }

  method BuildIndexes(facts: Facts) returns (ix: Indexes)
    ensures ix == Index(facts)
  {
    var byKey, byHost := IndexVisible(facts.output, facts.visible);
    var desired := IndexDesired(facts.output, facts.desired);
    var owned, ownedByDisplay, ownedByHost := IndexOwned(facts.output, facts.managed);
    ix := Indexes(byKey, byHost, desired, owned, ownedByDisplay, ownedByHost);
  }

  // ---- What happens to one record ----------------------------------------------------------

  datatype Match = Unmatched | Matched(owned: ManagedRecord, byHostnameOnly: bool)

  /** The owned record a desired record continues: same lineage, else the only one with the same
      display lineage, else the only one with the same hostname. */
  function MatchOwned(output: ProviderRef, ix: Indexes, d: DesiredRecord): Match {
    var lineage := DesiredLineage(output, d);
    var byDisplay := Lookup(ix.ownedByDisplay, DisplayLineage(output, d.source, d.hostname));
    var byHost := Lookup(ix.ownedByHost, DesiredHost(d));
    if lineage in ix.owned then Matched(ix.owned[lineage], false)
    else if |byDisplay| == 1 then Matched(byDisplay[0], false)
    else if |byHost| == 1 then Matched(byHost[0], true)
    else Unmatched
  }

  /** An update needs matching provenance when the output shows one; without one it needs a match
      on more than the hostname. */
  predicate CanUpdate(owned: ManagedRecord, visible: VisibleRecord, byHostnameOnly: bool) {
    if HasProvenance(visible.provenance) then SameProvenance(owned.provenance, visible.provenance)
    else !byHostnameOnly
  }

  /** `replaced` is the owned record of another lineage that the action takes over. */
  datatype Decision =
    | Ignore
    | Create(replaced: Option<ManagedRecord>)
    | Update(from: VisibleRecord, replaced: Option<ManagedRecord>)
    | Keep(record: ManagedRecord, replaced: Option<ManagedRecord>)

  function KeptRecord(output: ProviderRef, d: DesiredRecord, owned: ManagedRecord, visible: VisibleRecord): ManagedRecord {
    var provenance :=
      if SameProvenance(owned.provenance, visible.provenance) then visible.provenance else owned.provenance;
    ManagedRecord(output, d.source, d.hostname, d.answer, provenance, 0)
  }

  function Replaced(output: ProviderRef, d: DesiredRecord, owned: ManagedRecord): Option<ManagedRecord> {
    if ManagedLineage(owned) != DesiredLineage(output, d) then Some(owned) else None
  }

  function Decide(output: ProviderRef, ix: Indexes, d: DesiredRecord): Decision {
    var newKey := DesiredKey(d);
    var sameHost := Lookup(ix.byHost, DesiredHost(d));
    match MatchOwned(output, ix, d)
    case Unmatched =>
      if Lookup(ix.byKey, newKey) == [] && sameHost == [] then Create(None) else Ignore
    case Matched(owned, byHostnameOnly) =>
      var replaced := Replaced(output, d, owned);
      var oldMatches := Lookup(ix.byKey, ManagedKey(owned));
      if |oldMatches| == 1 && newKey != ManagedKey(owned) then
        if CanUpdate(owned, oldMatches[0], byHostnameOnly) then Update(oldMatches[0], replaced) else Ignore
      else if |oldMatches| > 1 then
        Ignore
      else if |sameHost| == 1 && newKey != VisibleKey(sameHost[0]) then
        if CanUpdate(owned, sameHost[0], byHostnameOnly) then Update(sameHost[0], replaced) else Ignore
      else if Lookup(ix.byKey, newKey) == [] then
        if sameHost != [] then Ignore else Create(replaced)
      else
        Keep(KeptRecord(output, d, owned, Lookup(ix.byKey, newKey)[0]), replaced)
  }

  datatype StaleDecision = Delete(visible: VisibleRecord) | Retain | Drop

  /** An owned record nothing desired continues: deleted only with proof of ownership. */
  function DecideStale(ix: Indexes, m: ManagedRecord): StaleDecision {
    var matches := Lookup(ix.byKey, ManagedKey(m));
    if |matches| == 1 && SameProvenance(m.provenance, matches[0].provenance) then Delete(matches[0])
    else if Lookup(ix.byHost, ManagedHost(m)) != [] then Retain
    else Drop
  }

  // ---- The plan ----------------------------------------------------------------------------

  datatype UpdateStep = UpdateStep(from: VisibleRecord, to: DesiredRecord)

  datatype DeleteStep = DeleteStep(visible: VisibleRecord, managed: ManagedRecord)

  datatype Ambiguity = Ambiguity(key: string, count: nat)

  datatype Plan = Plan(
    creates: seq<DesiredRecord>, updates: seq<UpdateStep>, deletes: seq<DeleteStep>, drops: seq<ManagedRecord>,
    createDrops: map<string, ManagedRecord>, updateDrops: map<string, ManagedRecord>,
    keepDrops: map<string, ManagedRecord>, ambiguities: seq<Ambiguity>, nextManaged: seq<ManagedRecord>)

  /** `d` is the winner of its lineage, and the lineage is among `lineages`. */
  predicate IsDesired(output: ProviderRef, ix: Indexes, lineages: set<string>, d: DesiredRecord) {
    var lineage := DesiredLineage(output, d);
    lineage in lineages && lineage in ix.desired && ix.desired[lineage] == d
  }

  function ToCreate(output: ProviderRef, ix: Indexes, lineages: set<string>): DesiredRecord -> bool {
    (d: DesiredRecord) => IsDesired(output, ix, lineages, d) && Decide(output, ix, d).Create?
  }

  function ToUpdate(output: ProviderRef, ix: Indexes, lineages: set<string>): UpdateStep -> bool {
    (u: UpdateStep) =>
      && IsDesired(output, ix, lineages, u.to)
      && Decide(output, ix, u.to).Update? && Decide(output, ix, u.to).from == u.from
  }

  function ToKeep(output: ProviderRef, ix: Indexes, lineages: set<string>): ManagedRecord -> bool {
    (m: ManagedRecord) =>
      var lineage := ManagedLineage(m);
      && lineage in lineages && lineage in ix.desired
      && Decide(output, ix, ix.desired[lineage]).Keep?
      && Decide(output, ix, ix.desired[lineage]).record == m
  }

  function MatchedLineage(output: ProviderRef, ix: Indexes, d: DesiredRecord): Option<string> {
    match MatchOwned(output, ix, d)
    case Unmatched => None
    case Matched(owned, _) => Some(ManagedLineage(owned))
  }

  ghost predicate LineageMatched(output: ProviderRef, ix: Indexes, lineages: set<string>, owned: string) {
    exists l :: l in lineages && l in ix.desired && MatchedLineage(output, ix, ix.desired[l]) == Some(owned)
  }

  /** No desired record continues the owned record `m`. */
  ghost predicate IsStale(output: ProviderRef, ix: Indexes, m: ManagedRecord) {
    var lineage := ManagedLineage(m);
    && lineage in ix.owned && ix.owned[lineage] == m
    && !LineageMatched(output, ix, ix.desired.Keys, lineage) && lineage !in ix.desired
  }

  ghost predicate IsStaleIn(output: ProviderRef, ix: Indexes, lineages: set<string>, m: ManagedRecord) {
    ManagedLineage(m) in lineages && IsStale(output, ix, m)
  }

  ghost function ToDelete(output: ProviderRef, ix: Indexes, lineages: set<string>): DeleteStep -> bool {
    (s: DeleteStep) => IsStaleIn(output, ix, lineages, s.managed) && DecideStale(ix, s.managed) == Delete(s.visible)
  }

  ghost function ToRetain(output: ProviderRef, ix: Indexes, lineages: set<string>): ManagedRecord -> bool {
    (m: ManagedRecord) => IsStaleIn(output, ix, lineages, m) && DecideStale(ix, m).Retain?
  }

  ghost function ToDrop(output: ProviderRef, ix: Indexes, lineages: set<string>): ManagedRecord -> bool {
    (m: ManagedRecord) => IsStaleIn(output, ix, lineages, m) && DecideStale(ix, m).Drop?
  }

  function IsCreate(): Decision -> bool { (d: Decision) => d.Create? }

  function IsUpdate(): Decision -> bool { (d: Decision) => d.Update? }

  function IsKeep(): Decision -> bool { (d: Decision) => d.Keep? }

  function ReplacedBy(decision: Decision): Option<ManagedRecord> {
    if decision.Ignore? then None else decision.replaced
  }

  /** The drop map of one kind of decision holds exactly the owned records replaced by that kind. */
  ghost predicate DropsOf(
    output: ProviderRef, ix: Indexes, lineages: set<string>, kind: Decision -> bool, drops: map<string, ManagedRecord>)
  {
    forall l :: (if l in drops then Some(drops[l]) else None)
             == (if l in lineages && l in ix.desired && kind(Decide(output, ix, ix.desired[l]))
                 then ReplacedBy(Decide(output, ix, ix.desired[l])) else None)
  }

  /** The part of the plan that the desired lineages visited so far ask for. */
  ghost predicate DesiredPart(output: ProviderRef, ix: Indexes, visited: set<string>, plan: Plan) {
    && Enumerates(plan.creates, ToCreate(output, ix, visited))
    && Enumerates(plan.updates, ToUpdate(output, ix, visited))
    && Enumerates(plan.nextManaged, ToKeep(output, ix, visited))
    && DropsOf(output, ix, visited, IsCreate(), plan.createDrops)
    && DropsOf(output, ix, visited, IsUpdate(), plan.updateDrops)
    && DropsOf(output, ix, visited, IsKeep(), plan.keepDrops)
  }

  /** The part of the plan that the owned lineages visited so far ask for; `retained` follows the kept records. */
  ghost predicate StalePart(
    output: ProviderRef, ix: Indexes, visited: set<string>,
    deletes: seq<DeleteStep>, drops: seq<ManagedRecord>, retained: seq<ManagedRecord>)
  {
    && Enumerates(deletes, ToDelete(output, ix, visited))
    && Enumerates(drops, ToDrop(output, ix, visited))
    && Enumerates(retained, ToRetain(output, ix, visited))
  }

  function CreateSortKey(): DesiredRecord -> string { (d: DesiredRecord) => DesiredKey(d) }

  function UpdateSortKey(): UpdateStep -> string { (u: UpdateStep) => DesiredKey(u.to) }

  function DeleteSortKey(): DeleteStep -> string { (s: DeleteStep) => VisibleKey(s.visible) }

  ghost predicate FindsAmbiguities(byKey: map<string, seq<VisibleRecord>>, found: seq<Ambiguity>) {
    forall a :: a in found <==> a.key in byKey && |byKey[a.key]| > 1 && a.count == |byKey[a.key]|
  }

  /** What every run of the planner returns, whatever order the maps were visited in. */
  ghost predicate IsPlan(facts: Facts, plan: Plan) {
    var ix := Index(facts);
    && FindsAmbiguities(ix.byKey, plan.ambiguities)
    && SortedBy(plan.creates, CreateSortKey())
    && SortedBy(plan.updates, UpdateSortKey())
    && SortedBy(plan.deletes, DeleteSortKey())
    && exists kept: seq<ManagedRecord>, retained: seq<ManagedRecord> ::
         && plan.nextManaged == kept + retained
         && DesiredPart(facts.output, ix, ix.desired.Keys, plan.(nextManaged := kept))
         && StalePart(facts.output, ix, ix.owned.Keys, plan.deletes, plan.drops, retained)
  }

  const EMPTY_PLAN := Plan([], [], [], [], map[], map[], map[], [], [])

  method FindAmbiguities(byKey: map<string, seq<VisibleRecord>>) returns (found: seq<Ambiguity>)
    ensures FindsAmbiguities(byKey, found)
  {
    found := [];
    var rest := byKey.Keys;
    while rest != {}
      invariant rest <= byKey.Keys
      invariant forall a :: a in found <==>
        a.key in byKey && a.key !in rest && |byKey[a.key]| > 1 && a.count == |byKey[a.key]|
    {
      var k :| k in rest;
      if |byKey[k]| > 1 {
        found := found + [Ambiguity(k, |byKey[k]|)];
      }
      rest := rest - {k};
    }
  }

  lemma KeptHasLineage(output: ProviderRef, ix: Indexes, d: DesiredRecord)
    requires Decide(output, ix, d).Keep?
    ensures ManagedLineage(Decide(output, ix, d).record) == DesiredLineage(output, d)
  {
    hide LineageKey, RecordKey, MatchOwned, CanUpdate;
  }

  /** Visiting one more lineage adds its own record to exactly one list. */
  lemma VisitDesired(output: ProviderRef, ix: Indexes, visited: set<string>, lineage: string)
    requires lineage in ix.desired && DesiredLineage(output, ix.desired[lineage]) == lineage && lineage !in visited
    ensures var d := ix.desired[lineage]; var decision := Decide(output, ix, d); var more := visited + {lineage};
      && !ToCreate(output, ix, visited)(d)
      && (forall x :: ToCreate(output, ix, more)(x) <==>
            ToCreate(output, ix, visited)(x) || (decision.Create? && x == d))
      && (decision.Update? ==> !ToUpdate(output, ix, visited)(UpdateStep(decision.from, d)))
      && (forall u :: ToUpdate(output, ix, more)(u) <==>
            ToUpdate(output, ix, visited)(u) || (decision.Update? && u == UpdateStep(decision.from, d)))
      && (decision.Keep? ==> !ToKeep(output, ix, visited)(decision.record))
      && (forall m :: ToKeep(output, ix, more)(m) <==>
            ToKeep(output, ix, visited)(m) || (decision.Keep? && m == decision.record))
  {
    if Decide(output, ix, ix.desired[lineage]).Keep? {
      KeptHasLineage(output, ix, ix.desired[lineage]);
    }
    hide LineageKey, RecordKey, MatchOwned, Decide;
  }

  function WithDrop(drops: map<string, ManagedRecord>, lineage: string, replaced: Option<ManagedRecord>)
    : map<string, ManagedRecord>
  {
    if replaced.Some? then drops[lineage := replaced.value] else drops
  }

  lemma VisitDrops(
    output: ProviderRef, ix: Indexes, visited: set<string>, lineage: string, kind: Decision -> bool,
    drops: map<string, ManagedRecord>)
    requires lineage in ix.desired && lineage !in visited
    requires DropsOf(output, ix, visited, kind, drops)
    ensures var decision := Decide(output, ix, ix.desired[lineage]);
      DropsOf(output, ix, visited + {lineage}, kind,
              if kind(decision) then WithDrop(drops, lineage, ReplacedBy(decision)) else drops)
  {
    hide Decide;
    var decision := Decide(output, ix, ix.desired[lineage]);
    var more := if kind(decision) then WithDrop(drops, lineage, ReplacedBy(decision)) else drops;
    assert lineage !in drops;
    forall l ensures (if l in more then Some(more[l]) else None)
      == (if l in visited + {lineage} && l in ix.desired && kind(Decide(output, ix, ix.desired[l]))
          then ReplacedBy(Decide(output, ix, ix.desired[l])) else None)
    {
      if l != lineage {
        assert l in more <==> l in drops;
      }
    }
  }

  /** One turn of the loop over the desired lineages. */
  method PlanDesired(output: ProviderRef, ix: Indexes, lineage: string, ghost visited: set<string>, plan: Plan)
    returns (next: Plan)
    requires lineage in ix.desired && DesiredLineage(output, ix.desired[lineage]) == lineage && lineage !in visited
    requires DesiredPart(output, ix, visited, plan)
    ensures DesiredPart(output, ix, visited + {lineage}, next)
    ensures next.ambiguities == plan.ambiguities
  {
    hide Decide, DesiredLineage, Enumerates, ToCreate, ToUpdate, ToKeep, DropsOf;
    var d := ix.desired[lineage];
    ghost var more := visited + {lineage};
    VisitDesired(output, ix, visited, lineage);
    VisitDrops(output, ix, visited, lineage, IsCreate(), plan.createDrops);
    VisitDrops(output, ix, visited, lineage, IsUpdate(), plan.updateDrops);
    VisitDrops(output, ix, visited, lineage, IsKeep(), plan.keepDrops);
    next := plan;
    match Decide(output, ix, d) {
      case Ignore =>
        EnumerateSame(plan.creates, ToCreate(output, ix, visited), ToCreate(output, ix, more));
        EnumerateSame(plan.updates, ToUpdate(output, ix, visited), ToUpdate(output, ix, more));
        EnumerateSame(plan.nextManaged, ToKeep(output, ix, visited), ToKeep(output, ix, more));
      case Create(replaced) =>
        next := next.(creates := plan.creates + [d], createDrops := WithDrop(plan.createDrops, lineage, replaced));
        EnumerateOneMore(plan.creates, ToCreate(output, ix, visited), d, ToCreate(output, ix, more));
        EnumerateSame(plan.updates, ToUpdate(output, ix, visited), ToUpdate(output, ix, more));
        EnumerateSame(plan.nextManaged, ToKeep(output, ix, visited), ToKeep(output, ix, more));
      case Update(from, replaced) =>
        next := next.(updates := plan.updates + [UpdateStep(from, d)],
                      updateDrops := WithDrop(plan.updateDrops, lineage, replaced));
        EnumerateSame(plan.creates, ToCreate(output, ix, visited), ToCreate(output, ix, more));
        EnumerateOneMore(plan.updates, ToUpdate(output, ix, visited), UpdateStep(from, d), ToUpdate(output, ix, more));
        EnumerateSame(plan.nextManaged, ToKeep(output, ix, visited), ToKeep(output, ix, more));
      case Keep(record, replaced) =>
        next := next.(nextManaged := plan.nextManaged + [record],
                      keepDrops := WithDrop(plan.keepDrops, lineage, replaced));
        EnumerateSame(plan.creates, ToCreate(output, ix, visited), ToCreate(output, ix, more));
        EnumerateSame(plan.updates, ToUpdate(output, ix, visited), ToUpdate(output, ix, more));
        EnumerateOneMore(plan.nextManaged, ToKeep(output, ix, visited), record, ToKeep(output, ix, more));
    }
  }

  lemma VisitOwned(output: ProviderRef, ix: Indexes, visited: set<string>, lineage: string)
    requires lineage in ix.owned && ManagedLineage(ix.owned[lineage]) == lineage && lineage !in visited
    ensures var m := ix.owned[lineage]; var more := visited + {lineage};
      && !IsStaleIn(output, ix, visited, m)
      && (forall x :: IsStaleIn(output, ix, more, x) <==>
            IsStaleIn(output, ix, visited, x) || (IsStale(output, ix, m) && x == m))
  {
    hide LineageKey, LineageMatched;
  }

  /** One turn of the loop over the owned lineages. */
  method PlanOwned(
    output: ProviderRef, ix: Indexes, lineage: string, matched: set<string>, ghost visited: set<string>,
    deletes: seq<DeleteStep>, drops: seq<ManagedRecord>, retained: seq<ManagedRecord>)
    returns (deletes': seq<DeleteStep>, drops': seq<ManagedRecord>, retained': seq<ManagedRecord>)
    requires lineage in ix.owned && ManagedLineage(ix.owned[lineage]) == lineage && lineage !in visited
    requires forall l :: l in matched <==> LineageMatched(output, ix, ix.desired.Keys, l)
    requires StalePart(output, ix, visited, deletes, drops, retained)
    ensures StalePart(output, ix, visited + {lineage}, deletes', drops', retained')
  {
    hide DecideStale, LineageMatched, Enumerates, IsStaleIn, ManagedLineage;
    var m := ix.owned[lineage];
    ghost var more := visited + {lineage};
    VisitOwned(output, ix, visited, lineage);
    assert IsStale(output, ix, m) <==> lineage !in matched && lineage !in ix.desired;
    deletes', drops', retained' := deletes, drops, retained;
    if lineage in matched || lineage in ix.desired {
      EnumerateSame(deletes, ToDelete(output, ix, visited), ToDelete(output, ix, more));
      EnumerateSame(drops, ToDrop(output, ix, visited), ToDrop(output, ix, more));
      EnumerateSame(retained, ToRetain(output, ix, visited), ToRetain(output, ix, more));
    } else {
      match DecideStale(ix, m) {
        case Delete(v) =>
          deletes' := deletes + [DeleteStep(v, m)];
          EnumerateOneMore(deletes, ToDelete(output, ix, visited), DeleteStep(v, m), ToDelete(output, ix, more));
          EnumerateSame(drops, ToDrop(output, ix, visited), ToDrop(output, ix, more));
          EnumerateSame(retained, ToRetain(output, ix, visited), ToRetain(output, ix, more));
        case Retain =>
          retained' := retained + [m];
          EnumerateSame(deletes, ToDelete(output, ix, visited), ToDelete(output, ix, more));
          EnumerateSame(drops, ToDrop(output, ix, visited), ToDrop(output, ix, more));
          EnumerateOneMore(retained, ToRetain(output, ix, visited), m, ToRetain(output, ix, more));
        case Drop =>
          drops' := drops + [m];
          EnumerateSame(deletes, ToDelete(output, ix, visited), ToDelete(output, ix, more));
          EnumerateOneMore(drops, ToDrop(output, ix, visited), m, ToDrop(output, ix, more));
          EnumerateSame(retained, ToRetain(output, ix, visited), ToRetain(output, ix, more));
      }
    }
  }

  /** The planner. Both map loops visit their keys in an arbitrary order. */
  method BuildReconcilePlan(facts: Facts) returns (plan: Plan)
    ensures IsPlan(facts, plan)
  {
    hide Enumerates, ToCreate, ToUpdate, ToKeep, ToDelete, ToRetain, ToDrop, LineageKey, Index, MatchedLineage;
    var output := facts.output;
    var ix := BuildIndexes(facts);
    IndexedUnderOwnKey(facts);
    var ambiguities := FindAmbiguities(ix.byKey);

    plan := EMPTY_PLAN;
    EmptyParts(output, ix);
    var matched: set<string> := {};
    ghost var visited: set<string> := {};
    var rest := ix.desired.Keys;
    while rest != {}
      invariant visited + rest == ix.desired.Keys && visited !! rest
      invariant DesiredPart(output, ix, visited, plan)
      invariant forall l :: l in matched <==> LineageMatched(output, ix, visited, l)
    {
      var lineage :| lineage in rest;
      plan := PlanDesired(output, ix, lineage, visited, plan);
      var owned := MatchedLineage(output, ix, ix.desired[lineage]);
      matched := if owned.Some? then matched + {owned.value} else matched;
      rest, visited := rest - {lineage}, visited + {lineage};
    }
    assert visited == ix.desired.Keys;

    var deletes, drops, retained := [], [], [];
    ghost var seen: set<string> := {};
    rest := ix.owned.Keys;
    while rest != {}
      invariant seen + rest == ix.owned.Keys && seen !! rest
      invariant StalePart(output, ix, seen, deletes, drops, retained)
    {
      var lineage :| lineage in rest;
      deletes, drops, retained := PlanOwned(output, ix, lineage, matched, seen, deletes, drops, retained);
      rest, seen := rest - {lineage}, seen + {lineage};
    }
    assert seen == ix.owned.Keys;

    var creates := SortByKey(plan.creates, CreateSortKey());
    var updates := SortByKey(plan.updates, UpdateSortKey());
    EnumeratePermuted(plan.creates, creates, ToCreate(output, ix, visited));
    EnumeratePermuted(plan.updates, updates, ToUpdate(output, ix, visited));
    var sortedDeletes := SortByKey(deletes, DeleteSortKey());
    EnumeratePermuted(deletes, sortedDeletes, ToDelete(output, ix, seen));
    ghost var kept := plan.nextManaged;
    plan := Plan(creates, updates, sortedDeletes, drops, plan.createDrops, plan.updateDrops, plan.keepDrops,
                 ambiguities, plan.nextManaged + retained);
    assert plan.nextManaged == kept + retained;
    assert DesiredPart(output, ix, ix.desired.Keys, plan.(nextManaged := kept));
    assert StalePart(output, ix, ix.owned.Keys, plan.deletes, plan.drops, retained);
  }

  lemma IndexedUnderOwnKey(facts: Facts)
    ensures var ix := Index(facts);
      && (forall l :: l in ix.desired ==>
            ix.desired[l] in facts.desired && DesiredLineage(facts.output, ix.desired[l]) == l)
      && (forall l :: l in ix.owned ==>
            && ix.owned[l] in facts.managed && ix.owned[l].output == facts.output
            && ManagedLineage(ix.owned[l]) == l)
  {
    hide LineageKey;
  }

  lemma EmptyParts(output: ProviderRef, ix: Indexes)
    ensures DesiredPart(output, ix, {}, EMPTY_PLAN)
    ensures StalePart(output, ix, {}, [], [], [])
  {
    hide LineageKey, Decide, DecideStale;
  }
}
