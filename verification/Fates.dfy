/** The planner without its indexes: what happens to one hostname depends on that hostname alone. */
module Fates {
  import opened Records
  import opened Keys
  import opened Seqs
  import opened Planner
  import opened Remote

  // ---- Hypotheses ------------------------------------------------------------------------------

  predicate BarFreeDesired(d: DesiredRecord) {
    BarFreeSource(d.source) && BarFree(d.hostname)
  }

  predicate BarFreeManaged(m: ManagedRecord) {
    BarFreeRef(m.output) && BarFreeSource(m.source) && BarFree(m.hostname)
  }

  /** H1: the fields joined into keys hold no separator. */
  ghost predicate NoBars(facts: Facts) {
    && BarFreeRef(facts.output)
    && (forall d :: d in facts.desired ==> BarFreeDesired(d))
    && (forall v :: v in facts.visible && v.output == facts.output ==> BarFree(v.hostname))
    && (forall m :: m in facts.managed && m.output == facts.output ==> BarFreeManaged(m))
  }

  /** H2: after the last one of every lineage has won, hostnames are distinct. */
  ghost predicate OneDesiredPerHost(facts: Facts) {
    var winners := Index(facts).desired;
    forall k, l :: k in winners && l in winners && DesiredHost(winners[k]) == DesiredHost(winners[l]) ==> k == l
  }

  /** H3: the output's managed records have distinct hostnames. */
  ghost predicate OneManagedPerHost(output: ProviderRef, managed: seq<ManagedRecord>) {
    forall i, j :: 0 <= i < j < |managed| && managed[i].output == output == managed[j].output
      ==> ManagedHost(managed[i]) != ManagedHost(managed[j])
  }

  /** What the planner itself checks: no key is listed twice. */
  ghost predicate NoAmbiguity(facts: Facts) {
    forall k :: |Lookup(Index(facts).byKey, k)| <= 1
  }

  /** The output lists a record with the key. */
  ghost predicate KeyIsListed(facts: Facts, key: string) {
    exists v :: v in facts.visible && v.output == facts.output && VisibleKey(v) == key
  }

  /** H1 to H3 and an unambiguous listing. */
  ghost predicate Orderly(facts: Facts) {
    && NoBars(facts) && OneDesiredPerHost(facts) && OneManagedPerHost(facts.output, facts.managed)
    && NoAmbiguity(facts)
  }

  // ---- One hostname -----------------------------------------------------------------------------

  ghost function WinnerAt(winners: map<string, DesiredRecord>, host: string): Option<DesiredRecord> {
    if exists l :: l in winners && DesiredHost(winners[l]) == host
    then var l :| l in winners && DesiredHost(winners[l]) == host; Some(winners[l])
    else None
  }

  ghost function DesiredAt(facts: Facts, host: string): Option<DesiredRecord> {
    WinnerAt(Index(facts).desired, host)
  }

  function First<T>(xs: seq<T>): Option<T> {
    if xs == [] then None else Some(xs[0])
  }

  /** What a snapshot holds for an output under a hostname. */
  function ManagedIn(output: ProviderRef, managed: seq<ManagedRecord>, host: string): Option<ManagedRecord> {
    First(Filter(managed, Matching(OwnedFor(output), ManagedHost, host)))
  }

  function ManagedAt(facts: Facts, host: string): Option<ManagedRecord> {
    ManagedIn(facts.output, facts.managed, host)
  }

  /** What an output lists under a hostname. */
  function VisibleOn(output: ProviderRef, records: seq<VisibleRecord>, host: string): seq<VisibleRecord> {
    Filter(records, Matching(ListedBy(output), VisibleHost, host))
  }

  function VisibleAt(facts: Facts, host: string): seq<VisibleRecord> {
    VisibleOn(facts.output, facts.visible, host)
  }

  /** H4: the output lists at most one record for a hostname. */
  ghost predicate OneVisiblePerHost(output: ProviderRef, records: seq<VisibleRecord>) {
    forall host :: |VisibleOn(output, records, host)| <= 1
  }

  /** H1 to H4. */
  ghost predicate Tidy(facts: Facts) {
    && NoBars(facts) && OneDesiredPerHost(facts) && OneManagedPerHost(facts.output, facts.managed)
    && OneVisiblePerHost(facts.output, facts.visible)
  }

  /** The first of the listed records with the key. */
  function WithKey(output: ProviderRef, vs: seq<VisibleRecord>, key: string): Option<VisibleRecord> {
    First(Filter(vs, Matching(ListedBy(output), VisibleKey, key)))
  }

  lemma WithKeyHasKey(output: ProviderRef, vs: seq<VisibleRecord>, key: string)
    ensures var v := WithKey(output, vs, key);
      v.Some? ==> v.value in vs && VisibleKey(v.value) == key && v.value.output == output
  {
    hide RecordKey;
    var found := Filter(vs, Matching(ListedBy(output), VisibleKey, key));
    assert found != [] ==> found[0] in found;
  }

  datatype Fate =
    | Untouched
    | Called(call: Call)
    | Kept(record: ManagedRecord, replaced: Option<ManagedRecord>)
    | Retained(managed: ManagedRecord)
    | Forgotten(managed: ManagedRecord)

  /** The two records agree in the hostname and in neither source identity. */
  predicate OnlyHostInCommon(output: ProviderRef, m: ManagedRecord, d: DesiredRecord) {
    && ManagedLineage(m) != DesiredLineage(output, d)
    && DisplayLineage(output, m.source, m.hostname) != DisplayLineage(output, d.source, d.hostname)
  }

  function UpdateFate(output: ProviderRef, d: DesiredRecord, m: ManagedRecord, v: VisibleRecord): Fate {
    if CanUpdate(m, v, OnlyHostInCommon(output, m, d)) then Called(UpdateCall(v, d, Replaced(output, d, m)))
    else Untouched
  }

  /** The fate of a hostname, from the desired, the managed and the listed records that have it. */
  function FateOf(
    output: ProviderRef, desired: Option<DesiredRecord>, managed: Option<ManagedRecord>, vs: seq<VisibleRecord>): Fate
  {
    match (desired, managed)
    case (None, None) => Untouched
    case (None, Some(m)) =>
      var v := WithKey(output, vs, ManagedKey(m));
      if v.Some? && SameProvenance(m.provenance, v.value.provenance) then Called(DeleteCall(v.value, m))
      else if vs != [] then Retained(m)
      else Forgotten(m)
    case (Some(d), None) =>
      if vs == [] then Called(CreateCall(d, None)) else Untouched
    case (Some(d), Some(m)) =>
      var drifted := WithKey(output, vs, ManagedKey(m));
      var wanted := WithKey(output, vs, DesiredKey(d));
      if drifted.Some? && DesiredKey(d) != ManagedKey(m) then UpdateFate(output, d, m, drifted.value)
      else if |vs| == 1 && DesiredKey(d) != VisibleKey(vs[0]) then UpdateFate(output, d, m, vs[0])
      else if wanted.Some? then Kept(KeptRecord(output, d, m, wanted.value), Replaced(output, d, m))
      else if vs == [] then Called(CreateCall(d, Replaced(output, d, m)))
      else Untouched
  }

  ghost function FateAt(facts: Facts, host: string): Fate {
    FateOf(facts.output, DesiredAt(facts, host), ManagedAt(facts, host), VisibleAt(facts, host))
  }

  function HostOf(c: Call): string {
    match c
    case CreateCall(to, _) => DesiredHost(to)
    case UpdateCall(_, to, _) => DesiredHost(to)
    case DeleteCall(_, managed) => ManagedHost(managed)
  }

  // ---- Equal keys, equal hostnames ----------------------------------------------------------------

  lemma SameDesiredLineage(output: ProviderRef, d: DesiredRecord, m: ManagedRecord)
    requires BarFreeRef(output) && BarFreeDesired(d) && BarFreeManaged(m)
    requires DesiredLineage(output, d) == ManagedLineage(m)
    ensures DesiredHost(d) == ManagedHost(m)
  {
    LineageKeyFaithful(output, d.source.provider, d.source.id, d.hostname,
                       m.output, m.source.provider, m.source.id, m.hostname);
  }

  lemma SameManagedLineage(m: ManagedRecord, n: ManagedRecord)
    requires BarFreeManaged(m) && BarFreeManaged(n)
    requires ManagedLineage(m) == ManagedLineage(n)
    ensures ManagedHost(m) == ManagedHost(n)
  {
    LineageKeyFaithful(m.output, m.source.provider, m.source.id, m.hostname,
                       n.output, n.source.provider, n.source.id, n.hostname);
  }

  lemma SameDisplayLineage(output: ProviderRef, d: DesiredRecord, m: ManagedRecord)
    requires BarFreeRef(output) && BarFreeDesired(d) && BarFreeManaged(m)
    requires DisplayLineage(output, d.source, d.hostname) == DisplayLineage(output, m.source, m.hostname)
    ensures DesiredHost(d) == ManagedHost(m)
  {
    LineageKeyFaithful(output, d.source.provider, d.source.displayName, d.hostname,
                       output, m.source.provider, m.source.displayName, m.hostname);
  }

  // ---- Index entries of one hostname --------------------------------------------------------------

  /** The entry for a key is found among the records of the key's hostname. */
  lemma KeyEntry(facts: Facts, hostname: string, answer: string)
    requires NoBars(facts) && BarFree(hostname)
    ensures Lookup(Index(facts).byKey, RecordKey(hostname, answer))
         == Filter(VisibleAt(facts, NormalizeHostname(hostname)),
                   Matching(ListedBy(facts.output), VisibleKey, RecordKey(hostname, answer)))
  {
    var key := RecordKey(hostname, answer);
    var strong := Matching(ListedBy(facts.output), VisibleKey, key);
    var weak := Matching(ListedBy(facts.output), VisibleHost, NormalizeHostname(hostname));
    GroupByIsScan(facts.visible, ListedBy(facts.output), VisibleKey, key);
    forall v | v in facts.visible && strong(v) ensures weak(v) {
      RecordKeyFaithful(v.hostname, v.answer, hostname, answer);
    }
    hide RecordKey;
    FilterThrough(facts.visible, weak, strong);
  }

  lemma HostEntry(facts: Facts, host: string)
    ensures Lookup(Index(facts).byHost, host) == VisibleAt(facts, host)
  {
    GroupByIsScan(facts.visible, ListedBy(facts.output), VisibleHost, host);
  }

  /** H3 makes the scan for a hostname find one record or none. */
  lemma ManagedEntry(facts: Facts, host: string)
    requires OneManagedPerHost(facts.output, facts.managed)
    ensures var found := Filter(facts.managed, Matching(OwnedFor(facts.output), ManagedHost, host));
      && Lookup(Index(facts).ownedByHost, host) == found && |found| <= 1
      && (forall m :: m in facts.managed && m.output == facts.output && ManagedHost(m) == host
                      <==> Some(m) == ManagedAt(facts, host))
  {
    hide NormalizeHostname;
    var p := Matching(OwnedFor(facts.output), ManagedHost, host);
    GroupByIsScan(facts.managed, OwnedFor(facts.output), ManagedHost, host);
    if i :| 0 <= i < |facts.managed| && p(facts.managed[i]) {
      FilterOne(facts.managed, p, i);
    } else {
      FilterNone(facts.managed, p);
    }
  }

  /** Under H1 and H3 the display index of a desired record holds at most the record of its hostname. */
  lemma DisplayEntry(facts: Facts, d: DesiredRecord)
    requires NoBars(facts) && OneManagedPerHost(facts.output, facts.managed) && BarFreeDesired(d)
    ensures var display := DisplayLineage(facts.output, d.source, d.hostname);
      var m := ManagedAt(facts, DesiredHost(d));
      Lookup(Index(facts).ownedByDisplay, display)
      == if m.Some? && DisplayLineage(facts.output, m.value.source, m.value.hostname) == display then [m.value] else []
  {
    var display := DisplayLineage(facts.output, d.source, d.hostname);
    var p := Matching(OwnedFor(facts.output), DisplayLineageIn(facts.output), display);
    GroupByIsScan(facts.managed, OwnedFor(facts.output), DisplayLineageIn(facts.output), display);
    ManagedEntry(facts, DesiredHost(d));
    forall m | m in facts.managed && p(m) ensures Some(m) == ManagedAt(facts, DesiredHost(d)) {
      SameDisplayLineage(facts.output, d, m);
    }
    hide DisplayLineage, NormalizeHostname;
    if i :| 0 <= i < |facts.managed| && p(facts.managed[i]) {
      forall j | 0 <= j < |facts.managed| && j != i ensures !p(facts.managed[j]) {
        assert facts.managed[j] in facts.managed;
      }
      FilterOne(facts.managed, p, i);
    } else {
      FilterNone(facts.managed, p);
      var m := ManagedAt(facts, DesiredHost(d));
      if m.Some? {
        assert m.value in facts.managed;
        assert !p(m.value);
      }
    }
  }

  /** The lineage index agrees with the hostname: same lineage only for the record of the hostname. */
  lemma LineageEntry(facts: Facts, d: DesiredRecord)
    requires NoBars(facts) && OneManagedPerHost(facts.output, facts.managed) && BarFreeDesired(d)
    ensures var lineage := DesiredLineage(facts.output, d); var owned := Index(facts).owned;
      var m := ManagedAt(facts, DesiredHost(d));
      && (lineage in owned <==> m.Some? && ManagedLineage(m.value) == lineage)
      && (lineage in owned ==> m == Some(owned[lineage]))
  {
    var lineage := DesiredLineage(facts.output, d);
    var owned := Index(facts).owned;
    IndexedUnderOwnKey(facts);
    ManagedEntry(facts, DesiredHost(d));
    if lineage in owned {
      SameDesiredLineage(facts.output, d, owned[lineage]);
    }
  }

  /** All three lookups end at the owned record with the same hostname. */
  lemma MatchIsByHost(facts: Facts, d: DesiredRecord)
    requires NoBars(facts) && OneManagedPerHost(facts.output, facts.managed) && BarFreeDesired(d)
    ensures MatchOwned(facts.output, Index(facts), d)
         == match ManagedAt(facts, DesiredHost(d))
            case None => Unmatched
            case Some(m) => Matched(m, OnlyHostInCommon(facts.output, m, d))
  {
    LineageEntry(facts, d);
    DisplayEntry(facts, d);
    ManagedEntry(facts, DesiredHost(d));
    hide LineageKey, NormalizeHostname, Index;
  }

  // ---- The planner decides by fate ------------------------------------------------------------------

  function FateOfDecision(d: DesiredRecord, decision: Decision): Fate {
    match decision
    case Ignore => Untouched
    case Create(replaced) => Called(CreateCall(d, replaced))
    case Update(from, replaced) => Called(UpdateCall(from, d, replaced))
    case Keep(record, replaced) => Kept(record, replaced)
  }

  lemma WinnerIsDesiredAt(facts: Facts, d: DesiredRecord)
    requires OneDesiredPerHost(facts) && IsDesired(facts.output, Index(facts), Index(facts).desired.Keys, d)
    ensures DesiredAt(facts, DesiredHost(d)) == Some(d)
  {
    hide DesiredLineage, NormalizeHostname, Index;
  }

  lemma DesiredAtIsWinner(facts: Facts, host: string)
    requires DesiredAt(facts, host).Some?
    ensures var d := DesiredAt(facts, host).value;
      IsDesired(facts.output, Index(facts), Index(facts).desired.Keys, d) && DesiredHost(d) == host && d in facts.desired
  {
    IndexedUnderOwnKey(facts);
    hide DesiredLineage, NormalizeHostname, Index;
  }

  lemma WinnerIsBarFree(facts: Facts, d: DesiredRecord)
    requires NoBars(facts) && IsDesired(facts.output, Index(facts), Index(facts).desired.Keys, d)
    ensures BarFreeDesired(d)
  {
    IndexedUnderOwnKey(facts);
    hide LineageKey, Index;
  }

  lemma ManagedIsBarFree(facts: Facts, host: string)
    requires NoBars(facts) && OneManagedPerHost(facts.output, facts.managed)
    requires ManagedAt(facts, host).Some?
    ensures var m := ManagedAt(facts, host).value;
      m in facts.managed && m.output == facts.output && BarFreeManaged(m) && ManagedHost(m) == host
  {
    hide NormalizeHostname, Index;
    ManagedEntry(facts, host);
  }

  /** The branching over four indexes is the branching over one hostname's records, whatever else is desired there. */
  lemma DecideByHost(facts: Facts, d: DesiredRecord)
    requires NoBars(facts) && OneManagedPerHost(facts.output, facts.managed) && NoAmbiguity(facts)
    requires IsDesired(facts.output, Index(facts), Index(facts).desired.Keys, d)
    ensures FateOf(facts.output, Some(d), ManagedAt(facts, DesiredHost(d)), VisibleAt(facts, DesiredHost(d)))
         == FateOfDecision(d, Decide(facts.output, Index(facts), d))
  {
    hide LineageKey, RecordKey, NormalizeHostname, Index, MatchOwned, VisibleAt, CanUpdate, IsDesired,
         OneManagedPerHost, NoBars, ManagedAt, Filter, Lookup, KeptRecord, OnlyHostInCommon;
    var host := DesiredHost(d);
    WinnerIsBarFree(facts, d);
    MatchIsByHost(facts, d);
    HostEntry(facts, host);
    KeyEntry(facts, d.hostname, d.answer);
    assert |Lookup(Index(facts).byKey, DesiredKey(d))| <= 1;
    if VisibleAt(facts, host) == [] {
      FilterNone(VisibleAt(facts, host), Matching(ListedBy(facts.output), VisibleKey, DesiredKey(d)));
    }
    var m := ManagedAt(facts, host);
    if m.Some? {
      ManagedIsBarFree(facts, host);
      KeyEntry(facts, m.value.hostname, m.value.answer);
      assert |Lookup(Index(facts).byKey, ManagedKey(m.value))| <= 1;
    }
  }

  /** Under H2 that is the hostname's fate. */
  lemma DecideIsFate(facts: Facts, d: DesiredRecord)
    requires Orderly(facts) && IsDesired(facts.output, Index(facts), Index(facts).desired.Keys, d)
    ensures FateAt(facts, DesiredHost(d)) == FateOfDecision(d, Decide(facts.output, Index(facts), d))
  {
    hide DesiredHost, Index, VisibleAt, IsDesired, OneDesiredPerHost, OneManagedPerHost, NoBars, ManagedAt, DesiredAt,
         NoAmbiguity, FateOf, Decide, FateOfDecision;
    WinnerIsDesiredAt(facts, d);
    DecideByHost(facts, d);
  }

  /** Under H1 and H3 an owned record is stale exactly when nothing desired has its hostname. */
  lemma StaleIsUndesired(facts: Facts, m: ManagedRecord)
    requires NoBars(facts) && OneManagedPerHost(facts.output, facts.managed)
    ensures IsStale(facts.output, Index(facts), m)
       <==> ManagedAt(facts, ManagedHost(m)) == Some(m) && DesiredAt(facts, ManagedHost(m)).None?
  {
    hide LineageKey, NormalizeHostname, Index, MatchOwned, NoBars, OneManagedPerHost, DesiredAt, ManagedAt;
    var ix := Index(facts);
    var host := ManagedHost(m);
    if IsStale(facts.output, ix, m) {
      StaleIsAlone(facts, m);
    }
    if ManagedAt(facts, host) == Some(m) && DesiredAt(facts, host).None? {
      UndesiredIsStale(facts, m);
    }
  }

  lemma StaleIsAlone(facts: Facts, m: ManagedRecord)
    requires NoBars(facts) && OneManagedPerHost(facts.output, facts.managed)
    requires IsStale(facts.output, Index(facts), m)
    ensures ManagedAt(facts, ManagedHost(m)) == Some(m) && DesiredAt(facts, ManagedHost(m)).None?
  {
    hide LineageKey, NormalizeHostname, Index, MatchOwned, NoBars, OneManagedPerHost, DesiredAt, ManagedAt;
    var ix := Index(facts);
    var host := ManagedHost(m);
    IndexedUnderOwnKey(facts);
    ManagedEntry(facts, host);
    if DesiredAt(facts, host).Some? {
      DesiredAtIsWinner(facts, host);
      var d := DesiredAt(facts, host).value;
      WinnerIsBarFree(facts, d);
      MatchIsByHost(facts, d);
      var continued := MatchedLineage(facts.output, ix, ix.desired[DesiredLineage(facts.output, d)]);
    }
  }

  lemma UndesiredIsStale(facts: Facts, m: ManagedRecord)
    requires NoBars(facts) && OneManagedPerHost(facts.output, facts.managed)
    requires ManagedAt(facts, ManagedHost(m)) == Some(m) && DesiredAt(facts, ManagedHost(m)).None?
    ensures IsStale(facts.output, Index(facts), m)
  {
    hide LineageKey, NormalizeHostname, Index, MatchOwned, NoBars, OneManagedPerHost, ManagedAt;
    var ix := Index(facts);
    var host := ManagedHost(m);
    IndexedUnderOwnKey(facts);
    ManagedIsBarFree(facts, host);
    OwnedUnderOwnLineage(facts, m);
    forall l | l in ix.desired
      ensures l != ManagedLineage(m) && MatchedLineage(facts.output, ix, ix.desired[l]) != Some(ManagedLineage(m))
    {
      var d := ix.desired[l];
      assert DesiredHost(d) != host;
      WinnerIsBarFree(facts, d);
      if l == ManagedLineage(m) {
        SameDesiredLineage(facts.output, d, m);
      }
      MatchIsByHost(facts, d);
      var n := ManagedAt(facts, DesiredHost(d));
      if n.Some? && ManagedLineage(n.value) == ManagedLineage(m) {
        ManagedIsBarFree(facts, DesiredHost(d));
        SameManagedLineage(n.value, m);
      }
    }
  }

  lemma OwnedUnderOwnLineage(facts: Facts, m: ManagedRecord)
    requires NoBars(facts) && OneManagedPerHost(facts.output, facts.managed)
    requires m in facts.managed && m.output == facts.output
    ensures ManagedLineage(m) in Index(facts).owned && Index(facts).owned[ManagedLineage(m)] == m
  {
    IndexedUnderOwnKey(facts);
    var lineage := ManagedLineage(m);
    assert lineage in Index(facts).owned;
    SameManagedLineage(m, Index(facts).owned[lineage]);
    ManagedEntry(facts, ManagedHost(m));
    hide LineageKey, NormalizeHostname, Index;
  }

  lemma DecideStaleIsFate(facts: Facts, m: ManagedRecord)
    requires NoBars(facts) && OneManagedPerHost(facts.output, facts.managed) && NoAmbiguity(facts)
    requires IsStale(facts.output, Index(facts), m)
    ensures FateAt(facts, ManagedHost(m))
         == match DecideStale(Index(facts), m)
            case Delete(v) => Called(DeleteCall(v, m))
            case Retain => Retained(m)
            case Drop => Forgotten(m)
  {
    hide LineageKey, RecordKey, NormalizeHostname, Index, IsStale, VisibleAt, NoBars, OneManagedPerHost, ManagedAt, DesiredAt,
         Filter, Lookup;
    StaleIsUndesired(facts, m);
    ManagedIsBarFree(facts, ManagedHost(m));
    HostEntry(facts, ManagedHost(m));
    KeyEntry(facts, m.hostname, m.answer);
    assert |Lookup(Index(facts).byKey, ManagedKey(m))| <= 1;
  }

  /** One record per hostname is one record per key. */
  lemma TidyIsOrderly(facts: Facts)
    requires Tidy(facts)
    ensures Orderly(facts)
  {
    hide RecordKey, NormalizeHostname, OneDesiredPerHost, OneManagedPerHost, VisibleOn;
    forall k ensures |Lookup(Index(facts).byKey, k)| <= 1 {
      GroupByIsScan(facts.visible, ListedBy(facts.output), VisibleKey, k);
      var entry := Lookup(Index(facts).byKey, k);
      if entry != [] {
        var v := entry[0];
        assert v in entry;
        KeyEntry(facts, v.hostname, v.answer);
        FilterShrinks(VisibleAt(facts, VisibleHost(v)), Matching(ListedBy(facts.output), VisibleKey, k));
        assert |VisibleOn(facts.output, facts.visible, VisibleHost(v))| <= 1;
      }
    }
  }
}
