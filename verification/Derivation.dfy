/** From containers to desired records. */
module Derivation {
  import opened Text
  import opened Records
  import opened Seqs
  import opened Labels
  import Keys
  import opened Remote

  /** The configuration of one source. */
  datatype Settings = Settings(ref: ProviderRef, defaultTarget: string, baseDomain: string)

  function NormalizeAnswerTarget(s: string): string {
    FoldName(s)
  }

  function QualifyHostname(hostname: string, baseDomain: string): string {
    var name, base := NormalizeName(hostname), NormalizeName(baseDomain);
    if name == "" || '.' in name then name
    else if base == "" || name == base || HasSuffix(name, "." + base) then name
    else name + "." + base
  }

  function ExplicitHostOverride(labels: LabelMap, alias: string, index: nat): string {
    var own := NormalizeAnswerTarget(Get(labels, "proxy." + alias + ".host"));
    var indexed := if index > 0 then NormalizeAnswerTarget(Get(labels, "proxy.#" + Itoa(index) + ".host")) else "";
    if own != "" then own
    else if indexed != "" then indexed
    else NormalizeAnswerTarget(Get(labels, "proxy.*.host"))
  }

  function SourceOf(settings: Settings, c: Container): SourceObjectRef {
    SourceObjectRef(settings.ref, TrimSpace(c.id), DisplayName(c))
  }

  /** The record of one alias, unless its hostname or its target is empty. */
  function RecordFor(settings: Settings, c: Container, output: string, alias: Alias): Option<DesiredRecord> {
    var hostname := QualifyHostname(alias.name, settings.baseDomain);
    var explicit := ExplicitHostOverride(c.labels, alias.name, alias.position);
    var target := if explicit != "" then explicit else NormalizeAnswerTarget(settings.defaultTarget);
    if hostname == "" || target == "" then None
    else Some(DesiredRecord(hostname, NormalizeAnswerTarget(target), SourceOf(settings, c), output))
  }

  function RecordsFor(settings: Settings, c: Container, output: string, aliases: seq<Alias>): seq<DesiredRecord> {
    if aliases == [] then []
    else
      var rest := RecordsFor(settings, c, output, aliases[..|aliases| - 1]);
      var last := RecordFor(settings, c, output, aliases[|aliases| - 1]);
      if last.Some? then rest + [last.value] else rest
  }

  function DesiredSortKey(): DesiredRecord -> string {
    (d: DesiredRecord) => d.hostname + "|" + (d.answer + "|" + d.source.id)
  }

  /** The records of one container, in the order of their keys. */
  ghost predicate Derives(settings: Settings, c: Container, records: seq<DesiredRecord>) {
    if IsExcluded(c.labels) || DnsOutputType(c.labels).None? then records == []
    else
      exists aliases :: AreAliases(c, aliases) && SortedBy(records, DesiredSortKey())
        && multiset(records) == multiset(RecordsFor(settings, c, DnsOutputType(c.labels).value, aliases))
  }

  method DeriveDesiredRecords(settings: Settings, c: Container) returns (records: seq<DesiredRecord>)
    ensures Derives(settings, c, records)
  {
    hide RecordFor, AreAliases, DnsOutputType, IsExcluded, SortedBy, DesiredSortKey;
    if IsExcluded(c.labels) || DnsOutputType(c.labels).None? {
      return [];
    }
    var output := DnsOutputType(c.labels).value;
    var aliases := CollectAliases(c);
    records := [];
    for i := 0 to |aliases|
      invariant records == RecordsFor(settings, c, output, aliases[..i])
    {
      assert aliases[..i + 1][..i] == aliases[..i];
      var record := RecordFor(settings, c, output, aliases[i]);
      if record.Some? {
        records := records + [record.value];
      }
    }
    assert aliases[..|aliases|] == aliases;
    records := SortByKey(records, DesiredSortKey());
  }

  /** No container that yields a record is filtered out of the lifecycle events. */
  lemma DerivedIsWatched(settings: Settings, c: Container, records: seq<DesiredRecord>)
    requires Derives(settings, c, records) && records != []
    ensures IsRelevant(c.labels)
  {
    hide RecordFor, AreAliases, DnsOutputType, IsExcluded, SortedBy, DesiredSortKey, DisplayName, NormalizeName,
         HasWildcardOrIndexedPort, HasExplicit, HasNamed;
    var output := DnsOutputType(c.labels).value;
    var aliases :| AreAliases(c, aliases) && SortedBy(records, DesiredSortKey())
      && multiset(records) == multiset(RecordsFor(settings, c, output, aliases));
    assert records[0] in multiset(records);
    assert aliases != [];
    ReadersAgree(c, aliases);
    AliasesNeedAName(c, aliases);
  }

  lemma AliasesNeedAName(c: Container, aliases: seq<Alias>)
    requires AreAliases(c, aliases) && aliases != []
    ensures || NormalizeName(DisplayName(c)) != "" || IsExcluded(c.labels) || !HasWildcardOrIndexedPort(c.labels)
            || HasExplicit(c.labels) || HasNamed(c.labels)
  {
    hide DisplayName, NormalizeName, HasWildcardOrIndexedPort, IsExplicit, IsDiscovered, SupportedNamedPortAlias,
         TrimSpace, IsExcluded, Split;
    var explicit := ExplicitAliases(c.labels, |Parts(c.labels)|);
    var names :| IsDiscovered(c.labels, explicit, names)
      && aliases == if explicit + Unpositioned(names) != [] then explicit + Unpositioned(names) else Fallback(c);
    ExplicitIsFound(c.labels, |Parts(c.labels)|);
    NamedIsFound(c.labels, explicit, names);
  }

  // ---- The whole source --------------------------------------------------------------------------------------

  function Flatten(parts: seq<seq<DesiredRecord>>): seq<DesiredRecord> {
    if parts == [] then [] else Flatten(parts[..|parts| - 1]) + parts[|parts| - 1]
  }

  ghost predicate AreParts(settings: Settings, containers: seq<Container>, parts: seq<seq<DesiredRecord>>) {
    && |parts| == |containers|
    && forall i :: 0 <= i < |parts| ==>
         if containers[i].running then Derives(settings, containers[i], parts[i]) else parts[i] == []
  }

  ghost predicate IsListing(settings: Settings, containers: seq<Container>, desired: seq<DesiredRecord>) {
    && SortedBy(desired, DesiredSortKey())
    && exists parts :: AreParts(settings, containers, parts) && multiset(desired) == multiset(Flatten(parts))
  }

  /** What the container engine answers: its containers, or an error that is a cancellation or another one. */
  datatype Answer = Containers(containers: seq<Container>) | Cancelled | Unavailable

  /** A failed listing lists nothing; it is temporary unless it was cancelled. */
  method ListDesired(settings: Settings, answer: Answer) returns (desired: seq<DesiredRecord>, fault: Option<Fault>)
    ensures answer.Containers? ==> fault.None? && IsListing(settings, answer.containers, desired)
    ensures !answer.Containers? ==> desired == [] && fault == Some(if answer.Cancelled? then Permanent else Temporary)
  {
    hide Derives, SortedBy, DesiredSortKey;
    desired, fault := [], None;
    if !answer.Containers? {
      return [], Some(if answer.Cancelled? then Permanent else Temporary);
    }
    var containers := answer.containers;
    ghost var parts: seq<seq<DesiredRecord>> := [];
    for i := 0 to |containers|
      invariant AreParts(settings, containers[..i], parts) && desired == Flatten(parts)
    {
      var records := [];
      if containers[i].running {
        records := DeriveDesiredRecords(settings, containers[i]);
      }
      assert (parts + [records])[..|parts|] == parts;
      desired, parts := desired + records, parts + [records];
    }
    assert containers[..|containers|] == containers;
    desired := SortByKey(desired, DesiredSortKey());
  }

  // ---- One listing -------------------------------------------------------------------------------------------

  lemma {:induction false} RecordsHaveSource(
    settings: Settings, c: Container, output: string, aliases: seq<Alias>, d: DesiredRecord)
    requires d in RecordsFor(settings, c, output, aliases)
    ensures d.source == SourceOf(settings, c) && d.output == output
  {
    hide QualifyHostname, ExplicitHostOverride, SourceOf, NormalizeAnswerTarget;
    var n := |aliases| - 1;
    if d in RecordsFor(settings, c, output, aliases[..n]) {
      RecordsHaveSource(settings, c, output, aliases[..n], d);
    }
  }

  /** A container's records share source and output type. */
  lemma DerivedHaveSource(settings: Settings, c: Container, records: seq<DesiredRecord>, d: DesiredRecord)
    requires Derives(settings, c, records) && d in records
    ensures DnsOutputType(c.labels).Some?
    ensures d.source == SourceOf(settings, c) && d.output == DnsOutputType(c.labels).value
  {
    hide RecordsFor, AreAliases, DnsOutputType, IsExcluded, SortedBy, DesiredSortKey, SourceOf;
    var output := DnsOutputType(c.labels).value;
    var aliases :| AreAliases(c, aliases) && SortedBy(records, DesiredSortKey())
      && multiset(records) == multiset(RecordsFor(settings, c, output, aliases));
    assert d in multiset(records);
    RecordsHaveSource(settings, c, output, aliases, d);
  }

  lemma DerivedIsDetermined(settings: Settings, c: Container, a: seq<DesiredRecord>, b: seq<DesiredRecord>)
    requires Derives(settings, c, a) && Derives(settings, c, b)
    ensures multiset(a) == multiset(b)
  {
    hide RecordsFor, AreAliases, DnsOutputType, IsExcluded, SortedBy, DesiredSortKey;
    if !IsExcluded(c.labels) && DnsOutputType(c.labels).Some? {
      var output := DnsOutputType(c.labels).value;
      var m :| AreAliases(c, m) && SortedBy(a, DesiredSortKey())
        && multiset(a) == multiset(RecordsFor(settings, c, output, m));
      var n :| AreAliases(c, n) && SortedBy(b, DesiredSortKey())
        && multiset(b) == multiset(RecordsFor(settings, c, output, n));
      AliasesAreDetermined(c, m, n);
    }
  }

  lemma {:induction false} PartsAreDetermined(
    settings: Settings, containers: seq<Container>, a: seq<seq<DesiredRecord>>, b: seq<seq<DesiredRecord>>)
    requires AreParts(settings, containers, a) && AreParts(settings, containers, b)
    ensures multiset(Flatten(a)) == multiset(Flatten(b))
  {
    hide Derives;
    if a != [] {
      var n := |a| - 1;
      PartsAreDetermined(settings, containers[..n], a[..n], b[..n]);
      if containers[n].running {
        DerivedIsDetermined(settings, containers[n], a[n], b[n]);
      }
    }
  }

  lemma {:induction false} FlattenedFrom(parts: seq<seq<DesiredRecord>>, d: DesiredRecord) returns (i: nat)
    requires d in Flatten(parts)
    ensures i < |parts| && d in parts[i]
  {
    i := |parts| - 1;
    if d !in parts[i] {
      i := FlattenedFrom(parts[..i], d);
    }
  }

  ghost predicate DistinctIDs(containers: seq<Container>) {
    forall i, j :: 0 <= i < j < |containers| ==> TrimSpace(containers[i].id) != TrimSpace(containers[j].id)
  }

  ghost predicate BarFreeRecords(records: seq<DesiredRecord>) {
    forall d :: d in records ==> Keys.BarFree(d.hostname) && Keys.BarFree(d.answer)
  }

  lemma SameKeySameRecord(
    settings: Settings, containers: seq<Container>, parts: seq<seq<DesiredRecord>>, d: DesiredRecord, e: DesiredRecord)
    requires AreParts(settings, containers, parts) && DistinctIDs(containers)
    requires d in Flatten(parts) && e in Flatten(parts) && BarFreeRecords([d, e])
    requires DesiredSortKey()(d) == DesiredSortKey()(e)
    ensures d == e
  {
    hide Derives, TrimSpace, DnsOutputType, DisplayName;
    assert d in [d, e] && e in [d, e];
    Keys.JoinInjective(d.hostname, d.answer + "|" + d.source.id, e.hostname, e.answer + "|" + e.source.id);
    Keys.JoinInjective(d.answer, d.source.id, e.answer, e.source.id);
    var i := FlattenedFrom(parts, d);
    var j := FlattenedFrom(parts, e);
    DerivedHaveSource(settings, containers[i], parts[i], d);
    DerivedHaveSource(settings, containers[j], parts[j], e);
  }

  /** The running containers determine the list of desired records, whatever order labels are visited in and however
      the sort treats equal keys: so the last one of a lineage is always the same one. */
  lemma ListingIsDetermined(
    settings: Settings, containers: seq<Container>, a: seq<DesiredRecord>, b: seq<DesiredRecord>)
    requires IsListing(settings, containers, a) && IsListing(settings, containers, b)
    requires DistinctIDs(containers) && BarFreeRecords(a)
    ensures a == b
  {
    hide AreParts, SortedBy, DistinctIDs, DesiredSortKey;
    var p :| AreParts(settings, containers, p) && multiset(a) == multiset(Flatten(p));
    var q :| AreParts(settings, containers, q) && multiset(b) == multiset(Flatten(q));
    PartsAreDetermined(settings, containers, p, q);
    forall x, y | x in a && y in a && DesiredSortKey()(x) == DesiredSortKey()(y) ensures x == y {
      assert x in multiset(a) && y in multiset(a);
      SameKeySameRecord(settings, containers, p, x, y);
    }
    SortedIsUnique(a, b, DesiredSortKey());
  }
}
