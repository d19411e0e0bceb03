/** One successful call, seen hostname by hostname: it settles its own and touches no other. */
module Steps {
  import opened Records
  import opened Keys
  import opened Seqs
  import opened Planner
  import opened Remote
  import opened Apply
  import opened Fates
  import opened Cells

  // ---- The listing -----------------------------------------------------------------------------

  lemma SplitAt(output: ProviderRef, records: seq<VisibleRecord>, i: nat, host: string)
    requires i < |records|
    ensures VisibleOn(output, records, host)
         == VisibleOn(output, records[..i], host) + VisibleOn(output, [records[i]], host)
            + VisibleOn(output, records[i + 1..], host)
  {
    var p := Matching(ListedBy(output), VisibleHost, host);
    assert records == records[..i] + ([records[i]] + records[i + 1..]);
    FilterConcat([records[i]], records[i + 1..], p);
    FilterConcat(records[..i], [records[i]] + records[i + 1..], p);
  }

  lemma OneListed(output: ProviderRef, v: VisibleRecord, host: string)
    ensures VisibleOn(output, [v], host) == if v.output == output && VisibleHost(v) == host then [v] else []
  {
    FilterSingle(v, Matching(ListedBy(output), VisibleHost, host));
  }

  /** The record a call puts in the place of the old one. */
  function Listed(r: RemoteState, c: Call): seq<VisibleRecord> {
    match c
    case CreateCall(to, _) => [VisibleRecord(r.provider, to.hostname, to.answer, NewProvenance(r))]
    case UpdateCall(from, to, _) => [VisibleRecord(r.provider, to.hostname, to.answer, from.provenance)]
    case DeleteCall(_, _) => []
  }

  /** The call finds what its fate was decided on. */
  predicate Targets(c: Call, vs: seq<VisibleRecord>) {
    match c
    case CreateCall(_, _) => vs == []
    case UpdateCall(from, _, _) => vs == [from]
    case DeleteCall(visible, _) => vs == [visible]
  }

  lemma MutateListing(r: RemoteState, c: Call, host: string)
    requires OneVisiblePerHost(r.provider, r.records)
    requires Targets(c, VisibleOn(r.provider, r.records, HostOf(c)))
    ensures Possible(r, c)
    ensures Mutate(r, c).provider == r.provider
    ensures VisibleOn(r.provider, Mutate(r, c).records, host)
         == if host == HostOf(c) then Listed(r, c) else VisibleOn(r.provider, r.records, host)
  {
    hide NormalizeHostname, VisibleOn;
    match c {
      case CreateCall(to, _) =>
        FilterConcat(r.records, Listed(r, c), Matching(ListedBy(r.provider), VisibleHost, host));
        assert VisibleOn(r.provider, r.records + Listed(r, c), host)
            == VisibleOn(r.provider, r.records, host) + VisibleOn(r.provider, Listed(r, c), host) by {
          ConcatListing(r.provider, r.records, Listed(r, c), host);
        }
        OneListed(r.provider, Listed(r, c)[0], host);
      case UpdateCall(from, to, _) =>
        TargetIsListed(r, from, HostOf(c));
        ReplaceListing(r.provider, r.records, IndexOf(r.records, from), Listed(r, c), host, HostOf(c));
        var i := IndexOf(r.records, from);
        assert r.records[i := Listed(r, c)[0]] == r.records[..i] + Listed(r, c) + r.records[i + 1..];
        OneListed(r.provider, Listed(r, c)[0], host);
      case DeleteCall(visible, _) =>
        TargetIsListed(r, visible, HostOf(c));
        var i := IndexOf(r.records, visible);
        ReplaceListing(r.provider, r.records, i, [], host, HostOf(c));
        assert r.records[..i] + [] + r.records[i + 1..] == r.records[..i] + r.records[i + 1..];
        EmptyListing(r.provider, host);
    }
  }

  lemma EmptyListing(output: ProviderRef, host: string)
    ensures VisibleOn(output, [], host) == []
  {
  }

  lemma ConcatListing(output: ProviderRef, a: seq<VisibleRecord>, b: seq<VisibleRecord>, host: string)
    ensures VisibleOn(output, a + b, host) == VisibleOn(output, a, host) + VisibleOn(output, b, host)
  {
    FilterConcat(a, b, Matching(ListedBy(output), VisibleHost, host));
  }

  lemma TargetIsListed(r: RemoteState, v: VisibleRecord, host: string)
    requires VisibleOn(r.provider, r.records, host) == [v]
    ensures v in r.records && v.output == r.provider && VisibleHost(v) == host
  {
    hide NormalizeHostname;
    assert v in VisibleOn(r.provider, r.records, host);
  }

  /** Cutting one listed record out and putting `insert` in its place. */
  lemma ReplaceListing(
    output: ProviderRef, records: seq<VisibleRecord>, i: nat, insert: seq<VisibleRecord>, host: string, own: string)
    requires i < |records| && records[i].output == output && VisibleHost(records[i]) == own
    requires |VisibleOn(output, records, own)| <= 1
    ensures VisibleOn(output, records[..i] + insert + records[i + 1..], host)
         == (if host == own then VisibleOn(output, insert, host)
             else VisibleOn(output, records[..i], host) + VisibleOn(output, insert, host)
                  + VisibleOn(output, records[i + 1..], host))
    ensures host != own ==>
      VisibleOn(output, records, host)
      == VisibleOn(output, records[..i], host) + VisibleOn(output, records[i + 1..], host)
  {
    hide NormalizeHostname, VisibleOn;
    SplitAt(output, records, i, host);
    SplitAt(output, records, i, own);
    OneListed(output, records[i], host);
    OneListed(output, records[i], own);
    ConcatListing(output, records[..i] + insert, records[i + 1..], host);
    ConcatListing(output, records[..i], insert, host);
  }

  // ---- The bookkeeping ---------------------------------------------------------------------------

  ghost predicate OneRecordPerHost(recs: Lineages) {
    forall k, l :: k in recs && l in recs && ManagedHost(recs[k]) == ManagedHost(recs[l]) ==> k == l
  }

  /** What the bookkeeping holds for a hostname. */
  ghost function CellOf(recs: Lineages, host: string): Option<ManagedRecord> {
    if exists l :: l in recs && ManagedHost(recs[l]) == host
    then var l :| l in recs && ManagedHost(recs[l]) == host; Some(recs[l])
    else None
  }

  lemma CellOfIs(output: ProviderRef, recs: Lineages, host: string)
    requires OwnKeys(output, recs) && OneRecordPerHost(recs)
    ensures CellIs(recs, host, CellOf(recs, host))
    ensures CellOf(recs, host).Some? ==> CellOf(recs, host).value.output == output
  {
    hide ManagedLineage, ManagedHost;
  }

  lemma CellIsUnique(recs: Lineages, host: string, a: Option<ManagedRecord>, b: Option<ManagedRecord>)
    requires CellIs(recs, host, a) && CellIs(recs, host, b)
    ensures a == b
  {
    hide ManagedLineage, ManagedHost;
  }

  lemma CellsAreOnePerHost(output: ProviderRef, recs: Lineages, cells: string -> Option<ManagedRecord>)
    requires OwnKeys(output, recs) && CellsAre(recs, cells)
    ensures OneRecordPerHost(recs)
    ensures forall host :: CellOf(recs, host) == cells(host)
  {
    hide ManagedLineage, ManagedHost;
    forall k, l | k in recs && l in recs && ManagedHost(recs[k]) == ManagedHost(recs[l]) ensures k == l {
      assert CellIs(recs, ManagedHost(recs[k]), cells(ManagedHost(recs[k])));
    }
    forall host ensures CellOf(recs, host) == cells(host) {
      CellOfIs(output, recs, host);
      CellIsUnique(recs, host, CellOf(recs, host), cells(host));
    }
  }

  /** The record a call leaves under its hostname. */
  function Booked(output: ProviderRef, c: Call, response: Option<RecordProvenance>, now: int): Option<ManagedRecord> {
    match c
    case CreateCall(to, _) => Some(Owned(output, to, response, now))
    case UpdateCall(from, to, _) => Some(Owned(output, to, NextProvenance(response, from.provenance), now))
    case DeleteCall(_, _) => None
  }

  /** The call's bookkeeping refers to the record its hostname holds. */
  ghost predicate Continues(output: ProviderRef, c: Call, cell: Option<ManagedRecord>) {
    match c
    case CreateCall(to, replaced) => replaced == ReplacedCell(output, to, cell)
    case UpdateCall(_, to, replaced) => replaced == ReplacedCell(output, to, cell)
    case DeleteCall(_, managed) => cell == Some(managed)
  }

  ghost function ReplacedCell(output: ProviderRef, d: DesiredRecord, cell: Option<ManagedRecord>): Option<ManagedRecord> {
    match cell
    case None => None
    case Some(m) => Replaced(output, d, m)
  }

  ghost predicate BarFreeRecords(recs: Lineages) {
    forall l :: l in recs ==> BarFreeManaged(recs[l])
  }

  predicate BarFreeCall(c: Call) {
    c.DeleteCall? || BarFreeDesired(c.to)
  }

  lemma OwnedIs(output: ProviderRef, d: DesiredRecord, provenance: Option<RecordProvenance>, now: int)
    ensures var m := Owned(output, d, provenance, now);
      && ManagedLineage(m) == DesiredLineage(output, d) && ManagedHost(m) == DesiredHost(d) && m.output == output
      && ManagedKey(m) == DesiredKey(d)
      && (BarFreeRef(output) && BarFreeDesired(d) ==> BarFreeManaged(m))
  {
    hide LineageKey, NormalizeHostname, RecordKey;
  }

  lemma CommitCell(
    output: ProviderRef, recs: Lineages, c: Call, response: Option<RecordProvenance>, now: int, host: string)
    requires OwnKeys(output, recs) && OneRecordPerHost(recs) && BarFreeRecords(recs)
    requires BarFreeRef(output) && BarFreeCall(c)
    requires Continues(output, c, CellOf(recs, HostOf(c)))
    ensures CellIs(Commit(output, recs, c, response, now), host,
                   if host == HostOf(c) then Booked(output, c, response, now) else CellOf(recs, host))
    ensures BarFreeRecords(Commit(output, recs, c, response, now))
  {
    hide LineageKey, NormalizeHostname, CellOf, BarFreeManaged, BarFreeDesired, Owned;
    CellOfIs(output, recs, HostOf(c));
    CellOfIs(output, recs, host);
    if c.DeleteCall? {
      RemoveCell(recs, c.managed, host, CellOf(recs, host));
    } else {
      var m := Booked(output, c, response, now).value;
      var provenance := if c.CreateCall? then response else NextProvenance(response, c.from.provenance);
      OwnedIs(output, c.to, provenance, now);
      PutCell(output, recs, c.to, m, CellOf(recs, HostOf(c)), host, CellOf(recs, host));
    }
  }

  lemma RemoveCell(recs: Lineages, m: ManagedRecord, host: string, cell: Option<ManagedRecord>)
    requires CellIs(recs, ManagedHost(m), Some(m)) && CellIs(recs, host, cell)
    ensures CellIs(recs - {ManagedLineage(m)}, host, if host == ManagedHost(m) then None else cell)
  {
    hide ManagedLineage, ManagedHost;
  }

  /** Storing the new record under its lineage and dropping the old lineage leaves just the new record. */
  lemma PutCell(
    output: ProviderRef, recs: Lineages, d: DesiredRecord, m: ManagedRecord, old_: Option<ManagedRecord>,
    host: string, cell: Option<ManagedRecord>)
    requires OwnKeys(output, recs) && BarFreeRecords(recs)
    requires BarFreeManaged(m) && ManagedLineage(m) == DesiredLineage(output, d) && ManagedHost(m) == DesiredHost(d)
    requires CellIs(recs, DesiredHost(d), old_) && CellIs(recs, host, cell)
    ensures CellIs(RemoveLineage(recs[DesiredLineage(output, d) := m], ReplacedCell(output, d, old_)), host,
                   if host == DesiredHost(d) then Some(m) else cell)
  {
    hide DesiredLineage, ManagedLineage, ManagedHost, DesiredHost, BarFreeManaged;
    var lineage := DesiredLineage(output, d);
    if lineage in recs {
      SameManagedLineage(recs[lineage], m);
    }
  }
}
