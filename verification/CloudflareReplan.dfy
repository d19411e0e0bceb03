/** What the planner makes of a Cloudflare listing: the names it shows are full, the names it is asked for need not be. */
module CloudflareReplan {
  import opened Text
  import opened Records
  import opened Keys
  import opened Seqs
  import opened Planner
  import opened Remote
  import opened Apply
  import opened Fates
  import opened Refinement
  import opened Cloudflare
  import opened CloudflareOutput
  import opened Witnesses
  import Replay

  /** The record is the only supported one with an equivalent hostname. */
  ghost predicate OnlyEquivalent(records: seq<ZoneRecord>, r: ZoneRecord, d: DesiredRecord, zoneName: string) {
    forall x :: x in records && !x.kind.Unsupported? && HostnamesEquivalent(Normalize(x.name), d.hostname, zoneName)
      ==> x == r
  }

  /** The desired record has been applied: it is owned with the identifier of the one record that serves it. */
  ghost predicate IsServed(facts: Facts, records: seq<ZoneRecord>, zoneName: string, d: DesiredRecord, r: ZoneRecord) {
    && r in records && !r.kind.Unsupported? && r.id != "" && OnlyEquivalent(records, r, d, zoneName)
    && exists now :: ManagedAt(facts, DesiredHost(d)) == Some(Owned(facts.output, d, Some(RecordProvenance(r.id)), now))
  }

  /** The listed form of the record has the desired key. */
  predicate ListedAsWanted(output: ProviderRef, r: ZoneRecord, d: DesiredRecord) {
    VisibleKey(Listed(output, r)) == DesiredKey(d)
  }

  /** What the next plan does with an applied record that is still desired. */
  function NextFate(output: ProviderRef, r: ZoneRecord, d: DesiredRecord, kept: ManagedRecord): Fate {
    if ListedAsWanted(output, r, d) then Kept(kept, None)
    else if VisibleHost(Listed(output, r)) == DesiredHost(d) then Called(UpdateCall(Listed(output, r), d, None))
    else Called(CreateCall(d, None))
  }

  lemma {:induction false} ListedInListing(ref: ProviderRef, records: seq<ZoneRecord>, r: ZoneRecord)
    requires r in records && !r.kind.Unsupported?
    ensures Listed(ref, r) in Listing(ref, records)
  {
    hide Normalize;
    var n := |records| - 1;
    if r != records[n] {
      ListedInListing(ref, records[..n], r);
    }
  }

  /** Under the hostname the output lists the serving record, if its listed form has that hostname, and nothing else. */
  lemma ListingAtHost(
    facts: Facts, records: seq<ZoneRecord>, zoneName: string, d: DesiredRecord, r: ZoneRecord)
    requires Tidy(facts) && facts.visible == Listing(facts.output, records)
    requires r in records && !r.kind.Unsupported? && OnlyEquivalent(records, r, d, zoneName)
    ensures VisibleAt(facts, DesiredHost(d))
         == if VisibleHost(Listed(facts.output, r)) == DesiredHost(d) then [Listed(facts.output, r)] else []
  {
    hide NoBars, OneDesiredPerHost, OneManagedPerHost, RecordKey, FoldName;
    var v, host := Listed(facts.output, r), DesiredHost(d);
    var vs := VisibleAt(facts, host);
    assert |VisibleOn(facts.output, facts.visible, host)| <= 1;
    ListedInListing(facts.output, records, r);
    assert v in vs <==> VisibleHost(v) == host;
    if vs != [] {
      assert vs[0] in vs;
      var k := ListedFrom(facts.output, records, vs[0]);
      assert records[k] in records;
      SameHostIsEquivalent(vs[0].hostname, d.hostname, zoneName);
    }
  }

  lemma SameHostIsEquivalent(a: string, b: string, zoneName: string)
    requires NormalizeHostname(a) == NormalizeHostname(b)
    ensures HostnamesEquivalent(a, b, zoneName)
  {
  }

  /** What the next plan does under the hostname of a record that was applied for `e`, whatever is desired there now. */
  function FateOfApplied(
    output: ProviderRef, r: ZoneRecord, e: DesiredRecord, desired: Option<DesiredRecord>, m: ManagedRecord): Fate
  {
    var v := Listed(output, r);
    match desired
    case Some(d) =>
      if ListedAsWanted(output, r, d) then Kept(KeptRecord(output, d, m, v), Replaced(output, d, m))
      else if VisibleHost(v) == DesiredHost(e) then Called(UpdateCall(v, d, Replaced(output, d, m)))
      else Called(CreateCall(d, Replaced(output, d, m)))
    case None =>
      if ListedAsWanted(output, r, e) then Called(DeleteCall(v, m))
      else if VisibleHost(v) == DesiredHost(e) then Retained(m)
      else Forgotten(m)
  }

  /** An applied record whose listed form has another hostname is out of reach: what is desired there now is created
      next to it, and when nothing is, the daemon forgets the record and leaves it where it is. */
  lemma AppliedFate(
    facts: Facts, records: seq<ZoneRecord>, zoneName: string, e: DesiredRecord, r: ZoneRecord)
    requires Tidy(facts) && facts.visible == Listing(facts.output, records)
    requires IsServed(facts, records, zoneName, e, r)
    ensures var host := DesiredHost(e);
      && ManagedAt(facts, host).Some?
      && FateAt(facts, host) == FateOfApplied(facts.output, r, e, DesiredAt(facts, host), ManagedAt(facts, host).value)
  {
    hide LineageKey, RecordKey, NormalizeHostname, Tidy, DesiredAt, ManagedAt, VisibleAt, Normalize, OnlyEquivalent, FateOf,
         FateOfApplied, Listing;
    var host := DesiredHost(e);
    ListingAtHost(facts, records, zoneName, e, r);
    ListedInListing(facts.output, records, r);
    var now :| ManagedAt(facts, host) == Some(Owned(facts.output, e, Some(RecordProvenance(r.id)), now));
    KeyMeansHost(facts, r, e, now);
    if DesiredAt(facts, host).Some? {
      KeyMeansDesiredHost(facts, r, host);
    }
    AppliedFateOf(facts.output, r, e, DesiredAt(facts, host), now, VisibleAt(facts, host));
  }

  lemma KeyMeansHost(facts: Facts, r: ZoneRecord, e: DesiredRecord, now: int)
    requires Tidy(facts) && Listed(facts.output, r) in facts.visible
    requires ManagedAt(facts, DesiredHost(e)) == Some(Owned(facts.output, e, Some(RecordProvenance(r.id)), now))
    ensures ListedAsWanted(facts.output, r, e) ==> VisibleHost(Listed(facts.output, r)) == DesiredHost(e)
  {
    hide OneDesiredPerHost, OneManagedPerHost, OneVisiblePerHost, ManagedAt, BarFreeSource, Normalize;
    ManagedIsBarFree(facts, DesiredHost(e));
    RecordKeyFaithful(Listed(facts.output, r).hostname, Listed(facts.output, r).answer, e.hostname, e.answer);
  }

  lemma KeyMeansDesiredHost(facts: Facts, r: ZoneRecord, host: string)
    requires Tidy(facts) && Listed(facts.output, r) in facts.visible && DesiredAt(facts, host).Some?
    ensures ListedAsWanted(facts.output, r, DesiredAt(facts, host).value) ==> VisibleHost(Listed(facts.output, r)) == host
  {
    hide Index, OneDesiredPerHost, OneManagedPerHost, OneVisiblePerHost, DesiredAt, BarFreeSource, Normalize;
    var v, d := Listed(facts.output, r), DesiredAt(facts, host).value;
    DesiredAtIsWinner(facts, host);
    WinnerIsBarFree(facts, d);
    RecordKeyFaithful(v.hostname, v.answer, d.hostname, d.answer);
  }

  lemma AppliedFateOf(
    output: ProviderRef, r: ZoneRecord, e: DesiredRecord, desired: Option<DesiredRecord>, now: int, vs: seq<VisibleRecord>)
    requires r.id != "" && (ListedAsWanted(output, r, e) ==> VisibleHost(Listed(output, r)) == DesiredHost(e))
    requires desired.Some? && ListedAsWanted(output, r, desired.value) ==> VisibleHost(Listed(output, r)) == DesiredHost(e)
    requires vs == if VisibleHost(Listed(output, r)) == DesiredHost(e) then [Listed(output, r)] else []
    ensures var m := Owned(output, e, Some(RecordProvenance(r.id)), now);
      FateOf(output, desired, Some(m), vs) == FateOfApplied(output, r, e, desired, m)
  {
    hide LineageKey, RecordKey, NormalizeHostname, Normalize, WithKey, OnlyHostInCommon;
    OneWithKey(output, vs, Listed(output, r), DesiredKey(e));
    if desired.Some? {
      OneWithKey(output, vs, Listed(output, r), DesiredKey(desired.value));
    }
  }

  /** Planning again keeps an applied record that is still desired exactly when its listed form has the desired key.
      Otherwise it updates the record if the listed form has the hostname, and creates it again if not. */
  lemma ServedFate(
    facts: Facts, records: seq<ZoneRecord>, zoneName: string, d: DesiredRecord, r: ZoneRecord)
    requires Tidy(facts) && facts.visible == Listing(facts.output, records)
    requires DesiredAt(facts, DesiredHost(d)) == Some(d) && IsServed(facts, records, zoneName, d, r)
    ensures FateAt(facts, DesiredHost(d))
         == NextFate(facts.output, r, d, Owned(facts.output, d, Some(RecordProvenance(r.id)), 0))
  {
    hide LineageKey, RecordKey, NormalizeHostname, Tidy, DesiredAt, ManagedAt, VisibleAt, Normalize, OnlyEquivalent, FateOf,
         Listing;
    AppliedFate(facts, records, zoneName, d, r);
  }

  lemma OneWithKey(output: ProviderRef, vs: seq<VisibleRecord>, v: VisibleRecord, key: string)
    requires vs == [] || (vs == [v] && v.output == output)
    ensures WithKey(output, vs, key) == if vs == [v] && VisibleKey(v) == key then Some(v) else None
  {
    hide RecordKey;
    var p := Matching(ListedBy(output), VisibleKey, key);
    if vs == [v] && VisibleKey(v) == key {
      FilterOne(vs, p, 0);
    } else {
      FilterNone(vs, p);
    }
  }

  // ---- Whole plans ---------------------------------------------------------------------------------------

  /** Every desired record has been applied, and nothing else is owned. */
  ghost predicate AllServed(facts: Facts, records: seq<ZoneRecord>, zoneName: string) {
    forall host ::
      && (DesiredAt(facts, host).Some? ==> exists r :: IsServed(facts, records, zoneName, DesiredAt(facts, host).value, r))
      && (DesiredAt(facts, host).None? ==> ManagedAt(facts, host).None?)
  }

  lemma KeyIsListedByServer(facts: Facts, records: seq<ZoneRecord>, zoneName: string, d: DesiredRecord, r: ZoneRecord)
    requires Tidy(facts) && facts.visible == Listing(facts.output, records)
    requires DesiredAt(facts, DesiredHost(d)) == Some(d) && IsServed(facts, records, zoneName, d, r)
    ensures KeyIsListed(facts, DesiredKey(d)) <==> ListedAsWanted(facts.output, r, d)
  {
    hide Index, OneDesiredPerHost, OneManagedPerHost, VisibleOn, LineageKey, ManagedAt;
    ListedInListing(facts.output, records, r);
    if KeyIsListed(facts, DesiredKey(d)) {
      var v :| v in facts.visible && v.output == facts.output && VisibleKey(v) == DesiredKey(d);
      DesiredAtIsWinner(facts, DesiredHost(d));
      WinnerIsBarFree(facts, d);
      RecordKeyFaithful(v.hostname, v.answer, d.hostname, d.answer);
      var k := ListedFrom(facts.output, records, v);
      assert records[k] in records;
      hide RecordKey;
      SameHostIsEquivalent(v.hostname, d.hostname, zoneName);
    }
  }

  lemma UndesiredIsIdle(facts: Facts, host: string)
    requires DesiredAt(facts, host).None? && ManagedAt(facts, host).None?
    ensures FateAt(facts, host) == Untouched
  {
    hide DesiredAt, ManagedAt, VisibleAt;
  }

  /** When everything desired has been applied, the next plan is empty exactly if every desired key is listed. */
  lemma ReplanIsEmptyExactly(facts: Facts, records: seq<ZoneRecord>, zoneName: string, plan: Plan)
    requires Tidy(facts) && IsPlan(facts, plan) && facts.visible == Listing(facts.output, records)
    requires AllServed(facts, records, zoneName)
    ensures Calls(facts.output, plan) == []
       <==> forall host :: DesiredAt(facts, host).Some? ==> KeyIsListed(facts, DesiredKey(DesiredAt(facts, host).value))
  {
    hide Tidy, IsPlan, Calls, Listing, DesiredAt, ManagedAt, FateAt, KeyIsListed, IsServed, HostOf, ListedAsWanted;
    TidyIsOrderly(facts);
    var calls := Calls(facts.output, plan);
    forall host ensures FateAt(facts, host).Called?
      <==> DesiredAt(facts, host).Some? && !KeyIsListed(facts, DesiredKey(DesiredAt(facts, host).value))
    {
      HostIsCalled(facts, records, zoneName, host);
    }
    if calls != [] {
      CallsByFate(facts, plan, calls[0]);
      assert FateAt(facts, HostOf(calls[0])).Called?;
    }
    if host :| FateAt(facts, host).Called? {
      Replay.CallOfHost(facts, host);
      CallsByFate(facts, plan, FateAt(facts, host).call);
    }
  }

  lemma HostIsCalled(facts: Facts, records: seq<ZoneRecord>, zoneName: string, host: string)
    requires Tidy(facts) && facts.visible == Listing(facts.output, records) && AllServed(facts, records, zoneName)
    ensures FateAt(facts, host).Called?
       <==> DesiredAt(facts, host).Some? && !KeyIsListed(facts, DesiredKey(DesiredAt(facts, host).value))
  {
    hide Tidy, Listing, DesiredAt, ManagedAt, FateAt, KeyIsListed, IsServed, ListedAsWanted, DesiredHost;
    if DesiredAt(facts, host).Some? {
      var d := DesiredAt(facts, host).value;
      DesiredAtHasHost(facts, host);
      var r :| IsServed(facts, records, zoneName, d, r);
      ServedFate(facts, records, zoneName, d, r);
      KeyIsListedByServer(facts, records, zoneName, d, r);
    } else {
      UndesiredIsIdle(facts, host);
    }
  }

  lemma DesiredAtHasHost(facts: Facts, host: string)
    requires DesiredAt(facts, host).Some?
    ensures DesiredHost(DesiredAt(facts, host).value) == host
  {
    hide Index;
    DesiredAtIsWinner(facts, host);
  }

  // ---- Names that are completed ----------------------------------------------------------------------------

  lemma CompletedIsBarFree(name: string, zone: string)
    requires BarFree(name) && BarFree(zone)
    ensures BarFree(FullName(name, zone))
  {
  }

  /** The listed form has the hostname exactly if that is the zone or lies in it. */
  lemma CompletedHostIsListed(output: ProviderRef, zone: string, d: DesiredRecord, r: ZoneRecord)
    requires Plain(zone) && zone != "" && CleanEnd(Normalize(d.hostname)) && Normalize(d.hostname) != ""
    requires r.name == FullName(Normalize(d.hostname), zone)
    ensures NormalizeHostname(r.name) == Normalize(r.name) == r.name
    ensures VisibleHost(Listed(output, r)) == DesiredHost(d) <==> LiesInZone(Normalize(d.hostname), zone)
  {
    hide FoldName, Plain, CleanEnd;
    var name := Normalize(d.hostname);
    FoldNameTwice(d.hostname);
    NormalJoined(name, zone);
    if !LiesInZone(name, zone) {
      assert |r.name| > |name|;
    }
  }

  /** When such a record is no longer desired, the daemon drops its claim and leaves the record behind exactly if the
      hostname is neither the zone nor in it. */
  lemma CompletedIsForgottenExactly(
    facts: Facts, records: seq<ZoneRecord>, zone: string, d: DesiredRecord, r: ZoneRecord)
    requires Tidy(facts) && facts.visible == Listing(facts.output, records)
    requires Plain(zone) && zone != "" && IsCompleted(facts, records, zone, d, r)
    requires DesiredAt(facts, DesiredHost(d)).None?
    ensures FateAt(facts, DesiredHost(d)).Forgotten? <==> !LiesInZone(Normalize(d.hostname), zone)
  {
    hide Tidy, Listing, DesiredAt, ManagedAt, FateAt, Plain, CleanEnd, VisibleHost, DesiredHost, LiesInZone, IsServed,
         Normalize;
    AppliedFate(facts, records, zone, d, r);
    CompletedHostIsListed(facts.output, zone, d, r);
    AppliedKeyHasHost(facts, records, zone, d, r);
  }

  lemma AppliedKeyHasHost(facts: Facts, records: seq<ZoneRecord>, zoneName: string, e: DesiredRecord, r: ZoneRecord)
    requires Tidy(facts) && facts.visible == Listing(facts.output, records)
    requires IsServed(facts, records, zoneName, e, r)
    ensures ListedAsWanted(facts.output, r, e) ==> VisibleHost(Listed(facts.output, r)) == DesiredHost(e)
  {
    hide Tidy, Listing, ManagedAt, VisibleHost, DesiredHost, ListedAsWanted, OnlyEquivalent, Normalize;
    ListedInListing(facts.output, records, r);
    var now :| ManagedAt(facts, DesiredHost(e)) == Some(Owned(facts.output, e, Some(RecordProvenance(r.id)), now));
    KeyMeansHost(facts, r, e, now);
  }

  /** A service that completes names lists the desired key exactly for a hostname that is the zone or lies in it, and an
      answer that normalises alike for planner and output. A single label in a zone of its own is created in every pass. */
  lemma CompletedNameIsListed(output: ProviderRef, zone: string, d: DesiredRecord, r: ZoneRecord)
    requires Plain(zone) && zone != "" && IsSettled(d) && Normalize(d.hostname) != "" && BarFree(d.hostname) && BarFree(zone)
    requires r.name == FullName(Normalize(d.hostname), zone) && r.content == Normalize(d.answer)
    ensures ListedAsWanted(output, r, d)
       <==> LiesInZone(Normalize(d.hostname), zone) && Fold(Normalize(d.answer)) == Fold(d.answer)
  {
    hide FoldName, Fold, RecordKey, Plain, CleanEnd;
    var v := Listed(output, r);
    SettledExactly(d);
    CompletedHostIsListed(output, zone, d, r);
    FoldKeepsBarFree(d.hostname);
    CompletedIsBarFree(Normalize(d.hostname), zone);
    RecordKeyFaithful(v.hostname, v.answer, d.hostname, d.answer);
  }

  /** Everything desired has been applied to a service that completes names, and nothing else is owned. */
  ghost predicate AllCompleted(facts: Facts, records: seq<ZoneRecord>, zone: string) {
    forall host ::
      && (DesiredAt(facts, host).Some? ==> exists r :: IsCompleted(facts, records, zone, DesiredAt(facts, host).value, r))
      && (DesiredAt(facts, host).None? ==> ManagedAt(facts, host).None?)
  }

  ghost predicate IsCompleted(facts: Facts, records: seq<ZoneRecord>, zone: string, d: DesiredRecord, r: ZoneRecord) {
    && IsServed(facts, records, zone, d, r) && IsSettled(d) && Normalize(d.hostname) != ""
    && r.name == FullName(Normalize(d.hostname), zone) && r.content == Normalize(d.answer)
  }

  /** The hostname is the zone or lies in it, and planner and output normalise the answer alike. */
  predicate IsRepeated(d: DesiredRecord, zone: string) {
    LiesInZone(Normalize(d.hostname), zone) && Fold(Normalize(d.answer)) == Fold(d.answer)
  }

  /** On such a service the next plan is empty exactly if every desired hostname is the zone or lies in it, with an answer
      that planner and output normalise alike. */
  lemma CompletedReplanIsEmptyExactly(facts: Facts, records: seq<ZoneRecord>, zone: string, plan: Plan)
    requires Tidy(facts) && IsPlan(facts, plan) && facts.visible == Listing(facts.output, records)
    requires Plain(zone) && zone != "" && BarFree(zone) && AllCompleted(facts, records, zone)
    ensures Calls(facts.output, plan) == []
       <==> forall host :: DesiredAt(facts, host).Some? ==> IsRepeated(DesiredAt(facts, host).value, zone)
  {
    hide Tidy, IsPlan, Calls, Listing, DesiredAt, ManagedAt, KeyIsListed, IsCompleted, IsServed, IsRepeated, Plain, BarFree;
    forall host | DesiredAt(facts, host).Some?
      ensures exists r :: IsServed(facts, records, zone, DesiredAt(facts, host).value, r)
      ensures KeyIsListed(facts, DesiredKey(DesiredAt(facts, host).value)) <==> IsRepeated(DesiredAt(facts, host).value, zone)
    {
      var r :| IsCompleted(facts, records, zone, DesiredAt(facts, host).value, r);
      CompletedIsListed(facts, records, zone, host, r);
    }
    ReplanIsEmptyExactly(facts, records, zone, plan);
  }

  lemma CompletedIsListed(facts: Facts, records: seq<ZoneRecord>, zone: string, host: string, r: ZoneRecord)
    requires Tidy(facts) && facts.visible == Listing(facts.output, records)
    requires Plain(zone) && zone != "" && BarFree(zone)
    requires DesiredAt(facts, host).Some? && IsCompleted(facts, records, zone, DesiredAt(facts, host).value, r)
    ensures var d := DesiredAt(facts, host).value;
      && IsServed(facts, records, zone, d, r)
      && (KeyIsListed(facts, DesiredKey(d)) <==> IsRepeated(d, zone))
  {
    hide OneDesiredPerHost, OneManagedPerHost, OneVisiblePerHost, Listing, DesiredAt, KeyIsListed, IsServed, Plain, BarFree,
         ListedAsWanted, Index, DesiredHost, DesiredKey, Normalize, LiesInZone, Fold, IsSettled, NoBars, BarFreeSource;
    var d := DesiredAt(facts, host).value;
    DesiredAtHasHost(facts, host);
    DesiredAtIsWinner(facts, host);
    WinnerIsBarFree(facts, d);
    KeyIsListedByServer(facts, records, zone, d, r);
    CompletedNameIsListed(facts.output, zone, d, r);
  }

  // ---- A second record -----------------------------------------------------------------------------------------

  /** Once a second record is equivalent to the first, listing finds no single match: recovery from a duplicate is over. */
  lemma SecondIsNoMatch(ref: ProviderRef, records: seq<ZoneRecord>, r: ZoneRecord, made: ZoneRecord, hostname: string,
                        zoneName: string)
    requires r in records && !r.kind.Unsupported? && !made.kind.Unsupported?
    requires HostnamesEquivalent(Listed(ref, r).hostname, hostname, zoneName)
    requires HostnamesEquivalent(Listed(ref, made).hostname, hostname, zoneName)
    ensures |Filter(Listing(ref, records + [made]), EquivalentTo(hostname, zoneName))| >= 2
  {
    hide Normalize, HostnamesEquivalent;
    ListedInListing(ref, records, r);
    assert (records + [made])[..|records|] == records;
    var before, p := Listing(ref, records), EquivalentTo(hostname, zoneName);
    var i :| 0 <= i < |before| && before[i] == Listed(ref, r);
    assert Listing(ref, records + [made]) == before + [Listed(ref, made)];
    FilterTwo(before + [Listed(ref, made)], p, i, |before|);
  }

  const ZONE := ProviderRef("cloudflare", "zone")
  const WEB := DesiredRecord("web", "a", SourceObjectRef(ProviderRef("docker", "local"), "1", "web"), "")
  const STORED := ZoneRecord("id", A, "web.example.com", "a")
  const OWNED := Owned(ZONE, WEB, Some(RecordProvenance("id")), 0)

  lemma WebIsPlain()
    ensures Plain("web") && Plain("web.example.com") && Plain("a")
  {
  }

  lemma WebIsStoredInFull()
    ensures Normalize("web") == "web" && Normalize("web.example.com") == "web.example.com" && Normalize("a") == "a"
    ensures NormalizeHostname(Listed(ZONE, STORED).hostname) != NormalizeHostname("web")
  {
    WebIsPlain();
    hide Plain, FoldName;
    PlainIsFixed("web");
    PlainIsFixed("web.example.com");
    PlainIsFixed("a");
    assert NormalizeHostname("web.example.com") == "web.example.com" && |"web.example.com"| != |"web"|;
  }

  /** The container `web` in the zone `example.com`, created and owned: every next plan creates it again. */
  lemma SingleLabelIsCreatedAgain(plan: Plan)
    requires IsPlan(Singles(ZONE, WEB, Listed(ZONE, STORED), OWNED), plan)
    ensures Tidy(Singles(ZONE, WEB, Listed(ZONE, STORED), OWNED))
    ensures Calls(ZONE, plan) == [CreateCall(WEB, None)]
  {
    hide LineageKey, RecordKey, NormalizeHostname, Normalize, FateAt, IsPlan, Calls, Index, Tidy;
    var facts := Singles(ZONE, WEB, Listed(ZONE, STORED), OWNED);
    WebIsStoredInFull();
    SinglesAreTidy(ZONE, WEB, Listed(ZONE, STORED), OWNED);
    TidyIsOrderly(facts);
    var calls := Calls(ZONE, plan);
    WebFate(DesiredHost(WEB));
    CallsByFate(facts, plan, CreateCall(WEB, None));
    forall c | c in calls ensures c == CreateCall(WEB, None) {
      CallsByFate(facts, plan, c);
      WebFate(HostOf(c));
    }
    CallsAreDistinct(facts, plan);
    OnlyOne(calls, CreateCall(WEB, None));
  }

  lemma WebFate(host: string)
    ensures FateAt(Singles(ZONE, WEB, Listed(ZONE, STORED), OWNED), host)
         == if host == DesiredHost(WEB) then Called(CreateCall(WEB, None)) else Untouched
  {
    WebIsStoredInFull();
    hide LineageKey, RecordKey, NormalizeHostname, Normalize, DesiredAt, ManagedAt, VisibleAt;
    SinglesAt(ZONE, WEB, Listed(ZONE, STORED), OWNED, host);
  }
}
