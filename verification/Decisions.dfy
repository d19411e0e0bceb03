/** What the planner does, read off the records alone: one exact condition for each thing that can happen to a record. */
module Decisions {
  import opened Text
  import opened Records
  import opened Keys
  import opened Seqs
  import opened Planner
  import opened Remote
  import opened Apply
  import opened Fates
  import opened Refinement

  // ---- The conditions ----------------------------------------------------------------------------------------

  /** The source provider agrees, and so does the object's identifier or its display name. */
  predicate SameObject(m: ManagedRecord, d: DesiredRecord) {
    && Fold(m.source.provider.typ) == Fold(d.source.provider.typ)
    && Fold(m.source.provider.name) == Fold(d.source.provider.name)
    && (Fold(m.source.id) == Fold(d.source.id) || Fold(m.source.displayName) == Fold(d.source.displayName))
  }

  /** The listed record is known to be the owned one: by its identifier if it shows one, else because the same object
      still wants the hostname. */
  predicate IsKnown(m: ManagedRecord, d: DesiredRecord, v: VisibleRecord) {
    if v.provenance.Some? && v.provenance.value.remoteID != "" then m.provenance == v.provenance else SameObject(m, d)
  }

  /** The listed record is not what is desired, and it is what was applied or the only one of the hostname. */
  ghost predicate Drifted(facts: Facts, d: DesiredRecord, m: ManagedRecord, v: VisibleRecord) {
    var vs := VisibleAt(facts, DesiredHost(d));
    && v in vs && Fold(v.answer) != Fold(d.answer)
    && (Fold(v.answer) == Fold(m.answer) || vs == [v])
  }

  /** The hostname is desired, and the output has a record that says so. */
  ghost predicate IsListed(facts: Facts, d: DesiredRecord) {
    exists v :: v in VisibleAt(facts, DesiredHost(d)) && Fold(v.answer) == Fold(d.answer)
  }

  /** The listed record is the applied one, by answer and by identifier. */
  ghost predicate IsProven(facts: Facts, m: ManagedRecord, v: VisibleRecord) {
    && v in VisibleAt(facts, ManagedHost(m)) && Fold(v.answer) == Fold(m.answer)
    && v.provenance.Some? && v.provenance.value.remoteID != "" && m.provenance == v.provenance
  }

  // ---- What is desired -----------------------------------------------------------------------------------------

  /** Position `i` holds the last desired record of its lineage. */
  ghost predicate IsLastOfLineage(facts: Facts, i: nat)
    requires i < |facts.desired|
  {
    forall j :: i < j < |facts.desired| ==>
      DesiredLineage(facts.output, facts.desired[j]) != DesiredLineage(facts.output, facts.desired[i])
  }

  lemma WinnerHasPosition(facts: Facts, d: DesiredRecord) returns (i: nat)
    requires IsDesired(facts.output, Index(facts), Index(facts).desired.Keys, d)
    ensures i < |facts.desired| && facts.desired[i] == d && IsLastOfLineage(facts, i)
  {
    hide LineageKey;
    i := LastByHasPosition(facts.desired, Any(), DesiredLineageIn(facts.output), DesiredLineage(facts.output, d));
    assert forall j :: i < j < |facts.desired| ==> Any()(facts.desired[j]);
  }

  lemma LastWins(facts: Facts, i: nat)
    requires i < |facts.desired| && IsLastOfLineage(facts, i)
    ensures IsDesired(facts.output, Index(facts), Index(facts).desired.Keys, facts.desired[i])
  {
    hide LineageKey;
    assert IsLastAt(facts.desired, Any(), DesiredLineageIn(facts.output), i);
    LastByIsLast(facts.desired, Any(), DesiredLineageIn(facts.output), i);
  }

  /** Under H2 the desired record of a hostname is the one that is last of its lineage. */
  lemma DesiredExactly(facts: Facts, host: string, d: DesiredRecord)
    requires OneDesiredPerHost(facts)
    ensures DesiredAt(facts, host) == Some(d)
       <==> && DesiredHost(d) == host
            && exists i :: 0 <= i < |facts.desired| && facts.desired[i] == d && IsLastOfLineage(facts, i)
  {
    hide OneDesiredPerHost, DesiredAt, Index, IsDesired, DesiredHost, IsLastOfLineage;
    if DesiredAt(facts, host) == Some(d) {
      DesiredAtIsWinner(facts, host);
      var i := WinnerHasPosition(facts, d);
    }
    if i :| 0 <= i < |facts.desired| && facts.desired[i] == d && IsLastOfLineage(facts, i) {
      LastWins(facts, i);
      WinnerIsDesiredAt(facts, d);
    }
  }

  // ---- Keys of one hostname are answers ------------------------------------------------------------------------

  lemma ListedAt(facts: Facts, host: string, v: VisibleRecord)
    requires NoBars(facts) && v in VisibleAt(facts, host)
    ensures v in facts.visible && v.output == facts.output && VisibleHost(v) == host && BarFree(v.hostname)
  {
    hide NormalizeHostname, BarFree;
  }

  /** The one record of a hostname with the answer, or none. */
  lemma WithAnswer(facts: Facts, host: string, hostname: string, answer: string)
    requires NoBars(facts) && NoAmbiguity(facts) && BarFree(hostname) && NormalizeHostname(hostname) == host
    ensures var found := WithKey(facts.output, VisibleAt(facts, host), RecordKey(hostname, answer));
      forall v :: v in VisibleAt(facts, host) && Fold(v.answer) == Fold(answer) <==> found == Some(v)
  {
    hide NoBars, NoAmbiguity, VisibleAt, BarFree, RecordKey, NormalizeHostname, Filter;
    var vs, key := VisibleAt(facts, host), RecordKey(hostname, answer);
    WithKeyHasKey(facts.output, vs, key);
    forall v ensures v in vs && Fold(v.answer) == Fold(answer) <==> WithKey(facts.output, vs, key) == Some(v) {
      if v in vs {
        ListedAt(facts, host, v);
        RecordKeyFaithful(v.hostname, v.answer, hostname, answer);
        OneOfKey(facts, host, v);
      }
    }
  }

  lemma OneOfKey(facts: Facts, host: string, v: VisibleRecord)
    requires NoBars(facts) && NoAmbiguity(facts) && v in VisibleAt(facts, host)
    ensures WithKey(facts.output, VisibleAt(facts, host), VisibleKey(v)) == Some(v)
  {
    hide NoBars, BarFree, RecordKey, NormalizeHostname, GroupBy, LastBy;
    ListedAt(facts, host, v);
    KeyEntry(facts, v.hostname, v.answer);
    assert |Lookup(Index(facts).byKey, VisibleKey(v))| <= 1;
    assert v in Filter(VisibleAt(facts, host), Matching(ListedBy(facts.output), VisibleKey, VisibleKey(v)));
  }

  /** What the fate of a hostname looks at. */
  ghost predicate SeesAnswers(facts: Facts, host: string, hostname: string, answer: string) {
    var found := WithKey(facts.output, VisibleAt(facts, host), RecordKey(hostname, answer));
    forall v :: v in VisibleAt(facts, host) && Fold(v.answer) == Fold(answer) <==> found == Some(v)
  }

  lemma DesiredAnswers(facts: Facts, host: string)
    requires Orderly(facts) && DesiredAt(facts, host).Some?
    ensures var d := DesiredAt(facts, host).value;
      && DesiredHost(d) == host && BarFreeDesired(d) && SeesAnswers(facts, host, d.hostname, d.answer)
  {
    hide NoBars, NoAmbiguity, VisibleAt, BarFree, BarFreeSource, RecordKey, NormalizeHostname, DesiredAt, OneDesiredPerHost,
         OneManagedPerHost, Index;
    DesiredAtIsWinner(facts, host);
    var d := DesiredAt(facts, host).value;
    WinnerIsBarFree(facts, d);
    WithAnswer(facts, host, d.hostname, d.answer);
  }

  lemma ManagedAnswers(facts: Facts, host: string)
    requires Orderly(facts) && ManagedAt(facts, host).Some?
    ensures var m := ManagedAt(facts, host).value;
      && m.output == facts.output && ManagedHost(m) == host && BarFreeManaged(m)
      && SeesAnswers(facts, host, m.hostname, m.answer)
  {
    hide NoBars, NoAmbiguity, VisibleAt, BarFree, BarFreeSource, RecordKey, NormalizeHostname, ManagedAt, OneDesiredPerHost,
         OneManagedPerHost;
    ManagedIsBarFree(facts, host);
    var m := ManagedAt(facts, host).value;
    WithAnswer(facts, host, m.hostname, m.answer);
  }

  lemma ObjectsByKey(output: ProviderRef, m: ManagedRecord, d: DesiredRecord)
    requires BarFreeRef(output) && BarFreeManaged(m) && BarFreeDesired(d) && m.output == output
    requires ManagedHost(m) == DesiredHost(d)
    ensures OnlyHostInCommon(output, m, d) <==> !SameObject(m, d)
  {
    hide LineageKey, Fold, BarFree;
    LineageKeyFaithful(m.output, m.source.provider, m.source.id, m.hostname,
                       output, d.source.provider, d.source.id, d.hostname);
    LineageKeyFaithful(output, m.source.provider, m.source.displayName, m.hostname,
                       output, d.source.provider, d.source.displayName, d.hostname);
  }

  lemma KnownByGate(output: ProviderRef, m: ManagedRecord, d: DesiredRecord, v: VisibleRecord)
    requires OnlyHostInCommon(output, m, d) <==> !SameObject(m, d)
    ensures CanUpdate(m, v, OnlyHostInCommon(output, m, d)) <==> IsKnown(m, d, v)
  {
    hide OnlyHostInCommon, SameObject;
  }

  lemma SameAnswerSameKey(facts: Facts, host: string, d: DesiredRecord, v: VisibleRecord)
    requires NoBars(facts) && BarFreeDesired(d) && DesiredHost(d) == host && v in VisibleAt(facts, host)
    ensures VisibleKey(v) == DesiredKey(d) <==> Fold(v.answer) == Fold(d.answer)
  {
    hide NoBars, BarFree, NormalizeHostname, VisibleAt;
    ListedAt(facts, host, v);
    RecordKeyFaithful(v.hostname, v.answer, d.hostname, d.answer);
  }

  lemma SameManagedKey(m: ManagedRecord, d: DesiredRecord)
    requires BarFreeManaged(m) && BarFreeDesired(d) && ManagedHost(m) == DesiredHost(d)
    ensures ManagedKey(m) == DesiredKey(d) <==> Fold(m.answer) == Fold(d.answer)
  {
    RecordKeyFaithful(m.hostname, m.answer, d.hostname, d.answer);
  }

  // ---- A hostname that is desired and owned --------------------------------------------------------------------

  /** What the fate of a desired and owned hostname is when nothing has drifted. */
  function Settles(facts: Facts, d: DesiredRecord, m: ManagedRecord): Fate {
    var vs := VisibleAt(facts, DesiredHost(d));
    var wanted := WithKey(facts.output, vs, DesiredKey(d));
    if wanted.Some? then Kept(KeptRecord(facts.output, d, m, wanted.value), Replaced(facts.output, d, m))
    else if vs == [] then Called(CreateCall(d, Replaced(facts.output, d, m)))
    else Untouched
  }

  lemma OwnedFate(facts: Facts, host: string, d: DesiredRecord, m: ManagedRecord)
    requires Orderly(facts) && DesiredAt(facts, host) == Some(d) && ManagedAt(facts, host) == Some(m)
    ensures forall v :: Drifted(facts, d, m, v) ==>
      FateAt(facts, host)
      == if IsKnown(m, d, v) then Called(UpdateCall(v, d, Replaced(facts.output, d, m))) else Untouched
    ensures (forall v :: !Drifted(facts, d, m, v)) ==> FateAt(facts, host) == Settles(facts, d, m)
  {
    hide NoAmbiguity, NoBars, VisibleAt, BarFree, BarFreeSource, BarFreeRef, RecordKey, NormalizeHostname, DesiredAt, ManagedAt,
         OneDesiredPerHost, OneManagedPerHost, OnlyHostInCommon, CanUpdate, Replaced, WithKey, SameObject, IsKnown, LineageKey,
         KeptRecord, Fold;
    DesiredAnswers(facts, host);
    ManagedAnswers(facts, host);
    OutputIsBarFree(facts);
    ObjectsByKey(facts.output, m, d);
    SameManagedKey(m, d);
    var vs := VisibleAt(facts, host);
    var drifted := WithKey(facts.output, vs, ManagedKey(m));
    forall v | v in vs
      ensures VisibleKey(v) == DesiredKey(d) <==> Fold(v.answer) == Fold(d.answer)
      ensures CanUpdate(m, v, OnlyHostInCommon(facts.output, m, d)) <==> IsKnown(m, d, v)
    {
      SameAnswerSameKey(facts, host, d, v);
      KnownByGate(facts.output, m, d, v);
    }
    if drifted.Some? && DesiredKey(d) != ManagedKey(m) {
      assert Drifted(facts, d, m, drifted.value);
    } else if |vs| == 1 && DesiredKey(d) != VisibleKey(vs[0]) {
      assert vs == [vs[0]] && vs[0] in vs;
      assert Drifted(facts, d, m, vs[0]);
    }
  }

  lemma OutputIsBarFree(facts: Facts)
    requires NoBars(facts)
    ensures BarFreeRef(facts.output)
  {
  }

  lemma HostWithoutOwner(facts: Facts, host: string, d: DesiredRecord)
    requires DesiredAt(facts, host) == Some(d) && ManagedAt(facts, host).None?
    ensures FateAt(facts, host) == if VisibleAt(facts, host) == [] then Called(CreateCall(d, None)) else Untouched
  {
    hide DesiredAt, ManagedAt, VisibleAt;
  }

  // ---- Whole plans -----------------------------------------------------------------------------------------------

  lemma CreatesByFate(facts: Facts, plan: Plan, d: DesiredRecord)
    requires Orderly(facts) && IsPlan(facts, plan)
    ensures d in plan.creates <==>
      var fate := FateAt(facts, DesiredHost(d)); fate.Called? && fate.call.CreateCall? && fate.call.to == d
  {
    hide Orderly, IsPlan, FateAt, DesiredHost, DesiredLineage;
    if i :| 0 <= i < |plan.creates| && plan.creates[i] == d {
      var drop := DropLookup(plan.createDrops, DesiredLineage(facts.output, d));
      assert CreateCalls(facts.output, plan)[i] == CreateCall(d, drop);
      CreateByFate(facts, plan, d, drop);
    }
    var fate := FateAt(facts, DesiredHost(d));
    if fate.Called? && fate.call.CreateCall? && fate.call.to == d {
      CreateByFate(facts, plan, d, fate.call.replaced);
      assert fate.call in CreateCalls(facts.output, plan);
    }
  }

  lemma UpdatesByFate(facts: Facts, plan: Plan, v: VisibleRecord, d: DesiredRecord)
    requires Orderly(facts) && IsPlan(facts, plan)
    ensures UpdateStep(v, d) in plan.updates <==>
      var fate := FateAt(facts, DesiredHost(d));
      fate.Called? && fate.call.UpdateCall? && fate.call.from == v && fate.call.to == d
  {
    hide Orderly, IsPlan, FateAt, DesiredHost, DesiredLineage;
    if i :| 0 <= i < |plan.updates| && plan.updates[i] == UpdateStep(v, d) {
      var drop := DropLookup(plan.updateDrops, DesiredLineage(facts.output, d));
      assert UpdateCalls(facts.output, plan)[i] == UpdateCall(v, d, drop);
      UpdateByFate(facts, plan, v, d, drop);
    }
    var fate := FateAt(facts, DesiredHost(d));
    if fate.Called? && fate.call.UpdateCall? && fate.call.from == v && fate.call.to == d {
      UpdateByFate(facts, plan, v, d, fate.call.replaced);
      assert fate.call in UpdateCalls(facts.output, plan);
    }
  }

  /** A record is created exactly if it is the desired one of its hostname and nothing is listed there. */
  lemma CreatedExactly(facts: Facts, plan: Plan, d: DesiredRecord)
    requires Orderly(facts) && IsPlan(facts, plan)
    ensures d in plan.creates
       <==> DesiredAt(facts, DesiredHost(d)) == Some(d) && VisibleAt(facts, DesiredHost(d)) == []
  {
    hide Orderly, IsPlan, DesiredAt, ManagedAt, VisibleAt, DesiredHost, Drifted, WithKey, CanUpdate, Replaced;
    var host := DesiredHost(d);
    CreatesByFate(facts, plan, d);
    if DesiredAt(facts, host) == Some(d) && VisibleAt(facts, host) == [] {
      if ManagedAt(facts, host).Some? {
        NothingListed(facts, host, d, ManagedAt(facts, host).value);
      }
    } else {
      NotCreated(facts, host, d);
    }
  }

  lemma NothingListed(facts: Facts, host: string, d: DesiredRecord, m: ManagedRecord)
    requires Orderly(facts) && DesiredAt(facts, host) == Some(d) && ManagedAt(facts, host) == Some(m)
    requires VisibleAt(facts, host) == []
    ensures FateAt(facts, host) == Called(CreateCall(d, Replaced(facts.output, d, m)))
  {
    hide Orderly, DesiredAt, ManagedAt, VisibleAt, CanUpdate, Replaced, WithKey;
    WithKeyHasKey(facts.output, [], ManagedKey(m));
    WithKeyHasKey(facts.output, [], DesiredKey(d));
  }

  lemma NotCreated(facts: Facts, host: string, d: DesiredRecord)
    requires DesiredAt(facts, host) != Some(d) || VisibleAt(facts, host) != []
    ensures var fate := FateAt(facts, host); !(fate.Called? && fate.call.CreateCall? && fate.call.to == d)
  {
    hide DesiredAt, ManagedAt, VisibleAt, CanUpdate, Replaced, WithKey;
  }

  /** A record is updated exactly if it has drifted and is known to be the owned one: by the identifier it shows, or, when
      it shows none, because the same object still wants the hostname. */
  lemma UpdatedExactly(facts: Facts, plan: Plan, v: VisibleRecord, d: DesiredRecord)
    requires Orderly(facts) && IsPlan(facts, plan)
    ensures UpdateStep(v, d) in plan.updates
       <==> && DesiredAt(facts, DesiredHost(d)) == Some(d)
            && exists m :: ManagedAt(facts, DesiredHost(d)) == Some(m) && Drifted(facts, d, m, v) && IsKnown(m, d, v)
  {
    hide Orderly, IsPlan, DesiredAt, ManagedAt, VisibleAt, DesiredHost, Drifted, IsKnown, FateOf, Replaced;
    var host := DesiredHost(d);
    UpdatesByFate(facts, plan, v, d);
    if DesiredAt(facts, host) == Some(d) && ManagedAt(facts, host).Some? {
      var m := ManagedAt(facts, host).value;
      OwnedFate(facts, host, d, m);
      if x :| Drifted(facts, d, m, x) {
        if Drifted(facts, d, m, v) && v != x {
          OneDrifts(facts, host, d, m, v, x);
        }
      } else {
        SettlesWithoutUpdate(facts, d, m);
      }
    } else {
      NotUpdated(facts, host, d);
    }
  }

  lemma OneDrifts(facts: Facts, host: string, d: DesiredRecord, m: ManagedRecord, v: VisibleRecord, x: VisibleRecord)
    requires Orderly(facts) && ManagedAt(facts, host) == Some(m) && DesiredHost(d) == host
    requires Drifted(facts, d, m, v) && Drifted(facts, d, m, x)
    ensures v == x
  {
    hide NoAmbiguity, NoBars, VisibleAt, BarFree, BarFreeSource, RecordKey, NormalizeHostname, ManagedAt, OneDesiredPerHost,
         OneManagedPerHost, WithKey, Fold;
    ManagedAnswers(facts, host);
  }

  lemma SettlesWithoutUpdate(facts: Facts, d: DesiredRecord, m: ManagedRecord)
    ensures var fate := Settles(facts, d, m); !(fate.Called? && fate.call.UpdateCall?)
  {
    hide VisibleAt, WithKey;
  }

  lemma NotUpdated(facts: Facts, host: string, d: DesiredRecord)
    requires DesiredAt(facts, host) != Some(d) || ManagedAt(facts, host).None?
    ensures var fate := FateAt(facts, host); !(fate.Called? && fate.call.UpdateCall? && fate.call.to == d)
  {
    hide DesiredAt, ManagedAt, VisibleAt, CanUpdate, Replaced, WithKey;
  }

  // ---- What is kept ------------------------------------------------------------------------------------------------

  /** What keeping books: the desired record under the owned identifier. */
  function BookedAs(output: ProviderRef, d: DesiredRecord, m: ManagedRecord): ManagedRecord {
    ManagedRecord(output, d.source, d.hostname, d.answer, m.provenance, 0)
  }

  /** Of a desired hostname a record is kept exactly if it is owned, listed as desired, and nothing has drifted; it is then
      the desired record under the owned identifier, whatever identifier is listed. */
  lemma KeptExactly(facts: Facts, plan: Plan, d: DesiredRecord, k: ManagedRecord)
    requires Orderly(facts) && IsPlan(facts, plan)
    requires DesiredAt(facts, DesiredHost(d)) == Some(d) && ManagedHost(k) == DesiredHost(d)
    ensures k in plan.nextManaged
       <==> exists m :: && ManagedAt(facts, DesiredHost(d)) == Some(m) && k == BookedAs(facts.output, d, m)
                        && IsListed(facts, d) && forall v :: !Drifted(facts, d, m, v)
  {
    hide Orderly, IsPlan, DesiredAt, ManagedAt, VisibleAt, DesiredHost, ManagedHost, Drifted, IsKnown, FateOf, Replaced,
         Settles, IsListed;
    var host := DesiredHost(d);
    NextManagedByFate(facts, plan, k);
    if ManagedAt(facts, host).Some? {
      var m := ManagedAt(facts, host).value;
      OwnedFate(facts, host, d, m);
      SettlesByListing(facts, host, d, m);
    } else {
      HostWithoutOwner(facts, host, d);
    }
  }

  lemma SettlesByListing(facts: Facts, host: string, d: DesiredRecord, m: ManagedRecord)
    requires Orderly(facts) && DesiredAt(facts, host) == Some(d)
    ensures if IsListed(facts, d) then Settles(facts, d, m) == Kept(BookedAs(facts.output, d, m), Replaced(facts.output, d, m))
            else !Settles(facts, d, m).Kept? && !Settles(facts, d, m).Retained?
  {
    hide Orderly, VisibleAt, NormalizeHostname, RecordKey, DesiredAt, Replaced, WithKey, Fold;
    DesiredAnswers(facts, host);
    var wanted := WithKey(facts.output, VisibleAt(facts, host), DesiredKey(d));
    ListedByKey(facts, d);
    if wanted.Some? {
      KeptAsOwned(facts.output, d, m, wanted.value);
    }
  }

  lemma ListedByKey(facts: Facts, d: DesiredRecord)
    requires SeesAnswers(facts, DesiredHost(d), d.hostname, d.answer)
    ensures IsListed(facts, d) <==> WithKey(facts.output, VisibleAt(facts, DesiredHost(d)), DesiredKey(d)).Some?
  {
    hide VisibleAt, NormalizeHostname, RecordKey, WithKey, Fold;
    var wanted := WithKey(facts.output, VisibleAt(facts, DesiredHost(d)), DesiredKey(d));
    assert wanted.Some? ==> wanted == Some(wanted.value);
  }

  lemma KeptAsOwned(output: ProviderRef, d: DesiredRecord, m: ManagedRecord, v: VisibleRecord)
    ensures KeptRecord(output, d, m, v) == BookedAs(output, d, m)
  {
  }

  // ---- What is no longer desired -----------------------------------------------------------------------------------

  /** An owned record whose hostname nothing desires: deleted exactly if its answer is listed with its identifier, else
      retained while anything is listed there, else dropped. */
  lemma UndesiredExactly(facts: Facts, plan: Plan, m: ManagedRecord)
    requires Orderly(facts) && IsPlan(facts, plan) && DesiredAt(facts, ManagedHost(m)).None?
    ensures forall v :: DeleteStep(v, m) in plan.deletes
                   <==> ManagedAt(facts, ManagedHost(m)) == Some(m) && IsProven(facts, m, v)
    ensures m in plan.nextManaged
       <==> && ManagedAt(facts, ManagedHost(m)) == Some(m) && VisibleAt(facts, ManagedHost(m)) != []
            && forall v :: !IsProven(facts, m, v)
    ensures m in plan.drops <==> ManagedAt(facts, ManagedHost(m)) == Some(m) && VisibleAt(facts, ManagedHost(m)) == []
  {
    hide Orderly, IsPlan, DesiredAt, ManagedAt, VisibleAt, ManagedHost, IsProven, FateAt, Calls;
    NextManagedByFate(facts, plan, m);
    DropsByFate(facts, plan, m);
    forall v ensures DeleteStep(v, m) in plan.deletes <==> FateAt(facts, ManagedHost(m)) == Called(DeleteCall(v, m)) {
      DeleteByFate(facts, plan, v, m);
      DeletesAreCalled(facts.output, plan, DeleteStep(v, m));
    }
    UndesiredFate(facts, m);
  }

  lemma UndesiredFate(facts: Facts, m: ManagedRecord)
    requires Orderly(facts) && DesiredAt(facts, ManagedHost(m)).None?
    ensures var fate := FateAt(facts, ManagedHost(m)); var vs := VisibleAt(facts, ManagedHost(m));
      && (forall v :: fate == Called(DeleteCall(v, m))
                 <==> ManagedAt(facts, ManagedHost(m)) == Some(m) && IsProven(facts, m, v))
      && (Keeps(fate, m)
          <==> ManagedAt(facts, ManagedHost(m)) == Some(m) && vs != [] && forall v :: !IsProven(facts, m, v))
      && (fate == Forgotten(m) <==> ManagedAt(facts, ManagedHost(m)) == Some(m) && vs == [])
  {
    hide Orderly, VisibleAt, NormalizeHostname, RecordKey, DesiredAt, ManagedAt, WithKey, Fold;
    var host := ManagedHost(m);
    if ManagedAt(facts, host) == Some(m) {
      ManagedAnswers(facts, host);
      var found := WithKey(facts.output, VisibleAt(facts, host), ManagedKey(m));
      forall v ensures IsProven(facts, m, v) <==> found == Some(v) && SameProvenance(m.provenance, v.provenance) {
        ProvenIsSame(m, v);
      }
      if found.Some? {
        assert found.value in VisibleAt(facts, host);
        assert IsProven(facts, m, found.value) <==> SameProvenance(m.provenance, found.value.provenance);
      }
    }
  }

  lemma ProvenIsSame(m: ManagedRecord, v: VisibleRecord)
    ensures SameProvenance(m.provenance, v.provenance)
       <==> v.provenance.Some? && v.provenance.value.remoteID != "" && m.provenance == v.provenance
  {
  }
}
