/** What every plan guarantees about the records it targets, without H2 to H4. */
module Gates {
  import opened Records
  import opened Keys
  import opened Seqs
  import opened Planner
  import opened Apply
  import opened Fates

  lemma LookupMember<T(!new)>(xs: seq<T>, keep: T -> bool, key: T -> string, k: string)
    ensures forall x :: x in Lookup(GroupBy(xs, keep, key), k) <==> x in xs && keep(x) && key(x) == k
  {
    GroupByIsScan(xs, keep, key, k);
  }

  /** The matched record is one of the output's own; under H1 it has the desired record's hostname. */
  lemma MatchIsOwned(facts: Facts, d: DesiredRecord)
    requires MatchOwned(facts.output, Index(facts), d).Matched?
    ensures var m := MatchOwned(facts.output, Index(facts), d).owned;
      && m in facts.managed && m.output == facts.output
      && (NoBars(facts) && BarFreeDesired(d) ==> ManagedHost(m) == DesiredHost(d))
  {
    var output, ix := facts.output, Index(facts);
    var lineage := DesiredLineage(output, d);
    var display := DisplayLineage(output, d.source, d.hostname);
    var m := MatchOwned(output, ix, d).owned;
    IndexedUnderOwnKey(facts);
    LookupMember(facts.managed, OwnedFor(output), DisplayLineageIn(output), display);
    LookupMember(facts.managed, OwnedFor(output), ManagedHost, DesiredHost(d));
    hide LineageKey, NormalizeHostname, GroupBy, LastBy, BarFreeSource, BarFree;
    if NoBars(facts) && BarFreeDesired(d) {
      if lineage in ix.owned {
        SameDesiredLineage(output, d, m);
      } else if |Lookup(ix.ownedByDisplay, display)| == 1 {
        assert m in Lookup(ix.ownedByDisplay, display);
        SameDisplayLineage(output, d, m);
      } else {
        assert m in Lookup(ix.ownedByHost, DesiredHost(d));
      }
    } else {
      if lineage !in ix.owned && |Lookup(ix.ownedByDisplay, display)| == 1 {
        assert m in Lookup(ix.ownedByDisplay, display);
      } else if lineage !in ix.owned {
        assert m in Lookup(ix.ownedByHost, DesiredHost(d));
      }
    }
  }

  /** The record an update starts from is listed, and is the matched record's or has the desired hostname. */
  lemma UpdateIsGated(facts: Facts, d: DesiredRecord)
    requires Decide(facts.output, Index(facts), d).Update?
    ensures var from := Decide(facts.output, Index(facts), d).from;
      var matched := MatchOwned(facts.output, Index(facts), d);
      && from in facts.visible && from.output == facts.output
      && matched.Matched? && CanUpdate(matched.owned, from, matched.byHostnameOnly)
      && (VisibleHost(from) == DesiredHost(d) || VisibleKey(from) == ManagedKey(matched.owned))
  {
    hide LineageKey, RecordKey, NormalizeHostname, MatchOwned, CanUpdate, Replaced, KeptRecord;
    var ix := Index(facts);
    var matched := MatchOwned(facts.output, ix, d);
    var from := Decide(facts.output, ix, d).from;
    LookupMember(facts.visible, ListedBy(facts.output), VisibleKey, ManagedKey(matched.owned));
    LookupMember(facts.visible, ListedBy(facts.output), VisibleHost, DesiredHost(d));
    hide GroupBy, LastBy;
    if |Lookup(ix.byKey, ManagedKey(matched.owned))| == 1 && DesiredKey(d) != ManagedKey(matched.owned) {
      assert from in Lookup(ix.byKey, ManagedKey(matched.owned));
    } else {
      assert from in Lookup(ix.byHost, DesiredHost(d));
    }
  }

  /** Position `i` holds the output's only owned record that shares the desired record's display lineage. */
  ghost predicate OnlyWithDisplay(facts: Facts, i: nat, d: DesiredRecord)
    requires i < |facts.managed|
  {
    var display := DisplayLineage(facts.output, d.source, d.hostname);
    && facts.managed[i].output == facts.output && DisplayLineageIn(facts.output)(facts.managed[i]) == display
    && forall j :: 0 <= j < |facts.managed| && j != i && facts.managed[j].output == facts.output
         ==> DisplayLineageIn(facts.output)(facts.managed[j]) != display
  }

  /** The owned record is the desired one's by lineage, or is the only one by display lineage. */
  ghost predicate OwnedBySame(facts: Facts, d: DesiredRecord) {
    || (exists m :: m in facts.managed && m.output == facts.output && ManagedLineage(m) == DesiredLineage(facts.output, d))
    || (exists i :: 0 <= i < |facts.managed| && OnlyWithDisplay(facts, i, d))
  }

  lemma OneFoundByDisplay(facts: Facts, d: DesiredRecord)
    requires |Lookup(Index(facts).ownedByDisplay, DisplayLineage(facts.output, d.source, d.hostname))| == 1
    ensures exists i :: 0 <= i < |facts.managed| && OnlyWithDisplay(facts, i, d)
  {
    hide LineageKey;
    var display := DisplayLineage(facts.output, d.source, d.hostname);
    GroupByIsScan(facts.managed, OwnedFor(facts.output), DisplayLineageIn(facts.output), display);
    var i := FilteredOnce(facts.managed, Matching(OwnedFor(facts.output), DisplayLineageIn(facts.output), display));
    assert OnlyWithDisplay(facts, i, d);
  }

  /** Whatever the facts: a record without an identifier is only updated for the object that owns the hostname. */
  lemma UpdateWithoutIdentifier(facts: Facts, plan: Plan, u: UpdateStep)
    requires IsPlan(facts, plan) && u in plan.updates
    requires u.from.provenance.None? || u.from.provenance.value.remoteID == ""
    ensures OwnedBySame(facts, u.to)
  {
    var ix := Index(facts);
    assert ToUpdate(facts.output, ix, ix.desired.Keys)(u) by {
      hide Index, ToUpdate, StalePart, SortedBy, DropsOf;
    }
    UpdateIsGated(facts, u.to);
    MatchIsNotByHost(facts, u.to);
  }

  lemma MatchIsNotByHost(facts: Facts, d: DesiredRecord)
    requires var matched := MatchOwned(facts.output, Index(facts), d); matched.Matched? && !matched.byHostnameOnly
    ensures OwnedBySame(facts, d)
  {
    var lineage := DesiredLineage(facts.output, d);
    IndexedUnderOwnKey(facts);
    hide LineageKey, NormalizeHostname, GroupBy, LastBy;
    if lineage !in Index(facts).owned {
      OneFoundByDisplay(facts, d);
    }
  }

  /** Whatever the facts: a record with an identifier is only updated if an owned record has that identifier. */
  lemma UpdateWithIdentifier(facts: Facts, plan: Plan, u: UpdateStep)
    requires IsPlan(facts, plan) && u in plan.updates
    requires u.from.provenance.Some? && u.from.provenance.value.remoteID != ""
    ensures exists m :: m in facts.managed && m.output == facts.output && m.provenance == u.from.provenance
  {
    var ix := Index(facts);
    assert ToUpdate(facts.output, ix, ix.desired.Keys)(u) by {
      hide Index, ToUpdate, StalePart, SortedBy, DropsOf;
    }
    hide LineageKey, RecordKey, NormalizeHostname, MatchOwned, Index, IsPlan, Decide;
    UpdateIsGated(facts, u.to);
    MatchIsOwned(facts, u.to);
  }

  lemma CreateIsDecided(facts: Facts, plan: Plan, d: DesiredRecord)
    requires IsPlan(facts, plan) && d in plan.creates
    ensures IsDesired(facts.output, Index(facts), Index(facts).desired.Keys, d)
    ensures Decide(facts.output, Index(facts), d).Create?
  {
    hide Decide, IsDesired, Index, StalePart, ToUpdate, ToKeep, DropsOf;
    assert ToCreate(facts.output, Index(facts), Index(facts).desired.Keys)(d);
  }

  /** A create targets a hostname under which the output lists nothing. */
  lemma CreateTargetsFreeHost(facts: Facts, plan: Plan, d: DesiredRecord)
    requires IsPlan(facts, plan) && d in plan.creates
    ensures d in facts.desired
    ensures forall v :: v in facts.visible && v.output == facts.output ==> VisibleHost(v) != DesiredHost(d)
  {
    hide LineageKey, RecordKey, NormalizeHostname, MatchOwned, CanUpdate, Replaced, KeptRecord, GroupBy, IsPlan;
    var ix := Index(facts);
    CreateIsDecided(facts, plan, d);
    IndexedUnderOwnKey(facts);
    LookupMember(facts.visible, ListedBy(facts.output), VisibleHost, DesiredHost(d));
    assert Lookup(ix.byHost, DesiredHost(d)) == [];
  }

  /** An update never changes the normalised hostname. */
  lemma UpdateKeepsHost(facts: Facts, plan: Plan, u: UpdateStep)
    requires NoBars(facts) && IsPlan(facts, plan) && u in plan.updates
    ensures VisibleHost(u.from) == DesiredHost(u.to) && u.from in facts.visible
  {
    var ix := Index(facts);
    assert ToUpdate(facts.output, ix, ix.desired.Keys)(u) by {
      hide Index, ToUpdate, StalePart, SortedBy, DropsOf;
    }
    hide IsPlan, MatchOwned, Decide, CanUpdate, LineageKey, Index, RecordKey, NormalizeHostname;
    WinnerIsBarFree(facts, u.to);
    UpdateIsGated(facts, u.to);
    MatchIsOwned(facts, u.to);
    var m := MatchOwned(facts.output, ix, u.to).owned;
    if VisibleKey(u.from) == ManagedKey(m) {
      RecordKeyFaithful(u.from.hostname, u.from.answer, m.hostname, m.answer);
    }
  }

  /** A delete needs a listed record with the owned record's key and the owned record's identifier. */
  lemma DeleteNeedsProof(facts: Facts, plan: Plan, s: DeleteStep)
    requires IsPlan(facts, plan) && s in plan.deletes
    ensures s.managed in facts.managed && s.managed.output == facts.output
    ensures s.visible in facts.visible && VisibleKey(s.visible) == ManagedKey(s.managed)
    ensures SameProvenance(s.managed.provenance, s.visible.provenance)
    ensures forall d :: d in facts.desired ==> DesiredLineage(facts.output, d) != ManagedLineage(s.managed)
  {
    hide LineageKey, RecordKey;
    var ix := Index(facts);
    assert ToDelete(facts.output, ix, ix.owned.Keys)(s);
    IndexedUnderOwnKey(facts);
    LookupMember(facts.visible, ListedBy(facts.output), VisibleKey, ManagedKey(s.managed));
    assert s.visible in Lookup(ix.byKey, ManagedKey(s.managed));
  }

  /** An ambiguous listing is reported, and nothing else is. */
  lemma AmbiguityIsReported(facts: Facts, plan: Plan)
    requires IsPlan(facts, plan)
    ensures plan.ambiguities == [] <==> NoAmbiguity(facts)
  {
    hide LineageKey, RecordKey, GroupBy, LastBy, DesiredPart, StalePart;
    var byKey := Index(facts).byKey;
    if plan.ambiguities != [] {
      var a := plan.ambiguities[0];
      assert a in plan.ambiguities;
      assert |Lookup(byKey, a.key)| > 1;
    }
    if k :| |Lookup(byKey, k)| > 1 {
      assert Ambiguity(k, |byKey[k]|) in plan.ambiguities;
    }
  }

  lemma PlanFitsOutput(facts: Facts, plan: Plan)
    requires IsPlan(facts, plan)
    ensures PlanFits(facts.output, plan)
  {
    hide Index, Decide, DecideStale, ToKeep, ToRetain, SortedBy, DropsOf;
    var output, ix := facts.output, Index(facts);
    forall m | m in plan.nextManaged ensures m.output == output {
      assert ToKeep(output, ix, ix.desired.Keys)(m) || ToRetain(output, ix, ix.owned.Keys)(m);
      ListedFitsOutput(facts, m);
    }
  }

  lemma ListedFitsOutput(facts: Facts, m: ManagedRecord)
    requires var ix := Index(facts);
      ToKeep(facts.output, ix, ix.desired.Keys)(m) || ToRetain(facts.output, ix, ix.owned.Keys)(m)
    ensures m.output == facts.output
  {
    hide LineageKey, RecordKey, MatchOwned, CanUpdate, GroupBy, LastBy, DecideStale, LineageMatched, NormalizeHostname;
    IndexedUnderOwnKey(facts);
  }
}
