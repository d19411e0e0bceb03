/** Ownership is conserved: no managed record leaves the state without a reason the operator can see. */
module Conservation {
  import opened Records
  import opened Keys
  import opened Seqs
  import opened Planner
  import opened Remote
  import opened Apply
  import opened Fates
  import opened Gates
  import opened Cells

  /** `l` is a desired lineage; what storing a record under it replaces was owned under another lineage,
      for the same hostname. */
  ghost predicate Replacing(facts: Facts, l: string, replaced: Option<ManagedRecord>) {
    var ix := Index(facts);
    && l in ix.desired
    && (replaced.Some? ==>
          && l !in ix.owned && ManagedLineage(replaced.value) in ix.owned
          && replaced.value in facts.managed && replaced.value.output == facts.output
          && DesiredHost(ix.desired[l]) == ManagedHost(replaced.value))
  }

  lemma DecisionReplaces(facts: Facts, l: string)
    requires NoBars(facts) && l in Index(facts).desired
    ensures Replacing(facts, l, ReplacedBy(Decide(facts.output, Index(facts), Index(facts).desired[l])))
  {
    hide LineageKey, RecordKey, NormalizeHostname, CanUpdate, KeptRecord, GroupBy;
    var ix := Index(facts);
    var d := ix.desired[l];
    IndexedUnderOwnKey(facts);
    OwnedIndexed(facts);
    ReplacesTheMatch(facts, d);
    if MatchOwned(facts.output, ix, d).Matched? {
      assert IsDesired(facts.output, ix, ix.desired.Keys, d);
      WinnerIsBarFree(facts, d);
      MatchIsOwned(facts, d);
    }
  }

  lemma ReplacesTheMatch(facts: Facts, d: DesiredRecord)
    ensures var ix := Index(facts); var replaced := ReplacedBy(Decide(facts.output, ix, d));
      replaced.Some? ==>
        && MatchOwned(facts.output, ix, d).Matched? && replaced.value == MatchOwned(facts.output, ix, d).owned
        && ManagedLineage(replaced.value) != DesiredLineage(facts.output, d)
  {
    hide LineageKey, RecordKey, NormalizeHostname, CanUpdate, KeptRecord, Index, MatchOwned;
  }

  lemma OwnedIndexed(facts: Facts)
    ensures forall m :: m in facts.managed && m.output == facts.output ==> ManagedLineage(m) in Index(facts).owned
  {
    hide LineageKey;
  }

  /** What a call of a plan books, or removes. */
  lemma CallBooks(facts: Facts, plan: Plan, c: Call)
    requires NoBars(facts) && IsPlan(facts, plan) && c in Calls(facts.output, plan)
    ensures c.CreateCall? || c.UpdateCall? ==> Replacing(facts, DesiredLineage(facts.output, c.to), c.replaced)
    ensures c.DeleteCall? ==>
      && ManagedLineage(c.managed) in Index(facts).owned && Index(facts).owned[ManagedLineage(c.managed)] == c.managed
      && ManagedLineage(c.managed) !in Index(facts).desired
  {
    hide LineageKey, RecordKey, NormalizeHostname, Index, Replacing, Decide, DecideStale, LineageMatched, NoBars;
    var output, ix := facts.output, Index(facts);
    match c {
      case CreateCall(to, replaced) =>
        var i :| 0 <= i < |plan.creates| && CreateCalls(output, plan)[i] == c;
        assert ToCreate(output, ix, ix.desired.Keys)(plan.creates[i]) by { assert plan.creates[i] in plan.creates; }
        DecisionReplaces(facts, DesiredLineage(output, to));
      case UpdateCall(from, to, replaced) =>
        var i :| 0 <= i < |plan.updates| && UpdateCalls(output, plan)[i] == c;
        assert ToUpdate(output, ix, ix.desired.Keys)(plan.updates[i]) by { assert plan.updates[i] in plan.updates; }
        DecisionReplaces(facts, DesiredLineage(output, to));
      case DeleteCall(visible, managed) =>
        var i :| 0 <= i < |plan.deletes| && DeleteCalls(plan)[i] == c;
        assert ToDelete(output, ix, ix.owned.Keys)(plan.deletes[i]) by { assert plan.deletes[i] in plan.deletes; }
    }
  }

  /** What keeping a record books. */
  lemma KeepBooks(facts: Facts, plan: Plan, k: ManagedRecord)
    requires NoBars(facts) && IsPlan(facts, plan) && k in plan.nextManaged
    ensures var drop := DropLookup(plan.keepDrops, ManagedLineage(k));
      drop.Some? ==> Replacing(facts, ManagedLineage(k), drop)
  {
    hide LineageKey, RecordKey, NormalizeHostname, Index, Replacing, Decide, DecideStale, LineageMatched, NoBars, StalePart;
    var l := ManagedLineage(k);
    if l in plan.keepDrops {
      KeepDropIsDecided(facts, plan, l);
      DecisionReplaces(facts, l);
    }
  }

  lemma KeepDropIsDecided(facts: Facts, plan: Plan, l: string)
    requires IsPlan(facts, plan) && l in plan.keepDrops
    ensures var ix := Index(facts);
      l in ix.desired && Some(plan.keepDrops[l]) == ReplacedBy(Decide(facts.output, ix, ix.desired[l]))
  {
    hide Index, Decide, Enumerates, StalePart, ToCreate, ToUpdate, ToKeep;
    assert DropsOf(facts.output, Index(facts), Index(facts).desired.Keys, IsKeep(), plan.keepDrops);
  }

  lemma DropIsUnlisted(facts: Facts, plan: Plan, m: ManagedRecord)
    requires IsPlan(facts, plan) && m in plan.drops
    ensures Unlisted(facts, ManagedHost(m))
    ensures ManagedLineage(m) in Index(facts).owned && Index(facts).owned[ManagedLineage(m)] == m
  {
    hide LineageKey, RecordKey, NormalizeHostname, GroupBy, LastBy, LineageMatched, DesiredPart;
    var ix := Index(facts);
    assert ToDrop(facts.output, ix, ix.owned.Keys)(m);
    LookupMember(facts.visible, ListedBy(facts.output), VisibleHost, ManagedHost(m));
  }

  // ---- The invariant --------------------------------------------------------------------------------

  /** The output lists nothing under the hostname. */
  ghost predicate Unlisted(facts: Facts, host: string) {
    forall v :: v in facts.visible && v.output == facts.output ==> VisibleHost(v) != host
  }

  /** A desired record of the hostname is booked under a lineage that was not owned before. */
  ghost predicate TakenOver(facts: Facts, recs: Lineages, host: string) {
    exists l :: l in recs && l in Index(facts).desired && l !in Index(facts).owned
             && DesiredHost(Index(facts).desired[l]) == host
  }

  ghost predicate DeletedBy(calls: seq<Call>, lineage: string) {
    exists c :: c in calls && c.DeleteCall? && ManagedLineage(c.managed) == lineage
  }

  /** Every owned lineage is still there, or gone for one of the three reasons. */
  ghost predicate Accounted(facts: Facts, calls: seq<Call>, recs: Lineages) {
    forall l :: l in Index(facts).owned ==> IsAccounted(facts, calls, recs, l)
  }

  ghost predicate IsAccounted(facts: Facts, calls: seq<Call>, recs: Lineages, l: string)
    requires l in Index(facts).owned
  {
    var host := ManagedHost(Index(facts).owned[l]);
    l in recs || TakenOver(facts, recs, host) || DeletedBy(calls, l) || Unlisted(facts, host)
  }

  lemma PutAccounts(
    facts: Facts, calls: seq<Call>, recs: Lineages, l: string, m: ManagedRecord, replaced: Option<ManagedRecord>)
    requires NoBars(facts) && Accounted(facts, calls, recs)
    requires replaced.Some? ==> Replacing(facts, l, replaced)
    ensures Accounted(facts, calls, RemoveLineage(recs[l := m], replaced))
  {
    hide ManagedLineage, NormalizeHostname, Index, NoBars;
    var ix := Index(facts);
    var next := RemoveLineage(recs[l := m], replaced);
    forall x | x in ix.owned ensures IsAccounted(facts, calls, next, x) {
      assert IsAccounted(facts, calls, recs, x);
      var host := ManagedHost(ix.owned[x]);
      if TakenOver(facts, recs, host) {
        var y :| y in recs && y in ix.desired && y !in ix.owned && DesiredHost(ix.desired[y]) == host;
        assert y in next;
      }
      if replaced.Some? && x == ManagedLineage(replaced.value) {
        ReplacedHost(facts, replaced.value);
        assert l in next;
      }
    }
  }

  lemma ReplacedHost(facts: Facts, m: ManagedRecord)
    requires NoBars(facts) && m in facts.managed && m.output == facts.output
    ensures ManagedLineage(m) in Index(facts).owned
    ensures ManagedHost(Index(facts).owned[ManagedLineage(m)]) == ManagedHost(m)
  {
    hide LineageKey, NormalizeHostname, GroupBy;
    IndexedUnderOwnKey(facts);
    OwnedIndexed(facts);
    SameManagedLineage(Index(facts).owned[ManagedLineage(m)], m);
  }

  lemma {:induction false} KeepsAccount(facts: Facts, plan: Plan, recs: Lineages, keeps: seq<ManagedRecord>, now: int)
    requires NoBars(facts) && IsPlan(facts, plan) && Accounted(facts, [], recs)
    requires forall k :: k in keeps ==> k in plan.nextManaged
    ensures Accounted(facts, [], KeepAll(recs, keeps, plan.keepDrops, now))
  {
    hide ManagedLineage, NormalizeHostname, Index, NoBars, Accounted, IsPlan, Replacing;
    if keeps != [] {
      var init, last := keeps[..|keeps| - 1], keeps[|keeps| - 1];
      KeepsAccount(facts, plan, recs, init, now);
      assert last in plan.nextManaged;
      KeepBooks(facts, plan, last);
      StampKeepsLineage(last, now);
      PutAccounts(facts, [], KeepAll(recs, init, plan.keepDrops, now), ManagedLineage(last), last.(lastAppliedAt := now),
                  DropLookup(plan.keepDrops, ManagedLineage(last)));
    }
  }

  lemma BaseAccounts(facts: Facts, plan: Plan, now: int)
    requires NoBars(facts) && IsPlan(facts, plan)
    ensures Accounted(facts, [], Base(facts.output, facts.managed, plan, now))
  {
    hide ManagedLineage, NormalizeHostname, NoBars, IsPlan, TakenOver, DeletedBy, Unlisted, GroupBy, LastBy;
    var owned := OwnedByLineage(facts.output, facts.managed);
    var kept := DropAll(owned, plan.drops);
    DropAllIs(owned, plan.drops);
    forall l | l in Index(facts).owned ensures IsAccounted(facts, [], kept, l) {
      if l !in kept {
        var m :| m in plan.drops && ManagedLineage(m) == l;
        DropIsUnlisted(facts, plan, m);
      }
    }
    KeepsAccount(facts, plan, kept, plan.nextManaged, now);
  }

  lemma CommitAccounts(
    facts: Facts, plan: Plan, before: seq<Call>, recs: Lineages, c: Call, response: Option<RecordProvenance>, now: int)
    requires NoBars(facts) && IsPlan(facts, plan) && c in Calls(facts.output, plan)
    requires Accounted(facts, before, recs)
    ensures Accounted(facts, before + [c], Commit(facts.output, recs, c, response, now))
  {
    hide ManagedLineage, NormalizeHostname, Index, NoBars, IsPlan, Calls, Unlisted, DesiredLineage, Replacing, Owned;
    var ix := Index(facts);
    var next := Commit(facts.output, recs, c, response, now);
    CallBooks(facts, plan, c);
    if !c.DeleteCall? {
      var provenance := if c.CreateCall? then response else NextProvenance(response, c.from.provenance);
      PutAccounts(facts, before, recs, DesiredLineage(facts.output, c.to),
                  Owned(facts.output, c.to, provenance, now), c.replaced);
    }
    forall l | l in ix.owned ensures IsAccounted(facts, before + [c], next, l) {
      var host := ManagedHost(ix.owned[l]);
      if c.DeleteCall? {
        assert IsAccounted(facts, before, recs, l);
        if TakenOver(facts, recs, host) {
          var y :| y in recs && y in ix.desired && y !in ix.owned && DesiredHost(ix.desired[y]) == host;
          assert y in next;
        }
        assert c in before + [c];
      } else {
        assert IsAccounted(facts, before, next, l);
      }
      if DeletedBy(before, l) {
        var x :| x in before && x.DeleteCall? && ManagedLineage(x.managed) == l;
        assert x in before + [c];
      }
    }
  }

  lemma {:induction false} CallsAccount(
    facts: Facts, plan: Plan, calls: seq<Call>, responses: seq<Option<RecordProvenance>>, now: int)
    requires NoBars(facts) && IsPlan(facts, plan) && |responses| == |calls|
    requires forall c :: c in calls ==> c in Calls(facts.output, plan)
    ensures Accounted(facts, calls, CommitAll(facts.output, Base(facts.output, facts.managed, plan, now), calls, responses, now))
  {
    hide ManagedLineage, NormalizeHostname, Index, NoBars, IsPlan, Calls, Accounted, Base, Commit;
    if calls == [] {
      BaseAccounts(facts, plan, now);
    } else {
      var n := |calls| - 1;
      CallsAccount(facts, plan, calls[..n], responses[..n], now);
      CommitAccounts(facts, plan, calls[..n],
                     CommitAll(facts.output, Base(facts.output, facts.managed, plan, now), calls[..n], responses[..n], now),
                     calls[n], responses[n], now);
      assert calls == calls[..n] + [calls[n]];
    }
  }

  /** For every managed record and every number of calls that succeed before the pass ends: a record of its lineage
      is still stored, or a desired record of its hostname took over, or its remote delete succeeded, or the output
      lists nothing under its hostname. Whatever the output answered, and without H2 to H4. */
  lemma OwnershipIsConserved(
    facts: Facts, plan: Plan, now: int, responses: seq<Option<RecordProvenance>>, m: ManagedRecord)
    requires NoBars(facts) && IsPlan(facts, plan) && m in facts.managed && m.output == facts.output
    requires |responses| <= |Calls(facts.output, plan)|
    ensures var succeeded := Calls(facts.output, plan)[..|responses|];
      var recs := CommitAll(facts.output, Base(facts.output, facts.managed, plan, now), succeeded, responses, now);
      || ManagedLineage(m) in recs
      || TakenOver(facts, recs, ManagedHost(m))
      || DeletedBy(succeeded, ManagedLineage(m))
      || Unlisted(facts, ManagedHost(m))
  {
    hide ManagedLineage, NormalizeHostname, Index, NoBars, IsPlan, Calls, Base, Commit;
    var succeeded := Calls(facts.output, plan)[..|responses|];
    CallsAccount(facts, plan, succeeded, responses, now);
    ReplacedHost(facts, m);
    var recs := CommitAll(facts.output, Base(facts.output, facts.managed, plan, now), succeeded, responses, now);
    assert IsAccounted(facts, succeeded, recs, ManagedLineage(m));
  }
}
