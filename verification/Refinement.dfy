/** Every plan, whatever order the maps were visited in, is the same per-hostname fates. */
module Refinement {
  import opened Text
  import opened Records
  import opened Keys
  import opened Seqs
  import opened Planner
  import opened Remote
  import opened Apply
  import opened Fates

  // ---- Which records and calls a plan holds ---------------------------------------------------------

  predicate Keeps(fate: Fate, m: ManagedRecord) {
    (fate.Kept? && fate.record == m) || fate == Retained(m)
  }

  lemma KeptHasHost(output: ProviderRef, ix: Indexes, d: DesiredRecord)
    requires Decide(output, ix, d).Keep?
    ensures var m := Decide(output, ix, d).record;
      ManagedHost(m) == DesiredHost(d) && ManagedLineage(m) == DesiredLineage(output, d) && m.output == output
  {
    hide LineageKey, RecordKey, MatchOwned, CanUpdate, NormalizeHostname;
  }

  lemma NextManagedByFate(facts: Facts, plan: Plan, m: ManagedRecord)
    requires Orderly(facts) && IsPlan(facts, plan)
    ensures m in plan.nextManaged <==> Keeps(FateAt(facts, ManagedHost(m)), m)
  {
    hide ManagedHost, Index, Orderly, FateAt, ToKeep, ToRetain, Decide, DecideStale, SortedBy, DropsOf;
    var ix := Index(facts);
    KeepIsFate(facts, m);
    RetainIsFate(facts, m);
    assert m in plan.nextManaged <==>
      ToKeep(facts.output, ix, ix.desired.Keys)(m) || ToRetain(facts.output, ix, ix.owned.Keys)(m);
  }

  lemma KeepIsFate(facts: Facts, m: ManagedRecord)
    requires Orderly(facts)
    ensures var ix := Index(facts); var fate := FateAt(facts, ManagedHost(m));
      ToKeep(facts.output, ix, ix.desired.Keys)(m) <==> fate.Kept? && fate.record == m
  {
    hide LineageKey, NormalizeHostname, Index, Decide, NoBars, OneDesiredPerHost, OneManagedPerHost, NoAmbiguity,
         DesiredAt, ManagedAt, VisibleAt, WithKey, CanUpdate, OnlyHostInCommon;
    var ix := Index(facts);
    var lineage := ManagedLineage(m);
    IndexedUnderOwnKey(facts);
    if lineage in ix.desired && ToKeep(facts.output, ix, ix.desired.Keys)(m) {
      KeptHasHost(facts.output, ix, ix.desired[lineage]);
      DecideIsFate(facts, ix.desired[lineage]);
    }
    var fate := FateAt(facts, ManagedHost(m));
    if fate.Kept? && fate.record == m {
      DesiredAtIsWinner(facts, ManagedHost(m));
      DecideIsFate(facts, DesiredAt(facts, ManagedHost(m)).value);
      KeptHasHost(facts.output, ix, DesiredAt(facts, ManagedHost(m)).value);
    }
  }

  lemma RetainIsFate(facts: Facts, m: ManagedRecord)
    requires Orderly(facts)
    ensures var ix := Index(facts);
      ToRetain(facts.output, ix, ix.owned.Keys)(m) <==> FateAt(facts, ManagedHost(m)) == Retained(m)
  {
    hide LineageKey, NormalizeHostname, Index, DecideStale, NoBars, OneDesiredPerHost, OneManagedPerHost, NoAmbiguity,
         DesiredAt, ManagedAt, VisibleAt, IsStale, WithKey, CanUpdate, OnlyHostInCommon;
    if IsStale(facts.output, Index(facts), m) {
      DecideStaleIsFate(facts, m);
      StaleLineageIndexed(facts, m);
    }
    if FateAt(facts, ManagedHost(m)) == Retained(m) {
      StaleIsUndesired(facts, m);
    }
  }

  lemma StaleLineageIndexed(facts: Facts, m: ManagedRecord)
    requires IsStale(facts.output, Index(facts), m)
    ensures IsStaleIn(facts.output, Index(facts), Index(facts).owned.Keys, m)
  {
    hide LineageKey, Index, LineageMatched;
  }

  lemma DropsByFate(facts: Facts, plan: Plan, m: ManagedRecord)
    requires Orderly(facts) && IsPlan(facts, plan)
    ensures m in plan.drops <==> FateAt(facts, ManagedHost(m)) == Forgotten(m)
  {
    hide LineageKey, NormalizeHostname, Index, Decide, DecideStale, NoBars, OneDesiredPerHost, OneManagedPerHost,
         DesiredAt, ManagedAt, VisibleAt, IsStale;
    var ix := Index(facts);
    if IsStale(facts.output, ix, m) {
      DecideStaleIsFate(facts, m);
      StaleLineageIndexed(facts, m);
    }
    if FateAt(facts, ManagedHost(m)) == Forgotten(m) {
      StaleIsUndesired(facts, m);
    }
    assert m in plan.drops <==> ToDrop(facts.output, ix, ix.owned.Keys)(m);
  }

  function ReplacedIn(fate: Fate): Option<ManagedRecord> {
    if fate.Kept? then fate.replaced else None
  }

  lemma KeepDropsByFate(facts: Facts, plan: Plan, m: ManagedRecord)
    requires Orderly(facts) && IsPlan(facts, plan) && m in plan.nextManaged
    ensures DropLookup(plan.keepDrops, ManagedLineage(m)) == ReplacedIn(FateAt(facts, ManagedHost(m)))
  {
    hide LineageKey, NormalizeHostname, Index, Decide, FateOf, Orderly, IsPlan, DesiredAt, ManagedAt, VisibleAt, IsStale;
    var fate := FateAt(facts, ManagedHost(m));
    NextManagedByFate(facts, plan, m);
    KeepDropsAreDecided(facts, plan, ManagedLineage(m));
    if fate.Kept? {
      KeptIsDecided(facts, m);
    } else {
      RetainedIsUndesired(facts, m);
    }
  }

  lemma RetainedIsUndesired(facts: Facts, m: ManagedRecord)
    requires Orderly(facts) && FateAt(facts, ManagedHost(m)) == Retained(m)
    ensures ManagedLineage(m) !in Index(facts).desired
  {
    hide LineageKey, NormalizeHostname, Index, NoBars, OneDesiredPerHost, OneManagedPerHost, NoAmbiguity,
         DesiredAt, ManagedAt, VisibleAt, IsStale, OnlyHostInCommon, WithKey, CanUpdate;
    StaleIsUndesired(facts, m);
    UndesiredLineage(facts, m);
  }

  /** The drop map holds what the decision for the lineage replaces, if the decision is to keep. */
  lemma KeepDropsAreDecided(facts: Facts, plan: Plan, lineage: string)
    requires IsPlan(facts, plan)
    ensures var ix := Index(facts);
      DropLookup(plan.keepDrops, lineage)
      == if lineage in ix.desired && Decide(facts.output, ix, ix.desired[lineage]).Keep?
         then Decide(facts.output, ix, ix.desired[lineage]).replaced else None
  {
    hide Index, Decide, Enumerates, StalePart, SortedBy, ToCreate, ToUpdate, ToKeep;
    assert DropsOf(facts.output, Index(facts), Index(facts).desired.Keys, IsKeep(), plan.keepDrops);
  }

  lemma KeptIsDecided(facts: Facts, m: ManagedRecord)
    requires Orderly(facts) && FateAt(facts, ManagedHost(m)).Kept? && Keeps(FateAt(facts, ManagedHost(m)), m)
    ensures var ix := Index(facts); var lineage := ManagedLineage(m);
      && lineage in ix.desired
      && Decide(facts.output, ix, ix.desired[lineage]) == Keep(m, FateAt(facts, ManagedHost(m)).replaced)
  {
    hide LineageKey, NormalizeHostname, Index, Decide, Orderly, DesiredAt, ManagedAt, VisibleAt;
    KeptIsWanted(facts, ManagedHost(m));
    var d := DesiredAt(facts, ManagedHost(m)).value;
    DesiredAtIsWinner(facts, ManagedHost(m));
    DecideIsFate(facts, d);
    KeptHasHost(facts.output, Index(facts), d);
  }

  lemma KeptIsWanted(facts: Facts, host: string)
    requires FateAt(facts, host).Kept?
    ensures DesiredAt(facts, host).Some?
  {
    hide DesiredAt, ManagedAt, VisibleAt, WithKey;
  }

  lemma UndesiredLineage(facts: Facts, m: ManagedRecord)
    requires IsStale(facts.output, Index(facts), m)
    ensures ManagedLineage(m) !in Index(facts).desired
  {
    hide LineageKey, Index, LineageMatched;
  }

  lemma CallsByFate(facts: Facts, plan: Plan, c: Call)
    requires Orderly(facts) && IsPlan(facts, plan)
    ensures c in Calls(facts.output, plan) <==> FateAt(facts, HostOf(c)) == Called(c)
  {
    hide LineageKey, NormalizeHostname, Index, Decide, DecideStale, NoBars, OneDesiredPerHost, OneManagedPerHost,
         FateAt, IsStale, NoDuplicates, OneDesiredPerHost;
    match c {
      case CreateCall(to, replaced) => CreateByFate(facts, plan, to, replaced);
      case UpdateCall(from, to, replaced) => UpdateByFate(facts, plan, from, to, replaced);
      case DeleteCall(visible, managed) => DeleteByFate(facts, plan, visible, managed);
    }
  }

  lemma DesiredFate(facts: Facts, c: Call)
    requires Orderly(facts) && (c.CreateCall? || c.UpdateCall?)
    ensures FateAt(facts, HostOf(c)) == Called(c)
       <==> && IsDesired(facts.output, Index(facts), Index(facts).desired.Keys, c.to)
            && FateOfDecision(c.to, Decide(facts.output, Index(facts), c.to)) == Called(c)
  {
    hide LineageKey, NormalizeHostname, Index, Decide, NoBars, OneDesiredPerHost, OneManagedPerHost,
         ManagedAt, VisibleAt, IsDesired, DesiredAt, OnlyHostInCommon;
    if IsDesired(facts.output, Index(facts), Index(facts).desired.Keys, c.to) {
      DecideIsFate(facts, c.to);
    }
    if FateAt(facts, HostOf(c)) == Called(c) {
      DesiredAtIsWinner(facts, HostOf(c));
    }
  }

  lemma CreateByFate(facts: Facts, plan: Plan, d: DesiredRecord, replaced: Option<ManagedRecord>)
    requires Orderly(facts) && IsPlan(facts, plan)
    ensures CreateCall(d, replaced) in Calls(facts.output, plan)
       <==> FateAt(facts, DesiredHost(d)) == Called(CreateCall(d, replaced))
  {
    hide LineageKey, NormalizeHostname, Index, Decide, Orderly, FateAt, StalePart;
    var ix := Index(facts);
    var c := CreateCall(d, replaced);
    DesiredFate(facts, c);
    assert d in plan.creates <==> ToCreate(facts.output, ix, ix.desired.Keys)(d);
    var drop := DropLookup(plan.createDrops, DesiredLineage(facts.output, d));
    if i :| 0 <= i < |plan.creates| && plan.creates[i] == d {
      assert CreateCalls(facts.output, plan)[i] == CreateCall(d, drop);
    }
    assert c in Calls(facts.output, plan) <==> d in plan.creates && drop == replaced;
  }

  lemma UpdateByFate(facts: Facts, plan: Plan, from: VisibleRecord, to: DesiredRecord, replaced: Option<ManagedRecord>)
    requires Orderly(facts) && IsPlan(facts, plan)
    ensures UpdateCall(from, to, replaced) in Calls(facts.output, plan)
       <==> FateAt(facts, DesiredHost(to)) == Called(UpdateCall(from, to, replaced))
  {
    hide LineageKey, NormalizeHostname, Index, Decide, Orderly, FateAt, StalePart;
    var ix := Index(facts);
    var c := UpdateCall(from, to, replaced);
    var step := UpdateStep(from, to);
    DesiredFate(facts, c);
    assert step in plan.updates <==> ToUpdate(facts.output, ix, ix.desired.Keys)(step);
    var drop := DropLookup(plan.updateDrops, DesiredLineage(facts.output, to));
    if i :| 0 <= i < |plan.updates| && plan.updates[i] == step {
      assert UpdateCalls(facts.output, plan)[i] == UpdateCall(from, to, drop);
    }
    assert c in Calls(facts.output, plan) <==> step in plan.updates && drop == replaced;
  }

  lemma DeleteByFate(facts: Facts, plan: Plan, v: VisibleRecord, m: ManagedRecord)
    requires Orderly(facts) && IsPlan(facts, plan)
    ensures DeleteCall(v, m) in Calls(facts.output, plan)
       <==> FateAt(facts, ManagedHost(m)) == Called(DeleteCall(v, m))
  {
    hide ManagedHost, Index, Orderly, FateAt, ToDelete, IsPlan, Calls;
    DeleteIsFate(facts, v, m);
    DeletesAreDecided(facts, plan, DeleteStep(v, m));
    DeletesAreCalled(facts.output, plan, DeleteStep(v, m));
  }

  lemma DeletesAreDecided(facts: Facts, plan: Plan, step: DeleteStep)
    requires IsPlan(facts, plan)
    ensures step in plan.deletes <==> ToDelete(facts.output, Index(facts), Index(facts).owned.Keys)(step)
  {
    hide Index, ToDelete, ToDrop, ToRetain, SortedBy, DesiredPart;
  }

  lemma DeletesAreCalled(output: ProviderRef, plan: Plan, step: DeleteStep)
    ensures DeleteCall(step.visible, step.managed) in Calls(output, plan) <==> step in plan.deletes
  {
    if i :| 0 <= i < |plan.deletes| && plan.deletes[i] == step {
      assert DeleteCalls(plan)[i] == DeleteCall(step.visible, step.managed);
    }
  }

  lemma DeleteIsFate(facts: Facts, v: VisibleRecord, m: ManagedRecord)
    requires Orderly(facts)
    ensures ToDelete(facts.output, Index(facts), Index(facts).owned.Keys)(DeleteStep(v, m))
       <==> FateAt(facts, ManagedHost(m)) == Called(DeleteCall(v, m))
  {
    hide LineageKey, NormalizeHostname, Index, DecideStale, NoBars, OneDesiredPerHost, OneManagedPerHost, NoAmbiguity,
         IsStale, ManagedAt, DesiredAt, VisibleAt, IsStaleIn, WithKey, CanUpdate, OnlyHostInCommon;
    if IsStale(facts.output, Index(facts), m) {
      DecideStaleIsFate(facts, m);
      StaleLineageIndexed(facts, m);
    }
    StaleInIsStale(facts, m);
    if FateAt(facts, ManagedHost(m)) == Called(DeleteCall(v, m)) {
      StaleIsUndesired(facts, m);
    }
  }

  lemma StaleInIsStale(facts: Facts, m: ManagedRecord)
    ensures IsStaleIn(facts.output, Index(facts), Index(facts).owned.Keys, m) ==> IsStale(facts.output, Index(facts), m)
  {
    hide LineageKey, Index, LineageMatched;
  }

  // ---- The order of the calls ----------------------------------------------------------------------

  function Phase(c: Call): nat {
    match c
    case CreateCall(_, _) => 0
    case UpdateCall(_, _, _) => 1
    case DeleteCall(_, _) => 2
  }

  function SortKey(c: Call): string {
    match c
    case CreateCall(to, _) => DesiredKey(to)
    case UpdateCall(_, to, _) => DesiredKey(to)
    case DeleteCall(visible, _) => VisibleKey(visible)
  }

  predicate Before(a: Call, b: Call) {
    Phase(a) < Phase(b) || (Phase(a) == Phase(b) && Less(SortKey(a), SortKey(b)))
  }

  function InFront(): (Call, Call) -> bool {
    (a: Call, b: Call) => Before(a, b)
  }

  lemma BeforeIsStrict()
    ensures Asymmetric(InFront())
  {
    hide SortKey, Less;
    forall a, b | InFront()(a, b) ensures !InFront()(b, a) {
      if Phase(a) == Phase(b) {
        LessIsStrict(SortKey(a), SortKey(b));
      }
    }
  }

  /** Two calls of one phase with the same sort key concern the same hostname. */
  lemma SameKeySameHost(facts: Facts, a: Call, b: Call)
    requires Orderly(facts)
    requires FateAt(facts, HostOf(a)) == Called(a) && FateAt(facts, HostOf(b)) == Called(b)
    requires Phase(a) == Phase(b) && SortKey(a) == SortKey(b)
    ensures a == b
  {
    hide LineageKey, Index, NoAmbiguity, OneDesiredPerHost, CanUpdate, Replaced, OnlyHostInCommon;
    CallIsBarFree(facts, a);
    CallIsBarFree(facts, b);
    match a {
      case CreateCall(to, _) => RecordKeyFaithful(to.hostname, to.answer, b.to.hostname, b.to.answer);
      case UpdateCall(_, to, _) => RecordKeyFaithful(to.hostname, to.answer, b.to.hostname, b.to.answer);
      case DeleteCall(_, m) => RecordKeyFaithful(m.hostname, m.answer, b.managed.hostname, b.managed.answer);
    }
  }

  /** The records of a call that is some hostname's fate. */
  lemma CallIsBarFree(facts: Facts, c: Call)
    requires Orderly(facts) && FateAt(facts, HostOf(c)) == Called(c)
    ensures (c.CreateCall? || c.UpdateCall?) ==>
      DesiredAt(facts, HostOf(c)) == Some(c.to) && BarFreeDesired(c.to)
    ensures c.DeleteCall? ==>
      && ManagedAt(facts, HostOf(c)) == Some(c.managed) && DesiredAt(facts, HostOf(c)).None?
      && BarFreeManaged(c.managed) && VisibleKey(c.visible) == ManagedKey(c.managed)
  {
    hide LineageKey, NormalizeHostname, RecordKey, Index, NoAmbiguity, OneDesiredPerHost, OneManagedPerHost, CanUpdate,
         Replaced, OnlyHostInCommon, NoBars, ManagedAt, DesiredAt, VisibleAt;
    if c.DeleteCall? {
      ManagedIsBarFree(facts, HostOf(c));
      WithKeyHasKey(facts.output, VisibleAt(facts, HostOf(c)), ManagedKey(c.managed));
    } else {
      DesiredAtIsWinner(facts, HostOf(c));
      WinnerIsBarFree(facts, DesiredAt(facts, HostOf(c)).value);
    }
  }

  lemma CallsInOrder(facts: Facts, plan: Plan)
    requires Orderly(facts) && IsPlan(facts, plan)
    ensures Ordered(Calls(facts.output, plan), InFront())
  {
    hide LineageKey, RecordKey, NormalizeHostname, Index, Orderly, FateAt, DesiredPart, StalePart;
    var calls := Calls(facts.output, plan);
    CallsAreDistinct(facts, plan);
    forall i, j | 0 <= i < j < |calls| ensures Before(calls[i], calls[j]) {
      CallsByFate(facts, plan, calls[i]);
      CallsByFate(facts, plan, calls[j]);
      PhasesAscend(facts, plan, i, j);
      if Phase(calls[i]) == Phase(calls[j]) {
        LessTotal(SortKey(calls[i]), SortKey(calls[j]));
        if SortKey(calls[i]) == SortKey(calls[j]) {
          SameKeySameHost(facts, calls[i], calls[j]);
        }
      }
    }
  }

  lemma PhasesAscend(facts: Facts, plan: Plan, i: nat, j: nat)
    requires IsPlan(facts, plan) && i < j < |Calls(facts.output, plan)|
    ensures var calls := Calls(facts.output, plan);
      || Phase(calls[i]) < Phase(calls[j])
      || (Phase(calls[i]) == Phase(calls[j]) && !Less(SortKey(calls[j]), SortKey(calls[i])))
  {
    hide LineageKey, RecordKey, NormalizeHostname, Index, DesiredPart, StalePart, Less, FindsAmbiguities, DropLookup;
    var nc, nu := |plan.creates|, |plan.updates|;
    if j < nc {
      assert !Less(CreateSortKey()(plan.creates[j]), CreateSortKey()(plan.creates[i]));
    } else if nc <= i && j < nc + nu {
      assert !Less(UpdateSortKey()(plan.updates[j - nc]), UpdateSortKey()(plan.updates[i - nc]));
    } else if nc + nu <= i {
      assert !Less(DeleteSortKey()(plan.deletes[j - nc - nu]), DeleteSortKey()(plan.deletes[i - nc - nu]));
    }
  }

  lemma CallsAreDistinct(facts: Facts, plan: Plan)
    requires IsPlan(facts, plan)
    ensures NoDuplicates(Calls(facts.output, plan))
  {
    hide LineageKey, RecordKey, NormalizeHostname, Index, ToCreate, ToUpdate, ToDelete, DropsOf, SortedBy;
    var calls := Calls(facts.output, plan);
    var nc, nu := |plan.creates|, |plan.updates|;
    forall i, j | 0 <= i < j < |calls| ensures calls[i] != calls[j] {
      if j < nc {
        assert plan.creates[i] != plan.creates[j];
      } else if nc <= i && j < nc + nu {
        assert plan.updates[i - nc] != plan.updates[j - nc];
      } else if nc + nu <= i {
        assert plan.deletes[i - nc - nu] != plan.deletes[j - nc - nu];
      }
    }
  }

  /** Under H1 to H3 the call sequence does not depend on the order in which the maps are visited. */
  lemma CallsAreDetermined(facts: Facts, p: Plan, q: Plan)
    requires Orderly(facts) && IsPlan(facts, p) && IsPlan(facts, q)
    ensures Calls(facts.output, p) == Calls(facts.output, q)
  {
    hide Orderly, IsPlan, Calls, FateAt, Index;
    CallsInOrder(facts, p);
    CallsInOrder(facts, q);
    forall c ensures c in Calls(facts.output, p) <==> c in Calls(facts.output, q) {
      CallsByFate(facts, p, c);
      CallsByFate(facts, q, c);
    }
    BeforeIsStrict();
    OrderIsUnique(Calls(facts.output, p), Calls(facts.output, q), InFront());
  }
}
