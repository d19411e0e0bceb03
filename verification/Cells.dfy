/** The bookkeeping map, hostname by hostname. */
module Cells {
  import opened Records
  import opened Keys
  import opened Seqs
  import opened Planner
  import opened Apply
  import opened Fates
  import opened Refinement

  /** `cell` is all that `recs` holds for the hostname. */
  ghost predicate CellIs(recs: Lineages, host: string, cell: Option<ManagedRecord>) {
    match cell
    case None => forall l :: l in recs ==> ManagedHost(recs[l]) != host
    case Some(m) =>
      && ManagedHost(m) == host && Has(recs, m)
      && forall l :: l in recs && ManagedHost(recs[l]) == host ==> l == ManagedLineage(m)
  }

  ghost predicate CellsAre(recs: Lineages, cells: string -> Option<ManagedRecord>) {
    forall host :: CellIs(recs, host, cells(host))
  }

  /** A map under its own keys is determined by its cells. */
  lemma CellsDetermine(output: ProviderRef, a: Lineages, b: Lineages, cells: string -> Option<ManagedRecord>)
    requires OwnKeys(output, a) && OwnKeys(output, b)
    requires CellsAre(a, cells) && CellsAre(b, cells)
    ensures a == b
  {
    hide ManagedLineage, ManagedHost;
    CellsContain(output, a, b, cells);
    CellsContain(output, b, a, cells);
  }

  lemma CellsContain(output: ProviderRef, a: Lineages, b: Lineages, cells: string -> Option<ManagedRecord>)
    requires OwnKeys(output, a) && CellsAre(a, cells) && CellsAre(b, cells)
    ensures forall l :: l in a ==> l in b && b[l] == a[l]
  {
    hide ManagedLineage, ManagedHost;
    forall l | l in a ensures l in b && b[l] == a[l] {
      var host := ManagedHost(a[l]);
      assert CellIs(a, host, cells(host)) && CellIs(b, host, cells(host));
    }
  }

  // ---- Drops and keeps in any order --------------------------------------------------------------

  lemma {:induction false} DropAllIs(recs: Lineages, drops: seq<ManagedRecord>)
    ensures forall l :: l in DropAll(recs, drops) <==> l in recs && forall m :: m in drops ==> ManagedLineage(m) != l
    ensures forall l :: l in DropAll(recs, drops) ==> DropAll(recs, drops)[l] == recs[l]
  {
    hide ManagedLineage;
    if drops != [] {
      var n := |drops| - 1;
      DropAllIs(recs, drops[..n]);
      assert drops == drops[..n] + [drops[n]];
    }
  }

  ghost predicate KeptLineage(keeps: seq<ManagedRecord>, l: string) {
    exists k :: k in keeps && ManagedLineage(k) == l
  }

  ghost predicate ReplacedLineage(keeps: seq<ManagedRecord>, keepDrops: map<string, ManagedRecord>, l: string) {
    exists k :: k in keeps && ReplacesLineage(keepDrops, k, l)
  }

  predicate ReplacesLineage(keepDrops: map<string, ManagedRecord>, k: ManagedRecord, l: string) {
    ManagedLineage(k) in keepDrops && ManagedLineage(keepDrops[ManagedLineage(k)]) == l
  }

  /** No keep is overwritten or dropped by another one. */
  ghost predicate NoInterference(keeps: seq<ManagedRecord>, keepDrops: map<string, ManagedRecord>) {
    && (forall i, j :: 0 <= i < j < |keeps| ==> ManagedLineage(keeps[i]) != ManagedLineage(keeps[j]))
    && (forall k :: k in keeps ==> !ReplacedLineage(keeps, keepDrops, ManagedLineage(k)))
  }

  ghost predicate KeptAll(
    recs: Lineages, keeps: seq<ManagedRecord>, keepDrops: map<string, ManagedRecord>, now: int, result: Lineages)
  {
    && (forall k :: k in keeps ==> Has(result, k.(lastAppliedAt := now)))
    && (forall l :: l in recs && !KeptLineage(keeps, l) && !ReplacedLineage(keeps, keepDrops, l) ==>
          l in result && result[l] == recs[l])
    && (forall l :: l in result ==>
          KeptLineage(keeps, l) || (l in recs && !ReplacedLineage(keeps, keepDrops, l) && result[l] == recs[l]))
  }

  lemma StampKeepsLineage(k: ManagedRecord, now: int)
    ensures ManagedLineage(k.(lastAppliedAt := now)) == ManagedLineage(k)
    ensures ManagedHost(k.(lastAppliedAt := now)) == ManagedHost(k)
  {
    hide LineageKey, NormalizeHostname;
  }

  lemma {:induction false} KeepAllIs(
    recs: Lineages, keeps: seq<ManagedRecord>, keepDrops: map<string, ManagedRecord>, now: int)
    requires NoInterference(keeps, keepDrops)
    ensures KeptAll(recs, keeps, keepDrops, now, KeepAll(recs, keeps, keepDrops, now))
  {
    hide ManagedLineage;
    if keeps != [] {
      var n := |keeps| - 1;
      var init, last := keeps[..n], keeps[n];
      assert keeps == init + [last];
      InterferenceShrinks(keeps, keepDrops);
      KeepAllIs(recs, init, keepDrops, now);
      KeepLast(recs, init, last, keepDrops, now, KeepAll(recs, init, keepDrops, now));
    }
  }

  lemma InterferenceShrinks(keeps: seq<ManagedRecord>, keepDrops: map<string, ManagedRecord>)
    requires keeps != [] && NoInterference(keeps, keepDrops)
    ensures NoInterference(keeps[..|keeps| - 1], keepDrops)
  {
    hide ManagedLineage, ReplacesLineage;
    var init := keeps[..|keeps| - 1];
    forall k | k in init ensures !ReplacedLineage(init, keepDrops, ManagedLineage(k)) {
      assert k in keeps;
      forall x | x in init ensures !ReplacesLineage(keepDrops, x, ManagedLineage(k)) {
        assert x in keeps;
      }
    }
  }

  lemma KeepOneIs(before: Lineages, last: ManagedRecord, keepDrops: map<string, ManagedRecord>, now: int)
    ensures var after := KeepOne(before, last, keepDrops, now); var lineage := ManagedLineage(last);
      && (forall l :: l in after <==> (l == lineage || l in before) && !ReplacesLineage(keepDrops, last, l))
      && (forall l :: l in after ==>
            after[l] == if l == lineage then last.(lastAppliedAt := now) else before[l])
  {
    hide ManagedLineage;
    StampKeepsLineage(last, now);
  }

  lemma LineagesOfOneMore(
    init: seq<ManagedRecord>, last: ManagedRecord, keepDrops: map<string, ManagedRecord>, l: string)
    ensures KeptLineage(init + [last], l) <==> KeptLineage(init, l) || l == ManagedLineage(last)
    ensures ReplacedLineage(init + [last], keepDrops, l)
       <==> ReplacedLineage(init, keepDrops, l) || ReplacesLineage(keepDrops, last, l)
  {
    hide ManagedLineage, ReplacesLineage;
    var keeps := init + [last];
    assert last in keeps;
    assert forall k :: k in keeps <==> k in init || k == last;
  }

  lemma KeepLast(
    recs: Lineages, init: seq<ManagedRecord>, last: ManagedRecord, keepDrops: map<string, ManagedRecord>, now: int,
    before: Lineages)
    requires NoInterference(init + [last], keepDrops)
    requires KeptAll(recs, init, keepDrops, now, before)
    ensures KeptAll(recs, init + [last], keepDrops, now, KeepOne(before, last, keepDrops, now))
  {
    hide ManagedLineage, NoInterference, ReplacesLineage, KeepOne, KeptLineage, ReplacedLineage;
    var keeps, after := init + [last], KeepOne(before, last, keepDrops, now);
    InterferesNot(init, last, keepDrops);
    KeepOneIs(before, last, keepDrops, now);
    forall k | k in keeps ensures Has(after, k.(lastAppliedAt := now)) {
      StampKeepsLineage(k, now);
      if k in init {
        assert Has(before, k.(lastAppliedAt := now));
      }
    }
    forall l ensures KeptLineage(keeps, l) <==> KeptLineage(init, l) || l == ManagedLineage(last)
             ensures ReplacedLineage(keeps, keepDrops, l)
                <==> ReplacedLineage(init, keepDrops, l) || ReplacesLineage(keepDrops, last, l)
    {
      LineagesOfOneMore(init, last, keepDrops, l);
    }
  }

  lemma InterferesNot(init: seq<ManagedRecord>, last: ManagedRecord, keepDrops: map<string, ManagedRecord>)
    requires NoInterference(init + [last], keepDrops)
    ensures forall k :: k in init ==>
      ManagedLineage(k) != ManagedLineage(last) && !ReplacesLineage(keepDrops, last, ManagedLineage(k))
    ensures !ReplacesLineage(keepDrops, last, ManagedLineage(last))
  {
    hide ManagedLineage, ReplacesLineage;
    var keeps := init + [last];
    assert last in keeps;
    forall k | k in init
      ensures ManagedLineage(k) != ManagedLineage(last) && !ReplacesLineage(keepDrops, last, ManagedLineage(k))
    {
      var i :| 0 <= i < |init| && init[i] == k;
      assert keeps[i] == k && keeps[|init|] == last;
      assert k in keeps;
    }
  }

  // ---- The bookkeeping in front of the first call --------------------------------------------------

  /** What drops and keeps leave of a hostname; a pending call has not changed it yet. */
  ghost function Settled(facts: Facts, now: int, host: string): Option<ManagedRecord> {
    match FateAt(facts, host)
    case Kept(record, _) => Some(record.(lastAppliedAt := now))
    case Retained(m) => Some(m.(lastAppliedAt := now))
    case Forgotten(_) => None
    case _ => ManagedAt(facts, host)
  }

  ghost function SettledCells(facts: Facts, now: int): string -> Option<ManagedRecord> {
    host => Settled(facts, now, host)
  }

  /** The owned record behind a fate. */
  lemma FateOfOwned(facts: Facts, host: string)
    requires Orderly(facts)
    ensures var fate := FateAt(facts, host); var m := ManagedAt(facts, host);
      && (fate.Kept? ==>
            && m.Some? && ManagedHost(fate.record) == host && BarFreeManaged(fate.record)
            && fate.record.output == facts.output
            && fate.replaced == (if ManagedLineage(m.value) != ManagedLineage(fate.record) then m else None))
      && (fate.Retained? ==> m == Some(fate.managed))
      && (fate.Forgotten? ==> m == Some(fate.managed))
      && (m.Some? ==>
            && m.value in facts.managed && m.value.output == facts.output
            && BarFreeManaged(m.value) && ManagedHost(m.value) == host)
  {
    hide LineageKey, RecordKey, NormalizeHostname, Index, NoAmbiguity, OneDesiredPerHost, OneManagedPerHost, CanUpdate,
         OnlyHostInCommon, NoBars, ManagedAt, DesiredAt, VisibleAt, WithKey;
    if ManagedAt(facts, host).Some? {
      ManagedIsBarFree(facts, host);
    }
    if DesiredAt(facts, host).Some? {
      DesiredAtIsWinner(facts, host);
      WinnerIsBarFree(facts, DesiredAt(facts, host).value);
    }
  }

  /** A kept or retained record: its own hostname's fate, hence no two of one lineage. */
  lemma KeepsByFate(facts: Facts, plan: Plan, k: ManagedRecord)
    requires Orderly(facts) && IsPlan(facts, plan) && k in plan.nextManaged
    ensures Keeps(FateAt(facts, ManagedHost(k)), k) && BarFreeManaged(k) && k.output == facts.output
    ensures forall l :: ReplacesLineage(plan.keepDrops, k, l) ==>
      && l != ManagedLineage(k)
      && FateAt(facts, ManagedHost(k)).Kept?
      && ManagedAt(facts, ManagedHost(k)).Some? && ManagedLineage(ManagedAt(facts, ManagedHost(k)).value) == l
  {
    hide LineageKey, NormalizeHostname, FateAt, ManagedAt, Orderly, IsPlan;
    NextManagedByFate(facts, plan, k);
    KeepDropsByFate(facts, plan, k);
    FateOfOwned(facts, ManagedHost(k));
  }

  lemma NextManagedIsDistinct(facts: Facts, plan: Plan)
    requires IsPlan(facts, plan)
    ensures NoDuplicates(plan.nextManaged)
  {
    hide LineageKey, Index, Decide, DecideStale, LineageMatched, DropsOf;
    var ix := Index(facts);
    var kept, retained :|
         && plan.nextManaged == kept + retained
         && DesiredPart(facts.output, ix, ix.desired.Keys, plan.(nextManaged := kept))
         && StalePart(facts.output, ix, ix.owned.Keys, plan.deletes, plan.drops, retained);
    forall i, j | 0 <= i < j < |plan.nextManaged| ensures plan.nextManaged[i] != plan.nextManaged[j] {
      if i < |kept| <= j {
        assert kept[i] in kept && retained[j - |kept|] in retained;
        assert ToKeep(facts.output, ix, ix.desired.Keys)(kept[i]);
        assert ToRetain(facts.output, ix, ix.owned.Keys)(retained[j - |kept|]);
      } else if j < |kept| {
        assert kept[i] != kept[j];
      } else {
        assert retained[i - |kept|] != retained[j - |kept|];
      }
    }
  }

  lemma KeepsDoNotInterfere(facts: Facts, plan: Plan)
    requires Orderly(facts) && IsPlan(facts, plan)
    ensures NoInterference(plan.nextManaged, plan.keepDrops)
  {
    hide LineageKey, NormalizeHostname, FateAt, ManagedAt, Orderly, IsPlan;
    var keeps := plan.nextManaged;
    NextManagedIsDistinct(facts, plan);
    forall i, j | 0 <= i < j < |keeps| ensures ManagedLineage(keeps[i]) != ManagedLineage(keeps[j]) {
      KeepsByFate(facts, plan, keeps[i]);
      KeepsByFate(facts, plan, keeps[j]);
      if ManagedLineage(keeps[i]) == ManagedLineage(keeps[j]) {
        SameManagedLineage(keeps[i], keeps[j]);
      }
    }
    forall k | k in keeps ensures !ReplacedLineage(keeps, plan.keepDrops, ManagedLineage(k)) {
      KeepsByFate(facts, plan, k);
      forall x | x in keeps ensures !ReplacesLineage(plan.keepDrops, x, ManagedLineage(k)) {
        KeepsByFate(facts, plan, x);
        if ReplacesLineage(plan.keepDrops, x, ManagedLineage(k)) {
          FateOfOwned(facts, ManagedHost(x));
          SameManagedLineage(ManagedAt(facts, ManagedHost(x)).value, k);
        }
      }
    }
  }

  /** Every entry of the bookkeeping is what its hostname has settled to. */
  lemma BaseEntry(facts: Facts, plan: Plan, now: int, l: string)
    requires Orderly(facts) && IsPlan(facts, plan)
    requires l in Base(facts.output, facts.managed, plan, now)
    ensures var r := Base(facts.output, facts.managed, plan, now)[l];
      Settled(facts, now, ManagedHost(r)) == Some(r) && ManagedLineage(r) == l
  {
    hide LineageKey, NormalizeHostname, FateAt, ManagedAt, Orderly, IsPlan, NoInterference, KeepAll, DropAll;
    var owned := OwnedByLineage(facts.output, facts.managed);
    var base := Base(facts.output, facts.managed, plan, now);
    KeepsDoNotInterfere(facts, plan);
    DropAllIs(owned, plan.drops);
    KeepAllIs(DropAll(owned, plan.drops), plan.nextManaged, plan.keepDrops, now);
    if KeptLineage(plan.nextManaged, l) {
      var k :| k in plan.nextManaged && ManagedLineage(k) == l;
      StampKeepsLineage(k, now);
      KeepsByFate(facts, plan, k);
    } else {
      var m := base[l];
      var fate := FateAt(facts, ManagedHost(m));
      OrderlyManaged(facts);
      ManagedEntry(facts, ManagedHost(m));
      FateOfOwned(facts, ManagedHost(m));
      DropsByFate(facts, plan, m);
      NextManagedByFate(facts, plan, m);
      if fate.Kept? {
        NextManagedByFate(facts, plan, fate.record);
        KeepDropsByFate(facts, plan, fate.record);
        KeepIsListed(plan, fate.record);
      } else if fate.Retained? {
        KeepIsListed(plan, m);
      }
    }
  }

  lemma OrderlyManaged(facts: Facts)
    requires Orderly(facts)
    ensures NoBars(facts) && OneManagedPerHost(facts.output, facts.managed)
  {
  }

  lemma KeepIsListed(plan: Plan, k: ManagedRecord)
    requires k in plan.nextManaged
    ensures KeptLineage(plan.nextManaged, ManagedLineage(k))
    ensures forall l :: ReplacesLineage(plan.keepDrops, k, l) ==> ReplacedLineage(plan.nextManaged, plan.keepDrops, l)
  {
    hide ManagedLineage;
  }

  /** What a hostname settles to is in the bookkeeping. */
  lemma SettledIsInBase(facts: Facts, plan: Plan, now: int, host: string)
    requires Orderly(facts) && IsPlan(facts, plan) && Settled(facts, now, host).Some?
    ensures Has(Base(facts.output, facts.managed, plan, now), Settled(facts, now, host).value)
    ensures ManagedHost(Settled(facts, now, host).value) == host
  {
    hide LineageKey, NormalizeHostname, FateAt, ManagedAt, Orderly, IsPlan, NoInterference, KeepAll, DropAll;
    var owned := OwnedByLineage(facts.output, facts.managed);
    KeepsDoNotInterfere(facts, plan);
    DropAllIs(owned, plan.drops);
    KeepAllIs(DropAll(owned, plan.drops), plan.nextManaged, plan.keepDrops, now);
    var fate := FateAt(facts, host);
    FateOfOwned(facts, host);
    if fate.Kept? {
      NextManagedByFate(facts, plan, fate.record);
      StampKeepsLineage(fate.record, now);
    } else if fate.Retained? {
      NextManagedByFate(facts, plan, fate.managed);
      StampKeepsLineage(fate.managed, now);
    } else {
      UntouchedStays(facts, plan, host);
    }
  }

  lemma UntouchedStays(facts: Facts, plan: Plan, host: string)
    requires Orderly(facts) && IsPlan(facts, plan) && ManagedAt(facts, host).Some?
    requires var fate := FateAt(facts, host); !fate.Kept? && !fate.Retained? && !fate.Forgotten?
    ensures var m := ManagedAt(facts, host).value; var l := ManagedLineage(m);
      var owned := OwnedByLineage(facts.output, facts.managed);
      && l in owned && owned[l] == m
      && (forall x :: x in plan.drops ==> ManagedLineage(x) != l)
      && !KeptLineage(plan.nextManaged, l) && !ReplacedLineage(plan.nextManaged, plan.keepDrops, l)
  {
    hide LineageKey, NormalizeHostname, FateAt, ManagedAt, Orderly, IsPlan, ReplacesLineage;
    var m := ManagedAt(facts, host).value;
    var l := ManagedLineage(m);
    FateOfOwned(facts, host);
    OrderlyManaged(facts);
    OwnedUnderOwnLineage(facts, m);
    forall x | x in plan.drops ensures ManagedLineage(x) != l {
      DropsByFate(facts, plan, x);
      FateOfOwned(facts, ManagedHost(x));
      if ManagedLineage(x) == l {
        SameManagedLineage(x, m);
      }
    }
    forall k | k in plan.nextManaged
      ensures ManagedLineage(k) != l && !ReplacesLineage(plan.keepDrops, k, l)
    {
      KeepsByFate(facts, plan, k);
      if ManagedLineage(k) == l {
        SameManagedLineage(k, m);
      }
      if ReplacesLineage(plan.keepDrops, k, l) {
        FateOfOwned(facts, ManagedHost(k));
        SameManagedLineage(ManagedAt(facts, ManagedHost(k)).value, m);
      }
    }
  }

  /** In front of the first call every hostname holds what its fate says, for every plan. */
  lemma BaseCells(facts: Facts, plan: Plan, now: int)
    requires Orderly(facts) && IsPlan(facts, plan)
    ensures CellsAre(Base(facts.output, facts.managed, plan, now), SettledCells(facts, now))
  {
    hide ManagedLineage, ManagedHost, Settled, Orderly, IsPlan, Base;
    var base := Base(facts.output, facts.managed, plan, now);
    forall host ensures CellIs(base, host, SettledCells(facts, now)(host)) {
      forall l | l in base ensures Settled(facts, now, ManagedHost(base[l])) == Some(base[l]) && ManagedLineage(base[l]) == l {
        BaseEntry(facts, plan, now, l);
      }
      if Settled(facts, now, host).Some? {
        SettledIsInBase(facts, plan, now, host);
      }
    }
  }
}
