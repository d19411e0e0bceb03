/** When the order of map iteration shows: exactly, and without any of H1 to H4. */
module Orders {
  import opened Records
  import opened Keys
  import opened Seqs
  import opened Planner
  import opened Apply
  import opened Refinement
  import opened Cells
  import opened Conservation

  // ---- The lists of a plan -----------------------------------------------------------------------------------

  /** The kept and the retained records of a plan. */
  ghost predicate Parts(facts: Facts, plan: Plan, kept: seq<ManagedRecord>, retained: seq<ManagedRecord>) {
    var ix := Index(facts);
    && plan.nextManaged == kept + retained
    && DesiredPart(facts.output, ix, ix.desired.Keys, plan.(nextManaged := kept))
    && StalePart(facts.output, ix, ix.owned.Keys, plan.deletes, plan.drops, retained)
  }

  lemma PlanHasParts(facts: Facts, plan: Plan) returns (kept: seq<ManagedRecord>, retained: seq<ManagedRecord>)
    requires IsPlan(facts, plan)
    ensures Parts(facts, plan, kept, retained)
  {
    hide Index, DesiredPart, StalePart, SortedBy, FindsAmbiguities;
    kept, retained :|
      && plan.nextManaged == kept + retained
      && DesiredPart(facts.output, Index(facts), Index(facts).desired.Keys, plan.(nextManaged := kept))
      && StalePart(facts.output, Index(facts), Index(facts).owned.Keys, plan.deletes, plan.drops, retained);
  }

  /** A kept record is the decision of its lineage. */
  lemma ListedIsDecided(facts: Facts, plan: Plan, kept: seq<ManagedRecord>, retained: seq<ManagedRecord>, m: ManagedRecord)
    requires Parts(facts, plan, kept, retained)
    ensures m in kept <==> ToKeep(facts.output, Index(facts), Index(facts).desired.Keys)(m)
    ensures m in retained <==> ToRetain(facts.output, Index(facts), Index(facts).owned.Keys)(m)
    ensures m in plan.drops <==> ToDrop(facts.output, Index(facts), Index(facts).owned.Keys)(m)
  {
    hide Index, ToKeep, ToRetain, ToDrop, ToCreate, ToUpdate, ToDelete, DropsOf;
  }

  lemma PartsAreLists(facts: Facts, plan: Plan, kept: seq<ManagedRecord>, retained: seq<ManagedRecord>)
    requires Parts(facts, plan, kept, retained)
    ensures NoDuplicates(kept) && NoDuplicates(retained)
    ensures Enumerates(kept, ToKeep(facts.output, Index(facts), Index(facts).desired.Keys))
  {
    hide Index, ToKeep, ToRetain, ToDrop, ToCreate, ToUpdate, ToDelete, DropsOf;
  }

  /** A retained record's lineage is neither desired nor matched. */
  lemma RetainedIsStale(facts: Facts, m: ManagedRecord)
    requires ToRetain(facts.output, Index(facts), Index(facts).owned.Keys)(m)
    ensures var ix := Index(facts); var lineage := ManagedLineage(m);
      && lineage !in ix.desired && lineage in ix.owned && ix.owned[lineage] == m
      && !LineageMatched(facts.output, ix, ix.desired.Keys, lineage)
  {
    hide ManagedLineage, Index, DecideStale, LineageMatched;
  }

  lemma KeptHasDecision(facts: Facts, m: ManagedRecord)
    requires ToKeep(facts.output, Index(facts), Index(facts).desired.Keys)(m)
    ensures var ix := Index(facts); var lineage := ManagedLineage(m);
      && lineage in ix.desired && Decide(facts.output, ix, ix.desired[lineage]).Keep?
      && Decide(facts.output, ix, ix.desired[lineage]).record == m
  {
    hide ManagedLineage, Index, Decide;
  }

  /** What a decision replaces is matched, and has another lineage. */
  lemma ReplacedIsMatched(facts: Facts, l: string)
    requires l in Index(facts).desired
    ensures var ix := Index(facts); var replaced := ReplacedBy(Decide(facts.output, ix, ix.desired[l]));
      replaced.Some? ==>
        LineageMatched(facts.output, ix, ix.desired.Keys, ManagedLineage(replaced.value)) && ManagedLineage(replaced.value) != l
  {
    var ix := Index(facts);
    IndexedUnderOwnKey(facts);
    ReplacesTheMatch(facts, ix.desired[l]);
    hide LineageKey, Index, Decide, MatchOwned;
    assert LineageMatched(facts.output, ix, ix.desired.Keys, ManagedLineage(MatchOwned(facts.output, ix, ix.desired[l]).owned))
      <== MatchOwned(facts.output, ix, ix.desired[l]).Matched?;
  }

  // ---- Interference ------------------------------------------------------------------------------------------

  /** Keeping the record of lineage `l` removes lineage `k`, which is kept as well. */
  ghost predicate Erases(facts: Facts, l: string, k: string) {
    var ix := Index(facts);
    && k in ix.desired && Decide(facts.output, ix, ix.desired[k]).Keep?
    && l in ix.desired && Decide(facts.output, ix, ix.desired[l]).Keep?
    && Decide(facts.output, ix, ix.desired[l]).replaced.Some?
    && ManagedLineage(Decide(facts.output, ix, ix.desired[l]).replaced.value) == k
  }

  ghost predicate KeepsInterfere(facts: Facts) {
    exists k, l :: Erases(facts, l, k)
  }

  lemma ErasingInterferes(facts: Facts, l: string, k: string)
    requires Erases(facts, l, k)
    ensures KeepsInterfere(facts)
  {
    hide Erases;
  }

  /** A listed record replaces a lineage exactly if its own decision is to keep and does. */
  lemma ReplacesByDecision(facts: Facts, plan: Plan, x: ManagedRecord, k: string)
    requires IsPlan(facts, plan)
    ensures ReplacesLineage(plan.keepDrops, x, k)
       <==> var ix := Index(facts); var l := ManagedLineage(x);
            && l in ix.desired && Decide(facts.output, ix, ix.desired[l]).Keep?
            && Decide(facts.output, ix, ix.desired[l]).replaced.Some?
            && ManagedLineage(Decide(facts.output, ix, ix.desired[l]).replaced.value) == k
  {
    hide ManagedLineage, Index, Decide, IsPlan;
    KeepDropsAreDecided(facts, plan, ManagedLineage(x));
  }

  lemma ListedLineages(facts: Facts, plan: Plan, kept: seq<ManagedRecord>, retained: seq<ManagedRecord>, i: nat, j: nat)
    requires Parts(facts, plan, kept, retained) && i < j < |plan.nextManaged|
    ensures ManagedLineage(plan.nextManaged[i]) != ManagedLineage(plan.nextManaged[j])
  {
    hide ManagedLineage, Index, Decide, ToKeep, ToRetain, DesiredPart, StalePart, LineageMatched;
    var a, b := plan.nextManaged[i], plan.nextManaged[j];
    PartsAreLists(facts, plan, kept, retained);
    ListedIsDecided(facts, plan, kept, retained, a);
    ListedIsDecided(facts, plan, kept, retained, b);
    if j < |kept| {
      KeptHasDecision(facts, a);
      KeptHasDecision(facts, b);
    } else {
      RetainedIsStale(facts, b);
      if i < |kept| {
        KeptHasDecision(facts, a);
      } else {
        RetainedIsStale(facts, a);
      }
    }
  }

  lemma NoClashNoInterference(facts: Facts, plan: Plan)
    requires IsPlan(facts, plan) && !KeepsInterfere(facts)
    ensures NoInterference(plan.nextManaged, plan.keepDrops)
  {
    hide ManagedLineage, Index, Decide, IsPlan, Parts, ReplacesLineage, KeepsInterfere;
    var kept, retained := PlanHasParts(facts, plan);
    var keeps := plan.nextManaged;
    forall i, j | 0 <= i < j < |keeps| ensures ManagedLineage(keeps[i]) != ManagedLineage(keeps[j]) {
      ListedLineages(facts, plan, kept, retained, i, j);
    }
    forall k, x | k in keeps && x in keeps ensures !ReplacesLineage(plan.keepDrops, x, ManagedLineage(k)) {
      NothingErased(facts, plan, kept, retained, k, x);
    }
  }

  lemma NothingErased(
    facts: Facts, plan: Plan, kept: seq<ManagedRecord>, retained: seq<ManagedRecord>, k: ManagedRecord, x: ManagedRecord)
    requires IsPlan(facts, plan) && !KeepsInterfere(facts) && Parts(facts, plan, kept, retained)
    requires k in plan.nextManaged && x in plan.nextManaged
    ensures !ReplacesLineage(plan.keepDrops, x, ManagedLineage(k))
  {
    hide ManagedLineage, Index, Decide, IsPlan, ReplacesLineage, ToKeep, ToRetain, LineageMatched, DesiredPart, StalePart,
         KeepsInterfere;
    ReplacesByDecision(facts, plan, x, ManagedLineage(k));
    if ReplacesLineage(plan.keepDrops, x, ManagedLineage(k)) {
      ListedIsDecided(facts, plan, kept, retained, k);
      ReplacedIsMatched(facts, ManagedLineage(x));
      if k in kept {
        KeptHasDecision(facts, k);
        ErasingInterferes(facts, ManagedLineage(x), ManagedLineage(k));
      } else {
        RetainedIsStale(facts, k);
      }
    }
  }

  // ---- Without interference ------------------------------------------------------------------------------------

  lemma KeptAllDetermines(
    recs: Lineages, keeps: seq<ManagedRecord>, keeps': seq<ManagedRecord>, keepDrops: map<string, ManagedRecord>, now: int,
    a: Lineages, b: Lineages)
    requires KeptAll(recs, keeps, keepDrops, now, a) && KeptAll(recs, keeps', keepDrops, now, b)
    requires forall m :: m in keeps <==> m in keeps'
    ensures a == b
  {
    KeptAllWithin(recs, keeps, keeps', keepDrops, now, a, b);
    KeptAllWithin(recs, keeps', keeps, keepDrops, now, b, a);
  }

  lemma KeptAllWithin(
    recs: Lineages, keeps: seq<ManagedRecord>, keeps': seq<ManagedRecord>, keepDrops: map<string, ManagedRecord>, now: int,
    a: Lineages, b: Lineages)
    requires KeptAll(recs, keeps, keepDrops, now, a) && KeptAll(recs, keeps', keepDrops, now, b)
    requires forall m :: m in keeps <==> m in keeps'
    ensures forall l :: l in a ==> l in b && b[l] == a[l]
  {
    hide ManagedLineage, ReplacesLineage;
    forall l | l in a ensures l in b && b[l] == a[l] {
      if KeptLineage(keeps, l) {
        var k :| k in keeps && ManagedLineage(k) == l;
        StampKeepsLineage(k, now);
        assert Has(a, k.(lastAppliedAt := now)) && Has(b, k.(lastAppliedAt := now));
      } else {
        SameLineages(keeps, keeps', keepDrops, l);
      }
    }
  }

  lemma SameLineages(
    keeps: seq<ManagedRecord>, keeps': seq<ManagedRecord>, keepDrops: map<string, ManagedRecord>, l: string)
    requires forall m :: m in keeps <==> m in keeps'
    ensures KeptLineage(keeps, l) <==> KeptLineage(keeps', l)
    ensures ReplacedLineage(keeps, keepDrops, l) <==> ReplacedLineage(keeps', keepDrops, l)
  {
    hide ManagedLineage, ReplacesLineage;
  }

  /** Everything in a plan but the order of its lists is determined. */
  lemma PlansAgree(facts: Facts, p: Plan, q: Plan)
    requires IsPlan(facts, p) && IsPlan(facts, q)
    ensures forall m :: m in p.nextManaged <==> m in q.nextManaged
    ensures forall m :: m in p.drops <==> m in q.drops
    ensures p.keepDrops == q.keepDrops
  {
    hide ManagedLineage, Index, Decide, IsPlan, ToKeep, ToRetain, ToDrop, DesiredPart, StalePart;
    var kept, retained := PlanHasParts(facts, p);
    var kept', retained' := PlanHasParts(facts, q);
    forall m ensures (m in p.nextManaged <==> m in q.nextManaged) && (m in p.drops <==> m in q.drops) {
      ListedIsDecided(facts, p, kept, retained, m);
      ListedIsDecided(facts, q, kept', retained', m);
    }
    forall l ensures DropLookup(p.keepDrops, l) == DropLookup(q.keepDrops, l) {
      KeepDropsAreDecided(facts, p, l);
      KeepDropsAreDecided(facts, q, l);
    }
    SameDrops(p.keepDrops, q.keepDrops);
  }

  lemma SameDrops(a: map<string, ManagedRecord>, b: map<string, ManagedRecord>)
    requires forall l :: DropLookup(a, l) == DropLookup(b, l)
    ensures a == b
  {
    forall l ensures (l in a <==> l in b) && (l in a ==> a[l] == b[l]) {
      assert DropLookup(a, l) == DropLookup(b, l);
    }
  }

  lemma SameDropAll(recs: Lineages, a: seq<ManagedRecord>, b: seq<ManagedRecord>)
    requires forall m :: m in a <==> m in b
    ensures DropAll(recs, a) == DropAll(recs, b)
  {
    hide ManagedLineage;
    DropAllIs(recs, a);
    DropAllIs(recs, b);
  }

  lemma NoClashSameBase(facts: Facts, p: Plan, q: Plan, now: int)
    requires IsPlan(facts, p) && IsPlan(facts, q) && !KeepsInterfere(facts)
    ensures Base(facts.output, facts.managed, p, now) == Base(facts.output, facts.managed, q, now)
  {
    hide IsPlan, KeepsInterfere, NoInterference, KeptAll, KeepAll, DropAll;
    var owned := OwnedByLineage(facts.output, facts.managed);
    PlansAgree(facts, p, q);
    SameDropAll(owned, p.drops, q.drops);
    NoClashNoInterference(facts, p);
    NoClashNoInterference(facts, q);
    var recs := DropAll(owned, p.drops);
    KeepAllIs(recs, p.nextManaged, p.keepDrops, now);
    KeepAllIs(recs, q.nextManaged, q.keepDrops, now);
    KeptAllDetermines(recs, p.nextManaged, q.nextManaged, p.keepDrops, now,
                      KeepAll(recs, p.nextManaged, p.keepDrops, now), KeepAll(recs, q.nextManaged, q.keepDrops, now));
  }

  // ---- With interference ---------------------------------------------------------------------------------------

  /** A lineage that is removed and not kept again is gone. */
  lemma {:induction false} KeepAllLoses(
    recs: Lineages, keeps: seq<ManagedRecord>, keepDrops: map<string, ManagedRecord>, now: int, i: nat, k: string)
    requires i < |keeps| && ReplacesLineage(keepDrops, keeps[i], k)
    requires forall j :: i <= j < |keeps| ==> ManagedLineage(keeps[j]) != k
    ensures k !in KeepAll(recs, keeps, keepDrops, now)
  {
    hide ManagedLineage, ReplacesLineage, KeepOne;
    var n := |keeps| - 1;
    KeepOneIs(KeepAll(recs, keeps[..n], keepDrops, now), keeps[n], keepDrops, now);
    if i < n {
      KeepAllLoses(recs, keeps[..n], keepDrops, now, i, k);
    }
  }

  /** A lineage that is kept and not removed again is held. */
  lemma {:induction false} KeepAllHolds(
    recs: Lineages, keeps: seq<ManagedRecord>, keepDrops: map<string, ManagedRecord>, now: int, i: nat, k: string)
    requires i < |keeps| && ManagedLineage(keeps[i]) == k
    requires forall j :: i <= j < |keeps| ==> !ReplacesLineage(keepDrops, keeps[j], k)
    ensures k in KeepAll(recs, keeps, keepDrops, now)
  {
    hide ManagedLineage, ReplacesLineage, KeepOne;
    var n := |keeps| - 1;
    KeepOneIs(KeepAll(recs, keeps[..n], keepDrops, now), keeps[n], keepDrops, now);
    if i < n {
      KeepAllHolds(recs, keeps[..n], keepDrops, now, i, k);
    }
  }

  /** The kept records may come in any order. */
  lemma ReorderedIsPlan(
    facts: Facts, p: Plan, kept: seq<ManagedRecord>, retained: seq<ManagedRecord>, order: seq<ManagedRecord>)
    requires IsPlan(facts, p) && Parts(facts, p, kept, retained) && multiset(order) == multiset(kept)
    ensures IsPlan(facts, p.(nextManaged := order + retained))
    ensures Parts(facts, p.(nextManaged := order + retained), order, retained)
  {
    hide Index, ToKeep, ToCreate, ToUpdate, DropsOf, StalePart, SortedBy, FindsAmbiguities;
    var q := p.(nextManaged := order + retained);
    PartsAreLists(facts, p, kept, retained);
    EnumeratePermuted(kept, order, ToKeep(facts.output, Index(facts), Index(facts).desired.Keys));
    assert DesiredPart(facts.output, Index(facts), Index(facts).desired.Keys, p.(nextManaged := kept));
    assert q.(nextManaged := order) == p.(nextManaged := order);
  }

  lemma FrontLoses(facts: Facts, q: Plan, kept: seq<ManagedRecord>, retained: seq<ManagedRecord>, now: int, k: string, l: string)
    requires IsPlan(facts, q) && Parts(facts, q, kept, retained) && Erases(facts, l, k)
    requires kept != [] && ManagedLineage(kept[0]) == k
    ensures k !in Base(facts.output, facts.managed, q, now)
  {
    hide ManagedLineage, Index, Decide, IsPlan, ReplacesLineage, ToKeep, ToRetain, LineageMatched, DesiredPart, StalePart,
         KeepAll, DropAll;
    var ix := Index(facts);
    var record := Decide(facts.output, ix, ix.desired[l]).record;
    ErasingIsKept(facts, l);
    ListedIsDecided(facts, q, kept, retained, record);
    var i :| 0 <= i < |kept| && kept[i] == record;
    ReplacedIsMatched(facts, l);
    ReplacesByDecision(facts, q, record, k);
    forall j | i <= j < |q.nextManaged| ensures ManagedLineage(q.nextManaged[j]) != k {
      ListedLineages(facts, q, kept, retained, 0, j);
    }
    KeepAllLoses(DropAll(OwnedByLineage(facts.output, facts.managed), q.drops), q.nextManaged, q.keepDrops, now, i, k);
  }

  lemma ErasingIsKept(facts: Facts, l: string)
    requires l in Index(facts).desired && Decide(facts.output, Index(facts), Index(facts).desired[l]).Keep?
    ensures var ix := Index(facts); var record := Decide(facts.output, ix, ix.desired[l]).record;
      ManagedLineage(record) == l && ToKeep(facts.output, ix, ix.desired.Keys)(record)
  {
    IndexedUnderOwnKey(facts);
    KeptHasLineage(facts.output, Index(facts), Index(facts).desired[l]);
    hide LineageKey, Index, Decide;
  }

  lemma BackHolds(facts: Facts, q: Plan, kept: seq<ManagedRecord>, retained: seq<ManagedRecord>, now: int, k: string)
    requires IsPlan(facts, q) && Parts(facts, q, kept, retained)
    requires kept != [] && ManagedLineage(kept[|kept| - 1]) == k
    ensures k in Base(facts.output, facts.managed, q, now)
  {
    hide ManagedLineage, Index, Decide, IsPlan, ReplacesLineage, ToKeep, ToRetain, LineageMatched, DesiredPart, StalePart,
         KeepAll, DropAll;
    var i := |kept| - 1;
    forall j | i <= j < |q.nextManaged| ensures !ReplacesLineage(q.keepDrops, q.nextManaged[j], k) {
      var x := q.nextManaged[j];
      ReplacesByDecision(facts, q, x, k);
      ListedIsDecided(facts, q, kept, retained, x);
      if j == i {
        KeptHasDecision(facts, x);
        ReplacedIsMatched(facts, k);
      } else {
        assert x == retained[j - |kept|];
        RetainedIsStale(facts, x);
      }
    }
    KeepAllHolds(DropAll(OwnedByLineage(facts.output, facts.managed), q.drops), q.nextManaged, q.keepDrops, now, i, k);
  }

  lemma MovedToFront<T>(xs: seq<T>, i: nat)
    requires i < |xs|
    ensures multiset([xs[i]] + (xs[..i] + xs[i + 1..])) == multiset(xs)
    ensures multiset(xs[..i] + xs[i + 1..] + [xs[i]]) == multiset(xs)
  {
    assert xs == xs[..i] + [xs[i]] + xs[i + 1..];
  }

  lemma ClashShows(facts: Facts, p: Plan, now: int) returns (q: Plan)
    requires IsPlan(facts, p) && KeepsInterfere(facts)
    ensures IsPlan(facts, q) && Base(facts.output, facts.managed, q, now) != Base(facts.output, facts.managed, p, now)
  {
    hide ManagedLineage, Index, Decide, IsPlan, Parts, Base, ToKeep, ToRetain, ToDrop;
    var k, l :| Erases(facts, l, k);
    var kept, retained := PlanHasParts(facts, p);
    var record := Decide(facts.output, Index(facts), Index(facts).desired[k]).record;
    ErasingIsKept(facts, k);
    ListedIsDecided(facts, p, kept, retained, record);
    var i :| 0 <= i < |kept| && kept[i] == record;
    MovedToFront(kept, i);
    var rest := kept[..i] + kept[i + 1..];
    if k in Base(facts.output, facts.managed, p, now) {
      ReorderedIsPlan(facts, p, kept, retained, [record] + rest);
      q := p.(nextManaged := [record] + rest + retained);
      FrontLoses(facts, q, [record] + rest, retained, now, k, l);
    } else {
      ReorderedIsPlan(facts, p, kept, retained, rest + [record]);
      q := p.(nextManaged := rest + [record] + retained);
      BackHolds(facts, q, rest + [record], retained, now, k);
    }
  }

  /** Some other order of map iteration leaves another bookkeeping exactly if keeping one record removes the lineage
      that another one is kept under. */
  lemma BookkeepingDependsExactly(facts: Facts, p: Plan, now: int)
    requires IsPlan(facts, p)
    ensures KeepsInterfere(facts)
       <==> exists q :: IsPlan(facts, q)
                   && Base(facts.output, facts.managed, q, now) != Base(facts.output, facts.managed, p, now)
  {
    hide IsPlan, KeepsInterfere, Base;
    if KeepsInterfere(facts) {
      var q := ClashShows(facts, p, now);
    } else {
      forall q | IsPlan(facts, q)
        ensures Base(facts.output, facts.managed, q, now) == Base(facts.output, facts.managed, p, now)
      {
        NoClashSameBase(facts, q, p, now);
      }
    }
  }

  // ---- The order of the calls ----------------------------------------------------------------------------------

  /** Two different elements of a list share their sort key. */
  ghost predicate Ties<T(!new)>(p: T -> bool, key: T -> string) {
    exists x, y :: p(x) && p(y) && x != y && key(x) == key(y)
  }

  ghost predicate CallsTie(facts: Facts) {
    var ix := Index(facts);
    || Ties(ToCreate(facts.output, ix, ix.desired.Keys), CreateSortKey())
    || Ties(ToUpdate(facts.output, ix, ix.desired.Keys), UpdateSortKey())
    || Ties(ToDelete(facts.output, ix, ix.owned.Keys), DeleteSortKey())
  }

  lemma EnumerationsAgree<T(!new)>(xs: seq<T>, ys: seq<T>)
    requires NoDuplicates(xs) && NoDuplicates(ys) && forall x :: x in xs <==> x in ys
    ensures multiset(xs) == multiset(ys)
  {
    forall x ensures multiset(xs)[x] == multiset(ys)[x] {
      NoDuplicatesCount(xs, x);
      NoDuplicatesCount(ys, x);
      assert x in xs <==> x in multiset(xs);
      assert x in ys <==> x in multiset(ys);
      assert x in xs <==> x in ys;
    }
  }

  /** Without ties a sorted list is determined. */
  lemma UntiedIsUnique<T(!new)>(xs: seq<T>, ys: seq<T>, p: T -> bool, key: T -> string)
    requires Enumerates(xs, p) && Enumerates(ys, p) && SortedBy(xs, key) && SortedBy(ys, key) && !Ties(p, key)
    ensures xs == ys
  {
    EnumerationsAgree(xs, ys);
    forall x, y | x in xs && y in xs && key(x) == key(y) ensures x == y {
      assert p(x) && p(y);
    }
    SortedIsUnique(xs, ys, key);
  }

  /** Tied elements can change places. */
  lemma TiedCanSwap<T(!new)>(xs: seq<T>, p: T -> bool, key: T -> string) returns (ys: seq<T>)
    requires Enumerates(xs, p) && SortedBy(xs, key) && Ties(p, key)
    ensures Enumerates(ys, p) && SortedBy(ys, key) && ys != xs && |ys| == |xs|
  {
    var x, y :| p(x) && p(y) && x != y && key(x) == key(y);
    assert x in xs && y in xs;
    var i :| 0 <= i < |xs| && xs[i] == x;
    var j :| 0 <= j < |xs| && xs[j] == y;
    ys := xs[i := y][j := x];
    hide Enumerates, Ties;
    SwapPermutes(xs, i, j);
    assert ys[i] == y;
    SortedByKeys(xs, ys, key);
    EnumeratePermuted(xs, ys, p);
  }

  lemma SwapPermutes<T>(xs: seq<T>, i: nat, j: nat)
    requires i < |xs| && j < |xs|
    ensures multiset(xs[i := xs[j]][j := xs[i]]) == multiset(xs)
  {
  }

  lemma PlanIsSorted(facts: Facts, plan: Plan)
    requires IsPlan(facts, plan)
    ensures var ix := Index(facts);
      && SortedBy(plan.creates, CreateSortKey()) && Enumerates(plan.creates, ToCreate(facts.output, ix, ix.desired.Keys))
      && SortedBy(plan.updates, UpdateSortKey()) && Enumerates(plan.updates, ToUpdate(facts.output, ix, ix.desired.Keys))
      && SortedBy(plan.deletes, DeleteSortKey()) && Enumerates(plan.deletes, ToDelete(facts.output, ix, ix.owned.Keys))
      && DropsOf(facts.output, ix, ix.desired.Keys, IsCreate(), plan.createDrops)
      && DropsOf(facts.output, ix, ix.desired.Keys, IsUpdate(), plan.updateDrops)
  {
    hide Index, Enumerates, ToCreate, ToUpdate, ToDelete, DropsOf, SortedBy, FindsAmbiguities;
  }

  lemma DropsAreUnique(
    output: ProviderRef, ix: Indexes, kind: Decision -> bool, a: map<string, ManagedRecord>, b: map<string, ManagedRecord>)
    requires DropsOf(output, ix, ix.desired.Keys, kind, a) && DropsOf(output, ix, ix.desired.Keys, kind, b)
    ensures a == b
  {
    hide Decide;
    forall l ensures DropLookup(a, l) == DropLookup(b, l) {
      assert (if l in a then Some(a[l]) else None) == (if l in b then Some(b[l]) else None);
    }
    SameDrops(a, b);
  }

  lemma UntiedCalls(facts: Facts, p: Plan, q: Plan)
    requires IsPlan(facts, p) && IsPlan(facts, q) && !CallsTie(facts)
    ensures Calls(facts.output, p) == Calls(facts.output, q)
  {
    hide Index, IsPlan, Enumerates, ToCreate, ToUpdate, ToDelete, DropsOf, SortedBy, Ties, LineageKey;
    var ix := Index(facts);
    PlanIsSorted(facts, p);
    PlanIsSorted(facts, q);
    UntiedIsUnique(p.creates, q.creates, ToCreate(facts.output, ix, ix.desired.Keys), CreateSortKey());
    UntiedIsUnique(p.updates, q.updates, ToUpdate(facts.output, ix, ix.desired.Keys), UpdateSortKey());
    UntiedIsUnique(p.deletes, q.deletes, ToDelete(facts.output, ix, ix.owned.Keys), DeleteSortKey());
    DropsAreUnique(facts.output, ix, IsCreate(), p.createDrops, q.createDrops);
    DropsAreUnique(facts.output, ix, IsUpdate(), p.updateDrops, q.updateDrops);
  }

  /** Other sorted lists of the same calls make a plan, too. */
  lemma SwappedIsPlan(
    facts: Facts, p: Plan, creates: seq<DesiredRecord>, updates: seq<UpdateStep>, deletes: seq<DeleteStep>)
    requires IsPlan(facts, p)
    requires var ix := Index(facts);
      && SortedBy(creates, CreateSortKey()) && Enumerates(creates, ToCreate(facts.output, ix, ix.desired.Keys))
      && SortedBy(updates, UpdateSortKey()) && Enumerates(updates, ToUpdate(facts.output, ix, ix.desired.Keys))
      && SortedBy(deletes, DeleteSortKey()) && Enumerates(deletes, ToDelete(facts.output, ix, ix.owned.Keys))
    ensures IsPlan(facts, p.(creates := creates, updates := updates, deletes := deletes))
  {
    hide Index, Enumerates, ToCreate, ToUpdate, ToDelete, ToKeep, ToDrop, ToRetain, DropsOf, SortedBy, FindsAmbiguities;
    var kept, retained := PlanHasParts(facts, p);
    var q := p.(creates := creates, updates := updates, deletes := deletes);
    assert Parts(facts, q, kept, retained);
  }

  /** Plans with other lists make other calls. */
  lemma OtherListsOtherCalls(output: ProviderRef, p: Plan, q: Plan)
    requires |p.creates| == |q.creates| && |p.updates| == |q.updates| && |p.deletes| == |q.deletes|
    requires Calls(output, p) == Calls(output, q)
    ensures p.creates == q.creates && p.updates == q.updates && p.deletes == q.deletes
  {
    hide LineageKey;
    var nc, nu := |p.creates|, |p.updates|;
    forall i | 0 <= i < nc ensures p.creates[i] == q.creates[i] {
      assert Calls(output, p)[i] == Calls(output, q)[i];
    }
    forall i | 0 <= i < nu ensures p.updates[i] == q.updates[i] {
      assert Calls(output, p)[nc + i] == Calls(output, q)[nc + i];
    }
    forall i | 0 <= i < |p.deletes| ensures p.deletes[i] == q.deletes[i] {
      assert Calls(output, p)[nc + nu + i] == Calls(output, q)[nc + nu + i];
    }
  }

  lemma TiedCalls(facts: Facts, p: Plan) returns (q: Plan)
    requires IsPlan(facts, p) && CallsTie(facts)
    ensures IsPlan(facts, q) && Calls(facts.output, q) != Calls(facts.output, p)
  {
    hide Index, IsPlan, Enumerates, ToCreate, ToUpdate, ToDelete, DropsOf, SortedBy, Ties, Calls;
    var ix := Index(facts);
    PlanIsSorted(facts, p);
    var creates, updates, deletes := p.creates, p.updates, p.deletes;
    if Ties(ToCreate(facts.output, ix, ix.desired.Keys), CreateSortKey()) {
      creates := TiedCanSwap(p.creates, ToCreate(facts.output, ix, ix.desired.Keys), CreateSortKey());
    } else if Ties(ToUpdate(facts.output, ix, ix.desired.Keys), UpdateSortKey()) {
      updates := TiedCanSwap(p.updates, ToUpdate(facts.output, ix, ix.desired.Keys), UpdateSortKey());
    } else {
      deletes := TiedCanSwap(p.deletes, ToDelete(facts.output, ix, ix.owned.Keys), DeleteSortKey());
    }
    SwappedIsPlan(facts, p, creates, updates, deletes);
    q := p.(creates := creates, updates := updates, deletes := deletes);
    if Calls(facts.output, p) == Calls(facts.output, q) {
      OtherListsOtherCalls(facts.output, p, q);
    }
  }

  /** Some other order of map iteration makes the calls in another order exactly if two creates, two updates or two
      deletes share their sort key. */
  lemma CallOrderDependsExactly(facts: Facts, p: Plan)
    requires IsPlan(facts, p)
    ensures CallsTie(facts) <==> exists q :: IsPlan(facts, q) && Calls(facts.output, q) != Calls(facts.output, p)
  {
    hide IsPlan, CallsTie, Calls;
    if CallsTie(facts) {
      var q := TiedCalls(facts, p);
    } else {
      forall q | IsPlan(facts, q) ensures Calls(facts.output, q) == Calls(facts.output, p) {
        UntiedCalls(facts, q, p);
      }
    }
  }
}
