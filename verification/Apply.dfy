/** Applying a plan: one call at a time, stopping at the first failure. */
module Apply {
  import opened Text
  import opened Records
  import opened Keys
  import opened Seqs
  import opened Planner
  import opened Remote

  type Lineages = map<string, ManagedRecord>

  // ---- The bookkeeping of one pass ------------------------------------------------------------

  function RemoveLineage(recs: Lineages, m: Option<ManagedRecord>): Lineages {
    if m.None? then recs else recs - {ManagedLineage(m.value)}
  }

  function DropLookup(drops: map<string, ManagedRecord>, lineage: string): Option<ManagedRecord> {
    if lineage in drops then Some(drops[lineage]) else None
  }

  function DropAll(recs: Lineages, drops: seq<ManagedRecord>): Lineages {
    if drops == [] then recs
    else DropAll(recs, drops[..|drops| - 1]) - {ManagedLineage(drops[|drops| - 1])}
  }

  function KeepOne(recs: Lineages, keep: ManagedRecord, keepDrops: map<string, ManagedRecord>, now: int): Lineages {
    var stamped := keep.(lastAppliedAt := now);
    RemoveLineage(recs[ManagedLineage(stamped) := stamped], DropLookup(keepDrops, ManagedLineage(stamped)))
  }

  function KeepAll(recs: Lineages, keeps: seq<ManagedRecord>, keepDrops: map<string, ManagedRecord>, now: int): Lineages {
    if keeps == [] then recs
    else KeepOne(KeepAll(recs, keeps[..|keeps| - 1], keepDrops, now), keeps[|keeps| - 1], keepDrops, now)
  }

  /** What the state would hold if the first remote call failed. */
  function Base(output: ProviderRef, managed: seq<ManagedRecord>, plan: Plan, now: int): Lineages {
    KeepAll(DropAll(OwnedByLineage(output, managed), plan.drops), plan.nextManaged, plan.keepDrops, now)
  }

  function NextProvenance(primary: Option<RecordProvenance>, fallback: Option<RecordProvenance>): Option<RecordProvenance> {
    if primary.Some? then primary else fallback
  }

  function Owned(output: ProviderRef, d: DesiredRecord, provenance: Option<RecordProvenance>, now: int): ManagedRecord {
    ManagedRecord(output, d.source, d.hostname, d.answer, provenance, now)
  }

  /** The bookkeeping after one successful call. */
  function Commit(
    output: ProviderRef, recs: Lineages, c: Call, response: Option<RecordProvenance>, now: int): Lineages
  {
    match c
    case CreateCall(to, replaced) =>
      RemoveLineage(recs[DesiredLineage(output, to) := Owned(output, to, response, now)], replaced)
    case UpdateCall(from, to, replaced) =>
      RemoveLineage(
        recs[DesiredLineage(output, to) := Owned(output, to, NextProvenance(response, from.provenance), now)], replaced)
    case DeleteCall(_, managed) =>
      RemoveLineage(recs, Some(managed))
  }

  /** The bookkeeping after some calls, whatever the output answered. */
  function CommitAll(
    output: ProviderRef, recs: Lineages, calls: seq<Call>, responses: seq<Option<RecordProvenance>>, now: int): Lineages
    requires |responses| == |calls|
  {
    if calls == [] then recs
    else
      var n := |calls| - 1;
      Commit(output, CommitAll(output, recs, calls[..n], responses[..n], now), calls[n], responses[n], now)
  }

  function CreateCalls(output: ProviderRef, plan: Plan): (r: seq<Call>)
    ensures |r| == |plan.creates|
  {
    seq(|plan.creates|, i requires 0 <= i < |plan.creates| =>
      CreateCall(plan.creates[i], DropLookup(plan.createDrops, DesiredLineage(output, plan.creates[i]))))
  }

  function UpdateCalls(output: ProviderRef, plan: Plan): (r: seq<Call>)
    ensures |r| == |plan.updates|
  {
    seq(|plan.updates|, i requires 0 <= i < |plan.updates| =>
      UpdateCall(plan.updates[i].from, plan.updates[i].to,
                 DropLookup(plan.updateDrops, DesiredLineage(output, plan.updates[i].to))))
  }

  function DeleteCalls(plan: Plan): (r: seq<Call>)
    ensures |r| == |plan.deletes|
  {
    seq(|plan.deletes|, i requires 0 <= i < |plan.deletes| =>
      DeleteCall(plan.deletes[i].visible, plan.deletes[i].managed))
  }

  /** The calls of a plan in the order they are made: creates, then updates, then deletes. */
  function Calls(output: ProviderRef, plan: Plan): seq<Call> {
    CreateCalls(output, plan) + UpdateCalls(output, plan) + DeleteCalls(plan)
  }

  /** The remote and the bookkeeping, which only change together. */
  datatype World = World(remote: RemoteState, recs: Lineages)

  function After(w: World, c: Call, now: int): World
    requires Possible(w.remote, c)
  {
    World(Mutate(w.remote, c), Commit(w.remote.provider, w.recs, c, Response(w.remote, c), now))
  }

  ghost predicate Runs(w: World, calls: seq<Call>, now: int) {
    calls == [] ||
      (Runs(w, calls[..|calls| - 1], now) && Possible(RunCalls(w, calls[..|calls| - 1], now).remote, calls[|calls| - 1]))
  }

  /** The world after all of `calls` have succeeded, in order. */
  ghost function RunCalls(w: World, calls: seq<Call>, now: int): World {
    if calls == [] then w
    else
      var before := RunCalls(w, calls[..|calls| - 1], now);
      if Possible(before.remote, calls[|calls| - 1]) then After(before, calls[|calls| - 1], now) else before
  }

  // ---- Snapshots -----------------------------------------------------------------------------

  function OwnedElsewhere(output: ProviderRef): ManagedRecord -> bool {
    (m: ManagedRecord) => m.output != output
  }

  /** Every entry is stored under its own record's key, and belongs to the output. */
  ghost predicate OwnKeys(output: ProviderRef, recs: Lineages) {
    forall l :: l in recs ==> ManagedLineage(recs[l]) == l && recs[l].output == output
  }

  ghost predicate Has(recs: Lineages, m: ManagedRecord) {
    ManagedLineage(m) in recs && recs[ManagedLineage(m)] == m
  }

  /** The records of `recs`, each once, in the order of their lineage keys. */
  ghost predicate ListsByLineage(list: seq<ManagedRecord>, recs: Lineages) {
    && Ascending(list, ManagedLineage)
    && (forall m :: m in list <==> Has(recs, m))
  }

  /** The snapshot keeps other outputs' records first and unchanged, then lists the output's own. */
  ghost predicate IsSnapshot(snapshot: Snapshot, others: seq<ManagedRecord>, recs: Lineages) {
    && snapshot.version == SNAPSHOT_VERSION
    && others <= snapshot.managedRecords
    && ListsByLineage(snapshot.managedRecords[|others|..], recs)
  }

  method SnapshotWithOutputRecords(others: seq<ManagedRecord>, recs: Lineages, ghost output: ProviderRef)
    returns (next: Snapshot)
    requires OwnKeys(output, recs)
    ensures IsSnapshot(next, others, recs)
  {
    hide LineageKey, Less;
    var lineages: seq<string> := [];
    var rest := recs.Keys;
    while rest != {}
      invariant rest <= recs.Keys
      invariant NoDuplicates(lineages)
      invariant forall l :: l in lineages <==> l in recs && l !in rest
    {
      var l :| l in rest;
      lineages, rest := lineages + [l], rest - {l};
    }
    var sorted := SortByKey(lineages, Identity());
    PermutationKeeps(lineages, sorted);
    StrictlySorted(sorted);
    var list := seq(|sorted|, i requires 0 <= i < |sorted| => assert sorted[i] in sorted; recs[sorted[i]]);
    forall m ensures m in list <==> Has(recs, m) {
      if Has(recs, m) {
        var i :| 0 <= i < |sorted| && sorted[i] == ManagedLineage(m);
        assert list[i] == m;
      }
      if m in list {
        var i :| 0 <= i < |list| && list[i] == m;
        assert sorted[i] in sorted;
      }
    }
    forall i | 0 <= i < |list| ensures ManagedLineage(list[i]) == sorted[i] {
      assert sorted[i] in sorted;
    }
    next := Snapshot(SNAPSHOT_VERSION, others + list);
    assert next.managedRecords[|others|..] == list;
  }

  // ---- The method ----------------------------------------------------------------------------

  /** The records the plan keeps belong to the output it was made for. */
  ghost predicate PlanFits(output: ProviderRef, plan: Plan) {
    forall m :: m in plan.nextManaged ==> m.output == output
  }

  lemma {:induction false} KeepAllOwnKeys(
    output: ProviderRef, recs: Lineages, keeps: seq<ManagedRecord>, keepDrops: map<string, ManagedRecord>, now: int)
    requires OwnKeys(output, recs)
    requires forall m :: m in keeps ==> m.output == output
    ensures OwnKeys(output, KeepAll(recs, keeps, keepDrops, now))
  {
    hide LineageKey;
    if keeps != [] {
      KeepAllOwnKeys(output, recs, keeps[..|keeps| - 1], keepDrops, now);
    }
  }

  lemma {:induction false} DropAllOwnKeys(output: ProviderRef, recs: Lineages, drops: seq<ManagedRecord>)
    requires OwnKeys(output, recs)
    ensures OwnKeys(output, DropAll(recs, drops))
  {
    hide ManagedLineage;
    if drops != [] {
      DropAllOwnKeys(output, recs, drops[..|drops| - 1]);
    }
  }

  lemma BaseOwnKeys(output: ProviderRef, managed: seq<ManagedRecord>, plan: Plan, now: int)
    requires PlanFits(output, plan)
    ensures OwnKeys(output, Base(output, managed, plan, now))
  {
    hide LineageKey;
    assert OwnKeys(output, OwnedByLineage(output, managed));
    DropAllOwnKeys(output, OwnedByLineage(output, managed), plan.drops);
    KeepAllOwnKeys(output, DropAll(OwnedByLineage(output, managed), plan.drops), plan.nextManaged, plan.keepDrops, now);
  }

  lemma CommitOwnKeys(output: ProviderRef, recs: Lineages, c: Call, response: Option<RecordProvenance>, now: int)
    requires OwnKeys(output, recs)
    ensures OwnKeys(output, Commit(output, recs, c, response, now))
  {
    hide LineageKey;
  }

  lemma {:induction false} RunOwnKeys(w: World, calls: seq<Call>, now: int)
    requires OwnKeys(w.remote.provider, w.recs)
    ensures RunCalls(w, calls, now).remote.provider == w.remote.provider
    ensures OwnKeys(w.remote.provider, RunCalls(w, calls, now).recs)
  {
    hide OwnKeys;
    if calls != [] {
      var init := calls[..|calls| - 1];
      RunOwnKeys(w, init, now);
      var before := RunCalls(w, init, now);
      CommitOwnKeys(w.remote.provider, before.recs, calls[|calls| - 1], Response(before.remote, calls[|calls| - 1]), now);
    }
  }

  /** Where the pass stands after `done` calls of the plan have succeeded. */
  ghost predicate Reached(start: World, calls: seq<Call>, done: nat, now: int, remote: RemoteState, recs: Lineages) {
    && done <= |calls|
    && Runs(start, calls[..done], now)
    && RunCalls(start, calls[..done], now) == World(remote, recs)
  }

  lemma ReachNext(start: World, calls: seq<Call>, done: nat, now: int, remote: RemoteState, recs: Lineages)
    requires Reached(start, calls, done, now, remote, recs) && done < |calls|
    requires Possible(remote, calls[done])
    ensures Reached(start, calls, done + 1, now, Mutate(remote, calls[done]),
                    Commit(remote.provider, recs, calls[done], Response(remote, calls[done]), now))
  {
    hide Commit, Mutate, Possible;
    assert calls[..done + 1][..done] == calls[..done];
  }

  /** Since `from` every request but a failing last one has succeeded, one for each call. */
  ghost predicate Requested(fault: Option<Fault>, calls: nat, from: nat, attempts: nat, faults: nat -> Option<Fault>) {
    && attempts == from + calls + (if fault.Some? then 1 else 0)
    && forall n :: from <= n < from + calls ==> faults(n).None?
  }

  /** A phase ends at its last call, or in front of a call that failed. */
  ghost predicate StoppedAt(
    fault: Option<Fault>, calls: seq<Call>, done: nat, last: nat, attempts: nat, faults: nat -> Option<Fault>,
    remote: RemoteState)
  {
    && (fault.None? ==> done == last <= |calls|)
    && (fault.Some? ==> && done < |calls| && attempts > 0
                        && (fault == faults(attempts - 1)
                            || (faults(attempts - 1).None? && fault == Some(Permanent) && !Possible(remote, calls[done]))))
  }

  /** The output's own records under their lineages, and everybody else's in order. */
  method SplitOwned(output: ProviderRef, managed: seq<ManagedRecord>) returns (recs: Lineages, others: seq<ManagedRecord>)
    ensures recs == OwnedByLineage(output, managed) && others == Filter(managed, OwnedElsewhere(output))
  {
    hide LineageKey;
    recs, others := map[], [];
    for i := 0 to |managed|
      invariant recs == OwnedByLineage(output, managed[..i])
      invariant others == Filter(managed[..i], OwnedElsewhere(output))
    {
      assert managed[..i + 1][..i] == managed[..i];
      if managed[i].output != output {
        others := others + [managed[i]];
      } else {
        recs := recs[ManagedLineage(managed[i]) := managed[i]];
      }
    }
    assert managed[..|managed|] == managed;
  }

  /** Drops and keeps, in memory only. */
  method ApplyDropsAndKeeps(plan: Plan, now: int, before: Lineages) returns (recs: Lineages)
    ensures recs == KeepAll(DropAll(before, plan.drops), plan.nextManaged, plan.keepDrops, now)
  {
    hide LineageKey;
    recs := before;
    for i := 0 to |plan.drops|
      invariant recs == DropAll(before, plan.drops[..i])
    {
      assert plan.drops[..i + 1][..i] == plan.drops[..i];
      recs := recs - {ManagedLineage(plan.drops[i])};
    }
    assert plan.drops[..|plan.drops|] == plan.drops;
    ghost var dropped := recs;
    for i := 0 to |plan.nextManaged|
      invariant recs == KeepAll(dropped, plan.nextManaged[..i], plan.keepDrops, now)
    {
      assert plan.nextManaged[..i + 1][..i] == plan.nextManaged[..i];
      var keep := plan.nextManaged[i].(lastAppliedAt := now);
      recs := recs[ManagedLineage(keep) := keep];
      if ManagedLineage(keep) in plan.keepDrops {
        recs := recs - {ManagedLineage(plan.keepDrops[ManagedLineage(keep)])};
      }
    }
    assert plan.nextManaged[..|plan.nextManaged|] == plan.nextManaged;
  }

  method ApplyCreates(output: Output, plan: Plan, now: int, before: Lineages, applied: bool,
                ghost start: World, ghost calls: seq<Call>)
    returns (recs: Lineages, progressed: bool, fault: Option<Fault>, ghost done: nat)
    requires output.Valid() && OwnKeys(output.provider, before) && calls == Calls(output.provider, plan)
    requires Reached(start, calls, 0, now, output.state, before) && !applied
    modifies output
    ensures output.Valid() && OwnKeys(output.provider, recs)
    ensures Reached(start, calls, done, now, output.state, recs) && progressed == (done > 0)
    ensures StoppedAt(fault, calls, done, |plan.creates|, output.attempts, output.faults, output.state)
    ensures Requested(fault, done, old(output.attempts), output.attempts, output.faults)
  {
    hide LineageKey, Mutate, Possible, Response, OwnKeys, Reached;
    var provider := output.provider;
    recs, progressed, fault, done := before, applied, None, 0;
    for i := 0 to |plan.creates|
      invariant output.Valid() && OwnKeys(provider, recs)
      invariant done == i && Reached(start, calls, done, now, output.state, recs)
      invariant progressed == (done > 0)
      invariant Requested(None, i, old(output.attempts), output.attempts, output.faults)
    {
      var create := plan.creates[i];
      var lineage := DesiredLineage(provider, create);
      var call := CreateCall(create, DropLookup(plan.createDrops, lineage));
      assert call == calls[done];
      ghost var was := output.state;
      var result := output.Perform(call);
      if result.Failed? {
        return recs, progressed, Some(result.fault), done;
      }
      ReachNext(start, calls, done, now, was, recs);
      CommitOwnKeys(provider, recs, call, result.provenance, now);
      recs := recs[lineage := Owned(provider, create, result.provenance, now)];
      recs := RemoveLineage(recs, DropLookup(plan.createDrops, lineage));
      progressed, done := true, done + 1;
    }
  }

  method ApplyUpdates(output: Output, plan: Plan, now: int, before: Lineages, applied: bool,
                ghost start: World, ghost calls: seq<Call>)
    returns (recs: Lineages, progressed: bool, fault: Option<Fault>, ghost done: nat)
    requires output.Valid() && OwnKeys(output.provider, before) && calls == Calls(output.provider, plan)
    requires Reached(start, calls, |plan.creates|, now, output.state, before) && applied == (|plan.creates| > 0)
    modifies output
    ensures output.Valid() && OwnKeys(output.provider, recs)
    ensures Reached(start, calls, done, now, output.state, recs) && progressed == (done > 0)
    ensures StoppedAt(fault, calls, done, |plan.creates| + |plan.updates|, output.attempts, output.faults, output.state)
    ensures done >= |plan.creates|
    ensures Requested(fault, done - |plan.creates|, old(output.attempts), output.attempts, output.faults)
  {
    hide LineageKey, Mutate, Possible, Response, OwnKeys, Reached;
    var provider := output.provider;
    recs, progressed, fault, done := before, applied, None, |plan.creates|;
    for i := 0 to |plan.updates|
      invariant output.Valid() && OwnKeys(provider, recs)
      invariant done == |plan.creates| + i && Reached(start, calls, done, now, output.state, recs)
      invariant progressed == (done > 0)
      invariant Requested(None, i, old(output.attempts), output.attempts, output.faults)
    {
      var update := plan.updates[i];
      var lineage := DesiredLineage(provider, update.to);
      var call := UpdateCall(update.from, update.to, DropLookup(plan.updateDrops, lineage));
      assert call == calls[done];
      ghost var was := output.state;
      var result := output.Perform(call);
      if result.Failed? {
        return recs, progressed, Some(result.fault), done;
      }
      ReachNext(start, calls, done, now, was, recs);
      CommitOwnKeys(provider, recs, call, result.provenance, now);
      recs := recs[lineage :=
        Owned(provider, update.to, NextProvenance(result.provenance, update.from.provenance), now)];
      recs := RemoveLineage(recs, DropLookup(plan.updateDrops, lineage));
      progressed, done := true, done + 1;
    }
  }

  method ApplyDeletes(output: Output, plan: Plan, now: int, before: Lineages, applied: bool,
                ghost start: World, ghost calls: seq<Call>)
    returns (recs: Lineages, progressed: bool, fault: Option<Fault>, ghost done: nat)
    requires output.Valid() && OwnKeys(output.provider, before) && calls == Calls(output.provider, plan)
    requires Reached(start, calls, |plan.creates| + |plan.updates|, now, output.state, before)
    requires applied == (|plan.creates| + |plan.updates| > 0)
    modifies output
    ensures output.Valid() && OwnKeys(output.provider, recs)
    ensures Reached(start, calls, done, now, output.state, recs) && progressed == (done > 0)
    ensures StoppedAt(fault, calls, done, |plan.creates| + |plan.updates| + |plan.deletes|, output.attempts, output.faults,
                      output.state)
    ensures done >= |plan.creates| + |plan.updates|
    ensures Requested(fault, done - |plan.creates| - |plan.updates|, old(output.attempts), output.attempts, output.faults)
  {
    hide LineageKey, Mutate, Possible, Response, OwnKeys, Reached;
    var provider := output.provider;
    recs, progressed, fault, done := before, applied, None, |plan.creates| + |plan.updates|;
    for i := 0 to |plan.deletes|
      invariant output.Valid() && OwnKeys(provider, recs)
      invariant done == |plan.creates| + |plan.updates| + i && Reached(start, calls, done, now, output.state, recs)
      invariant progressed == (done > 0)
      invariant Requested(None, i, old(output.attempts), output.attempts, output.faults)
    {
      var stale := plan.deletes[i];
      var call := DeleteCall(stale.visible, stale.managed);
      assert call == calls[done];
      ghost var was := output.state;
      var result := output.Perform(call);
      if result.Failed? {
        return recs, progressed, Some(result.fault), done;
      }
      ReachNext(start, calls, done, now, was, recs);
      CommitOwnKeys(provider, recs, call, result.provenance, now);
      recs := recs - {ManagedLineage(stale.managed)};
      progressed, done := true, done + 1;
    }
  }

  /** The pass: drops and keeps in memory, then the calls in order, ending at the first one that fails. */
  method ApplyReconcilePlan(output: Output, owned: Snapshot, plan: Plan, now: int)
    returns (next: Snapshot, progressed: bool, fault: Option<Fault>, ghost done: nat)
    requires output.Valid() && PlanFits(output.provider, plan)
    modifies output
    ensures output.Valid() && done <= |Calls(output.provider, plan)|
    ensures var calls := Calls(output.provider, plan);
            var start := World(old(output.state), Base(output.provider, owned.managedRecords, plan, now));
            var end := RunCalls(start, calls[..done], now);
            && Reached(start, calls, done, now, output.state, end.recs)
            && IsSnapshot(next, Filter(owned.managedRecords, OwnedElsewhere(output.provider)), end.recs)
            && progressed == (done > 0)
            && StoppedAt(fault, calls, done, |calls|, output.attempts, output.faults, output.state)
            && Requested(fault, done, old(output.attempts), output.attempts, output.faults)
  {
    hide LineageKey, Mutate, Possible, Response, OwnKeys, IsSnapshot, PlanFits, CreateCalls, UpdateCalls, DeleteCalls;
    var provider := output.provider;
    var recs, others := SplitOwned(provider, owned.managedRecords);
    recs := ApplyDropsAndKeeps(plan, now, recs);
    ghost var calls := Calls(provider, plan);
    ghost var start := World(output.state, recs);
    BaseOwnKeys(provider, owned.managedRecords, plan, now);
    recs, progressed, fault, done := ApplyCreates(output, plan, now, recs, false, start, calls);
    if fault.None? {
      recs, progressed, fault, done := ApplyUpdates(output, plan, now, recs, progressed, start, calls);
    }
    if fault.None? {
      recs, progressed, fault, done := ApplyDeletes(output, plan, now, recs, progressed, start, calls);
    }
    next := SnapshotWithOutputRecords(others, recs, provider);
  }
}
