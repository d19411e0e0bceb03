/** Ownership safety over whole runs: the daemon only ever touches records whose identifiers it was given. */
module Ownership {
  import opened Records
  import opened Keys
  import opened Seqs
  import opened Planner
  import opened Remote
  import opened Apply
  import opened Gates

  /** The identifiers a snapshot claims for an output. */
  ghost predicate Claims(output: ProviderRef, managed: seq<ManagedRecord>, id: string) {
    exists m :: m in managed && m.output == output && m.provenance == Some(RecordProvenance(id))
  }

  ghost predicate ClaimsIn(recs: Lineages, id: string) {
    exists l :: l in recs && recs[l].provenance == Some(RecordProvenance(id))
  }

  /** The identifier a call is aimed at. */
  function TargetProvenance(c: Call): Option<RecordProvenance> {
    match c
    case CreateCall(_, _) => None
    case UpdateCall(from, _, _) => from.provenance
    case DeleteCall(visible, _) => visible.provenance
  }

  /** Every record the output lists carries an identifier. */
  ghost predicate AllIdentified(facts: Facts) {
    forall v :: v in facts.visible && v.output == facts.output ==> HasProvenance(v.provenance)
  }

  /** One pass as the store sees it: planned on what was listed, some calls answered, and perhaps a snapshot stored.
      Nothing is said about what the output lists or answers, nor about what operators do between passes. */
  datatype Pass = Pass(
    facts: Facts, plan: Plan, responses: seq<Option<RecordProvenance>>, now: int, stored: bool, next: seq<ManagedRecord>)

  ghost predicate IsPass(pass: Pass) {
    var output, managed := pass.facts.output, pass.facts.managed;
    && IsPlan(pass.facts, pass.plan)
    && |pass.responses| <= |Calls(output, pass.plan)|
    && (if pass.stored then
          IsSnapshot(Snapshot(SNAPSHOT_VERSION, pass.next), Filter(managed, OwnedElsewhere(output)),
                     CommitAll(output, Base(output, managed, pass.plan, pass.now),
                               Calls(output, pass.plan)[..|pass.responses|], pass.responses, pass.now))
        else pass.next == managed)
  }

  function StateBefore(initial: seq<ManagedRecord>, run: seq<Pass>, i: nat): seq<ManagedRecord>
    requires i <= |run|
  {
    if i == 0 then initial else run[i - 1].next
  }

  /** Passes over any outputs in any order, one stored state threaded through all of them. */
  ghost predicate IsRun(initial: seq<ManagedRecord>, run: seq<Pass>) {
    forall i :: 0 <= i < |run| ==> IsPass(run[i]) && run[i].facts.managed == StateBefore(initial, run, i)
  }

  /** The passes over the output find an identifier on every record it lists. */
  ghost predicate Identifies(run: seq<Pass>, output: ProviderRef) {
    forall i :: 0 <= i < |run| && run[i].facts.output == output ==> AllIdentified(run[i].facts)
  }

  /** The identifier was given to the daemon by a successful call on the output in one of the first `n` passes. */
  ghost predicate Granted(run: seq<Pass>, n: nat, output: ProviderRef, id: string)
    requires n <= |run|
  {
    exists i :: 0 <= i < n && run[i].facts.output == output && Answered(run[i].responses, id)
  }

  ghost predicate Answered(responses: seq<Option<RecordProvenance>>, id: string) {
    exists j :: 0 <= j < |responses| && responses[j] == Some(RecordProvenance(id))
  }

  // ---- One pass -------------------------------------------------------------------------------------

  /** Every update or delete of a plan is aimed at an identifier the snapshot claims. */
  lemma TargetsAreClaimed(facts: Facts, plan: Plan, c: Call)
    requires IsPlan(facts, plan) && AllIdentified(facts) && c in Calls(facts.output, plan)
    ensures !c.CreateCall? ==> TargetProvenance(c).Some? && Claims(facts.output, facts.managed, TargetProvenance(c).value.remoteID)
  {
    hide LineageKey, RecordKey, NormalizeHostname, Index, Decide, DecideStale, LineageMatched, IsPlan;
    match c {
      case CreateCall(_, _) =>
      case UpdateCall(from, to, _) =>
        var i :| 0 <= i < |plan.updates| && plan.updates[i] == UpdateStep(from, to);
        UpdateIsDecided(facts, plan, plan.updates[i]);
        UpdateIsGated(facts, to);
        MatchIsOwned(facts, to);
        assert HasProvenance(from.provenance);
      case DeleteCall(visible, managed) =>
        var i :| 0 <= i < |plan.deletes| && plan.deletes[i] == DeleteStep(visible, managed);
        assert plan.deletes[i] in plan.deletes;
        DeleteNeedsProof(facts, plan, plan.deletes[i]);
    }
  }

  lemma UpdateIsDecided(facts: Facts, plan: Plan, u: UpdateStep)
    requires IsPlan(facts, plan) && u in plan.updates
    ensures Decide(facts.output, Index(facts), u.to).Update? && Decide(facts.output, Index(facts), u.to).from == u.from
  {
    hide Decide, IsDesired, Index, StalePart, ToCreate, ToKeep, DropsOf;
    assert ToUpdate(facts.output, Index(facts), Index(facts).desired.Keys)(u);
  }

  /** Keeping records claims no new identifier. */
  lemma KeepClaims(facts: Facts, plan: Plan, k: ManagedRecord, id: string)
    requires IsPlan(facts, plan) && k in plan.nextManaged && k.provenance == Some(RecordProvenance(id))
    ensures Claims(facts.output, facts.managed, id)
  {
    hide LineageKey, RecordKey, NormalizeHostname, MatchOwned, CanUpdate, GroupBy, LastBy, DecideStale, LineageMatched;
    var output, ix := facts.output, Index(facts);
    IndexedUnderOwnKey(facts);
    if ToKeep(output, ix, ix.desired.Keys)(k) {
      MatchIsOwned(facts, ix.desired[ManagedLineage(k)]);
    } else {
      assert ToRetain(output, ix, ix.owned.Keys)(k);
    }
  }

  lemma {:induction false} KeepsClaim(facts: Facts, plan: Plan, recs: Lineages, keeps: seq<ManagedRecord>, now: int, id: string)
    requires IsPlan(facts, plan) && forall k :: k in keeps ==> k in plan.nextManaged
    requires ClaimsIn(recs, id) ==> Claims(facts.output, facts.managed, id)
    requires ClaimsIn(KeepAll(recs, keeps, plan.keepDrops, now), id)
    ensures Claims(facts.output, facts.managed, id)
  {
    hide ManagedLineage, IsPlan, Claims;
    if keeps != [] {
      var init, last := keeps[..|keeps| - 1], keeps[|keeps| - 1];
      assert last in plan.nextManaged;
      if last.provenance == Some(RecordProvenance(id)) {
        KeepClaims(facts, plan, last, id);
      } else {
        KeepsClaim(facts, plan, recs, init, now, id);
      }
    }
  }

  lemma {:induction false} DropsClaim(recs: Lineages, drops: seq<ManagedRecord>, id: string)
    requires ClaimsIn(DropAll(recs, drops), id)
    ensures ClaimsIn(recs, id)
  {
    hide ManagedLineage;
    if drops != [] {
      DropsClaim(recs, drops[..|drops| - 1], id);
    }
  }

  lemma BaseClaims(facts: Facts, plan: Plan, now: int, id: string)
    requires IsPlan(facts, plan)
    requires ClaimsIn(Base(facts.output, facts.managed, plan, now), id)
    ensures Claims(facts.output, facts.managed, id)
  {
    hide ManagedLineage, IsPlan;
    IndexedUnderOwnKey(facts);
    var owned := OwnedByLineage(facts.output, facts.managed);
    assert ClaimsIn(owned, id) ==> Claims(facts.output, facts.managed, id);
    if ClaimsIn(DropAll(owned, plan.drops), id) {
      DropsClaim(owned, plan.drops, id);
    }
    KeepsClaim(facts, plan, DropAll(owned, plan.drops), plan.nextManaged, now, id);
  }

  /** A pass ends up claiming only what was claimed before or what its calls were answered. */
  lemma {:induction false} CallsClaim(
    facts: Facts, plan: Plan, calls: seq<Call>, responses: seq<Option<RecordProvenance>>, now: int, id: string)
    requires IsPlan(facts, plan) && AllIdentified(facts) && |responses| == |calls|
    requires forall c :: c in calls ==> c in Calls(facts.output, plan)
    requires ClaimsIn(CommitAll(facts.output, Base(facts.output, facts.managed, plan, now), calls, responses, now), id)
    ensures Claims(facts.output, facts.managed, id) || Answered(responses, id)
  {
    hide ManagedLineage, DesiredLineage, IsPlan, Calls, Base, Claims;
    var base := Base(facts.output, facts.managed, plan, now);
    if calls == [] {
      BaseClaims(facts, plan, now, id);
    } else {
      var n := |calls| - 1;
      var before := CommitAll(facts.output, base, calls[..n], responses[..n], now);
      assert calls[n] in calls;
      TargetsAreClaimed(facts, plan, calls[n]);
      if ClaimsIn(before, id) {
        CallsClaim(facts, plan, calls[..n], responses[..n], now, id);
        if Answered(responses[..n], id) {
          var j :| 0 <= j < n && responses[..n][j] == Some(RecordProvenance(id));
          assert responses[j] == Some(RecordProvenance(id));
        }
      } else {
        NewClaim(facts.output, before, calls[n], responses[n], now, id);
      }
    }
  }

  lemma NewClaim(output: ProviderRef, recs: Lineages, c: Call, response: Option<RecordProvenance>, now: int, id: string)
    requires ClaimsIn(Commit(output, recs, c, response, now), id) && !ClaimsIn(recs, id)
    ensures response == Some(RecordProvenance(id)) || TargetProvenance(c) == Some(RecordProvenance(id))
  {
    hide LineageKey;
    var next := Commit(output, recs, c, response, now);
    var l :| l in next && next[l].provenance == Some(RecordProvenance(id));
  }

  lemma SnapshotClaims(output: ProviderRef, managed: seq<ManagedRecord>, recs: Lineages, next: seq<ManagedRecord>, id: string)
    requires IsSnapshot(Snapshot(SNAPSHOT_VERSION, next), Filter(managed, OwnedElsewhere(output)), recs)
    requires Claims(output, next, id)
    ensures ClaimsIn(recs, id)
  {
    hide ManagedLineage;
    var others := Filter(managed, OwnedElsewhere(output));
    var m :| m in next && m.output == output && m.provenance == Some(RecordProvenance(id));
    assert next == others + next[|others|..];
    assert m !in others;
    assert Has(recs, m);
  }

  lemma PassClaims(pass: Pass, id: string)
    requires IsPass(pass) && AllIdentified(pass.facts) && Claims(pass.facts.output, pass.next, id)
    ensures Claims(pass.facts.output, pass.facts.managed, id) || Answered(pass.responses, id)
  {
    hide IsPlan, Calls, Base, IsSnapshot, CommitAll, AllIdentified, Claims;
    var output, managed := pass.facts.output, pass.facts.managed;
    if pass.stored {
      var succeeded := Calls(output, pass.plan)[..|pass.responses|];
      SnapshotClaims(output, managed,
                     CommitAll(output, Base(output, managed, pass.plan, pass.now), succeeded, pass.responses, pass.now),
                     pass.next, id);
      CallsClaim(pass.facts, pass.plan, succeeded, pass.responses, pass.now, id);
    }
  }

  /** A pass over another output leaves the claims of this one alone. */
  lemma OtherPassClaims(pass: Pass, output: ProviderRef, id: string)
    requires IsPass(pass) && output != pass.facts.output && Claims(output, pass.next, id)
    ensures Claims(output, pass.facts.managed, id)
  {
    hide Calls, Base, CommitAll, IsPlan, ListsByLineage;
    if pass.stored {
      var m :| m in pass.next && m.output == output && m.provenance == Some(RecordProvenance(id));
      OtherIsKept(pass, m);
    }
  }

  lemma OtherIsKept(pass: Pass, m: ManagedRecord)
    requires IsPass(pass) && pass.stored && m in pass.next && m.output != pass.facts.output
    ensures m in pass.facts.managed
  {
    hide Calls, Base, CommitAll, IsPlan, ListsByLineage;
    var others := Filter(pass.facts.managed, OwnedElsewhere(pass.facts.output));
    assert pass.next == others + pass.next[|others|..];
    if m in pass.next[|others|..] {
      ListedIsOwn(pass, m);
    }
  }

  /** What a pass books belongs to its output. */
  lemma PassFitsOutput(pass: Pass)
    requires IsPass(pass)
    ensures OwnKeys(pass.facts.output,
                    CommitAll(pass.facts.output, Base(pass.facts.output, pass.facts.managed, pass.plan, pass.now),
                              Calls(pass.facts.output, pass.plan)[..|pass.responses|], pass.responses, pass.now))
  {
    hide IsPlan, Calls, Base, IsSnapshot, CommitAll, OwnKeys, PlanFits;
    var output := pass.facts.output;
    PlanFitsOutput(pass.facts, pass.plan);
    BaseOwnKeys(output, pass.facts.managed, pass.plan, pass.now);
    CommitAllOwnKeys(output, Base(output, pass.facts.managed, pass.plan, pass.now),
                     Calls(output, pass.plan)[..|pass.responses|], pass.responses, pass.now);
  }

  lemma {:induction false} CommitAllOwnKeys(
    output: ProviderRef, recs: Lineages, calls: seq<Call>, responses: seq<Option<RecordProvenance>>, now: int)
    requires OwnKeys(output, recs) && |responses| == |calls|
    ensures OwnKeys(output, CommitAll(output, recs, calls, responses, now))
  {
    hide OwnKeys, Commit;
    if calls != [] {
      var n := |calls| - 1;
      CommitAllOwnKeys(output, recs, calls[..n], responses[..n], now);
      CommitOwnKeys(output, CommitAll(output, recs, calls[..n], responses[..n], now), calls[n], responses[n], now);
    }
  }

  lemma ListedIsOwn(pass: Pass, m: ManagedRecord)
    requires IsPass(pass) && pass.stored
    requires m in pass.next[|Filter(pass.facts.managed, OwnedElsewhere(pass.facts.output))|..]
    ensures m.output == pass.facts.output
  {
    hide IsPlan, Calls, Base, CommitAll, ManagedLineage, Ascending;
    PassFitsOutput(pass);
    var recs := CommitAll(pass.facts.output, Base(pass.facts.output, pass.facts.managed, pass.plan, pass.now),
                          Calls(pass.facts.output, pass.plan)[..|pass.responses|], pass.responses, pass.now);
    assert Has(recs, m);
  }

  // ---- Whole runs --------------------------------------------------------------------------------------

  /** Invariant: whatever the state claims for an output was claimed at first or granted by the output since. */
  lemma {:induction false} ClaimsAreGranted(
    initial: seq<ManagedRecord>, run: seq<Pass>, n: nat, output: ProviderRef, id: string)
    requires IsRun(initial, run) && Identifies(run, output) && n <= |run|
    requires Claims(output, StateBefore(initial, run, n), id)
    ensures Claims(output, initial, id) || Granted(run, n, output, id)
  {
    hide IsPass, Claims, Answered, AllIdentified;
    if n > 0 {
      var pass := run[n - 1];
      assert IsPass(pass) && pass.facts.managed == StateBefore(initial, run, n - 1);
      if pass.facts.output == output {
        PassClaims(pass, id);
      } else {
        OtherPassClaims(pass, output, id);
      }
      if Claims(output, StateBefore(initial, run, n - 1), id) {
        ClaimsAreGranted(initial, run, n - 1, output, id);
      }
    }
  }

  /** Over every run: an update or delete that the daemon makes, or attempts, is aimed at an identifier that the
      initial state held for the output or that an earlier create or update on it returned. */
  lemma OnlyOwnedRecordsAreTouched(initial: seq<ManagedRecord>, run: seq<Pass>, n: nat, c: Call)
    requires IsRun(initial, run) && n < |run| && Identifies(run, run[n].facts.output)
    requires c in Calls(run[n].facts.output, run[n].plan) && !c.CreateCall?
    ensures TargetProvenance(c).Some?
    ensures var output, id := run[n].facts.output, TargetProvenance(c).value.remoteID;
      Claims(output, initial, id) || Granted(run, n, output, id)
  {
    hide Calls, IsPlan, Claims, Granted, CommitAll, IsSnapshot, Base, AllIdentified;
    assert IsPass(run[n]) && run[n].facts.managed == StateBefore(initial, run, n);
    TargetsAreClaimed(run[n].facts, run[n].plan, c);
    ClaimsAreGranted(initial, run, n, run[n].facts.output, TargetProvenance(c).value.remoteID);
  }

  /** So an operator's record, whose identifier the daemon was never given, is never touched. */
  lemma ForeignRecordsAreSafe(initial: seq<ManagedRecord>, run: seq<Pass>, n: nat, c: Call, foreign: string)
    requires IsRun(initial, run) && n < |run| && Identifies(run, run[n].facts.output)
    requires c in Calls(run[n].facts.output, run[n].plan)
    requires !Claims(run[n].facts.output, initial, foreign) && !Granted(run, n, run[n].facts.output, foreign)
    ensures TargetProvenance(c) != Some(RecordProvenance(foreign))
  {
    hide Calls, Claims, IsPass, Granted, AllIdentified;
    if !c.CreateCall? {
      OnlyOwnedRecordsAreTouched(initial, run, n, c);
    }
  }
}
