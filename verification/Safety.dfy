/** The planner never causes an ambiguity. */
module Safety {
  import opened Records
  import opened Keys
  import opened Seqs
  import opened Planner
  import opened Remote
  import opened Apply
  import opened Fates
  import opened Refinement
  import opened Replay

  /** The listed record a call changes or removes. */
  function TargetOf(c: Call): Option<VisibleRecord> {
    match c
    case CreateCall(_, _) => None
    case UpdateCall(from, _, _) => Some(from)
    case DeleteCall(visible, _) => Some(visible)
  }

  lemma TargetHasHost(
    output: ProviderRef, desired: Option<DesiredRecord>, managed: Option<ManagedRecord>, vs: seq<VisibleRecord>, c: Call)
    requires FateOf(output, desired, managed, vs) == Called(c)
    ensures TargetOf(c).Some? ==> TargetOf(c).value in vs
    ensures c.CreateCall? ==> vs == []
  {
    hide LineageKey, RecordKey, NormalizeHostname, CanUpdate, OnlyHostInCommon, WithKey;
    if managed.Some? {
      WithKeyHasKey(output, vs, ManagedKey(managed.value));
    }
  }

  /** No listed record is the target of two calls, and a create never meets a record of its hostname. */
  lemma NoTargetTwice(facts: Facts, plan: Plan, i: nat, j: nat)
    requires Orderly(facts) && IsPlan(facts, plan) && i < j < |Calls(facts.output, plan)|
    ensures var a, b := TargetOf(Calls(facts.output, plan)[i]), TargetOf(Calls(facts.output, plan)[j]);
      a.Some? && b.Some? ==> VisibleHost(a.value) != VisibleHost(b.value)
    ensures var c := Calls(facts.output, plan)[i];
      c.CreateCall? ==> forall v :: v in facts.visible && v.output == facts.output ==> VisibleHost(v) != HostOf(c)
  {
    hide HostOf, Calls, IsPlan, Orderly, FateOf, DesiredAt, ManagedAt, NormalizeHostname;
    var calls := Calls(facts.output, plan);
    HostsAreDistinct(facts, plan, i, j);
    TargetsOwnHost(facts, plan, calls[i]);
    TargetsOwnHost(facts, plan, calls[j]);
  }

  lemma TargetsOwnHost(facts: Facts, plan: Plan, c: Call)
    requires Orderly(facts) && IsPlan(facts, plan) && c in Calls(facts.output, plan)
    ensures TargetOf(c).Some? ==> VisibleHost(TargetOf(c).value) == HostOf(c)
    ensures c.CreateCall? ==> forall v :: v in facts.visible && v.output == facts.output ==> VisibleHost(v) != HostOf(c)
  {
    hide HostOf, Calls, IsPlan, Orderly, FateOf, DesiredAt, ManagedAt, NormalizeHostname;
    CallsByFate(facts, plan, c);
    ListedByOutput(facts.output, facts.visible, HostOf(c));
    TargetHasHost(facts.output, DesiredAt(facts, HostOf(c)), ManagedAt(facts, HostOf(c)), VisibleAt(facts, HostOf(c)), c);
  }

  /** After every prefix of the calls each hostname is listed at most once, so the next planning finds no ambiguity
      whatever it is asked for; and the next call finds its target. */
  lemma NeverCausesAmbiguity(facts: Facts, plan: Plan, now: int, origin: RemoteState, k: nat, next: Facts)
    requires Tidy(facts) && IsPlan(facts, plan) && StartsFrom(facts, origin) && k <= |Calls(facts.output, plan)|
    requires next.output == facts.output && next.visible == StateAt(facts, plan, now, origin, k).remote.records
    ensures OneVisiblePerHost(facts.output, next.visible) && NoAmbiguity(next)
    ensures k < |Calls(facts.output, plan)| ==>
      Possible(StateAt(facts, plan, now, origin, k).remote, Calls(facts.output, plan)[k])
  {
    hide Calls, IsPlan, StateAt, NormalizeHostname, OneDesiredPerHost, Tidy, VisibleOn, Possible, IsStable, IsSettled,
         IsAsBefore;
    PrefixSettles(facts, plan, now, origin, k);
    if k < |Calls(facts.output, plan)| {
      SettledStep(facts, plan, k, now, StateAt(facts, plan, now, origin, k));
    }
    OneListedPerKey(next);
  }

  lemma OneListedPerKey(facts: Facts)
    requires OneVisiblePerHost(facts.output, facts.visible)
    requires forall v :: v in facts.visible && v.output == facts.output ==> BarFree(v.hostname)
    ensures NoAmbiguity(facts)
  {
    hide NormalizeHostname, RecordKey, VisibleOn;
    forall k ensures |Lookup(Index(facts).byKey, k)| <= 1 {
      KeyIsListedOnce(facts, k);
    }
  }

  lemma KeyIsListedOnce(facts: Facts, k: string)
    requires OneVisiblePerHost(facts.output, facts.visible)
    requires forall v :: v in facts.visible && v.output == facts.output ==> BarFree(v.hostname)
    ensures |Lookup(Index(facts).byKey, k)| <= 1
  {
    var p := Matching(ListedBy(facts.output), VisibleKey, k);
    GroupByIsScan(facts.visible, ListedBy(facts.output), VisibleKey, k);
    if v :| v in facts.visible && p(v) {
      var weak := Matching(ListedBy(facts.output), VisibleHost, VisibleHost(v));
      forall x | x in facts.visible && p(x) ensures weak(x) {
        RecordKeyFaithful(x.hostname, x.answer, v.hostname, v.answer);
      }
      hide RecordKey, NormalizeHostname;
      FilterThrough(facts.visible, weak, p);
      FilterShrinks(VisibleOn(facts.output, facts.visible, VisibleHost(v)), p);
      assert |VisibleOn(facts.output, facts.visible, VisibleHost(v))| <= 1;
    } else {
      FilterNone(facts.visible, p);
    }
  }
}
