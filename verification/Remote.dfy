/** An output as the reconciler sees it: a list of records, three mutations, and calls that can fail. */
module Remote {
  import opened Records

  /** One mutation with the owned record of another lineage that its success replaces. */
  datatype Call =
    | CreateCall(to: DesiredRecord, replaced: Option<ManagedRecord>)
    | UpdateCall(from: VisibleRecord, to: DesiredRecord, replaced: Option<ManagedRecord>)
    | DeleteCall(visible: VisibleRecord, managed: ManagedRecord)

  /** `exposes` tells whether the output lists identifiers (Cloudflare) or not (AdGuard); `served` is the log of
      the calls that succeeded. */
  datatype RemoteState = RemoteState(
    provider: ProviderRef, records: seq<VisibleRecord>, exposes: bool, nextId: nat, served: seq<Call>)

  /** Identifiers are opaque, non-empty and never reused. */
  function RemoteID(n: nat): (id: string)
    ensures |id| == n + 1
  {
    seq(n + 1, _ => '#')
  }

  function NewProvenance(r: RemoteState): Option<RecordProvenance> {
    if r.exposes then Some(RecordProvenance(RemoteID(r.nextId))) else None
  }

  function IndexOf(records: seq<VisibleRecord>, v: VisibleRecord): (i: nat)
    requires v in records
    ensures i < |records| && records[i] == v
  {
    if records[0] == v then 0 else 1 + IndexOf(records[1..], v)
  }

  /** The update or delete target has to be there. */
  predicate Possible(r: RemoteState, c: Call) {
    match c
    case CreateCall(_, _) => true
    case UpdateCall(from, _, _) => from in r.records
    case DeleteCall(visible, _) => visible in r.records
  }

  /** The stated effect of a successful call. */
  function Mutate(r: RemoteState, c: Call): RemoteState
    requires Possible(r, c)
  {
    match c
    case CreateCall(to, _) =>
      r.(records := r.records + [VisibleRecord(r.provider, to.hostname, to.answer, NewProvenance(r))],
         nextId := r.nextId + 1, served := r.served + [c])
    case UpdateCall(from, to, _) =>
      r.(records := r.records[IndexOf(r.records, from) :=
        VisibleRecord(r.provider, to.hostname, to.answer, from.provenance)], served := r.served + [c])
    case DeleteCall(visible, _) =>
      var i := IndexOf(r.records, visible);
      r.(records := r.records[..i] + r.records[i + 1..], served := r.served + [c])
  }

  /** No identifier is as long as the next one will be. */
  predicate IdentifiersAreOld(r: RemoteState) {
    forall v :: v in r.records && v.provenance.Some? ==> |v.provenance.value.remoteID| <= r.nextId
  }

  /** An identifier that a create hands out is new, and stays so. */
  lemma IdentifiersAreFresh(r: RemoteState, c: Call)
    requires IdentifiersAreOld(r) && Possible(r, c)
    ensures IdentifiersAreOld(Mutate(r, c))
    ensures c.CreateCall? && r.exposes ==>
      Response(r, c).Some? && forall v :: v in r.records ==> v.provenance != Response(r, c)
  {
  }

  /** The provenance that a successful call returns. */
  function Response(r: RemoteState, c: Call): Option<RecordProvenance> {
    match c
    case CreateCall(_, _) => NewProvenance(r)
    case UpdateCall(from, _, _) => if r.exposes then from.provenance else None
    case DeleteCall(_, _) => None
  }

  datatype Fault = Temporary | Permanent

  datatype CallResult = Done(provenance: Option<RecordProvenance>) | Failed(fault: Fault)

  /** The output object. `faults` decides for every attempt whether it fails; a failed call has no effect. */
  class Output {
    const provider: ProviderRef
    const faults: nat -> Option<Fault>
    var state: RemoteState
    var attempts: nat

    ghost predicate Valid()
      reads this
    {
      state.provider == provider
    }

    constructor (state: RemoteState, faults: nat -> Option<Fault>)
      ensures Valid() && this.state == state && this.faults == faults && attempts == 0
      ensures provider == state.provider
    {
      provider := state.provider;
      this.faults := faults;
      this.state := state;
      attempts := 0;
    }

    method ListVisible() returns (listed: Option<seq<VisibleRecord>>, fault: Option<Fault>)
      requires Valid()
      modifies this
      ensures Valid() && state == old(state) && attempts == old(attempts) + 1
      ensures fault == faults(old(attempts))
      ensures listed == if fault.None? then Some(state.records) else None
    {
      fault := faults(attempts);
      attempts := attempts + 1;
      listed := if fault.None? then Some(state.records) else None;
    }

    method Perform(c: Call) returns (result: CallResult)
      requires Valid()
      modifies this
      ensures Valid() && attempts == old(attempts) + 1
      ensures result.Done? <==> faults(old(attempts)).None? && Possible(old(state), c)
      ensures result.Done? ==> state == Mutate(old(state), c) && result.provenance == Response(old(state), c)
      ensures result.Done? && c.CreateCall? ==> (HasProvenance(result.provenance) <==> state.exposes)
      ensures result.Done? && c.UpdateCall? ==> result.provenance == if state.exposes then c.from.provenance else None
      ensures result.Failed? ==> state == old(state)
      ensures result.Failed? ==>
        faults(old(attempts)) == Some(result.fault)
        || (faults(old(attempts)).None? && result.fault.Permanent? && !Possible(state, c))
    {
      var fault := faults(attempts);
      attempts := attempts + 1;
      if fault.Some? {
        return Failed(fault.value);
      }
      if !Possible(state, c) {
        return Failed(Permanent);
      }
      result := Done(Response(state, c));
      state := Mutate(state, c);
    }
  }
}
