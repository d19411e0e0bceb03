/** The values that sources, outputs and the state file exchange. */
module Records {

  datatype Option<+T> = None | Some(value: T)

  datatype ProviderRef = ProviderRef(typ: string, name: string)

  datatype SourceObjectRef = SourceObjectRef(provider: ProviderRef, id: string, displayName: string)

  /** What a source wants; `output` is the output type it is meant for, empty for all of them. */
  datatype DesiredRecord = DesiredRecord(hostname: string, answer: string, source: SourceObjectRef, output: string)

  datatype RecordProvenance = RecordProvenance(remoteID: string)

  /** What an output lists; an output without remote identifiers lists no provenance. */
  datatype VisibleRecord =
    VisibleRecord(output: ProviderRef, hostname: string, answer: string, provenance: Option<RecordProvenance>)

  /** What the state file remembers as owned by the daemon. */
  datatype ManagedRecord = ManagedRecord(
    output: ProviderRef, source: SourceObjectRef, hostname: string, answer: string,
    provenance: Option<RecordProvenance>, lastAppliedAt: int)

  const SNAPSHOT_VERSION := 1

  datatype Snapshot = Snapshot(version: int, managedRecords: seq<ManagedRecord>)

  /** Equal in everything but the time of the last application. */
  predicate SameButTime(a: ManagedRecord, b: ManagedRecord) {
    a == b.(lastAppliedAt := a.lastAppliedAt)
  }

  predicate HasProvenance(p: Option<RecordProvenance>) {
    p.Some? && p.value.remoteID != ""
  }

  predicate SameProvenance(managed: Option<RecordProvenance>, visible: Option<RecordProvenance>) {
    && managed.Some? && visible.Some?
    && managed.value.remoteID != "" && visible.value.remoteID != ""
    && managed.value.remoteID == visible.value.remoteID
  }
}
