/** The Cloudflare output: the cache of identifiers it keeps, and how it recovers from a duplicate create. */
module CloudflareOutput {
  import opened Text
  import opened Records
  import opened Seqs
  import opened Cloudflare
  import Remote

  /** An error answer of the API: its status code and the error codes of its body. */
  datatype ApiFault = ApiFault(status: int, codes: seq<int>)

  predicate IsTemporary(fault: ApiFault) {
    fault.status == 408 || fault.status == 429 || fault.status >= 500
  }

  predicate IsDuplicate(fault: ApiFault) {
    81053 in fault.codes || 81054 in fault.codes || 81057 in fault.codes || 81058 in fault.codes
  }

  datatype Problem =
    | MissingZoneID
    | MissingHostname
    | MissingAnswer
    | MissingProvenance
    | ProvenanceMismatch
    | Refused(fault: ApiFault, temporary: bool)

  datatype Result<+T> = Ok(value: T) | Err(problem: Problem)

  function RefusedWith(fault: ApiFault): Problem {
    Refused(fault, IsTemporary(fault))
  }

  const NOT_FOUND := ApiFault(404, [])

  datatype Body = Body(kind: Kind, name: string, content: string)

  function BuildRecordBody(classify: string -> Kind, hostname: string, answer: string): Result<Body> {
    var name, content := Normalize(hostname), Normalize(answer);
    if name == "" then Err(MissingHostname)
    else if content == "" then Err(MissingAnswer)
    else Ok(Body(classify(content), name, content))
  }

  /** The identifier to address a listed record by; refused when the cache knows another one. */
  function VisibleRemoteID(cache: Cache, v: VisibleRecord): Result<string> {
    if TrimSpace(IdOf(v)) == "" then Err(MissingProvenance)
    else
      var cached := LookupVisibleRecord(cache, v.hostname, v.answer);
      if cached.Some? && cached.value != TrimSpace(IdOf(v)) then Err(ProvenanceMismatch)
      else Ok(TrimSpace(IdOf(v)))
  }

  /** The record shows an identifier, and the last listing knew no other one for its hostname and answer. */
  predicate IsAccepted(cache: Cache, v: VisibleRecord) {
    var key := VisibleRecordKey(v.hostname, v.answer);
    TrimSpace(IdOf(v)) != "" && (key in cache ==> cache[key] == TrimSpace(IdOf(v)))
  }

  /** Requests fail for now or for good by their status. */
  predicate IsPassing(fault: ApiFault) {
    fault.status in {408, 429} || fault.status >= 500
  }

  /** The codes that say that such a record exists already. */
  ghost predicate SaysDuplicate(fault: ApiFault) {
    exists code :: code in fault.codes && code in {81053, 81054, 81057, 81058}
  }

  /** What a request to change the record with the identifier comes to. */
  ghost predicate RequestEnds(
    fault: Option<ApiFault>, records: seq<ZoneRecord>, id: string, problem: Option<Problem>)
  {
    if fault.Some? then problem == Some(Refused(fault.value, IsPassing(fault.value)))
    else if exists r :: r in records && r.id == id then problem == None
    else problem == Some(Refused(ApiFault(404, []), false))
  }

  function ProblemOf<T>(r: Result<T>): Option<Problem> {
    if r.Err? then Some(r.problem) else None
  }

  /** Identifiers are trimmed, not blank and distinct; the next one is new. */
  ghost predicate Identified(records: seq<ZoneRecord>, nextId: nat) {
    && (forall r :: r in records ==> r.id != "" && TrimSpace(r.id) == r.id && |r.id| <= nextId)
    && (forall i, j :: 0 <= i < j < |records| ==> records[i].id != records[j].id)
  }

  /** The service stores a single label, and a name inside the zone, under an equivalent name. */
  ghost predicate StoresEquivalent(naming: string -> string, zoneName: string) {
    forall n: string :: Normalize(n) == n && Addressable(n, zoneName) ==>
      HostnamesEquivalent(Normalize(naming(n)), n, zoneName)
  }

  function FullNaming(zone: string): string -> string {
    n => FullName(n, zone)
  }

  /** A service that completes names does. */
  lemma FullNamesAreEquivalent(zone: string)
    requires Plain(zone) && zone != ""
    ensures StoresEquivalent(FullNaming(zone), zone)
  {
    forall n: string | Normalize(n) == n && Addressable(n, zone)
      ensures HostnamesEquivalent(Normalize(FullNaming(zone)(n)), n, zone)
    {
      FullNameIsEquivalent(n, zone);
    }
  }

  /** What the listing needs to succeed. */
  predicate CanList(zoneID: string, zoneName: string, faults: nat -> Option<ApiFault>, attempts: nat) {
    && TrimSpace(zoneID) != "" && faults(attempts).None?
    && (zoneName == "" ==> faults(attempts + 1).None?)
  }

  /** The record that a create makes. */
  function MadeFor(body: Body, naming: string -> string, id: string): ZoneRecord {
    ZoneRecord(id, body.kind, naming(body.name), body.content)
  }

  /** The normal forms of hostname and answer end in no dot and no space. */
  predicate IsSettled(d: DesiredRecord) {
    CleanEnd(Normalize(d.hostname)) && CleanEnd(Normalize(d.answer))
  }

  /** Exactly then normalising the desired record once is enough. */
  lemma SettledExactly(d: DesiredRecord)
    ensures IsSettled(d)
       <==> && Normalize(Normalize(d.hostname)) == Normalize(d.hostname)
            && Normalize(Normalize(d.answer)) == Normalize(d.answer)
  {
    hide FoldName;
    FoldNameTwice(d.hostname);
    FoldNameTwice(d.answer);
  }

  /** The naming conditions under which the cache is a scan of the listing. */
  ghost predicate WellNamed(ref: ProviderRef, records: seq<ZoneRecord>, d: DesiredRecord, zoneName: string) {
    && IsSettled(d) && AllInZone(Listing(ref, records), zoneName)
    && Distinguishable(d.hostname, zoneName)
  }

  /** The identifier names a record that does what was desired. */
  ghost predicate Serves(ref: ProviderRef, records: seq<ZoneRecord>, id: string, d: DesiredRecord, zoneName: string) {
    exists r :: r in records && r.id == id && !r.kind.Unsupported? && SameRecord(Listed(ref, r), d.hostname, d.answer, zoneName)
  }

  /** One record was added or replaced by one with the same identifier, or nothing happened. */
  ghost predicate AtMostOneChange(before: seq<ZoneRecord>, after: seq<ZoneRecord>) {
    || after == before
    || (exists r :: after == before + [r])
    || (exists i, r: ZoneRecord :: 0 <= i < |before| && r.id == before[i].id && after == before[i := r])
  }

  function Position(records: seq<ZoneRecord>, id: string): (k: nat)
    ensures k <= |records|
    ensures k < |records| ==> records[k].id == id
    ensures k == |records| ==> forall r :: r in records ==> r.id != id
  {
    if records == [] then 0
    else if records[0].id == id then 0
    else 1 + Position(records[1..], id)
  }

  class CloudflareOutput {
    const ref: ProviderRef
    const zoneID: string
    /** The zone's name, the way it names records, and which records hold which contents: the service's side. */
    const zone: string
    const naming: string -> string
    const classify: string -> Kind
    const faults: nat -> Option<ApiFault>
    var records: seq<ZoneRecord>
    var nextId: nat
    var attempts: nat
    /** The output's own side: the zone name once it is known, and the cache of the last listing. */
    var zoneName: string
    var visible: Cache

    ghost predicate Valid()
      reads this
    {
      && (zoneName == "" || zoneName == Normalize(zone))
      && (forall content :: !classify(content).Unsupported?)
      && StoresEquivalent(naming, Normalize(zone))
      && Identified(records, nextId)
    }

    constructor (ref: ProviderRef, zoneID: string, zone: string, naming: string -> string, classify: string -> Kind,
                 faults: nat -> Option<ApiFault>, records: seq<ZoneRecord>, nextId: nat)
      requires forall content :: !classify(content).Unsupported?
      requires StoresEquivalent(naming, Normalize(zone)) && Identified(records, nextId)
      ensures Valid()
      ensures this.ref == ref && this.zoneID == zoneID && this.zone == zone && this.naming == naming
      ensures this.classify == classify && this.faults == faults && this.records == records && this.nextId == nextId
      ensures zoneName == "" && visible == map[] && attempts == 0
    {
      this.ref, this.zoneID, this.zone, this.naming, this.classify := ref, zoneID, zone, naming, classify;
      this.faults, this.records, this.nextId := faults, records, nextId;
      attempts, zoneName, visible := 0, "", map[];
    }

    method Request() returns (fault: Option<ApiFault>)
      modifies this`attempts
      ensures attempts == old(attempts) + 1 && fault == faults(old(attempts))
    {
      fault := faults(attempts);
      attempts := attempts + 1;
    }

    method ListVisible() returns (r: Result<seq<VisibleRecord>>)
      requires Valid()
      modifies this`attempts, this`zoneName, this`visible
      ensures Valid()
      ensures r.Ok? ==>
        && r.value == Listing(ref, records) && zoneName == Normalize(zone) && visible == CacheOf(r.value, zoneName)
      ensures r.Err? ==> visible == old(visible) && (r.problem.MissingZoneID? || r.problem.Refused?)
      ensures r.Ok? <==> CanList(zoneID, old(zoneName), faults, old(attempts))
      ensures r.Ok? ==> attempts == old(attempts) + if old(zoneName) == "" then 2 else 1
      ensures TrimSpace(zoneID) == "" ==> r == Err(MissingZoneID) && attempts == old(attempts)
      ensures TrimSpace(zoneID) != "" && r.Err? ==>
        && attempts > old(attempts) && faults(attempts - 1).Some?
        && r == Err(Refused(faults(attempts - 1).value, IsPassing(faults(attempts - 1).value)))
    {
      hide Normalize, StoresEquivalent, VisibleRecordKeys, Identified, Put, TrimSpace, CacheOf;
      if TrimSpace(zoneID) == "" {
        return Err(MissingZoneID);
      }
      if zoneName == "" {
        var fault := Request();
        if fault.Some? {
          return Err(RefusedWith(fault.value));
        }
        zoneName := Normalize(zone);
      }
      var fault := Request();
      if fault.Some? {
        return Err(RefusedWith(fault.value));
      }
      var listed: seq<VisibleRecord>, next: Cache := [], map[];
      NothingCached(zoneName);
      for i := 0 to |records|
        invariant Valid() && zoneName == Normalize(zone)
        invariant attempts == old(attempts) + if old(zoneName) == "" then 2 else 1
        invariant listed == Listing(ref, records[..i]) && next == CacheOf(listed, zoneName)
      {
        assert records[..i + 1][..i] == records[..i];
        if !records[i].kind.Unsupported? {
          var v := Listed(ref, records[i]);
          CacheOneMore(listed, v, zoneName);
          next := PutAll(next, VisibleRecordKeys(v.hostname, v.answer, zoneName), records[i].id);
          listed := listed + [v];
        }
      }
      assert records[..|records|] == records;
      visible := next;
      r := Ok(listed);
    }

    method Update(v: VisibleRecord, d: DesiredRecord) returns (r: Result<Option<RecordProvenance>>)
      requires Valid()
      modifies this`attempts, this`records
      ensures Valid()
      ensures !IsAccepted(visible, v) ==>
        r == Err(if TrimSpace(IdOf(v)) == "" then MissingProvenance else ProvenanceMismatch) && attempts == old(attempts)
      ensures IsAccepted(visible, v) && (Normalize(d.hostname) == "" || Normalize(d.answer) == "") ==>
        r == Err(if Normalize(d.hostname) == "" then MissingHostname else MissingAnswer) && attempts == old(attempts)
      ensures IsAccepted(visible, v) && Normalize(d.hostname) != "" && Normalize(d.answer) != "" ==>
        && attempts == old(attempts) + 1
        && RequestEnds(faults(old(attempts)), old(records), TrimSpace(IdOf(v)), ProblemOf(r))
      ensures r.Err? ==> records == old(records)
      ensures r.Ok? ==>
        var id := TrimSpace(IdOf(v)); var k := Position(old(records), id);
        && k < |old(records)| && r.value == Some(RecordProvenance(id))
        && records == old(records)[k :=
             ZoneRecord(id, classify(Normalize(d.answer)), naming(Normalize(d.hostname)), Normalize(d.answer))]
    {
      hide IsAccepted, VisibleRemoteID, RequestEnds, IsTemporary, IsPassing, Identified, StoresEquivalent, TrimSpace, Normalize;
      AcceptedExactly(visible, v);
      RequestEndsBy(faults(attempts), records, TrimSpace(IdOf(v)));
      var id := VisibleRemoteID(visible, v);
      if id.Err? {
        return Err(id.problem);
      }
      var body := BuildRecordBody(classify, d.hostname, d.answer);
      if body.Err? {
        return Err(body.problem);
      }
      var fault := Request();
      if fault.Some? {
        return Err(RefusedWith(fault.value));
      }
      var k := Position(records, id.value);
      if k == |records| {
        return Err(RefusedWith(NOT_FOUND));
      }
      ReplaceIdentified(records, nextId, k, ZoneRecord(id.value, body.value.kind, naming(body.value.name), body.value.content));
      records := records[k := ZoneRecord(id.value, body.value.kind, naming(body.value.name), body.value.content)];
      r := Ok(Some(RecordProvenance(id.value)));
    }

    method Delete(v: VisibleRecord) returns (problem: Option<Problem>)
      requires Valid()
      modifies this`attempts, this`records
      ensures Valid()
      ensures !IsAccepted(visible, v) ==>
        && problem == Some(if TrimSpace(IdOf(v)) == "" then MissingProvenance else ProvenanceMismatch)
        && attempts == old(attempts)
      ensures IsAccepted(visible, v) ==>
        && attempts == old(attempts) + 1
        && RequestEnds(faults(old(attempts)), old(records), TrimSpace(IdOf(v)), problem)
      ensures problem.Some? ==> records == old(records)
      ensures problem.None? ==>
        var id := TrimSpace(IdOf(v)); var k := Position(old(records), id);
        && k < |old(records)| && records == old(records)[..k] + old(records)[k + 1..]
        && forall x :: x in records ==> x.id != id
    {
      var id := VisibleRemoteID(visible, v);
      if id.Err? {
        return Some(id.problem);
      }
      var fault := Request();
      if fault.Some? {
        return Some(RefusedWith(fault.value));
      }
      var k := Position(records, id.value);
      if k == |records| {
        return Some(RefusedWith(NOT_FOUND));
      }
      RemoveIdentified(records, nextId, k);
      records := records[..k] + records[k + 1..];
      problem := None;
    }

    /** Create, and when the service reports a duplicate: list, and take over the one record that is equivalent. */
    method Create(d: DesiredRecord) returns (r: Result<Option<RecordProvenance>>)
      requires Valid()
      modifies this
      ensures Valid()
      ensures r.Err? ==> records == old(records)
      ensures AtMostOneChange(old(records), records)
      ensures Normalize(d.hostname) == "" || Normalize(d.answer) == "" ==>
        && r == Err(if Normalize(d.hostname) == "" then MissingHostname else MissingAnswer)
        && attempts == old(attempts) && zoneName == old(zoneName) && visible == old(visible)
      ensures Normalize(d.hostname) != "" && Normalize(d.answer) != "" && faults(old(attempts)).Some? ==>
        var fault := faults(old(attempts)).value;
        !SaysDuplicate(fault) ==>
          && r == Err(Refused(fault, IsPassing(fault)))
          && attempts == old(attempts) + 1 && zoneName == old(zoneName) && visible == old(visible)
      ensures var body := BuildRecordBody(classify, d.hostname, d.answer);
        body.Ok? && faults(old(attempts)).None? ==>
          && r == Ok(Some(RecordProvenance(Remote.RemoteID(old(nextId)))))
          && records == old(records) + [MadeFor(body.value, naming, Remote.RemoteID(old(nextId)))]
          && attempts == old(attempts) + 1 && zoneName == old(zoneName) && visible == old(visible)
      ensures Absorbs(ref, zoneID, old(zoneName), Normalize(zone), classify, faults, old(attempts), old(records), d) ==>
        records == old(records)
        && r == Ok(Filter(Listing(ref, records), EquivalentTo(d.hostname, Normalize(zone)))[0].provenance)
      ensures Undecided(ref, zoneID, old(zoneName), Normalize(zone), classify, faults, old(attempts), old(records), d) ==>
        r == Err(Refused(faults(old(attempts)).value, IsPassing(faults(old(attempts)).value)))
      ensures Recovers(ref, zoneID, old(zoneName), Normalize(zone), faults, old(attempts), old(records), d) ==>
        r.Ok? && ReplacesMatch(ref, old(records), records, d, Normalize(zone), naming, classify, r.value)
      ensures IsSettled(d) && Addressable(Normalize(d.hostname), Normalize(zone)) && r.Ok? ==>
        r.value.Some? && Serves(ref, records, r.value.value.remoteID, d, Normalize(zone))
      ensures WellNamed(ref, old(records), d, Normalize(zone)) && r.Err? ==>
        !r.problem.ProvenanceMismatch? && !r.problem.MissingProvenance?
    {
      hide Normalize, WellNamed, StoresEquivalent, CacheOf, SameRecord, IsTemporary, TrimSpace, Remote.RemoteID, Serves,
           ReplacesMatch, Addressable, IsSettled, SaysDuplicate, IsDuplicate, CanList, RefusedWith, IsPassing, EquivalentTo,
           Listing;
      var body := BuildRecordBody(classify, d.hostname, d.answer);
      if body.Err? {
        return Err(body.problem);
      }
      ghost var z := Normalize(zone);
      var made := MadeFor(body.value, naming, Remote.RemoteID(nextId));
      var fault := Request();
      if fault.None? {
        AddIdentified(records, nextId, made);
        records, nextId := records + [made], nextId + 1;
        if IsSettled(d) && Addressable(Normalize(d.hostname), z) {
          MadeServes(ref, naming, d, z, made);
          ServesByRecord(ref, records, |records| - 1, d, z);
        }
        return Ok(Some(RecordProvenance(made.id)));
      }
      DuplicateExactly(fault.value);
      if !IsDuplicate(fault.value) {
        return Err(RefusedWith(fault.value));
      }
      r := Recover(d, fault.value);
    }

    /** The second half of a create: list, and take over the one equivalent record. */
    method Recover(d: DesiredRecord, fault: ApiFault) returns (r: Result<Option<RecordProvenance>>)
      requires Valid() && Normalize(d.hostname) != "" && Normalize(d.answer) != ""
      modifies this
      ensures Valid()
      ensures r.Err? ==> records == old(records)
      ensures AtMostOneChange(old(records), records)
      ensures Findings(ref, zoneID, old(zoneName), Normalize(zone), faults, old(attempts), old(records), d, 0) ==>
        r == Err(Refused(fault, IsPassing(fault)))
      ensures Findings(ref, zoneID, old(zoneName), Normalize(zone), faults, old(attempts), old(records), d, 1) ==>
        var m := Filter(Listing(ref, old(records)), EquivalentTo(d.hostname, Normalize(zone)))[0];
        if Normalize(m.answer) == Normalize(d.answer) then r == Ok(m.provenance) && records == old(records)
        else
          WellNamed(ref, old(records), d, Normalize(zone))
          && faults(old(attempts) + (if old(zoneName) == "" then 2 else 1)).None? ==>
            r.Ok? && ReplacesMatch(ref, old(records), records, d, Normalize(zone), naming, classify, r.value)
      ensures !CanList(zoneID, old(zoneName), faults, old(attempts)) ==>
        r.Err? && (r.problem.MissingZoneID? || r.problem.Refused?)
      ensures IsSettled(d) && Addressable(Normalize(d.hostname), Normalize(zone)) && r.Ok? ==>
        r.value.Some? && Serves(ref, records, r.value.value.remoteID, d, Normalize(zone))
      ensures WellNamed(ref, old(records), d, Normalize(zone)) && r.Err? ==>
        !r.problem.ProvenanceMismatch? && !r.problem.MissingProvenance?
    {
      hide Normalize, WellNamed, StoresEquivalent, CacheOf, SameRecord, HostnamesEquivalent, TrimSpace, Serves, Addressable,
           IsSettled, CanList, RefusedWith, IsPassing, EquivalentTo, Listing, IsAccepted, RequestEnds, ReplacesMatch,
           Identified, AtMostOneChange;
      DuplicateExactly(fault);
      ghost var before, z := records, Normalize(zone);
      NothingChanges(before);
      var listed := ListVisible();
      if listed.Err? {
        return Err(listed.problem);
      }
      var matches := Equivalents(listed.value, d.hostname, zoneName);
      if |matches| != 1 {
        return Err(RefusedWith(fault));
      }
      var match_ := matches[0];
      ghost var k := MatchedRecord(ref, records, nextId, d.hostname, zoneName);
      if Normalize(match_.answer) == Normalize(d.answer) {
        SameAnswerServes(ref, records[k], d, z);
        ServesByRecord(ref, records, k, d, z);
        return Ok(match_.provenance);
      }
      MatchIsIdentified(ref, records, nextId, k);
      if WellNamed(ref, records, d, z) {
        OnlyMatchIsAccepted(ref, records, nextId, d, z);
        MatchIsAccepted(visible, match_);
      }
      r := Update(match_, d);
      if IsAccepted(visible, match_) {
        OnlyRefused(faults(attempts - 1), before, TrimSpace(IdOf(match_)), r);
        if faults(attempts - 1).None? {
          UpdateOfMatch(faults(attempts - 1), before, k, r);
        }
      }
      if r.Ok? {
        OnePosition(before, nextId, k);
        if IsSettled(d) && Addressable(Normalize(d.hostname), z) {
          MadeServes(ref, naming, d, z, records[k]);
          ServesByRecord(ref, records, k, d, z);
        }
        OneChange(before, k, records[k]);
        Replacing(ref, before, records, k, d, z, naming, classify);
      }
    }
  }

  /** The output can list, and finds no single equivalent record (0), or exactly one (1). */
  ghost predicate Findings(
    ref: ProviderRef, zoneID: string, zoneName: string, zone: string, faults: nat -> Option<ApiFault>, attempts: nat,
    records: seq<ZoneRecord>, d: DesiredRecord, found: nat)
  {
    && CanList(zoneID, zoneName, faults, attempts)
    && (|Filter(Listing(ref, records), EquivalentTo(d.hostname, zone))| == 1 <==> found == 1)
  }

  /** The service reports a duplicate, the listing shows one equivalent record with another answer, whose identifier can be
      trusted, and every request of the recovery succeeds. */
  ghost predicate Recovers(
    ref: ProviderRef, zoneID: string, zoneName: string, zone: string, faults: nat -> Option<ApiFault>, attempts: nat,
    records: seq<ZoneRecord>, d: DesiredRecord)
  {
    var matches := Filter(Listing(ref, records), EquivalentTo(d.hostname, zone));
    && Normalize(d.hostname) != "" && Normalize(d.answer) != ""
    && faults(attempts).Some? && SaysDuplicate(faults(attempts).value)
    && CanList(zoneID, zoneName, faults, attempts + 1)
    && faults(attempts + (if zoneName == "" then 3 else 2)).None?
    && |matches| == 1 && Normalize(matches[0].answer) != Normalize(d.answer)
    && WellNamed(ref, records, d, zone)
  }

  /** The one equivalent record now is the desired one, under its own identifier. */
  ghost predicate ReplacesMatch(
    ref: ProviderRef, before: seq<ZoneRecord>, after: seq<ZoneRecord>, d: DesiredRecord, zone: string,
    naming: string -> string, classify: string -> Kind, provenance: Option<RecordProvenance>)
  {
    var matches := Filter(Listing(ref, before), EquivalentTo(d.hostname, zone));
    && |matches| == 1 && provenance == matches[0].provenance
    && exists k :: && 0 <= k < |before| && Some(RecordProvenance(before[k].id)) == provenance
                   && after == before[k := ZoneRecord(before[k].id, classify(Normalize(d.answer)),
                                                      naming(Normalize(d.hostname)), Normalize(d.answer))]
  }

  /** The service reports a duplicate, and the listing does not show exactly one equivalent record. */
  ghost predicate Undecided(
    ref: ProviderRef, zoneID: string, zoneName: string, zone: string, classify: string -> Kind,
    faults: nat -> Option<ApiFault>, attempts: nat, records: seq<ZoneRecord>, d: DesiredRecord)
  {
    && BuildRecordBody(classify, d.hostname, d.answer).Ok?
    && faults(attempts).Some? && SaysDuplicate(faults(attempts).value)
    && CanList(zoneID, zoneName, faults, attempts + 1)
    && |Filter(Listing(ref, records), EquivalentTo(d.hostname, zone))| != 1
  }

  /** The service reports a duplicate, and the listing shows one equivalent record, with the desired answer. */
  ghost predicate Absorbs(
    ref: ProviderRef, zoneID: string, zoneName: string, zone: string, classify: string -> Kind,
    faults: nat -> Option<ApiFault>, attempts: nat, records: seq<ZoneRecord>, d: DesiredRecord)
  {
    var matches := Filter(Listing(ref, records), EquivalentTo(d.hostname, zone));
    && BuildRecordBody(classify, d.hostname, d.answer).Ok?
    && faults(attempts).Some? && SaysDuplicate(faults(attempts).value)
    && CanList(zoneID, zoneName, faults, attempts + 1)
    && |matches| == 1 && Normalize(matches[0].answer) == Normalize(d.answer)
  }

  method PutAll(cache: Cache, keys: seq<string>, id: string) returns (next: Cache)
    ensures next == Put(cache, keys, id)
  {
    next := cache;
    for i := 0 to |keys|
      invariant next == Put(cache, keys[..i], id)
    {
      assert keys[..i + 1][..i] == keys[..i];
      next := next[keys[i] := id];
    }
    assert keys[..|keys|] == keys;
  }

  lemma NothingCached(zoneName: string)
    ensures CacheOf([], zoneName) == map[]
  {
  }

  lemma CacheOneMore(listed: seq<VisibleRecord>, v: VisibleRecord, zoneName: string)
    ensures CacheOf(listed + [v], zoneName)
         == Put(CacheOf(listed, zoneName), VisibleRecordKeys(v.hostname, v.answer, zoneName), IdOf(v))
  {
    hide VisibleRecordKeys, Put;
    assert (listed + [v])[..|listed|] == listed;
  }

  function EquivalentTo(hostname: string, zoneName: string): VisibleRecord -> bool {
    (v: VisibleRecord) => HostnamesEquivalent(v.hostname, hostname, zoneName)
  }

  method Equivalents(listed: seq<VisibleRecord>, hostname: string, zoneName: string) returns (matches: seq<VisibleRecord>)
    ensures matches == Filter(listed, EquivalentTo(hostname, zoneName))
  {
    matches := [];
    for i := 0 to |listed|
      invariant matches == Filter(listed[..i], EquivalentTo(hostname, zoneName))
    {
      assert listed[..i + 1][..i] == listed[..i];
      if HostnamesEquivalent(listed[i].hostname, hostname, zoneName) {
        matches := matches + [listed[i]];
      }
    }
    assert listed[..|listed|] == listed;
  }

  // ---- Identifiers ---------------------------------------------------------------------------------------

  lemma ReplaceIdentified(records: seq<ZoneRecord>, nextId: nat, k: nat, r: ZoneRecord)
    requires Identified(records, nextId) && k < |records| && r.id == records[k].id
    ensures Identified(records[k := r], nextId)
    ensures AtMostOneChange(records, records[k := r])
  {
    assert records[k] in records;
  }

  lemma RemoveIdentified(records: seq<ZoneRecord>, nextId: nat, k: nat)
    requires Identified(records, nextId) && k < |records|
    ensures Identified(records[..k] + records[k + 1..], nextId)
    ensures forall x :: x in records[..k] + records[k + 1..] ==> x.id != records[k].id
  {
    var rest := records[..k] + records[k + 1..];
    forall i | 0 <= i < |rest| ensures rest[i] in records && rest[i].id != records[k].id {
      assert rest[i] == if i < k then records[i] else records[i + 1];
    }
    forall i, j | 0 <= i < j < |rest| ensures rest[i].id != rest[j].id {
      assert rest[i] == if i < k then records[i] else records[i + 1];
      assert rest[j] == if j < k then records[j] else records[j + 1];
    }
  }

  lemma AddIdentified(records: seq<ZoneRecord>, nextId: nat, r: ZoneRecord)
    requires Identified(records, nextId) && r.id == Remote.RemoteID(nextId)
    ensures Identified(records + [r], nextId + 1)
    ensures AtMostOneChange(records, records + [r])
  {
    FreshIsTrimmed(nextId);
    forall i | 0 <= i < |records| ensures records[i].id != r.id {
      assert records[i] in records;
    }
  }

  lemma FreshIsTrimmed(n: nat)
    ensures TrimSpace(Remote.RemoteID(n)) == Remote.RemoteID(n) != ""
  {
    var id := Remote.RemoteID(n);
    assert id[0] == '#' && id[|id| - 1] == '#';
    assert TrimLeft(id) == id;
  }

  // ---- Recovery ------------------------------------------------------------------------------------------

  /** A record made for the desired one serves it. */
  lemma MadeServes(ref: ProviderRef, naming: string -> string, d: DesiredRecord, zoneName: string, r: ZoneRecord)
    requires IsSettled(d) && StoresEquivalent(naming, zoneName) && Addressable(Normalize(d.hostname), zoneName)
    requires r.name == naming(Normalize(d.hostname)) && r.content == Normalize(d.answer)
    ensures SameRecord(Listed(ref, r), d.hostname, d.answer, zoneName)
  {
    hide Normalize;
    SettledExactly(d);
    var n := Normalize(d.hostname);
    assert HostnamesEquivalent(Normalize(naming(n)), n, zoneName);
  }

  lemma {:induction false} ListedFrom(ref: ProviderRef, records: seq<ZoneRecord>, v: VisibleRecord) returns (k: nat)
    requires v in Listing(ref, records)
    ensures k < |records| && !records[k].kind.Unsupported? && Listed(ref, records[k]) == v
  {
    hide Normalize;
    k := |records| - 1;
    if records[k].kind.Unsupported? || Listed(ref, records[k]) != v {
      k := ListedFrom(ref, records[..k], v);
    }
  }

  lemma MatchedRecord(ref: ProviderRef, records: seq<ZoneRecord>, nextId: nat, hostname: string, zoneName: string)
    returns (k: nat)
    requires Identified(records, nextId) && |Filter(Listing(ref, records), EquivalentTo(hostname, zoneName))| == 1
    ensures var m := Filter(Listing(ref, records), EquivalentTo(hostname, zoneName))[0];
      && k < |records| && !records[k].kind.Unsupported? && Listed(ref, records[k]) == m
      && HostnamesEquivalent(m.hostname, hostname, zoneName)
  {
    hide Normalize, HostnamesEquivalent;
    var found := Filter(Listing(ref, records), EquivalentTo(hostname, zoneName));
    assert found[0] in found;
    k := ListedFrom(ref, records, found[0]);
  }

  lemma SameAnswerServes(ref: ProviderRef, r: ZoneRecord, d: DesiredRecord, zoneName: string)
    requires HostnamesEquivalent(Listed(ref, r).hostname, d.hostname, zoneName)
    requires Normalize(Listed(ref, r).answer) == Normalize(d.answer)
    ensures SameRecord(Listed(ref, r), d.hostname, d.answer, zoneName)
  {
  }

  lemma DuplicateExactly(fault: ApiFault)
    ensures IsDuplicate(fault) <==> SaysDuplicate(fault)
    ensures RefusedWith(fault) == Refused(fault, IsPassing(fault))
  {
  }

  /** How a request ends, by its fault and the position of the record. */
  lemma RequestEndsBy(fault: Option<ApiFault>, records: seq<ZoneRecord>, id: string)
    ensures fault.Some? ==> RequestEnds(fault, records, id, Some(RefusedWith(fault.value)))
    ensures fault.None? ==>
      RequestEnds(fault, records, id, if Position(records, id) == |records| then Some(RefusedWith(NOT_FOUND)) else None)
  {
    if fault.Some? {
      DuplicateExactly(fault.value);
    }
    if Position(records, id) < |records| {
      assert records[Position(records, id)] in records;
    }
  }

  lemma AcceptedExactly(cache: Cache, v: VisibleRecord)
    ensures VisibleRemoteID(cache, v)
         == if IsAccepted(cache, v) then Ok(TrimSpace(IdOf(v)))
            else Err(if TrimSpace(IdOf(v)) == "" then MissingProvenance else ProvenanceMismatch)
  {
    hide TrimSpace, VisibleRecordKey;
  }

  lemma MatchIsAccepted(cache: Cache, v: VisibleRecord)
    requires VisibleRemoteID(cache, v).Ok?
    ensures IsAccepted(cache, v)
  {
    hide TrimSpace, VisibleRecordKey;
  }

  lemma MatchIsIdentified(ref: ProviderRef, records: seq<ZoneRecord>, nextId: nat, k: nat)
    requires Identified(records, nextId) && k < |records|
    ensures IdOf(Listed(ref, records[k])) == records[k].id == TrimSpace(records[k].id)
    ensures Listed(ref, records[k]).provenance == Some(RecordProvenance(records[k].id))
  {
    hide TrimSpace, Normalize;
    assert records[k] in records;
  }

  lemma OnePosition(records: seq<ZoneRecord>, nextId: nat, k: nat)
    requires Identified(records, nextId) && k < |records|
    ensures Position(records, records[k].id) == k
  {
    hide TrimSpace;
    var p := Position(records, records[k].id);
    assert records[k] in records;
    assert p < |records| && records[p].id == records[k].id;
  }

  lemma UpdateOfMatch(
    fault: Option<ApiFault>, records: seq<ZoneRecord>, k: nat, r: Result<Option<RecordProvenance>>)
    requires k < |records| && fault.None? && RequestEnds(fault, records, records[k].id, ProblemOf(r))
    ensures r.Ok?
  {
    assert records[k] in records;
  }

  lemma OnlyRefused(
    fault: Option<ApiFault>, records: seq<ZoneRecord>, id: string, r: Result<Option<RecordProvenance>>)
    requires RequestEnds(fault, records, id, ProblemOf(r))
    ensures r.Err? ==> r.problem.Refused?
  {
  }

  lemma NothingChanges(records: seq<ZoneRecord>)
    ensures AtMostOneChange(records, records)
  {
  }

  lemma OneChange(before: seq<ZoneRecord>, k: nat, r: ZoneRecord)
    requires k < |before| && r.id == before[k].id
    ensures AtMostOneChange(before, before[k := r])
  {
  }

  lemma ServesByRecord(ref: ProviderRef, records: seq<ZoneRecord>, k: nat, d: DesiredRecord, zoneName: string)
    requires k < |records| && !records[k].kind.Unsupported?
    requires SameRecord(Listed(ref, records[k]), d.hostname, d.answer, zoneName)
    ensures Serves(ref, records, records[k].id, d, zoneName)
  {
    hide SameRecord, Listed;
    assert records[k] in records;
  }

  lemma Replacing(
    ref: ProviderRef, before: seq<ZoneRecord>, after: seq<ZoneRecord>, k: nat, d: DesiredRecord, zone: string,
    naming: string -> string, classify: string -> Kind)
    requires |Filter(Listing(ref, before), EquivalentTo(d.hostname, zone))| == 1 && k < |before|
    requires Filter(Listing(ref, before), EquivalentTo(d.hostname, zone))[0] == Listed(ref, before[k])
    requires after == before[k := ZoneRecord(before[k].id, classify(Normalize(d.answer)), naming(Normalize(d.hostname)),
                                             Normalize(d.answer))]
    ensures ReplacesMatch(ref, before, after, d, zone, naming, classify, Some(RecordProvenance(before[k].id)))
  {
    hide Normalize, Listing, EquivalentTo;
  }

  lemma EquivalentThrough(a: string, b: string, c: string, zoneName: string)
    requires HostnamesEquivalent(a, b, zoneName) && HostnamesEquivalent(b, c, zoneName)
    ensures HostnamesEquivalent(a, c, zoneName)
  {
    hide Normalize;
  }

  lemma DistinguishableThrough(a: string, b: string, zoneName: string)
    requires HostnamesEquivalent(a, b, zoneName) && Distinguishable(b, zoneName)
    ensures Distinguishable(a, zoneName)
  {
    hide Normalize;
    var zone, name := Normalize(zoneName), Normalize(b);
    if name != "" && name != zone && '.' !in name {
      assert |name + "." + zone| > |zone|;
    }
  }

  /** The one equivalent record is the last one with its hostname and answer. */
  lemma {:induction false} OnlyMatchIsLast(
    listed: seq<VisibleRecord>, i: nat, hostname: string, zoneName: string)
    requires i < |listed| && HostnamesEquivalent(listed[i].hostname, hostname, zoneName)
    requires forall j :: 0 <= j < |listed| && j != i ==> !HostnamesEquivalent(listed[j].hostname, hostname, zoneName)
    ensures LastSameRecord(listed, listed[i].hostname, listed[i].answer, zoneName) == Some(IdOf(listed[i]))
  {
    hide HostnamesEquivalent, Normalize;
    var n := |listed| - 1;
    if i < n {
      if SameRecord(listed[n], listed[i].hostname, listed[i].answer, zoneName) {
        EquivalentThrough(listed[n].hostname, listed[i].hostname, hostname, zoneName);
      }
      OnlyMatchIsLast(listed[..n], i, hostname, zoneName);
    } else {
      SameAsItself(listed[i], zoneName);
    }
  }

  lemma SameAsItself(v: VisibleRecord, zoneName: string)
    ensures SameRecord(v, v.hostname, v.answer, zoneName)
  {
  }

  /** Right after the listing that found it, the one match cannot be refused for its cached identifier. */
  lemma OnlyMatchIsAccepted(
    ref: ProviderRef, records: seq<ZoneRecord>, nextId: nat, d: DesiredRecord, zoneName: string)
    requires Identified(records, nextId) && WellNamed(ref, records, d, zoneName)
    requires |Filter(Listing(ref, records), EquivalentTo(d.hostname, zoneName))| == 1
    ensures var listed := Listing(ref, records); var m := Filter(listed, EquivalentTo(d.hostname, zoneName))[0];
      VisibleRemoteID(CacheOf(listed, zoneName), m) == Ok(IdOf(m))
  {
    hide Normalize, HostnamesEquivalent, Distinguishable, CacheOf, LookupVisibleRecord, Listing, TrimSpace, LastSameRecord;
    var listed := Listing(ref, records);
    var i := FilteredOnce(listed, EquivalentTo(d.hostname, zoneName));
    var m := listed[i];
    assert m in listed && InZone(m.hostname, zoneName);
    DistinguishableThrough(m.hostname, d.hostname, zoneName);
    CacheIsScan(listed, zoneName, m.hostname, m.answer);
    OnlyMatchIsLast(listed, i, d.hostname, zoneName);
    var k := ListedFrom(ref, records, m);
    assert records[k] in records;
  }
}
