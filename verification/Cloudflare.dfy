/** Hostnames inside a zone: the short and the full form of a name, and the cache of identifiers keyed by both. */
module Cloudflare {
  import opened Text
  import opened Records
  import Keys

  /** `normalizeHostname` and `normalizeAnswer` of the Cloudflare output. */
  function Normalize(s: string): string {
    FoldName(s)
  }

  function VisibleRecordKey(hostname: string, answer: string): string {
    Normalize(hostname) + "|" + Normalize(answer)
  }

  /** The short form of a single label inside the zone; every other name is left alone. */
  function RelativeVisibleHostname(hostname: string, zoneName: string): string {
    var name, zone := Normalize(hostname), Normalize(zoneName);
    if name == "" || zone == "" || name == zone then name
    else if !HasSuffix(name, "." + zone) then name
    else
      var relative := TrimSuffix(name, "." + zone);
      if relative == "" || '.' in relative then name else relative
  }

  function VisibleRecordKeys(hostname: string, answer: string, zoneName: string): seq<string> {
    var relative := RelativeVisibleHostname(hostname, zoneName);
    [VisibleRecordKey(hostname, answer)]
    + if relative != "" && relative != Normalize(hostname) then [VisibleRecordKey(relative, answer)] else []
  }

  function Qualify(name: string, zone: string): string {
    if name == "" || name == zone || '.' in name then name else name + "." + zone
  }

  predicate HostnamesEquivalent(left: string, right: string, zoneName: string) {
    var zone := Normalize(zoneName);
    || Normalize(left) == Normalize(right)
    || (zone != "" && Qualify(Normalize(left), zone) == Qualify(Normalize(right), zone))
  }

  /** A record as the zone holds it. */
  datatype Kind = A | AAAA | CNAME | Unsupported

  datatype ZoneRecord = ZoneRecord(id: string, kind: Kind, name: string, content: string)

  function Listed(ref: ProviderRef, r: ZoneRecord): VisibleRecord {
    VisibleRecord(ref, Normalize(r.name), Normalize(r.content), Some(RecordProvenance(r.id)))
  }

  /** What `ListVisible` returns: the supported records, in order. */
  function Listing(ref: ProviderRef, records: seq<ZoneRecord>): seq<VisibleRecord> {
    if records == [] then []
    else
      var rest, last := Listing(ref, records[..|records| - 1]), records[|records| - 1];
      if last.kind.Unsupported? then rest else rest + [Listed(ref, last)]
  }

  // ---- The cache ---------------------------------------------------------------------------------------

  type Cache = map<string, string>

  function Put(cache: Cache, keys: seq<string>, id: string): Cache {
    if keys == [] then cache else Put(cache, keys[..|keys| - 1], id)[keys[|keys| - 1] := id]
  }

  function IdOf(v: VisibleRecord): string {
    if v.provenance.Some? then v.provenance.value.remoteID else ""
  }

  /** The cache after a listing: later records overwrite earlier ones. */
  function CacheOf(listed: seq<VisibleRecord>, zoneName: string): Cache {
    if listed == [] then map[]
    else
      var v := listed[|listed| - 1];
      Put(CacheOf(listed[..|listed| - 1], zoneName), VisibleRecordKeys(v.hostname, v.answer, zoneName), IdOf(v))
  }

  function LookupVisibleRecord(cache: Cache, hostname: string, answer: string): Option<string> {
    var key := VisibleRecordKey(hostname, answer);
    if key in cache then Some(cache[key]) else None
  }

  /** The scan that the cache stands for: the last listed record with an equivalent hostname and the same answer. */
  predicate SameRecord(v: VisibleRecord, hostname: string, answer: string, zoneName: string) {
    HostnamesEquivalent(v.hostname, hostname, zoneName) && Normalize(v.answer) == Normalize(answer)
  }

  function LastSameRecord(listed: seq<VisibleRecord>, hostname: string, answer: string, zoneName: string): Option<string> {
    if listed == [] then None
    else
      var v := listed[|listed| - 1];
      if SameRecord(v, hostname, answer, zoneName) then Some(IdOf(v))
      else LastSameRecord(listed[..|listed| - 1], hostname, answer, zoneName)
  }

  // ---- When they agree ---------------------------------------------------------------------------------

  /** No white space and no separator. */
  predicate Clean(s: string) {
    Keys.BarFree(s) && forall c :: c in s ==> !IsSpace(c)
  }

  /** A listed name lies inside the zone, and is a name. */
  predicate InZone(hostname: string, zoneName: string) {
    var name, zone := Normalize(hostname), Normalize(zoneName);
    Clean(name) && (zone == "" || name == zone || HasSuffix(name, "." + zone))
  }

  ghost predicate AllInZone(listed: seq<VisibleRecord>, zoneName: string) {
    forall v :: v in listed ==> InZone(v.hostname, zoneName)
  }

  /** The hostname asked for is not a zone of a single label. */
  predicate Distinguishable(hostname: string, zoneName: string) {
    var zone := Normalize(zoneName);
    '.' in zone || Normalize(hostname) != zone || zone == ""
  }

  lemma NormalizedIsLower(s: string)
    ensures forall c :: c in Normalize(s) ==> !IsUpper(c)
  {
    var lower := ToLower(s);
    assert forall c :: c in lower ==> !IsUpper(c);
    assert forall c :: c in TrimLeft(lower) ==> c in lower;
    assert forall c :: c in TrimRight(TrimLeft(lower)) ==> c in TrimLeft(lower);
  }

  lemma LabelIsPlain(name: string, relative: string)
    requires relative <= name && Clean(name) && '.' !in relative
    requires forall c :: c in name ==> !IsUpper(c)
    ensures Normalize(relative) == relative
  {
    forall c | c in relative ensures c in name {
      var i :| 0 <= i < |relative| && relative[i] == c;
      assert name[i] == c;
    }
    if relative != "" {
      assert relative[|relative| - 1] in relative;
    }
    PlainIsFixed(relative);
  }

  /** Inside the zone a name is its own full form, and its short form is the one label in front of the zone. */
  lemma RelativeIsLabel(hostname: string, zoneName: string)
    requires InZone(hostname, zoneName)
    ensures var name, zone := Normalize(hostname), Normalize(zoneName);
      var relative := RelativeVisibleHostname(hostname, zoneName);
      && (zone != "" ==> Qualify(name, zone) == name)
      && (relative != name ==>
            zone != "" && relative != "" && '.' !in relative && name == relative + "." + zone && Normalize(relative) == relative)
      && (forall l :: zone != "" && l != "" && '.' !in l && name == l + "." + zone && name != zone ==> relative == l)
  {
    hide Normalize, Clean;
    var name, zone := Normalize(hostname), Normalize(zoneName);
    var relative := RelativeVisibleHostname(hostname, zoneName);
    var suffix := "." + zone;
    if zone != "" && name != zone {
      assert name[|name| - |suffix|] == '.';
      assert name == TrimSuffix(name, suffix) + suffix;
    }
    NormalizedIsLower(hostname);
    if relative != name {
      LabelIsPlain(name, relative);
    }
    forall l | zone != "" && l != "" && '.' !in l && name == l + "." + zone && name != zone ensures relative == l {
      assert l == TrimSuffix(name, suffix);
    }
  }

  lemma NameKeyFaithful(h1: string, a1: string, h2: string, a2: string)
    requires Keys.BarFree(Normalize(h1)) && Keys.BarFree(Normalize(h2))
    ensures VisibleRecordKey(h1, a1) == VisibleRecordKey(h2, a2)
       <==> Normalize(h1) == Normalize(h2) && Normalize(a1) == Normalize(a2)
  {
    Keys.JoinInjective(Normalize(h1), Normalize(a1), Normalize(h2), Normalize(a2));
  }

  /** A hostname meets the full or the short form of a listed name exactly when the two are equivalent. */
  lemma EquivalentByForm(hostname: string, query: string, zoneName: string)
    requires InZone(hostname, zoneName) && Distinguishable(query, zoneName)
    ensures HostnamesEquivalent(hostname, query, zoneName)
       <==> Normalize(query) == Normalize(hostname) || Normalize(query) == RelativeVisibleHostname(hostname, zoneName)
  {
    hide Normalize, Clean, RelativeVisibleHostname, InZone;
    RelativeIsLabel(hostname, zoneName);
    var name, zone, q := Normalize(hostname), Normalize(zoneName), Normalize(query);
    if zone != "" && '.' !in q && q != "" && q != zone {
      assert Qualify(q, zone) == q + "." + zone;
      assert |q + "." + zone| > |zone|;
    }
  }

  lemma KeyIsEquivalence(v: VisibleRecord, hostname: string, answer: string, zoneName: string)
    requires InZone(v.hostname, zoneName) && Keys.BarFree(Normalize(hostname)) && Distinguishable(hostname, zoneName)
    ensures VisibleRecordKey(hostname, answer) in VisibleRecordKeys(v.hostname, v.answer, zoneName)
       <==> SameRecord(v, hostname, answer, zoneName)
  {
    var relative := RelativeVisibleHostname(v.hostname, zoneName);
    assert Keys.BarFree(Normalize(v.hostname));
    NameKeyFaithful(hostname, answer, v.hostname, v.answer);
    RelativeIsLabel(v.hostname, zoneName);
    EquivalentByForm(v.hostname, hostname, zoneName);
    hide Normalize, Clean, RelativeVisibleHostname, HostnamesEquivalent, VisibleRecordKey;
    if relative != Normalize(v.hostname) {
      assert Keys.BarFree(Normalize(relative)) by { PrefixIsBarFree(relative, Normalize(v.hostname)); }
      NameKeyFaithful(hostname, answer, relative, v.answer);
    }
  }

  lemma PrefixIsBarFree(s: string, t: string)
    requires s <= t && Keys.BarFree(t)
    ensures Keys.BarFree(s)
  {
    assert forall i :: 0 <= i < |s| ==> s[i] == t[i];
    assert forall i :: 0 <= i < |s| ==> t[i] in t;
  }

  lemma {:induction false} PutIs(cache: Cache, keys: seq<string>, id: string)
    ensures forall k ::
      (if k in Put(cache, keys, id) then Some(Put(cache, keys, id)[k]) else None)
      == if k in keys then Some(id) else if k in cache then Some(cache[k]) else None
  {
    if keys != [] {
      var n := |keys| - 1;
      PutIs(cache, keys[..n], id);
      assert keys == keys[..n] + [keys[n]];
      forall k ensures (if k in Put(cache, keys, id) then Some(Put(cache, keys, id)[k]) else None)
          == if k in keys then Some(id) else if k in cache then Some(cache[k]) else None
      {
        var before := Put(cache, keys[..n], id);
        assert (if k in before then Some(before[k]) else None)
            == if k in keys[..n] then Some(id) else if k in cache then Some(cache[k]) else None;
      }
    }
  }

  /** The cache gives for every hostname and answer what a scan of the listing gives. */
  lemma {:induction false} CacheIsScan(listed: seq<VisibleRecord>, zoneName: string, hostname: string, answer: string)
    requires AllInZone(listed, zoneName)
    requires Keys.BarFree(Normalize(hostname)) && Distinguishable(hostname, zoneName)
    ensures LookupVisibleRecord(CacheOf(listed, zoneName), hostname, answer)
         == LastSameRecord(listed, hostname, answer, zoneName)
  {
    hide VisibleRecordKey, VisibleRecordKeys, SameRecord, InZone, Distinguishable, Put;
    if listed != [] {
      var n := |listed| - 1;
      var v := listed[n];
      CacheIsScan(listed[..n], zoneName, hostname, answer);
      KeyIsEquivalence(v, hostname, answer, zoneName);
      PutIs(CacheOf(listed[..n], zoneName), VisibleRecordKeys(v.hostname, v.answer, zoneName), IdOf(v));
    }
  }

  /** Records whose short form is the zone itself: `local.local` in the zone `local`. */
  function Doubled(ref: ProviderRef, zone: string): VisibleRecord {
    VisibleRecord(ref, zone + "." + zone, "", Some(RecordProvenance("id")))
  }

  lemma DoubledIsPlain(zone: string)
    requires zone != "" && Plain(zone) && Keys.BarFree(zone)
    ensures Normalize(zone) == zone && Normalize(zone + "." + zone) == zone + "." + zone
    ensures Clean(zone + "." + zone)
  {
    var name := zone + "." + zone;
    assert name[|name| - 1] == zone[|zone| - 1];
    PlainIsFixed(name);
    PlainIsFixed(zone);
  }

  lemma DoubledForm(zone: string)
    requires zone != "" && Plain(zone) && Keys.BarFree(zone) && '.' !in zone
    ensures InZone(zone + "." + zone, zone)
    ensures RelativeVisibleHostname(zone + "." + zone, zone) == zone != zone + "." + zone
    ensures !HostnamesEquivalent(zone + "." + zone, zone, zone)
  {
    DoubledIsPlain(zone);
    DoubledSplits(zone);
    hide Normalize, Clean, TrimSuffix, HasSuffix, Plain;
  }

  lemma DoubledSplits(zone: string)
    requires zone != ""
    ensures var name, suffix := zone + "." + zone, "." + zone;
      HasSuffix(name, suffix) && TrimSuffix(name, suffix) == zone != name && '.' in name
  {
    var name, suffix := zone + "." + zone, "." + zone;
    assert name[|name| - |suffix|..] == suffix;
    assert |name| != |zone|;
    assert name[|zone|] == '.';
  }

  lemma DoubledShadows(ref: ProviderRef, zone: string)
    requires zone != "" && Plain(zone) && Keys.BarFree(zone) && '.' !in zone
    ensures InZone(Doubled(ref, zone).hostname, zone)
    ensures LookupVisibleRecord(CacheOf([Doubled(ref, zone)], zone), zone, "") == Some("id")
    ensures LastSameRecord([Doubled(ref, zone)], zone, "", zone) == None
  {
    DoubledForm(zone);
    DoubledIsPlain(zone);
    hide Normalize, Clean, RelativeVisibleHostname, HostnamesEquivalent, VisibleRecordKey, InZone;
    var v := Doubled(ref, zone);
    var keys := VisibleRecordKeys(v.hostname, "", zone);
    assert keys[1] == VisibleRecordKey(zone, "");
    assert [v][..0] == [];
    PutIs(map[], keys, "id");
    hide Put;
    assert CacheOf([v][..0], zone) == map[];
  }

  ghost predicate CacheAgrees(hostname: string, zoneName: string) {
    forall listed, answer :: AllInZone(listed, zoneName) ==>
      LookupVisibleRecord(CacheOf(listed, zoneName), hostname, answer)
      == LastSameRecord(listed, hostname, answer, zoneName)
  }

  /** Cache and scan agree on every listing of the zone exactly when the hostname is not a zone of a single label. */
  lemma CacheAgreesExactly(hostname: string, zone: string)
    requires Plain(zone) && Keys.BarFree(zone) && Keys.BarFree(Normalize(hostname))
    ensures CacheAgrees(hostname, zone) <==> Distinguishable(hostname, zone)
  {
    hide Plain, Distinguishable, LookupVisibleRecord, LastSameRecord, CacheOf, InZone;
    if Distinguishable(hostname, zone) {
      forall listed, answer | AllInZone(listed, zone)
        ensures LookupVisibleRecord(CacheOf(listed, zone), hostname, answer)
             == LastSameRecord(listed, hostname, answer, zone)
      {
        CacheIsScan(listed, zone, hostname, answer);
      }
    } else {
      OtherwiseDisagrees(hostname, zone);
    }
  }

  lemma OtherwiseDisagrees(hostname: string, zone: string)
    requires Plain(zone) && Keys.BarFree(zone) && !Distinguishable(hostname, zone)
    ensures !CacheAgrees(hostname, zone)
  {
    PlainIsFixed(zone);
    var v := Doubled(ProviderRef("", ""), zone);
    DoubledShadows(ProviderRef("", ""), zone);
    SameQuery(hostname, zone, [v], zone);
    hide Normalize, InZone, LookupVisibleRecord, LastSameRecord, CacheOf;
    assert AllInZone([v], zone);
    assert LookupVisibleRecord(CacheOf([v], zone), hostname, "") != LastSameRecord([v], hostname, "", zone);
  }

  /** Only the normalised form of the hostname asked for matters. */
  lemma {:induction false} SameQuery(h: string, g: string, listed: seq<VisibleRecord>, zoneName: string)
    requires Normalize(h) == Normalize(g)
    ensures forall cache, answer :: LookupVisibleRecord(cache, h, answer) == LookupVisibleRecord(cache, g, answer)
    ensures forall answer :: LastSameRecord(listed, h, answer, zoneName) == LastSameRecord(listed, g, answer, zoneName)
  {
    hide Normalize;
    if listed != [] {
      SameQuery(h, g, listed[..|listed| - 1], zoneName);
    }
  }

  // ---- Names the service can store ----------------------------------------------------------------------

  predicate LiesInZone(name: string, zone: string) {
    name == zone || HasSuffix(name, "." + zone)
  }

  /** How the service completes a name: a name outside the zone is taken to be relative to it. */
  function FullName(name: string, zone: string): string {
    if LiesInZone(name, zone) then name else name + "." + zone
  }

  /** A single label, or a name inside the zone. */
  predicate Addressable(name: string, zone: string) {
    name != "" && zone != "" && ('.' !in name || LiesInZone(name, zone))
  }

  lemma NormalIsTrimmed(s: string)
    requires Normalize(s) == s && s != ""
    ensures !IsSpace(s[0]) && ToLower(s) == s
  {
    var lower := ToLower(s);
    var left := TrimLeft(lower);
    assert s <= left;
    NormalizedIsLower(s);
    assert forall i :: 0 <= i < |s| ==> s[i] in s;
  }

  lemma NormalJoined(name: string, zone: string)
    requires Normalize(name) == name && name != "" && Plain(zone) && zone != ""
    ensures Normalize(name + "." + zone) == name + "." + zone
  {
    NormalIsTrimmed(name);
    var full := name + "." + zone;
    assert forall i :: 0 <= i < |zone| ==> zone[i] in zone;
    assert ToLower(full) == full;
    assert full[0] == name[0] && full[|full| - 1] == zone[|zone| - 1];
    assert TrimLeft(full) == full && TrimRight(full) == full;
  }

  /** The full name is equivalent to the name exactly when the name is a single label or lies in the zone: a dotted name
      from outside comes back as another name. */
  lemma FullNameIsEquivalent(name: string, zone: string)
    requires Normalize(name) == name && name != "" && Plain(zone) && zone != ""
    ensures HostnamesEquivalent(Normalize(FullName(name, zone)), name, zone) <==> Addressable(name, zone)
  {
    PlainIsFixed(zone);
    NormalJoined(name, zone);
    hide Normalize, Plain;
    if !LiesInZone(name, zone) {
      var full := name + "." + zone;
      assert full[|name|] == '.';
      assert |full| > |name|;
    }
  }
}
