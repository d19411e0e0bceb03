/** The normalised, `|`-joined keys that every index of the planner is built on. */
module Keys {
  import opened Text
  import opened Records

  function NormalizeHostname(hostname: string): string {
    FoldName(hostname)
  }

  function RecordKey(hostname: string, answer: string): string {
    NormalizeHostname(hostname) + "|" + Fold(answer)
  }

  /** Both lineage keys: `identity` is the source object's id, or its display name. */
  function LineageKey(output: ProviderRef, source: ProviderRef, identity: string, hostname: string): string {
    Fold(output.typ) + "|" + (Fold(output.name) + "|" +
    (Fold(source.typ) + "|" + (Fold(source.name) + "|" + (Fold(identity) + "|" + NormalizeHostname(hostname)))))
  }

  function DesiredLineage(output: ProviderRef, d: DesiredRecord): string {
    LineageKey(output, d.source.provider, d.source.id, d.hostname)
  }

  function ManagedLineage(m: ManagedRecord): string {
    LineageKey(m.output, m.source.provider, m.source.id, m.hostname)
  }

  function DisplayLineage(output: ProviderRef, source: SourceObjectRef, hostname: string): string {
    LineageKey(output, source.provider, source.displayName, hostname)
  }

  /** No field that is joined in front of a separator contains one. */
  predicate BarFree(s: string) {
    '|' !in s
  }

  predicate BarFreeRef(p: ProviderRef) {
    BarFree(p.typ) && BarFree(p.name)
  }

  predicate BarFreeSource(s: SourceObjectRef) {
    BarFreeRef(s.provider) && BarFree(s.id) && BarFree(s.displayName)
  }

  /** Splitting at the first separator undoes the join. */
  lemma JoinInjective(a: string, x: string, b: string, y: string)
    requires BarFree(a) && BarFree(b)
    ensures a + "|" + x == b + "|" + y <==> a == b && x == y
  {
    var s, t := a + "|" + x, b + "|" + y;
    assert s[|a|] == '|' && t[|b|] == '|';
    assert |a| < |b| ==> t[|a|] == b[|a|] && b[|a|] in b;
    assert |b| < |a| ==> s[|b|] == a[|b|] && a[|b|] in a;
    if s == t {
      assert a == s[..|a|] == t[..|b|] == b;
      assert x == s[|a| + 1..] == t[|b| + 1..] == y;
    }
  }

  /** A record key is equal exactly when hostname and answer are, up to normalisation. */
  lemma RecordKeyFaithful(h1: string, a1: string, h2: string, a2: string)
    requires BarFree(h1) && BarFree(h2)
    ensures RecordKey(h1, a1) == RecordKey(h2, a2)
       <==> NormalizeHostname(h1) == NormalizeHostname(h2) && Fold(a1) == Fold(a2)
  {
    FoldKeepsBarFree(h1);
    FoldKeepsBarFree(h2);
    JoinInjective(NormalizeHostname(h1), Fold(a1), NormalizeHostname(h2), Fold(a2));
  }

  /** A lineage key is equal exactly when all six components are, up to normalisation. */
  lemma LineageKeyFaithful(
    o1: ProviderRef, s1: ProviderRef, i1: string, h1: string,
    o2: ProviderRef, s2: ProviderRef, i2: string, h2: string)
    requires BarFreeRef(o1) && BarFreeRef(s1) && BarFree(i1)
    requires BarFreeRef(o2) && BarFreeRef(s2) && BarFree(i2)
    ensures LineageKey(o1, s1, i1, h1) == LineageKey(o2, s2, i2, h2)
       <==> && Fold(o1.typ) == Fold(o2.typ) && Fold(o1.name) == Fold(o2.name)
            && Fold(s1.typ) == Fold(s2.typ) && Fold(s1.name) == Fold(s2.name)
            && Fold(i1) == Fold(i2) && NormalizeHostname(h1) == NormalizeHostname(h2)
  {
    FoldKeepsBarFree(o1.typ); FoldKeepsBarFree(o1.name); FoldKeepsBarFree(s1.typ);
    FoldKeepsBarFree(s1.name); FoldKeepsBarFree(i1);
    FoldKeepsBarFree(o2.typ); FoldKeepsBarFree(o2.name); FoldKeepsBarFree(s2.typ);
    FoldKeepsBarFree(s2.name); FoldKeepsBarFree(i2);
    var e1, e2 := Fold(i1) + "|" + NormalizeHostname(h1), Fold(i2) + "|" + NormalizeHostname(h2);
    var d1, d2 := Fold(s1.name) + "|" + e1, Fold(s2.name) + "|" + e2;
    var c1, c2 := Fold(s1.typ) + "|" + d1, Fold(s2.typ) + "|" + d2;
    var b1, b2 := Fold(o1.name) + "|" + c1, Fold(o2.name) + "|" + c2;
    JoinInjective(Fold(i1), NormalizeHostname(h1), Fold(i2), NormalizeHostname(h2));
    JoinInjective(Fold(s1.name), e1, Fold(s2.name), e2);
    JoinInjective(Fold(s1.typ), d1, Fold(s2.typ), d2);
    JoinInjective(Fold(o1.name), c1, Fold(o2.name), c2);
    JoinInjective(Fold(o1.typ), b1, Fold(o2.typ), b2);
  }

  /** Without the hypothesis the keys do collide: a separator inside an object id. */
  lemma LineageKeyCollides()
    ensures var p := ProviderRef("docker", "a");
            LineageKey(p, p, "x|y", "z") == LineageKey(p, p, "x", "y|z")
  {
    assert "x" + "|" + "y" == "x|y" && "y" + "|" + "z" == "y|z";
    Collide("x", "y", "z");
  }

  lemma Collide(x: string, y: string, z: string)
    requires Plain(x) && Plain(y) && Plain(z) && x != "" && y != "" && z != ""
    ensures var p := ProviderRef("docker", "a");
            LineageKey(p, p, x + "|" + y, z) == LineageKey(p, p, x, y + "|" + z)
  {
    JoinedIsPlain(x, y);
    JoinedIsPlain(y, z);
    hide Fold, FoldName, Plain;
    PlainIsFixed(z);
    PlainIsFixed(y + "|" + z);
    PlainIsFixed(x);
    PlainIsFixed(x + "|" + y);
    assert (x + "|" + y) + "|" + z == x + "|" + (y + "|" + z);
  }

  lemma JoinedIsPlain(x: string, y: string)
    requires Plain(x) && Plain(y) && y != ""
    ensures Plain(x + "|" + y)
  {
    var joined := x + "|" + y;
    assert joined[|joined| - 1] == y[|y| - 1];
  }

  /** One trailing dot goes, not all of them, so normalising twice can differ from normalising once. */
  lemma NormalizeIsNotIdempotent()
    ensures NormalizeHostname(NormalizeHostname("a..")) != NormalizeHostname("a..")
  {
    assert ToLower("a..") == "a.." && ToLower("a.") == "a.";
    assert NormalizeHostname("a..") == "a." && NormalizeHostname("a.") == "a";
  }

  /** Normalising twice is normalising once exactly for the hostnames whose normal form ends in no dot and no space. */
  lemma NormalizeTwiceExactly(hostname: string)
    ensures NormalizeHostname(NormalizeHostname(hostname)) == NormalizeHostname(hostname)
       <==> CleanEnd(NormalizeHostname(hostname))
  {
    hide FoldName;
    FoldNameTwice(hostname);
  }
}
