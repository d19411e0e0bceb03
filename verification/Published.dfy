/** What a container publishes, read off its labels. */
module Published {
  import opened Text
  import opened Records
  import opened Seqs
  import opened Labels
  import opened Derivation
  import Keys
  import Cloudflare

  // ---- Labels --------------------------------------------------------------------------------------------------

  predicate IsSet(labels: LabelMap, key: string) {
    key in labels && TrimSpace(labels[key]) != ""
  }

  /** The own, the indexed or the wildcard port label of part `i` is set. */
  predicate HasPortLabel(labels: LabelMap, name: string, i: nat) {
    || IsSet(labels, "proxy." + name + ".port")
    || IsSet(labels, "proxy.#" + Itoa(i + 1) + ".port")
    || IsSet(labels, "proxy.*.port")
  }

  /** Part `i` of `proxy.aliases` is the name, and has a port. */
  predicate IsPart(labels: LabelMap, i: nat, name: string) {
    i < |Parts(labels)| && NormalizeName(Parts(labels)[i]) == name && name != "" && HasPortLabel(labels, name, i)
  }

  /** The name as it stands in a label key: one part, neither the wildcard nor an index. */
  predicate IsPlainName(x: string) {
    x != "" && '.' !in x && x != "*" && x[0] != '#'
  }

  ghost predicate HasOwnPort(labels: LabelMap, name: string) {
    exists x :: IsPlainName(x) && NormalizeName(x) == name && IsSet(labels, "proxy." + x + ".port")
  }

  ghost predicate IsAliased(labels: LabelMap, name: string) {
    (exists i :: IsPart(labels, i, name)) || HasOwnPort(labels, name)
  }

  /** The alias is named by the first part with its name, or by a port label alone. */
  ghost predicate IsAlias(labels: LabelMap, a: Alias) {
    if a.position > 0 then
      IsPart(labels, a.position - 1, a.name) && forall j :: 0 <= j < a.position - 1 ==> !IsPart(labels, j, a.name)
    else
      HasOwnPort(labels, a.name) && forall j :: !IsPart(labels, j, a.name)
  }

  /** Parts come first, in their order, then the other names, ascending. */
  predicate ComesBefore(a: Alias, b: Alias) {
    if a.position > 0 then b.position == 0 || a.position < b.position else b.position == 0 && Less(a.name, b.name)
  }

  // ---- Keys of named ports ---------------------------------------------------------------------------------------

  lemma {:induction false} FirstSeparator(a: string, rest: string, sep: char)
    requires sep !in a
    ensures Labels.IndexOf(a + [sep] + rest, sep) == |a|
  {
    if a != "" {
      assert (a + [sep] + rest)[1..] == a[1..] + [sep] + rest;
      FirstSeparator(a[1..], rest, sep);
    }
  }

  lemma SplitFirst(a: string, rest: string, sep: char)
    requires sep !in a
    ensures Split(a + [sep] + rest, sep) == [a] + Split(rest, sep)
  {
    var s := a + [sep] + rest;
    assert s[|a|] == sep;
    FirstSeparator(a, rest, sep);
    assert s[..|a|] == a && s[|a| + 1..] == rest;
  }

  lemma SplitNone(a: string, sep: char)
    requires sep !in a
    ensures Split(a, sep) == [a]
  {
  }

  lemma NamedKeySplits(x: string)
    requires '.' !in x
    ensures Split("proxy." + x + ".port", '.') == ["proxy", x, "port"]
  {
    hide Split;
    assert "proxy." + x + ".port" == "proxy" + ['.'] + (x + ['.'] + "port");
    SplitFirst("proxy", x + ['.'] + "port", '.');
    SplitFirst(x, "port", '.');
    SplitNone("port", '.');
  }

  lemma ThreeJoined(parts: seq<string>)
    requires |parts| == 3 && parts[0] == "proxy" && parts[2] == "port"
    ensures Join(parts, '.') == "proxy." + parts[1] + ".port"
  {
    assert Join(parts[1..][1..], '.') == "port";
    assert Join(parts[1..], '.') == parts[1] + ['.'] + "port";
    assert Join(parts, '.') == "proxy" + ['.'] + (parts[1] + ['.'] + "port");
  }

  /** The keys that name an alias are `proxy.`, a plain name and `.port`. */
  lemma NamedPortExactly(key: string, name: string)
    ensures SupportedNamedPortAlias(key) == Some(name)
       <==> exists x :: IsPlainName(x) && NormalizeName(x) == name && key == "proxy." + x + ".port"
  {
    hide Split, NormalizeName, Join;
    if SupportedNamedPortAlias(key) == Some(name) {
      var parts := Split(key, '.');
      SplitThenJoin(key, '.');
      ThreeJoined(parts);
      assert parts[1] in parts;
      assert IsPlainName(parts[1]) && key == "proxy." + parts[1] + ".port";
    }
    if x :| IsPlainName(x) && NormalizeName(x) == name && key == "proxy." + x + ".port" {
      NamedKeySplits(x);
      assert "proxy." <= key;
    }
  }

  lemma NamedByPort(labels: LabelMap, name: string)
    ensures IsNamed(labels, name) <==> HasOwnPort(labels, name)
  {
    hide SupportedNamedPortAlias, NormalizeName, TrimSpace, IsPlainName;
    if IsNamed(labels, name) {
      var key :| NamesPort(labels, key, name);
      NamedPortExactly(key, name);
    }
    if HasOwnPort(labels, name) {
      var x :| IsPlainName(x) && NormalizeName(x) == name && IsSet(labels, "proxy." + x + ".port");
      NamedPortExactly("proxy." + x + ".port", name);
      assert NamesPort(labels, "proxy." + x + ".port", name);
    }
  }

  lemma PortsAreSet(labels: LabelMap, key: string)
    ensures HasPort(labels, key) <==> IsSet(labels, key)
  {
    assert TrimLeft("") == "";
  }

  lemma ExplicitIsPart(labels: LabelMap, i: nat)
    requires i < |Parts(labels)|
    ensures IsExplicit(labels, i) <==> IsPart(labels, i, NormalizeName(Parts(labels)[i]))
  {
    hide NormalizeName, HasPort, IsSet, Itoa, Split;
    var name := NormalizeName(Parts(labels)[i]);
    PortsAreSet(labels, "proxy." + name + ".port");
    PortsAreSet(labels, "proxy.#" + Itoa(i + 1) + ".port");
    PortsAreSet(labels, "proxy.*.port");
  }

  // ---- Aliases -----------------------------------------------------------------------------------------------------

  /** The alias is the first part with its name, among the first `n`. */
  ghost predicate IsPartAlias(labels: LabelMap, a: Alias, n: nat) {
    0 < a.position <= n && IsPart(labels, a.position - 1, a.name)
    && forall j :: 0 <= j < a.position - 1 ==> !IsPart(labels, j, a.name)
  }

  predicate InPosition(aliases: seq<Alias>) {
    forall i, j :: 0 <= i < j < |aliases| ==> aliases[i].position < aliases[j].position
  }

  lemma {:induction false} ExplicitExactly(labels: LabelMap, n: nat)
    requires n <= |Parts(labels)|
    ensures forall a :: a in ExplicitAliases(labels, n) <==> IsPartAlias(labels, a, n)
    ensures forall name :: Mentions(ExplicitAliases(labels, n), name) <==> exists i :: 0 <= i < n && IsPart(labels, i, name)
    ensures InPosition(ExplicitAliases(labels, n))
  {
    hide IsExplicit, Parts, NormalizeName, HasPortLabel, Mentions;
    if n > 0 {
      ExplicitExactly(labels, n - 1);
      ExplicitNext(labels, n - 1, ExplicitAliases(labels, n - 1));
    } else {
      NoneMentioned();
    }
  }

  lemma NoneMentioned()
    ensures forall name :: !Mentions([], name)
  {
  }

  lemma ExplicitNext(labels: LabelMap, m: nat, rest: seq<Alias>)
    requires m < |Parts(labels)| && rest == ExplicitAliases(labels, m)
    requires forall a :: a in rest <==> IsPartAlias(labels, a, m)
    requires forall name :: Mentions(rest, name) <==> exists i :: 0 <= i < m && IsPart(labels, i, name)
    requires InPosition(rest)
    ensures var found, n := ExplicitAliases(labels, m + 1), m + 1;
      && (forall a :: a in found <==> IsPartAlias(labels, a, n))
      && (forall name :: Mentions(found, name) <==> exists i :: 0 <= i < n && IsPart(labels, i, name))
      && InPosition(found)
  {
    hide IsExplicit, Parts, NormalizeName, IsPart, Mentions, IsPartAlias;
    var n := m + 1;
    forall a ensures a in ExplicitAliases(labels, n) <==> IsPartAlias(labels, a, n) {
      ExplicitMember(labels, m, rest, a);
    }
    forall x ensures Mentions(ExplicitAliases(labels, n), x) <==> exists i :: 0 <= i < n && IsPart(labels, i, x) {
      ExplicitMention(labels, m, rest, x);
    }
    forall i | 0 <= i < |rest| ensures rest[i].position <= m {
      assert rest[i] in rest;
      PositionOf(labels, rest[i], m);
    }
  }

  lemma PositionOf(labels: LabelMap, a: Alias, n: nat)
    requires IsPartAlias(labels, a, n)
    ensures 0 < a.position <= n
  {
    hide IsPart;
  }

  lemma ExplicitMember(labels: LabelMap, m: nat, rest: seq<Alias>, a: Alias)
    requires m < |Parts(labels)| && rest == ExplicitAliases(labels, m)
    requires forall a :: a in rest <==> IsPartAlias(labels, a, m)
    requires forall name :: Mentions(rest, name) <==> exists i :: 0 <= i < m && IsPart(labels, i, name)
    ensures a in ExplicitAliases(labels, m + 1) <==> IsPartAlias(labels, a, m + 1)
  {
    hide IsExplicit, Parts, NormalizeName, IsPart, Mentions;
    var name := NormalizeName(Parts(labels)[m]);
    ExplicitIsPart(labels, m);
    PartHasName(labels, m, a.name);
    if a.position == m + 1 {
      assert IsPart(labels, m, a.name) ==> a == Alias(name, m + 1);
    }
  }

  lemma ExplicitMention(labels: LabelMap, m: nat, rest: seq<Alias>, x: string)
    requires m < |Parts(labels)| && rest == ExplicitAliases(labels, m)
    requires forall a :: a in rest <==> IsPartAlias(labels, a, m)
    requires forall name :: Mentions(rest, name) <==> exists i :: 0 <= i < m && IsPart(labels, i, name)
    ensures Mentions(ExplicitAliases(labels, m + 1), x) <==> exists i :: 0 <= i < m + 1 && IsPart(labels, i, x)
  {
    hide IsExplicit, Parts, NormalizeName, IsPart, Mentions, IsPartAlias;
    var name, n := NormalizeName(Parts(labels)[m]), m + 1;
    ExplicitIsPart(labels, m);
    PartHasName(labels, m, x);
    MentionsOneMore(rest, Alias(name, n));
    assert IsPart(labels, m, x) ==> x == name;
  }

  lemma PartHasName(labels: LabelMap, i: nat, x: string)
    requires i < |Parts(labels)|
    ensures IsPart(labels, i, x) ==> x == NormalizeName(Parts(labels)[i])
  {
    hide Parts, NormalizeName, HasPortLabel;
  }

  lemma PartsEnd(labels: LabelMap, i: nat, name: string)
    requires IsPart(labels, i, name)
    ensures i < |Parts(labels)|
  {
    hide Parts, NormalizeName, HasPortLabel;
  }

  /** A wildcard or indexed port is set. */
  ghost predicate HasBroadPort(labels: LabelMap) {
    exists key :: IsSet(labels, key) && ("proxy.*." <= key || "proxy.#" <= key) && HasSuffix(key, ".port")
  }

  /** The aliases of a container, on its labels: if anything is aliased, exactly the aliases that are named, in order; and
      otherwise its own name, if it has one and a wildcard or indexed port is set. */
  lemma AliasesExactly(c: Container, aliases: seq<Alias>)
    requires AreAliases(c, aliases)
    ensures (exists name :: IsAliased(c.labels, name)) ==> forall a :: a in aliases <==> IsAlias(c.labels, a)
    ensures (forall name :: !IsAliased(c.labels, name)) ==>
      aliases == if HasBroadPort(c.labels) && NormalizeName(DisplayName(c)) != "" then [Alias(NormalizeName(DisplayName(c)), 0)]
                 else []
    ensures forall i, j :: 0 <= i < j < |aliases| ==> ComesBefore(aliases[i], aliases[j])
  {
    hide NormalizeName, DisplayName, Parts, IsPart, IsExplicit, IsNamed, HasOwnPort, Less, HasBroadPort,
         HasWildcardOrIndexedPort, Mentions, InPosition, IsPartAlias;
    var labels := c.labels;
    var n := |Parts(labels)|;
    var explicit := ExplicitAliases(labels, n);
    var names :| IsDiscovered(labels, explicit, names)
      && aliases == if explicit + Unpositioned(names) != [] then explicit + Unpositioned(names) else Fallback(c);
    ExplicitExactly(labels, n);
    BroadExactly(labels);
    var found := explicit + Unpositioned(names);
    forall a ensures a in found <==> IsAlias(labels, a) {
      FoundExactly(labels, explicit, names, a);
    }
    FoundInOrder(labels, explicit, names);
    forall name ensures IsAliased(labels, name) ==> found != [] {
      AliasedIsFound(labels, found, name);
    }
    if found != [] {
      assert found[0] in found;
      AliasIsAliased(labels, found[0]);
    }
  }

  lemma FoundInOrder(labels: LabelMap, explicit: seq<Alias>, names: seq<string>)
    requires forall x :: x in explicit <==> IsPartAlias(labels, x, |Parts(labels)|)
    requires InPosition(explicit)
    requires Ascending(names, Identity())
    ensures var found := explicit + Unpositioned(names);
      forall i, j :: 0 <= i < j < |found| ==> ComesBefore(found[i], found[j])
  {
    hide IsPart, Parts, Less;
    forall i | 0 <= i < |explicit| ensures explicit[i].position > 0 {
      assert explicit[i] in explicit;
    }
    forall i, j | 0 <= i < j < |names| ensures Less(names[i], names[j]) {
      assert Less(Identity()(names[i]), Identity()(names[j]));
    }
  }

  lemma AliasIsAliased(labels: LabelMap, a: Alias)
    requires IsAlias(labels, a)
    ensures IsAliased(labels, a.name)
  {
    hide IsPart, HasOwnPort;
  }

  lemma AliasedIsFound(labels: LabelMap, found: seq<Alias>, name: string)
    requires forall a :: a in found <==> IsAlias(labels, a)
    ensures IsAliased(labels, name) ==> found != []
  {
    hide IsPart, HasOwnPort;
    if i :| IsPart(labels, i, name) {
      var first := FirstPart(labels, i, name);
      assert Alias(name, first + 1) in found;
    } else if HasOwnPort(labels, name) {
      assert Alias(name, 0) in found;
    }
  }

  lemma {:induction false} FirstPart(labels: LabelMap, i: nat, name: string) returns (first: nat)
    requires IsPart(labels, i, name)
    ensures IsPart(labels, first, name) && forall j :: 0 <= j < first ==> !IsPart(labels, j, name)
    decreases i
  {
    hide IsPart;
    first := i;
    if j :| 0 <= j < i && IsPart(labels, j, name) {
      first := FirstPart(labels, j, name);
    }
  }

  lemma FoundExactly(labels: LabelMap, explicit: seq<Alias>, names: seq<string>, a: Alias)
    requires IsDiscovered(labels, explicit, names)
    requires forall x :: x in explicit <==> IsPartAlias(labels, x, |Parts(labels)|)
    requires forall name ::
      Mentions(explicit, name) <==> exists i :: 0 <= i < |Parts(labels)| && IsPart(labels, i, name)
    ensures a in explicit + Unpositioned(names) <==> IsAlias(labels, a)
  {
    hide IsPart, Parts, IsNamed, HasOwnPort, Mentions, Less;
    NamedByPort(labels, a.name);
    if a.position > 0 {
      if IsPart(labels, a.position - 1, a.name) {
        PartsEnd(labels, a.position - 1, a.name);
      }
    } else {
      if i :| IsPart(labels, i, a.name) {
        PartsEnd(labels, i, a.name);
      }
      if k :| 0 <= k < |names| && names[k] == a.name {
        assert Unpositioned(names)[k] == a;
      }
    }
  }

  lemma BroadExactly(labels: LabelMap)
    ensures HasWildcardOrIndexedPort(labels) <==> HasBroadPort(labels)
  {
    hide TrimSpace, HasSuffix;
    if HasWildcardOrIndexedPort(labels) {
      var key :| key in labels && IsWildcardOrIndexed(key) && TrimSpace(labels[key]) != "";
      assert IsSet(labels, key);
    }
  }

  // ---- Records -----------------------------------------------------------------------------------------------------

  /** The labels that can set the target of the alias, most specific first. */
  function TargetKeys(a: Alias): seq<string> {
    ["proxy." + a.name + ".host"]
    + (if a.position > 0 then ["proxy.#" + Itoa(a.position) + ".host"] else [])
    + ["proxy.*.host"]
  }

  function TargetIn(labels: LabelMap, key: string): string {
    NormalizeAnswerTarget(if key in labels then labels[key] else "")
  }

  /** The target is that of the first label that sets one, else the source's default; it is not empty. */
  ghost predicate IsTarget(settings: Settings, labels: LabelMap, a: Alias, target: string) {
    var keys := TargetKeys(a);
    target != "" &&
    ((exists k :: && 0 <= k < |keys| && TargetIn(labels, keys[k]) == target
                  && forall j :: 0 <= j < k ==> TargetIn(labels, keys[j]) == "")
     || ((forall k :: 0 <= k < |keys| ==> TargetIn(labels, keys[k]) == "")
         && target == NormalizeAnswerTarget(settings.defaultTarget)))
  }

  /** A dotted name, the base domain itself, and every name without a base domain stand for themselves; any other name gets
      the base domain. */
  ghost predicate IsHostname(settings: Settings, a: Alias, hostname: string) {
    var name, base := NormalizeName(a.name), NormalizeName(settings.baseDomain);
    && name != ""
    && hostname == if '.' in name || base == "" || name == base then name else name + "." + base
  }

  /** The first of the container's names that is not blank without its slash, else its identifier. */
  ghost predicate IsDisplayName(c: Container, name: string) {
    || (exists i :: && 0 <= i < |c.names| && name == BareName(c.names[i]) && name != ""
                    && forall j :: 0 <= j < i ==> BareName(c.names[j]) == "")
    || (name == TrimSpace(c.id) && forall j :: 0 <= j < |c.names| ==> BareName(c.names[j]) == "")
  }

  function BareName(name: string): string {
    TrimSpace(if name != "" && name[0] == '/' then name[1..] else name)
  }

  /** `proxy.dns` names an output type, unless it says yes. */
  function OutputTypeIn(labels: LabelMap): string {
    var value := Fold(Get(labels, "proxy.dns"));
    if value == "true" then "" else value
  }

  ghost predicate IsRecord(settings: Settings, c: Container, a: Alias, d: DesiredRecord) {
    && IsHostname(settings, a, d.hostname)
    && (exists target :: IsTarget(settings, c.labels, a, target) && d.answer == NormalizeAnswerTarget(target))
    && d.source.provider == settings.ref && d.source.id == TrimSpace(c.id) && IsDisplayName(c, d.source.displayName)
    && d.output == OutputTypeIn(c.labels)
  }

  lemma {:induction false} DisplayNameExactly(names: seq<string>, otherwise: string)
    ensures var name := FirstName(names, otherwise);
      || (exists i :: && 0 <= i < |names| && name == BareName(names[i]) && name != ""
                      && forall j :: 0 <= j < i ==> BareName(names[j]) == "")
      || (name == otherwise && forall j :: 0 <= j < |names| ==> BareName(names[j]) == "")
  {
    hide TrimSpace;
    if names != [] {
      BareIsTrimmed(names[0]);
      if BareName(names[0]) == "" {
        DisplayNameExactly(names[1..], otherwise);
        if i :| && 0 <= i < |names[1..]| && FirstName(names, otherwise) == BareName(names[1..][i]) != ""
                && forall j :: 0 <= j < i ==> BareName(names[1..][j]) == "" {
          var n := i + 1;
          assert forall j :: 0 < j < n ==> names[j] == names[1..][j - 1];
          assert names[n] == names[1..][i];
        } else {
          assert forall j :: 0 < j < |names| ==> names[j] == names[1..][j - 1];
        }
      }
    }
  }

  lemma BareIsTrimmed(name: string)
    ensures BareName(name) == TrimSpace(TrimPrefix(name, "/"))
  {
    hide TrimSpace;
  }

  lemma OneDisplayName(c: Container, a: string, b: string)
    requires IsDisplayName(c, a) && IsDisplayName(c, b)
    ensures a == b
  {
    hide BareName, TrimSpace;
  }

  lemma HostnameExactly(settings: Settings, a: Alias, hostname: string)
    ensures IsHostname(settings, a, hostname) <==> QualifyHostname(a.name, settings.baseDomain) == hostname && hostname != ""
  {
    hide NormalizeName;
    var name, base := NormalizeName(a.name), NormalizeName(settings.baseDomain);
    if HasSuffix(name, "." + base) {
      assert name[|name| - |base| - 1] == '.';
    }
  }

  lemma TargetExactly(settings: Settings, labels: LabelMap, a: Alias, target: string)
    ensures IsTarget(settings, labels, a, target) <==>
      var explicit := ExplicitHostOverride(labels, a.name, a.position);
      target != "" && target == if explicit != "" then explicit else NormalizeAnswerTarget(settings.defaultTarget)
  {
    hide NormalizeAnswerTarget, Itoa;
    var keys := TargetKeys(a);
    assert keys[0] == "proxy." + a.name + ".host" && keys[|keys| - 1] == "proxy.*.host";
    assert a.position > 0 ==> |keys| == 3 && keys[1] == "proxy.#" + Itoa(a.position) + ".host";
    var own, last := TargetIn(labels, keys[0]), TargetIn(labels, keys[|keys| - 1]);
    if own == "" && a.position > 0 && TargetIn(labels, keys[1]) == "" {
      assert forall j :: 0 <= j < 2 ==> TargetIn(labels, keys[j]) == "";
    }
  }

  lemma RecordExactly(settings: Settings, c: Container, output: string, a: Alias, d: DesiredRecord)
    requires output == OutputTypeIn(c.labels)
    ensures RecordFor(settings, c, output, a) == Some(d) <==> IsRecord(settings, c, a, d)
  {
    hide QualifyHostname, ExplicitHostOverride, NormalizeAnswerTarget, IsHostname, IsTarget, OutputTypeIn, DisplayName,
         IsDisplayName, TrimSpace;
    var hostname := QualifyHostname(a.name, settings.baseDomain);
    var explicit := ExplicitHostOverride(c.labels, a.name, a.position);
    var target := if explicit != "" then explicit else NormalizeAnswerTarget(settings.defaultTarget);
    HostnameExactly(settings, a, d.hostname);
    forall t ensures IsTarget(settings, c.labels, a, t) <==> t != "" && t == target {
      TargetExactly(settings, c.labels, a, t);
    }
    DisplayNameIs(c);
    if IsDisplayName(c, d.source.displayName) {
      OneDisplayName(c, d.source.displayName, DisplayName(c));
    }
  }

  lemma DisplayNameIs(c: Container)
    ensures IsDisplayName(c, DisplayName(c))
  {
    hide TrimSpace, BareName;
    DisplayNameExactly(c.names, TrimSpace(c.id));
  }

  /** The alias has a hostname and a target. */
  ghost predicate Publishes(settings: Settings, c: Container, a: Alias) {
    exists d :: IsRecord(settings, c, a, d)
  }

  lemma {:induction false} RecordsExactly(settings: Settings, c: Container, output: string, aliases: seq<Alias>)
    requires output == OutputTypeIn(c.labels)
    ensures forall d :: d in RecordsFor(settings, c, output, aliases)
                   <==> exists a :: a in aliases && IsRecord(settings, c, a, d)
    ensures |RecordsFor(settings, c, output, aliases)| == |Filter(aliases, Publishing(settings, c))|
  {
    hide RecordFor, IsRecord;
    if aliases != [] {
      var n := |aliases| - 1;
      RecordsExactly(settings, c, output, aliases[..n]);
      forall d ensures RecordFor(settings, c, output, aliases[n]) == Some(d) <==> IsRecord(settings, c, aliases[n], d) {
        RecordExactly(settings, c, output, aliases[n], d);
      }
      var last := RecordFor(settings, c, output, aliases[n]);
      assert Publishing(settings, c)(aliases[n]) <==> last.Some? by {
        if last.Some? {
          assert IsRecord(settings, c, aliases[n], last.value);
        }
      }
      assert aliases == aliases[..n] + [aliases[n]];
    }
  }

  ghost function Publishing(settings: Settings, c: Container): Alias -> bool {
    (a: Alias) => Publishes(settings, c, a)
  }

  /** Nothing is published by a container that is excluded or switches DNS off; any other publishes one record for every
      alias with a hostname and a target, and no others. */
  lemma DerivedExactly(settings: Settings, c: Container, aliases: seq<Alias>, records: seq<DesiredRecord>)
    requires Derives(settings, c, records) && AreAliases(c, aliases)
    ensures Fold(Get(c.labels, "proxy.exclude")) == "true" || Fold(Get(c.labels, "proxy.dns")) == "false" ==> records == []
    ensures Fold(Get(c.labels, "proxy.exclude")) != "true" && Fold(Get(c.labels, "proxy.dns")) != "false" ==>
      && (forall d :: d in records <==> exists a :: a in aliases && IsRecord(settings, c, a, d))
      && |records| == |Filter(aliases, Publishing(settings, c))|
    ensures SortedBy(records, DesiredSortKey())
  {
    hide RecordsFor, AreAliases, Fold, IsRecord, DesiredSortKey, Get, Publishing;
    if Fold(Get(c.labels, "proxy.exclude")) != "true" && Fold(Get(c.labels, "proxy.dns")) != "false" {
      var output := DnsOutputType(c.labels).value;
      var own :| AreAliases(c, own) && SortedBy(records, DesiredSortKey())
        && multiset(records) == multiset(RecordsFor(settings, c, output, own));
      AliasesAreDetermined(c, own, aliases);
      RecordsExactly(settings, c, output, aliases);
      PermutationKeeps(RecordsFor(settings, c, output, aliases), records);
      SameLength(records, RecordsFor(settings, c, output, aliases));
    }
  }

  lemma SameLength<T>(a: seq<T>, b: seq<T>)
    requires multiset(a) == multiset(b)
    ensures |a| == |b|
  {
    assert |multiset(a)| == |a| && |multiset(b)| == |b|;
  }

  // ---- The whole source --------------------------------------------------------------------------------------------

  /** The container runs, is neither excluded nor switched off, and one of its aliases has the record. */
  ghost predicate IsPublishedBy(settings: Settings, c: Container, d: DesiredRecord) {
    && c.running && Fold(Get(c.labels, "proxy.exclude")) != "true" && Fold(Get(c.labels, "proxy.dns")) != "false"
    && exists aliases, a :: AreAliases(c, aliases) && a in aliases && IsRecord(settings, c, a, d)
  }

  lemma PartExactly(settings: Settings, c: Container, records: seq<DesiredRecord>, d: DesiredRecord)
    requires Derives(settings, c, records) && c.running
    ensures d in records <==> IsPublishedBy(settings, c, d)
  {
    hide AreAliases, Fold, IsRecord, DesiredSortKey, Get, Publishing, RecordsFor;
    if aliases, a :| AreAliases(c, aliases) && a in aliases && IsRecord(settings, c, a, d) {
      DerivedExactly(settings, c, aliases, records);
    }
    if d in records {
      var output := DnsOutputType(c.labels).value;
      var own :| AreAliases(c, own) && SortedBy(records, DesiredSortKey())
        && multiset(records) == multiset(RecordsFor(settings, c, output, own));
      DerivedExactly(settings, c, own, records);
    }
  }

  lemma {:induction false} FlattenedHas(parts: seq<seq<DesiredRecord>>, i: nat, d: DesiredRecord)
    requires i < |parts| && d in parts[i]
    ensures d in Flatten(parts)
  {
    if i < |parts| - 1 {
      FlattenedHas(parts[..|parts| - 1], i, d);
    }
  }

  /** The source lists exactly what its running containers publish. */
  lemma ListingExactly(settings: Settings, containers: seq<Container>, desired: seq<DesiredRecord>, d: DesiredRecord)
    requires IsListing(settings, containers, desired)
    ensures d in desired <==> exists c :: c in containers && IsPublishedBy(settings, c, d)
  {
    hide Derives, IsPublishedBy, SortedBy, DesiredSortKey;
    var parts :| AreParts(settings, containers, parts) && multiset(desired) == multiset(Flatten(parts));
    assert d in desired <==> d in multiset(Flatten(parts));
    if d in Flatten(parts) {
      var i := FlattenedFrom(parts, d);
      PartExactly(settings, containers[i], parts[i], d);
      assert containers[i] in containers;
    }
    if c :| c in containers && IsPublishedBy(settings, c, d) {
      var i :| 0 <= i < |containers| && containers[i] == c;
      PublishedRuns(settings, c, d);
      PartExactly(settings, c, parts[i], d);
      FlattenedHas(parts, i, d);
    }
  }

  lemma PublishedRuns(settings: Settings, c: Container, d: DesiredRecord)
    requires IsPublishedBy(settings, c, d)
    ensures c.running
  {
    hide AreAliases, Fold, IsRecord, Get;
  }

  /** Source, planner and Cloudflare output normalise names and targets alike: lower case, no white space around, and one
      trailing dot removed. */
  lemma ComponentsNormalizeAlike(s: string)
    ensures Keys.NormalizeHostname(s) == Cloudflare.Normalize(s) == NormalizeName(s) == NormalizeAnswerTarget(s)
         == TrimSuffix(TrimSpace(ToLower(s)), ".")
  {
  }

  // ---- Numbers -------------------------------------------------------------------------------------------------------

  function Value(s: string): int {
    if s == "" then 0 else 10 * Value(s[..|s| - 1]) + (s[|s| - 1] as int - '0' as int)
  }

  /** The decimal form of a number: digits with its value, and no leading zero. */
  lemma {:induction false} ItoaExactly(n: nat)
    ensures Value(Itoa(n)) == n && Itoa(n) != "" && (n > 0 ==> Itoa(n)[0] != '0')
    ensures forall i :: 0 <= i < |Itoa(n)| ==> '0' <= Itoa(n)[i] <= '9'
  {
    if n < 10 {
      assert Itoa(n)[..0] == "";
    } else {
      ItoaExactly(n / 10);
      assert Itoa(n)[..|Itoa(n)| - 1] == Itoa(n / 10);
    }
  }
}
