/** The two readers of container labels: the one that derives DNS names, and the one that filters lifecycle events. */
module Labels {
  import opened Text
  import opened Records
  import opened Seqs

  type LabelMap = map<string, string>

  /** A Go map read. */
  function Get(labels: LabelMap, key: string): string {
    if key in labels then labels[key] else ""
  }

  /** `strings.Split` with a separator of one character. */
  function Split(s: string, sep: char): (parts: seq<string>)
    ensures parts != []
    ensures forall part :: part in parts ==> sep !in part
  {
    if sep !in s then [s]
    else
      var i := IndexOf(s, sep);
      [s[..i]] + Split(s[i + 1..], sep)
  }

  function IndexOf(s: string, c: char): (i: nat)
    requires c in s
    ensures i < |s| && s[i] == c && c !in s[..i]
  {
    if s[0] == c then 0
    else
      var i := IndexOf(s[1..], c);
      assert s[..i + 1] == [s[0]] + s[1..][..i];
      i + 1
  }

  function Join(parts: seq<string>, sep: char): string
    requires parts != []
  {
    if |parts| == 1 then parts[0] else parts[0] + [sep] + Join(parts[1..], sep)
  }

  lemma {:induction false} SplitThenJoin(s: string, sep: char)
    ensures Join(Split(s, sep), sep) == s
  {
    if sep in s {
      var i := IndexOf(s, sep);
      SplitThenJoin(s[i + 1..], sep);
      assert Split(s, sep)[1..] == Split(s[i + 1..], sep);
      assert s == s[..i] + [sep] + s[i + 1..];
    }
  }

  /** `strconv.Itoa` of a natural number. */
  function Itoa(n: nat): string {
    if n < 10 then [('0' as int + n) as char] else Itoa(n / 10) + [('0' as int + n % 10) as char]
  }

  function NormalizeName(s: string): string {
    FoldName(s)
  }

  function HasPort(labels: LabelMap, key: string): bool {
    TrimSpace(Get(labels, key)) != ""
  }

  predicate HasPortForAlias(labels: LabelMap, alias: string, index: nat) {
    || HasPort(labels, "proxy." + alias + ".port")
    || (index > 0 && HasPort(labels, "proxy.#" + Itoa(index) + ".port"))
    || HasPort(labels, "proxy.*.port")
  }

  predicate IsWildcardOrIndexed(key: string) {
    (HasPrefix(key, "proxy.*.") || HasPrefix(key, "proxy.#")) && HasSuffix(key, ".port")
  }

  function SupportedNamedPortAlias(key: string): Option<string> {
    var parts := Split(key, '.');
    if !HasPrefix(key, "proxy.") then None
    else if |parts| != 3 || parts[0] != "proxy" then None
    else if parts[1] == "" || parts[1] == "*" || HasPrefix(parts[1], "#") then None
    else if parts[2] != "port" then None
    else Some(NormalizeName(parts[1]))
  }

  predicate IsExcluded(labels: LabelMap) {
    Fold(Get(labels, "proxy.exclude")) == "true"
  }

  /** `None` when DNS is switched off, otherwise the output type, empty for all. */
  function DnsOutputType(labels: LabelMap): Option<string> {
    var value := Fold(Get(labels, "proxy.dns"));
    if value == "" || value == "true" then Some("")
    else if value == "false" then None
    else Some(value)
  }

  datatype Container = Container(id: string, names: seq<string>, running: bool, labels: LabelMap)

  function TrimPrefix(s: string, prefix: string): string {
    if HasPrefix(s, prefix) then s[|prefix|..] else s
  }

  function FirstName(names: seq<string>, otherwise: string): string {
    if names == [] then otherwise
    else if TrimSpace(TrimPrefix(names[0], "/")) != "" then TrimSpace(TrimPrefix(names[0], "/"))
    else FirstName(names[1..], otherwise)
  }

  function DisplayName(c: Container): string {
    FirstName(c.names, TrimSpace(c.id))
  }

  // ---- The aliases ---------------------------------------------------------------------------------------

  /** An alias with its position in `proxy.aliases`, zero when it comes from elsewhere. */
  datatype Alias = Alias(name: string, position: nat)

  function Parts(labels: LabelMap): seq<string> {
    Split(Get(labels, "proxy.aliases"), ',')
  }

  /** Part `i` of `proxy.aliases` names something with a port. */
  predicate IsExplicit(labels: LabelMap, i: nat)
    requires i < |Parts(labels)|
  {
    var name := NormalizeName(Parts(labels)[i]);
    name != "" && HasPortForAlias(labels, name, i + 1)
  }

  predicate Mentions(aliases: seq<Alias>, name: string) {
    exists a :: a in aliases && a.name == name
  }

  /** The explicit aliases in order; the first mention of a name counts. */
  function ExplicitAliases(labels: LabelMap, n: nat): seq<Alias>
    requires n <= |Parts(labels)|
  {
    if n == 0 then []
    else
      var rest, name := ExplicitAliases(labels, n - 1), NormalizeName(Parts(labels)[n - 1]);
      if IsExplicit(labels, n - 1) && !Mentions(rest, name) then rest + [Alias(name, n)] else rest
  }

  /** The label gives its name a port. */
  predicate NamesPort(labels: LabelMap, key: string, name: string) {
    key in labels && SupportedNamedPortAlias(key) == Some(name) && TrimSpace(labels[key]) != ""
  }

  ghost predicate IsNamed(labels: LabelMap, name: string) {
    exists key :: NamesPort(labels, key, name)
  }

  ghost predicate HasWildcardOrIndexedPort(labels: LabelMap) {
    exists key :: key in labels && IsWildcardOrIndexed(key) && TrimSpace(labels[key]) != ""
  }

  /** Exactly the names from `proxy.<name>.port` labels that are not explicit, in ascending order. */
  ghost predicate IsDiscovered(labels: LabelMap, explicit: seq<Alias>, names: seq<string>) {
    && Ascending(names, Identity())
    && (forall name :: name in names <==> IsNamed(labels, name) && !Mentions(explicit, name))
  }

  function Unpositioned(names: seq<string>): (r: seq<Alias>)
    ensures |r| == |names| && forall i :: 0 <= i < |names| ==> r[i] == Alias(names[i], 0)
  {
    seq(|names|, i requires 0 <= i < |names| => Alias(names[i], 0))
  }

  /** What `collectAliases` returns, whatever order the labels are visited in. */
  ghost predicate AreAliases(c: Container, aliases: seq<Alias>) {
    var explicit := ExplicitAliases(c.labels, |Parts(c.labels)|);
    exists names ::
      && IsDiscovered(c.labels, explicit, names)
      && aliases == if explicit + Unpositioned(names) != [] then explicit + Unpositioned(names) else Fallback(c)
  }

  ghost function Fallback(c: Container): seq<Alias> {
    if HasWildcardOrIndexedPort(c.labels) && NormalizeName(DisplayName(c)) != ""
    then [Alias(NormalizeName(DisplayName(c)), 0)]
    else []
  }

  method FindWildcardOrIndexedPort(labels: LabelMap) returns (found: bool)
    ensures found <==> HasWildcardOrIndexedPort(labels)
  {
    hide IsWildcardOrIndexed, TrimSpace;
    var rest := labels.Keys;
    while rest != {}
      invariant rest <= labels.Keys
      invariant forall key :: key in labels && key !in rest ==> !IsWildcardOrIndexed(key) || TrimSpace(labels[key]) == ""
    {
      var key :| key in rest;
      if IsWildcardOrIndexed(key) && TrimSpace(labels[key]) != "" {
        return true;
      }
      rest := rest - {key};
    }
    found := false;
  }

  method CollectAliases(c: Container) returns (ordered: seq<Alias>)
    ensures AreAliases(c, ordered)
  {
    hide NormalizeName, SupportedNamedPortAlias, TrimSpace, IsExplicit, Split, Less;
    var labels, parts := c.labels, Parts(c.labels);
    var seen: set<string> := {};
    ordered := [];
    for i := 0 to |parts|
      invariant ordered == ExplicitAliases(labels, i)
      invariant forall name :: name in seen <==> Mentions(ordered, name)
    {
      var alias := NormalizeName(parts[i]);
      if IsExplicit(labels, i) && alias !in seen {
        ghost var before := ordered;
        seen, ordered := seen + {alias}, ordered + [Alias(alias, i + 1)];
        MentionsOneMore(before, Alias(alias, i + 1));
      }
    }
    ghost var explicit := ordered;
    var discovered := DiscoverNames(labels, seen, explicit);
    var names := SortByKey(discovered, Identity());
    PermutationKeeps(discovered, names);
    StrictlySorted(names);
    ordered := ordered + Unpositioned(names);
    assert IsDiscovered(labels, explicit, names);
    if ordered == [] {
      var wildcard := FindWildcardOrIndexedPort(labels);
      var fallback := NormalizeName(DisplayName(c));
      if wildcard && fallback != "" {
        ordered := [Alias(fallback, 0)];
      }
    }
  }

  lemma MentionsOneMore(aliases: seq<Alias>, a: Alias)
    ensures forall name :: Mentions(aliases + [a], name) <==> Mentions(aliases, name) || name == a.name
  {
    forall name ensures Mentions(aliases + [a], name) <==> Mentions(aliases, name) || name == a.name {
      if Mentions(aliases, name) {
        var b :| b in aliases && b.name == name;
        assert b in aliases + [a];
      }
      assert a in aliases + [a];
    }
  }

  method DiscoverNames(labels: LabelMap, explicitNames: set<string>, ghost explicit: seq<Alias>)
    returns (discovered: seq<string>)
    requires forall name :: name in explicitNames <==> Mentions(explicit, name)
    ensures NoDuplicates(discovered)
    ensures forall name :: name in discovered <==> IsNamed(labels, name) && !Mentions(explicit, name)
  {
    hide NormalizeName, SupportedNamedPortAlias, TrimSpace, Mentions;
    discovered := [];
    var seen, rest := explicitNames, labels.Keys;
    while rest != {}
      invariant rest <= labels.Keys && NoDuplicates(discovered)
      invariant forall name :: name in seen <==> name in explicitNames || name in discovered
      invariant forall name :: name in discovered <==>
        name !in explicitNames && exists key :: key !in rest && NamesPort(labels, key, name)
    {
      var key :| key in rest;
      ghost var before, was := rest, discovered;
      var alias := SupportedNamedPortAlias(key);
      rest := rest - {key};
      if alias.Some? && TrimSpace(labels[key]) != "" && alias.value !in seen {
        seen, discovered := seen + {alias.value}, discovered + [alias.value];
      }
      forall name ensures name in discovered <==>
        name !in explicitNames && exists k :: k !in rest && NamesPort(labels, k, name)
      {
        OneLabelMore(labels, before, key, name);
      }
    }
  }

  lemma OneLabelMore(labels: LabelMap, rest: set<string>, key: string, name: string)
    requires key in rest
    ensures (exists k :: k !in rest - {key} && NamesPort(labels, k, name))
       <==> (exists k :: k !in rest && NamesPort(labels, k, name)) || NamesPort(labels, key, name)
  {
    hide SupportedNamedPortAlias, TrimSpace;
  }

  // ---- The reader of lifecycle events -----------------------------------------------------------------------

  ghost predicate HasExplicit(labels: LabelMap) {
    exists i :: 0 <= i < |Parts(labels)| && IsExplicit(labels, i)
  }

  ghost predicate HasNamed(labels: LabelMap) {
    exists key :: key in labels && SupportedNamedPortAlias(key).Some? && TrimSpace(labels[key]) != ""
  }

  ghost predicate IsRelevant(labels: LabelMap) {
    && labels != map[] && !IsExcluded(labels)
    && (HasExplicit(labels) || HasNamed(labels) || HasWildcardOrIndexedPort(labels))
  }

  method HasRelevantWatchLabels(labels: LabelMap) returns (relevant: bool)
    ensures relevant <==> IsRelevant(labels)
  {
    hide IsExcluded, IsExplicit, SupportedNamedPortAlias, TrimSpace, HasWildcardOrIndexedPort, Split;
    if |labels| == 0 || IsExcluded(labels) {
      return false;
    }
    for i := 0 to |Parts(labels)|
      invariant forall j :: 0 <= j < i ==> !IsExplicit(labels, j)
    {
      if IsExplicit(labels, i) {
        return true;
      }
    }
    var rest := labels.Keys;
    while rest != {}
      invariant rest <= labels.Keys
      invariant forall key :: key in labels && key !in rest ==>
        SupportedNamedPortAlias(key).None? || TrimSpace(labels[key]) == ""
    {
      var key :| key in rest;
      if SupportedNamedPortAlias(key).Some? && TrimSpace(labels[key]) != "" {
        return true;
      }
      rest := rest - {key};
    }
    relevant := FindWildcardOrIndexedPort(labels);
  }

  // ---- They agree ------------------------------------------------------------------------------------------

  lemma {:induction false} ExplicitIsFound(labels: LabelMap, n: nat)
    requires n <= |Parts(labels)|
    ensures ExplicitAliases(labels, n) != [] <==> exists i :: 0 <= i < n && IsExplicit(labels, i)
  {
    hide IsExplicit, NormalizeName, Split;
    if n > 0 {
      ExplicitIsFound(labels, n - 1);
    }
  }

  lemma NamedIsFound(labels: LabelMap, explicit: seq<Alias>, names: seq<string>)
    requires IsDiscovered(labels, explicit, names)
    ensures explicit != [] || names != [] <==> explicit != [] || HasNamed(labels)
  {
    hide SupportedNamedPortAlias, TrimSpace, Less;
    if HasNamed(labels) && explicit == [] {
      var key :| key in labels && SupportedNamedPortAlias(key).Some? && TrimSpace(labels[key]) != "";
      var name := SupportedNamedPortAlias(key).value;
      assert NamesPort(labels, key, name);
      assert name in names;
    }
    if names != [] {
      assert names[0] in names;
    }
  }

  lemma NothingOnEmptyLabels()
    ensures !HasExplicit(map[])
  {
    assert Parts(map[]) == [""];
    assert ToLower("") == "" && NormalizeName("") == "";
  }

  /** Watching agrees with deriving, except for a container with a wildcard or indexed port, no alias at all and no
      name to fall back to: then an event counts although no alias comes of it. */
  lemma ReadersAgree(c: Container, aliases: seq<Alias>)
    requires AreAliases(c, aliases)
    ensures (IsRelevant(c.labels) <==> !IsExcluded(c.labels) && aliases != [])
       <==> || NormalizeName(DisplayName(c)) != "" || IsExcluded(c.labels) || !HasWildcardOrIndexedPort(c.labels)
            || HasExplicit(c.labels) || HasNamed(c.labels)
  {
    hide IsExcluded, NormalizeName, DisplayName, HasWildcardOrIndexedPort, IsExplicit, SupportedNamedPortAlias, TrimSpace,
         IsDiscovered, Split;
    var explicit := ExplicitAliases(c.labels, |Parts(c.labels)|);
    var names :| IsDiscovered(c.labels, explicit, names)
      && aliases == if explicit + Unpositioned(names) != [] then explicit + Unpositioned(names) else Fallback(c);
    ExplicitIsFound(c.labels, |Parts(c.labels)|);
    NamedIsFound(c.labels, explicit, names);
    if c.labels == map[] {
      NothingOnEmptyLabels();
      NoWildcardOnEmptyLabels();
    }
  }

  lemma NoWildcardOnEmptyLabels()
    ensures !HasWildcardOrIndexedPort(map[])
  {
  }

  /** The set of labels determines the aliases: the order in which they are visited does not matter. */
  lemma AliasesAreDetermined(c: Container, a: seq<Alias>, b: seq<Alias>)
    requires AreAliases(c, a) && AreAliases(c, b)
    ensures a == b
  {
    hide NormalizeName, DisplayName, HasWildcardOrIndexedPort, IsExplicit, Less, IsNamed, Mentions, Split;
    var explicit := ExplicitAliases(c.labels, |Parts(c.labels)|);
    var m :| IsDiscovered(c.labels, explicit, m)
      && a == if explicit + Unpositioned(m) != [] then explicit + Unpositioned(m) else Fallback(c);
    var n :| IsDiscovered(c.labels, explicit, n)
      && b == if explicit + Unpositioned(n) != [] then explicit + Unpositioned(n) else Fallback(c);
    AscendingIsUnique(m, n, Identity());
  }
}
