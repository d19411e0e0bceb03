/** Filtered and sorted sequences: what the planner's map entries and call lists are. */
module Seqs {
  import opened Text

  function Filter<T(!new)>(xs: seq<T>, p: T -> bool): (r: seq<T>)
    ensures forall x :: x in r <==> x in xs && p(x)
  {
    if xs == [] then []
    else
      var rest := Filter(xs[..|xs| - 1], p);
      if p(xs[|xs| - 1]) then rest + [xs[|xs| - 1]] else rest
  }

  lemma FilterNone<T(!new)>(xs: seq<T>, p: T -> bool)
    requires forall x :: x in xs ==> !p(x)
    ensures Filter(xs, p) == []
  {
  }

  /** Exactly one element satisfies the predicate. */
  lemma {:induction false} FilterOne<T(!new)>(xs: seq<T>, p: T -> bool, i: nat)
    requires i < |xs| && p(xs[i])
    requires forall j :: 0 <= j < |xs| && j != i ==> !p(xs[j])
    ensures Filter(xs, p) == [xs[i]]
  {
    var n := |xs| - 1;
    if i == n {
      FilterNone(xs[..n], p);
    } else {
      FilterOne(xs[..n], p, i);
    }
  }

  lemma FilterSingle<T(!new)>(x: T, p: T -> bool)
    ensures Filter([x], p) == if p(x) then [x] else []
  {
    assert [x][..0] == [];
  }

  lemma {:induction false} FilterConcat<T(!new)>(xs: seq<T>, ys: seq<T>, p: T -> bool)
    ensures Filter(xs + ys, p) == Filter(xs, p) + Filter(ys, p)
  {
    if ys == [] {
      assert xs + ys == xs;
    } else {
      var n := |ys| - 1;
      assert (xs + ys)[..|xs + ys| - 1] == xs + ys[..n];
      FilterConcat(xs, ys[..n], p);
    }
  }

  lemma {:induction false} FilterShrinks<T(!new)>(xs: seq<T>, p: T -> bool)
    ensures |Filter(xs, p)| <= |xs|
  {
    if xs != [] {
      FilterShrinks(xs[..|xs| - 1], p);
    }
  }

  /** Two different positions that satisfy the predicate make the filtered sequence longer than one. */
  lemma {:induction false} FilterTwo<T(!new)>(xs: seq<T>, p: T -> bool, i: nat, j: nat)
    requires i < j < |xs| && p(xs[i]) && p(xs[j])
    ensures |Filter(xs, p)| >= 2
  {
    var n := |xs| - 1;
    if j == n {
      assert xs[i] in xs[..n];
      assert xs[i] in Filter(xs[..n], p);
    } else {
      FilterTwo(xs[..n], p, i, j);
    }
  }

  lemma {:induction false} FilterPair<T(!new)>(xs: seq<T>, p: T -> bool) returns (i: nat, j: nat)
    requires |Filter(xs, p)| >= 2
    ensures i < j < |xs| && p(xs[i]) && p(xs[j])
  {
    var n := |xs| - 1;
    if |Filter(xs[..n], p)| >= 2 {
      i, j := FilterPair(xs[..n], p);
    } else {
      var x := Filter(xs[..n], p)[0];
      assert x in Filter(xs[..n], p);
      i :| 0 <= i < n && xs[..n][i] == x;
      j := n;
    }
  }

  lemma FilterHas<T(!new)>(xs: seq<T>, p: T -> bool, x: T)
    requires x in xs && p(x)
    ensures |Filter(xs, p)| >= 1
  {
    assert x in Filter(xs, p);
  }

  lemma FilteredOnce<T(!new)>(xs: seq<T>, p: T -> bool) returns (i: nat)
    requires |Filter(xs, p)| == 1
    ensures i < |xs| && p(xs[i]) && Filter(xs, p)[0] == xs[i]
    ensures forall j :: 0 <= j < |xs| && j != i ==> !p(xs[j])
  {
    var x := Filter(xs, p)[0];
    assert x in Filter(xs, p);
    i :| 0 <= i < |xs| && xs[i] == x;
    forall j | 0 <= j < |xs| && j != i ensures !p(xs[j]) {
      if p(xs[j]) {
        FilterTwo(xs, p, if i < j then i else j, if i < j then j else i);
      }
    }
  }

  /** Filtering by a stronger predicate can go through a weaker one. */
  lemma {:induction false} FilterThrough<T(!new)>(xs: seq<T>, weak: T -> bool, strong: T -> bool)
    requires forall x :: x in xs && strong(x) ==> weak(x)
    ensures Filter(Filter(xs, weak), strong) == Filter(xs, strong)
  {
    if xs != [] {
      var n := |xs| - 1;
      FilterThrough(xs[..n], weak, strong);
      if weak(xs[n]) {
        assert (Filter(xs[..n], weak) + [xs[n]])[..|Filter(xs[..n], weak)|] == Filter(xs[..n], weak);
      }
    }
  }

  /** The predicate may be replaced by one that agrees with it on the elements. */
  lemma {:induction false} FilterAgree<T(!new)>(xs: seq<T>, p: T -> bool, q: T -> bool)
    requires forall x :: x in xs ==> p(x) == q(x)
    ensures Filter(xs, p) == Filter(xs, q)
  {
    if xs != [] {
      FilterAgree(xs[..|xs| - 1], p, q);
    }
  }

  lemma FilterAll<T(!new)>(xs: seq<T>, p: T -> bool)
    requires forall x :: x in xs ==> p(x)
    ensures Filter(xs, p) == xs
  {
  }

  // ---- Index maps --------------------------------------------------------------------------

  /** A Go map read: an absent key gives the zero value, the empty slice. */
  function Lookup<T>(m: map<string, seq<T>>, k: string): seq<T> {
    if k in m then m[k] else []
  }

  /** The elements that `keep` admits, appended to the entry of their key, in order. */
  function GroupBy<T>(xs: seq<T>, keep: T -> bool, key: T -> string): map<string, seq<T>> {
    if xs == [] then map[]
    else
      var x := xs[|xs| - 1];
      var rest := GroupBy(xs[..|xs| - 1], keep, key);
      if keep(x) then rest[key(x) := Lookup(rest, key(x)) + [x]] else rest
  }

  /** The elements that `keep` admits, each stored under its key: the last one wins. */
  function LastBy<T(!new)>(xs: seq<T>, keep: T -> bool, key: T -> string): (r: map<string, T>)
    ensures forall k :: k in r ==> r[k] in xs && keep(r[k]) && key(r[k]) == k
    ensures forall x :: x in xs && keep(x) ==> key(x) in r
  {
    if xs == [] then map[]
    else
      var x := xs[|xs| - 1];
      var rest := LastBy(xs[..|xs| - 1], keep, key);
      assert xs == xs[..|xs| - 1] + [x];
      if keep(x) then rest[key(x) := x] else rest
  }

  /** Position `i` holds the last element that `keep` admits under its key. */
  ghost predicate IsLastAt<T>(xs: seq<T>, keep: T -> bool, key: T -> string, i: nat)
    requires i < |xs|
  {
    keep(xs[i]) && forall j :: i < j < |xs| && keep(xs[j]) ==> key(xs[j]) != key(xs[i])
  }

  lemma LastAtShrinks<T>(xs: seq<T>, keep: T -> bool, key: T -> string, i: nat)
    requires i < |xs| - 1 && IsLastAt(xs, keep, key, i)
    ensures IsLastAt(xs[..|xs| - 1], keep, key, i)
    ensures keep(xs[|xs| - 1]) ==> key(xs[|xs| - 1]) != key(xs[i])
  {
    assert forall j :: i < j < |xs| - 1 ==> xs[..|xs| - 1][j] == xs[j];
  }

  lemma {:induction false} LastByIsLast<T(!new)>(xs: seq<T>, keep: T -> bool, key: T -> string, i: nat)
    requires i < |xs| && IsLastAt(xs, keep, key, i)
    ensures key(xs[i]) in LastBy(xs, keep, key) && LastBy(xs, keep, key)[key(xs[i])] == xs[i]
  {
    var n := |xs| - 1;
    if i < n {
      LastAtShrinks(xs, keep, key, i);
      hide IsLastAt;
      LastByIsLast(xs[..n], keep, key, i);
    }
  }

  lemma LastAtExtends<T>(xs: seq<T>, keep: T -> bool, key: T -> string, i: nat)
    requires i < |xs| - 1 && IsLastAt(xs[..|xs| - 1], keep, key, i)
    requires !keep(xs[|xs| - 1]) || key(xs[|xs| - 1]) != key(xs[i])
    ensures IsLastAt(xs, keep, key, i)
  {
    assert forall j :: i < j < |xs| - 1 ==> xs[j] == xs[..|xs| - 1][j];
  }

  lemma {:induction false} LastByHasPosition<T(!new)>(xs: seq<T>, keep: T -> bool, key: T -> string, k: string)
    returns (i: nat)
    requires k in LastBy(xs, keep, key)
    ensures i < |xs| && IsLastAt(xs, keep, key, i) && key(xs[i]) == k && xs[i] == LastBy(xs, keep, key)[k]
  {
    hide IsLastAt;
    var n := |xs| - 1;
    if keep(xs[n]) && key(xs[n]) == k {
      i := n;
      LastIsLast(xs, keep, key);
    } else {
      i := LastByHasPosition(xs[..n], keep, key, k);
      LastAtExtends(xs, keep, key, i);
    }
  }

  lemma LastIsLast<T>(xs: seq<T>, keep: T -> bool, key: T -> string)
    requires xs != [] && keep(xs[|xs| - 1])
    ensures IsLastAt(xs, keep, key, |xs| - 1)
  {
  }

  function Matching<T>(keep: T -> bool, key: T -> string, k: string): T -> bool {
    x => keep(x) && key(x) == k
  }

  /** The indexes only see what `keep` admits. */
  lemma {:induction false} IndexesSeeOwnPart<T(!new)>(xs: seq<T>, keep: T -> bool, key: T -> string)
    ensures GroupBy(xs, keep, key) == GroupBy(Filter(xs, keep), keep, key)
    ensures LastBy(xs, keep, key) == LastBy(Filter(xs, keep), keep, key)
  {
    if xs != [] {
      var init, x := xs[..|xs| - 1], xs[|xs| - 1];
      IndexesSeeOwnPart(init, keep, key);
      if keep(x) {
        assert (Filter(init, keep) + [x])[..|Filter(init, keep)|] == Filter(init, keep);
      }
    }
  }

  /** An entry of the index is a linear scan for its key, and only real groups have an entry. */
  lemma {:induction false} GroupByIsScan<T(!new)>(xs: seq<T>, keep: T -> bool, key: T -> string, k: string)
    ensures Lookup(GroupBy(xs, keep, key), k) == Filter(xs, Matching(keep, key, k))
    ensures k in GroupBy(xs, keep, key) <==> Filter(xs, Matching(keep, key, k)) != []
  {
    if xs != [] {
      GroupByIsScan(xs[..|xs| - 1], keep, key, k);
    }
  }

  predicate NoDuplicates<T(==)>(xs: seq<T>) {
    forall i, j :: 0 <= i < j < |xs| ==> xs[i] != xs[j]
  }

  /** `xs` lists exactly the values that satisfy `p`, each once. */
  ghost predicate Enumerates<T(!new)>(xs: seq<T>, p: T -> bool) {
    NoDuplicates(xs) && forall x :: x in xs <==> p(x)
  }

  lemma EnumerateOneMore<T(!new)>(xs: seq<T>, p: T -> bool, y: T, q: T -> bool)
    requires Enumerates(xs, p) && !p(y)
    requires forall x :: q(x) <==> p(x) || x == y
    ensures Enumerates(xs + [y], q)
  {
    forall x ensures x in xs + [y] <==> q(x) {
      assert x in xs <==> p(x);
    }
    assert y !in xs;
  }

  lemma EnumerateSame<T(!new)>(xs: seq<T>, p: T -> bool, q: T -> bool)
    requires Enumerates(xs, p)
    requires forall x :: q(x) <==> p(x)
    ensures Enumerates(xs, q)
  {
  }

  lemma EnumeratePermuted<T(!new)>(xs: seq<T>, ys: seq<T>, p: T -> bool)
    requires Enumerates(xs, p) && multiset(xs) == multiset(ys)
    ensures Enumerates(ys, p)
  {
    PermutationKeeps(xs, ys);
  }

  // ---- Sorting ---------------------------------------------------------------------------

  ghost predicate SortedBy<T>(xs: seq<T>, key: T -> string) {
    forall i, j :: 0 <= i < j < |xs| ==> !Less(key(xs[j]), key(xs[i]))
  }

  lemma SortedByKeys<T>(xs: seq<T>, ys: seq<T>, key: T -> string)
    requires SortedBy(xs, key) && |ys| == |xs| && forall m :: 0 <= m < |xs| ==> key(ys[m]) == key(xs[m])
    ensures SortedBy(ys, key)
  {
    hide Less;
    forall i, j | 0 <= i < j < |ys| ensures !Less(key(ys[j]), key(ys[i])) {
      assert !Less(key(xs[j]), key(xs[i]));
    }
  }

  /** The insertion step: before the first element with a larger key. */
  method InsertByKey<T(==)>(sorted: seq<T>, x: T, key: T -> string) returns (r: seq<T>)
    requires SortedBy(sorted, key)
    ensures SortedBy(r, key)
    ensures multiset(r) == multiset(sorted) + multiset{x}
  {
    hide Less;
    var at := 0;
    while at < |sorted| && !Less(key(x), key(sorted[at]))
      invariant 0 <= at <= |sorted|
      invariant forall i :: 0 <= i < at ==> !Less(key(x), key(sorted[i]))
    {
      at := at + 1;
    }
    InsertedIsSorted(sorted, x, key, at);
    r := sorted[..at] + [x] + sorted[at..];
    assert sorted == sorted[..at] + sorted[at..];
  }

  lemma InsertedIsSorted<T>(sorted: seq<T>, x: T, key: T -> string, at: nat)
    requires SortedBy(sorted, key) && at <= |sorted| && (at < |sorted| ==> Less(key(x), key(sorted[at])))
    requires forall i :: 0 <= i < at ==> !Less(key(x), key(sorted[i]))
    ensures SortedBy(sorted[..at] + [x] + sorted[at..], key)
  {
    hide Less;
    var r := sorted[..at] + [x] + sorted[at..];
    forall i, j | 0 <= i < j < |r| ensures !Less(key(r[j]), key(r[i])) {
      if i == at {
        NotLessBehind(sorted, x, key, at, j - 1);
      } else if j != at {
        var i', j' := if i < at then i else i - 1, if j < at then j else j - 1;
        assert r[i] == sorted[i'] && r[j] == sorted[j'];
      }
    }
  }

  lemma NotLessBehind<T>(sorted: seq<T>, x: T, key: T -> string, at: nat, j: nat)
    requires SortedBy(sorted, key) && at <= j < |sorted| && Less(key(x), key(sorted[at]))
    ensures !Less(key(sorted[j]), key(x))
  {
    LessIrreflexive(key(sorted[at]));
    hide Less;
    NotLessAfter(key(x), key(sorted[at]), key(sorted[j]));
  }

  lemma NotLessAfter(x: string, y: string, z: string)
    requires Less(x, y) && !Less(z, y)
    ensures !Less(z, x)
  {
    if Less(z, x) {
      LessTransitive(z, x, y);
    }
  }

  /** `sort.Slice` with a `<` on keys: some sorted permutation (the library promises no more). */
  method SortByKey<T(==)>(xs: seq<T>, key: T -> string) returns (r: seq<T>)
    ensures SortedBy(r, key)
    ensures multiset(r) == multiset(xs)
  {
    r := [];
    var i := 0;
    while i < |xs|
      invariant 0 <= i <= |xs|
      invariant SortedBy(r, key)
      invariant multiset(r) == multiset(xs[..i])
    {
      assert xs[..i + 1] == xs[..i] + [xs[i]];
      r := InsertByKey(r, xs[i], key);
      i := i + 1;
    }
    assert xs[..i] == xs;
  }

  lemma PermutationKeeps<T>(a: seq<T>, b: seq<T>)
    requires multiset(a) == multiset(b)
    ensures forall x :: x in a <==> x in b
    ensures NoDuplicates(a) ==> NoDuplicates(b)
  {
    forall x ensures x in a <==> x in b {
      assert x in multiset(a) <==> x in multiset(b);
    }
    if NoDuplicates(a) && !NoDuplicates(b) {
      var i, j :| 0 <= i < j < |b| && b[i] == b[j];
      assert b == b[..i] + [b[i]] + b[i + 1..j] + [b[j]] + b[j + 1..];
      assert multiset(b)[b[i]] >= 2;
      NoDuplicatesCount(a, b[i]);
    }
  }

  lemma {:induction false} NoDuplicatesCount<T>(a: seq<T>, x: T)
    requires NoDuplicates(a)
    ensures multiset(a)[x] <= 1
  {
    if a != [] {
      var n := |a| - 1;
      assert a == a[..n] + [a[n]];
      NoDuplicatesCount(a[..n], x);
      if x == a[n] {
        assert x !in a[..n];
      }
    }
  }

  function Identity(): string -> string { (s: string) => s }

  /** Strictly, hence without duplicates. */
  ghost predicate Ascending<T>(xs: seq<T>, key: T -> string) {
    forall i, j :: 0 <= i < j < |xs| ==> Less(key(xs[i]), key(xs[j]))
  }

  lemma StrictlySorted(xs: seq<string>)
    requires SortedBy(xs, Identity()) && NoDuplicates(xs)
    ensures Ascending(xs, Identity())
  {
    forall i, j | 0 <= i < j < |xs| ensures Less(xs[i], xs[j]) {
      LessTotal(xs[i], xs[j]);
      assert !Less(Identity()(xs[j]), Identity()(xs[i]));
    }
  }

  /** Every element comes before the ones behind it. */
  ghost predicate Ordered<T>(xs: seq<T>, before: (T, T) -> bool) {
    forall i, j :: 0 <= i < j < |xs| ==> before(xs[i], xs[j])
  }

  ghost predicate Asymmetric<T(!new)>(before: (T, T) -> bool) {
    forall x, y :: before(x, y) ==> !before(y, x)
  }

  /** Members and a strict order determine a sequence. */
  lemma {:induction false} OrderIsUnique<T(!new)>(a: seq<T>, b: seq<T>, before: (T, T) -> bool)
    requires Ordered(a, before) && Ordered(b, before) && Asymmetric(before) && forall x :: x in a <==> x in b
    ensures a == b
  {
    if a == [] || b == [] {
      HasFirst(a);
      HasFirst(b);
    } else {
      SameFirst(a, b, before);
      forall x ensures x in a[1..] <==> x in b[1..] {
        InTail(a, before, x);
        InTail(b, before, x);
      }
      OrderIsUnique(a[1..], b[1..], before);
      assert a == [a[0]] + a[1..] && b == [b[0]] + b[1..];
    }
  }

  lemma HasFirst<T>(a: seq<T>)
    ensures a == [] || a[0] in a
  {
  }

  lemma SameFirst<T(!new)>(a: seq<T>, b: seq<T>, before: (T, T) -> bool)
    requires a != [] && b != [] && Ordered(a, before) && Ordered(b, before) && Asymmetric(before)
    requires forall x :: x in a <==> x in b
    ensures a[0] == b[0]
  {
    assert a[0] in b && b[0] in a;
    var i :| 0 <= i < |b| && b[i] == a[0];
    var j :| 0 <= j < |a| && a[j] == b[0];
  }

  lemma InTail<T(!new)>(a: seq<T>, before: (T, T) -> bool, x: T)
    requires a != [] && Ordered(a, before) && Asymmetric(before)
    ensures x in a[1..] <==> x in a && x != a[0]
  {
    if x in a && x != a[0] {
      var i :| 0 <= i < |a| && a[i] == x;
      assert a[1..][i - 1] == x;
    }
    if x in a[1..] {
      var i :| 0 <= i < |a[1..]| && a[1..][i] == x;
      assert a[i + 1] == x;
    }
  }

  function ByKey<T>(key: T -> string): (T, T) -> bool {
    (x: T, y: T) => Less(key(x), key(y))
  }

  lemma AscendingIsUnique<T(!new)>(a: seq<T>, b: seq<T>, key: T -> string)
    requires Ascending(a, key) && Ascending(b, key) && forall x :: x in a <==> x in b
    ensures a == b
  {
    hide Less;
    forall x, y | ByKey(key)(x, y) ensures !ByKey(key)(y, x) {
      LessIsStrict(key(x), key(y));
    }
    OrderIsUnique(a, b, ByKey(key));
  }

  lemma LessIsStrict(x: string, y: string)
    requires Less(x, y)
    ensures !Less(y, x)
  {
    if Less(y, x) {
      LessTransitive(x, y, x);
      LessIrreflexive(x);
    }
  }

  /** Contents and order determine a sorted sequence whose equal keys mean equal elements. */
  lemma {:induction false} SortedIsUnique<T(!new)>(a: seq<T>, b: seq<T>, key: T -> string)
    requires SortedBy(a, key) && SortedBy(b, key) && multiset(a) == multiset(b)
    requires forall x, y :: x in a && y in a && key(x) == key(y) ==> x == y
    ensures a == b
  {
    hide Less;
    assert |a| == |multiset(a)| == |multiset(b)| == |b|;
    if a != [] {
      PermutationKeeps(a, b);
      SmallestIsFirst(a, b, key);
      TailOf(a, key);
      TailOf(b, key);
      SortedIsUnique(a[1..], b[1..], key);
    }
  }

  lemma TailOf<T(!new)>(a: seq<T>, key: T -> string)
    requires a != [] && SortedBy(a, key)
    ensures a == [a[0]] + a[1..] && SortedBy(a[1..], key)
    ensures multiset(a[1..]) == multiset(a) - multiset{a[0]}
    ensures forall x :: x in a[1..] ==> x in a
  {
    hide Less;
    assert a == [a[0]] + a[1..];
  }

  lemma SmallestIsFirst<T(!new)>(a: seq<T>, b: seq<T>, key: T -> string)
    requires a != [] && b != [] && SortedBy(a, key) && SortedBy(b, key) && forall x :: x in a <==> x in b
    requires forall x, y :: x in a && y in a && key(x) == key(y) ==> x == y
    ensures a[0] == b[0]
  {
    hide Less;
    assert a[0] in b && b[0] in a;
    var i :| 0 <= i < |b| && b[i] == a[0];
    var j :| 0 <= j < |a| && a[j] == b[0];
    LessTotal(key(a[0]), key(b[0]));
    LessIrreflexive(key(a[0]));
  }
}
