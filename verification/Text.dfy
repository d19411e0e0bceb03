/** The string operations of Go's `strings` package that every key is built from. */
module Text {

  /** The characters `strings.TrimSpace` removes (Unicode property White_Space). */
  predicate IsSpace(c: char) {
    || c in {'\t', '\n', '\U{000b}', '\U{000c}', '\r', ' ', '\U{0085}', '\U{00a0}', '\U{1680}'}
    || '\U{2000}' <= c <= '\U{200a}'
    || c in {'\U{2028}', '\U{2029}', '\U{202f}', '\U{205f}', '\U{3000}'}
  }

  predicate IsUpper(c: char) {
    'A' <= c <= 'Z'
  }

  function LowerChar(c: char): (r: char)
    ensures !IsUpper(r) && IsSpace(r) == IsSpace(c) && ((r == '|') == (c == '|')) && ((r == '.') == (c == '.'))
  {
    if IsUpper(c) then ((c as int) + 32) as char else c
  }

  /** Lower-casing of the ASCII letters. */
  function ToLower(s: string): (r: string)
    ensures |r| == |s| && forall i :: 0 <= i < |s| ==> r[i] == LowerChar(s[i])
  {
    seq(|s|, i requires 0 <= i < |s| => LowerChar(s[i]))
  }

  function TrimLeft(s: string): (r: string)
    ensures forall c :: c in r ==> c in s
    ensures r != [] ==> !IsSpace(r[0])
  {
    if s != [] && IsSpace(s[0]) then TrimLeft(s[1..]) else s
  }

  function TrimRight(s: string): (r: string)
    ensures r <= s
    ensures r != [] ==> !IsSpace(r[|r| - 1])
  {
    if s != [] && IsSpace(s[|s| - 1]) then TrimRight(s[..|s| - 1]) else s
  }

  function TrimSpace(s: string): string {
    TrimRight(TrimLeft(s))
  }

  predicate HasPrefix(s: string, prefix: string) {
    prefix <= s
  }

  predicate HasSuffix(s: string, suffix: string) {
    |suffix| <= |s| && s[|s| - |suffix|..] == suffix
  }

  function TrimSuffix(s: string, suffix: string): string {
    if HasSuffix(s, suffix) then s[..|s| - |suffix|] else s
  }

  /** `strings.TrimSpace(strings.ToLower(s))`: how every key component but a hostname is normalised. */
  function Fold(s: string): string {
    TrimSpace(ToLower(s))
  }

  /** Folded, with one trailing dot removed. */
  function FoldName(s: string): string {
    TrimSuffix(Fold(s), ".")
  }

  /** No upper case, no white space, no final dot. */
  predicate Plain(s: string) {
    && (forall c :: c in s ==> !IsUpper(c) && !IsSpace(c))
    && (s != [] ==> s[|s| - 1] != '.')
  }

  /** The normalisers leave a plain string alone. */
  lemma PlainIsFixed(s: string)
    requires Plain(s)
    ensures FoldName(s) == s && Fold(s) == s
  {
    assert ToLower(s) == s by {
      forall i | 0 <= i < |s| ensures ToLower(s)[i] == s[i] {
        assert s[i] in s;
      }
    }
    if s != [] {
      assert s[0] in s && s[|s| - 1] in s;
      assert TrimLeft(s) == s && TrimRight(s) == s;
    }
  }

  /** Empty, or ended neither by a dot nor by white space. */
  predicate CleanEnd(s: string) {
    s == "" || (s[|s| - 1] != '.' && !IsSpace(s[|s| - 1]))
  }

  lemma {:induction false} LeftAlone(s: string)
    requires s == "" || !IsSpace(s[0])
    ensures TrimLeft(s) == s
  {
  }

  lemma FoldedStarts(s: string)
    ensures ToLower(FoldName(s)) == FoldName(s) && TrimLeft(FoldName(s)) == FoldName(s)
  {
    var lower, n := ToLower(s), FoldName(s);
    assert forall c :: c in lower ==> !IsUpper(c);
    assert forall c :: c in Fold(s) ==> c in TrimLeft(lower);
    assert n <= Fold(s) <= TrimLeft(lower);
    assert n != "" ==> n[0] == TrimLeft(lower)[0];
    LeftAlone(n);
    forall i | 0 <= i < |n| ensures ToLower(n)[i] == n[i] {
      assert n[i] == Fold(s)[i] && Fold(s)[i] in Fold(s);
    }
  }

  /** Folding a folded name again changes nothing exactly if it ends cleanly: one dot goes at a time. */
  lemma FoldNameTwice(s: string)
    ensures FoldName(FoldName(s)) == FoldName(s) <==> CleanEnd(FoldName(s))
  {
    hide FoldName, ToLower;
    FoldedStarts(s);
    FoldLowered(FoldName(s));
  }

  lemma FoldLowered(n: string)
    requires ToLower(n) == n && TrimLeft(n) == n
    ensures FoldName(n) == n <==> CleanEnd(n)
  {
    hide ToLower, TrimLeft;
    assert FoldName(n) <= TrimRight(n) <= n;
    if n != "" && IsSpace(n[|n| - 1]) {
      assert TrimRight(n) <= n[..|n| - 1];
    }
  }

  lemma FoldKeepsBarFree(s: string)
    requires '|' !in s
    ensures '|' !in Fold(s) && '|' !in FoldName(s)
  {
    var lower := ToLower(s);
    assert '|' !in lower;
    assert forall c :: c in TrimRight(TrimLeft(lower)) ==> c in TrimLeft(lower);
  }

  // ---- Byte order on strings -------------------------------------------------------------

  /** Go's `<` on strings (code point order, which is the order of UTF-8 bytes). */
  predicate Less(a: string, b: string) {
    b != [] && (a == [] || a[0] < b[0] || (a[0] == b[0] && Less(a[1..], b[1..])))
  }

  lemma {:induction false} LessTransitive(a: string, b: string, c: string)
    requires Less(a, b) && Less(b, c)
    ensures Less(a, c)
  {
    if a != [] && a[0] == b[0] == c[0] {
      LessTransitive(a[1..], b[1..], c[1..]);
    }
  }

  lemma {:induction false} LessIrreflexive(a: string)
    ensures !Less(a, a)
  {
    if a != [] {
      LessIrreflexive(a[1..]);
    }
  }

  lemma {:induction false} LessTotal(a: string, b: string)
    ensures Less(a, b) || a == b || Less(b, a)
  {
    if a != [] && b != [] && a[0] == b[0] {
      LessTotal(a[1..], b[1..]);
      assert a == [a[0]] + a[1..] && b == [b[0]] + b[1..];
    }
  }
}
