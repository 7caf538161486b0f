/**
 * The string primitives of Go's standard library that the tool relies on:
 * strings.ToLower (ASCII part), strings.TrimSpace, strings.Contains,
 * decimal formatting of integers (fmt's %d) and padding (fmt's %-*s and %6d).
 * Strings are sequences of Unicode scalar values; Go works on UTF-8 bytes,
 * which agrees with this model for ASCII text.
 */
module Text {

  /** strings.ToLower restricted to ASCII letters. */
  function LowerChar(c: char): char {
    if 'A' <= c <= 'Z' then (c as int + 32) as char else c
  }

  function Lower(s: string): string {
    seq(|s|, i requires 0 <= i < |s| => LowerChar(s[i]))
  }

  /** unicode.IsSpace, the predicate strings.TrimSpace trims by. */
  /** The characters unicode.IsSpace accepts. */
  const SpaceChars: set<char> := {
    ' ', '\t', '\n', '\U{B}', '\U{C}', '\r', '\U{85}', '\U{A0}', '\U{1680}',
    '\U{2000}', '\U{2001}', '\U{2002}', '\U{2003}', '\U{2004}', '\U{2005}',
    '\U{2006}', '\U{2007}', '\U{2008}', '\U{2009}', '\U{200A}',
    '\U{2028}', '\U{2029}', '\U{202F}', '\U{205F}', '\U{3000}'
  }

  predicate IsSpace(c: char) {
    c in SpaceChars
  }

  predicate AllSpace(s: string) {
    forall k :: 0 <= k < |s| ==> IsSpace(s[k])
  }

  /** Drops leading white space, keeping a suffix of s (TrimLeftDrops says which one). */
  function TrimLeft(s: string): (r: string)
    ensures |r| <= |s| && r == s[|s| - |r|..]
  {
    if s != [] && IsSpace(s[0]) then TrimLeft(s[1..]) else s
  }

  /** TrimLeft keeps the longest suffix that does not start with a space: all it drops is white space. */
  lemma {:induction false} TrimLeftDrops(s: string)
    ensures TrimLeft(s) == [] || !IsSpace(TrimLeft(s)[0])
    ensures AllSpace(s[..|s| - |TrimLeft(s)|])
    decreases |s|
  {
    if s != [] && IsSpace(s[0]) {
      var r := TrimLeft(s[1..]);
      TrimLeftDrops(s[1..]);
      assert s[..|s| - |r|] == [s[0]] + s[1..][..|s| - 1 - |r|];
    }
  }

  /** Drops trailing white space, keeping a prefix of s (TrimRightDrops says which one). */
  function TrimRight(s: string): (r: string)
    ensures |r| <= |s| && r == s[..|r|]
  {
    if s != [] && IsSpace(s[|s| - 1]) then TrimRight(s[..|s| - 1]) else s
  }

  /** TrimRight keeps the longest prefix that does not end with a space: all it drops is white space. */
  lemma {:induction false} TrimRightDrops(s: string)
    ensures TrimRight(s) == [] || !IsSpace(TrimRight(s)[|TrimRight(s)| - 1])
    ensures AllSpace(s[|TrimRight(s)|..])
    decreases |s|
  {
    if s != [] && IsSpace(s[|s| - 1]) {
      var r := TrimRight(s[..|s| - 1]);
      TrimRightDrops(s[..|s| - 1]);
      assert s[|r|..] == s[..|s| - 1][|r|..] + [s[|s| - 1]];
    }
  }

  /** strings.TrimSpace */
  function TrimSpace(s: string): string {
    TrimRight(TrimLeft(s))
  }

  /** Leading white space before text that does not start with a space is exactly what TrimLeft removes. */
  lemma {:induction false} TrimLeftOfPadded(a: string, v: string)
    requires AllSpace(a)
    requires v == [] || !IsSpace(v[0])
    ensures TrimLeft(a + v) == v
    decreases |a|
  {
    if a != [] {
      assert (a + v)[1..] == a[1..] + v;
      TrimLeftOfPadded(a[1..], v);
    }
  }

  /** Trailing white space after text that does not end with a space is exactly what TrimRight removes. */
  lemma {:induction false} TrimRightOfPadded(v: string, b: string)
    requires AllSpace(b)
    requires v == [] || !IsSpace(v[|v| - 1])
    ensures TrimRight(v + b) == v
    decreases |b|
  {
    if b != [] {
      assert (v + b)[..|v + b| - 1] == v + b[..|b| - 1];
      TrimRightOfPadded(v, b[..|b| - 1]);
    }
  }

  /** White space around a word that neither starts nor ends with a space is exactly what TrimSpace removes. */
  lemma TrimSpaceOfPadded(a: string, w: string, b: string)
    requires AllSpace(a) && AllSpace(b)
    requires w != [] && !IsSpace(w[0]) && !IsSpace(w[|w| - 1])
    ensures TrimSpace(a + w + b) == w
  {
    assert a + w + b == a + (w + b);
    TrimLeftOfPadded(a, w + b);
    TrimRightOfPadded(w, b);
  }

  /** TrimSpace keeps one slice s[i..j] and drops only white space on either side of it. */
  lemma TrimSpaceParts(s: string) returns (i: nat, j: nat)
    ensures i <= j <= |s| && TrimSpace(s) == s[i..j]
    ensures AllSpace(s[..i]) && AllSpace(s[j..])
    ensures i < j ==> !IsSpace(s[i]) && !IsSpace(s[j - 1])
  {
    i := |s| - |TrimLeft(s)|;
    TrimLeftDrops(s);
    j := TrimRightOfSuffix(s, i);
  }

  /** Trimming the right of a suffix s[i..] keeps s[i..j] and drops only white space after j. */
  lemma TrimRightOfSuffix(s: string, i: nat) returns (j: nat)
    requires i <= |s|
    ensures i <= j <= |s| && TrimRight(s[i..]) == s[i..j]
    ensures AllSpace(s[j..])
    ensures i < j ==> s[i] == s[i..][0] && !IsSpace(s[j - 1])
  {
    var t := TrimRight(s[i..]);
    j := i + |t|;
    TrimRightDrops(s[i..]);
    SlicesOfSuffix(s, i, |t|);
  }

  /** Slicing a suffix s[i..] at k is slicing s at i + k. */
  lemma SlicesOfSuffix<T>(s: seq<T>, i: nat, k: nat)
    requires i + k <= |s|
    ensures s[i..][..k] == s[i..i + k] && s[i..][k..] == s[i + k..]
    ensures k > 0 ==> s[i..][0] == s[i] && s[i..][k - 1] == s[i + k - 1]
  {
  }

  /** strings.Contains */
  function Contains(s: string, t: string): bool
    decreases |s|
  {
    if t <= s then true else if s == [] then false else Contains(s[1..], t)
  }

  predicate OccursAt(s: string, t: string, i: int) {
    0 <= i && i + |t| <= |s| && s[i..i + |t|] == t
  }

  /** Contains holds exactly when t occurs in s at some position. */
  lemma ContainsIff(s: string, t: string)
    ensures Contains(s, t) <==> exists i :: OccursAt(s, t, i)
  {
    if Contains(s, t) {
      var i := ContainsSound(s, t);
    }
    forall i | OccursAt(s, t, i)
      ensures Contains(s, t)
    {
      ContainsComplete(s, t, i);
    }
  }

  /** When Contains holds, t occurs in s. */
  lemma {:induction false} ContainsSound(s: string, t: string) returns (i: nat)
    requires Contains(s, t)
    ensures OccursAt(s, t, i)
    decreases |s|
  {
    if t <= s {
      i := 0;
    } else {
      var u := s[1..];
      var j := ContainsSound(u, t);
      assert u[j..j + |t|] == s[j + 1..j + 1 + |t|];
      i := j + 1;
    }
  }

  /** When t occurs in s, Contains holds. */
  lemma {:induction false} ContainsComplete(s: string, t: string, i: int)
    requires OccursAt(s, t, i)
    ensures Contains(s, t)
    decreases |s|
  {
    if i > 0 && !(t <= s) {
      var u := s[1..];
      assert u[i - 1..i - 1 + |t|] == s[i..i + |t|];
      ContainsComplete(u, t, i - 1);
    }
  }

  predicate IsDigit(c: char) {
    '0' <= c <= '9'
  }

  predicate AllDigits(s: string) {
    forall k :: 0 <= k < |s| ==> IsDigit(s[k])
  }

  function DigitChar(d: int): char
    requires 0 <= d < 10
  {
    ('0' as int + d) as char
  }

  /** The decimal digits of n, most significant first, without leading zeros. */
  function NatDigits(n: nat): string
    decreases n
  {
    if n < 10 then [DigitChar(n)] else NatDigits(n / 10) + [DigitChar(n % 10)]
  }

  /** fmt's %d (strconv.Itoa). */
  function Itoa(n: int): string {
    if n < 0 then "-" + NatDigits(-n) else NatDigits(n)
  }

  /** The value of a string of decimal digits. */
  function DigitsValue(s: string): nat
    requires AllDigits(s)
  {
    if s == [] then 0 else DigitsValue(s[..|s| - 1]) * 10 + (s[|s| - 1] as int - '0' as int)
  }

  /** Formatting a natural number and reading it back gives the number. */
  lemma {:induction false} NatDigitsRoundTrip(n: nat)
    ensures NatDigits(n) != [] && AllDigits(NatDigits(n))
    ensures DigitsValue(NatDigits(n)) == n
    decreases n
  {
    if n >= 10 {
      NatDigitsRoundTrip(n / 10);
      var s := NatDigits(n);
      assert s[..|s| - 1] == NatDigits(n / 10);
    }
  }

  /** Itoa starts with a digit or with '-', never with anything else. */
  lemma ItoaHead(n: int)
    ensures Itoa(n) != [] && (IsDigit(Itoa(n)[0]) || Itoa(n)[0] == '-')
  {
    NatDigitsRoundTrip(if n < 0 then -n else n);
  }

  function Spaces(n: nat): string {
    seq(n, _ => ' ')
  }

  /** fmt's %-*s: left-justified in a field of at least w characters. */
  function PadRight(s: string, w: int): (r: string)
    ensures s <= r && |r| == if |s| >= w then |s| else w
    ensures forall k :: |s| <= k < |r| ==> r[k] == ' '
  {
    if |s| >= w then s else s + Spaces(w - |s|)
  }

  /** fmt's %*s for the text of a number: right-justified in a field of at least w characters. */
  function PadLeft(s: string, w: int): (r: string)
    ensures |r| == (if |s| >= w then |s| else w) && r[|r| - |s|..] == s
    ensures forall k :: 0 <= k < |r| - |s| ==> r[k] == ' '
  {
    if |s| >= w then s else Spaces(w - |s|) + s
  }
}
