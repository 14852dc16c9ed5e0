// Values shared by every component: an optional value, a result, and the two
// string operations of the host that matter for replay (trimming and cutting).

module Wrappers {
  datatype Option<+T> = None | Some(value: T)

  datatype Result<+T, +E> = Ok(value: T) | Err(error: E)
}

// Go strings are modelled as sequences of characters; a character is one rune
// where the source counts runes.
module Text {

  // unicode.IsSpace: the White_Space property of Unicode.
  predicate IsSpace(c: char) {
    '\t' <= c <= '\r' || c == ' ' || c == '\U{85}' || c == '\U{A0}' || c == '\U{1680}' ||
    '\U{2000}' <= c <= '\U{200A}' || c == '\U{2028}' || c == '\U{2029}' || c == '\U{202F}' ||
    c == '\U{205F}' || c == '\U{3000}'
  }

  function TrimLeft(s: string): (r: string) {
    if s != "" && IsSpace(s[0]) then TrimLeft(s[1..]) else s
  }

  function TrimRight(s: string): (r: string) {
    if s != "" && IsSpace(s[|s| - 1]) then TrimRight(s[..|s| - 1]) else s
  }

  // strings.TrimSpace.
  function TrimSpace(s: string): string {
    TrimRight(TrimLeft(s))
  }

  // Trim, then keep at most n runes (alerts.bounded and audit.boundedValue).
  function Bounded(s: string, n: nat): string {
    var t := TrimSpace(s);
    if |t| <= n then t else t[..n]
  }

  ghost predicate IsTrimmed(s: string) {
    s != "" ==> !IsSpace(s[0]) && !IsSpace(s[|s| - 1])
  }

  // The trimmed text is the part of s between its outermost non-space runes.
  ghost predicate IsTrimOf(s: string, t: string, lo: nat) {
    && lo + |t| <= |s|
    && t == s[lo..lo + |t|]
    && (forall i :: 0 <= i < lo ==> IsSpace(s[i]))
    && (forall i :: lo + |t| <= i < |s| ==> IsSpace(s[i]))
  }

  lemma {:induction false} TrimLeftParts(s: string) returns (lo: nat)
    ensures lo <= |s| && TrimLeft(s) == s[lo..]
    ensures forall i :: 0 <= i < lo ==> IsSpace(s[i])
    ensures TrimLeft(s) != "" ==> !IsSpace(TrimLeft(s)[0])
  {
    if s != "" && IsSpace(s[0]) {
      var k := TrimLeftParts(s[1..]);
      lo := k + 1;
      forall i | 0 <= i < lo ensures IsSpace(s[i]) {
        if i > 0 { assert s[i] == s[1..][i - 1]; }
      }
    } else {
      lo := 0;
    }
  }

  lemma {:induction false} TrimRightParts(s: string) returns (hi: nat)
    ensures hi <= |s| && TrimRight(s) == s[..hi]
    ensures forall i :: hi <= i < |s| ==> IsSpace(s[i])
    ensures hi > 0 ==> !IsSpace(s[hi - 1])
  {
    if s != "" && IsSpace(s[|s| - 1]) {
      hi := TrimRightParts(s[..|s| - 1]);
    } else {
      hi := |s|;
    }
  }

  // TrimSpace removes exactly the leading and trailing spaces.
  lemma TrimSpaceParts(s: string) returns (lo: nat)
    ensures IsTrimOf(s, TrimSpace(s), lo)
    ensures IsTrimmed(TrimSpace(s))
  {
    lo := TrimLeftParts(s);
    var hi := TrimRightParts(s[lo..]);
    var t := TrimSpace(s);
    var rest := s[lo..];
    assert forall i :: lo <= i < |s| ==> s[i] == rest[i - lo];
    assert t == rest[..hi] && s[lo..lo + hi] == rest[..hi];
    if t != "" { assert t[0] == rest[0]; }
  }

  lemma TrimmedIsFixed(s: string)
    requires IsTrimmed(s)
    ensures TrimSpace(s) == s
  {
  }

  // Trimming leaves nothing exactly of a text that is all space.
  lemma BlankIff(s: string)
    ensures TrimSpace(s) == "" <==> forall i :: 0 <= i < |s| ==> IsSpace(s[i])
  {
    hide IsSpace, TrimSpace;
    var lo := TrimSpaceParts(s);
    if TrimSpace(s) != "" { assert s[lo] == TrimSpace(s)[0]; }
  }

  // Trimming and cutting once is not a normal form, but doing it twice is.
  lemma BoundedTwiceIsFixed(s: string, n: nat)
    ensures var twice := Bounded(Bounded(s, n), n); Bounded(twice, n) == twice
  {
    var once := Bounded(s, n);
    var lo := TrimSpaceParts(once);
    TrimmedIsFixed(TrimSpace(once));
  }

  // Bounded is idempotent on exactly the inputs whose cut does not end in a space.
  lemma BoundedIdempotentIff(s: string, n: nat)
    ensures Bounded(Bounded(s, n), n) == Bounded(s, n) <==>
            (var t := TrimSpace(s); |t| <= n || n == 0 || !IsSpace(t[n - 1]))
  {
    var t := TrimSpace(s);
    var lo := TrimSpaceParts(s);
    var once := Bounded(s, n);
    if |t| <= n || n == 0 || !IsSpace(t[n - 1]) {
      TrimmedIsFixed(once);
    } else {
      assert once[|once| - 1] == t[n - 1];
      var k := TrimSpaceParts(once);
      assert !IsTrimmed(once);
    }
  }

  lemma TrimTwice(s: string)
    ensures TrimSpace(TrimSpace(s)) == TrimSpace(s)
  {
    var lo := TrimSpaceParts(s);
    TrimmedIsFixed(TrimSpace(s));
  }

  // The host's names: a letter or digit, then at most 127 letters, digits, dots,
  // underscores or hyphens.
  predicate NameRune(c: char, first: bool) {
    'A' <= c <= 'Z' || 'a' <= c <= 'z' || '0' <= c <= '9' || (!first && (c == '.' || c == '_' || c == '-'))
  }

  predicate IsName(s: string) {
    0 < |s| <= 128 && forall i :: 0 <= i < |s| ==> NameRune(s[i], i == 0)
  }

  // Length of a character, and of a string, in UTF-8.
  function RuneBytes(c: char): nat {
    if c < '\U{80}' then 1 else if c < '\U{800}' then 2 else if c < '\U{10000}' then 3 else 4
  }

  function StringBytes(s: string): nat {
    if s == "" then 0 else RuneBytes(s[0]) + StringBytes(s[1..])
  }

  // A number in decimal, as fmt prints it.
  function Digit(d: nat): char
    requires d < 10
  {
    ('0' as int + d) as char
  }

  // Two texts with a NUL between them.
  function Joined(a: string, b: string): string { a + ['\0'] + b }

  lemma JoinedFirst(a: string, b: string, x: string, y: string)
    requires '\0' !in a && '\0' !in x && Joined(a, b) == Joined(x, y)
    ensures a == x && b == y
  {
    assert Joined(a, b)[|a|] == '\0' && Joined(x, y)[|x|] == '\0';
    assert forall i :: 0 <= i < |a| ==> Joined(a, b)[i] == a[i];
    assert forall i :: 0 <= i < |x| ==> Joined(x, y)[i] == x[i];
    assert |a| == |x|;
    assert a == Joined(a, b)[..|a|] && x == Joined(x, y)[..|x|];
    assert b == Joined(a, b)[|a| + 1..] && y == Joined(x, y)[|x| + 1..];
  }

  lemma JoinedLast(a: string, b: string, x: string, y: string)
    requires '\0' !in b && '\0' !in y && Joined(a, b) == Joined(x, y)
    ensures a == x && b == y
  {
    assert Joined(a, b)[|a|] == '\0' && Joined(x, y)[|x|] == '\0';
    assert forall i :: 0 <= i < |b| ==> Joined(a, b)[|a| + 1 + i] == b[i];
    assert forall i :: 0 <= i < |y| ==> Joined(x, y)[|x| + 1 + i] == y[i];
    assert |a| == |x|;
    assert a == Joined(a, b)[..|a|] && x == Joined(x, y)[..|x|];
    assert b == Joined(a, b)[|a| + 1..] && y == Joined(x, y)[|x| + 1..];
  }

  function Decimal(n: nat): string {
    if n < 10 then [Digit(n)] else Decimal(n / 10) + [Digit(n % 10)]
  }

  lemma DecimalNotEmpty(n: nat)
    ensures |Decimal(n)| > 0
  {
  }

  lemma {:induction false} DecimalIsInjective(m: nat, n: nat)
    requires Decimal(m) == Decimal(n)
    ensures m == n
  {
    var a, b := Decimal(m), Decimal(n);
    DecimalNotEmpty(m / 10);
    DecimalNotEmpty(n / 10);
    assert a[|a| - 1] == b[|b| - 1];
    if m < 10 || n < 10 {
      assert |a| == |b|;
      assert m < 10 && n < 10;
    } else {
      assert a[..|a| - 1] == Decimal(m / 10) && b[..|b| - 1] == Decimal(n / 10);
      DecimalIsInjective(m / 10, n / 10);
    }
  }

  lemma {:induction false} DecimalDigits(n: nat)
    ensures forall c :: c in Decimal(n) ==> '0' <= c <= '9'
  {
    if n >= 10 { DecimalDigits(n / 10); }
  }

  function SignedDecimal(n: int): string {
    if n < 0 then "-" + Decimal(-n) else Decimal(n)
  }

  lemma NoNulInNumber(n: int)
    ensures '\0' !in SignedDecimal(n)
  {
    DecimalDigits(if n < 0 then -n else n);
  }

  lemma SignedDecimalIsInjective(m: int, n: int)
    requires SignedDecimal(m) == SignedDecimal(n)
    ensures m == n
  {
    var a, b := if m < 0 then -m else m, if n < 0 then -n else n;
    DecimalDigits(a);
    DecimalDigits(b);
    DecimalNotEmpty(a);
    DecimalNotEmpty(b);
    assert (m < 0) == (n < 0) by {
      assert SignedDecimal(m)[0] == SignedDecimal(n)[0];
      assert Decimal(a)[0] in Decimal(a) && Decimal(b)[0] in Decimal(b);
    }
    assert m < 0 ==> Decimal(a) == SignedDecimal(m)[1..] == SignedDecimal(n)[1..] == Decimal(b);
    DecimalIsInjective(a, b);
  }
}
