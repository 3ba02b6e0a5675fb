/** The few JavaScript string operations the backend relies on:
    `String.prototype.trim`, `String.prototype.toUpperCase` and the decimal
    rendering of an integer inside a template literal. */
module JsText {

  /** ECMAScript WhiteSpace and LineTerminator code points: exactly the
      characters `trim` removes. */
  predicate IsWhitespace(c: char) {
    || c == '\t' || c == '\n' || c == '\U{000B}' || c == '\U{000C}' || c == '\r'
    || c == ' ' || c == '\U{00A0}' || c == '\U{1680}'
    || ('\U{2000}' <= c <= '\U{200A}')
    || c == '\U{2028}' || c == '\U{2029}' || c == '\U{202F}' || c == '\U{205F}'
    || c == '\U{3000}' || c == '\U{FEFF}'
  }

  predicate AllWhitespace(s: string) {
    forall i :: 0 <= i < |s| ==> IsWhitespace(s[i])
  }

  /** Neither end of `s` is whitespace (an empty string qualifies). */
  predicate Trimmed(s: string) {
    s == [] || (!IsWhitespace(s[0]) && !IsWhitespace(s[|s| - 1]))
  }

  /** Drops the leading whitespace of `s`. */
  function TrimStart(s: string): (r: string)
    ensures |r| <= |s|
    ensures r == [] || !IsWhitespace(r[0])
  {
    if s != [] && IsWhitespace(s[0]) then TrimStart(s[1..]) else s
  }

  /** What `TrimStart` drops is a whitespace prefix: its result is the rest. */
  lemma {:induction false} TrimStartSuffix(s: string)
    ensures var r := TrimStart(s);
      r == s[|s| - |r|..] && AllWhitespace(s[..|s| - |r|])
    decreases |s|
  {
    if s != [] && IsWhitespace(s[0]) {
      TrimStartSuffix(s[1..]);
      var r := TrimStart(s);
      assert s[1..][..|s| - 1 - |r|] == s[1..|s| - |r|];
    }
  }

  /** Drops the trailing whitespace of `s`. */
  function TrimEnd(s: string): (r: string)
    ensures |r| <= |s| && r == s[..|r|]
    ensures AllWhitespace(s[|r|..])
    ensures r == [] || !IsWhitespace(r[|r| - 1])
  {
    if s != [] && IsWhitespace(s[|s| - 1]) then TrimEnd(s[..|s| - 1]) else s
  }

  /** `s.trim()`: removes the whitespace at both ends of `s`. */
  function Trim(s: string): (r: string)
    ensures Trimmed(r)
  {
    TrimEnd(TrimStart(s))
  }

  /** What `trim` removes is whitespace and nothing else: its result is the
      slice of `s` between a whitespace prefix and a whitespace suffix. */
  lemma TrimSlice(s: string)
    ensures var r := Trim(s);
      exists i :: 0 <= i <= |s| - |r| && r == s[i..i + |r|]
        && AllWhitespace(s[..i]) && AllWhitespace(s[i + |r|..])
  {
    var t := TrimStart(s);
    TrimStartSuffix(s);
    var r := TrimEnd(t);
    var i := |s| - |t|;
    assert r == s[i..i + |r|];
    assert s[i + |r|..] == t[|r|..];
    assert AllWhitespace(s[..i]) && AllWhitespace(s[i + |r|..]);
  }

  lemma {:induction false} TrimStartPadded(w: string, c: string)
    requires AllWhitespace(w)
    requires c == [] || !IsWhitespace(c[0])
    ensures TrimStart(w + c) == c
    decreases |w|
  {
    if w != [] {
      assert (w + c)[1..] == w[1..] + c;
      TrimStartPadded(w[1..], c);
    }
  }

  lemma {:induction false} TrimEndPadded(c: string, w: string)
    requires AllWhitespace(w)
    requires c == [] || !IsWhitespace(c[|c| - 1])
    ensures TrimEnd(c + w) == c
    decreases |w|
  {
    if w != [] {
      assert (c + w)[..|c + w| - 1] == c + w[..|w| - 1];
      TrimEndPadded(c, w[..|w| - 1]);
    }
  }

  /** Whatever whitespace surrounds a string with no whitespace at its ends,
      `trim` returns exactly that string. With `Trim`'s own contract this
      says `Trim(s)` is the unique such core of `s`. */
  lemma TrimPadded(w1: string, c: string, w2: string)
    requires AllWhitespace(w1) && AllWhitespace(w2) && Trimmed(c)
    ensures Trim(w1 + c + w2) == c
  {
    assert w1 + c + w2 == w1 + (c + w2);
    if c == [] {
      assert w1 + c + w2 == (w1 + w2) + [];
      assert AllWhitespace(w1 + w2);
      TrimStartPadded(w1 + w2, []);
    } else {
      TrimStartPadded(w1, c + w2);
      TrimEndPadded(c, w2);
    }
  }

  /** Trimming twice is trimming once. */
  lemma TrimIdempotent(s: string)
    ensures Trim(Trim(s)) == Trim(s)
  {
    var t := Trim(s);
    TrimPadded([], t, []);
    assert [] + t + [] == t;
  }

  /** `toUpperCase` on one character, for the ASCII letters (see README). */
  function UpperChar(c: char): char {
    if 'a' <= c <= 'z' then (c as int - 'a' as int + 'A' as int) as char else c
  }

  function ToUpper(s: string): string {
    seq(|s|, i requires 0 <= i < |s| => UpperChar(s[i]))
  }

  predicate IsUpper(s: string) {
    forall i :: 0 <= i < |s| ==> !('a' <= s[i] <= 'z')
  }

  /** The result of `toUpperCase` has no lower-case letter, and is left alone
      by a second `toUpperCase`; a string with no lower-case letter is its
      own upper case. */
  lemma ToUpperIdempotent(s: string)
    ensures IsUpper(ToUpper(s))
    ensures ToUpper(ToUpper(s)) == ToUpper(s)
    ensures IsUpper(s) ==> ToUpper(s) == s
  {
  }

  /** Upper-casing moves no character into or out of the whitespace set,
      so a string whose upper case is trimmed is trimmed itself. */
  lemma TrimmedOfUpper(s: string)
    requires Trimmed(ToUpper(s))
    ensures Trimmed(s)
  {
    if s != [] {
      var u := ToUpper(s);
      assert u[0] == UpperChar(s[0]) && u[|s| - 1] == UpperChar(s[|s| - 1]);
    }
  }

  /** An upper-case string with no whitespace at its ends is left unchanged
      by `trim` followed by `toUpperCase`. */
  lemma CanonicalUnchanged(s: string)
    requires IsUpper(s) && Trimmed(s)
    ensures ToUpper(Trim(s)) == s
  {
    TrimPadded([], s, []);
    assert [] + s + [] == s;
    ToUpperIdempotent(s);
  }

  predicate IsDigit(c: char) {
    '0' <= c <= '9'
  }

  function DigitChar(d: nat): char
    requires d < 10
  {
    ('0' as int + d) as char
  }

  /** The value of a decimal digit character (only meaningful on digits). */
  function DigitValue(c: char): int {
    c as int - '0' as int
  }

  predicate AllDigits(s: string) {
    forall i :: 0 <= i < |s| ==> IsDigit(s[i])
  }

  /** The number a run of decimal digits denotes (only meaningful on
      digits). */
  function DigitsValue(s: string): int {
    if s == [] then 0 else DigitsValue(s[..|s| - 1]) * 10 + DigitValue(s[|s| - 1])
  }

  /** Decimal rendering of a natural number, as `${n}` gives it. */
  function NatToString(n: nat): (r: string)
    ensures r != [] && AllDigits(r)
    ensures DigitsValue(r) == n
    decreases n
  {
    if n < 10 then [DigitChar(n)] else
      var p := NatToString(n / 10);
      var r := p + [DigitChar(n % 10)];
      assert r[..|r| - 1] == p;
      r
  }

  /** Decimal rendering of an integer, with a leading '-' when negative. */
  function IntToString(i: int): string {
    if i < 0 then "-" + NatToString(-i) else NatToString(i)
  }

  /** Distinct numbers render differently: `DigitsValue` inverts `NatToString`. */
  lemma NatToStringInjective(a: nat, b: nat)
    requires NatToString(a) == NatToString(b)
    ensures a == b
  {
  }

  lemma {:induction false} FourDigitYear(y: int)
    requires 1000 <= y <= 9999
    ensures IntToString(y) == NatToString(y) && |NatToString(y)| == 4
  {
    var a, b, c := y / 10, y / 100, y / 1000;
    assert b == a / 10 && c == b / 10;
    assert |NatToString(c)| == 1;
    assert |NatToString(b)| == 2;
    assert |NatToString(a)| == 3;
  }
}
