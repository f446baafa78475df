/**
 * String helpers with the Python semantics the consolidator relies on:
 * `str.strip()`, `str.lstrip('0')`, `str.lower()` (ASCII letters only),
 * `str.isdigit()` (ASCII digits only) and the `int(text)` / `str(n)` round trip on decimals.
 */
module Text {

  function Max(a: int, b: int): int { if a < b then b else a }

  /** The characters Python's `str.isspace()` accepts, i.e. what `str.strip()` removes. */
  predicate IsSpace(c: char) {
    var n := c as int;
    (9 <= n <= 13) || (28 <= n <= 32) || n == 0x85 || n == 0xA0 || n == 0x1680
    || (0x2000 <= n <= 0x200A) || n == 0x2028 || n == 0x2029 || n == 0x202F
    || n == 0x205F || n == 0x3000
  }

  /** `s.lstrip()`: drops the leading whitespace. */
  function TrimStart(s: string): string {
    if s != [] && IsSpace(s[0]) then TrimStart(s[1..]) else s
  }

  /** `s.rstrip()`: drops the trailing whitespace. */
  function TrimEnd(s: string): string {
    if s != [] && IsSpace(s[|s| - 1]) then TrimEnd(s[..|s| - 1]) else s
  }

  /** `s.strip()`. */
  function Strip(s: string): string {
    TrimEnd(TrimStart(s))
  }

  /** `lstrip` keeps a suffix and removes exactly the whitespace before it. */
  lemma {:induction false} TrimStartFacts(s: string)
    ensures var r := TrimStart(s);
      && |r| <= |s| && r == s[|s| - |r|..]
      && (r == [] || !IsSpace(r[0]))
      && forall i | 0 <= i < |s| - |r| :: IsSpace(s[i])
    decreases |s|
  {
    if s != [] && IsSpace(s[0]) {
      TrimStartFacts(s[1..]);
    }
  }

  /** `rstrip` keeps a prefix and removes exactly the whitespace after it. */
  lemma {:induction false} TrimEndFacts(s: string)
    ensures var r := TrimEnd(s);
      && |r| <= |s| && r == s[..|r|]
      && (r == [] || !IsSpace(r[|r| - 1]))
      && forall i | |r| <= i < |s| :: IsSpace(s[i])
    decreases |s|
  {
    if s != [] && IsSpace(s[|s| - 1]) {
      TrimEndFacts(s[..|s| - 1]);
    }
  }

  /**
   * `strip` leaves no whitespace at either end, never lengthens, and gives the empty
   * string exactly when the text is all whitespace.
   */
  lemma StripFacts(s: string)
    ensures var r := Strip(s);
      && |r| <= |s|
      && (r == [] || (!IsSpace(r[0]) && !IsSpace(r[|r| - 1])))
      && (r == [] <==> forall i | 0 <= i < |s| :: IsSpace(s[i]))
  {
    var t := TrimStart(s);
    TrimStartFacts(s);
    TrimEndFacts(t);
    var r := TrimEnd(t);
    if r == [] {
      assert t == [];
    } else {
      assert t != [] && t[0] == r[0];
      assert !IsSpace(s[|s| - |t|]);
    }
  }

  /** A string without surrounding whitespace is its own strip. */
  lemma StripNoop(s: string)
    requires s == [] || (!IsSpace(s[0]) && !IsSpace(s[|s| - 1]))
    ensures Strip(s) == s
  {
  }

  lemma StripIdempotent(s: string)
    ensures Strip(Strip(s)) == Strip(s)
  {
    StripFacts(s);
    StripNoop(Strip(s));
  }

  /** Stripping a string that starts with whitespace makes it strictly shorter. */
  lemma StripShortens(s: string)
    requires s != [] && IsSpace(s[0])
    ensures |Strip(s)| < |s|
  {
    TrimStartFacts(s[1..]);
    TrimEndFacts(TrimStart(s));
  }

  /** Python's `str.lower()` on one character; only ASCII letters are case-folded here. */
  function LowerChar(c: char): char {
    if 'A' <= c <= 'Z' then (c as int + 32) as char else c
  }

  function Lower(s: string): string {
    seq(|s|, i requires 0 <= i < |s| => LowerChar(s[i]))
  }

  predicate IsLowerCase(s: string) {
    forall i | 0 <= i < |s| :: !('A' <= s[i] <= 'Z')
  }

  /** Lower-casing leaves no upper-case letter, touches no whitespace, and is idempotent. */
  lemma LowerFacts(s: string)
    ensures IsLowerCase(Lower(s))
    ensures Lower(Lower(s)) == Lower(s)
    ensures forall i | 0 <= i < |s| :: IsSpace(Lower(s)[i]) == IsSpace(s[i])
  {
  }

  lemma LowerOfLowerCase(s: string)
    requires IsLowerCase(s)
    ensures Lower(s) == s
  {
  }

  predicate IsDigit(c: char) { '0' <= c <= '9' }

  /** Python's `text.isdigit()` restricted to ASCII digits: non-empty and digits only. */
  predicate AllDigits(s: string) {
    |s| > 0 && forall i | 0 <= i < |s| :: IsDigit(s[i])
  }

  predicate DigitsOnly(s: string) {
    forall i | 0 <= i < |s| :: IsDigit(s[i])
  }

  function DigitValue(c: char): nat
    requires IsDigit(c)
  {
    c as int - '0' as int
  }

  function DigitChar(d: nat): (c: char)
    requires d < 10
    ensures IsDigit(c) && DigitValue(c) == d
  {
    ('0' as int + d) as char
  }

  /** `int(text)` for a string of ASCII digits. */
  function ParseNat(s: string): nat
    requires DigitsOnly(s)
  {
    if s == [] then 0 else ParseNat(s[..|s| - 1]) * 10 + DigitValue(s[|s| - 1])
  }

  /** `str(n)` for a natural number. */
  function NatToString(n: nat): string
    decreases n
  {
    if n < 10 then [DigitChar(n)] else NatToString(n / 10) + [DigitChar(n % 10)]
  }

  /** The decimal form is a non-empty digit string, "0" only for zero, and without a leading zero otherwise. */
  lemma {:induction false} NatToStringFacts(n: nat)
    ensures var r := NatToString(n);
      && AllDigits(r)
      && (r == "0" <==> n == 0)
      && (r[0] != '0' || r == "0")
    decreases n
  {
    if n >= 10 {
      NatToStringFacts(n / 10);
      var p := NatToString(n / 10);
      var r := NatToString(n);
      assert r == p + [DigitChar(n % 10)];
      assert r[0] == p[0];
      assert forall i | 0 <= i < |p| :: r[i] == p[i];
    }
  }

  /** `str(i)` for an integer. */
  function IntToString(i: int): string {
    if i < 0 then "-" + NatToString(-i) else NatToString(i)
  }

  /** `s.lstrip('0')`. */
  function LStripZeros(s: string): string {
    if s != [] && s[0] == '0' then LStripZeros(s[1..]) else s
  }

  /** `lstrip('0')` keeps a suffix that does not start with '0' and removes only zeros before it. */
  lemma {:induction false} LStripZerosFacts(s: string)
    ensures var r := LStripZeros(s);
      && |r| <= |s| && r == s[|s| - |r|..]
      && (r == [] || r[0] != '0')
      && forall i | 0 <= i < |s| - |r| :: s[i] == '0'
  {
    if s != [] && s[0] == '0' {
      var t := s[1..];
      LStripZerosFacts(t);
      var r := LStripZeros(t);
      assert LStripZeros(s) == r;
      assert t[|t| - |r|..] == s[|s| - |r|..];
      forall i | 0 <= i < |s| - |r|
        ensures s[i] == '0'
      {
        if i > 0 {
          assert s[i] == t[i - 1];
        }
      }
    }
  }

  /** `int(str(n)) == n`. */
  lemma {:induction false} ParseNatOfNatToString(n: nat)
    ensures DigitsOnly(NatToString(n)) && ParseNat(NatToString(n)) == n
    decreases n
  {
    NatToStringFacts(n);
    if n >= 10 {
      var s := NatToString(n);
      assert s[..|s| - 1] == NatToString(n / 10);
      ParseNatOfNatToString(n / 10);
    }
  }

  /** A leading '0' does not change the value of a digit string. */
  lemma {:induction false} ParseNatZeroPrefix(t: string)
    requires DigitsOnly(t)
    ensures DigitsOnly("0" + t) && ParseNat("0" + t) == ParseNat(t)
    decreases |t|
  {
    var s := "0" + t;
    if t != [] {
      assert s[..|s| - 1] == "0" + t[..|t| - 1];
      ParseNatZeroPrefix(t[..|t| - 1]);
    }
  }

  lemma {:induction false} ParseNatIgnoresLeadingZeros(s: string)
    requires DigitsOnly(s)
    ensures DigitsOnly(LStripZeros(s)) && ParseNat(LStripZeros(s)) == ParseNat(s)
    decreases |s|
  {
    if s != [] && s[0] == '0' {
      ParseNatIgnoresLeadingZeros(s[1..]);
      assert s == "0" + s[1..];
      ParseNatZeroPrefix(s[1..]);
    }
  }

  /** A digit string without leading zeros is exactly the decimal form of its value. */
  lemma {:induction false} CanonicalDigits(s: string)
    requires AllDigits(s) && s[0] != '0'
    ensures NatToString(ParseNat(s)) == s
    decreases |s|
  {
    var p := s[..|s| - 1];
    var d := DigitValue(s[|s| - 1]);
    if p == [] {
      assert s == [s[0]];
    } else {
      assert AllDigits(p) && p[0] == s[0];
      CanonicalDigits(p);
      var v := ParseNat(p);
      NatToStringFacts(v);
      assert NatToString(v) != "0" by { assert p[0] != '0'; }
      var n := v * 10 + d;
      assert n / 10 == v && n % 10 == d;
      assert NatToString(n) == NatToString(v) + [DigitChar(d)];
      assert s == p + [s[|s| - 1]];
    }
  }

  /**
   * `str(int(text))` for an ASCII digit string is the text with its leading zeros
   * removed, or "0" when nothing but zeros was there.
   */
  lemma DecimalRoundTrip(s: string)
    requires AllDigits(s)
    ensures NatToString(ParseNat(s)) == if LStripZeros(s) == [] then "0" else LStripZeros(s)
  {
    ParseNatIgnoresLeadingZeros(s);
    LStripZerosFacts(s);
    var t := LStripZeros(s);
    if t == [] {
      assert ParseNat(t) == 0;
      assert NatToString(0) == "0";
    } else {
      assert AllDigits(t) by {
        forall i | 0 <= i < |t|
          ensures IsDigit(t[i])
        {
          assert t[i] == s[|s| - |t| + i];
        }
      }
      CanonicalDigits(t);
    }
  }
}
