/**
 * The pieces of the Java platform that the SubRip parser leans on, stated
 * as functions on strings: Integer.parseInt and Long.parseLong (decimal
 * radix), String.trim, and the character classes of java.util.regex that
 * its two patterns use (\d, \s, and the line terminators that `.` refuses).
 */
module JavaLang {

  datatype Option<+T> = None | Some(value: T)

  const IntMin: int := -0x8000_0000
  const IntMax: int := 0x7FFF_FFFF
  const LongMin: int := -0x8000_0000_0000_0000
  const LongMax: int := 0x7FFF_FFFF_FFFF_FFFF

  // ---------------------------------------------------------------------
  // Character classes
  // ---------------------------------------------------------------------

  /** `\d` without UNICODE_CHARACTER_CLASS: the ASCII digits. */
  predicate IsDigit(c: char) { '0' <= c <= '9' }

  predicate AllDigits(s: string) { forall i :: 0 <= i < |s| ==> IsDigit(s[i]) }

  /** `\s` without UNICODE_CHARACTER_CLASS: [ \t\n\x0B\f\r]. */
  predicate IsWhitespace(c: char) {
    c == ' ' || c == '\t' || c == '\n' || c == '\U{000B}' || c == '\U{000C}' || c == '\r'
  }

  /** The line terminators that `.` does not match (no UNIX_LINES, no DOTALL). */
  predicate IsLineTerminator(c: char) {
    c == '\n' || c == '\r' || c == '\U{0085}' || c == '\U{2028}' || c == '\U{2029}'
  }

  predicate IsSign(c: char) { c == '+' || c == '-' }

  // ---------------------------------------------------------------------
  // Decimal numerals
  // ---------------------------------------------------------------------

  function DigitValue(c: char): nat
    requires IsDigit(c)
  {
    c as int - '0' as int
  }

  function DigitChar(d: nat): (c: char)
    requires d < 10
    ensures IsDigit(c) && DigitValue(c) == d
  {
    ('0' as int + d) as char
  }

  /** The value of a string of decimal digits, most significant first. */
  function DecimalValue(ds: string): nat
    requires AllDigits(ds)
  {
    if ds == [] then 0 else 10 * DecimalValue(ds[..|ds| - 1]) + DigitValue(ds[|ds| - 1])
  }

  /** The shortest decimal numeral of n, as Integer.toString writes it. */
  function DecimalString(n: nat): (s: string)
    ensures s != [] && AllDigits(s)
  {
    if n < 10 then [DigitChar(n)] else DecimalString(n / 10) + [DigitChar(n % 10)]
  }

  /** Reading back what DecimalString wrote gives the number. */
  lemma {:induction false} DecimalRoundTrip(n: nat)
    ensures DecimalValue(DecimalString(n)) == n
  {
    var s := DecimalString(n);
    if n >= 10 {
      DecimalRoundTrip(n / 10);
      assert s[..|s| - 1] == DecimalString(n / 10);
    }
  }

  // ---------------------------------------------------------------------
  // Integer.parseInt / Long.parseLong
  // ---------------------------------------------------------------------

  /**
   * The radix-10 parse shared by Integer.parseInt and Long.parseLong: an
   * optional leading '+' or '-', then at least one digit, and a value in
   * [lo, hi]; anything else throws NumberFormatException (None).
   */
  function ParseSigned(s: string, lo: int, hi: int): (r: Option<int>)
    ensures r.Some? ==> lo <= r.value <= hi
    ensures r.Some? ==> s != [] && (IsDigit(s[0]) || IsSign(s[0]))
    ensures r.Some? ==> forall i :: 0 < i < |s| ==> IsDigit(s[i])
    ensures r.Some? && !IsDigit(s[0]) ==> |s| >= 2
    ensures r.Some? && r.value < 0 ==> s[0] == '-'
  {
    if s == [] then None
    else
      var digits := if IsSign(s[0]) then s[1..] else s;
      if digits == [] || !AllDigits(digits) then None
      else
        var v := if s[0] == '-' then -(DecimalValue(digits) as int) else DecimalValue(digits);
        if lo <= v <= hi then Some(v) else None
  }

  /** Integer.parseInt(s): 32-bit range. */
  function ParseInt(s: string): (r: Option<int>)
    ensures r.Some? ==> IntMin <= r.value <= IntMax
    ensures s == [] ==> r.None?
  {
    ParseSigned(s, IntMin, IntMax)
  }

  /** Long.parseLong(s): 64-bit range. */
  function ParseLong(s: string): (r: Option<int>)
    ensures r.Some? ==> LongMin <= r.value <= LongMax
    ensures AllDigits(s) && r.Some? ==> r.value >= 0
  {
    ParseSigned(s, LongMin, LongMax)
  }

  /** The value a sign ("", "+" or "-") and a digit string stand for. */
  function SignedValue(sign: string, ds: string): int
    requires AllDigits(ds)
  {
    if sign == "-" then -(DecimalValue(ds) as int) else DecimalValue(ds)
  }

  /**
   * An optional sign followed by at least one digit, leading zeros allowed,
   * is accepted exactly when its value lies in [lo, hi], and then read as
   * that value.
   */
  lemma ParseSignedOfNumeral(sign: string, ds: string, lo: int, hi: int)
    requires sign == "" || sign == "+" || sign == "-"
    requires ds != [] && AllDigits(ds)
    ensures ParseSigned(sign + ds, lo, hi)
         == if lo <= SignedValue(sign, ds) <= hi then Some(SignedValue(sign, ds)) else None
  {
    var s := sign + ds;
    if sign == "" {
      assert s == ds;
    } else {
      assert s[0] == sign[0] && s[1..] == ds;
    }
  }

  /** Integer.parseInt accepts a signed numeral, leading zeros included, exactly when it fits in 32 bits. */
  lemma ParseIntOfNumeral(sign: string, ds: string)
    requires sign == "" || sign == "+" || sign == "-"
    requires ds != [] && AllDigits(ds)
    ensures ParseInt(sign + ds)
         == if IntMin <= SignedValue(sign, ds) <= IntMax then Some(SignedValue(sign, ds)) else None
  {
    ParseSignedOfNumeral(sign, ds, IntMin, IntMax);
  }

  /** Every numeral Integer.toString writes for a non-negative int is read back. */
  lemma ParseIntOfDecimal(n: nat)
    requires n <= IntMax
    ensures ParseInt(DecimalString(n)) == Some(n)
    ensures ParseInt("+" + DecimalString(n)) == Some(n)
  {
    DecimalRoundTrip(n);
    assert ("+" + DecimalString(n))[1..] == DecimalString(n);
  }

  /** A '-' in front of a numeral is accepted down to IntMin, and negates it. */
  lemma ParseIntOfNegated(n: nat)
    requires n <= -IntMin
    ensures ParseInt("-" + DecimalString(n)) == Some(-(n as int))
  {
    DecimalRoundTrip(n);
    assert ("-" + DecimalString(n))[1..] == DecimalString(n);
  }

  /** A digit string whose value exceeds the range is refused. */
  lemma ParseLongOutOfRange(ds: string)
    requires ds != [] && AllDigits(ds) && DecimalValue(ds) > LongMax
    ensures ParseLong(ds) == None
  {
  }

  /** A digit string within the range parses to its value. */
  lemma ParseLongOfDigits(ds: string)
    requires ds != [] && AllDigits(ds) && DecimalValue(ds) <= LongMax
    ensures ParseLong(ds) == Some(DecimalValue(ds))
  {
  }

  // ---------------------------------------------------------------------
  // String.trim
  // ---------------------------------------------------------------------

  /** String.trim treats every character up to U+0020 as blank. */
  predicate IsTrimmable(c: char) { c <= ' ' }

  predicate AllTrimmable(s: string) { forall i :: 0 <= i < |s| ==> IsTrimmable(s[i]) }

  /** The first index at or after i that holds a non-blank character, else |s|. */
  function SkipBlank(s: string, i: nat): (a: nat)
    requires i <= |s|
    ensures i <= a <= |s|
    ensures forall p :: i <= p < a ==> IsTrimmable(s[p])
    ensures a < |s| ==> !IsTrimmable(s[a])
    decreases |s| - i
  {
    if i == |s| || !IsTrimmable(s[i]) then i else SkipBlank(s, i + 1)
  }

  /** The end b' <= b of s[a..b] once its trailing blanks are dropped. */
  function DropBlankEnd(s: string, a: nat, b: nat): (e: nat)
    requires a <= b <= |s|
    ensures a <= e <= b
    ensures forall p :: e <= p < b ==> IsTrimmable(s[p])
    ensures e > a ==> !IsTrimmable(s[e - 1])
    decreases b - a
  {
    if b == a || !IsTrimmable(s[b - 1]) then b else DropBlankEnd(s, a, b - 1)
  }

  /** String.trim: s without its leading and trailing characters <= U+0020. */
  function Trim(s: string): (r: string)
    ensures |r| <= |s|
  {
    var a := SkipBlank(s, 0);
    s[a..DropBlankEnd(s, a, |s|)]
  }

  /** The result of Trim neither starts nor ends with a blank, and is empty exactly when s is all blanks. */
  lemma TrimEnds(s: string)
    ensures var r := Trim(s);
            && (r != [] ==> !IsTrimmable(r[0]) && !IsTrimmable(r[|r| - 1]))
            && (r == [] <==> AllTrimmable(s))
  {
  }

  /** The result of Trim is a slice of s with only blanks cut on either side. */
  lemma TrimIsSlice(s: string)
    ensures var r := Trim(s);
            exists a :: 0 <= a <= |s| - |r| && s[a..a + |r|] == r && AllTrimmable(s[..a]) && AllTrimmable(s[a + |r|..])
  {
    var a := SkipBlank(s, 0);
    var e := DropBlankEnd(s, a, |s|);
    assert AllTrimmable(s[..a]) && AllTrimmable(s[e..]);
    assert s[a..a + (e - a)] == s[a..e];
  }
}
