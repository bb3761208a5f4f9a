/** The C and GLib text and integer primitives the plugin relies on, written
    out explicitly: `atoi` (glibc), `g_strsplit (s, ",", 2)`, the `%lu` and
    `%x` conversions of `printf`, the `gint`/`gulong`/`GLuint` widths and C's
    truncating integer division. */
module CStrings {

  /* ----- integer widths (LP64) ----- */

  const INT_MIN: int := -0x8000_0000
  const INT_MAX: int := 0x7fff_ffff
  const LONG_MIN: int := -0x8000_0000_0000_0000
  const LONG_MAX: int := 0x7fff_ffff_ffff_ffff
  const ULONG_MODULUS: int := 0x1_0000_0000_0000_0000
  const UINT_MODULUS: int := 0x1_0000_0000

  /** `gulong` on an LP64 platform. */
  type ulong = x: int | 0 <= x < ULONG_MODULUS
  /** `GLuint` / `unsigned int`. */
  type uint32 = x: int | 0 <= x < UINT_MODULUS

  predicate InInt(x: int) {
    INT_MIN <= x <= INT_MAX
  }

  /** Conversion of a `long` to `int` (GCC: reduction modulo 2^32). */
  function ToInt(x: int): (r: int)
    ensures InInt(r)
    ensures (r - x) % UINT_MODULUS == 0
    ensures InInt(x) ==> r == x
  {
    (x - INT_MIN) % UINT_MODULUS + INT_MIN
  }

  /** Conversion of an `int` to `gulong` (reduction modulo 2^64). */
  function ToULong(x: int): (r: ulong)
    ensures (r - x) % ULONG_MODULUS == 0
    ensures 0 <= x ==> r == x || x >= ULONG_MODULUS
    ensures 0 <= x < ULONG_MODULUS ==> r == x
  {
    x % ULONG_MODULUS
  }

  /** The defining property of C's `/` (C99, section 6.5.5): the remainder
      `a - q * b` is smaller than the divisor in magnitude and is zero or
      has the sign of the dividend. */
  predicate TruncatedQuotient(a: int, b: int, q: int) {
    var rem := a - q * b;
    Abs(rem) < Abs(b) && (rem == 0 || (rem < 0) == (a < 0))
  }

  /** C's `/` on integers: the quotient truncated toward zero. */
  function CDiv(a: int, b: int): (q: int)
    requires b != 0
    ensures TruncatedQuotient(a, b, q)
  {
    if (a < 0) == (b < 0) then Abs(a) / Abs(b) else -(Abs(a) / Abs(b))
  }

  /** At most one quotient has the truncation property, so `CDiv` is C's
      `/`; for a nonnegative dividend and a positive divisor it is the
      floor quotient. */
  lemma CDivUnique(a: int, b: int, q: int)
    requires b != 0 && TruncatedQuotient(a, b, q)
    ensures q == CDiv(a, b)
    ensures 0 <= a && 0 < b ==> q == a / b
  {
    var q0 := CDiv(a, b);
    if q != q0 {
      var r, r0 := a - q * b, a - q0 * b;
      MulDifference(q, q0, b);
      assert r0 - r == (q - q0) * b;
      AbsProductAtLeast(q - q0, b);
      assert false;
    }
    if 0 <= a && 0 < b {
      CDivOfNonnegative(a, b);
    }
  }

  lemma MulDifference(x: int, y: int, b: int)
    ensures x * b - y * b == (x - y) * b
  {
  }

  /** For a nonnegative dividend and a positive divisor, C's quotient is
      the floor quotient. */
  lemma CDivOfNonnegative(a: int, b: int)
    requires 0 <= a && 0 < b
    ensures CDiv(a, b) == a / b
  {
  }

  /** `|x * y| >= |y|` when `x` is not zero. */
  lemma AbsProductAtLeast(x: int, y: int)
    requires x != 0
    ensures Abs(x * y) >= Abs(y)
  {
    var n: nat := Abs(x) - 1;
    var m: nat := Abs(y);
    assert Abs(x * y) == (n + 1) * m by {
      if x < 0 && y < 0 {
        assert x * y == (-x) * (-y);
      } else if x < 0 {
        assert x * y == -((-x) * y);
      } else if y < 0 {
        assert x * y == -(x * (-y));
      }
    }
    assert (n + 1) * m == n * m + m;
    assert n * m >= 0;
  }

  /** A product of two positive integers is positive. */
  lemma ProductAtLeastOne(x: int, y: int)
    requires 1 <= x && 1 <= y
    ensures 1 <= x * y
  {
    var n: nat := x - 1;
    assert x * y == n * y + y;
  }

  function Abs(x: int): nat {
    if x < 0 then -x else x
  }

  /* ----- digits ----- */

  /** Value of a lower-case digit character, -1 for anything else. */
  function CharValue(c: char): int {
    if '0' <= c <= '9' then c as int - '0' as int
    else if 'a' <= c <= 'f' then c as int - 'a' as int + 10
    else -1
  }

  predicate IsDigitIn(c: char, base: nat) {
    0 <= CharValue(c) < base
  }

  /** `isdigit` of the C locale. */
  predicate IsDigit(c: char) {
    '0' <= c <= '9'
  }

  /** `isspace` of the C locale. */
  predicate IsSpace(c: char) {
    c == ' ' || c == '\t' || c == '\n' || c == '\U{B}' || c == '\U{C}' || c == '\r'
  }

  predicate AllDigitsIn(s: string, base: nat) {
    forall i :: 0 <= i < |s| ==> IsDigitIn(s[i], base)
  }

  /** The digit character `printf` uses for `d` (lower case for `%x`). */
  function DigitChar(d: nat): (c: char)
    requires d < 16
    ensures CharValue(c) == d
  {
    if d < 10 then ('0' as int + d) as char else ('a' as int + d - 10) as char
  }

  /** The two bases the plugin prints in: `%lu` and `%x`. */
  predicate IsBase(base: nat) {
    base == 10 || base == 16
  }

  /** The digits of `n` in `base`, most significant first, without leading
      zeros: what `%lu` (base 10) and `%x` (base 16) print. */
  function Numeral(n: nat, base: nat): (s: string)
    requires IsBase(base)
    ensures |s| > 0 && AllDigitsIn(s, base)
    decreases n
  {
    if n < base then [DigitChar(n)]
    else Numeral(n / base, base) + [DigitChar(n % base)]
  }

  /** The number a digit string denotes in `base`. */
  function NumeralValue(s: string, base: nat): nat
    requires IsBase(base)
    requires AllDigitsIn(s, base)
  {
    if |s| == 0 then 0
    else NumeralValue(s[..|s| - 1], base) * base + CharValue(s[|s| - 1])
  }

  /** Reading back what `Numeral` prints gives the number printed. */
  lemma {:induction false} NumeralRoundTrip(n: nat, base: nat)
    requires IsBase(base)
    ensures NumeralValue(Numeral(n, base), base) == n
    decreases n
  {
    if n >= base {
      var s := Numeral(n, base);
      NumeralRoundTrip(n / base, base);
      assert s[..|s| - 1] == Numeral(n / base, base);
    }
  }

  /** Printing is injective: distinct numbers never print alike. */
  lemma NumeralInjective(n: nat, m: nat, base: nat)
    requires IsBase(base)
    requires Numeral(n, base) == Numeral(m, base)
    ensures n == m
  {
    NumeralRoundTrip(n, base);
    NumeralRoundTrip(m, base);
  }

  /** The two digits `%lu` prints for a number from 10 to 99. */
  lemma NumeralTwoDigits(n: nat)
    requires 10 <= n < 100
    ensures Numeral(n, 10) == [DigitChar(n / 10), DigitChar(n % 10)]
  {
  }

  /* ----- atoi ----- */

  /** `s` without its leading white space. */
  function SkipSpaces(s: string): (t: string)
    ensures |t| <= |s| && t == s[|s| - |t|..]
    ensures |t| == 0 || !IsSpace(t[0])
    ensures forall i :: 0 <= i < |s| - |t| ==> IsSpace(s[i])
  {
    if |s| > 0 && IsSpace(s[0]) then SkipSpaces(s[1..]) else s
  }

  /** The longest prefix of `s` made of decimal digits. */
  function DigitPrefix(s: string): (p: string)
    ensures |p| <= |s| && p == s[..|p|]
    ensures AllDigitsIn(p, 10)
    ensures |p| == |s| || !IsDigit(s[|p|])
  {
    if |s| > 0 && IsDigit(s[0]) then [s[0]] + DigitPrefix(s[1..]) else []
  }

  /** The integer `strtol (s, NULL, 10)` reads before any clamping: white
      space, an optional sign, then as many digits as there are (none: 0). */
  function LeadingInteger(s: string): int {
    var t := SkipSpaces(s);
    if |t| > 0 && t[0] == '-' then -(NumeralValue(DigitPrefix(t[1..]), 10) as int)
    else if |t| > 0 && t[0] == '+' then NumeralValue(DigitPrefix(t[1..]), 10)
    else NumeralValue(DigitPrefix(t), 10)
  }

  /** glibc's `atoi`: `(int) strtol (s, NULL, 10)`, where `strtol` clamps to
      the `long` range and the cast reduces modulo 2^32. */
  function Atoi(s: string): (r: int)
    ensures InInt(r)
    ensures InInt(LeadingInteger(s)) ==> r == LeadingInteger(s)
    ensures DigitPrefix(SkipSpaces(s)) == [] && (|SkipSpaces(s)| == 0 || !(SkipSpaces(s)[0] in "+-")) ==> r == 0
  {
    var v := LeadingInteger(s);
    ToInt(if v < LONG_MIN then LONG_MIN else if v > LONG_MAX then LONG_MAX else v)
  }

  /** A string of digits is its own digit prefix. */
  lemma DigitPrefixOfDigits(s: string)
    requires AllDigitsIn(s, 10)
    ensures DigitPrefix(s) == s
  {
  }

  /** `strtol` reads back what `%lu` printed, before any clamping. */
  lemma LeadingIntegerOfNumeral(n: nat)
    ensures LeadingInteger(Numeral(n, 10)) == n
  {
    var s := Numeral(n, 10);
    assert !IsSpace(s[0]) && s[0] != '-' && s[0] != '+' by {
      assert IsDigitIn(s[0], 10);
    }
    assert SkipSpaces(s) == s;
    DigitPrefixOfDigits(s);
    NumeralRoundTrip(n, 10);
  }

  /** `strtol` reads a minus sign followed by printed digits as the
      negated number. */
  lemma LeadingIntegerOfNegated(n: nat)
    ensures LeadingInteger(['-'] + Numeral(n, 10)) == -(n as int)
  {
    var d := Numeral(n, 10);
    var s := ['-'] + d;
    assert SkipSpaces(s) == s;
    assert s[1..] == d;
    DigitPrefixOfDigits(d);
    NumeralRoundTrip(n, 10);
  }

  /** `atoi` reads back what `%lu` printed: exactly for values an `int` can
      hold, and reduced modulo 2^32 for larger values up to `LONG_MAX`. */
  lemma AtoiOfNumeral(n: nat)
    requires n <= LONG_MAX
    ensures Atoi(Numeral(n, 10)) == ToInt(n)
    ensures n <= INT_MAX ==> Atoi(Numeral(n, 10)) == n
  {
    LeadingIntegerOfNumeral(n);
  }

  /* ----- g_strsplit (s, ",", 2) ----- */

  /** Index of the first comma of `s`, or `|s|` when there is none. */
  function FirstComma(s: string): (i: nat)
    ensures i <= |s|
    ensures i < |s| ==> s[i] == ','
    ensures forall j :: 0 <= j < i ==> s[j] != ','
  {
    if |s| == 0 || s[0] == ',' then 0 else 1 + FirstComma(s[1..])
  }

  /** `g_strsplit (s, ",", 2)`: the empty string gives no token, a string
      without a comma gives itself, and otherwise the text before the first
      comma and everything after it (further commas included). */
  function SplitFirstComma(s: string): (parts: seq<string>)
    ensures |parts| <= 2
    ensures |parts| == 0 <==> s == []
    ensures |parts| == 2 <==> ',' in s
    ensures |parts| == 1 ==> parts[0] == s
    ensures |parts| == 2 ==> parts[0] + [','] + parts[1] == s && ',' !in parts[0]
  {
    var i := FirstComma(s);
    if s == [] then []
    else if i == |s| then [s]
    else
      assert s == s[..i] + [','] + s[i + 1..];
      [s[..i], s[i + 1..]]
  }
}
