/** Decimal int64 text: what `strconv.ParseInt(s, 10, 64)` accepts and what `%d` prints.
    Both the JSON payload codec and the tuple DSL rely on the two undoing each other. */
module Numbers {
  import opened Wrappers

  const INT64_MIN: int := -0x8000_0000_0000_0000
  const INT64_MAX: int := 0x7fff_ffff_ffff_ffff
  const UINT64_MAX: int := 0xffff_ffff_ffff_ffff

  type Int64 = i: int | INT64_MIN <= i <= INT64_MAX

  type Uint64 = i: int | 0 <= i <= UINT64_MAX

  predicate IsDigit(c: char) {
    '0' <= c <= '9'
  }

  function DigitValue(c: char): (d: nat)
    requires IsDigit(c)
    ensures d < 10
  {
    c as int - '0' as int
  }

  function DigitChar(d: nat): (c: char)
    requires d < 10
    ensures IsDigit(c) && DigitValue(c) == d
  {
    "0123456789"[d]
  }

  /** Value of a digit string, most significant digit first; None at the first non-digit. */
  function ParseDigits(s: string): Option<nat> {
    if s == "" then Some(0)
    else if !IsDigit(s[|s| - 1]) then None
    else
      match ParseDigits(s[..|s| - 1])
      case None => None
      case Some(high) => Some(10 * high + DigitValue(s[|s| - 1]))
  }

  /** `strconv.ParseInt(s, 10, 64)`: optional sign, at least one digit, nothing else, in range. */
  function ParseInt64(s: string): (r: Option<Int64>) {
    var signed := s != "" && (s[0] == '-' || s[0] == '+');
    var digits := if signed then s[1..] else s;
    if digits == "" then None
    else
      match ParseDigits(digits)
      case None => None
      case Some(n) =>
        var v: int := if signed && s[0] == '-' then -(n as int) else n;
        if INT64_MIN <= v <= INT64_MAX then Some(v) else None
  }

  function DecimalNat(n: nat): (s: string)
    ensures s != ""
    ensures forall c <- s :: IsDigit(c)
  {
    if n < 10 then [DigitChar(n)] else DecimalNat(n / 10) + [DigitChar(n % 10)]
  }

  function Decimal(i: int): (s: string)
    ensures s != ""
    ensures IsDigit(s[0]) || s[0] == '-'
    ensures forall c <- s :: IsDigit(c) || c == '-'
  {
    if i < 0 then "-" + DecimalNat(-i) else DecimalNat(i)
  }

  lemma {:induction false} ParseDigitsDecimalNat(n: nat)
    ensures ParseDigits(DecimalNat(n)) == Some(n)
  {
    var s := DecimalNat(n);
    if n < 10 {
      assert s[..|s| - 1] == "";
    } else {
      ParseDigitsDecimalNat(n / 10);
      assert s[..|s| - 1] == DecimalNat(n / 10);
    }
  }

  /** What ParseInt64 makes of an unsigned, and of a minus-signed, digit string. */
  lemma ParseInt64Signed(digits: string, n: nat)
    requires digits != "" && IsDigit(digits[0]) && ParseDigits(digits) == Some(n)
    ensures ParseInt64(digits) == if n <= INT64_MAX then Some(n) else None
    ensures ParseInt64("-" + digits) == if INT64_MIN <= -(n as int) then Some(-(n as int)) else None
  {
    var text := "-" + digits;
    assert text[0] == '-' && text[1..] == digits;
  }

  // ----- what a numeral means -----

  function Pow10(k: nat): nat {
    if k == 0 then 1 else 10 * Pow10(k - 1)
  }

  predicate AllDigits(s: string) {
    forall c <- s :: IsDigit(c)
  }

  /** Each digit times the power of ten of its position, added up. */
  function PositionalValue(s: string): nat
    requires AllDigits(s)
  {
    if s == "" then 0 else DigitValue(s[0]) * Pow10(|s| - 1) + PositionalValue(s[1..])
  }

  /** t is these digits with an optional sign, and v is their value with that sign. */
  predicate NumeralOf(t: string, v: int, digits: string) {
    && digits != "" && AllDigits(digits)
    && ((v == PositionalValue(digits) && (t == digits || t == "+" + digits)) ||
        (v == -(PositionalValue(digits) as int) && t == "-" + digits))
  }

  /** t is an optional sign and a nonempty string of digits, and v is its value. */
  ghost predicate Numeral(t: string, v: int) {
    exists digits: string :: NumeralOf(t, v, digits)
  }

  lemma {:induction false} PositionalSnoc(s: string, c: char)
    requires AllDigits(s) && IsDigit(c)
    ensures AllDigits(s + [c]) && PositionalValue(s + [c]) == 10 * PositionalValue(s) + DigitValue(c)
  {
    if s == "" {
      assert s + [c] == [c] && [c][1..] == "";
      assert PositionalValue([c]) == DigitValue(c) * Pow10(0) + PositionalValue("");
    } else {
      var t := s + [c];
      assert t[1..] == s[1..] + [c];
      PositionalSnoc(s[1..], c);
      assert Pow10(|s|) == 10 * Pow10(|s| - 1);
      assert DigitValue(s[0]) * Pow10(|s|) == 10 * (DigitValue(s[0]) * Pow10(|s| - 1));
    }
  }

  lemma {:induction false} ParseDigitsMeaning(s: string)
    ensures ParseDigits(s) == if AllDigits(s) then Some(PositionalValue(s)) else None
  {
    if s != "" {
      var high, last := s[..|s| - 1], s[|s| - 1];
      assert s == high + [last];
      ParseDigitsMeaning(high);
      if AllDigits(high) && IsDigit(last) {
        PositionalSnoc(high, last);
      }
    }
  }

  lemma ParsesNumeral(t: string, v: int, digits: string)
    requires NumeralOf(t, v, digits)
    ensures ParseInt64(t) == if INT64_MIN <= v <= INT64_MAX then Some(v) else None
  {
    ParseDigitsMeaning(digits);
    assert IsDigit(digits[0]);
    if t != digits {
      assert t[1..] == digits;
    }
  }

  lemma ParsedIsNumeral(t: string)
    requires ParseInt64(t).Some?
    ensures Numeral(t, ParseInt64(t).value)
  {
    var signed := t[0] == '-' || t[0] == '+';
    var digits := if signed then t[1..] else t;
    ParseDigitsMeaning(digits);
    assert signed ==> t == [t[0]] + digits;
    assert NumeralOf(t, ParseInt64(t).value, digits);
  }

  /** ParseInt64 reads exactly the numerals of int64 values, and each as its value. */
  lemma ParseInt64Meaning(t: string, v: int)
    ensures ParseInt64(t) == Some(v) <==> INT64_MIN <= v <= INT64_MAX && Numeral(t, v)
  {
    if ParseInt64(t) == Some(v) {
      ParsedIsNumeral(t);
    }
    if digits: string :| NumeralOf(t, v, digits) {
      ParsesNumeral(t, v, digits);
    }
  }

  /** Printing an int64 and parsing it back is the identity. */
  lemma {:induction false} ParseInt64Decimal(i: Int64)
    ensures ParseInt64(Decimal(i)) == Some(i)
  {
    var n: nat := if i < 0 then -(i as int) else i;
    ParseDigitsDecimalNat(n);
    ParseInt64Signed(DecimalNat(n), n);
  }
}
