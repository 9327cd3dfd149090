/**
 * Decimal text of numbers: Go's `strconv.Itoa` / `fmt.Sprintf("%d")` and
 * `strconv.ParseUint(s, 10, 32)`.
 */
module Decimal {
  import opened Wrappers
  import opened GoInts

  predicate IsDigit(c: char) { '0' <= c <= '9' }

  predicate AllDigits(s: string) { forall i :: 0 <= i < |s| ==> IsDigit(s[i]) }

  function DigitValue(c: char): nat
    requires IsDigit(c)
  {
    c as int - '0' as int
  }

  function DigitChar(d: nat): (c: char)
    requires d < 10
    ensures IsDigit(c) && DigitValue(c) == d
  {
    ('0' as int + d) as char
  }

  /** `10^k`; its positivity is a helper fact for the digit arithmetic below, not a property of the source. */
  function Pow10(k: nat): (p: nat)
    ensures p >= 1
  {
    if k == 0 then 1 else 10 * Pow10(k - 1)
  }

  /** The number a string of decimal digits denotes, most significant digit first. */
  function DecimalValue(s: string): nat
    requires AllDigits(s)
  {
    if s == [] then 0 else DigitValue(s[0]) * Pow10(|s| - 1) + DecimalValue(s[1..])
  }

  /** Shortest decimal text of `n`: no sign and no leading zero. */
  function NatToString(n: nat): (s: string)
    ensures |s| >= 1 && AllDigits(s)
    ensures |s| > 1 ==> s[0] != '0'
    decreases n
  {
    if n < 10 then [DigitChar(n)] else NatToString(n / 10) + [DigitChar(n % 10)]
  }

  /** `strconv.Itoa`: a minus sign before the digits of a negative number. */
  function IntToString(i: int): (s: string)
    ensures |s| > 0 && (s[0] == '-' <==> i < 0)
    ensures var digits := if i < 0 then s[1..] else s;
            && |digits| >= 1 && AllDigits(digits) && (|digits| > 1 ==> digits[0] != '0')
            && DecimalValue(digits) == if i < 0 then -i else i
  {
    var n: nat := if i < 0 then -i else i;
    DecimalRoundTrip(n);
    var digits := NatToString(n);
    if i < 0 then
      assert ("-" + digits)[1..] == digits;
      "-" + digits
    else digits
  }

  lemma {:induction false} DecimalValueAppend(s: string, c: char)
    requires AllDigits(s) && IsDigit(c)
    ensures AllDigits(s + [c])
    ensures DecimalValue(s + [c]) == DecimalValue(s) * 10 + DigitValue(c)
    decreases |s|
  {
    if s == [] {
      assert s + [c] == [c];
    } else {
      var t := s + [c];
      assert t[1..] == s[1..] + [c];
      DecimalValueAppend(s[1..], c);
      calc {
        DecimalValue(t);
        DigitValue(s[0]) * Pow10(|s|) + DecimalValue(s[1..] + [c]);
        DigitValue(s[0]) * (10 * Pow10(|s| - 1)) + DecimalValue(s[1..]) * 10 + DigitValue(c);
        { assert DigitValue(s[0]) * (10 * Pow10(|s| - 1)) == (DigitValue(s[0]) * Pow10(|s| - 1)) * 10; }
        (DigitValue(s[0]) * Pow10(|s| - 1) + DecimalValue(s[1..])) * 10 + DigitValue(c);
      }
    }
  }

  /** Printing a number in decimal and reading it back gives the number. */
  lemma {:induction false} DecimalRoundTrip(n: nat)
    ensures DecimalValue(NatToString(n)) == n
    decreases n
  {
    if n >= 10 {
      DecimalRoundTrip(n / 10);
      DecimalValueAppend(NatToString(n / 10), DigitChar(n % 10));
    }
  }

  /** The two errors `strconv.ParseUint` reports. */
  datatype NumError = ErrSyntax | ErrRange

  /**
   * The digit loop of `strconv.ParseUint` for base 10 and 32 bits: a non-digit stops
   * the scan with value 0 and a syntax error; a value that would exceed 2^32-1 stops
   * it at once with value 2^32-1 and a range error, whatever characters follow.
   */
  function ScanDecimal(s: string, acc: nat): (r: (uint32, Option<NumError>))
    requires acc <= MaxUint32
    ensures r.1 == Some(ErrSyntax) ==> r.0 == 0
    ensures r.1 == Some(ErrRange) ==> r.0 == MaxUint32
    decreases |s|
  {
    if s == [] then (acc, None)
    else if !IsDigit(s[0]) then (0, Some(ErrSyntax))
    else if acc * 10 + DigitValue(s[0]) > MaxUint32 then (MaxUint32, Some(ErrRange))
    else ScanDecimal(s[1..], acc * 10 + DigitValue(s[0]))
  }

  /** `strconv.ParseUint(s, 10, 32)`: the empty string is a syntax error. */
  function ParseUint32(s: string): (r: (uint32, Option<NumError>))
    ensures s == [] ==> r == (0, Some(ErrSyntax))
  {
    if s == [] then (0, Some(ErrSyntax)) else ScanDecimal(s, 0)
  }

  lemma ShiftDigit(acc: nat, d: nat, p: nat)
    ensures (acc * 10 + d) * p == acc * (10 * p) + d * p
    ensures p >= 1 ==> (acc * 10 + d) * p >= acc * 10 + d
  {
  }

  lemma {:induction false} ScanDecimalSound(s: string, acc: nat)
    requires acc <= MaxUint32
    ensures ScanDecimal(s, acc).1 == None ==>
      AllDigits(s) && ScanDecimal(s, acc).0 == acc * Pow10(|s|) + DecimalValue(s)
    decreases |s|
  {
    if s != [] && IsDigit(s[0]) && acc * 10 + DigitValue(s[0]) <= MaxUint32 {
      var d := DigitValue(s[0]);
      var t := s[1..];
      ScanDecimalSound(t, acc * 10 + d);
      if ScanDecimal(t, acc * 10 + d).1 == None {
        assert AllDigits(s) by {
          forall i | 0 <= i < |s| ensures IsDigit(s[i]) {
            if i > 0 { assert s[i] == t[i - 1]; }
          }
        }
        ShiftDigit(acc, d, Pow10(|t|));
      }
    }
  }

  lemma {:induction false} ScanDecimalComplete(s: string, acc: nat)
    requires acc <= MaxUint32 && AllDigits(s)
    requires acc * Pow10(|s|) + DecimalValue(s) <= MaxUint32
    ensures ScanDecimal(s, acc) == (acc * Pow10(|s|) + DecimalValue(s), None)
    decreases |s|
  {
    if s != [] {
      var d := DigitValue(s[0]);
      var t := s[1..];
      ShiftDigit(acc, d, Pow10(|t|));
      assert AllDigits(t);
      ScanDecimalComplete(t, acc * 10 + d);
    }
  }

  /**
   * `ParseUint(s, 10, 32)` succeeds exactly on non-empty digit strings whose value fits
   * in 32 bits, and then returns that value.
   */
  lemma ParseUint32Succeeds(s: string)
    ensures ParseUint32(s).1 == None <==>
      (s != [] && AllDigits(s) && DecimalValue(s) <= MaxUint32)
    ensures ParseUint32(s).1 == None ==> ParseUint32(s).0 == DecimalValue(s)
  {
    ScanDecimalSound(s, 0);
    if s != [] && AllDigits(s) && DecimalValue(s) <= MaxUint32 {
      ScanDecimalComplete(s, 0);
    }
  }

  /** Any 32-bit number printed in decimal parses back to itself without error. */
  lemma ParseUint32RoundTrip(n: uint32)
    ensures ParseUint32(NatToString(n)) == (n, None)
  {
    DecimalRoundTrip(n);
    ParseUint32Succeeds(NatToString(n));
  }
}
