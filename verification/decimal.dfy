/** Decimal numbers as text: `std::from_chars`, stream output and `parse_positive_count` of bench/generate_replay.cpp. */
module Decimal {
  import opened Types
  import opened Arithmetic

  predicate IsDigit(c: char) { '0' <= c <= '9' }

  function DigitOf(c: char): int { c as int - '0' as int }

  function DigitChar(d: int): char
    requires 0 <= d < 10
  {
    ['0', '1', '2', '3', '4', '5', '6', '7', '8', '9'][d]
  }

  predicate AllDigits(s: string) {
    forall i :: 0 <= i < |s| ==> IsDigit(s[i])
  }

  function Value(s: string): int {
    if s == [] then 0 else Value(s[..|s| - 1]) * 10 + DigitOf(s[|s| - 1])
  }

  /** Decimal digits without leading zeros, as streams print them. */
  function Digits(n: nat): string {
    if n < 10 then [DigitChar(n)] else Digits(n / 10) + [DigitChar(n % 10)]
  }

  function Printed(n: int): string {
    if n < 0 then "-" + Digits(-n) else Digits(n)
  }

  lemma {:induction false} DigitsRoundTrip(n: nat)
    ensures AllDigits(Digits(n)) && Digits(n) != [] && Value(Digits(n)) == n
  {
    if n < 10 {
      assert Digits(n)[..0] == [];
    } else {
      DigitsRoundTrip(n / 10);
      var s := Digits(n);
      assert s[..|s| - 1] == Digits(n / 10);
    }
  }

  lemma {:induction false} ValueNonNegative(s: string)
    requires AllDigits(s)
    ensures Value(s) >= 0
  {
    if s == [] {
    } else {
      ValueNonNegative(s[..|s| - 1]);
    }
  }

  /** Reading on never makes a number smaller. */
  lemma {:induction false} ValueGrows(s: string, k: nat)
    requires AllDigits(s) && k <= |s|
    ensures 0 <= Value(s[..k]) <= Value(s)
    decreases |s| - k
  {
    ValueNonNegative(s[..k]);
    if k == |s| {
      assert s[..k] == s;
    } else {
      ValueGrows(s, k + 1);
      assert s[..k + 1][..k] == s[..k];
    }
  }

  datatype Option<T> = Absent | Some(value: T)

  /** `std::from_chars` followed by the check that the whole token was read: an optional minus for
      signed targets, at least one digit, nothing else, and a value the target can hold. */
  function ParseInteger(token: string, lo: int, hi: int): Option<int> {
    var negative := lo < 0 && token != [] && token[0] == '-';
    var digits := if negative then token[1..] else token;
    if digits == [] || !AllDigits(digits) then Absent
    else
      var v := if negative then -Value(digits) else Value(digits);
      if lo <= v <= hi then Some(v) else Absent
  }

  lemma PrintedParses(n: int, lo: int, hi: int)
    requires lo <= n <= hi && (n < 0 || lo <= 0)
    ensures ParseInteger(Printed(n), lo, hi) == Some(n)
    ensures forall i :: 0 <= i < |Printed(n)| ==> Printed(n)[i] == '-' || IsDigit(Printed(n)[i])
    ensures Printed(n) != []
  {
    hide Digits, Value;
    if n < 0 {
      DigitsRoundTrip(-n);
      assert Printed(n)[1..] == Digits(-n);
    } else {
      DigitsRoundTrip(n);
      assert IsDigit(Printed(n)[0]);
    }
  }

  // ---------------------------------------------------------------------------
  // The exact language of the parser
  // ---------------------------------------------------------------------------

  function Zeros(n: nat): string {
    if n == 0 then [] else Zeros(n - 1) + ['0']
  }

  /** The text of `v` with `zeros` zeros in front of its digits. */
  function Padded(v: int, minus: bool, zeros: nat): string {
    (if minus then "-" else "") + Zeros(zeros) + Digits(Abs(v))
  }

  /** A minus goes with targets that have negative values, and with no positive number. */
  predicate SignFits(v: int, minus: bool, lo: int) {
    (v < 0 ==> minus) && (minus ==> v <= 0 && lo < 0)
  }

  /** `token` is a text of `v` for a target that starts at `lo`. */
  ghost predicate Numeral(token: string, v: int, lo: int) {
    exists minus, zeros :: SignFits(v, minus, lo) && token == Padded(v, minus, zeros)
  }

  lemma DigitCharOf(c: char)
    requires IsDigit(c)
    ensures 0 <= DigitOf(c) < 10 && DigitChar(DigitOf(c)) == c
  {
  }

  lemma DigitsExtend(n: nat, d: nat)
    requires n > 0 && d < 10
    ensures Digits(n * 10 + d) == Digits(n) + [DigitChar(d)]
  {
    assert (n * 10 + d) / 10 == n && (n * 10 + d) % 10 == d;
  }

  /** Digits are the digits of their value behind zeros. */
  lemma {:induction false} DigitsOfValue(s: string) returns (zeros: nat)
    requires AllDigits(s) && s != []
    ensures Value(s) >= 0 && s == Zeros(zeros) + Digits(Value(s))
    decreases |s|
  {
    var n := |s| - 1;
    var p, d := s[..n], DigitOf(s[n]);
    DigitCharOf(s[n]);
    assert s == p + [s[n]];
    if p == [] {
      zeros := 0;
    } else {
      zeros := DigitsOfValue(p);
      if Value(p) == 0 {
        assert p == Zeros(zeros + 1);
        zeros := zeros + 1;
      } else {
        DigitsExtend(Value(p), d);
        assert s == Zeros(zeros) + (Digits(Value(p)) + [s[n]]);
      }
    }
  }

  lemma {:induction false} PaddedValue(zeros: nat, s: string)
    requires AllDigits(s)
    ensures AllDigits(Zeros(zeros) + s) && Value(Zeros(zeros) + s) == Value(s)
    decreases zeros + |s|
  {
    if s == [] {
      assert Zeros(zeros) + s == Zeros(zeros);
      if zeros > 0 {
        PaddedValue(zeros - 1, []);
        assert Zeros(zeros - 1) + [] == Zeros(zeros - 1);
        assert Zeros(zeros)[..|Zeros(zeros)| - 1] == Zeros(zeros - 1);
      }
    } else {
      var t := Zeros(zeros) + s;
      assert t[..|t| - 1] == Zeros(zeros) + s[..|s| - 1];
      PaddedValue(zeros, s[..|s| - 1]);
    }
  }

  lemma ParsedIsNumeral(token: string, lo: int, hi: int)
    requires ParseInteger(token, lo, hi).Some?
    ensures var v := ParseInteger(token, lo, hi).value;
      lo <= v <= hi && Numeral(token, v, lo)
  {
    hide Value, Digits;
    var minus := lo < 0 && token[0] == '-';
    var digits := if minus then token[1..] else token;
    var zeros := DigitsOfValue(digits);
    var v := ParseInteger(token, lo, hi).value;
    assert SignFits(v, minus, lo) && token == Padded(v, minus, zeros);
  }

  lemma NumeralParses(token: string, v: int, lo: int, hi: int)
    requires lo <= v <= hi && Numeral(token, v, lo)
    ensures ParseInteger(token, lo, hi) == Some(v)
    ensures token != [] && forall i :: 0 <= i < |token| ==> token[i] == '-' || IsDigit(token[i])
  {
    hide Value, Digits, Zeros;
    var minus, zeros :| SignFits(v, minus, lo) && token == Padded(v, minus, zeros);
    var digits := Zeros(zeros) + Digits(Abs(v));
    DigitsRoundTrip(Abs(v));
    PaddedValue(zeros, Digits(Abs(v)));
    if minus {
      assert token == "-" + digits && token[1..] == digits;
    } else {
      assert token == digits && IsDigit(token[0]);
    }
  }

  /** The parser accepts exactly the numerals in range: an optional minus, zeros, the printed digits. */
  lemma ParseIntegerExactly(token: string, v: int, lo: int, hi: int)
    ensures ParseInteger(token, lo, hi) == Some(v) <==> lo <= v <= hi && Numeral(token, v, lo)
  {
    hide ParseInteger, Numeral;
    if ParseInteger(token, lo, hi) == Some(v) {
      ParsedIsNumeral(token, lo, hi);
    }
    if lo <= v <= hi && Numeral(token, v, lo) {
      NumeralParses(token, v, lo, hi);
    }
  }

  lemma GuardIsExact(value: int, digit: int)
    requires 0 <= digit < 10
    ensures value > (SIZE_MAX - digit) / 10 <==> value * 10 + digit > SIZE_MAX
  {
    DivBounds(SIZE_MAX - digit, 10);
  }

  /** `parse_positive_count`: exactly the all-digit texts with a value from 1 to SIZE_MAX. */
  method ParsePositiveCount(text: string) returns (ok: bool, value: int)
    ensures ok <==> text != [] && AllDigits(text) && 1 <= Value(text) <= SIZE_MAX
    ensures ok ==> value == Value(text)
  {
    value := 0;
    if text == [] {
      return false, value;
    }
    var i := 0;
    while i < |text|
      invariant 0 <= i <= |text|
      invariant AllDigits(text[..i]) && value == Value(text[..i])
      invariant 0 <= value <= SIZE_MAX
    {
      assert text[..i + 1][..i] == text[..i];
      if text[i] < '0' || text[i] > '9' {
        return false, value;
      }
      var digit := DigitOf(text[i]);
      GuardIsExact(value, digit);
      if value > (SIZE_MAX - digit) / 10 {
        if AllDigits(text) {
          ValueGrows(text, i + 1);
        }
        return false, value;
      }
      value := value * 10 + digit;
      i := i + 1;
    }
    assert text[..i] == text;
    return value != 0, value;
  }
}
