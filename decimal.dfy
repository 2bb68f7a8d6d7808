/**
 * Python's `str()` and `int()` on integers, as the compiler uses them to build
 * operand strings (`str(self.i + 1)`, `f"#{...}"`) and to parse them back
 * (`int(addr[1:])` in `generate_address`).
 */
module Decimal {
  import opened Wrappers

  predicate IsDigit(c: char) { '0' <= c <= '9' }

  predicate AllDigits(s: string) { forall k :: 0 <= k < |s| ==> IsDigit(s[k]) }

  function DigitValue(c: char): nat
    requires IsDigit(c)
  {
    (c as int) - ('0' as int)
  }

  function DigitChar(d: nat): char
    requires d < 10
  {
    ((('0' as int) + d) as char)
  }

  /** Decimal digits of `n`, most significant first, without leading zeros. */
  function NatToString(n: nat): (s: string)
    ensures |s| > 0 && AllDigits(s)
    ensures (s[0] == '0') == (n == 0)
  {
    if n < 10 then [DigitChar(n)] else NatToString(n / 10) + [DigitChar(n % 10)]
  }

  /** Python's `str(n)` for an `int`. */
  function IntToString(n: int): string
  {
    if n < 0 then "-" + NatToString(-n) else NatToString(n)
  }

  /** The value of a string of decimal digits, read most significant first. */
  function DigitsValue(s: string): nat
    requires AllDigits(s)
  {
    if |s| == 0 then 0 else 10 * DigitsValue(s[..|s| - 1]) + DigitValue(s[|s| - 1])
  }

  /**
   * Python's `int(s)` on a `str`, for an optional sign followed by at least one
   * decimal digit; `None` stands for the `ValueError` it raises otherwise.
   */
  function ParseInt(s: string): Option<int>
  {
    if |s| > 0 && (s[0] == '-' || s[0] == '+') then
      if |s| > 1 && AllDigits(s[1..]) then
        Some(if s[0] == '-' then 0 - DigitsValue(s[1..]) else DigitsValue(s[1..]))
      else None
    else if |s| > 0 && AllDigits(s) then Some(DigitsValue(s))
    else None
  }

  /** A digit string as `str` prints a natural number: no leading zero. */
  predicate CanonicalNat(s: string)
  {
    |s| > 0 && AllDigits(s) && (|s| > 1 ==> s[0] != '0')
  }

  /** A string as `str` prints an integer: canonical digits, `-` only before a non-zero value. */
  predicate CanonicalInt(s: string)
  {
    CanonicalNat(s) || (|s| > 1 && s[0] == '-' && CanonicalNat(s[1..]) && s[1..] != "0")
  }

  lemma {:induction false} NatToStringValue(n: nat)
    ensures DigitsValue(NatToString(n)) == n
  {
    if n >= 10 {
      var s := NatToString(n);
      var prefix := NatToString(n / 10);
      NatToStringValue(n / 10);
      assert s[..|s| - 1] == prefix;
    }
  }

  /** Parsing what `str` prints gives the integer back. */
  lemma IntToStringParses(n: int)
    ensures ParseInt(IntToString(n)) == Some(n)
  {
    if n < 0 {
      var s := IntToString(n);
      assert s[1..] == NatToString(-n);
      NatToStringValue(-n);
    } else {
      NatToStringValue(n);
    }
  }

  /** What `str` prints is canonical. */
  lemma IntToStringCanonical(n: int)
    ensures CanonicalInt(IntToString(n))
  {
    if n < 0 {
      var s := IntToString(n);
      assert s[1..] == NatToString(-n);
    }
  }

  lemma {:induction false} LeadingNonZeroPositive(s: string)
    requires |s| > 0 && AllDigits(s) && s[0] != '0'
    ensures DigitsValue(s) > 0
  {
    if |s| > 1 {
      LeadingNonZeroPositive(s[..|s| - 1]);
    }
  }

  lemma {:induction false} CanonicalNatPrints(s: string)
    requires CanonicalNat(s)
    ensures NatToString(DigitsValue(s)) == s
  {
    if |s| > 1 {
      var prefix := s[..|s| - 1];
      assert CanonicalNat(prefix);
      CanonicalNatPrints(prefix);
      LeadingNonZeroPositive(prefix);
      assert prefix + [s[|s| - 1]] == s;
    }
  }

  /** Printing what a canonical integer string parses to gives the string back. */
  lemma CanonicalIntPrints(s: string)
    requires CanonicalInt(s)
    ensures ParseInt(s).Some? && IntToString(ParseInt(s).value) == s
  {
    if CanonicalNat(s) {
      CanonicalNatPrints(s);
    } else {
      var body := s[1..];
      CanonicalNatPrints(body);
      assert DigitsValue(body) != 0;
      assert "-" + body == s;
    }
  }
}
