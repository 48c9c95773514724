/** Decimal text of integers, as printed by `str`/`toString` and read back by
    `int` and `parseInt(text, 10)`. */
module Decimals {
  import opened Wrappers

  predicate IsDigit(c: char) { '0' <= c <= '9' }

  function DigitChar(d: nat): (c: char)
    requires d < 10
    ensures IsDigit(c) && DigitValue(c) == d
  {
    '0' + d as char
  }

  function DigitValue(c: char): (d: nat)
    requires IsDigit(c)
    ensures d < 10
  {
    (c - '0') as nat
  }

  predicate AllDigits(s: string) {
    forall i :: 0 <= i < |s| ==> IsDigit(s[i])
  }

  function PrintNat(n: nat): (s: string)
    ensures s != [] && AllDigits(s)
  {
    if n < 10 then [DigitChar(n)] else PrintNat(n / 10) + [DigitChar(n % 10)]
  }

  function PrintInt(n: int): (s: string)
    ensures s != [] && IsDigit(s[|s| - 1])
  {
    if n < 0 then "-" + PrintNat(-n) else PrintNat(n)
  }

  function DigitsValue(s: string): (n: nat)
    requires AllDigits(s)
  {
    if s == [] then 0 else 10 * DigitsValue(s[..|s| - 1]) + DigitValue(s[|s| - 1])
  }

  /** Length of the longest all-digit prefix. */
  function DigitPrefix(s: string): (k: nat)
    ensures k <= |s| && AllDigits(s[..k]) && (k < |s| ==> !IsDigit(s[k]))
  {
    if s == [] || !IsDigit(s[0]) then 0
    else
      var k := DigitPrefix(s[1..]);
      assert s[..k + 1] == [s[0]] + s[1..][..k];
      k + 1
  }

  function Signed(negative: bool, n: int): int {
    if negative then -n else n
  }

  /** JavaScript `parseInt(s, 10)` on text without leading white space: an optional
      sign and the longest run of digits; `None` stands for NaN. */
  function ParseIntPrefix(s: string): Option<int> {
    var negative := s != [] && s[0] == '-';
    var body := if s != [] && (s[0] == '-' || s[0] == '+') then s[1..] else s;
    var k := DigitPrefix(body);
    if k == 0 then None else Some(Signed(negative, DigitsValue(body[..k])))
  }

  /** Python `int(s)` on text without surrounding white space: an optional sign and
      digits only; `None` stands for ValueError. */
  function ParseWhole(s: string): Option<int> {
    var negative := s != [] && s[0] == '-';
    var body := if s != [] && (s[0] == '-' || s[0] == '+') then s[1..] else s;
    if body == [] || !AllDigits(body) then None
    else Some(Signed(negative, DigitsValue(body)))
  }

  lemma {:induction false} PrintedDigits(n: nat)
    ensures DigitsValue(PrintNat(n)) == n
  {
    var s := PrintNat(n);
    if n >= 10 {
      PrintedDigits(n / 10);
      assert s[..|s| - 1] == PrintNat(n / 10);
    } else {
      assert s[..|s| - 1] == [];
    }
  }

  /** Both readers give back a printed natural number. */
  lemma {:induction false} PrintedNatReadsBack(n: nat)
    ensures ParseIntPrefix(PrintNat(n)) == Some(n) && ParseWhole(PrintNat(n)) == Some(n)
  {
    var s := PrintNat(n);
    assert IsDigit(s[0]);
    PrintedDigits(n);
    assert s[..|s|] == s;
  }

  lemma PrintedIntReadsBack(n: int)
    ensures ParseWhole(PrintInt(n)) == Some(n)
  {
    if n < 0 {
      var s := PrintInt(n);
      assert s[1..] == PrintNat(-n);
      PrintedDigits(-n);
    } else {
      PrintedNatReadsBack(n);
    }
  }

  lemma IntHasNoComma(n: int)
    ensures ',' !in PrintInt(n)
  {
    var digits := PrintNat(if n < 0 then -n else n);
    assert AllDigits(digits);
    forall i | 0 <= i < |PrintInt(n)| ensures PrintInt(n)[i] != ',' {
      if n < 0 && i > 0 { assert PrintInt(n)[i] == digits[i - 1]; }
    }
  }
}
