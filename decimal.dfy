/** Decimal formatting (fmt's %d, strconv.Itoa) and parsing (strconv.Atoi) of integers. */
module Decimal {
  import opened Wrappers

  const Int64Min: int := -0x8000_0000_0000_0000
  const Int64Max: int := 0x7FFF_FFFF_FFFF_FFFF

  predicate IsDigit(c: char) {
    '0' <= c <= '9'
  }

  predicate AllDigits(s: string) {
    forall i :: 0 <= i < |s| ==> IsDigit(s[i])
  }

  function DigitChar(d: nat): (c: char)
    requires d < 10
    ensures IsDigit(c) && (c as int) - ('0' as int) == d
  {
    (('0' as int) + d) as char
  }

  /** The decimal digits of n, most significant first, without leading zeros. */
  function NatToString(n: nat): (s: string)
    ensures |s| >= 1 && AllDigits(s)
    ensures (|s| > 1 ==> s[0] != '0')
  {
    if n < 10 then [DigitChar(n)] else NatToString(n / 10) + [DigitChar(n % 10)]
  }

  /** strconv.Itoa / fmt "%d": a minus sign for negative values, then the digits. */
  function IntToString(i: int): string {
    if i < 0 then "-" + NatToString(-i) else NatToString(i)
  }

  /** The value of a nonempty string of decimal digits (leading zeros allowed). */
  function DigitsValue(s: string): nat
    requires AllDigits(s)
  {
    if s == [] then 0
    else DigitsValue(s[..|s| - 1]) * 10 + ((s[|s| - 1] as int) - ('0' as int))
  }

  /** strconv.Atoi: an optional '+' or '-', one or more decimal digits, and a value that fits in 64 bits. */
  function Atoi(s: string): (r: Option<int>)
    ensures r.Some? ==> Int64Min <= r.value <= Int64Max
    ensures r.Some? ==> |s| >= 1
  {
    if s == [] then None
    else
      var negative := s[0] == '-';
      var digits := if s[0] == '-' || s[0] == '+' then s[1..] else s;
      if digits == [] || !AllDigits(digits) then None
      else
        var m: int := DigitsValue(digits);
        var v := if negative then -m else m;
        if Int64Min <= v <= Int64Max then Some(v) else None
  }

  /** Reading back the digits of n gives n. */
  lemma {:induction false} DigitsValueOfNatToString(n: nat)
    ensures DigitsValue(NatToString(n)) == n
  {
    var s := NatToString(n);
    if n >= 10 {
      DigitsValueOfNatToString(n / 10);
      assert s[..|s| - 1] == NatToString(n / 10);
    }
  }

  /** Parsing what Itoa printed gives the number back, for every 64-bit value. */
  lemma AtoiIntToString(i: int)
    requires Int64Min <= i <= Int64Max
    ensures Atoi(IntToString(i)) == Some(i)
  {
    if i < 0 {
      DigitsValueOfNatToString(-i);
      assert IntToString(i)[1..] == NatToString(-i);
    } else {
      DigitsValueOfNatToString(i);
    }
  }

  /** Printing is injective: different numbers have different decimal forms. */
  lemma IntToStringInjective(i: int, j: int)
    requires Int64Min <= i <= Int64Max && Int64Min <= j <= Int64Max
    requires IntToString(i) == IntToString(j)
    ensures i == j
  {
    AtoiIntToString(i);
    AtoiIntToString(j);
  }

  /** Atoi accepts leading zeros: "08081" reads as 8081, although Itoa never prints it. */
  lemma AtoiLeadingZero(s: string)
    requires s == "08081"
    ensures Atoi(s) == Some(8081)
  {
    assert AllDigits(s);
    assert DigitsValue(s[..1]) == 0;
    assert s[..2][..1] == s[..1];
    assert DigitsValue(s[..2]) == 8;
    assert s[..3][..2] == s[..2];
    assert DigitsValue(s[..3]) == 80;
    assert s[..4][..3] == s[..3];
    assert DigitsValue(s[..4]) == 808;
    assert s[..5][..4] == s[..4] && s[..5] == s;
  }

  /** Atoi accepts a leading '+': "+8081" reads as 8081. */
  lemma AtoiPlusSign(s: string)
    requires s == "+8081"
    ensures Atoi(s) == Some(8081)
  {
    var d := s[1..];
    assert d == "8081" && AllDigits(d);
    assert DigitsValue(d[..1]) == 8;
    assert d[..2][..1] == d[..1];
    assert DigitsValue(d[..2]) == 80;
    assert d[..3][..2] == d[..2];
    assert DigitsValue(d[..3]) == 808;
    assert d[..4][..3] == d[..3] && d[..4] == d;
  }

  /** Itoa prints 8081 as "8081". */
  lemma IntToStringPort(n: int)
    requires n == 8081
    ensures IntToString(n) == "8081"
  {
    assert NatToString(8) == "8";
    assert NatToString(80) == "80";
    assert NatToString(808) == "808";
  }
}
