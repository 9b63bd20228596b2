/** Decimal text of machine integers: strconv.FormatInt and strconv.ParseInt in base 10. */
module Decimal {
  import opened SequenceDsl

  predicate IsInt32(x: int) {
    -0x8000_0000 <= x < 0x8000_0000
  }

  predicate IsInt64(x: int) {
    -0x8000_0000_0000_0000 <= x < 0x8000_0000_0000_0000
  }

  /** Two's complement wrap-around. */
  function Wrap32(x: int): (y: int)
    ensures IsInt32(y)
    ensures IsInt32(x) ==> y == x
  {
    (x + 0x8000_0000) % 0x1_0000_0000 - 0x8000_0000
  }

  function Wrap64(x: int): (y: int)
    ensures IsInt64(y)
    ensures IsInt64(x) ==> y == x
  {
    (x + 0x8000_0000_0000_0000) % 0x1_0000_0000_0000_0000 - 0x8000_0000_0000_0000
  }

  lemma Wrap32Shift(x: int, q: int)
    ensures Wrap32(x + q * 0x1_0000_0000) == Wrap32(x)
  {
  }

  lemma Wrap64Shift(x: int, q: int)
    ensures Wrap64(x + q * 0x1_0000_0000_0000_0000) == Wrap64(x)
  {
  }

  lemma Wrap32Distance(x: int) returns (q: int)
    ensures Wrap32(x) == x + q * 0x1_0000_0000
  {
    q := -((x + 0x8000_0000) / 0x1_0000_0000);
  }

  lemma Wrap64Distance(x: int) returns (q: int)
    ensures Wrap64(x) == x + q * 0x1_0000_0000_0000_0000
  {
    q := -((x + 0x8000_0000_0000_0000) / 0x1_0000_0000_0000_0000);
  }

  lemma Wrap32Add(a: int, b: int)
    ensures Wrap32(Wrap32(a) + b) == Wrap32(a + b) && Wrap32(a + Wrap32(b)) == Wrap32(a + b)
  {
    var p := Wrap32Distance(a);
    var q := Wrap32Distance(b);
    Wrap32Shift(a + b, p);
    Wrap32Shift(a + b, q);
  }

  lemma Wrap64Add(a: int, b: int)
    ensures Wrap64(Wrap64(a) + b) == Wrap64(a + b) && Wrap64(a + Wrap64(b)) == Wrap64(a + b)
  {
    var p := Wrap64Distance(a);
    var q := Wrap64Distance(b);
    Wrap64Shift(a + b, p);
    Wrap64Shift(a + b, q);
  }

  lemma Wrap64Negate(a: int)
    ensures Wrap64(-Wrap64(a)) == Wrap64(-a)
  {
    var q := Wrap64Distance(a);
    Wrap64Shift(-a, -q);
  }

  // ----- digits -----

  predicate IsDigit(c: char) {
    '0' <= c <= '9'
  }

  predicate AllDigits(s: string) {
    forall i :: 0 <= i < |s| ==> IsDigit(s[i])
  }

  function DigitValue(c: char): nat
    requires IsDigit(c)
  {
    c as nat - '0' as nat
  }

  function DigitChar(d: nat): (c: char)
    requires d < 10
    ensures IsDigit(c) && DigitValue(c) == d
  {
    '0' + d as char
  }

  /** Value of a digit string; leading zeros do not matter. */
  function Value(s: string): nat
    requires AllDigits(s)
  {
    if s == "" then 0 else 10 * Value(s[..|s| - 1]) + DigitValue(s[|s| - 1])
  }

  /** Digits of n without leading zeros. */
  function Digits(n: nat): (s: string)
    ensures s != ""
  {
    if n < 10 then [DigitChar(n)] else Digits(n / 10) + [DigitChar(n % 10)]
  }

  /** Printing a number and evaluating its digits gives the number back. */
  lemma {:induction false} DigitsMeaning(n: nat)
    ensures AllDigits(Digits(n)) && IsDigit(Digits(n)[0]) && Value(Digits(n)) == n
  {
    if n >= 10 {
      DigitsMeaning(n / 10);
      assert Digits(n)[..|Digits(n)| - 1] == Digits(n / 10);
    } else {
      assert Digits(n)[..0] == "";
    }
  }

  function Zeros(k: nat): (s: string)
    ensures |s| == k
  {
    if k == 0 then "" else Zeros(k - 1) + "0"
  }

  lemma {:induction false} ZerosAreZero(k: nat)
    ensures forall i :: 0 <= i < k ==> Zeros(k)[i] == '0'
  {
    if k > 0 {
      ZerosAreZero(k - 1);
    }
  }

  lemma {:induction false} ValueOfZeros(k: nat)
    ensures AllDigits(Zeros(k)) && Value(Zeros(k)) == 0
  {
    ZerosAreZero(k);
    if k > 0 {
      assert Zeros(k)[..k - 1] == Zeros(k - 1);
      ValueOfZeros(k - 1);
    }
  }

  lemma {:induction false} LeadingZeros(k: nat, s: string)
    requires AllDigits(s)
    ensures AllDigits(Zeros(k) + s) && Value(Zeros(k) + s) == Value(s)
  {
    var t := Zeros(k) + s;
    ZerosAreZero(k);
    assert forall i :: 0 <= i < |t| ==> IsDigit(t[i]);
    if s == "" {
      assert t == Zeros(k);
      ValueOfZeros(k);
    } else {
      assert t[..|t| - 1] == Zeros(k) + s[..|s| - 1];
      LeadingZeros(k, s[..|s| - 1]);
    }
  }

  lemma {:induction false} DigitsBound(n: nat, k: nat, bound: nat)
    requires bound == Power10(k) && n < bound && k >= 1
    ensures |Digits(n)| <= k
  {
    if n >= 10 {
      DigitsBound(n / 10, k - 1, bound / 10);
    }
  }

  function Power10(k: nat): (p: nat)
    ensures p >= 1
  {
    if k == 0 then 1 else 10 * Power10(k - 1)
  }

  // ----- signed integers -----

  function FormatInt(n: int): string {
    if n < 0 then "-" + Digits(-n) else Digits(n)
  }

  /** ParseInt: an optional sign, at least one digit, within the width. */
  function ParseInt(s: string, bits: nat): Option<int>
    requires bits == 32 || bits == 64
  {
    var signed := |s| > 0 && (s[0] == '-' || s[0] == '+');
    var body := if signed then s[1..] else s;
    if body == "" || !AllDigits(body) then None
    else
      var n := if signed && s[0] == '-' then -(Value(body) as int) else Value(body) as int;
      if (if bits == 32 then IsInt32(n) else IsInt64(n)) then Some(n) else None
  }

  lemma ParseFormat(n: int, bits: nat)
    requires bits == 32 || bits == 64
    requires if bits == 32 then IsInt32(n) else IsInt64(n)
    ensures ParseInt(FormatInt(n), bits) == Some(n)
  {
    DigitsMeaning(if n < 0 then -n else n);
    if n < 0 {
      assert FormatInt(n)[1..] == Digits(-n);
    }
  }

  /** The decimal text of a number, digit by digit: no plus sign and no leading zero. */
  lemma DecimalText(n: int)
    ensures 0 <= n < 10 ==> FormatInt(n) == ["0123456789"[n]]
    ensures n >= 10 ==> FormatInt(n) == FormatInt(n / 10) + ["0123456789"[n % 10]]
    ensures n < 0 ==> FormatInt(n) == "-" + FormatInt(-n)
  {
    if 0 <= n { DigitIs(n % 10); }
  }

  lemma DigitIs(d: nat)
    requires d < 10
    ensures DigitChar(d) == "0123456789"[d]
  {
  }

  /** Reading: digits within the width, with any sign or none. */
  lemma ReadDigits(d: string, bits: nat)
    requires (bits == 32 || bits == 64) && d != "" && AllDigits(d)
    requires if bits == 32 then IsInt32(Value(d)) else IsInt64(Value(d))
    ensures ParseInt(d, bits) == ParseInt("+" + d, bits) == Some(Value(d)) && ParseInt("-" + d, bits) == Some(0 - Value(d))
  {
    assert ("+" + d)[1..] == d && ("-" + d)[1..] == d;
  }

  /** And nothing else. */
  lemma ReadOnlyDigits(s: string, bits: nat)
    requires bits == 32 || bits == 64
    requires s == "" || !AllDigits(s[1..]) || (!IsDigit(s[0]) && (s[0] !in {'-', '+'} || s[1..] == ""))
    ensures ParseInt(s, bits) == None
  {
    if s != "" && !AllDigits(s[1..]) {
      var i :| 0 <= i < |s[1..]| && !IsDigit(s[1..][i]);
      assert s[i + 1] == s[1..][i];
    }
  }
}
