/** What the interval printer writes, the parser reads back; and scanning is a sum over components. */
module IntervalRoundTrip {
  import opened Text
  import opened SequenceDsl
  import opened Decimal
  import opened Interval

  // ----- scanning a concatenation -----

  lemma {:induction false} RunEndShift(a: string, b: string, j: nat)
    requires j <= |b|
    ensures RunEnd(a + b, |a| + j) == |a| + RunEnd(b, j)
    decreases |b| - j
  {
    if j < |b| && IsNumberChar(b[j]) {
      assert (a + b)[|a| + j] == b[j];
      RunEndShift(a, b, j + 1);
    }
  }

  lemma {:induction false} RunEndPrefix(a: string, b: string, j: nat)
    requires j <= |a| && RunEnd(a, j) < |a|
    ensures RunEnd(a + b, j) == RunEnd(a, j)
    decreases |a| - j
  {
    if j < |a| && IsNumberChar(a[j]) {
      RunEndPrefix(a, b, j + 1);
    }
  }

  /** A number read inside a longer text is the number read alone, wherever the text is extended. */
  lemma StepShift(a: string, b: string, s: string, i: nat, k: nat, j: nat, l: nat)
    requires s == a + b && i < |b| && k == |a| + i && j == NumberEnd(b, i) && l == |a| + j
    ensures l == NumberEnd(s, k) && s[k..l] == b[i..j] && (j < |b| ==> s[l] == b[j])
  {
    RunEndShift(a, b, if b[i] == '-' || b[i] == '+' then i + 1 else i);
    assert s[k] == b[i];
  }

  lemma StepPrefix(a: string, b: string, i: nat)
    requires i < |a| && NumberEnd(a, i) < |a|
    ensures NumberEnd(a + b, i) == NumberEnd(a, i)
    ensures (a + b)[i..NumberEnd(a, i)] == a[i..NumberEnd(a, i)]
    ensures (a + b)[NumberEnd(a, i)] == a[NumberEnd(a, i)]
  {
    RunEndPrefix(a, b, if a[i] == '-' || a[i] == '+' then i + 1 else i);
    assert (a + b)[i] == a[i];
  }

  /** One step of the token reader. */
  lemma TokensStep(s: string, i: nat, j: nat, num: string, unit: char)
    requires i < j < |s| && j == NumberEnd(s, i) && num == s[i..j] && unit == s[j]
    ensures TokensFrom(s, i) == Prepend([Token(num, unit)], TokensFrom(s, j + 1))
  {
  }

  lemma TokensStuck(s: string, i: nat)
    requires i < |s|
    ensures NumberEnd(s, i) == i || NumberEnd(s, i) == |s| ==> TokensFrom(s, i) == None
  {
  }

  lemma ShiftOne(a: string, b: string, s: string, i: nat, k: nat, j: nat, l: nat) returns (tok: Token)
    requires s == a + b && i < j < |b| && k == |a| + i && j == NumberEnd(b, i) && l == |a| + j
    ensures TokensFrom(b, i) == Prepend([tok], TokensFrom(b, j + 1))
    ensures TokensFrom(s, k) == Prepend([tok], TokensFrom(s, l + 1))
  {
    StepShift(a, b, s, i, k, j, l);
    tok := Token(b[i..j], b[j]);
    TokensStep(b, i, j, tok.num, tok.unit);
    TokensStep(s, k, l, tok.num, tok.unit);
  }

  lemma ShiftStuck(a: string, b: string, s: string, i: nat, k: nat)
    requires s == a + b && i < |b| && k == |a| + i && (NumberEnd(b, i) == i || NumberEnd(b, i) == |b|)
    ensures TokensFrom(b, i) == None && TokensFrom(s, k) == None
  {
    StepShift(a, b, s, i, k, NumberEnd(b, i), |a| + NumberEnd(b, i));
    TokensStuck(b, i);
    TokensStuck(s, k);
  }

  lemma {:induction false} TokensShift(a: string, b: string, s: string, i: nat, k: nat)
    requires s == a + b && i <= |b| && k == |a| + i
    ensures TokensFrom(s, k) == TokensFrom(b, i)
    decreases |b| - i
  {
    if i < |b| {
      var j := NumberEnd(b, i);
      var l := |a| + j;
      if i < j < |b| {
        var tok := ShiftOne(a, b, s, i, k, j, l);
        TokensShift(a, b, s, j + 1, l + 1);
      } else {
        ShiftStuck(a, b, s, i, k);
      }
    }
  }

  lemma {:induction false} TokensConcat(a: string, b: string, i: nat)
    requires i <= |a| && TokensFrom(a, i).Some?
    ensures TokensFrom(a + b, i) == Prepend(TokensFrom(a, i).value, TokensFrom(b, 0))
    decreases |a| - i
  {
    if i == |a| {
      TokensShift(a, b, a + b, 0, |a|);
      PrependTwice([], [], TokensFrom(b, 0));
    } else {
      var j := NumberEnd(a, i);
      StepPrefix(a, b, i);
      var num, unit := a[i..j], a[j];
      TokensStep(a, i, j, num, unit);
      TokensStep(a + b, i, j, num, unit);
      TokensConcat(a, b, j + 1);
      PrependTwice([Token(num, unit)], TokensFrom(a, j + 1).value, TokensFrom(b, 0));
    }
  }

  lemma {:induction false} SumConcat(isTime: bool, a: seq<Part>, b: seq<Part>)
    ensures Sum(isTime, a + b) == Plus(Sum(isTime, a), Sum(isTime, b))
  {
    if b == [] {
      assert a + b == a;
    } else {
      assert (a + b)[..|a + b| - 1] == a + b[..|b| - 1];
      SumConcat(isTime, a, b[..|b| - 1]);
    }
  }

  /** Scanning a concatenation adds the results. */
  lemma ScanConcat(a: string, b: string, isTime: bool, p: seq<Part>, q: seq<Part>)
    requires Parts(a, isTime) == Some(p) && Parts(b, isTime) == Some(q)
    ensures Parts(a + b, isTime) == Some(p + q)
    ensures Sum(isTime, p + q) == Plus(Sum(isTime, p), Sum(isTime, q))
  {
    TokensConcat(a, b, 0);
    ReadAllConcat(isTime, TokensFrom(a, 0).value, TokensFrom(b, 0).value);
    SumConcat(isTime, p, q);
  }

  lemma SumWithout(isTime: bool, parts: seq<Part>, k: nat)
    requires k < |parts|
    ensures Sum(isTime, parts) == Plus(Sum(isTime, parts[..k] + parts[k + 1..]), Weight(isTime, parts[k]))
  {
    assert parts == parts[..k] + [parts[k]] + parts[k + 1..];
    SumConcat(isTime, parts[..k] + [parts[k]], parts[k + 1..]);
    SumConcat(isTime, parts[..k], [parts[k]]);
    SumConcat(isTime, parts[..k], parts[k + 1..]);
    SumOne(isTime, parts[k]);
  }

  /** Order does not matter: the sum depends only on which components there are and how often. */
  lemma {:induction false} SumPermutation(isTime: bool, a: seq<Part>, b: seq<Part>)
    requires multiset(a) == multiset(b)
    ensures Sum(isTime, a) == Sum(isTime, b)
    decreases |a|
  {
    if a == [] {
      assert |multiset(b)| == 0;
    } else {
      var last := a[|a| - 1];
      assert last in multiset(b);
      var k :| 0 <= k < |b| && b[k] == last;
      assert b == b[..k] + [b[k]] + b[k + 1..];
      assert a == a[..|a| - 1] + [last];
      assert multiset(b[..k] + b[k + 1..]) == multiset(b) - multiset{last} == multiset(a[..|a| - 1]);
      SumPermutation(isTime, a[..|a| - 1], b[..k] + b[k + 1..]);
      SumWithout(isTime, b, k);
    }
  }

  // ----- one printed component -----

  /** An optional sign, then digits and dots. */
  predicate IsNumber(num: string) {
    num != "" && forall k :: (if IsSigned(num) then 1 else 0) <= k < |num| ==> IsNumberChar(num[k])
  }

  lemma {:induction false} RunEndAt(s: string, j: nat, k: nat)
    requires j <= k < |s| && !IsNumberChar(s[k])
    requires forall i :: j <= i < k ==> IsNumberChar(s[i])
    ensures RunEnd(s, j) == k
    decreases k - j
  {
    if j < k {
      RunEndAt(s, j + 1, k);
    }
  }

  lemma OneToken(num: string, unit: char)
    requires IsNumber(num) && !IsNumberChar(unit)
    ensures TokensFrom(num + [unit], 0) == Some([Token(num, unit)])
  {
    var s := num + [unit];
    RunEndAt(s, if IsSigned(num) then 1 else 0, |num|);
    assert s[..|num|] == num && s[0] == num[0];
    assert TokensFrom(s, |s|) == Some([]);
    assert [Token(num, unit)] + [] == [Token(num, unit)];
  }

  lemma OnePart(num: string, unit: char, isTime: bool, n: int)
    requires IsNumber(num) && !IsNumberChar(unit) && ReadValue(isTime, num, unit) == Some(n)
    ensures Parts(num + [unit], isTime) == Some([Part(unit, n)])
  {
    OneToken(num, unit);
    var toks := [Token(num, unit)];
    assert toks[..|toks| - 1] == [] && toks[|toks| - 1] == Token(num, unit);
    assert ReadAll(isTime, []) == Some([]);
    assert [] + [Part(unit, n)] == [Part(unit, n)];
  }

  function Signed(sign: string, n: int): int {
    if sign == "-" then -n else n
  }

  predicate GoodSign(sign: string, n: int) {
    sign == "" || (sign == "-" && n >= 0)
  }

  lemma FormatIsNumber(n: int)
    ensures IsNumber(FormatInt(n)) && 'T' !in FormatInt(n) && '.' !in FormatInt(n)
  {
    var d := Digits(if n < 0 then -n else n);
    DigitsMeaning(if n < 0 then -n else n);
    assert forall k :: 0 <= k < |d| ==> IsDigit(d[k]);
  }

  lemma SignedText(sign: string, n: int)
    requires GoodSign(sign, n) && n != 0
    ensures sign + FormatInt(n) == FormatInt(Signed(sign, n))
  {
    Associate(sign, FormatInt(n), "", "");
  }

  function PartOf(unit: char, n: int): seq<Part> {
    if n == 0 then [] else [Part(unit, n)]
  }

  lemma ComponentParts(sign: string, n: int, unit: char, isTime: bool)
    requires GoodSign(sign, n)
    requires if isTime then (unit == 'H' || unit == 'M') && IsInt64(Signed(sign, n))
             else (unit == 'Y' || unit == 'M' || unit == 'D') && IsInt32(Signed(sign, n))
    ensures Parts(Component(sign, n, unit), isTime) == Some(PartOf(unit, Signed(sign, n)))
  {
    if n != 0 {
      var m := Signed(sign, n);
      SignedText(sign, n);
      FormatIsNumber(m);
      ParseFormat(m, if isTime then 64 else 32);
      OnePart(FormatInt(m), unit, isTime, m);
    }
  }

  lemma ComponentHasNoT(sign: string, n: int, unit: char)
    requires GoodSign(sign, n) && unit != 'T'
    ensures 'T' !in Component(sign, n, unit)
  {
    FormatIsNumber(n);
  }

  // ----- fractions -----

  lemma {:induction false} TrimPad(d: string)
    ensures |TrimRightZeros(d)| <= |d| && TrimRightZeros(d) + Zeros(|d| - |TrimRightZeros(d)|) == d
  {
    if d != "" && d[|d| - 1] == '0' {
      var front := d[..|d| - 1];
      TrimPad(front);
      assert d == front + "0";
    } else {
      assert d + "" == d;
    }
  }

  lemma TrimmedNonEmpty(d: string)
    requires AllDigits(d) && Value(d) > 0
    ensures TrimRightZeros(d) != ""
  {
    if TrimRightZeros(d) == "" {
      TrimPad(d);
      assert "" + Zeros(|d|) == Zeros(|d|);
      ValueOfZeros(|d|);
    }
  }

  lemma TrimKeepsDigits(d: string)
    requires AllDigits(d)
    ensures AllDigits(TrimRightZeros(d))
  {
    TrimPad(d);
    var trimmed := TrimRightZeros(d);
    assert forall i :: 0 <= i < |trimmed| ==> trimmed[i] == (trimmed + Zeros(|d| - |trimmed|))[i];
  }

  lemma SixDigitsOf(pad: string, trimmed: string, d: string)
    requires |pad| + |d| == 6 && |trimmed| <= |d| && trimmed + Zeros(|d| - |trimmed|) == d
    ensures SixDigits(pad + trimmed) == pad + d
  {
    Associate(pad, trimmed, Zeros(|d| - |trimmed|), "");
  }

  lemma ParseDigits(s: string, n: nat)
    requires s != "" && AllDigits(s) && Value(s) == n && IsInt64(n)
    ensures ParseInt(s, 64) == Some(n)
  {
    assert IsDigit(s[0]);
  }

  lemma FracIsDigits(pad: string, trimmed: string)
    requires pad == Zeros(|pad|) && AllDigits(trimmed)
    ensures AllDigits(pad + trimmed)
  {
    ZerosAreZero(|pad|);
  }

  /** Zeros, the trimmed digits, and what filling them up again means. */
  lemma PaddedFraction(d: string, f: nat)
    requires AllDigits(d) && Value(d) == f && 0 < f < 1_000_000 && |d| <= 6
    ensures var frac := Zeros(6 - |d|) + TrimRightZeros(d);
            frac != "" && AllDigits(frac) && ParseInt(SixDigits(frac), 64) == Some(f)
  {
    TrimPad(d);
    TrimmedNonEmpty(d);
    TrimKeepsDigits(d);
    SixDigitsOf(Zeros(6 - |d|), TrimRightZeros(d), d);
    LeadingZeros(6 - |d|, d);
    FracIsDigits(Zeros(6 - |d|), TrimRightZeros(d));
    ParseDigits(Zeros(6 - |d|) + d, f);
  }

  function FracOf(f: nat): string {
    var d := Digits(f);
    (if |d| <= 6 then Zeros(6 - |d|) else "") + TrimRightZeros(d)
  }

  /** The digits after the dot: filled up to six digits they are the fraction again. */
  lemma FracDigits(f: nat)
    requires 0 < f < 1_000_000
    ensures FracOf(f) != "" && AllDigits(FracOf(f))
    ensures ParseInt(SixDigits(FracOf(f)), 64) == Some(f)
  {
    assert Power10(6) == 1_000_000;
    DigitsBound(f, 6, 1_000_000);
    DigitsMeaning(f);
    PaddedFraction(Digits(f), f);
  }

  lemma FormatFracIs(f: nat)
    ensures FormatFrac(f) == "." + FracOf(f)
  {
    var d := Digits(f);
    Associate(".", if |d| <= 6 then Zeros(6 - |d|) else "", TrimRightZeros(d), "");
    assert Zeros(0) == "";
  }

  /** Telling the sign from the digits that follow. */
  lemma SignedBody(body: string)
    requires body != "" && IsDigit(body[0])
    ensures Unsigned(body) == body && !IsNegated(body)
    ensures Unsigned("-" + body) == body && IsNegated("-" + body)
  {
    assert ("-" + body)[1..] == body;
  }

  lemma SplitAtDot(a: string, frac: string)
    requires '.' !in a && frac != ""
    ensures WholeSeconds(a + ("." + frac)) == ParseInt(a, 64)
    ensures FractionMicros(a + ("." + frac)) == ParseInt(SixDigits(frac), 64)
  {
    assert a + ("." + frac) == a + ['.'] + frac;
    CutConcat(a, '.', frac);
  }

  lemma NoDot(a: string)
    requires '.' !in a
    ensures WholeSeconds(a) == ParseInt(a, 64) && FractionMicros(a) == Some(0)
  {
    CutAtIndex(a, '.');
  }

  lemma SecondsOf(s: string, body: string, w: nat, f: nat)
    requires Unsigned(s) == body && WholeSeconds(body) == Some(w) && FractionMicros(body) == Some(f)
    ensures Seconds(s) == Some(if IsNegated(s) then -(w * 1_000_000 + f) else w * 1_000_000 + f)
  {
  }

  lemma SecondsOfBody(body: string, w: nat, f: nat)
    requires body != "" && IsDigit(body[0]) && WholeSeconds(body) == Some(w) && FractionMicros(body) == Some(f)
    ensures Seconds(body) == Some(w * 1_000_000 + f) && Seconds("-" + body) == Some(-(w * 1_000_000 + f))
  {
    var negated := "-" + body;
    SignedBody(body);
    SecondsOf(body, body, w, f);
    SecondsOf(negated, body, w, f);
  }

  /** A body of whole seconds and a fraction reads back, whatever text they are printed as. */
  lemma BodyReadsBack(a: string, w: nat, tail: string, f: nat)
    requires a != "" && IsDigit(a[0]) && '.' !in a && ParseInt(a, 64) == Some(w)
    requires if f == 0 then tail == "" else tail != "" && ParseInt(SixDigits(tail), 64) == Some(f)
    ensures var body := a + (if f == 0 then "" else "." + tail);
            Seconds(body) == Some(w * 1_000_000 + f) && Seconds("-" + body) == Some(-(w * 1_000_000 + f))
  {
    if f == 0 {
      assert a + "" == a;
      NoDot(a);
      SecondsOfBody(a, w, 0);
    } else {
      SplitAtDot(a, tail);
      SecondsOfBody(a + ("." + tail), w, f);
    }
  }

  function FracText(f: int): string {
    if f != 0 then FormatFrac(f) else ""
  }

  /** The fraction inverse: the seconds text of w whole seconds and f microseconds reads back as exactly
      that many microseconds, and with a minus sign as the negation, also for w = 0. */
  lemma FractionInverse(w: nat, f: nat)
    requires IsInt64(w) && f < 1_000_000
    ensures Seconds(FormatInt(w) + FracText(f)) == Some(w * 1_000_000 + f)
    ensures Seconds("-" + (FormatInt(w) + FracText(f))) == Some(-(w * 1_000_000 + f))
  {
    FormatIsNumber(w);
    ParseFormat(w, 64);
    DigitsMeaning(w);
    if f != 0 {
      FracDigits(f);
      FormatFracIs(f);
    }
    BodyReadsBack(FormatInt(w), w, if f == 0 then "" else FracOf(f), f);
  }

  /** Digits of a fraction beyond the sixth are cut off. */
  lemma FractionIsCut(a: string, frac: string, more: string)
    requires '.' !in a && AllDigits(a) && a != "" && |frac| == 6
    ensures Seconds(a + ("." + (frac + more))) == Seconds(a + ("." + frac))
  {
    SplitAtDot(a, frac + more);
    SplitAtDot(a, frac);
    assert SixDigits(frac + more) == frac == SixDigits(frac) by { assert (frac + more)[..6] == frac && frac + "" == frac; }
    assert (a + ("." + frac))[0] == a[0] && (a + ("." + (frac + more)))[0] == a[0];
  }

  lemma NumberBody(a: string, frac: string, dot: bool)
    requires a != "" && AllDigits(a) && AllDigits(frac)
    ensures var body := a + (if dot then "." + frac else ""); IsNumber(body) && IsNumber("-" + body)
  {
    var body := a + (if dot then "." + frac else "");
    assert forall k :: 0 <= k < |body| ==> IsNumberChar(body[k]);
    assert forall k :: 1 <= k <= |body| ==> ("-" + body)[k] == body[k - 1];
  }

  lemma {:induction false} TrimmedEnd(d: string)
    ensures var t := TrimRightZeros(d); t != "" ==> t[|t| - 1] != '0'
  {
    if d != "" && d[|d| - 1] == '0' {
      TrimmedEnd(d[..|d| - 1]);
    }
  }

  /** The printed fraction is as short as it can be: at most six digits, the last of them not zero. */
  lemma FractionIsShort(f: nat)
    requires 0 < f < 1_000_000
    ensures 1 < |FormatFrac(f)| <= 7 && FormatFrac(f)[|FormatFrac(f)| - 1] != '0'
  {
    var d := Digits(f);
    assert Power10(6) == 1_000_000;
    DigitsBound(f, 6, 1_000_000);
    DigitsMeaning(f);
    TrimmedNonEmpty(d);
    TrimPad(d);
    TrimmedEnd(d);
    FormatFracIs(f);
  }

  lemma SecondsIsNumber(w: nat, f: nat)
    requires f < 1_000_000
    ensures IsNumber(FormatInt(w) + FracText(f)) && IsNumber("-" + (FormatInt(w) + FracText(f)))
  {
    DigitsMeaning(w);
    if f != 0 {
      FracDigits(f);
      FormatFracIs(f);
      NumberBody(Digits(w), FracOf(f), true);
    } else {
      NumberBody(Digits(w), "", false);
    }
  }

  lemma SecondsTextIs(sign: string, w: int, f: int)
    ensures SecondsText(sign, w, f) == (sign + (FormatInt(w) + FracText(f))) + ['S']
  {
    Associate(sign, FormatInt(w), FracText(f), "");
  }

  lemma SecondsParts(sign: string, w: nat, f: nat)
    requires (sign == "" || sign == "-") && IsInt64(w) && f < 1_000_000
    ensures Parts(SecondsText(sign, w, f), true) == Some([Part('S', Signed(sign, w * 1_000_000 + f))])
  {
    var body := FormatInt(w) + FracText(f);
    FractionInverse(w, f);
    SecondsIsNumber(w, f);
    SecondsTextIs(sign, w, f);
    Associate(body, "", "", "");
    OnePart(sign + body, 'S', true, Signed(sign, w * 1_000_000 + f));
  }

  // ----- the two halves -----

  lemma ClockFields(us: int)
    requires 0 <= us < 0x8000_0000_0000_0000
    ensures 0 <= HoursIn(us) <= 2_562_047_788 && 0 <= MinutesIn(us) < 60
    ensures 0 <= SecondsIn(us) < 60 && 0 <= FracIn(us) < 1_000_000
    ensures us == HoursIn(us) * 3_600_000_000 + MinutesIn(us) * 60_000_000 + SecondsIn(us) * 1_000_000 + FracIn(us)
  {
  }

  function DateParts(v: Interval): seq<Part> {
    PartOf('Y', Quotient(v.months, 12)) + PartOf('M', Remainder(v.months, 12)) + PartOf('D', v.days)
  }

  function SecondsPart(sign: string, h: int, m: int, w: int, f: int): seq<Part> {
    if ShowsSeconds(h, m, w, f) then [Part('S', Signed(sign, w * 1_000_000 + f))] else []
  }

  function ClockParts(sign: string, h: int, m: int, w: int, f: int): seq<Part> {
    PartOf('H', Signed(sign, h)) + PartOf('M', Signed(sign, m)) + SecondsPart(sign, h, m, w, f)
  }

  function TimeParts(sign: string, us: int): seq<Part> {
    ClockParts(sign, HoursIn(us), MinutesIn(us), SecondsIn(us), FracIn(us))
  }

  lemma ThreeParts(a: string, b: string, c: string, isTime: bool, p: seq<Part>, q: seq<Part>, r: seq<Part>)
    requires Parts(a, isTime) == Some(p) && Parts(b, isTime) == Some(q) && Parts(c, isTime) == Some(r)
    ensures Parts(a + b + c, isTime) == Some(p + q + r)
  {
    ScanConcat(a, b, isTime, p, q);
    ScanConcat(a + b, c, isTime, p + q, r);
  }

  lemma NoText(isTime: bool)
    ensures Parts("", isTime) == Some([])
  {
  }

  lemma DateTextParts(v: Interval)
    requires IsInt32(v.months) && IsInt32(v.days)
    ensures Parts(DateText(v), false) == Some(DateParts(v)) && 'T' !in DateText(v)
  {
    var y, m := Quotient(v.months, 12), Remainder(v.months, 12);
    ComponentParts("", y, 'Y', false);
    ComponentParts("", m, 'M', false);
    ComponentParts("", v.days, 'D', false);
    ThreeParts(Component("", y, 'Y'), Component("", m, 'M'), Component("", v.days, 'D'), false,
               PartOf('Y', y), PartOf('M', m), PartOf('D', v.days));
    ComponentHasNoT("", y, 'Y');
    ComponentHasNoT("", m, 'M');
    ComponentHasNoT("", v.days, 'D');
  }

  lemma ShownSecondsParts(sign: string, h: nat, m: nat, w: nat, f: nat)
    requires (sign == "" || sign == "-") && IsInt64(w) && f < 1_000_000
    ensures Parts(ShownSeconds(sign, h, m, w, f), true) == Some(SecondsPart(sign, h, m, w, f))
  {
    if ShowsSeconds(h, m, w, f) {
      SecondsParts(sign, w, f);
    } else {
      NoText(true);
    }
  }

  lemma ClockTextParts(sign: string, h: nat, m: nat, w: nat, f: nat)
    requires (sign == "" || sign == "-") && h <= 2_562_047_788 && m < 60 && w < 60 && f < 1_000_000
    ensures Parts(ClockText(sign, h, m, w, f), true) == Some(ClockParts(sign, h, m, w, f))
  {
    ComponentParts(sign, h, 'H', true);
    ComponentParts(sign, m, 'M', true);
    ShownSecondsParts(sign, h, m, w, f);
    ThreeParts(Component(sign, h, 'H'), Component(sign, m, 'M'), ShownSeconds(sign, h, m, w, f), true,
               PartOf('H', Signed(sign, h)), PartOf('M', Signed(sign, m)), SecondsPart(sign, h, m, w, f));
  }

  lemma TimeTextParts(sign: string, us: int)
    requires (sign == "" || sign == "-") && 0 <= us < 0x8000_0000_0000_0000
    ensures Parts(TimeText(sign, us), true) == Some(TimeParts(sign, us))
  {
    ClockFields(us);
    ClockTextParts(sign, HoursIn(us), MinutesIn(us), SecondsIn(us), FracIn(us));
  }

  // ----- sums without overflow -----

  /** No accumulator wraps at any point of the scan, and no single contribution does. */
  ghost predicate NeverWraps(isTime: bool, parts: seq<Part>) {
    && (forall k :: 0 <= k <= |parts| ==> Fits(Sum(isTime, parts[..k])))
    && (forall k :: 0 <= k < |parts| ==> Fits(Weight(isTime, parts[k])))
  }

  lemma SumOne(isTime: bool, x: Part)
    ensures Sum(isTime, [x]) == Weight(isTime, x)
  {
    assert [x][..0] == [];
  }

  lemma PrefixOfThree<T>(p: seq<T>, q: seq<T>, r: seq<T>, k: nat)
    requires |p| <= 1 && |q| <= 1 && |r| <= 1 && k <= |p + q + r|
    ensures var front := (p + q + r)[..k]; front == [] || front == p || front == p + q || front == p + q + r
  {
  }

  lemma PrefixSumsFit(isTime: bool, p: seq<Part>, q: seq<Part>, r: seq<Part>, k: nat)
    requires |p| <= 1 && |q| <= 1 && |r| <= 1 && k <= |p + q + r|
    requires Fits(Sum(isTime, p)) && Fits(Sum(isTime, p + q)) && Fits(Sum(isTime, p + q + r))
    ensures Fits(Sum(isTime, (p + q + r)[..k]))
  {
    PrefixOfThree(p, q, r, k);
    var front := (p + q + r)[..k];
    if front == [] { assert Sum(isTime, front) == Amounts(0, 0, 0); }
  }

  lemma WeightFits(isTime: bool, x: Part)
    requires Fits(Sum(isTime, [x]))
    ensures Fits(Weight(isTime, x))
  {
    SumOne(isTime, x);
  }

  lemma OnlyOne(p: seq<Part>, x: Part)
    requires |p| <= 1 && x in p
    ensures p == [x]
  {
  }

  lemma SumOfThree(isTime: bool, p: seq<Part>, q: seq<Part>, r: seq<Part>)
    requires |p| <= 1 && |q| <= 1 && |r| <= 1
    requires Fits(Sum(isTime, p)) && Fits(Sum(isTime, q)) && Fits(Sum(isTime, r))
    requires Fits(Plus(Sum(isTime, p), Sum(isTime, q)))
    requires Fits(Plus(Plus(Sum(isTime, p), Sum(isTime, q)), Sum(isTime, r)))
    ensures Sum(isTime, p + q + r) == Plus(Plus(Sum(isTime, p), Sum(isTime, q)), Sum(isTime, r))
    ensures NeverWraps(isTime, p + q + r)
  {
    var all := p + q + r;
    SumConcat(isTime, p, q);
    SumConcat(isTime, p + q, r);
    forall k | 0 <= k <= |all| ensures Fits(Sum(isTime, all[..k])) {
      PrefixSumsFit(isTime, p, q, r, k);
    }
    forall k | 0 <= k < |all| ensures Fits(Weight(isTime, all[k])) {
      var x := all[k];
      assert x in p || x in q || x in r;
      if x in p {
        OnlyOne(p, x);
      } else if x in q {
        OnlyOne(q, x);
      } else {
        OnlyOne(r, x);
      }
      WeightFits(isTime, x);
    }
  }

  lemma SumPartOf(isTime: bool, unit: char, n: int)
    ensures Sum(isTime, PartOf(unit, n)) == Weight(isTime, Part(unit, n))
  {
    SumOne(isTime, Part(unit, n));
  }

  /** The printed date components are the months and days again, without wrap-around anywhere. */
  lemma DateSum(v: Interval)
    requires IsInt32(v.months) && IsInt32(v.days)
    ensures Sum(false, DateParts(v)) == Amounts(v.months, v.days, 0) && NeverWraps(false, DateParts(v))
  {
    var y, m := Quotient(v.months, 12), Remainder(v.months, 12);
    SumPartOf(false, 'Y', y);
    SumPartOf(false, 'M', m);
    SumPartOf(false, 'D', v.days);
    SumOfThree(false, PartOf('Y', y), PartOf('M', m), PartOf('D', v.days));
  }

  lemma SumSecondsPart(sign: string, h: nat, m: nat, w: nat, f: nat)
    ensures Sum(true, SecondsPart(sign, h, m, w, f)) == Amounts(0, 0, Signed(sign, w * 1_000_000 + f))
  {
    SumOne(true, Part('S', Signed(sign, w * 1_000_000 + f)));
  }

  /** Three signed amounts whose total fits: nothing on the way overflows. */
  lemma SignedTotal(sign: string, a: nat, b: nat, c: nat)
    requires IsInt64(a + b + c)
    ensures IsInt64(Signed(sign, a)) && IsInt64(Signed(sign, b)) && IsInt64(Signed(sign, c))
    ensures IsInt64(Signed(sign, a) + Signed(sign, b))
    ensures Signed(sign, a) + Signed(sign, b) + Signed(sign, c) == Signed(sign, a + b + c)
  {
  }

  lemma ClockWeights(sign: string, h: nat, m: nat)
    ensures Weight(true, Part('H', Signed(sign, h))) == Amounts(0, 0, Signed(sign, h * 3_600_000_000))
    ensures Weight(true, Part('M', Signed(sign, m))) == Amounts(0, 0, Signed(sign, m * 60_000_000))
  {
  }

  /** Three parts of the clock, given what each of them weighs. */
  lemma MicrosOfThree(p: seq<Part>, q: seq<Part>, r: seq<Part>, sign: string, a: nat, b: nat, c: nat)
    requires |p| <= 1 && |q| <= 1 && |r| <= 1 && IsInt64(a + b + c)
    requires Sum(true, p) == Amounts(0, 0, Signed(sign, a)) && Sum(true, q) == Amounts(0, 0, Signed(sign, b))
    requires Sum(true, r) == Amounts(0, 0, Signed(sign, c))
    ensures Sum(true, p + q + r) == Amounts(0, 0, Signed(sign, a + b + c)) && NeverWraps(true, p + q + r)
  {
    SignedTotal(sign, a, b, c);
    SumOfThree(true, p, q, r);
  }

  lemma ClockSum(sign: string, h: nat, m: nat, w: nat, f: nat, us: nat)
    requires us == h * 3_600_000_000 + m * 60_000_000 + w * 1_000_000 + f && IsInt64(us)
    ensures Sum(true, ClockParts(sign, h, m, w, f)) == Amounts(0, 0, Signed(sign, us))
    ensures NeverWraps(true, ClockParts(sign, h, m, w, f))
  {
    SumPartOf(true, 'H', Signed(sign, h));
    SumPartOf(true, 'M', Signed(sign, m));
    ClockWeights(sign, h, m);
    SumSecondsPart(sign, h, m, w, f);
    MicrosOfThree(PartOf('H', Signed(sign, h)), PartOf('M', Signed(sign, m)), SecondsPart(sign, h, m, w, f),
                  sign, h * 3_600_000_000, m * 60_000_000, w * 1_000_000 + f);
  }

  /** The printed clock components are the microseconds again, without wrap-around anywhere. */
  lemma TimeSum(sign: string, us: int)
    requires 0 <= us && IsInt64(us)
    ensures Sum(true, TimeParts(sign, us)) == Amounts(0, 0, Signed(sign, us)) && NeverWraps(true, TimeParts(sign, us))
  {
    ClockFields(us);
    ClockSum(sign, HoursIn(us), MinutesIn(us), SecondsIn(us), FracIn(us), us);
  }

  // ----- the whole text -----

  function TimePart(micros: int): string {
    if micros == 0 then "" else "T" + TimeText(Sign(micros), Magnitude(micros))
  }

  lemma FormatShape(v: Interval)
    requires v.months != 0 || v.days != 0 || v.micros != 0
    ensures Format(v) == "P" + (DateText(v) + TimePart(v.micros))
  {
    Associate("P", DateText(v), TimePart(v.micros), "");
  }

  lemma HalvesOfText(date: string, time: string, withTime: bool)
    requires 'T' !in date && (withTime || date != "")
    requires withTime ==> time != ""
    ensures Halves("P" + (date + (if withTime then "T" + time else ""))) == Some((date, if withTime then time else ""))
  {
    var body := date + (if withTime then "T" + time else "");
    assert ("P" + body)[1..] == body;
    if withTime {
      assert body == date + ['T'] + time;
      CutConcat(date, 'T', time);
    } else {
      assert body == date;
      CutAtIndex(body, 'T');
    }
  }

  lemma SecondsNotEmpty(sign: string, us: int)
    ensures TimeText(sign, us) != ""
  {
  }

  lemma DateTextEmpty(v: Interval)
    ensures DateText(v) == "" ==> v.months == 0 && v.days == 0
  {
  }

  /** The halves of the printed text. */
  lemma FormatHalves(v: Interval)
    requires InMachineRange(v)
    ensures Halves(Format(v)) ==
      if v.months == 0 && v.days == 0 && v.micros == 0 then Some(("", SecondsText("", 0, 0)))
      else Some((DateText(v), if v.micros == 0 then "" else TimeText(Sign(v.micros), Magnitude(v.micros))))
  {
    if v.months == 0 && v.days == 0 && v.micros == 0 {
      assert SecondsText("", 0, 0) == "0S";
      assert "P" + ("" + ("T" + "0S")) == "PT0S";
      HalvesOfText("", "0S", true);
    } else {
      DateTextParts(v);
      DateTextEmpty(v);
      SecondsNotEmpty(Sign(v.micros), Magnitude(v.micros));
      FormatShape(v);
      HalvesOfText(DateText(v), TimeText(Sign(v.micros), Magnitude(v.micros)), v.micros != 0);
    }
  }

  lemma SignIsNoNumber()
    ensures ReadAll(true, [Token("-", '-')]) == None
  {
    assert [Token("-", '-')][..0] == [];
  }

  lemma SignFirst(s: string)
    requires |s| >= 2 && s[0] == '-' && s[1] == '-'
    ensures NumberEnd(s, 0) == 1 && s[0..1] == "-"
  {
  }

  /** Two signs in a row are no number. */
  lemma DoubleSign(rest: string)
    ensures Parts("--" + rest, true) == None
  {
    var s, bad := "--" + rest, Token("-", '-');
    SignFirst(s);
    TokensStep(s, 0, 1, "-", '-');
    var toks := TokensFrom(s, 2);
    if toks.Some? {
      SignIsNoNumber();
      ReadAllConcat(true, [bad], toks.value);
    }
  }

  /** Negating the least int64 leaves it negative, so its hours are printed with two minus signs. */
  lemma LeastTimeText() returns (rest: string)
    ensures TimeText("-", -0x8000_0000_0000_0000) == "--" + rest
  {
    var us := -0x8000_0000_0000_0000;
    var h := HoursIn(us);
    assert h < 0;
    var minutes, seconds := Component("-", MinutesIn(us), 'M'), ShownSeconds("-", h, MinutesIn(us), SecondsIn(us), FracIn(us));
    rest := Digits(-h) + ['H'] + minutes + seconds;
    SignsFirst(Digits(-h), minutes, seconds);
  }

  lemma SignsFirst(d: string, minutes: string, seconds: string)
    ensures "-" + ("-" + d) + ['H'] + minutes + seconds == "--" + (d + ['H'] + minutes + seconds)
  {
  }

  lemma LeastNotParsed(v: Interval)
    requires InMachineRange(v) && v.micros == -0x8000_0000_0000_0000
    ensures Parse(Format(v)) == None
  {
    FormatHalves(v);
    var rest := LeastTimeText();
    DoubleSign(rest);
  }

  lemma CombineExact(v: Interval, date: seq<Part>, time: seq<Part>)
    requires InMachineRange(v)
    requires Sum(false, date) == Amounts(v.months, v.days, 0) && Sum(true, time) == Amounts(0, 0, v.micros)
    ensures Combine(Some(date), Some(time)) == Some(v)
  {
  }

  lemma ParseOfHalves(s: string, date: string, time: string, dates: seq<Part>, times: seq<Part>, v: Interval)
    requires InMachineRange(v) && Halves(s) == Some((date, time))
    requires Parts(date, false) == Some(dates) && Sum(false, dates) == Amounts(v.months, v.days, 0)
    requires Parts(time, true) == Some(times) && Sum(true, times) == Amounts(0, 0, v.micros)
    ensures Parse(s) == Some(v)
  {
    CombineExact(v, dates, times);
  }

  lemma ZeroParsed()
    ensures Parse(Format(Interval(0, 0, 0))) == Some(Interval(0, 0, 0))
  {
    var v := Interval(0, 0, 0);
    FormatHalves(v);
    NoText(false);
    SecondsParts("", 0, 0);
    SumOne(true, Part('S', 0));
    ParseOfHalves(Format(v), "", SecondsText("", 0, 0), [], [Part('S', 0)], v);
  }

  lemma ParsedBack(v: Interval)
    requires InMachineRange(v) && v.micros != -0x8000_0000_0000_0000
    ensures Parse(Format(v)) == Some(v)
  {
    if v == Interval(0, 0, 0) {
      ZeroParsed();
    } else {
      FormatHalves(v);
      DateTextParts(v);
      DateSum(v);
      if v.micros == 0 {
        NoText(true);
        ParseOfHalves(Format(v), DateText(v), "", DateParts(v), [], v);
      } else {
        TimeTextParts(Sign(v.micros), Magnitude(v.micros));
        TimeSum(Sign(v.micros), Magnitude(v.micros));
        ParseOfHalves(Format(v), DateText(v), TimeText(Sign(v.micros), Magnitude(v.micros)),
                      DateParts(v), TimeParts(Sign(v.micros), Magnitude(v.micros)), v);
      }
    }
  }

  /** The round trip, over all int32 months, int32 days and int64 microseconds: the parser gives back the
      printed interval exactly when the microseconds are not the least int64. */
  lemma RoundTrip(v: Interval)
    requires InMachineRange(v)
    ensures Parse(Format(v)) == Some(v) <==> v.micros != -0x8000_0000_0000_0000
    ensures v.micros == -0x8000_0000_0000_0000 ==> Parse(Format(v)) == None
  {
    if v.micros == -0x8000_0000_0000_0000 {
      LeastNotParsed(v);
    } else {
      ParsedBack(v);
    }
  }

  /** Whatever text was accepted, printing its value and parsing again changes nothing, with the same
      single exception. */
  lemma ParsedIsStable(s: string, v: Interval)
    requires Parse(s) == Some(v)
    ensures InMachineRange(v)
    ensures Parse(Format(v)) == Some(v) <==> v.micros != -0x8000_0000_0000_0000
  {
    RoundTrip(v);
  }

  /** Distinct intervals print as distinct texts; here the least int64 is no exception. */
  lemma FormatInjective(a: Interval, b: Interval)
    requires InMachineRange(a) && InMachineRange(b) && Format(a) == Format(b)
    ensures a == b
  {
    RoundTrip(a);
    RoundTrip(b);
    if a.micros == -0x8000_0000_0000_0000 {
      FormatHalves(a);
      FormatHalves(b);
      DateTextParts(a);
      DateTextParts(b);
      DateSum(a);
      DateSum(b);
    }
  }

  ghost predicate ScannedSafely(text: string, isTime: bool) {
    var parts := Parts(text, isTime);
    parts.Some? && NeverWraps(isTime, parts.value)
  }

  lemma SafeDate(v: Interval)
    requires IsInt32(v.months) && IsInt32(v.days)
    ensures ScannedSafely(DateText(v), false)
  {
    DateTextParts(v);
    DateSum(v);
  }

  lemma SafeTime(sign: string, us: int)
    requires (sign == "" || sign == "-") && 0 <= us && IsInt64(us)
    ensures ScannedSafely(TimeText(sign, us), true)
  {
    TimeTextParts(sign, us);
    TimeSum(sign, us);
  }

  lemma SafeNothing(isTime: bool)
    ensures ScannedSafely("", isTime)
  {
    NoText(isTime);
    assert Sum(isTime, []) == Amounts(0, 0, 0);
  }

  lemma SafeZero()
    ensures ScannedSafely(SecondsText("", 0, 0), true)
  {
    SecondsParts("", 0, 0);
    ClockSum("", 0, 0, 0, 0, 0);
    assert ClockParts("", 0, 0, 0, 0) == [Part('S', 0)];
  }

  /** Reading printed text back involves no overflow: neither a contribution nor a running total wraps. */
  lemma ReadBackNeverWraps(v: Interval)
    requires InMachineRange(v) && v.micros != -0x8000_0000_0000_0000
    ensures var h := Halves(Format(v));
            h.Some? && ScannedSafely(h.value.0, false) && ScannedSafely(h.value.1, true)
  {
    FormatHalves(v);
    SafeDate(v);
    if v == Interval(0, 0, 0) {
      SafeNothing(false);
      SafeZero();
    } else if v.micros == 0 {
      SafeNothing(true);
    } else {
      SafeTime(Sign(v.micros), Magnitude(v.micros));
    }
  }
}
