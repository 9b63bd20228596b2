/** ISO 8601 durations (section 4.4.3.2 of ISO 8601:2004) of months, days and microseconds:
    the printer, the component scanner and the parser. */
module Interval {
  import opened Text
  import opened SequenceDsl
  import opened Decimal

  datatype Interval = Interval(months: int, days: int, micros: int)

  predicate InMachineRange(v: Interval) {
    IsInt32(v.months) && IsInt32(v.days) && IsInt64(v.micros)
  }

  /** Go's integer division truncates towards zero. */
  function Quotient(a: int, b: int): int
    requires b > 0
  {
    if a >= 0 then a / b else -((-a) / b)
  }

  function Remainder(a: int, b: int): int
    requires b > 0
  {
    a - Quotient(a, b) * b
  }

  // ----- seconds with a fraction -----

  /** The six digits of a fraction: cut or filled with zeros. */
  function SixDigits(frac: string): string {
    if |frac| > 6 then frac[..6] else frac + Zeros(6 - |frac|)
  }

  predicate IsSigned(s: string) {
    |s| > 0 && (s[0] == '-' || s[0] == '+')
  }

  function Unsigned(s: string): string {
    if IsSigned(s) then s[1..] else s
  }

  predicate IsNegated(s: string) {
    |s| > 0 && s[0] == '-'
  }

  /** Whole seconds: the text before the dot. */
  function WholeSeconds(body: string): Option<int> {
    ParseInt(BeforeFirst(body, '.'), 64)
  }

  /** Microseconds of the fraction, zero when there is none. */
  function FractionMicros(body: string): Option<int> {
    MicrosOf(AfterFirst(body, '.'))
  }

  function MicrosOf(frac: string): Option<int> {
    if frac == "" then Some(0) else ParseInt(SixDigits(frac), 64)
  }

  function FromFields(neg: bool, whole: Option<int>, f: Option<int>): Option<int> {
    if whole.None? || f.None? then None
    else
      var total := whole.value * 1_000_000 + f.value;
      Some(if neg then -total else total)
  }

  /** Exact microseconds of a seconds component, before any wrap-around. */
  function Seconds(s: string): Option<int> {
    FromFields(IsNegated(s), WholeSeconds(Unsigned(s)), FractionMicros(Unsigned(s)))
  }

  method PadFraction(frac: string) returns (fracPart: string)
    ensures fracPart == SixDigits(frac)
  {
    fracPart := frac;
    if |fracPart| > 6 {
      fracPart := fracPart[..6];
    }
    while |fracPart| < 6
      invariant |fracPart| <= 6
      invariant |frac| > 6 ==> fracPart == frac[..6]
      invariant |frac| <= 6 ==> |fracPart| >= |frac| && fracPart == frac + Zeros(|fracPart| - |frac|)
      decreases 6 - |fracPart|
    {
      fracPart := fracPart + "0";
    }
  }

  /** Scaling, adding the fraction and negating, each with wrap-around, is wrapping the exact value once. */
  lemma WrapSeconds(whole: int, f: int, neg: bool)
    ensures
      var us := Wrap64(Wrap64(whole * 1_000_000) + f);
      var exact := whole * 1_000_000 + f;
      (if neg then Wrap64(-us) else us) == Wrap64(if neg then -exact else exact)
  {
    Wrap64Add(whole * 1_000_000, f);
    Wrap64Negate(whole * 1_000_000 + f);
  }

  method ReadFraction(fracPart: string) returns (f: Option<int>)
    ensures f == MicrosOf(fracPart)
  {
    if fracPart == "" {
      return Some(0);
    }
    var padded := PadFraction(fracPart);
    f := ParseInt(padded, 64);
  }

  method ReadSeconds(s: string) returns (neg: bool, whole: Option<int>, f: Option<int>)
    ensures neg == IsNegated(s) && whole == WholeSeconds(Unsigned(s)) && f == FractionMicros(Unsigned(s))
  {
    var rest := s;
    neg := false;
    if HasPrefix(rest, "-") {
      neg := true;
      rest := rest[1..];
    } else if HasPrefix(rest, "+") {
      rest := rest[1..];
    }
    assert rest == Unsigned(s);
    whole, f := ReadParts(rest);
  }

  method ReadParts(body: string) returns (whole: Option<int>, f: Option<int>)
    ensures whole == WholeSeconds(body) && f == FractionMicros(body)
  {
    var intPart, fracPart := body, "";
    var i := IndexOf(body, '.');
    if i >= 0 {
      intPart := body[..i];
      fracPart := body[i + 1..];
    }
    CutAtIndex(body, '.');
    whole := ParseInt(intPart, 64);
    f := ReadFraction(fracPart);
  }

  function WrapOption(n: Option<int>): Option<int> {
    if n.None? then None else Some(Wrap64(n.value))
  }

  /** parseSecondsToMicros: the exact value, wrapped to 64 bits. */
  method ParseSecondsToMicros(s: string) returns (micros: Option<int>)
    ensures micros == WrapOption(Seconds(s))
  {
    var neg, whole, f := ReadSeconds(s);
    micros := SecondsToMicros(neg, whole, f);
  }

  method SecondsToMicros(neg: bool, whole: Option<int>, f: Option<int>) returns (micros: Option<int>)
    ensures micros == WrapOption(FromFields(neg, whole, f))
  {
    if whole.None? || f.None? {
      return None;
    }
    var us := Wrap64(whole.value * 1_000_000);
    us := Wrap64(us + f.value);
    WrapSeconds(whole.value, f.value, neg);
    if neg {
      us := Wrap64(-us);
    }
    return Some(us);
  }

  // ----- components -----

  /** A parsed component: its unit and its exact value (for S, in microseconds). */
  datatype Part = Part(unit: char, n: int)

  predicate IsNumberChar(c: char) {
    IsDigit(c) || c == '.'
  }

  /** First position at or after j that is neither digit nor dot. */
  function RunEnd(s: string, j: nat): (k: nat)
    requires j <= |s|
    ensures j <= k <= |s|
    decreases |s| - j
  {
    if j < |s| && IsNumberChar(s[j]) then RunEnd(s, j + 1) else j
  }

  /** End of the number that starts at position i: an optional sign, then digits and dots. */
  function NumberEnd(s: string, i: nat): (k: nat)
    requires i <= |s|
    ensures i <= k <= |s|
  {
    RunEnd(s, if i < |s| && (s[i] == '-' || s[i] == '+') then i + 1 else i)
  }

  function DateValue(num: string, unit: char): Option<int> {
    if unit == 'Y' || unit == 'M' || unit == 'D' then ParseInt(num, 32) else None
  }

  function TimeValue(num: string, unit: char): Option<int> {
    if unit == 'H' || unit == 'M' then ParseInt(num, 64)
    else if unit == 'S' then Seconds(num)
    else None
  }

  /** A number and the unit that follows it. */
  datatype Token = Token(num: string, unit: char)

  function Prepend<T>(p: seq<T>, rest: Option<seq<T>>): Option<seq<T>> {
    if rest.Some? then Some(p + rest.value) else None
  }

  lemma PrependTwice<T>(a: seq<T>, b: seq<T>, rest: Option<seq<T>>)
    ensures Prepend(a, Prepend(b, rest)) == Prepend(a + b, rest)
    ensures Prepend([], rest) == rest
  {
    if rest.Some? {
      assert a + (b + rest.value) == a + b + rest.value;
      assert [] + rest.value == rest.value;
    }
  }

  /** The tokens of one half of a duration from position i on, or None when it is malformed. */
  function TokensFrom(s: string, i: nat): Option<seq<Token>>
    requires i <= |s|
    decreases |s| - i
  {
    if i == |s| then Some([])
    else
      var j := NumberEnd(s, i);
      if j == i || j == |s| then None else Prepend([Token(s[i..j], s[j])], TokensFrom(s, j + 1))
  }

  /** The value of a number with its unit, or None when this half does not accept it. */
  function ReadValue(isTime: bool, num: string, unit: char): Option<int> {
    if isTime then TimeValue(num, unit) else DateValue(num, unit)
  }

  function Append(front: Option<seq<Part>>, unit: char, n: Option<int>): Option<seq<Part>> {
    if front.None? || n.None? then None else Some(front.value + [Part(unit, n.value)])
  }

  lemma AppendPrepend(a: seq<Part>, front: Option<seq<Part>>, unit: char, n: Option<int>)
    ensures Append(Prepend(a, front), unit, n) == Prepend(a, Append(front, unit, n))
  {
    if front.Some? && n.Some? {
      assert a + front.value + [Part(unit, n.value)] == a + (front.value + [Part(unit, n.value)]);
    }
  }

  /** The values of the tokens, or None when this half does not accept one of them. */
  function ReadAll(isTime: bool, toks: seq<Token>): Option<seq<Part>> {
    if toks == [] then Some([])
    else
      var tok := toks[|toks| - 1];
      Append(ReadAll(isTime, toks[..|toks| - 1]), tok.unit, ReadValue(isTime, tok.num, tok.unit))
  }

  lemma {:induction false} ReadAllConcat(isTime: bool, a: seq<Token>, b: seq<Token>)
    ensures ReadAll(isTime, a + b) ==
            if ReadAll(isTime, a).None? then None else Prepend(ReadAll(isTime, a).value, ReadAll(isTime, b))
  {
    var whole := ReadAll(isTime, a);
    if b == [] {
      assert a + b == a;
      if whole.Some? { assert whole.value + [] == whole.value; }
    } else {
      var front, tok := b[..|b| - 1], b[|b| - 1];
      assert (a + b)[..|a + b| - 1] == a + front;
      ReadAllConcat(isTime, a, front);
      if whole.Some? {
        AppendPrepend(whole.value, ReadAll(isTime, front), tok.unit, ReadValue(isTime, tok.num, tok.unit));
      }
    }
  }

  /** The components of one half of a duration, or None when it is malformed. */
  function Parts(s: string, isTime: bool): Option<seq<Part>> {
    var toks := TokensFrom(s, 0);
    if toks.None? then None else ReadAll(isTime, toks.value)
  }

  // ----- sums of components -----

  function MonthWeight(p: Part): int {
    if p.unit == 'Y' then 12 * p.n else if p.unit == 'M' then p.n else 0
  }

  function DayWeight(p: Part): int {
    if p.unit == 'D' then p.n else 0
  }

  function MicroWeight(p: Part): int {
    if p.unit == 'H' then p.n * 3_600_000_000 else if p.unit == 'M' then p.n * 60_000_000
    else if p.unit == 'S' then p.n else 0
  }

  /** Amounts of months, days and microseconds. */
  datatype Amounts = Amounts(months: int, days: int, micros: int)

  predicate Fits(t: Amounts) {
    IsInt32(t.months) && IsInt32(t.days) && IsInt64(t.micros)
  }

  function Plus(a: Amounts, b: Amounts): Amounts {
    Amounts(a.months + b.months, a.days + b.days, a.micros + b.micros)
  }

  function Wrapped(t: Amounts): (w: Amounts)
    ensures Fits(w)
  {
    Amounts(Wrap32(t.months), Wrap32(t.days), Wrap64(t.micros))
  }

  lemma WrappedPlus(a: Amounts, b: Amounts)
    ensures Wrapped(Plus(Wrapped(a), b)) == Wrapped(Plus(a, b))
  {
    Wrap32Add(a.months, b.months);
    Wrap32Add(a.days, b.days);
    Wrap64Add(a.micros, b.micros);
  }

  /** What one component of a date half or of a time half contributes, exactly. */
  function Weight(isTime: bool, p: Part): Amounts {
    if isTime then Amounts(0, 0, MicroWeight(p)) else Amounts(MonthWeight(p), DayWeight(p), 0)
  }

  /** The exact weighted sum of the components of a half. */
  function Sum(isTime: bool, parts: seq<Part>): Amounts {
    if parts == [] then Amounts(0, 0, 0)
    else Plus(Sum(isTime, parts[..|parts| - 1]), Weight(isTime, parts[|parts| - 1]))
  }

  /** Adding the components one by one in machine arithmetic. */
  function Accumulate(isTime: bool, t: Amounts, parts: seq<Part>): Amounts {
    if parts == [] then t
    else Wrapped(Plus(Accumulate(isTime, t, parts[..|parts| - 1]), Weight(isTime, parts[|parts| - 1])))
  }

  lemma AccumulateAppend(isTime: bool, t: Amounts, parts: seq<Part>, p: Part)
    ensures Accumulate(isTime, t, parts + [p]) == Wrapped(Plus(Accumulate(isTime, t, parts), Weight(isTime, p)))
  {
    assert (parts + [p])[..|parts|] == parts;
  }

  lemma AccumulateStep(t: Amounts, sum: Amounts, w: Amounts)
    ensures Wrapped(Plus(Wrapped(Plus(t, sum)), w)) == Wrapped(Plus(t, Plus(sum, w)))
  {
    WrappedPlus(Plus(t, sum), w);
  }

  lemma AddingNothing(t: Amounts)
    requires Fits(t)
    ensures Wrapped(Plus(t, Amounts(0, 0, 0))) == t
  {
  }

  /** The scanner is a sum: adding the components one after the other in machine arithmetic is adding their
      exact sum once, modulo 2^32 for months and days and modulo 2^64 for microseconds. */
  lemma {:induction false} AccumulateIsSum(isTime: bool, t: Amounts, parts: seq<Part>)
    requires Fits(t)
    ensures Accumulate(isTime, t, parts) == Wrapped(Plus(t, Sum(isTime, parts)))
  {
    if parts == [] {
      AddingNothing(t);
    } else {
      var front, p := parts[..|parts| - 1], parts[|parts| - 1];
      AccumulateIsSum(isTime, t, front);
      AccumulateStep(t, Sum(isTime, front), Weight(isTime, p));
    }
  }

  // ----- scanner -----

  /** The date units. */
  method AddDate(t: Amounts, num: string, unit: char) returns (ok: bool, t': Amounts)
    requires Fits(t)
    ensures ok <==> DateValue(num, unit).Some?
    ensures ok ==> t' == Wrapped(Plus(t, Weight(false, Part(unit, DateValue(num, unit).value))))
  {
    ok, t' := false, t;
    if unit != 'Y' && unit != 'M' && unit != 'D' {
      return;
    }
    var n := ParseInt(num, 32);
    if n.None? {
      return;
    }
    if unit == 'Y' {
      Wrap32Add(t.months, 12 * n.value);
      t' := t'.(months := Wrap32(t.months + Wrap32(n.value * 12)));
    } else if unit == 'M' {
      t' := t'.(months := Wrap32(t.months + n.value));
    } else {
      t' := t'.(days := Wrap32(t.days + n.value));
    }
    ok := true;
  }

  /** n * k * 1_000_000, multiplied step by step with wrap-around. */
  lemma WrapProduct(n: int, k: nat)
    ensures Wrap64(Wrap64(n * k) * 1_000_000) == Wrap64(n * k * 1_000_000)
  {
    var q := Wrap64Distance(n * k);
    Wrap64Shift(n * k * 1_000_000, q * 1_000_000);
  }

  method TimeAmount(num: string, unit: char) returns (micros: Option<int>)
    ensures micros == match TimeValue(num, unit)
                      case None => None
                      case Some(n) => Some(Wrap64(MicroWeight(Part(unit, n))))
  {
    if unit == 'H' {
      var n := ParseInt(num, 64);
      if n.None? { return None; }
      WrapProduct(n.value, 3600);
      return Some(Wrap64(Wrap64(n.value * 3600) * 1_000_000));
    } else if unit == 'M' {
      var n := ParseInt(num, 64);
      if n.None? { return None; }
      WrapProduct(n.value, 60);
      return Some(Wrap64(Wrap64(n.value * 60) * 1_000_000));
    } else if unit == 'S' {
      micros := ParseSecondsToMicros(num);
    } else {
      return None;
    }
  }

  /** The time units. */
  method AddTime(t: Amounts, num: string, unit: char) returns (ok: bool, t': Amounts)
    requires Fits(t)
    ensures ok <==> TimeValue(num, unit).Some?
    ensures ok ==> t' == Wrapped(Plus(t, Weight(true, Part(unit, TimeValue(num, unit).value))))
  {
    ok, t' := false, t;
    var amount := TimeAmount(num, unit);
    if amount.None? {
      return;
    }
    Wrap64Add(t.micros, MicroWeight(Part(unit, TimeValue(num, unit).value)));
    t' := t'.(micros := Wrap64(t.micros + amount.value));
    ok := true;
  }

  /** The switch on the unit. */
  method AddComponent(t: Amounts, num: string, unit: char, isTime: bool) returns (ok: bool, t': Amounts, ghost p: Part)
    requires Fits(t)
    ensures !ok ==> ReadValue(isTime, num, unit) == None
    ensures ok ==> ReadValue(isTime, num, unit) == Some(p.n) && p.unit == unit
    ensures ok ==> t' == Wrapped(Plus(t, Weight(isTime, p)))
  {
    if isTime {
      ok, t' := AddTime(t, num, unit);
      p := Part(unit, if ok then TimeValue(num, unit).value else 0);
    } else {
      ok, t' := AddDate(t, num, unit);
      p := Part(unit, if ok then DateValue(num, unit).value else 0);
    }
  }

  method FindNumberEnd(s: string, i: nat) returns (j: nat)
    requires i < |s|
    ensures j == NumberEnd(s, i)
  {
    j := i;
    if s[j] == '-' || s[j] == '+' {
      j := j + 1;
    }
    while j < |s| && IsNumberChar(s[j])
      invariant i <= j <= |s|
      invariant NumberEnd(s, i) == RunEnd(s, j)
    {
      j := j + 1;
    }
  }

  /** One token: fails when there is none. */
  method NextToken(s: string, i: nat) returns (ok: bool, num: string, unit: char, next: nat)
    requires i < |s|
    ensures !ok ==> TokensFrom(s, i) == None
    ensures ok ==> i < next <= |s| && TokensFrom(s, i) == Prepend([Token(num, unit)], TokensFrom(s, next))
  {
    ok, num, unit, next := false, "", 'S', i;
    var j := FindNumberEnd(s, i);
    if j != i && j < |s| {
      ok, num, unit, next := true, s[i..j], s[j], j + 1;
    }
  }

  /** What one token does to the components read so far. */
  lemma ReadNext(s: string, isTime: bool, toks: seq<Token>, tok: Token, rest: Option<seq<Token>>, parts: seq<Part>)
    requires TokensFrom(s, 0) == Prepend(toks + [tok], rest) && ReadAll(isTime, toks) == Some(parts)
    ensures ReadValue(isTime, tok.num, tok.unit).None? ==> Parts(s, isTime) == None
    ensures ReadValue(isTime, tok.num, tok.unit).Some? ==>
              ReadAll(isTime, toks + [tok]) == Some(parts + [Part(tok.unit, ReadValue(isTime, tok.num, tok.unit).value)])
  {
    assert (toks + [tok])[..|toks|] == toks;
    if rest.Some? {
      ReadAllConcat(isTime, toks + [tok], rest.value);
    }
  }

  /** scanIntervalComponents: fails exactly on a malformed half; otherwise its accumulators grow by the
      weighted sum of the components. The pointers of the source are the in and out amounts here; a nil
      pointer is an amount the half leaves alone. */
  method ScanIntervalComponents(s: string, isTime: bool, t: Amounts) returns (ok: bool, t': Amounts, ghost parts: seq<Part>)
    requires Fits(t)
    ensures !ok ==> Parts(s, isTime) == None
    ensures ok ==> Parts(s, isTime) == Some(parts) && t' == Wrapped(Plus(t, Sum(isTime, parts)))
  {
    ok, t' := true, t;
    var i := 0;
    ghost var toks: seq<Token> := [];
    parts := [];
    PrependTwice([], [], TokensFrom(s, 0));
    while i < |s|
      invariant 0 <= i <= |s| && Fits(t')
      invariant TokensFrom(s, 0) == Prepend(toks, TokensFrom(s, i))
      invariant ReadAll(isTime, toks) == Some(parts)
      invariant t' == Accumulate(isTime, t, parts)
      invariant ok
    {
      var num, unit;
      ok, num, unit, i := NextToken(s, i);
      if !ok {
        return;
      }
      PrependTwice(toks, [Token(num, unit)], TokensFrom(s, i));
      ReadNext(s, isTime, toks, Token(num, unit), TokensFrom(s, i), parts);
      ghost var p;
      ok, t', p := AddComponent(t', num, unit, isTime);
      if !ok {
        return;
      }
      AccumulateAppend(isTime, t, parts, p);
      toks, parts := toks + [Token(num, unit)], parts + [p];
    }
    assert toks + [] == toks;
    AccumulateIsSum(isTime, t, parts);
  }

  // ----- parser -----

  function Combine(date: Option<seq<Part>>, time: Option<seq<Part>>): Option<Interval> {
    if date.None? || time.None? then None
    else
      var total := Wrapped(Plus(Sum(false, date.value), Sum(true, time.value)));
      Some(Interval(total.months, total.days, total.micros))
  }

  /** The date half and the time half of a duration; None without the leading P or with an empty body. */
  function Halves(s: string): Option<(string, string)> {
    if !HasPrefix(s, "P") then None
    else
      var date, time := DateHalf(s[1..]), TimeHalf(s[1..]);
      if date == "" && time == "" then None else Some((date, time))
  }

  function DateHalf(body: string): string {
    BeforeFirst(body, 'T')
  }

  function TimeHalf(body: string): string {
    AfterFirst(body, 'T')
  }

  /** What a duration text stands for: the sums of its components, modulo the machine width. */
  function Parse(s: string): Option<Interval> {
    match Halves(s)
    case None => None
    case Some((date, time)) => Combine(Parts(date, false), Parts(time, true))
  }

  method SplitAtT(body: string) returns (dateRest: string, timeRest: string)
    ensures dateRest == DateHalf(body) && timeRest == TimeHalf(body)
  {
    dateRest, timeRest := body, "";
    var i := IndexOf(body, 'T');
    if i >= 0 {
      dateRest := body[..i];
      timeRest := body[i + 1..];
    }
    CutAtIndex(body, 'T');
  }

  method ParseHalves(date: string, time: string) returns (v: Option<Interval>)
    ensures v == Combine(Parts(date, false), Parts(time, true))
  {
    var ok, t;
    ghost var dates, times;
    ok, t, dates := ScanIntervalComponents(date, false, Amounts(0, 0, 0));
    if !ok {
      return None;
    }
    ok, t, times := ScanIntervalComponents(time, true, t);
    if !ok {
      return None;
    }
    WrappedPlus(Sum(false, dates), Sum(true, times));
    assert Plus(Amounts(0, 0, 0), Sum(false, dates)) == Sum(false, dates);
    return Some(Interval(t.months, t.days, t.micros));
  }

  method ParseIntervalISO(s: string) returns (v: Option<Interval>)
    ensures v == Parse(s)
  {
    if !HasPrefix(s, "P") {
      return None;
    }
    var dateRest, timeRest := SplitAtT(s[1..]);
    if dateRest == "" && timeRest == "" {
      return None;
    }
    v := ParseHalves(dateRest, timeRest);
  }

  // ----- printer -----

  function TrimRightZeros(s: string): string {
    if s != "" && s[|s| - 1] == '0' then TrimRightZeros(s[..|s| - 1]) else s
  }

  /** formatIntervalFrac: a dot, zeros up to six digits, and the number without its trailing zeros. */
  function FormatFrac(fracUs: int): string {
    var frac := FormatInt(fracUs);
    "." + Zeros(if |frac| <= 6 then 6 - |frac| else 0) + TrimRightZeros(frac)
  }

  /** One component of the printed text; a zero component is left out. */
  function Component(sign: string, n: int, unit: char): string {
    if n == 0 then "" else sign + FormatInt(n) + [unit]
  }

  function DateText(v: Interval): string {
    Component("", Quotient(v.months, 12), 'Y') + Component("", Remainder(v.months, 12), 'M') + Component("", v.days, 'D')
  }

  function SecondsText(sign: string, seconds: int, frac: int): string {
    sign + FormatInt(seconds) + (if frac != 0 then FormatFrac(frac) else "") + "S"
  }

  // The clock fields of an amount of microseconds.

  function HoursIn(us: int): int {
    Quotient(us, 3_600_000_000)
  }

  function MinutesIn(us: int): int {
    Quotient(Remainder(us, 3_600_000_000), 60_000_000)
  }

  function SecondsIn(us: int): int {
    Quotient(Remainder(Remainder(us, 3_600_000_000), 60_000_000), 1_000_000)
  }

  function FracIn(us: int): int {
    Remainder(Remainder(Remainder(us, 3_600_000_000), 60_000_000), 1_000_000)
  }

  predicate ShowsSeconds(hours: int, minutes: int, seconds: int, frac: int) {
    seconds != 0 || frac != 0 || (hours == 0 && minutes == 0)
  }

  function ShownSeconds(sign: string, hours: int, minutes: int, seconds: int, frac: int): string {
    if ShowsSeconds(hours, minutes, seconds, frac) then SecondsText(sign, seconds, frac) else ""
  }

  function ClockText(sign: string, hours: int, minutes: int, seconds: int, frac: int): string {
    Component(sign, hours, 'H') + Component(sign, minutes, 'M') + ShownSeconds(sign, hours, minutes, seconds, frac)
  }

  function TimeText(sign: string, us: int): string {
    ClockText(sign, HoursIn(us), MinutesIn(us), SecondsIn(us), FracIn(us))
  }

  function Sign(us: int): string {
    if us < 0 then "-" else ""
  }

  /** The magnitude the printer works on: negating in 64 bits leaves the least value as it is. */
  function Magnitude(us: int): int {
    if us < 0 then Wrap64(-us) else us
  }

  function Format(v: Interval): string {
    if v.months == 0 && v.days == 0 && v.micros == 0 then "PT0S"
    else "P" + DateText(v) + (if v.micros == 0 then "" else "T" + TimeText(Sign(v.micros), Magnitude(v.micros)))
  }

  lemma Associate(a: string, b: string, c: string, d: string)
    ensures a + b + c + d == a + (b + c + d)
    ensures a + b + c + d == a + (b + (c + d))
    ensures a + b + c + d == a + b + (c + d)
    ensures a + "" == a && "" + a == a
  {
  }

  method AppendComponent(neg: bool, n: int, unit: char, b0: string) returns (b: string)
    ensures b == b0 + Component(if neg then "-" else "", n, unit)
  {
    b := b0;
    Associate(b0, if neg then "-" else "", FormatInt(n), [unit]);
    if n != 0 {
      if neg {
        b := b + "-";
      }
      b := b + FormatInt(n);
      b := b + [unit];
    }
  }

  method AppendDate(v: Interval, b0: string) returns (b: string)
    ensures b == b0 + DateText(v)
  {
    b := b0;
    var years := Quotient(v.months, 12);
    var months := Remainder(v.months, 12);
    Associate(b0, Component("", years, 'Y'), Component("", months, 'M'), Component("", v.days, 'D'));
    b := AppendComponent(false, years, 'Y', b);
    b := AppendComponent(false, months, 'M', b);
    b := AppendComponent(false, v.days, 'D', b);
  }

  method AppendSeconds(neg: bool, seconds: int, fracUs: int, b0: string) returns (b: string)
    ensures b == b0 + SecondsText(if neg then "-" else "", seconds, fracUs)
  {
    b := b0;
    ghost var sign := if neg then "-" else "";
    Associate(b0, sign, FormatInt(seconds), if fracUs != 0 then FormatFrac(fracUs) else "");
    Associate(b0, sign + FormatInt(seconds), if fracUs != 0 then FormatFrac(fracUs) else "", "S");
    if neg {
      b := b + "-";
    }
    b := b + FormatInt(seconds);
    if fracUs != 0 {
      b := b + FormatFrac(fracUs);
    }
    b := b + "S";
  }

  /** The clock fields, by reducing `us` in place. */
  method SplitClock(magnitude: int) returns (hours: int, minutes: int, seconds: int, fracUs: int)
    ensures hours == HoursIn(magnitude) && minutes == MinutesIn(magnitude)
    ensures seconds == SecondsIn(magnitude) && fracUs == FracIn(magnitude)
  {
    var us := magnitude;
    hours := Quotient(us, 3_600_000_000);
    us := us - hours * 3_600_000_000;
    minutes := Quotient(us, 60_000_000);
    us := us - minutes * 60_000_000;
    seconds := Quotient(us, 1_000_000);
    fracUs := us - seconds * 1_000_000;
  }

  method AppendClock(neg: bool, hours: int, minutes: int, seconds: int, fracUs: int, b0: string) returns (b: string)
    ensures b == b0 + ClockText(if neg then "-" else "", hours, minutes, seconds, fracUs)
  {
    b := b0;
    ghost var sign := if neg then "-" else "";
    Associate(b0, Component(sign, hours, 'H'), Component(sign, minutes, 'M'), ShownSeconds(sign, hours, minutes, seconds, fracUs));
    b := AppendComponent(neg, hours, 'H', b);
    b := AppendComponent(neg, minutes, 'M', b);
    if seconds != 0 || fracUs != 0 || (hours == 0 && minutes == 0) {
      b := AppendSeconds(neg, seconds, fracUs, b);
    } else {
      assert b + "" == b;
    }
  }

  method AppendTime(micros: int, b0: string) returns (b: string)
    ensures b == b0 + TimeText(Sign(micros), Magnitude(micros))
  {
    var us := micros;
    var neg := us < 0;
    if neg {
      us := Wrap64(-us);
    }
    var hours, minutes, seconds, fracUs := SplitClock(us);
    b := AppendClock(neg, hours, minutes, seconds, fracUs, b0);
  }

  /** formatIntervalISO. */
  method FormatIntervalISO(v: Interval) returns (b: string)
    requires InMachineRange(v)
    ensures b == Format(v)
  {
    if v.months == 0 && v.days == 0 && v.micros == 0 {
      return "PT0S";
    }
    b := "P";
    b := AppendDate(v, b);
    Associate("P", DateText(v), "T", TimeText(Sign(v.micros), Magnitude(v.micros)));
    Associate("P" + DateText(v), "", "", "");
    if v.micros != 0 {
      b := b + "T";
      b := AppendTime(v.micros, b);
    }
  }
}
