/** The printed text of an interval is canonical: which components it shows, in what order, and with what numbers. */
module IntervalCanonical {
  import opened Text
  import opened SequenceDsl
  import opened Decimal
  import opened Interval
  import opened IntervalRoundTrip

  function Abs(n: int): nat {
    if n < 0 then -n else n
  }

  /** The same amount with the sign of `like`. */
  function LikeSigned(like: int, n: nat): int {
    if like < 0 then 0 - n else n
  }

  predicate IsZero(v: Interval) {
    v.months == 0 && v.days == 0 && v.micros == 0
  }

  function DateOf(v: Interval): string {
    BeforeFirst(AfterFirst(Format(v), 'P'), 'T')
  }

  function TimeOf(v: Interval): string {
    AfterFirst(AfterFirst(Format(v), 'P'), 'T')
  }

  lemma AfterP(s: string)
    requires s != "" && s[0] == 'P'
    ensures AfterFirst(s, 'P') == s[1..]
  {
    assert s == "" + ['P'] + s[1..];
    CutConcat("", 'P', s[1..]);
  }

  lemma HalvesAre(s: string, date: string, time: string)
    requires Halves(s) == Some((date, time))
    ensures s != "" && s[0] == 'P' && BeforeFirst(AfterFirst(s, 'P'), 'T') == date && AfterFirst(AfterFirst(s, 'P'), 'T') == time
  {
    AfterP(s);
  }

  lemma TextHalves(v: Interval)
    requires InMachineRange(v)
    ensures Format(v) != "" && Format(v)[0] == 'P'
    ensures DateOf(v) == (if IsZero(v) then "" else DateText(v))
    ensures TimeOf(v) == if IsZero(v) then "0S" else if v.micros == 0 then "" else TimeText(Sign(v.micros), Magnitude(v.micros))
  {
    FormatHalves(v);
    if IsZero(v) {
      assert FormatInt(0) == "0";
      HalvesAre(Format(v), "", "0S");
    } else {
      HalvesAre(Format(v), DateText(v), if v.micros == 0 then "" else TimeText(Sign(v.micros), Magnitude(v.micros)));
    }
  }

  // ----- which letters occur -----

  predicate IsLetter(c: char) {
    !IsDigit(c) && c != '-'
  }

  lemma NumberHasNoLetter(n: int, c: char)
    requires IsLetter(c)
    ensures c !in FormatInt(n)
  {
    DigitsMeaning(Abs(n));
  }

  lemma LetterOfComponent(sign: string, n: int, unit: char, c: char)
    requires (sign == "" || sign == "-") && IsLetter(c)
    ensures c in Component(sign, n, unit) <==> n != 0 && c == unit
  {
    NumberHasNoLetter(n, c);
  }

  lemma LetterOfSeconds(sign: string, w: int, f: nat, c: char)
    requires (sign == "" || sign == "-") && IsLetter(c) && f < 1_000_000
    ensures c in SecondsText(sign, w, f) <==> c == 'S' || (c == '.' && f != 0)
  {
    NumberHasNoLetter(w, c);
    if f != 0 {
      FracDigits(f);
      FormatFracIs(f);
      assert "." + FracOf(f) == ['.'] + FracOf(f);
    }
  }

  lemma LetterOfThree(a: string, b: string, c: string, x: char)
    ensures x in a + b + c <==> x in a || x in b || x in c
  {
  }

  /** Years and months in absolute terms. */
  lemma MonthFields(months: int)
    ensures Quotient(months, 12) == LikeSigned(months, Abs(months) / 12)
    ensures Remainder(months, 12) == LikeSigned(months, Abs(months) % 12)
  {
  }

  lemma MinutesOfMinutes(us: nat)
    ensures us % 3_600_000_000 % 60_000_000 == us % 60_000_000
  {
    var q, m := us / 3_600_000_000, us % 3_600_000_000 / 60_000_000;
    assert us == 60_000_000 * (60 * q + m) + us % 3_600_000_000 % 60_000_000;
  }

  lemma SecondsOfSeconds(us: nat)
    ensures us % 60_000_000 % 1_000_000 == us % 1_000_000
  {
    var q, m := us / 60_000_000, us % 60_000_000 / 1_000_000;
    assert us == 1_000_000 * (60 * q + m) + us % 60_000_000 % 1_000_000;
  }

  lemma RemainderOf(a: nat, b: nat)
    requires b > 0
    ensures Remainder(a, b) == a % b && Quotient(a, b) == a / b
  {
  }

  lemma ClockAmounts(us: nat)
    ensures HoursIn(us) == us / 3_600_000_000 && MinutesIn(us) == us % 3_600_000_000 / 60_000_000
    ensures SecondsIn(us) == us % 60_000_000 / 1_000_000 && FracIn(us) == us % 1_000_000
  {
    RemainderOf(us, 3_600_000_000);
    RemainderOf(us % 3_600_000_000, 60_000_000);
    MinutesOfMinutes(us);
    RemainderOf(us % 60_000_000, 1_000_000);
    SecondsOfSeconds(us);
  }

  lemma ShowsExactly(us: nat)
    requires us != 0
    ensures ShowsSeconds(HoursIn(us), MinutesIn(us), SecondsIn(us), FracIn(us)) <==> us % 60_000_000 != 0
  {
    ClockAmounts(us);
    FieldsAddUp(us);
    SomethingShows(us, us / 3_600_000_000, us % 3_600_000_000 / 60_000_000, us % 60_000_000 / 1_000_000, us % 1_000_000);
  }

  lemma FieldsAddUp(us: nat)
    ensures us == 3_600_000_000 * (us / 3_600_000_000) + 60_000_000 * (us % 3_600_000_000 / 60_000_000) + us % 60_000_000
    ensures us % 60_000_000 == 1_000_000 * (us % 60_000_000 / 1_000_000) + us % 1_000_000
  {
    MinutesOfMinutes(us);
    SecondsOfSeconds(us);
  }

  lemma SomethingShows(us: nat, h: nat, m: nat, w: nat, f: nat)
    requires us != 0 && us == 3_600_000_000 * h + 60_000_000 * m + us % 60_000_000 && us % 60_000_000 == 1_000_000 * w + f
    ensures ShowsSeconds(h, m, w, f) <==> us % 60_000_000 != 0
  {
  }

  lemma DateLetters(v: Interval, c: char)
    requires IsLetter(c)
    ensures c in DateText(v) <==>
      || (c == 'Y' && Abs(v.months) >= 12) || (c == 'M' && Abs(v.months) % 12 != 0) || (c == 'D' && v.days != 0)
  {
    var y, m := Quotient(v.months, 12), Remainder(v.months, 12);
    MonthFields(v.months);
    LetterOfComponent("", y, 'Y', c);
    LetterOfComponent("", m, 'M', c);
    LetterOfComponent("", v.days, 'D', c);
    LetterOfThree(Component("", y, 'Y'), Component("", m, 'M'), Component("", v.days, 'D'), c);
  }

  lemma TimeLetters(sign: string, us: nat, c: char)
    requires (sign == "" || sign == "-") && IsLetter(c) && us != 0
    ensures c in TimeText(sign, us) <==>
      || (c == 'H' && us >= 3_600_000_000) || (c == 'M' && us % 3_600_000_000 >= 60_000_000)
      || (c == 'S' && us % 60_000_000 != 0) || (c == '.' && us % 1_000_000 != 0)
  {
    var h, m, w, f := HoursIn(us), MinutesIn(us), SecondsIn(us), FracIn(us);
    ClockAmounts(us);
    ShowsExactly(us);
    LetterOfComponent(sign, h, 'H', c);
    LetterOfComponent(sign, m, 'M', c);
    LetterOfSeconds(sign, w, f, c);
    LetterOfThree(Component(sign, h, 'H'), Component(sign, m, 'M'), ShownSeconds(sign, h, m, w, f), c);
  }

  lemma MagnitudeIs(micros: int)
    requires IsInt64(micros) && micros != -0x8000_0000_0000_0000
    ensures Magnitude(micros) == Abs(micros)
  {
  }

  lemma ShownTime(micros: int)
    requires IsInt64(micros) && micros != -0x8000_0000_0000_0000 && micros != 0
    ensures
      var time, us := TimeText(Sign(micros), Magnitude(micros)), Abs(micros);
      && time != ""
      && ('H' in time <==> us >= 3_600_000_000)
      && ('M' in time <==> us % 3_600_000_000 >= 60_000_000)
      && ('S' in time <==> us % 60_000_000 != 0)
      && ('.' in time <==> us % 1_000_000 != 0)
  {
    MagnitudeIs(micros);
    SecondsNotEmpty(Sign(micros), Magnitude(micros));
    TimeLetters(Sign(micros), Abs(micros), 'H');
    TimeLetters(Sign(micros), Abs(micros), 'M');
    TimeLetters(Sign(micros), Abs(micros), 'S');
    TimeLetters(Sign(micros), Abs(micros), '.');
  }

  lemma ShownDate(v: Interval)
    requires InMachineRange(v)
    ensures ('Y' in DateOf(v) <==> Abs(v.months) >= 12) && ('M' in DateOf(v) <==> Abs(v.months) % 12 != 0) && ('D' in DateOf(v) <==> v.days != 0)
  {
    TextHalves(v);
    if !IsZero(v) {
      DateLetters(v, 'Y');
      DateLetters(v, 'M');
      DateLetters(v, 'D');
    }
  }

  lemma ShownClock(v: Interval)
    requires InMachineRange(v) && v.micros != -0x8000_0000_0000_0000
    ensures
      var zero, us := IsZero(v), Abs(v.micros);
      && ('H' in TimeOf(v) <==> us >= 3_600_000_000)
      && ('M' in TimeOf(v) <==> us % 3_600_000_000 >= 60_000_000)
      && ('S' in TimeOf(v) <==> us % 60_000_000 != 0 || zero)
      && ('.' in TimeOf(v) <==> us % 1_000_000 != 0)
      && (TimeOf(v) == "" <==> us == 0 && !zero)
  {
    TextHalves(v);
    if IsZero(v) {
      assert "0S"[0] == '0' && "0S"[1] == 'S';
    } else if v.micros != 0 {
      ShownTime(v.micros);
    }
  }

  /** Exactly the components that are not zero are shown: years from twelve months on, minutes from sixty seconds
      on, and so forth; `T` only before a time; `S` when the microseconds are no whole minutes, or nothing else
      is shown; a dot when they are no whole seconds. */
  lemma ShownComponents(v: Interval)
    requires InMachineRange(v) && v.micros != -0x8000_0000_0000_0000
    ensures
      var zero, months, us := IsZero(v), Abs(v.months), Abs(v.micros);
      && ('Y' in DateOf(v) <==> months >= 12)
      && ('M' in DateOf(v) <==> months % 12 != 0)
      && ('D' in DateOf(v) <==> v.days != 0)
      && ('H' in TimeOf(v) <==> us >= 3_600_000_000)
      && ('M' in TimeOf(v) <==> us % 3_600_000_000 >= 60_000_000)
      && ('S' in TimeOf(v) <==> us % 60_000_000 != 0 || zero)
      && ('.' in TimeOf(v) <==> us % 1_000_000 != 0)
      && (TimeOf(v) == "" <==> us == 0 && !zero)
  {
    ShownDate(v);
    ShownClock(v);
  }

  // ----- which numbers they show -----

  /** A shown number and its unit; zero is not shown. */
  function Shown(n: int, unit: char): seq<Token> {
    if n == 0 then [] else [Token(FormatInt(n), unit)]
  }

  lemma ShownToken(sign: string, n: int, unit: char)
    requires GoodSign(sign, n) && IsLetter(unit) && unit != '.'
    ensures TokensFrom(Component(sign, n, unit), 0) == Some(Shown(Signed(sign, n), unit))
  {
    if n != 0 {
      SignedText(sign, n);
      FormatIsNumber(Signed(sign, n));
      OneToken(FormatInt(Signed(sign, n)), unit);
    }
  }

  lemma ThreeTokens(a: string, b: string, c: string, p: seq<Token>, q: seq<Token>, r: seq<Token>)
    requires TokensFrom(a, 0) == Some(p) && TokensFrom(b, 0) == Some(q) && TokensFrom(c, 0) == Some(r)
    ensures TokensFrom(a + b + c, 0) == Some(p + q + r)
  {
    TokensConcat(a, b, 0);
    TokensConcat(a + b, c, 0);
  }

  /** The seconds: whole seconds, and a fraction if there is one. */
  function ShownSecondsToken(v: Interval): seq<Token> {
    var us := Abs(v.micros);
    if us % 60_000_000 == 0 then []
    else [Token(Sign(v.micros) + (FormatInt(us % 60_000_000 / 1_000_000) + FracText(us % 1_000_000)), 'S')]
  }

  lemma SecondsToken(sign: string, w: nat, f: nat)
    requires (sign == "" || sign == "-") && f < 1_000_000
    ensures TokensFrom(SecondsText(sign, w, f), 0) ==
            Some([Token(sign + (FormatInt(w) + FracText(f)), 'S')])
  {
    var body := FormatInt(w) + FracText(f);
    SecondsIsNumber(w, f);
    SecondsTextIs(sign, w, f);
    Associate(body, "", "", "");
    OneToken(sign + body, 'S');
  }

  lemma DateTokens(v: Interval)
    ensures TokensFrom(DateText(v), 0) == Some(
      Shown(LikeSigned(v.months, Abs(v.months) / 12), 'Y') + Shown(LikeSigned(v.months, Abs(v.months) % 12), 'M') + Shown(v.days, 'D'))
  {
    var y, m := Quotient(v.months, 12), Remainder(v.months, 12);
    MonthFields(v.months);
    ShownToken("", y, 'Y');
    ShownToken("", m, 'M');
    ShownToken("", v.days, 'D');
    ThreeTokens(Component("", y, 'Y'), Component("", m, 'M'), Component("", v.days, 'D'), Shown(y, 'Y'), Shown(m, 'M'), Shown(v.days, 'D'));
  }

  lemma TimeTokens(v: Interval)
    requires v.micros != 0
    ensures
      var us := Abs(v.micros);
      TokensFrom(TimeText(Sign(v.micros), us), 0) == Some(
        Shown(LikeSigned(v.micros, us / 3_600_000_000), 'H') + Shown(LikeSigned(v.micros, us % 3_600_000_000 / 60_000_000), 'M')
        + ShownSecondsToken(v))
  {
    var sign, us := Sign(v.micros), Abs(v.micros);
    var h, m, w, f := HoursIn(us), MinutesIn(us), SecondsIn(us), FracIn(us);
    ClockAmounts(us);
    ShowsExactly(us);
    ShownToken(sign, h, 'H');
    ShownToken(sign, m, 'M');
    SecondsToken(sign, w, f);
    ThreeTokens(Component(sign, h, 'H'), Component(sign, m, 'M'), ShownSeconds(sign, h, m, w, f),
                Shown(Signed(sign, h), 'H'), Shown(Signed(sign, m), 'M'), ShownSecondsToken(v));
  }

  /** The numbers shown: years and months with months below twelve, hours, minutes and seconds with minutes and
      seconds below sixty, all with the sign of their amount and none of them zero. */
  lemma ShownNumbers(v: Interval)
    requires InMachineRange(v) && v.micros != -0x8000_0000_0000_0000 && !IsZero(v)
    ensures
      var months, us := Abs(v.months), Abs(v.micros);
      && TokensFrom(DateOf(v), 0) == Some(
           Shown(LikeSigned(v.months, months / 12), 'Y') + Shown(LikeSigned(v.months, months % 12), 'M') + Shown(v.days, 'D'))
      && TokensFrom(TimeOf(v), 0) == Some(
           Shown(LikeSigned(v.micros, us / 3_600_000_000), 'H') + Shown(LikeSigned(v.micros, us % 3_600_000_000 / 60_000_000), 'M')
           + ShownSecondsToken(v))
  {
    TextHalves(v);
    DateTokens(v);
    if v.micros != 0 {
      MagnitudeIs(v.micros);
      TimeTokens(v);
    } else {
      NoTime(v);
    }
  }

  lemma NoTime(v: Interval)
    requires v.micros == 0
    ensures TokensFrom("", 0) == Some(
      Shown(LikeSigned(v.micros, Abs(v.micros) / 3_600_000_000), 'H')
      + Shown(LikeSigned(v.micros, Abs(v.micros) % 3_600_000_000 / 60_000_000), 'M') + ShownSecondsToken(v))
  {
    var h, m := Shown(LikeSigned(v.micros, Abs(v.micros) / 3_600_000_000), 'H'),
                Shown(LikeSigned(v.micros, Abs(v.micros) % 3_600_000_000 / 60_000_000), 'M');
    assert h + m + ShownSecondsToken(v) == [];
  }

  // ----- what is refused -----

  /** A number with a unit that this half does not know spoils the half, wherever it stands. */
  lemma UnknownUnit(before: string, num: string, unit: char, after: string, isTime: bool)
    requires TokensFrom(before, 0).Some? && IsNumber(num) && !IsNumberChar(unit)
    requires if isTime then unit !in "HMS" else unit !in "YMD"
    ensures Parts(before + (num + [unit]) + after, isTime) == None
  {
    var a := TokensFrom(before, 0).value;
    var toks := [Token(num, unit)];
    OneToken(num, unit);
    TokensConcat(before, num + [unit], 0);
    TokensConcat(before + (num + [unit]), after, 0);
    assert toks[..|toks| - 1] == [] && "HMS"[0] == 'H' && "HMS"[1] == 'M' && "HMS"[2] == 'S';
    assert "YMD"[0] == 'Y' && "YMD"[1] == 'M' && "YMD"[2] == 'D';
    assert ReadAll(isTime, toks) == None;
    ReadAllConcat(isTime, a, toks);
    if TokensFrom(after, 0).Some? {
      ReadAllConcat(isTime, a + toks, TokensFrom(after, 0).value);
    }
  }

  lemma OnlyT(body: string)
    requires body == "T"
    ensures DateHalf(body) == "" && TimeHalf(body) == ""
  {
    assert body == "" + ['T'] + "";
    CutConcat("", 'T', "");
  }

  /** Without the P, or with nothing after it, a text is no duration. */
  lemma NoDuration(s: string)
    requires s == "" || s[0] != 'P' || s[1..] == "" || s[1..] == "T"
    ensures Parse(s) == None
  {
    if s != "" && s[1..] == "T" {
      OnlyT(s[1..]);
    }
  }
}
