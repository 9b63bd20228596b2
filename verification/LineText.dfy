/** Trimming, splitting and cutting of comment lines. */
module LineText {
  import opened Text

  /** White space as Go's unicode.IsSpace knows it. */
  predicate IsSpace(c: char) {
    c == ' ' || '\t' <= c <= '\r' || c as int in {0x85, 0xA0, 0x1680, 0x2028, 0x2029, 0x202F, 0x205F, 0x3000}
    || 0x2000 <= c as int <= 0x200A
  }

  function TrimLeft(s: string): string {
    if s != "" && IsSpace(s[0]) then TrimLeft(s[1..]) else s
  }

  function TrimRight(s: string): string {
    if s != "" && IsSpace(s[|s| - 1]) then TrimRight(s[..|s| - 1]) else s
  }

  function Trim(s: string): string {
    TrimRight(TrimLeft(s))
  }

  /** No white space at either end. */
  predicate Trimmed(s: string) {
    s == "" || (!IsSpace(s[0]) && !IsSpace(s[|s| - 1]))
  }

  lemma TrimTrimmed(s: string)
    requires Trimmed(s)
    ensures Trim(s) == s
  {
  }

  lemma TrimSpaced(s: string)
    requires Trimmed(s)
    ensures Trim(" " + s) == s
  {
    assert (" " + s)[1..] == s;
    assert TrimLeft(" " + s) == TrimLeft(s);
  }

  /** Trimmed texts joined around anything are trimmed. */
  lemma TrimmedJoin(a: string, m: string, b: string)
    requires Trimmed(a) && Trimmed(b) && a != "" && b != ""
    ensures Trimmed(a + m + b) && a + m + b != ""
  {
  }

  function TrimPrefix(s: string, p: string): string {
    if p <= s then s[|p|..] else s
  }

  function TrimSuffix(s: string, c: char): string {
    if s != "" && s[|s| - 1] == c then s[..|s| - 1] else s
  }

  /** Cutting at the last `c`. */
  function BeforeLast(s: string, c: char): string {
    if s == "" then "" else if s[|s| - 1] == c then s[..|s| - 1] else BeforeLast(s[..|s| - 1], c)
  }

  function AfterLast(s: string, c: char): string {
    if s == "" || s[|s| - 1] == c then "" else AfterLast(s[..|s| - 1], c) + [s[|s| - 1]]
  }

  lemma {:induction false} CutLastConcat(a: string, c: char, b: string)
    requires c !in b
    ensures BeforeLast(a + [c] + b, c) == a && AfterLast(a + [c] + b, c) == b
  {
    var s := a + [c] + b;
    if b == "" {
      assert s[..|s| - 1] == a;
    } else {
      assert s[..|s| - 1] == a + [c] + b[..|b| - 1];
      assert b == b[..|b| - 1] + [b[|b| - 1]];
      CutLastConcat(a, c, b[..|b| - 1]);
    }
  }

  function Split(s: string, c: char): seq<string>
    decreases |s|
  {
    if c !in s then [s]
    else
      CutShorter(s, c);
      [BeforeFirst(s, c)] + Split(AfterFirst(s, c), c)
  }

  lemma {:induction false} CutShorter(s: string, c: char)
    requires c in s
    ensures |AfterFirst(s, c)| < |s|
  {
    if s[0] != c {
      CutShorter(s[1..], c);
    }
  }

  /** Words separated by runs of white space. */
  function Fields(s: string): seq<string>
    decreases |s|
  {
    var t := TrimLeft(s);
    if t == "" then []
    else
      TrimLeftShorter(s);
      WordShorter(t);
      [Word(t)] + Fields(AfterWord(t))
  }

  function Word(s: string): string {
    if s == "" || IsSpace(s[0]) then "" else [s[0]] + Word(s[1..])
  }

  function AfterWord(s: string): string {
    if s == "" || IsSpace(s[0]) then s else AfterWord(s[1..])
  }

  lemma {:induction false} TrimLeftShorter(s: string)
    ensures |TrimLeft(s)| <= |s| && (TrimLeft(s) == "" || !IsSpace(TrimLeft(s)[0]))
  {
    if s != "" && IsSpace(s[0]) {
      TrimLeftShorter(s[1..]);
    }
  }

  lemma {:induction false} WordShorter(s: string)
    ensures |AfterWord(s)| <= |s|
    ensures s != "" && !IsSpace(s[0]) ==> |AfterWord(s)| < |s|
  {
    if s != "" && !IsSpace(s[0]) {
      WordShorter(s[1..]);
    }
  }

  predicate NoSpace(s: string) {
    forall i :: 0 <= i < |s| ==> !IsSpace(s[i])
  }

  lemma {:induction false} WordOf(w: string, rest: string)
    requires NoSpace(w) && (rest == "" || IsSpace(rest[0]))
    ensures Word(w + rest) == w && AfterWord(w + rest) == rest
  {
    var s := w + rest;
    if w == "" {
      assert s == rest;
    } else {
      assert s[1..] == w[1..] + rest;
      assert w == [w[0]] + w[1..];
      WordOf(w[1..], rest);
    }
  }

  /** Two words make two fields. */
  lemma TwoFields(a: string, b: string)
    requires NoSpace(a) && NoSpace(b) && a != "" && b != ""
    ensures Fields(a + " " + b) == [a, b]
  {
    var s := a + " " + b;
    assert s == a + (" " + b) && s[0] == a[0];
    WordOf(a, " " + b);
    OneField(b);
  }

  lemma OneField(b: string)
    requires NoSpace(b) && b != ""
    ensures Fields(" " + b) == [b]
  {
    assert (" " + b)[1..] == b;
    assert TrimLeft(" " + b) == b;
    assert b + "" == b;
    WordOf(b, "");
    assert Fields("") == [];
    assert [b] + [] == [b];
  }
}
