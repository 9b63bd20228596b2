/** snake_case of names. Every character is written as one byte: its low byte when it is not ASCII. */
module SnakeCase {

  predicate IsUpper(c: char) {
    'A' <= c <= 'Z'
  }

  predicate IsLower(c: char) {
    'a' <= c <= 'z'
  }

  predicate IsAscii(s: string) {
    forall i :: 0 <= i < |s| ==> s[i] as int < 0x80
  }

  /** byte(c): the low eight bits. */
  function LowByte(c: char): char {
    (c as int % 0x100) as char
  }

  function LowerChar(c: char): char {
    if IsUpper(c) then (c as int + 32) as char else LowByte(c)
  }

  /** A capital starts a word after a small letter, or as the last capital of a run before a small letter. */
  predicate StartsWord(s: string, i: nat)
    requires i < |s|
  {
    i > 0 && IsUpper(s[i])
    && (IsLower(s[i - 1]) || (IsUpper(s[i - 1]) && i + 1 < |s| && IsLower(s[i + 1])))
  }

  function Prefix(s: string, n: nat): string
    requires n <= |s|
  {
    if n == 0 then "" else Prefix(s, n - 1) + (if StartsWord(s, n - 1) then "_" else "") + [LowerChar(s[n - 1])]
  }

  function Snake(s: string): string {
    Prefix(s, |s|)
  }

  method ToSnakeCase(s: string) returns (result: string)
    ensures result == Snake(s)
  {
    result := "";
    for i := 0 to |s|
      invariant result == Prefix(s, i)
    {
      var c := s[i];
      if 'A' <= c <= 'Z' {
        if i > 0 {
          var prev := s[i - 1];
          if 'a' <= prev <= 'z' {
            result := result + "_";
          } else if 'A' <= prev <= 'Z' && i + 1 < |s| && 'a' <= s[i + 1] <= 'z' {
            result := result + "_";
          }
        }
        result := result + [(c as int + 32) as char];
      } else {
        result := result + [LowByte(c)];
      }
      assert Prefix(s, i) + "" == Prefix(s, i);
    }
  }

  predicate NoCapitals(s: string) {
    forall i :: 0 <= i < |s| ==> !IsUpper(s[i])
  }

  /** A character outside ASCII whose low byte is a capital letter. */
  predicate TurnsCapital(c: char) {
    c as int >= 0x80 && IsUpper(LowByte(c))
  }

  lemma {:induction false} PrefixCapitals(s: string, n: nat)
    requires n <= |s|
    ensures NoCapitals(Prefix(s, n)) <==> forall i :: 0 <= i < n ==> !TurnsCapital(s[i])
  {
    if n > 0 {
      var front, mid, last := Prefix(s, n - 1), if StartsWord(s, n - 1) then "_" else "", LowerChar(s[n - 1]);
      PrefixCapitals(s, n - 1);
      assert IsUpper(last) <==> TurnsCapital(s[n - 1]);
      CapitalsJoin(front, mid, last);
    }
  }

  lemma CapitalsJoin(front: string, mid: string, last: char)
    requires NoCapitals(mid)
    ensures NoCapitals(front + mid + [last]) <==> NoCapitals(front) && !IsUpper(last)
  {
    var all := front + mid + [last];
    assert forall i :: 0 <= i < |front| ==> all[i] == front[i];
    assert forall i :: 0 <= i < |mid| ==> all[|front| + i] == mid[i];
    assert all[|all| - 1] == last;
  }

  /** The result has no capitals exactly when no character outside ASCII has a capital for its low byte. */
  lemma CapitalsExact(s: string)
    ensures NoCapitals(Snake(s)) <==> forall i :: 0 <= i < |s| ==> !TurnsCapital(s[i])
  {
    PrefixCapitals(s, |s|);
  }

  lemma {:induction false} PrefixIsAscii(s: string, n: nat)
    requires n <= |s| && IsAscii(s)
    ensures IsAscii(Prefix(s, n))
  {
    if n > 0 { PrefixIsAscii(s, n - 1); }
  }

  lemma {:induction false} LowerStays(s: string, n: nat)
    requires n <= |s| && NoCapitals(s) && IsAscii(s)
    ensures Prefix(s, n) == s[..n]
  {
    if n > 0 {
      LowerStays(s, n - 1);
      assert s[..n - 1] + "" + [s[n - 1]] == s[..n];
    }
  }

  /** For ASCII names the result has no capitals, and converting twice is converting once. */
  lemma SnakeIsIdempotent(s: string)
    requires IsAscii(s)
    ensures NoCapitals(Snake(s)) && Snake(Snake(s)) == Snake(s)
  {
    CapitalsExact(s);
    PrefixIsAscii(s, |s|);
    LowerStays(Snake(s), |Snake(s)|);
  }

  function Lower(s: string): string {
    if s == "" then "" else Lower(s[..|s| - 1]) + [LowerChar(s[|s| - 1])]
  }

  function WithoutUnderscores(s: string): string {
    if s == "" then ""
    else WithoutUnderscores(s[..|s| - 1]) + (if s[|s| - 1] == '_' then "" else [s[|s| - 1]])
  }

  lemma DropLast(s: string, c: char)
    ensures WithoutUnderscores(s + [c]) == WithoutUnderscores(s) + (if c == '_' then "" else [c])
    ensures Lower(s + [c]) == Lower(s) + [LowerChar(c)]
  {
    assert (s + [c])[..|s|] == s;
  }

  lemma DropJoin(front: string, mid: string, last: char)
    requires mid == "" || mid == "_"
    ensures WithoutUnderscores(front + mid + [last]) == WithoutUnderscores(front) + (if last == '_' then "" else [last])
  {
    DropLast(front, '_');
    DropLast(front + mid, last);
    assert front + "" == front && WithoutUnderscores(front) + "" == WithoutUnderscores(front);
  }

  lemma LowerJoin(letters: string, c: char)
    requires c as int < 0x80
    ensures Lower(letters) + (if LowerChar(c) == '_' then "" else [LowerChar(c)]) == Lower(letters + (if c == '_' then "" else [c]))
  {
    if c == '_' {
      assert LowerChar(c) == '_' && letters + "" == letters && Lower(letters) + "" == Lower(letters);
    } else {
      assert LowerChar(c) != '_';
      DropLast(letters, c);
    }
  }

  lemma {:induction false} LettersKept(s: string, n: nat)
    requires n <= |s| && IsAscii(s)
    ensures WithoutUnderscores(Prefix(s, n)) == Lower(WithoutUnderscores(s[..n]))
  {
    if n > 0 {
      LettersKept(s, n - 1);
      DropJoin(Prefix(s, n - 1), if StartsWord(s, n - 1) then "_" else "", LowerChar(s[n - 1]));
      DropJoin(s[..n - 1], "", s[n - 1]);
      LastLetter(s, n);
      LowerJoin(WithoutUnderscores(s[..n - 1]), s[n - 1]);
    }
  }

  lemma LastLetter(s: string, n: nat)
    requires 0 < n <= |s|
    ensures s[..n] == s[..n - 1] + "" + [s[n - 1]]
  {
  }

  /** Only underscores are added: without them the result is the name in small letters. */
  lemma OnlyUnderscoresAdded(s: string)
    requires IsAscii(s)
    ensures WithoutUnderscores(Snake(s)) == Lower(WithoutUnderscores(s))
  {
    LettersKept(s, |s|);
    assert s[..|s|] == s;
  }

  /** No underscore at either end and no two in a row. */
  predicate WellSeparated(s: string) {
    && (s != "" ==> s[0] != '_' && s[|s| - 1] != '_')
    && (forall i :: 0 <= i < |s| - 1 ==> !(s[i] == '_' && s[i + 1] == '_'))
  }

  lemma {:induction false} PrefixWellSeparated(s: string, n: nat)
    requires n <= |s| && IsAscii(s) && '_' !in s
    ensures WellSeparated(Prefix(s, n)) && (n > 0 ==> Prefix(s, n) != "")
  {
    if n > 0 {
      PrefixWellSeparated(s, n - 1);
      assert LowerChar(s[n - 1]) != '_';
    }
  }

  lemma SnakeIsWellSeparated(s: string)
    requires IsAscii(s) && '_' !in s
    ensures WellSeparated(Snake(s))
  {
    PrefixWellSeparated(s, |s|);
  }

  /** Distinct names can collide. */
  lemma SnakeCollides()
    ensures Snake("AB") == Snake("Ab") == "ab"
  {
    assert Prefix("AB", 1) == "a" && Prefix("Ab", 1) == "a";
  }

  // ----- where the words begin -----

  /** A capital after a small letter, or between a capital and a small letter. */
  predicate Boundary(s: string, i: nat) {
    0 < i < |s| && 'A' <= s[i] <= 'Z' &&
    ('a' <= s[i - 1] <= 'z' || ('A' <= s[i - 1] <= 'Z' && i + 1 < |s| && 'a' <= s[i + 1] <= 'z'))
  }

  lemma {:induction false} PrefixOfFirst(a: string, b: string, n: nat)
    requires n <= |a| && (n == |a| && b != "" ==> 'A' <= b[0] <= 'Z')
    ensures Prefix(a + b, n) == Prefix(a, n)
  {
    if n > 0 {
      PrefixOfFirst(a, b, n - 1);
      assert (a + b)[n - 1] == a[n - 1];
      assert n > 1 ==> (a + b)[n - 2] == a[n - 2];
      assert n < |a| ==> (a + b)[n] == a[n];
      assert n == |a| && b != "" ==> (a + b)[n] == b[0];
    }
  }

  lemma StartsInSecond(a: string, b: string, n: nat)
    requires a != "" && 1 < n <= |b|
    ensures (a + b)[|a| + n - 1] == b[n - 1] && (StartsWord(a + b, |a| + n - 1) <==> StartsWord(b, n - 1))
  {
    assert (a + b)[|a| + n - 2] == b[n - 2];
    assert n < |b| ==> (a + b)[|a| + n] == b[n];
  }

  lemma FirstLetter(b: string)
    requires b != ""
    ensures Prefix(b, 1) == [LowerChar(b[0])]
  {
    assert Prefix(b, 0) == "";
  }

  lemma Three(p: string, u: string, c: string)
    ensures p + u + c == p + (u + c)
  {
  }

  lemma FirstOfSecond(a: string, b: string)
    requires Boundary(a + b, |a|)
    ensures Prefix(a + b, |a| + 1) == Prefix(a + b, |a|) + ("_" + Prefix(b, 1))
  {
    var s, c := a + b, LowerChar(b[0]);
    assert s[|a|] == b[0];
    assert Prefix(s, |a| + 1) == Prefix(s, |a|) + "_" + [c];
    FirstLetter(b);
    Three(Prefix(s, |a|), "_", [c]);
  }

  lemma {:induction false} PrefixOfSecond(a: string, b: string, n: nat)
    requires 0 < n <= |b| && Boundary(a + b, |a|)
    ensures Prefix(a + b, |a| + n) == Prefix(a + b, |a|) + ("_" + Prefix(b, n))
  {
    if n == 1 {
      FirstOfSecond(a, b);
    } else {
      PrefixOfSecond(a, b, n - 1);
      StartsInSecond(a, b, n);
      Regroup(Prefix(a + b, |a|), "_", Prefix(b, n - 1), if StartsWord(b, n - 1) then "_" else "", [LowerChar(b[n - 1])]);
    }
  }

  lemma Regroup(p: string, u: string, q: string, m: string, c: string)
    ensures p + (u + q) + m + c == p + (u + (q + m + c))
  {
  }

  /** At a boundary the name splits: the two halves are converted separately and joined by an underscore. */
  lemma SnakeSplits(a: string, b: string)
    requires Boundary(a + b, |a|)
    ensures Snake(a + b) == Snake(a) + "_" + Snake(b)
  {
    assert (a + b)[|a|] == b[0];
    PrefixOfFirst(a, b, |a|);
    PrefixOfSecond(a, b, |b|);
    Regroup(Snake(a), "_", Snake(b), "", "");
  }

  lemma {:induction false} PrefixOfWord(s: string, n: nat)
    requires n <= |s| && forall i :: 0 <= i < |s| ==> !Boundary(s, i)
    ensures |Prefix(s, n)| == n
    ensures forall i :: 0 <= i < n ==>
      Prefix(s, n)[i] as int == if 'A' <= s[i] <= 'Z' then s[i] as int + 32 else s[i] as int % 256
  {
    if n > 0 {
      PrefixOfWord(s, n - 1);
      assert StartsWord(s, n - 1) ==> Boundary(s, n - 1);
    }
  }

  /** A name without boundaries is converted letter by letter. */
  lemma SnakeOfWord(s: string)
    requires forall i :: 0 <= i < |s| ==> !Boundary(s, i)
    ensures |Snake(s)| == |s|
    ensures forall i :: 0 <= i < |s| ==>
      Snake(s)[i] as int == if 'A' <= s[i] <= 'Z' then s[i] as int + 32 else s[i] as int % 256
  {
    PrefixOfWord(s, |s|);
  }

  /** CourseID is course_id. */
  lemma CourseID()
    ensures Snake("Course" + "ID") == "course_id"
  {
    var a, b := "Course", "ID";
    assert (a + b)[5] == 'e' && (a + b)[6] == 'I';
    SnakeSplits(a, b);
    SnakeOfWord(a);
    SnakeOfWord(b);
    assert Snake(a) == "course" && Snake(b) == "id";
  }
}
