/** String operations of Go's `strings` package that the modelled code relies on. */
module Text {

  /** Index of the first `c` in `s`, or -1. */
  function IndexOf(s: string, c: char): (i: int)
    ensures -1 <= i < |s|
    ensures i == -1 ==> c !in s
    ensures i >= 0 ==> s[i] == c && c !in s[..i]
  {
    if s == [] then -1
    else if s[0] == c then 0
    else
      var r := IndexOf(s[1..], c);
      if r == -1 then -1 else
        assert s[..r + 1] == [s[0]] + s[1..][..r];
        r + 1
  }

  /** The text before the first `c`, all of it when there is none. */
  function BeforeFirst(s: string, c: char): string {
    if s == "" || s[0] == c then "" else [s[0]] + BeforeFirst(s[1..], c)
  }

  /** The text after the first `c`, empty when there is none. */
  function AfterFirst(s: string, c: char): string {
    if s == "" then "" else if s[0] == c then s[1..] else AfterFirst(s[1..], c)
  }

  lemma {:induction false} CutAtIndex(s: string, c: char)
    ensures var i := IndexOf(s, c);
            if i >= 0 then BeforeFirst(s, c) == s[..i] && AfterFirst(s, c) == s[i + 1..]
            else BeforeFirst(s, c) == s && AfterFirst(s, c) == ""
  {
    if s != "" && s[0] != c {
      CutAtIndex(s[1..], c);
      var r := IndexOf(s[1..], c);
      assert s == [s[0]] + s[1..];
      if r >= 0 {
        assert s[..r + 1] == [s[0]] + s[1..][..r];
        assert s[1..][r + 1..] == s[r + 2..];
      }
    }
  }

  /** Cutting at a separator that the left part does not contain. */
  lemma {:induction false} CutConcat(a: string, c: char, b: string)
    requires c !in a
    ensures BeforeFirst(a + [c] + b, c) == a && AfterFirst(a + [c] + b, c) == b
  {
    var s := a + [c] + b;
    if a == "" {
      assert s[1..] == b;
    } else {
      assert s[1..] == a[1..] + [c] + b;
      assert a == [a[0]] + a[1..];
      CutConcat(a[1..], c, b);
    }
  }

  lemma {:induction false} BeforeShorter(s: string, c: char)
    ensures |BeforeFirst(s, c)| <= |s|
  {
    if s != "" && s[0] != c { BeforeShorter(s[1..], c); }
  }

  lemma {:induction false} BeforeNone(s: string, c: char)
    requires c !in s
    ensures BeforeFirst(s, c) == s
  {
    if s != "" {
      BeforeNone(s[1..], c);
      assert s == [s[0]] + s[1..];
    }
  }

  predicate HasPrefix(s: string, p: string) {
    p <= s
  }

  /** "project.OwnerEmail" has root "project"; a text without a dot is its own root. */
  function RootVar(s: string): (root: string)
    ensures |root| <= |s|
  {
    BeforeShorter(s, '.');
    BeforeFirst(s, '.')
  }

  /** A literal input value starts with a double quote. */
  predicate IsLiteral(s: string) {
    |s| > 0 && s[0] == '"'
  }
}
