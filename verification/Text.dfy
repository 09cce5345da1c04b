/** Python's `str.strip`, `str.join` and substring test on strings of code points. */
module Text {
  /** The characters `str.strip()` removes. */
  predicate IsSpace(c: char) {
    || '\t' <= c <= '\r' || '\U{1c}' <= c <= ' '
    || c == '\U{85}' || c == '\U{a0}' || c == '\U{1680}' || '\U{2000}' <= c <= '\U{200a}'
    || c == '\U{2028}' || c == '\U{2029}' || c == '\U{202f}' || c == '\U{205f}' || c == '\U{3000}'
  }

  /** These and no others: tab, line feed, vertical tab, form feed, carriage return, the four separators
      before the blank, the blank, next line, and the Unicode space, line and paragraph separators. */
  lemma {:induction false} WhiteSpaceIs(c: char)
    ensures IsSpace(c) <==> c in {
      '\U{09}', '\U{0a}', '\U{0b}', '\U{0c}', '\U{0d}', '\U{1c}', '\U{1d}', '\U{1e}', '\U{1f}', '\U{20}', '\U{85}',
      '\U{a0}', '\U{1680}', '\U{2000}', '\U{2001}', '\U{2002}', '\U{2003}', '\U{2004}', '\U{2005}', '\U{2006}',
      '\U{2007}', '\U{2008}', '\U{2009}', '\U{200a}', '\U{2028}', '\U{2029}', '\U{202f}', '\U{205f}', '\U{3000}'}
  {
  }

  function StripLeft(s: string): string {
    if s != [] && IsSpace(s[0]) then StripLeft(s[1..]) else s
  }

  function StripRight(s: string): string {
    if s != [] && IsSpace(s[|s| - 1]) then StripRight(s[..|s| - 1]) else s
  }

  function Strip(s: string): string {
    StripRight(StripLeft(s))
  }

  /** Neither end is white space. */
  predicate Stripped(s: string) {
    s != [] ==> !IsSpace(s[0]) && !IsSpace(s[|s| - 1])
  }

  lemma {:induction false} StripLeftFirst(s: string)
    ensures StripLeft(s) != [] ==> !IsSpace(StripLeft(s)[0])
  {
    if s != [] && IsSpace(s[0]) { StripLeftFirst(s[1..]); }
  }

  lemma {:induction false} StripRightEnds(s: string)
    requires s != [] ==> !IsSpace(s[0])
    ensures Stripped(StripRight(s))
  {
    if s != [] && IsSpace(s[|s| - 1]) { StripRightEnds(s[..|s| - 1]); }
  }

  /** `Strip` returns a stripped string and changes exactly the strings that are not. */
  lemma {:induction false} StripNormal(s: string)
    ensures Stripped(Strip(s))
    ensures Strip(s) == s <==> Stripped(s)
  {
    StripLeftFirst(s);
    StripRightEnds(StripLeft(s));
  }

  ghost predicate AllSpace(s: string) {
    forall c :: c in s ==> IsSpace(c)
  }

  lemma {:induction false} StripLeftSuffix(s: string)
    ensures exists a :: s == a + StripLeft(s) && AllSpace(a)
  {
    if s != [] && IsSpace(s[0]) {
      StripLeftSuffix(s[1..]);
      var a :| s[1..] == a + StripLeft(s[1..]) && AllSpace(a);
      assert s == ([s[0]] + a) + StripLeft(s) && AllSpace([s[0]] + a);
    } else {
      assert s == [] + StripLeft(s) && AllSpace([]);
    }
  }

  lemma {:induction false} StripRightPrefix(s: string)
    ensures exists b :: s == StripRight(s) + b && AllSpace(b)
  {
    if s != [] && IsSpace(s[|s| - 1]) {
      var n := |s| - 1;
      StripRightPrefix(s[..n]);
      var b :| s[..n] == StripRight(s[..n]) + b && AllSpace(b);
      assert s == StripRight(s) + (b + [s[n]]) && AllSpace(b + [s[n]]);
    } else {
      assert s == StripRight(s) + [] && AllSpace([]);
    }
  }

  /** Stripping removes white space at the two ends and nothing else. */
  lemma {:induction false} StripIsMiddle(s: string)
    ensures exists a, b :: s == a + Strip(s) + b && AllSpace(a) && AllSpace(b)
  {
    StripLeftSuffix(s);
    StripRightPrefix(StripLeft(s));
    var a :| s == a + StripLeft(s) && AllSpace(a);
    var b :| StripLeft(s) == StripRight(StripLeft(s)) + b && AllSpace(b);
    assert s == a + Strip(s) + b;
  }

  function Join(separator: string, parts: seq<string>): string {
    if parts == [] then []
    else if |parts| == 1 then parts[0]
    else parts[0] + separator + Join(separator, parts[1..])
  }

  /** Nothing is joined to nothing, one part to itself, and two lists of parts with one separator between. */
  lemma {:induction false} JoinMeaning(separator: string, a: seq<string>, b: seq<string>)
    ensures Join(separator, []) == [] && forall s :: Join(separator, [s]) == s
    ensures a != [] && b != [] ==> Join(separator, a + b) == Join(separator, a) + separator + Join(separator, b)
  {
    if a != [] && b != [] {
      assert (a + b)[1..] == a[1..] + b;
      if |a| > 1 { JoinMeaning(separator, a[1..], b); } else { assert a[1..] + b == b; }
    }
  }

  /** `part in whole` on strings. */
  predicate Contains(whole: string, part: string) {
    exists i :: 0 <= i <= |whole| - |part| && OccursAt(whole, part, i)
  }

  predicate OccursAt(whole: string, part: string, i: nat) {
    i + |part| <= |whole| && whole[i..i + |part|] == part
  }
}
