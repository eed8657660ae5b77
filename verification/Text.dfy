/** Characters and strings as the C++ runtime sees them in the "C" locale. */
module Text {

  datatype Option<+T> = None | Some(value: T)

  /** The characters `isspace` accepts: blank, and the five from tab to carriage return. */
  predicate IsSpace(c: char) {
    c == ' ' || '\t' <= c <= '\r'
  }

  /** Exactly the six blanks of the "C" locale: space, tab, line feed, vertical tab, form feed, carriage return. */
  lemma SixBlanks(c: char)
    ensures IsSpace(c) <==> c in [' ', 9 as char, 10 as char, 11 as char, 12 as char, 13 as char]
  {
  }

  ghost predicate AllSpace(s: string) {
    forall i | 0 <= i < |s| :: IsSpace(s[i])
  }

  ghost predicate Spaceless(s: string) {
    forall i | 0 <= i < |s| :: !IsSpace(s[i])
  }

  /** What one `stream >> word` extraction can yield. */
  ghost predicate IsToken(s: string) {
    s != [] && Spaceless(s)
  }

  function SkipSpaces(s: string): (r: string)
    ensures |r| <= |s| && (r != [] ==> !IsSpace(r[0]))
  {
    if s != [] && IsSpace(s[0]) then SkipSpaces(s[1..]) else s
  }

  lemma {:induction false} SpacesSkipped(blanks: string, s: string)
    requires AllSpace(blanks)
    ensures SkipSpaces(blanks + s) == SkipSpaces(s)
  {
    if blanks == [] {
      assert blanks + s == s;
    } else {
      assert (blanks + s)[1..] == blanks[1..] + s;
      SpacesSkipped(blanks[1..], s);
    }
  }

  /** `std::string::find`, with the length standing for `npos`. */
  function Find(s: string, c: char): (i: nat)
    ensures i <= |s| && c !in s[..i]
    ensures i < |s| ==> s[i] == c
  {
    if s == [] then 0
    else if s[0] == c then 0
    else
      var i := 1 + Find(s[1..], c);
      assert s[..i] == [s[0]] + s[1..][..i - 1];
      i
  }

  /** The first occurrence is the only index with no occurrence before it. */
  lemma FindIsUnique(s: string, c: char, i: nat)
    requires i <= |s| && c !in s[..i]
    requires i < |s| ==> s[i] == c
    ensures Find(s, c) == i
  {
  }

  lemma AppendAssoc<T>(a: seq<T>, b: seq<T>, c: seq<T>)
    ensures a + (b + c) == a + b + c
  {
  }

  function Concat(chunks: seq<string>): string {
    if chunks == [] then "" else chunks[0] + Concat(chunks[1..])
  }

  lemma {:induction false} ConcatAppend(a: seq<string>, b: seq<string>)
    ensures Concat(a + b) == Concat(a) + Concat(b)
  {
    if a == [] {
      assert a + b == b;
    } else {
      assert (a + b)[1..] == a[1..] + b;
      ConcatAppend(a[1..], b);
    }
  }
}
