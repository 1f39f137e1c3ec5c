/** The string primitives the scripts lean on: Python's `str.lower()`,
    `str.strip()` and the substring test `k in s`. Strings are sequences of
    characters; only the ASCII range is given case and whitespace meaning. */
module Text {

  predicate IsUpper(c: char) {
    'A' <= c <= 'Z'
  }

  /** Python's `str.isspace()` restricted to ASCII: tab, line feed, vertical
      tab, form feed, carriage return, the four separators 0x1C-0x1F, and space. */
  predicate IsSpace(c: char) {
    c == ' ' || '\t' <= c <= '\r' || '\U{1C}' <= c <= '\U{1F}'
  }

  predicate AllSpace(s: string) {
    forall i :: 0 <= i < |s| ==> IsSpace(s[i])
  }

  function LowerChar(c: char): (d: char)
    ensures !IsUpper(d)
    ensures IsUpper(c) ==> d as int == c as int + 32
    ensures !IsUpper(c) ==> d == c
  {
    if IsUpper(c) then (c as int + 32) as char else c
  }

  /** `s.lower()` on the ASCII letters; every other character is kept. The
      result has no upper-case letter, and a string without one is unchanged. */
  function Lower(s: string): (r: string)
    ensures |r| == |s|
    ensures forall i :: 0 <= i < |s| ==> r[i] == LowerChar(s[i])
    ensures IsLower(r)
    ensures IsLower(s) ==> r == s
  {
    seq(|s|, i requires 0 <= i < |s| => LowerChar(s[i]))
  }

  predicate IsLower(s: string) {
    forall i :: 0 <= i < |s| ==> !IsUpper(s[i])
  }

  lemma LowerIdempotent(s: string)
    ensures Lower(Lower(s)) == Lower(s)
  {
  }

  /** Python's `k in s` on strings: `k` occurs as a contiguous piece of `s`.
      The empty string occurs in every string, every string occurs in
      itself, and nothing longer than `s` occurs in it. */
  function Contains(s: string, k: string): (b: bool)
    ensures k == [] ==> b
    ensures k == s ==> b
    ensures b ==> |k| <= |s|
  {
    assert k == [] || k == s ==> OccursAt(s, k, 0);
    exists i :: 0 <= i <= |s| - |k| && OccursAt(s, k, i)
  }

  /** `k` occurs in `s` starting at offset `i`. */
  predicate OccursAt(s: string, k: string, i: nat) {
    i + |k| <= |s| && s[i..i + |k|] == k
  }

  /** Some keyword of the list occurs in `s`. */
  predicate MentionsAny(s: string, keywords: seq<string>) {
    exists i :: 0 <= i < |keywords| && Contains(s, keywords[i])
  }

  /** A keyword found at a known offset is mentioned. */
  lemma MentionedAt(s: string, keywords: seq<string>, j: nat, at: nat)
    requires j < |keywords|
    requires at + |keywords[j]| <= |s|
    requires s[at..at + |keywords[j]|] == keywords[j]
    ensures MentionsAny(s, keywords)
  {
    assert OccursAt(s, keywords[j], at);
  }

  /** Number of whitespace characters at the front of `s`. */
  function LeadingSpaces(s: string): (n: nat)
    ensures n <= |s|
    ensures AllSpace(s[..n])
    ensures n == |s| || !IsSpace(s[n])
  {
    if |s| > 0 && IsSpace(s[0]) then
      var m := LeadingSpaces(s[1..]);
      assert s[1..][..m] == s[1..m + 1];
      1 + m
    else 0
  }

  /** Number of whitespace characters at the back of `s`. */
  function TrailingSpaces(s: string): (n: nat)
    ensures n <= |s|
    ensures AllSpace(s[|s| - n..])
    ensures n == |s| || !IsSpace(s[|s| - n - 1])
  {
    if |s| > 0 && IsSpace(s[|s| - 1]) then
      var m := TrailingSpaces(s[..|s| - 1]);
      assert s[..|s| - 1][|s| - 1 - m..] == s[|s| - 1 - m..|s| - 1];
      1 + m
    else 0
  }

  /** `s.strip()`: `s` with its leading and trailing whitespace removed. The
      result is the part of `s` between two all-whitespace margins, and it
      neither starts nor ends with whitespace. */
  function Strip(s: string): (r: string)
    ensures |r| <= |s|
    ensures r == [] || (!IsSpace(r[0]) && !IsSpace(r[|r| - 1]))
    ensures exists a :: 0 <= a <= |s| - |r| && s[a..a + |r|] == r
                        && AllSpace(s[..a]) && AllSpace(s[a + |r|..])
  {
    var a := LeadingSpaces(s);
    var t := s[a..];
    var b := TrailingSpaces(t);
    var r := t[..|t| - b];
    assert s[a..a + |r|] == r;
    assert s[a + |r|..] == t[|t| - b..];
    r
  }

  /** Whitespace in front of a string that starts with a non-space is counted exactly. */
  lemma {:induction false} LeadingSpacesOfPadded(p: string, s: string)
    requires AllSpace(p)
    requires s != [] && !IsSpace(s[0])
    ensures LeadingSpaces(p + s) == |p|
  {
    if p != [] {
      assert (p + s)[1..] == p[1..] + s;
      LeadingSpacesOfPadded(p[1..], s);
    }
  }

  /** Whitespace behind a string that ends with a non-space is counted exactly. */
  lemma {:induction false} TrailingSpacesOfPadded(s: string, q: string)
    requires AllSpace(q)
    requires s != [] && !IsSpace(s[|s| - 1])
    ensures TrailingSpaces(s + q) == |q|
  {
    if q != [] {
      assert (s + q)[..|s + q| - 1] == s + q[..|q| - 1];
      TrailingSpacesOfPadded(s, q[..|q| - 1]);
    }
  }

  /** An all-whitespace string is consumed entirely from the front. */
  lemma {:induction false} LeadingSpacesOfBlank(p: string)
    requires AllSpace(p)
    ensures LeadingSpaces(p) == |p|
  {
    if p != [] {
      LeadingSpacesOfBlank(p[1..]);
    }
  }

  /** Strip removes exactly the whitespace margins around a string whose ends
      are not whitespace, and maps an all-whitespace string to the empty one. */
  lemma StripPadded(p: string, s: string, q: string)
    requires AllSpace(p) && AllSpace(q)
    requires s == [] || (!IsSpace(s[0]) && !IsSpace(s[|s| - 1]))
    ensures Strip(p + s + q) == s
  {
    var w := p + s + q;
    if s == [] {
      assert w == p + q;
      LeadingSpacesOfBlank(p + q);
      assert w[|w|..] == [];
    } else {
      assert w == p + (s + q);
      LeadingSpacesOfPadded(p, s + q);
      assert w[|p|..] == s + q;
      TrailingSpacesOfPadded(s, q);
    }
  }

  /** A string without whitespace margins is its own strip. */
  lemma StripUnpadded(s: string)
    requires s == [] || (!IsSpace(s[0]) && !IsSpace(s[|s| - 1]))
    ensures Strip(s) == s
  {
    assert [] + s + [] == s;
    StripPadded([], s, []);
  }
}
