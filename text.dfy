/** The string operations the source relies on:
    `toLowerCase` (ASCII letters only), `includes`, `startsWith`, `trim`, and the regex
    classes `\s`, `\d`, `[a-z]`, `[A-Z]`. */
module Text {

  /** `\s`, which is also what `trim` removes: the ECMAScript white-space and line-terminator
      code points (tab, line feed, vertical tab, form feed, carriage return, space, no-break
      space, ogham space mark, the spaces U+2000 to U+200A, line and paragraph separator,
      narrow no-break space, medium mathematical space, ideographic space, byte order mark). */
  predicate IsSpace(c: char) {
    var n := c as int;
    || (9 <= n <= 13) || n == 0x20 || n == 0xA0 || n == 0x1680
    || (0x2000 <= n <= 0x200A) || n == 0x2028 || n == 0x2029 || n == 0x202F || n == 0x205F
    || n == 0x3000 || n == 0xFEFF
  }

  /** `\d` (ASCII digits only, as in a JavaScript regex without the `u` flag). */
  predicate IsDigit(c: char) {
    '0' <= c <= '9'
  }

  predicate IsLowerLetter(c: char) {
    'a' <= c <= 'z'
  }

  predicate IsUpperLetter(c: char) {
    'A' <= c <= 'Z'
  }

  /** `[a-zA-Z\d]` */
  predicate IsAlphaNumeric(c: char) {
    IsLowerLetter(c) || IsUpperLetter(c) || IsDigit(c)
  }

  /** `toLowerCase` on one character, ASCII only. */
  function Lower(c: char): (d: char)
    ensures IsUpperLetter(c) ==> IsLowerLetter(d) && d as int == c as int + 32
    ensures !IsUpperLetter(c) ==> d == c
  {
    if IsUpperLetter(c) then (c as int + 32) as char else c
  }

  /** `s.toLowerCase()`, ASCII only. */
  function LowerStr(s: string): (r: string)
    ensures |r| == |s|
    ensures forall i | 0 <= i < |s| :: r[i] == Lower(s[i])
  {
    if s == [] then [] else [Lower(s[0])] + LowerStr(s[1..])
  }

  /** How many UTF-16 code units a character takes: one in the Basic Multilingual Plane, two
      (a surrogate pair) above it. */
  function CodeUnits(c: char): nat {
    if c as int < 0x1_0000 then 1 else 2
  }

  /** `s.length`, which counts UTF-16 code units, not characters. */
  function Utf16Length(s: string): (n: nat)
    ensures |s| <= n <= 2 * |s|
    ensures (forall i | 0 <= i < |s| :: s[i] as int < 0x1_0000) ==> n == |s|
  {
    if s == [] then 0 else CodeUnits(s[0]) + Utf16Length(s[1..])
  }

  lemma {:induction false} Utf16LengthAppend(a: string, b: string)
    ensures Utf16Length(a + b) == Utf16Length(a) + Utf16Length(b)
  {
    if a != [] {
      Utf16LengthAppend(a[1..], b);
      assert (a + b)[1..] == a[1..] + b;
    } else {
      assert a + b == b;
    }
  }

  /** `hay.includes(needle)`: `needle` occurs in `hay` at some offset. */
  predicate Contains(hay: string, needle: string): (b: bool)
    ensures b ==> |needle| <= |hay|
    ensures StartsWith(needle, hay) ==> b
  {
    if StartsWith(needle, hay) then
      assert OccursAt(hay, needle, 0);
      true
    else
      exists i | 0 <= i <= |hay| - |needle| :: OccursAt(hay, needle, i)
  }

  predicate OccursAt(hay: string, needle: string, i: nat)
    requires i + |needle| <= |hay|
  {
    hay[i..i + |needle|] == needle
  }

  /** Every string includes the empty string. */
  lemma ContainsEmpty(hay: string)
    ensures Contains(hay, "")
  {
    assert OccursAt(hay, "", 0);
  }

  /** `s.startsWith(prefix)`: `s` agrees with `prefix` on each of its positions. */
  predicate StartsWith(prefix: string, s: string): (b: bool)
    ensures b <==> |prefix| <= |s| && forall i | 0 <= i < |prefix| :: s[i] == prefix[i]
  {
    |prefix| <= |s| && s[..|prefix|] == prefix
  }

  /** Two strings whose first characters differ are not prefixes of a common string. */
  lemma DistinctPrefixes(p: string, q: string, s: string)
    requires p != [] && q != [] && p[0] != q[0]
    ensures !(StartsWith(p, s) && StartsWith(q, s))
  {
  }

  function TrimStart(s: string): (r: string)
    ensures |r| <= |s| && r == s[|s| - |r|..]
    ensures r != [] ==> !IsSpace(r[0])
    ensures forall i | 0 <= i < |s| - |r| :: IsSpace(s[i])
  {
    if s != [] && IsSpace(s[0]) then TrimStart(s[1..]) else s
  }

  function TrimEnd(s: string): (r: string)
    ensures |r| <= |s| && r == s[..|r|]
    ensures r != [] ==> !IsSpace(r[|r| - 1])
    ensures forall i | |r| <= i < |s| :: IsSpace(s[i])
  {
    if s != [] && IsSpace(s[|s| - 1]) then TrimEnd(s[..|s| - 1]) else s
  }

  /** `s.trim()`: `s` with its leading and trailing whitespace removed; what is left is a
      contiguous slice of `s` that neither starts nor ends with whitespace. */
  function Trim(s: string): (r: string)
    ensures exists lo | 0 <= lo <= |s| - |r| :: TrimmedAt(s, r, lo)
    ensures r != [] ==> !IsSpace(r[0]) && !IsSpace(r[|r| - 1])
  {
    var t := TrimStart(s);
    var r := TrimEnd(t);
    var lo := |s| - |t|;
    assert TrimmedAt(s, r, lo);
    r
  }

  /** `r` is the slice of `s` starting at `lo`, and everything of `s` around it is whitespace. */
  predicate TrimmedAt(s: string, r: string, lo: nat)
    requires lo + |r| <= |s|
  {
    && r == s[lo..lo + |r|]
    && (forall i | 0 <= i < lo :: IsSpace(s[i]))
    && (forall i | lo + |r| <= i < |s| :: IsSpace(s[i]))
  }
}
