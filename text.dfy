/**
 * The string primitives the pages rely on, restricted to what they use:
 * `toLowerCase` on ASCII letters, `includes` (substring search), and `trim`
 * with JavaScript's set of white-space and line-terminator characters.
 */
module Text {
  import opened Collections

  /** The character class `[A-Z]`. */
  predicate IsUpper(c: char) {
    'A' <= c <= 'Z'
  }

  /** ASCII `toLowerCase` of one character: a capital becomes the small letter at the same place in the alphabet. */
  function LowerChar(c: char): (r: char)
    ensures !IsUpper(r)
    ensures IsUpper(c) ==> 'a' <= r <= 'z' && r as int - 'a' as int == c as int - 'A' as int
    ensures !IsUpper(c) ==> r == c
  {
    if IsUpper(c) then (c as int + 32) as char else c
  }

  /** `s.toLowerCase()` for ASCII letters; every other character is kept. */
  function Lower(s: string): (r: string)
    ensures |r| == |s|
    ensures forall i :: 0 <= i < |s| ==> r[i] == LowerChar(s[i])
  {
    seq(|s|, i requires 0 <= i < |s| => LowerChar(s[i]))
  }

  /** `hay.includes(needle)`: `needle` occurs in `hay` at some offset. */
  predicate Contains(hay: string, needle: string) {
    exists i :: 0 <= i <= |hay| - |needle| && needle <= hay[i..]
  }

  /** Characters removed by `String.prototype.trim`: white space and line terminators. */
  predicate IsSpace(c: char) {
    c == ' ' || c == '\t' || c == '\n' || c == '\r'
    || c == '\U{000B}' || c == '\U{000C}' || c == '\U{00A0}' || c == '\U{1680}'
    || ('\U{2000}' <= c <= '\U{200A}')
    || c == '\U{2028}' || c == '\U{2029}' || c == '\U{202F}' || c == '\U{205F}'
    || c == '\U{3000}' || c == '\U{FEFF}'
  }

  predicate NotSpace(c: char) {
    !IsSpace(c)
  }

  /** Neither the first nor the last character is white space. */
  predicate Trimmed(s: string) {
    s == [] || (!IsSpace(s[0]) && !IsSpace(s[|s| - 1]))
  }

  /** Drops the white space at the front: the rest of `s` from its first other character. */
  function TrimStart(s: string): (r: string)
    ensures |r| <= |s| && r == s[|s| - |r|..]
    ensures forall i :: 0 <= i < |s| - |r| ==> IsSpace(s[i])
    ensures r == [] || !IsSpace(r[0])
  {
    if s != [] && IsSpace(s[0]) then TrimStart(s[1..]) else s
  }

  /** Drops the white space at the back. */
  function TrimEnd(s: string): (r: string)
    ensures |r| <= |s| && r == s[..|r|]
    ensures forall i :: |r| <= i < |s| ==> IsSpace(s[i])
    ensures r == [] || !IsSpace(r[|r| - 1])
  {
    if s != [] && IsSpace(s[|s| - 1]) then TrimEnd(s[..|s| - 1]) else s
  }

  /** `s.trim()`. */
  function Trim(s: string): string {
    TrimEnd(TrimStart(s))
  }

  /** Trim leaves no white space at either end, and removes nothing but white space. */
  lemma TrimSpec(s: string)
    ensures Trimmed(Trim(s))
    ensures Filter(NotSpace, Trim(s)) == Filter(NotSpace, s)
  {
    var a := TrimStart(s);
    var b := TrimEnd(a);
    TrimStartKeeps(s);
    TrimEndKeeps(a);
    if b != [] {
      assert b[0] == a[0];
    }
  }

  lemma TrimStartKeeps(s: string)
    ensures Filter(NotSpace, TrimStart(s)) == Filter(NotSpace, s)
  {
    var a := TrimStart(s);
    var dropped := s[..|s| - |a|];
    assert s == dropped + a;
    FilterConcat(NotSpace, dropped, a);
    assert forall i :: 0 <= i < |dropped| ==> !NotSpace(dropped[i]);
    FilterEmpty(NotSpace, dropped);
  }

  lemma TrimEndKeeps(a: string)
    ensures Filter(NotSpace, TrimEnd(a)) == Filter(NotSpace, a)
  {
    var b := TrimEnd(a);
    var dropped := a[|b|..];
    assert a == b + dropped;
    FilterConcat(NotSpace, b, dropped);
    assert forall i :: 0 <= i < |dropped| ==> !NotSpace(dropped[i]);
    FilterEmpty(NotSpace, dropped);
  }

  /** A string without white space at its ends is its own trim. */
  lemma TrimOfTrimmed(s: string)
    requires Trimmed(s)
    ensures Trim(s) == s
  {
  }

  lemma LowerIdempotent(s: string)
    ensures Lower(Lower(s)) == Lower(s)
  {
  }

  /** Lower-casing commutes with taking a slice. */
  lemma LowerSlice(s: string, i: nat)
    requires i <= |s|
    ensures Lower(s[i..]) == Lower(s)[i..]
  {
  }

  /** Case folding preserves containment. */
  lemma LowerContains(hay: string, needle: string)
    requires Contains(hay, needle)
    ensures Contains(Lower(hay), Lower(needle))
  {
    var i :| 0 <= i <= |hay| - |needle| && needle <= hay[i..];
    LowerSlice(hay, i);
    assert Lower(needle) <= Lower(hay)[i..];
  }

  /** Substring containment is transitive. */
  lemma ContainsTransitive(a: string, b: string, c: string)
    requires Contains(a, b) && Contains(b, c)
    ensures Contains(a, c)
  {
    var i :| 0 <= i <= |a| - |b| && b <= a[i..];
    var j :| 0 <= j <= |b| - |c| && c <= b[j..];
    forall k | 0 <= k < |c| ensures c[k] == a[i + j..][k] {
      assert c[k] == b[j + k] == a[i..][j + k];
    }
    assert c <= a[i + j..];
  }

  /** A non-empty needle only occurs where its first character does. */
  lemma ContainsFirstChar(hay: string, needle: string)
    requires |needle| > 0 && needle[0] !in hay
    ensures !Contains(hay, needle)
  {
  }

  /** The empty string occurs in every string. */
  lemma ContainsEmpty(s: string)
    ensures Contains(s, "")
  {
    assert "" <= s[0..];
  }
}
