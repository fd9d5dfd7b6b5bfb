/** Characters and strings as Python's `re` and `str` see them, restricted to
    ASCII: the regex classes `[a-z]`, `[A-Z]`, `\d`, `\w`, `\s`, the symbol
    class `[^\w\s]`, `str.lower()` and the substring test `needle in hay`. */
module Text {

  datatype Option<T> = None | Some(value: T)

  /** The five character classes the password checker looks for. */
  datatype CharClass = Lower | Upper | Digit | Symbol | Space

  predicate IsLowerChar(c: char) { 'a' <= c <= 'z' }
  predicate IsUpperChar(c: char) { 'A' <= c <= 'Z' }
  predicate IsDigitChar(c: char) { '0' <= c <= '9' }

  /** `\s` on an ASCII character: tab, line feed, vertical tab, form feed,
      carriage return (9..13), the four separators 28..31, and space (32). */
  predicate IsSpaceChar(c: char) { 9 <= c as int <= 13 || 28 <= c as int <= 32 }

  /** `\w` on an ASCII character: letters, digits and the underscore. */
  predicate IsWordChar(c: char) { IsLowerChar(c) || IsUpperChar(c) || IsDigitChar(c) || c == '_' }

  /** `[^\w\s]`: anything that is neither a word character nor whitespace. */
  predicate IsSymbolChar(c: char) { !IsWordChar(c) && !IsSpaceChar(c) }

  predicate InClass(c: char, k: CharClass) {
    match k
    case Lower => IsLowerChar(c)
    case Upper => IsUpperChar(c)
    case Digit => IsDigitChar(c)
    case Symbol => IsSymbolChar(c)
    case Space => IsSpaceChar(c)
  }

  /** `re.search(<class>, s)` succeeds. */
  ghost predicate HasClass(s: string, k: CharClass) {
    exists i :: 0 <= i < |s| && InClass(s[i], k)
  }

  /** `str.lower()` on one ASCII character. */
  function ToLowerChar(c: char): (r: char)
    ensures !IsUpperChar(r)
    ensures IsUpperChar(c) ==> r as int == c as int + 32 && IsLowerChar(r)
    ensures !IsUpperChar(c) ==> r == c
  {
    if IsUpperChar(c) then (c as int + 32) as char else c
  }

  /** `str.lower()` on an ASCII string. */
  function ToLower(s: string): (r: string)
    ensures |r| == |s|
    ensures forall i :: 0 <= i < |s| ==> r[i] == ToLowerChar(s[i])
    ensures forall i :: 0 <= i < |r| ==> !IsUpperChar(r[i])
    ensures forall i :: 0 <= i < |s| ==> !IsUpperChar(s[i]) ==> r[i] == s[i]
  {
    seq(|s|, i requires 0 <= i < |s| => ToLowerChar(s[i]))
  }

  /** `s[::-1]`. */
  function Reverse(s: string): (r: string)
    ensures |r| == |s|
    ensures forall i :: 0 <= i < |s| ==> r[i] == s[|s| - 1 - i]
  {
    seq(|s|, i requires 0 <= i < |s| => s[|s| - 1 - i])
  }

  /** `needle` sits in `hay` starting at index `i`. */
  ghost predicate OccursAt(needle: string, hay: string, i: int) {
    0 <= i && i + |needle| <= |hay| && hay[i..i + |needle|] == needle
  }

  /** Python's `needle in hay` for strings. */
  ghost predicate Occurs(needle: string, hay: string) {
    exists i :: OccursAt(needle, hay, i)
  }

  /** Executable substring test, trying every start position left to right. */
  function Contains(hay: string, needle: string): (r: bool)
    ensures r <==> Occurs(needle, hay)
    decreases |hay|
  {
    if |needle| > |hay| then
      assert forall i :: !OccursAt(needle, hay, i);
      false
    else if hay[..|needle|] == needle then
      assert OccursAt(needle, hay, 0);
      true
    else
      ShiftOccurs(needle, hay);
      Contains(hay[1..], needle)
  }

  /** Past a mismatch at position 0, an occurrence in `hay` is one in `hay[1..]`. */
  lemma ShiftOccurs(needle: string, hay: string)
    requires |hay| > 0 && |needle| <= |hay| && hay[..|needle|] != needle
    ensures Occurs(needle, hay) <==> Occurs(needle, hay[1..])
  {
    if Occurs(needle, hay) {
      var i :| OccursAt(needle, hay, i);
      assert i != 0;
      assert hay[1..][i - 1..i - 1 + |needle|] == hay[i..i + |needle|];
      assert OccursAt(needle, hay[1..], i - 1);
    }
    if Occurs(needle, hay[1..]) {
      var j :| OccursAt(needle, hay[1..], j);
      assert hay[1..][j..j + |needle|] == hay[j + 1..j + 1 + |needle|];
      assert OccursAt(needle, hay, j + 1);
    }
  }

  /** Containment is transitive: a slice of a slice is a slice. */
  lemma OccursTransitive(a: string, b: string, c: string)
    requires Occurs(a, b) && Occurs(b, c)
    ensures Occurs(a, c)
  {
    var i :| OccursAt(a, b, i);
    var j :| OccursAt(b, c, j);
    forall k | 0 <= k < |a|
      ensures c[j + i..j + i + |a|][k] == a[k]
    {
      assert c[j + i + k] == c[j..j + |b|][i + k] == b[i + k] == b[i..i + |a|][k];
    }
    assert OccursAt(a, c, j + i);
  }
}
