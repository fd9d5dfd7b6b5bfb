/** The character-class profile of a password (`char_sets`) and the count of
    the four classes that earn variety points. */
module CharSets {
  import opened Text

  /** Which of the five regex classes occur somewhere in a password. */
  datatype CharSets = CharSets(lower: bool, upper: bool, digit: bool, symbol: bool, space: bool)

  const NoClasses := CharSets(false, false, false, false, false)

  /** One `re.search` per class, computed in a single pass over the string. */
  function CharSetsOf(pw: string): (r: CharSets)
    ensures r.lower <==> HasClass(pw, Lower)
    ensures r.upper <==> HasClass(pw, Upper)
    ensures r.digit <==> HasClass(pw, Digit)
    ensures r.symbol <==> HasClass(pw, Symbol)
    ensures r.space <==> HasClass(pw, Space)
  {
    if |pw| == 0 then NoClasses
    else
      var c := pw[0];
      var rest := CharSetsOf(pw[1..]);
      assert forall k :: HasClass(pw, k) <==> InClass(c, k) || HasClass(pw[1..], k) by {
        forall k ensures HasClass(pw, k) ==> InClass(c, k) || HasClass(pw[1..], k) {
          if HasClass(pw, k) && !InClass(c, k) {
            var i :| 0 <= i < |pw| && InClass(pw[i], k);
            assert pw[1..][i - 1] == pw[i];
          }
        }
        forall k ensures HasClass(pw[1..], k) ==> HasClass(pw, k) {
          if HasClass(pw[1..], k) {
            var i :| 0 <= i < |pw[1..]| && InClass(pw[1..][i], k);
            assert pw[i + 1] == pw[1..][i];
          }
        }
      }
      CharSets(IsLowerChar(c) || rest.lower, IsUpperChar(c) || rest.upper,
               IsDigitChar(c) || rest.digit, IsSymbolChar(c) || rest.symbol,
               IsSpaceChar(c) || rest.space)
  }

  /** `sum([lower, upper, digit, symbol])`: whitespace earns no variety. */
  function TypeCount(s: CharSets): (n: nat)
    ensures n <= 4
    ensures n == 0 <==> !s.lower && !s.upper && !s.digit && !s.symbol
    ensures n == 4 <==> s.lower && s.upper && s.digit && s.symbol
  {
    (if s.lower then 1 else 0) + (if s.upper then 1 else 0)
    + (if s.digit then 1 else 0) + (if s.symbol then 1 else 0)
  }

  /** Only the underscore and whitespace fall outside all four scored
      classes: `_` is a word character, so it is no symbol, yet it is no
      letter or digit either. */
  lemma NoTypesIffUnderscoreOrSpace(pw: string)
    ensures TypeCount(CharSetsOf(pw)) == 0
            <==> forall i :: 0 <= i < |pw| ==> pw[i] == '_' || IsSpaceChar(pw[i])
  {
    var s := CharSetsOf(pw);
    if TypeCount(s) == 0 {
      forall i | 0 <= i < |pw| ensures pw[i] == '_' || IsSpaceChar(pw[i]) {
        assert !InClass(pw[i], Lower) && !InClass(pw[i], Upper);
        assert !InClass(pw[i], Digit) && !InClass(pw[i], Symbol);
      }
    }
  }
}
