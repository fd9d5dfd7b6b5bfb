/** The secure generator (`generate_strong_password`): draw characters from
    letters, digits and optionally a fixed symbol set until the draw has a
    lower-case letter, an upper-case letter, a digit and, when symbols are
    on, a symbol. */
module Generator {
  import opened Text
  import opened CharSets

  /** The `count` consecutive characters starting at `first`. */
  function CharRange(first: char, count: nat): (s: string)
    requires first as int + count <= 128
    ensures |s| == count
    ensures forall i :: 0 <= i < count ==> s[i] as int == first as int + i
  {
    seq(count, i requires 0 <= i < count => (first as int + i) as char)
  }

  /** `string.ascii_letters`: the lower-case letters, then the upper-case ones. */
  const Letters: string := CharRange('a', 26) + CharRange('A', 26)

  /** `string.digits`. */
  const Digits: string := CharRange('0', 10)

  /** The symbols the generator adds; `_` is among them although `[^\w\s]`
      does not count it as a symbol. */
  const GeneratorSymbols: string := "!@#$%^&*()-_=+[]{};:,.<>/?"

  function Alphabet(useSymbols: bool): (a: string)
    ensures |a| == if useSymbols then 88 else 62
  {
    if useSymbols then Letters + Digits + GeneratorSymbols else Letters + Digits
  }

  /** The check a draw must pass before it is returned. */
  ghost predicate Acceptable(pw: string, useSymbols: bool) {
    && HasClass(pw, Lower) && HasClass(pw, Upper) && HasClass(pw, Digit)
    && (useSymbols ==> HasClass(pw, Symbol))
  }

  /** The shortest length any acceptable draw can have. */
  function MinLength(useSymbols: bool): nat {
    if useSymbols then 4 else 3
  }

  /** The class a character falls in, if any; the classes are disjoint. */
  function ClassOf(c: char): (k: Option<CharClass>)
    ensures forall cls :: InClass(c, cls) ==> k == Some(cls)
  {
    if IsLowerChar(c) then Some(Lower)
    else if IsUpperChar(c) then Some(Upper)
    else if IsDigitChar(c) then Some(Digit)
    else if IsSpaceChar(c) then Some(Space)
    else if IsSymbolChar(c) then Some(Symbol)
    else None
  }

  /** Every acceptable draw holds one character of each required class at
      distinct positions, since no character is in two classes, so it has at
      least `MinLength` characters. */
  lemma AcceptableNeedsLength(pw: string, useSymbols: bool)
    requires Acceptable(pw, useSymbols)
    ensures |pw| >= MinLength(useSymbols)
  {
    var l :| 0 <= l < |pw| && InClass(pw[l], Lower);
    var u :| 0 <= u < |pw| && InClass(pw[u], Upper);
    var d :| 0 <= d < |pw| && InClass(pw[d], Digit);
    assert ClassOf(pw[l]) == Some(Lower) && ClassOf(pw[u]) == Some(Upper) && ClassOf(pw[d]) == Some(Digit);
    if useSymbols {
      var s :| 0 <= s < |pw| && InClass(pw[s], Symbol);
      assert ClassOf(pw[s]) == Some(Symbol);
    }
  }

  /** An acceptable draw over the alphabet exists for every length from
      `MinLength` on: one letter of each case, a digit, `!` when symbols are
      on, then lower-case padding. */
  function Witness(length: nat, useSymbols: bool): (pw: string)
    requires length >= MinLength(useSymbols)
    ensures |pw| == length
    ensures forall i :: 0 <= i < |pw| ==> pw[i] in Alphabet(useSymbols)
    ensures Acceptable(pw, useSymbols)
  {
    var head := if useSymbols then "aA0!" else "aA0";
    var pw := head + seq(length - |head|, _ => 'a');
    assert InClass(pw[0], Lower) && InClass(pw[1], Upper) && InClass(pw[2], Digit);
    assert useSymbols ==> InClass(pw[3], Symbol);
    assert forall i :: 0 <= i < |pw| ==> pw[i] in Alphabet(useSymbols) by {
      var a := Alphabet(useSymbols);
      assert a[0] == 'a' && a[26] == 'A' && a[52] == '0';
      assert useSymbols ==> a[62] == '!';
    }
    pw
  }

  /** `_` is drawn from the symbol set but is a word character, so it does
      not satisfy the symbol requirement; `!` does. */
  lemma UnderscoreIsNoSymbol()
    ensures '_' in Alphabet(true)
    ensures !Acceptable("aA0_", true)
    ensures Acceptable("aA0!", true)
  {
    assert InClass("aA0!"[0], Lower) && InClass("aA0!"[1], Upper);
    assert InClass("aA0!"[2], Digit) && InClass("aA0!"[3], Symbol);
    assert forall i :: 0 <= i < 4 ==> !InClass("aA0_"[i], Symbol);
    assert Alphabet(true)[62 + 11] == '_';
  }

  /** Without symbols the alphabet has none, so no draw holds one. */
  lemma NoSymbolsWithoutSymbolSet(pw: string)
    requires forall i :: 0 <= i < |pw| ==> pw[i] in Alphabet(false)
    ensures !HasClass(pw, Symbol)
  {
    forall i | 0 <= i < |pw| ensures !InClass(pw[i], Symbol) {
      var j :| 0 <= j < 62 && Alphabet(false)[j] == pw[i];
      if j < 26 {
        assert Alphabet(false)[j] == Letters[j];
      } else if j < 52 {
        assert Alphabet(false)[j] == Letters[j];
      } else {
        assert Alphabet(false)[j] == Digits[j - 52];
      }
    }
  }

  /** One draw: `length` characters, each any member of `alphabet` (the
      source draws each with `secrets.choice`). */
  method Draw(alphabet: string, length: nat) returns (pw: string)
    requires |alphabet| > 0
    ensures |pw| == length
    ensures forall i :: 0 <= i < |pw| ==> pw[i] in alphabet
  {
    pw := [];
    while |pw| < length
      invariant |pw| <= length
      invariant forall i :: 0 <= i < |pw| ==> pw[i] in alphabet
    {
      assert alphabet[0] in alphabet;
      var c :| c in alphabet;
      pw := pw + [c];
    }
  }

  /** `generate_strong_password`, with the source's unbounded retry loop cut
      off after `maxAttempts` draws. A returned password has the requested
      length, draws only from the alphabet and passes the class check; for a
      length below `MinLength` no draw can pass, so the source loops forever
      and the model returns `None`. */
  method GenerateStrongPassword(length: int, useSymbols: bool, maxAttempts: nat) returns (r: Option<string>)
    ensures r.Some? ==> |r.value| == length
    ensures r.Some? ==> forall i :: 0 <= i < |r.value| ==> r.value[i] in Alphabet(useSymbols)
    ensures r.Some? ==> Acceptable(r.value, useSymbols)
    ensures length < MinLength(useSymbols) ==> r == None
  {
    var alphabet := Alphabet(useSymbols);
    var count: nat := if length < 0 then 0 else length;
    var attempt := 0;
    while attempt < maxAttempts
    {
      var pw := Draw(alphabet, count);
      var sets := CharSetsOf(pw);
      if sets.lower && sets.upper && sets.digit && (!useSymbols || sets.symbol) {
        AcceptableNeedsLength(pw, useSymbols);
        return Some(pw);
      }
      attempt := attempt + 1;
    }
    return None;
  }
}
