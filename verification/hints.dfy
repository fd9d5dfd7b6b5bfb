/** The hint builder (`hints_for_improvement`): suggestions, independent of
    the score, in a fixed order. */
module Hints {
  import opened Text
  import opened CharSets
  import opened Catalog

  datatype Hint = MakeLonger | AddUppercase | AddLowercase | AddDigits | AddSymbols | AvoidSpaces | DropCommonWords

  /** The fixed order in which hints are emitted. */
  function HintRank(h: Hint): nat
  {
    match h
    case MakeLonger => 0
    case AddUppercase => 1
    case AddLowercase => 2
    case AddDigits => 3
    case AddSymbols => 4
    case AvoidSpaces => 5
    case DropCommonWords => 6
  }

  /** Every hint, in emission order. */
  const AllHints: seq<Hint> := [MakeLonger, AddUppercase, AddLowercase, AddDigits, AddSymbols, AvoidSpaces, DropCommonWords]

  predicate InRankOrder(hs: seq<Hint>) {
    forall i, j :: 0 <= i < j < |hs| ==> HintRank(hs[i]) < HintRank(hs[j])
  }

  /** Some `COMMON_BAD` entry occurs in the lower-cased password. */
  ghost predicate HasCommonWord(pw: string) {
    exists k :: 0 <= k < |CommonBad| && Occurs(CommonBad[k], ToLower(pw))
  }

  /** When each hint is called for. */
  ghost predicate Applies(h: Hint, pw: string) {
    match h
    case MakeLonger => |pw| < 12
    case AddUppercase => !HasClass(pw, Upper)
    case AddLowercase => !HasClass(pw, Lower)
    case AddDigits => !HasClass(pw, Digit)
    case AddSymbols => !HasClass(pw, Symbol)
    case AvoidSpaces => HasClass(pw, Space)
    case DropCommonWords => HasCommonWord(pw)
  }

  /** What the builder looks at: the length, the class flags and whether a
      blacklist entry occurs. */
  datatype Facts = Facts(length: nat, sets: CharSets, common: bool)

  /** The condition under which the builder appends `h`. */
  function Wanted(h: Hint, f: Facts): bool
  {
    match h
    case MakeLonger => f.length < 12
    case AddUppercase => !f.sets.upper
    case AddLowercase => !f.sets.lower
    case AddDigits => !f.sets.digit
    case AddSymbols => !f.sets.symbol
    case AvoidSpaces => f.sets.space
    case DropCommonWords => f.common
  }

  /** The hints of `hs` that `f` calls for, in the order of `hs`. */
  function Keep(hs: seq<Hint>, f: Facts): (kept: seq<Hint>)
    ensures forall h :: h in kept <==> h in hs && Wanted(h, f)
    ensures InRankOrder(hs) ==> InRankOrder(kept)
  {
    if hs == [] then []
    else
      var rest := Keep(hs[1..], f);
      HeadRanksFirst(hs);
      if Wanted(hs[0], f) then [hs[0]] + rest else rest
  }

  /** In a list in rank order, the head outranks everything after it. */
  lemma HeadRanksFirst(hs: seq<Hint>)
    requires hs != []
    ensures InRankOrder(hs) ==> InRankOrder(hs[1..]) && forall h :: h in hs[1..] ==> HintRank(hs[0]) < HintRank(h)
  {
    if InRankOrder(hs) {
      forall h | h in hs[1..] ensures HintRank(hs[0]) < HintRank(h) {
        var j :| 0 <= j < |hs[1..]| && hs[1..][j] == h;
        assert hs[j + 1] == h;
      }
    }
  }

  /** The facts the source computes for a password. */
  function FactsOf(pw: string): (f: Facts)
    ensures forall h :: Wanted(h, f) <==> Applies(h, pw)
  {
    var low := ToLower(pw);
    var f := Facts(|pw|, CharSetsOf(pw), exists k | 0 <= k < |CommonBad| :: Contains(low, CommonBad[k]));
    assert forall h :: Wanted(h, f) <==> Applies(h, pw) by {
      forall h ensures Wanted(h, f) <==> Applies(h, pw) {
        WantedMeansApplies(h, pw, f);
      }
    }
    f
  }

  lemma WantedMeansApplies(h: Hint, pw: string, f: Facts)
    requires f.length == |pw| && f.sets == CharSetsOf(pw)
    requires f.common <==> HasCommonWord(pw)
    ensures Wanted(h, f) <==> Applies(h, pw)
  {
    match h
    case MakeLonger =>
    case AddUppercase =>
    case AddLowercase =>
    case AddDigits =>
    case AddSymbols =>
    case AvoidSpaces =>
    case DropCommonWords =>
  }

  /** A hint list that holds exactly the hints that apply is empty exactly
      when the password meets every condition. */
  lemma NoHintIff(pw: string, hints: seq<Hint>)
    requires forall h :: h in hints <==> Applies(h, pw)
    ensures hints == [] <==> && |pw| >= 12
                             && HasClass(pw, Upper) && HasClass(pw, Lower)
                             && HasClass(pw, Digit) && HasClass(pw, Symbol)
                             && !HasClass(pw, Space) && !HasCommonWord(pw)
  {
    if hints != [] {
      assert Applies(hints[0], pw);
    } else {
      assert !Applies(MakeLonger, pw) && !Applies(AddUppercase, pw) && !Applies(AddLowercase, pw);
      assert !Applies(AddDigits, pw) && !Applies(AddSymbols, pw) && !Applies(AvoidSpaces, pw);
      assert !Applies(DropCommonWords, pw);
    }
  }

  /** `hints_for_improvement`: each hint exactly when its condition holds,
      in the fixed order; no hint at all exactly for a password of 12 or more
      characters with all four classes, no whitespace and no blacklist entry. */
  function HintsForImprovement(pw: string): (hints: seq<Hint>)
    ensures forall h :: h in hints <==> Applies(h, pw)
    ensures InRankOrder(hints)
    ensures hints == [] <==> && |pw| >= 12
                             && HasClass(pw, Upper) && HasClass(pw, Lower)
                             && HasClass(pw, Digit) && HasClass(pw, Symbol)
                             && !HasClass(pw, Space) && !HasCommonWord(pw)
  {
    var hints := Keep(AllHints, FactsOf(pw));
    AllHintsListed();
    NoHintIff(pw, hints);
    hints
  }

  /** `AllHints` lists every hint, in rank order. */
  lemma AllHintsListed()
    ensures forall h :: h in AllHints
    ensures InRankOrder(AllHints)
  {
    forall h ensures h in AllHints {
      assert AllHints[HintRank(h)] == h;
    }
  }
}
