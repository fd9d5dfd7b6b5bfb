/** The additive/subtractive scorer (`score_password`): a length band, ten
    points per character class, a penalty per blacklisted substring, one
    sequence penalty, one repetition penalty and an entropy bonus, clamped to
    [0, 100], together with the ordered list of findings. */
module Scorer {
  import opened Text
  import opened CharSets
  import opened Catalog
  import opened SequenceDetector
  import opened Entropy

  datatype LengthBand = ShortLength | SmallLength | GoodLength | ExcellentLength

  /** Fewer than 8 characters is short, 8..11 small, 12..15 good, 16 or more excellent. */
  function LengthBandOf(length: nat): (b: LengthBand)
    ensures b == ShortLength <==> length < 8
    ensures b == SmallLength <==> 8 <= length < 12
    ensures b == GoodLength <==> 12 <= length < 16
    ensures b == ExcellentLength <==> 16 <= length
  {
    if length < 8 then ShortLength
    else if length < 12 then SmallLength
    else if length < 16 then GoodLength
    else ExcellentLength
  }

  function LengthPoints(b: LengthBand): int
  {
    match b
    case ShortLength => 5
    case SmallLength => 18
    case GoodLength => 32
    case ExcellentLength => 45
  }

  /** The variety verdict: one class or none, exactly two, three or four. */
  datatype Variety = SingleType | TwoTypes | Varied

  function VarietyOf(types: nat): (v: Variety)
    ensures v == SingleType <==> types <= 1
    ensures v == TwoTypes <==> types == 2
    ensures v == Varied <==> types >= 3
  {
    if types <= 1 then SingleType else if types == 2 then TwoTypes else Varied
  }

  /** One finding of the scorer; the wording of the source's messages is not
      modelled, only which finding it is and what it names. */
  datatype Reason =
    | NoPasswordEntered
    | LengthVerdict(band: LengthBand)
    | VarietyVerdict(variety: Variety)
    | CommonPattern(word: string)
    | SequenceDetected(window: string)
    | RepeatedCharacters
    | EntropyVerdict(entropy: EntropyBand)

  datatype ScoreResult = ScoreResult(score: int, reasons: seq<Reason>)

  /** `max(0, min(100, x))`. */
  function Clamp(x: int): (r: int)
    ensures 0 <= r <= 100
    ensures 0 <= x <= 100 ==> r == x
    ensures x < 0 ==> r == 0
    ensures x > 100 ==> r == 100
  {
    if x < 0 then 0 else if x > 100 then 100 else x
  }

  // ---------- Blacklist ----------

  /** The entries of `entries` that occur in `low`, in list order. */
  function HitsAmong(entries: seq<string>, low: string): (hits: seq<string>)
    ensures |hits| <= |entries|
    ensures forall i :: 0 <= i < |hits| ==> hits[i] in entries && Occurs(hits[i], low)
  {
    if entries == [] then []
    else
      assert entries == [entries[0]] + entries[1..];
      (if Contains(low, entries[0]) then [entries[0]] else []) + HitsAmong(entries[1..], low)
  }

  /** The hits of a list are the first entry's hit, if any, then the rest's. */
  lemma HitsCons(e: string, rest: seq<string>, low: string)
    ensures HitsAmong([e] + rest, low) == (if Contains(low, e) then [e] else []) + HitsAmong(rest, low)
  {
    var es := [e] + rest;
    assert es[0] == e && es[1..] == rest;
  }

  /** Each entry that occurs is kept exactly as often as it is listed, and
      an entry that does not occur is dropped. */
  lemma {:induction false} HitsMultiplicity(entries: seq<string>, low: string, w: string)
    ensures multiset(HitsAmong(entries, low))[w] == if Occurs(w, low) then multiset(entries)[w] else 0
  {
    if entries != [] {
      var e, rest := entries[0], entries[1..];
      HitsMultiplicity(rest, low, w);
      assert entries == [e] + rest;
      HitsCons(e, rest, low);
      var first := if Contains(low, e) then [e] else [];
      assert multiset(HitsAmong(entries, low)) == multiset(first) + multiset(HitsAmong(rest, low));
      assert multiset(entries) == multiset([e]) + multiset(rest);
    }
  }

  /** Filtering commutes with concatenation: hits of earlier entries come first. */
  lemma {:induction false} HitsAppend(a: seq<string>, b: seq<string>, low: string)
    ensures HitsAmong(a + b, low) == HitsAmong(a, low) + HitsAmong(b, low)
  {
    if a != [] {
      var e, rest := a[0], a[1..];
      assert a == [e] + rest;
      assert a + b == [e] + (rest + b);
      HitsAppend(rest, b, low);
      HitsCons(e, rest + b, low);
      HitsCons(e, rest, low);
      var first := if Contains(low, e) then [e] else [];
      calc {
        HitsAmong(a + b, low);
        first + HitsAmong(rest + b, low);
        first + (HitsAmong(rest, low) + HitsAmong(b, low));
        (first + HitsAmong(rest, low)) + HitsAmong(b, low);
        HitsAmong(a, low) + HitsAmong(b, low);
      }
    } else {
      assert a + b == b;
    }
  }

  /** One more entry: the hits grow by that entry exactly when it occurs. */
  lemma HitsStep(entries: seq<string>, k: int, low: string)
    requires 0 <= k < |entries|
    ensures HitsAmong(entries[..k + 1], low)
            == HitsAmong(entries[..k], low) + (if Contains(low, entries[k]) then [entries[k]] else [])
  {
    var e := entries[k];
    HitsAppend(entries[..k], [e], low);
    assert entries[..k + 1] == entries[..k] + [e];
    HitsCons(e, [], low);
    assert [e] + [] == [e];
  }

  lemma PatternsStep(hits: seq<string>, w: string)
    ensures CommonPatterns(hits + [w]) == CommonPatterns(hits) + [CommonPattern(w)]
  {
  }

  /** The `COMMON_BAD` entries found in the lower-cased password. */
  function BlacklistHits(pw: string): seq<string>
  {
    HitsAmong(CommonBad, ToLower(pw))
  }

  function CommonPatterns(hits: seq<string>): (rs: seq<Reason>)
    ensures |rs| == |hits|
    ensures forall i :: 0 <= i < |hits| ==> rs[i] == CommonPattern(hits[i])
  {
    seq(|hits|, i requires 0 <= i < |hits| => CommonPattern(hits[i]))
  }

  // ---------- Repetition ----------

  /** `(.)\1\1` matches at `i`: three equal characters, none a line feed,
      since the regex dot does not match a newline. */
  ghost predicate TripleRunAt(pw: string, i: int) {
    0 <= i && i + 2 < |pw| && pw[i] != '\n' && pw[i] == pw[i + 1] && pw[i + 1] == pw[i + 2]
  }

  ghost predicate HasTripleRun(pw: string) {
    exists i :: TripleRunAt(pw, i)
  }

  /** `re.search(r"(.)\1\1", pw)`, scanning left to right. */
  function RepeatSearch(pw: string): (found: bool)
    ensures found <==> HasTripleRun(pw)
  {
    if |pw| < 3 then
      assert forall i :: !TripleRunAt(pw, i);
      false
    else if pw[0] != '\n' && pw[0] == pw[1] && pw[1] == pw[2] then
      assert TripleRunAt(pw, 0);
      true
    else
      var rest := RepeatSearch(pw[1..]);
      assert forall i :: TripleRunAt(pw[1..], i) <==> TripleRunAt(pw, i + 1);
      assert HasTripleRun(pw) ==> HasTripleRun(pw[1..]) by {
        if HasTripleRun(pw) {
          var i :| TripleRunAt(pw, i);
          assert TripleRunAt(pw[1..], i - 1);
        }
      }
      rest
  }

  // ---------- The score as the rules add it up ----------

  /** The unclamped total from the rules' individual outcomes. */
  function Total(band: LengthBand, types: nat, hits: nat, sequence: bool, repeated: bool, entropy: EntropyBand): int
  {
    LengthPoints(band) + 10 * types - 25 * hits
    - (if sequence then 15 else 0) - (if repeated then 10 else 0)
    + EntropyBonus(entropy)
  }

  /** The findings in rule order from the rules' individual outcomes: length,
      variety, blacklist hits in list order, at most one sequence, at most one
      repetition, entropy. */
  function Findings(band: LengthBand, types: nat, hits: seq<string>, window: Option<string>,
                    repeated: bool, entropy: EntropyBand): seq<Reason>
  {
    [LengthVerdict(band), VarietyVerdict(VarietyOf(types))]
    + CommonPatterns(hits)
    + (if window.Some? then [SequenceDetected(window.value)] else [])
    + (if repeated then [RepeatedCharacters] else [])
    + [EntropyVerdict(entropy)]
  }

  /** The unclamped total of a password: each rule's points and penalties summed. */
  function RawScore(pw: string): int
  {
    Total(LengthBandOf(|pw|), TypeCount(CharSetsOf(pw)), |BlacklistHits(pw)|,
          ContainsSequence(pw, 4).Some?, RepeatSearch(pw), EntropyBandOf(PoolSize(pw), |pw|))
  }

  /** The findings for a password. */
  function RuleReasons(pw: string): seq<Reason>
  {
    Findings(LengthBandOf(|pw|), TypeCount(CharSetsOf(pw)), BlacklistHits(pw),
             ContainsSequence(pw, 4), RepeatSearch(pw), EntropyBandOf(PoolSize(pw), |pw|))
  }

  /** The result every rule together promises. */
  function Score(pw: string): (r: ScoreResult)
    ensures 0 <= r.score <= 100
    ensures |pw| == 0 ==> r == ScoreResult(0, [NoPasswordEntered])
    ensures |pw| > 0 ==> |r.reasons| >= 3 && r.reasons[0] == LengthVerdict(LengthBandOf(|pw|))
                         && r.reasons[|r.reasons| - 1] == EntropyVerdict(EntropyBandOf(PoolSize(pw), |pw|))
  {
    if |pw| == 0 then ScoreResult(0, [NoPasswordEntered])
    else ScoreResult(Clamp(RawScore(pw)), RuleReasons(pw))
  }

  /** The blacklist loop of `score_password`: minus 25 and one finding for
      every entry of `COMMON_BAD` that occurs in `low`, in list order. */
  method ApplyBlacklist(low: string, score0: int, reasons0: seq<Reason>) returns (score: int, reasons: seq<Reason>)
    ensures score == score0 - 25 * |HitsAmong(CommonBad, low)|
    ensures reasons == reasons0 + CommonPatterns(HitsAmong(CommonBad, low))
  {
    score, reasons := score0, reasons0;
    var k := 0;
    while k < |CommonBad|
      invariant 0 <= k <= |CommonBad|
      invariant score == score0 - 25 * |HitsAmong(CommonBad[..k], low)|
      invariant reasons == reasons0 + CommonPatterns(HitsAmong(CommonBad[..k], low))
    {
      var bad := CommonBad[k];
      HitsStep(CommonBad, k, low);
      if Contains(low, bad) {
        score := score - 25;
        reasons := reasons + [CommonPattern(bad)];
        PatternsStep(HitsAmong(CommonBad[..k], low), bad);
      }
      k := k + 1;
    }
    assert CommonBad[..|CommonBad|] == CommonBad;
  }

  /** `score_password`: the rules applied one after another to a running
      total, the blacklist walked entry by entry, the total clamped last. */
  method ScorePassword(pw: string) returns (r: ScoreResult)
    ensures |pw| == 0 ==> r == ScoreResult(0, [NoPasswordEntered])
    ensures |pw| > 0 ==> r.score == Clamp(RawScore(pw)) && r.reasons == RuleReasons(pw)
    ensures 0 <= r.score <= 100
  {
    if |pw| == 0 {
      return ScoreResult(0, [NoPasswordEntered]);
    }
    var band := LengthBandOf(|pw|);
    var score := LengthPoints(band);
    var reasons := [LengthVerdict(band)];

    var types := TypeCount(CharSetsOf(pw));
    score := score + types * 10;
    reasons := reasons + [VarietyVerdict(VarietyOf(types))];

    score, reasons := ApplyBlacklist(ToLower(pw), score, reasons);
    ghost var hits := HitsAmong(CommonBad, ToLower(pw));
    ghost var head := [LengthVerdict(band), VarietyVerdict(VarietyOf(types))] + CommonPatterns(hits);
    assert reasons == head;

    var window := ContainsSequence(pw, 4);
    if window.Some? {
      score := score - 15;
      reasons := reasons + [SequenceDetected(window.value)];
    }
    ghost var withSequence := head + (if window.Some? then [SequenceDetected(window.value)] else []);
    assert reasons == withSequence;

    var repeated := RepeatSearch(pw);
    if repeated {
      score := score - 10;
      reasons := reasons + [RepeatedCharacters];
    }
    assert reasons == withSequence + (if repeated then [RepeatedCharacters] else []);

    var entropy := EntropyBandOf(PoolSize(pw), |pw|);
    score := score + EntropyBonus(entropy);
    reasons := reasons + [EntropyVerdict(entropy)];

    assert score == Total(band, types, |hits|, window.Some?, repeated, entropy);
    assert reasons == Findings(band, types, hits, window, repeated, entropy);
    r := ScoreResult(Clamp(score), reasons);
  }
}
