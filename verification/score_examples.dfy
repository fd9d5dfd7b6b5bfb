/** Pinned scorer examples: overlapping blacklist entries that compound, the
    repetition rule at its boundary, and a raw total that goes negative
    before the clamp. */
module ScoreExamples {
  import opened Text
  import opened CharSets
  import opened Catalog
  import opened SequenceDetector
  import opened Entropy
  import opened Scorer
  import opened ScoreProperties

  /** Any password containing "12345678" (in any case) also contains
      "123456" and "1234": all three entries are hits, each named once, and
      the digit run "1234" is a detected sequence. */
  lemma OverlappingEntriesCompound(pw: string)
    requires |pw| > 0 && Occurs("12345678", ToLower(pw))
    ensures multiset(Score(pw).reasons)[CommonPattern("123456")] == 1
    ensures multiset(Score(pw).reasons)[CommonPattern("12345678")] == 1
    ensures multiset(Score(pw).reasons)[CommonPattern("1234")] == 1
    ensures |BlacklistHits(pw)| >= 3
    ensures ContainsSequence(pw, 4).Some?
  {
    ShorterDigitEntries(ToLower(pw));
    DigitEntries();
    BlacklistFindingPerEntry(pw, "123456");
    BlacklistFindingPerEntry(pw, "12345678");
    BlacklistFindingPerEntry(pw, "1234");
    AtLeastThreeHits(pw);
    DigitWindowDetected(pw);
  }

  /** "123456" and "1234" are prefixes of "12345678". */
  lemma ShorterDigitEntries(low: string)
    requires Occurs("12345678", low)
    ensures Occurs("123456", low) && Occurs("1234", low)
  {
    assert OccursAt("123456", "12345678", 0) && OccursAt("1234", "12345678", 0);
    OccursTransitive("123456", "12345678", low);
    OccursTransitive("1234", "12345678", low);
  }

  /** The three digit entries are three distinct hits. */
  lemma AtLeastThreeHits(pw: string)
    requires Occurs("123456", ToLower(pw)) && Occurs("12345678", ToLower(pw)) && Occurs("1234", ToLower(pw))
    ensures |BlacklistHits(pw)| >= 3
  {
    DigitEntries();
    CommonBadOnce("123456");
    CommonBadOnce("12345678");
    CommonBadOnce("1234");
    ThreeListedHits(CommonBad, ToLower(pw), "123456", "12345678", "1234");
  }

  /** Three distinct listed entries that all occur give three hits. */
  lemma ThreeListedHits(entries: seq<string>, low: string, a: string, b: string, c: string)
    requires a != b && b != c && a != c
    requires multiset(entries)[a] == 1 && multiset(entries)[b] == 1 && multiset(entries)[c] == 1
    requires Occurs(a, low) && Occurs(b, low) && Occurs(c, low)
    ensures |HitsAmong(entries, low)| >= 3
  {
    HitsMultiplicity(entries, low, a);
    HitsMultiplicity(entries, low, b);
    HitsMultiplicity(entries, low, c);
    ThreeDistinctMembers(HitsAmong(entries, low), a, b, c);
  }

  lemma ThreeDistinctMembers(s: seq<string>, a: string, b: string, c: string)
    requires a != b && b != c && a != c
    requires multiset(s)[a] >= 1 && multiset(s)[b] >= 1 && multiset(s)[c] >= 1
    ensures |s| >= 3
  {
    assert multiset{a, b, c} <= multiset(s);
    assert |multiset{a, b, c}| == 3;
  }

  /** "1234" is window 1 of the digit run, so a password containing it has
      a detected sequence. */
  lemma DigitWindowDetected(pw: string)
    requires Occurs("1234", ToLower(pw))
    ensures ContainsSequence(pw, 4).Some?
  {
    assert SeqPatterns[0][1..5] == "1234";
    assert ValidWindow(4, 0, 1) && Window(4, 0, 1) == "1234";
  }

  /** `(.)\1\1` needs three equal characters in a row, and not line feeds. */
  lemma RepetitionBoundary()
    ensures RepeatSearch("aaa1234")
    ensures !RepeatSearch("aa1234")
    ensures !RepeatSearch("\n\n\n")
    ensures RepeatSearch("x   y")
  {
    assert TripleRunAt("aaa1234", 0);
    assert TripleRunAt("x   y", 1);
    assert forall i :: !TripleRunAt("aa1234", i);
    assert forall i :: !TripleRunAt("\n\n\n", i);
  }

  /** Fewer than 12 characters around "12345678": at most
      18 + 40 - 3 * 25 - 15 + 20 = -12 before the clamp, so the raw total is
      negative and the score is 0. The password "12345678" itself is one. */
  lemma NegativeBeforeClamp(pw: string)
    requires |pw| < 12 && Occurs("12345678", ToLower(pw))
    ensures RawScore(pw) < 0
    ensures Score(pw).score == 0
  {
    assert |pw| >= 8 by {
      var i :| OccursAt("12345678", ToLower(pw), i);
    }
    ShorterDigitEntries(ToLower(pw));
    AtLeastThreeHits(pw);
    DigitWindowDetected(pw);
  }
}
