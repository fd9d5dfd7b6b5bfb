/** What the scorer promises across all passwords: the shape of the
    findings list, the one-finding-per-blacklist-entry rule, the zero pool of
    underscore-and-whitespace passwords, and pinned examples. */
module ScoreProperties {
  import opened Text
  import opened CharSets
  import opened Catalog
  import opened SequenceDetector
  import opened Entropy
  import opened Scorer

  datatype ReasonKind = EmptyKind | LengthKind | VarietyKind | CommonKind | SequenceKind | RepeatKind | EntropyKind

  function KindOf(r: Reason): ReasonKind
  {
    match r
    case NoPasswordEntered => EmptyKind
    case LengthVerdict(_) => LengthKind
    case VarietyVerdict(_) => VarietyKind
    case CommonPattern(_) => CommonKind
    case SequenceDetected(_) => SequenceKind
    case RepeatedCharacters => RepeatKind
    case EntropyVerdict(_) => EntropyKind
  }

  /** How many findings of kind `k` a list holds. */
  function CountKind(rs: seq<Reason>, k: ReasonKind): nat
  {
    if rs == [] then 0
    else (if KindOf(rs[0]) == k then 1 else 0) + CountKind(rs[1..], k)
  }

  lemma {:induction false} CountKindAppend(a: seq<Reason>, b: seq<Reason>, k: ReasonKind)
    ensures CountKind(a + b, k) == CountKind(a, k) + CountKind(b, k)
  {
    if a != [] {
      assert (a + b)[1..] == a[1..] + b;
      CountKindAppend(a[1..], b, k);
    } else {
      assert a + b == b;
    }
  }

  lemma {:induction false} CountCommonPatterns(hits: seq<string>, k: ReasonKind)
    ensures CountKind(CommonPatterns(hits), k) == if k == CommonKind then |hits| else 0
  {
    if hits != [] {
      assert CommonPatterns(hits)[1..] == CommonPatterns(hits[1..]);
      CountCommonPatterns(hits[1..], k);
    }
  }

  /** How many findings of each kind a findings list holds. */
  lemma FindingsCount(band: LengthBand, types: nat, hits: seq<string>, window: Option<string>,
                      repeated: bool, entropy: EntropyBand, k: ReasonKind)
    ensures CountKind(Findings(band, types, hits, window, repeated, entropy), k)
            == (if k == LengthKind || k == VarietyKind || k == EntropyKind then 1 else 0)
               + (if k == CommonKind then |hits| else 0)
               + (if k == SequenceKind && window.Some? then 1 else 0)
               + (if k == RepeatKind && repeated then 1 else 0)
  {
    var head: seq<Reason> := [LengthVerdict(band), VarietyVerdict(VarietyOf(types))];
    var common := CommonPatterns(hits);
    var s: seq<Reason> := if window.Some? then [SequenceDetected(window.value)] else [];
    var p: seq<Reason> := if repeated then [RepeatedCharacters] else [];
    var e: seq<Reason> := [EntropyVerdict(entropy)];
    FindingsParts(band, types, hits, window, repeated, entropy);
    CountFive(head, common, s, p, e, k);
    CountHead(band, types, k);
    CountCommonPatterns(hits, k);
    if window.Some? {
      CountKindSingle(SequenceDetected(window.value), k);
    }
    CountOptional(repeated, RepeatedCharacters, k);
    CountKindSingle(EntropyVerdict(entropy), k);
    assert CountKind(s, k) == if k == SequenceKind && window.Some? then 1 else 0;
  }

  lemma FindingsParts(band: LengthBand, types: nat, hits: seq<string>, window: Option<string>,
                      repeated: bool, entropy: EntropyBand)
    ensures Findings(band, types, hits, window, repeated, entropy)
            == [LengthVerdict(band), VarietyVerdict(VarietyOf(types))] + CommonPatterns(hits)
               + (if window.Some? then [SequenceDetected(window.value)] else [])
               + (if repeated then [RepeatedCharacters] else []) + [EntropyVerdict(entropy)]
  {
  }

  lemma CountFive(a: seq<Reason>, b: seq<Reason>, c: seq<Reason>, d: seq<Reason>, e: seq<Reason>, k: ReasonKind)
    ensures CountKind(a + b + c + d + e, k)
            == CountKind(a, k) + CountKind(b, k) + CountKind(c, k) + CountKind(d, k) + CountKind(e, k)
  {
    CountKindAppend(a, b, k);
    CountKindAppend(a + b, c, k);
    CountKindAppend(a + b + c, d, k);
    CountKindAppend(a + b + c + d, e, k);
  }

  lemma CountHead(band: LengthBand, types: nat, k: ReasonKind)
    ensures CountKind([LengthVerdict(band), VarietyVerdict(VarietyOf(types))], k)
            == if k == LengthKind || k == VarietyKind then 1 else 0
  {
    var head: seq<Reason> := [LengthVerdict(band), VarietyVerdict(VarietyOf(types))];
    assert head[1..] == [VarietyVerdict(VarietyOf(types))];
    CountKindSingle(VarietyVerdict(VarietyOf(types)), k);
  }

  lemma CountKindSingle(r: Reason, k: ReasonKind)
    ensures CountKind([r], k) == if KindOf(r) == k then 1 else 0
  {
    assert [r][1..] == [];
  }

  lemma CountOptional(present: bool, r: Reason, k: ReasonKind)
    ensures CountKind(if present then [r] else [], k) == if present && KindOf(r) == k then 1 else 0
  {
    if present { CountKindSingle(r, k); }
  }

  /** The findings list built from any rule outcomes: one length finding
      first, one variety finding second, the blacklist findings next in list
      order, then at most one sequence and at most one repetition finding,
      one entropy finding last. */
  lemma FindingsShape(band: LengthBand, types: nat, hits: seq<string>, window: Option<string>,
                      repeated: bool, entropy: EntropyBand)
    ensures var rs := Findings(band, types, hits, window, repeated, entropy);
            && |rs| == 3 + |hits| + (if window.Some? then 1 else 0) + (if repeated then 1 else 0)
            && rs[0] == LengthVerdict(band) && rs[1] == VarietyVerdict(VarietyOf(types))
            && rs[|rs| - 1] == EntropyVerdict(entropy)
            && rs[2..2 + |hits|] == CommonPatterns(hits)
            && CountKind(rs, LengthKind) == 1
            && CountKind(rs, VarietyKind) == 1
            && CountKind(rs, EntropyKind) == 1
            && CountKind(rs, CommonKind) == |hits|
            && CountKind(rs, SequenceKind) == (if window.Some? then 1 else 0)
            && CountKind(rs, RepeatKind) == (if repeated then 1 else 0)
            && CountKind(rs, EmptyKind) == 0
  {
    var rs := Findings(band, types, hits, window, repeated, entropy);
    var head: seq<Reason> := [LengthVerdict(band), VarietyVerdict(VarietyOf(types))];
    var tail: seq<Reason> := (if window.Some? then [SequenceDetected(window.value)] else [])
                             + (if repeated then [RepeatedCharacters] else []) + [EntropyVerdict(entropy)];
    assert rs == head + CommonPatterns(hits) + tail;
    assert rs[2..2 + |hits|] == CommonPatterns(hits);
    FindingsCount(band, types, hits, window, repeated, entropy, EmptyKind);
    FindingsCount(band, types, hits, window, repeated, entropy, LengthKind);
    FindingsCount(band, types, hits, window, repeated, entropy, VarietyKind);
    FindingsCount(band, types, hits, window, repeated, entropy, CommonKind);
    FindingsCount(band, types, hits, window, repeated, entropy, SequenceKind);
    FindingsCount(band, types, hits, window, repeated, entropy, RepeatKind);
    FindingsCount(band, types, hits, window, repeated, entropy, EntropyKind);
  }

  /** `score_password` on a non-empty password: 3 + hits + [sequence] +
      [repetition] findings, length first, variety second, entropy last, one
      finding per blacklist hit and at most one sequence finding. */
  lemma ReasonsShape(pw: string)
    requires |pw| > 0
    ensures var rs := Score(pw).reasons;
            var hits := BlacklistHits(pw);
            && |rs| == 3 + |hits| + (if ContainsSequence(pw, 4).Some? then 1 else 0)
                                  + (if RepeatSearch(pw) then 1 else 0)
            && rs[0].LengthVerdict? && rs[1].VarietyVerdict? && rs[|rs| - 1].EntropyVerdict?
            && rs[2..2 + |hits|] == CommonPatterns(hits)
            && CountKind(rs, LengthKind) == 1
            && CountKind(rs, VarietyKind) == 1
            && CountKind(rs, EntropyKind) == 1
            && CountKind(rs, CommonKind) == |hits|
            && CountKind(rs, SequenceKind) <= 1
            && CountKind(rs, RepeatKind) <= 1
            && CountKind(rs, EmptyKind) == 0
  {
    FindingsShape(LengthBandOf(|pw|), TypeCount(CharSetsOf(pw)), BlacklistHits(pw),
                  ContainsSequence(pw, 4), RepeatSearch(pw), EntropyBandOf(PoolSize(pw), |pw|));
  }

  /** In any findings list, a blacklist entry is named as often as it is hit. */
  lemma FindingsNameHits(band: LengthBand, types: nat, hits: seq<string>, window: Option<string>,
                         repeated: bool, entropy: EntropyBand, w: string)
    ensures multiset(Findings(band, types, hits, window, repeated, entropy))[CommonPattern(w)]
            == multiset(hits)[w]
  {
    var head: seq<Reason> := [LengthVerdict(band), VarietyVerdict(VarietyOf(types))];
    var s: seq<Reason> := if window.Some? then [SequenceDetected(window.value)] else [];
    var p: seq<Reason> := if repeated then [RepeatedCharacters] else [];
    var e: seq<Reason> := [EntropyVerdict(entropy)];
    assert Findings(band, types, hits, window, repeated, entropy) == head + CommonPatterns(hits) + s + p + e;
    PatternMultiplicity(hits, w);
  }

  /** Every `COMMON_BAD` entry found in the lower-cased password yields
      exactly one finding naming it, every other string none: overlapping
      entries each count. */
  lemma BlacklistFindingPerEntry(pw: string, w: string)
    requires |pw| > 0
    ensures multiset(Score(pw).reasons)[CommonPattern(w)]
            == if w in CommonBad && Occurs(w, ToLower(pw)) then 1 else 0
  {
    FindingsNameHits(LengthBandOf(|pw|), TypeCount(CharSetsOf(pw)), BlacklistHits(pw),
                     ContainsSequence(pw, 4), RepeatSearch(pw), EntropyBandOf(PoolSize(pw), |pw|), w);
    HitsMultiplicity(CommonBad, ToLower(pw), w);
    CommonBadOnce(w);
  }

  lemma {:induction false} PatternMultiplicity(hits: seq<string>, w: string)
    ensures multiset(CommonPatterns(hits))[CommonPattern(w)] == multiset(hits)[w]
  {
    if hits != [] {
      var h, t := hits[0], hits[1..];
      PatternMultiplicity(t, w);
      assert hits == [h] + t;
      PatternsCons(h, t);
      assert multiset(hits) == multiset([h]) + multiset(t);
      assert multiset(CommonPatterns(hits)) == multiset([CommonPattern(h)]) + multiset(CommonPatterns(t));
    }
  }

  lemma PatternsCons(h: string, t: seq<string>)
    ensures CommonPatterns([h] + t) == [CommonPattern(h)] + CommonPatterns(t)
  {
  }

  lemma CommonBadOnce(w: string)
    ensures multiset(CommonBad)[w] == if w in CommonBad then 1 else 0
  {
    CommonBadDistinct();
    DistinctMultiplicity(CommonBad, w);
  }

  lemma {:induction false} DistinctMultiplicity(s: seq<string>, w: string)
    requires forall i, j :: 0 <= i < j < |s| ==> s[i] != s[j]
    ensures multiset(s)[w] == if w in s then 1 else 0
  {
    if s != [] {
      assert s == [s[0]] + s[1..];
      DistinctMultiplicity(s[1..], w);
      assert s[0] !in s[1..];
    }
  }

  /** A password of underscores and whitespace only earns no variety points
      and no entropy bonus: its pool is empty. */
  lemma UnderscoreAndSpaceScoreNoClasses(pw: string)
    requires |pw| > 0
    requires forall i :: 0 <= i < |pw| ==> pw[i] == '_' || IsSpaceChar(pw[i])
    ensures PoolSize(pw) == 0
    ensures Score(pw).reasons[1] == VarietyVerdict(SingleType)
    ensures Score(pw).reasons[|Score(pw).reasons| - 1] == EntropyVerdict(LowEntropy)
    ensures RawScore(pw) <= LengthPoints(LengthBandOf(|pw|))
  {
    NoTypesIffUnderscoreOrSpace(pw);
    ZeroPoolIsLow(|pw|);
    ReasonsShape(pw);
  }
}
