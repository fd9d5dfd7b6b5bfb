# PassForge password scoring, modelled in Dafny

PassForge is a terminal password strength checker written in Python. This project models its
scoring core as pure Dafny functions over strings (`seq<char>`), exact on ASCII strings (see
"Left out"):

- the two constant tables, `COMMON_BAD` (known-bad substrings) and `SEQ_PATTERNS` (digit, alphabet
  and keyboard runs);
- the character-class profile `char_sets` (`[a-z]`, `[A-Z]`, `\d`, `[^\w\s]`, `\s`);
- the sequence detector `contains_sequence` (first 4-character window of a run found in the
  lower-cased password);
- the pool size of `estimate_entropy` and the entropy band the scorer reads off it;
- the scorer `score_password` (length band, 10 points per class, -25 per blacklist hit, -15 for a
  sequence, -10 for a triple repeat, an entropy bonus, the clamp to 0..100, and the ordered
  findings list);
- the labeller `strength_label`;
- the hint builder `hints_for_improvement`;
- the guarantee of the generator `generate_strong_password`.

Findings of the scorer are values of the `Reason` datatype rather than the source's message
strings, and hints are values of `Hint`.

Modules, one per file:

- `Text`: character classes, `str.lower()` and the substring test.
- `CharSets`: `char_sets` and the count of classes.
- `Catalog`: the two tables.
- `SequenceDetector`: `contains_sequence`.
- `Entropy`: the pool and the band.
- `Scorer`: `score_password`, as a functional definition and as a method that follows the source
  step by step.
- `ScoreProperties` and `ScoreExamples`: all-inputs lemmas and pinned examples about the scorer.
- `Label`: `strength_label`.
- `Hints`: `hints_for_improvement`.
- `Generator`: `generate_strong_password`.

A password made only of `_` and whitespace has pool 0 and none of the four scored classes: lower,
upper, digit and symbol (passforge.py:54-57 and 71-76). `_` is a word character, so it matches
none of the four class patterns; whitespace still sets the separate whitespace class. So a
non-empty password can have an entropy of 0. The model keeps this case (`Entropy.PoolSize`,
`ScoreProperties.UnderscoreAndSpaceScoreNoClasses`).

## Model

| member | source | states |
|---|---|---|
| Text.ToLower | passforge.py:62 | Lowering keeps the length, turns each ASCII upper-case letter into its lower-case partner, leaves every other character alone, and leaves no upper-case letter behind. |
| Text.Contains | passforge.py:65 | The substring test `needle in hay` is true exactly when `needle` occurs at some position of `hay`. |
| Catalog.CommonBadDistinct | passforge.py:43-46 | No blacklist entry is listed twice, so each entry can be hit at most once. |
| CharSets.CharSetsOf | passforge.py:52-59 | Each of the five flags is true exactly when some character of the password is in that regex class. |
| CharSets.TypeCount | passforge.py:101 | The count of the four scored classes is at most 4; it is 0 exactly when none is present and 4 exactly when all are. |
| CharSets.NoTypesIffUnderscoreOrSpace | passforge.py:54-57 | No scored class is present exactly when every character is `_` or whitespace. |
| SequenceDetector.FirstHitFrom | passforge.py:63-67 | The nested scan resumed at a run and window: a found window occurs and no window scanned between the start and it occurs; no result means no remaining window occurs. |
| SequenceDetector.ContainsSequence | passforge.py:61-67 | The result is absent exactly when no 4-window of any run occurs in the lower-cased password. A present result has length 4, occurs in the password and in a run, and is the first hit in run order, then left to right. |
| SequenceDetector.DigitsScannedFirst | passforge.py:48-50 | "abcd1234" is charged for "1234", not "abcd": the digit run is scanned before the alphabet. |
| SequenceDetector.AdjacentStep | passforge.py:48-50 | Two characters next to each other in a run step up by one character code (digit and alphabet runs) or by one key to the right on the keyboard rows. |
| SequenceDetector.OneWayPair | passforge.py:48-50 | Apart from `m`/`n`, no two characters stand next to each other in both orders in the runs. |
| SequenceDetector.WindowHasOneWayPair | passforge.py:48-50 | Each 4-window of a run has, among its first two pairs, one that appears in no run the other way round. |
| SequenceDetector.WindowNotInReversedRun | passforge.py:63-65 | No 4-window of any run occurs in any run read backwards. |
| SequenceDetector.ReversedRunsIgnored | passforge.py:61-67 | A password whose lower-cased form lies inside a run read backwards has no detected sequence, at any length up to the whole reversed run: the scan only tries forward windows. |
| SequenceDetector.ReversedStretchIgnored | passforge.py:61-67 | Any stretch of a run read backwards, such as "9876" or "lkjh", has no detected sequence. |
| SequenceDetector.WholeReversedRunsIgnored | passforge.py:61-67 | Each of the five runs read backwards as a whole, such as "zyxwvutsrqponmlkjihgfedcba", has no detected sequence. |
| SequenceDetector.ShortDescendingRunsIgnored | passforge.py:61-67 | "4321" and "dcba" have no detected sequence. |
| Entropy.PoolSize | passforge.py:69-75 | The pool is at most 94, is 94 exactly when all four classes are present, and is 0 exactly when every character is `_` or whitespace. |
| Entropy.PoolSizeValues | passforge.py:70-74 | The pool is one of the twelve subset sums of 26, 26, 10 and 32. |
| Entropy.PoolZeroIffNoTypes | passforge.py:70-76 | The pool is 0 exactly when the class count used for variety points is 0. |
| Entropy.EntropyBandOf | passforge.py:126-133 | An empty or one-symbol pool is always in the low band; a pool of 2 or more reaches the high band from 70 characters; a pool of at most 2 stays low below 45 characters. |
| Entropy.EntropyBonus | passforge.py:126-133 | The bonus is one of 0, 8 and 20, and it is 0 exactly in the low band. |
| Entropy.ZeroPoolIsLow | passforge.py:75-76 | An empty pool gives entropy 0, which is in the low band and earns no bonus. |
| Entropy.BandMonotoneInLength | passforge.py:75-77 | Over any fixed pool, the empty one included, a longer password never gets a lower entropy band. |
| Entropy.BandMonotoneInPool | passforge.py:77 | At a fixed length, a larger pool never gets a lower entropy band. |
| Entropy.FullPoolSixteenIsHigh | passforge.py:126-128 | Sixteen characters over the full pool of 94 are in the high band. |
| Entropy.SymbolPoolThresholds | passforge.py:126-131 | With pool 32 (5 bits per character), the band is high exactly from 14 characters and moderate exactly for 9 to 13. |
| Scorer.LengthBandOf | passforge.py:87-98 | Each length falls in exactly one band: below 8, 8 to 11, 12 to 15, or 16 and up. |
| Scorer.VarietyOf | passforge.py:103-108 | The variety finding is "one type" exactly for at most one class, "two types" exactly for two, and "varied" exactly for three or four. |
| Scorer.Clamp | passforge.py:135 | The result is in 0..100, equals the input inside that range, and is 0 below it and 100 above it. |
| Scorer.HitsAmong | passforge.py:111-114 | The kept entries are drawn from the list, each occurs in the lower-cased password, and there are no more of them than entries. |
| Scorer.HitsMultiplicity | passforge.py:111-114 | An entry is kept as often as it is listed if it occurs in the password, and never otherwise. |
| Scorer.HitsAppend | passforge.py:111-114 | Hits of earlier entries come before hits of later ones: the walk follows list order, not position in the password. |
| Scorer.RepeatSearch | passforge.py:121 | The search succeeds exactly when some position starts three equal characters that are not line feeds. |
| Scorer.ApplyBlacklist | passforge.py:110-114 | The blacklist loop subtracts 25 once per entry found and appends one finding naming each found entry, in list order. |
| Scorer.ScorePassword | passforge.py:79-136 | An empty password gives score 0 and the single "no password" finding. Otherwise the running total built rule by rule equals the clamped sum of the rule outcomes, the findings equal the rule-order list of outcomes, and the score is in 0..100. |
| Scorer.Score | passforge.py:79-136 | The score is in 0..100. An empty password gets 0 and the single "no password" finding. Any other password gets at least three findings, the first being its length band's finding and the last its entropy band's. |
| ScoreProperties.FindingsShape | passforge.py:86-133 | For any rule outcomes, the findings list has 3 + hits + [sequence] + [repeat] entries: length first, variety second, entropy last, blacklist findings in between and in order, and exactly one finding of each always-present kind. |
| ScoreProperties.FindingsCount | passforge.py:86-133 | The number of findings of each kind is fixed by the rule outcomes. |
| ScoreProperties.ReasonsShape | passforge.py:86-133 | For a non-empty password, the findings have exactly one length, one variety and one entropy finding, in first, second and last place, one blacklist finding per hit, at most one sequence and at most one repeat finding, and no "no password" finding. |
| ScoreProperties.FindingsNameHits | passforge.py:110-114 | A blacklist entry is named in the findings exactly as often as it is among the hits. |
| ScoreProperties.BlacklistFindingPerEntry | passforge.py:110-114 | Each `COMMON_BAD` entry that occurs in the lower-cased password is named by exactly one finding, and any other string by none. |
| ScoreProperties.PatternMultiplicity | passforge.py:114 | Turning hits into findings keeps each entry's multiplicity. |
| ScoreProperties.CommonBadOnce | passforge.py:43-46 | Each entry of the blacklist occurs in it exactly once. |
| ScoreProperties.UnderscoreAndSpaceScoreNoClasses | passforge.py:54-57 | A password of only `_` and whitespace has pool 0, the single-type variety finding and the low entropy finding, and scores no more than its length points. |
| ScoreExamples.OverlappingEntriesCompound | passforge.py:43-46 | A password containing "12345678" hits "123456", "12345678" and "1234", each named once, so at least three penalties, and it also has a detected sequence. |
| ScoreExamples.DigitWindowDetected | passforge.py:61-67 | A password containing "1234" has a detected sequence. |
| ScoreExamples.RepetitionBoundary | passforge.py:121 | "aaa1234" and "x   y" repeat, "aa1234" does not, and three line feeds do not, because the regex dot skips newlines. |
| ScoreExamples.NegativeBeforeClamp | passforge.py:110-135 | A password of under 12 characters containing "12345678" has a negative total before the clamp and scores 0. |
| Label.StrengthLabel | passforge.py:138-147 | The label's rank is 0 below 20, then one step per 20 points, and 4 from 80 up. |
| Label.LabelMonotone | passforge.py:138-147 | A higher score never gets a weaker label. |
| Label.LabelBands | passforge.py:138-147 | On 0..100, each label is reached by exactly its band of scores. |
| Hints.Keep | passforge.py:243-256 | The kept hints are exactly the wanted members of the list, and rank order is preserved. |
| Hints.FactsOf | passforge.py:242-255 | The facts the builder computes call for a hint exactly when that hint's condition holds of the password. |
| Hints.NoHintIff | passforge.py:240-257 | A hint list holding exactly the applicable hints is empty exactly when the password has 12 or more characters, all four classes, no whitespace and no blacklist entry. |
| Hints.HintsForImprovement | passforge.py:240-257 | Each hint is present exactly when its condition holds, hints come in the fixed order, and the list is empty exactly for a long, four-class, space-free, blacklist-free password. |
| Generator.Alphabet | passforge.py:152-154 | The alphabet has 62 characters, or 88 with symbols. |
| Generator.ClassOf | passforge.py:158-159 | A character belongs to at most one of the classes the generator checks. |
| Generator.AcceptableNeedsLength | passforge.py:158-159 | A password that passes the check has at least 3 characters, or 4 with symbols. |
| Generator.Witness | passforge.py:155-160 | For every length from that minimum on, some password over the alphabet passes the check, so a draw can succeed. |
| Generator.UnderscoreIsNoSymbol | passforge.py:154-159 | `_` is in the alphabet with symbols but does not meet the symbol requirement; `!` does. |
| Generator.NoSymbolsWithoutSymbolSet | passforge.py:152-153 | Without symbols, no password over the alphabet has a symbol. |
| Generator.Draw | passforge.py:157 | A draw has the requested length and only alphabet characters. |
| Generator.GenerateStrongPassword | passforge.py:150-160 | A returned password has the requested length and only alphabet characters. It has a lower-case letter, an upper-case letter, a digit, and a `[^\w\s]` symbol when symbols are on. Below the minimum length nothing is returned. |

## Left out

- Terminal I/O and presentation are not modelled: the banner, spinner and typing effects, `display_result`, colours and the interactive `main` loop with `getpass`, `input` and interrupt handling.
- The wording of findings and hints is not modelled. They are datatype values, and the printed entropy number is not part of a finding.
- Entropy.EntropyBandOf: the source compares `round(math.log2(pool) * len, 2)` in floating point with 70 and 45. The model compares `pool^len` with `2^70` and `2^45` exactly. Rounding to two decimals could only matter if `log2(pool) * len` came within 0.005 of a threshold. For the twelve pool sizes the code can produce, the only lengths that come that close hit a threshold exactly (32^9 = 2^45 and 32^14 = 2^70), and there the two comparisons agree. The entropy value itself is not modelled, only its band.
- Character classes and `str.lower()` are modelled for ASCII only. On other characters Python's Unicode rules for `\d`, `\w`, `\s` and `.lower()` differ, and the model classifies them as symbols and leaves them unchanged by lowering.
- Generator.GenerateStrongPassword: the randomness of `secrets.choice` is modelled as an arbitrary choice of an alphabet character. The source's unbounded retry loop is cut off after `maxAttempts` draws, returning `None` when that bound is exhausted. So the model promises what a returned password satisfies, but not that a password is eventually returned.
- The defaults `length=18` and `use_symbols=True` of the generator are not modelled; both are parameters.
