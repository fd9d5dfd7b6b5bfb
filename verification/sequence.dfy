/** The sequence detector (`contains_sequence`): the first window of `n`
    consecutive characters of a reference run that occurs in the lower-cased
    password, scanning the runs in catalog order and each run left to right.
    Only forward windows are tried; reversed runs are never looked for. */
module SequenceDetector {
  import opened Text
  import opened Catalog

  /** Window `i` of run `p` exists: `range(len(seq) - n + 1)` contains `i`. */
  predicate ValidWindow(n: nat, p: int, i: int) {
    0 <= p < |SeqPatterns| && 0 <= i && i + n <= |SeqPatterns[p]|
  }

  function Window(n: nat, p: int, i: int): (w: string)
    requires ValidWindow(n, p, i)
    ensures |w| == n
  {
    SeqPatterns[p][i..i + n]
  }

  /** Window (p1, i1) is tried before window (p2, i2). */
  predicate ScannedBefore(p1: int, i1: int, p2: int, i2: int) {
    p1 < p2 || (p1 == p2 && i1 < i2)
  }

  /** Window (p, i) occurs in `low` and no window tried before it does. */
  ghost predicate IsFirstHit(n: nat, low: string, p: int, i: int) {
    && ValidWindow(n, p, i)
    && Occurs(Window(n, p, i), low)
    && forall q, j :: ValidWindow(n, q, j) && ScannedBefore(q, j, p, i) ==> !Occurs(Window(n, q, j), low)
  }

  /** The nested loop of the source, resumed at run `p`, window `i`. */
  function FirstHitFrom(low: string, n: nat, p: nat, i: nat): (r: Option<(nat, nat)>)
    requires p <= |SeqPatterns|
    requires p < |SeqPatterns| ==> i <= |SeqPatterns[p]| + 1
    ensures r.Some? ==>
      && ValidWindow(n, r.value.0, r.value.1)
      && !ScannedBefore(r.value.0, r.value.1, p, i)
      && Occurs(Window(n, r.value.0, r.value.1), low)
      && forall q, j ::
           (ValidWindow(n, q, j) && !ScannedBefore(q, j, p, i) && ScannedBefore(q, j, r.value.0, r.value.1))
           ==> !Occurs(Window(n, q, j), low)
    ensures r.None? ==>
      forall q, j :: ValidWindow(n, q, j) && !ScannedBefore(q, j, p, i) ==> !Occurs(Window(n, q, j), low)
    decreases |SeqPatterns| - p, if p < |SeqPatterns| then |SeqPatterns[p]| + 1 - i else 0
  {
    if p == |SeqPatterns| then None
    else if i + n > |SeqPatterns[p]| then
      RestOfRunEmpty(n, p, i);
      FirstHitFrom(low, n, p + 1, 0)
    else if Contains(low, SeqPatterns[p][i..i + n]) then Some((p, i))
    else
      NextWindow(n, p, i);
      FirstHitFrom(low, n, p, i + 1)
  }

  /** Past the last window of run `p`, the scan goes on with run `p + 1`. */
  lemma RestOfRunEmpty(n: nat, p: int, i: int)
    requires 0 <= p < |SeqPatterns| && i + n > |SeqPatterns[p]|
    ensures forall q, j :: ValidWindow(n, q, j) && !ScannedBefore(q, j, p, i) ==> !ScannedBefore(q, j, p + 1, 0)
  {
  }

  /** The windows from `i` on are window `i` and those from `i + 1` on. */
  lemma NextWindow(n: nat, p: int, i: int)
    ensures forall q, j ::
      ValidWindow(n, q, j) && !ScannedBefore(q, j, p, i) ==> (q == p && j == i) || !ScannedBefore(q, j, p, i + 1)
  {
  }

  /** `contains_sequence(pw, length=n)`: `Some(w)` is `(True, w)` and `None`
      is `(False, None)`. */
  function ContainsSequence(pw: string, n: nat): (r: Option<string>)
    ensures r.None? <==> forall p, i :: ValidWindow(n, p, i) ==> !Occurs(Window(n, p, i), ToLower(pw))
    ensures r.Some? ==> |r.value| == n && Occurs(r.value, ToLower(pw))
    ensures r.Some? ==> exists p, i :: IsFirstHit(n, ToLower(pw), p, i) && r.value == Window(n, p, i)
    ensures r.Some? ==> exists p :: 0 <= p < |SeqPatterns| && Occurs(r.value, SeqPatterns[p])
  {
    match FirstHitFrom(ToLower(pw), n, 0, 0)
    case None => None
    case Some((p, i)) =>
      assert IsFirstHit(n, ToLower(pw), p, i);
      assert OccursAt(Window(n, p, i), SeqPatterns[p], i);
      Some(Window(n, p, i))
  }

  /** A password that contains both "abcd" and "1234" is charged for the
      digit window: the digit run is scanned first. */
  lemma DigitsScannedFirst()
    ensures ContainsSequence("abcd1234", 4) == Some("1234")
  {
    var low := ToLower("abcd1234");
    assert low == "abcd1234";
    assert OccursAt("1234", low, 4);
    assert !Occurs("0123", low) by {
      assert '0' !in low;
      forall k | 0 <= k < |low| ensures !OccursAt("0123", low, k) {
        assert low[k] != '0';
      }
    }
    assert SeqPatterns[0][0..4] == "0123" && SeqPatterns[0][1..5] == "1234";
    assert FirstHitFrom(low, 4, 0, 1) == Some((0, 1));
    assert FirstHitFrom(low, 4, 0, 0) == Some((0, 1));
  }

  /** Two characters stand next to each other, in this order, in some run. */
  ghost predicate Adjacent(a: char, b: char) {
    exists q, m :: 0 <= q < |SeqPatterns| && 0 <= m && m + 1 < |SeqPatterns[q]|
                   && SeqPatterns[q][m] == a && SeqPatterns[q][m + 1] == b
  }

  /** Where a letter sits on the three keyboard runs: ten times its run's
      catalog index plus its column; far off for any other character. */
  function KeyPos(c: char): (k: int)
    ensures k >= 20 ==> IsLowerChar(c)
  {
    match c
    case 'q' => 20 case 'w' => 21 case 'e' => 22 case 'r' => 23 case 't' => 24
    case 'y' => 25 case 'u' => 26 case 'i' => 27 case 'o' => 28 case 'p' => 29
    case 'a' => 30 case 's' => 31 case 'd' => 32 case 'f' => 33 case 'g' => 34
    case 'h' => 35 case 'j' => 36 case 'k' => 37 case 'l' => 38
    case 'z' => 40 case 'x' => 41 case 'c' => 42 case 'v' => 43 case 'b' => 44
    case 'n' => 45 case 'm' => 46
    case _ => -100
  }

  lemma KeyboardRunPositions(q: int, m: int)
    requires 2 <= q < |SeqPatterns| && 0 <= m < |SeqPatterns[q]|
    ensures KeyPos(SeqPatterns[q][m]) == 10 * q + m
  {
    if q == 2 {
      assert SeqPatterns[2] == "qwertyuiop";
    } else if q == 3 {
      assert SeqPatterns[3] == "asdfghjkl";
    } else {
      assert SeqPatterns[4] == "zxcvbnm";
    }
  }

  lemma CountingRunSteps(q: int, m: int)
    requires 0 <= q < 2 && 0 <= m && m + 1 < |SeqPatterns[q]|
    ensures SeqPatterns[q][m + 1] as int == SeqPatterns[q][m] as int + 1
    ensures IsDigitChar(SeqPatterns[q][m]) || IsLowerChar(SeqPatterns[q][m])
  {
    if q == 0 {
      assert SeqPatterns[0] == "0123456789";
    } else {
      assert SeqPatterns[1] == "abcdefghijklmnopqrstuvwxyz";
    }
  }

  /** Every adjacent pair either counts up by one character code (digit and
      alphabet runs) or moves one key right on a keyboard run. */
  lemma AdjacentStep(a: char, b: char)
    requires Adjacent(a, b)
    ensures || (b as int == a as int + 1 && (IsDigitChar(a) || IsLowerChar(a)))
            || (KeyPos(b) == KeyPos(a) + 1 && KeyPos(a) >= 20)
  {
    var q, m :| 0 <= q < |SeqPatterns| && 0 <= m && m + 1 < |SeqPatterns[q]|
                && SeqPatterns[q][m] == a && SeqPatterns[q][m + 1] == b;
    if q < 2 {
      CountingRunSteps(q, m);
    } else {
      KeyboardRunPositions(q, m);
      KeyboardRunPositions(q, m + 1);
    }
  }

  /** 'm' is the only letter whose alphabet successor sits one key to its left. */
  lemma KeyboardBackStep(c: char)
    requires IsLowerChar(c) && c != 'z'
    ensures KeyPos(c) == KeyPos((c as int + 1) as char) + 1 <==> c == 'm'
  {
    if c < 'h' {
      assert c == 'a' || c == 'b' || c == 'c' || c == 'd' || c == 'e' || c == 'f' || c == 'g';
    } else if c < 'o' {
      assert c == 'h' || c == 'i' || c == 'j' || c == 'k' || c == 'l' || c == 'm' || c == 'n';
    } else if c < 'v' {
      assert c == 'o' || c == 'p' || c == 'q' || c == 'r' || c == 's' || c == 't' || c == 'u';
    } else {
      assert c == 'v' || c == 'w' || c == 'x' || c == 'y';
    }
  }

  /** Apart from 'm'/'n', no two characters are adjacent in both orders. */
  lemma OneWayPair(a: char, b: char)
    requires Adjacent(a, b)
    requires !(a == 'm' && b == 'n') && !(a == 'n' && b == 'm')
    ensures !Adjacent(b, a)
  {
    AdjacentStep(a, b);
    if Adjacent(b, a) {
      AdjacentStep(b, a);
      if b as int == a as int + 1 && KeyPos(a) == KeyPos(b) + 1 && KeyPos(b) >= 20 {
        KeyboardBackStep(a);
      } else if a as int == b as int + 1 && KeyPos(b) == KeyPos(a) + 1 && KeyPos(a) >= 20 {
        KeyboardBackStep(b);
      }
    }
  }

  /** Every window holds a pair, among its first two, that no run holds the
      other way round. */
  lemma WindowHasOneWayPair(p: int, i: int)
    requires ValidWindow(4, p, i)
    ensures exists j :: 0 <= j < 2 && !Adjacent(Window(4, p, i)[j + 1], Window(4, p, i)[j])
  {
    var w := Window(4, p, i);
    var j := if p == 1 && w[0] == 'm' then 1 else 0;
    assert w[j] == SeqPatterns[p][i + j] && w[j + 1] == SeqPatterns[p][i + j + 1];
    if p < 2 {
      CountingRunSteps(p, i + j);
      if p == 1 && w[0] == 'm' {
        CountingRunSteps(p, i);
      }
    } else {
      KeyboardRunPositions(p, i);
      KeyboardRunPositions(p, i + 1);
    }
    OneWayPair(w[j], w[j + 1]);
  }

  /** Reading a run backwards turns its adjacent pairs around. */
  lemma ReversedRunPairs(p: int, k: int)
    requires 0 <= p < |SeqPatterns| && 0 <= k && k + 1 < |SeqPatterns[p]|
    ensures Adjacent(Reverse(SeqPatterns[p])[k + 1], Reverse(SeqPatterns[p])[k])
  {
    var n := |SeqPatterns[p]|;
    assert SeqPatterns[p][n - 2 - k] == Reverse(SeqPatterns[p])[k + 1];
  }

  /** No window of any run occurs in a run read backwards. */
  lemma WindowNotInReversedRun(q: int, i: int, p: int)
    requires ValidWindow(4, q, i) && 0 <= p < |SeqPatterns|
    ensures !Occurs(Window(4, q, i), Reverse(SeqPatterns[p]))
  {
    var w := Window(4, q, i);
    var rev := Reverse(SeqPatterns[p]);
    WindowHasOneWayPair(q, i);
    var j :| 0 <= j < 2 && !Adjacent(w[j + 1], w[j]);
    forall k | 0 <= k && k + 4 <= |rev| ensures !OccursAt(w, rev, k) {
      ReversedRunPairs(p, k + j);
      assert rev[k..k + 4][j] == rev[k + j] && rev[k..k + 4][j + 1] == rev[k + j + 1];
    }
  }

  /** Descending runs are not detected: a password that, lower-cased, is
      part of a run read backwards contains no window of any run. */
  lemma ReversedRunsIgnored(pw: string, p: int)
    requires 0 <= p < |SeqPatterns| && Occurs(ToLower(pw), Reverse(SeqPatterns[p]))
    ensures ContainsSequence(pw, 4).None?
  {
    forall q, i | ValidWindow(4, q, i) ensures !Occurs(Window(4, q, i), ToLower(pw)) {
      WindowNotInReversedRun(q, i, p);
      if Occurs(Window(4, q, i), ToLower(pw)) {
        OccursTransitive(Window(4, q, i), ToLower(pw), Reverse(SeqPatterns[p]));
      }
    }
  }

  /** Every character of a run is a digit or a lower-case letter. */
  lemma RunHasNoUpper(p: int, m: int)
    requires 0 <= p < |SeqPatterns| && 0 <= m < |SeqPatterns[p]|
    ensures !IsUpperChar(SeqPatterns[p][m])
  {
    if p < 2 {
      if m + 1 < |SeqPatterns[p]| {
        CountingRunSteps(p, m);
      } else {
        CountingRunSteps(p, m - 1);
      }
    } else {
      KeyboardRunPositions(p, m);
    }
  }

  /** Any stretch of a run read backwards is not detected. */
  lemma ReversedStretchIgnored(p: int, i: int, w: string)
    requires 0 <= p < |SeqPatterns| && 0 <= i && i + |w| <= |SeqPatterns[p]|
    requires w == Reverse(SeqPatterns[p])[i..i + |w|]
    ensures ContainsSequence(w, 4).None?
  {
    StretchIsLower(p, i, w);
    assert OccursAt(ToLower(w), Reverse(SeqPatterns[p]), i);
    ReversedRunsIgnored(w, p);
  }

  lemma StretchIsLower(p: int, i: int, w: string)
    requires 0 <= p < |SeqPatterns| && 0 <= i && i + |w| <= |SeqPatterns[p]|
    requires w == Reverse(SeqPatterns[p])[i..i + |w|]
    ensures ToLower(w) == w
  {
    var run := SeqPatterns[p];
    forall m | 0 <= m < |run| ensures !IsUpperChar(run[m]) {
      RunHasNoUpper(p, m);
    }
    ReversedStretchLower(run, i, w);
  }

  lemma ReversedStretchLower(run: string, i: int, w: string)
    requires forall m :: 0 <= m < |run| ==> !IsUpperChar(run[m])
    requires 0 <= i && i + |w| <= |run| && w == Reverse(run)[i..i + |w|]
    ensures ToLower(w) == w
  {
    forall k | 0 <= k < |w| ensures !IsUpperChar(w[k]) {
      assert w[k] == run[|run| - 1 - (i + k)];
    }
  }

  /** Each of the five runs read backwards is not detected. */
  lemma WholeReversedRunsIgnored(p: int)
    requires 0 <= p < |SeqPatterns|
    ensures ContainsSequence(Reverse(SeqPatterns[p]), 4).None?
  {
    var rev := Reverse(SeqPatterns[p]);
    assert rev[0..|rev|] == rev;
    ReversedStretchIgnored(p, 0, rev);
  }

  /** "4321" and "dcba" are backward digit and alphabet windows. */
  lemma ShortDescendingRunsIgnored()
    ensures ContainsSequence("4321", 4).None?
    ensures ContainsSequence("dcba", 4).None?
  {
    DescendingStretches();
    ReversedStretchIgnored(0, 5, "4321");
    ReversedStretchIgnored(1, 22, "dcba");
  }

  lemma DescendingStretches()
    ensures Reverse(SeqPatterns[0])[5..9] == "4321"
    ensures Reverse(SeqPatterns[1])[22..26] == "dcba"
  {
    var digits := Reverse(SeqPatterns[0]);
    var letters := Reverse(SeqPatterns[1]);
    assert SeqPatterns[0] == "0123456789" && SeqPatterns[1] == "abcdefghijklmnopqrstuvwxyz";
    assert digits[5] == '4' && digits[6] == '3' && digits[7] == '2' && digits[8] == '1';
    assert letters[22] == 'd' && letters[23] == 'c' && letters[24] == 'b' && letters[25] == 'a';
  }
}
