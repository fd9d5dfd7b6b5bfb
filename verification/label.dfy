/** The threshold labeller (`strength_label`). */
module Label {

  datatype Strength = VeryWeak | Weak | Fair | Good | Excellent

  /** Position of a label on the scale, weakest first. */
  function Rank(s: Strength): nat
  {
    match s
    case VeryWeak => 0
    case Weak => 1
    case Fair => 2
    case Good => 3
    case Excellent => 4
  }

  /** Below 20 very weak, below 40 weak, below 60 fair, below 80 good, else excellent. */
  function StrengthLabel(score: int): (s: Strength)
    ensures Rank(s) == if score < 0 then 0 else if score >= 80 then 4 else score / 20
  {
    if score < 20 then VeryWeak
    else if score < 40 then Weak
    else if score < 60 then Fair
    else if score < 80 then Good
    else Excellent
  }

  /** A higher score never gets a weaker label. */
  lemma LabelMonotone(a: int, b: int)
    requires a <= b
    ensures Rank(StrengthLabel(a)) <= Rank(StrengthLabel(b))
  {
  }

  /** Each label is reached by exactly one band of 20 points (the last band
      runs from 80 to the top of the scale). */
  lemma LabelBands(score: int)
    requires 0 <= score <= 100
    ensures StrengthLabel(score) == VeryWeak <==> score < 20
    ensures StrengthLabel(score) == Weak <==> 20 <= score < 40
    ensures StrengthLabel(score) == Fair <==> 40 <= score < 60
    ensures StrengthLabel(score) == Good <==> 60 <= score < 80
    ensures StrengthLabel(score) == Excellent <==> 80 <= score
  {
  }
}
