/** The two fixed tables the checker consults: known-bad substrings and the
    reference runs whose 4-character windows count as sequences. */
module Catalog {

  /** `COMMON_BAD`, in the order the scorer walks it. */
  const CommonBad: seq<string> := [
    "password", "123456", "12345678", "qwerty", "abc123", "letmein", "admin",
    "welcome", "iloveyou", "karndeep", "karndeepbaror", "cryptonic", "1234"
  ]

  /** `SEQ_PATTERNS`: digits, the alphabet and three keyboard rows, all lower case. */
  const SeqPatterns: seq<string> := [
    "0123456789", "abcdefghijklmnopqrstuvwxyz", "qwertyuiop", "asdfghjkl", "zxcvbnm"
  ]

  /** No entry of the blacklist is listed twice. */
  lemma CommonBadDistinct()
    ensures forall i, j :: 0 <= i < j < |CommonBad| ==> CommonBad[i] != CommonBad[j]
  {
  }

  /** The three digit entries and where they sit. */
  lemma DigitEntries()
    ensures CommonBad[1] == "123456" && CommonBad[2] == "12345678" && CommonBad[12] == "1234"
    ensures "123456" in CommonBad && "12345678" in CommonBad && "1234" in CommonBad
  {
  }
}
