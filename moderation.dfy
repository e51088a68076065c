/**
 * The only moderation rule the front end applies: an opinion whose stored
 * negativity score reaches the threshold is blinded. The score itself is
 * computed elsewhere and arrives as data.
 */
module Moderation {

  /** The blinding threshold, shared by the export and the detail dialog (it was 4 in an earlier revision). */
  const BlindThreshold: nat := 3

  /** `negative_score >= 3`. */
  predicate IsBlinded(negativeScore: int)
    ensures IsBlinded(negativeScore) <==> negativeScore >= 3
  {
    negativeScore >= BlindThreshold
  }

  /** A higher score never lifts a blind: every score at or above a blinded one is blinded too. */
  lemma BlindingMonotone(a: int, b: int)
    requires IsBlinded(a) && a <= b
    ensures IsBlinded(b)
  {
  }
}
