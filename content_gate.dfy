/**
 * The content gate: a trained phishing classifier supplies a probability.
 * A message is refused when that probability reaches the threshold.
 */
module ContentGate {

  /** PHISHING_THRESHOLD, the default threshold of classify_message. */
  const PhishingThreshold: real := 0.7

  datatype Classification = Safe | Unsafe

  /** classify_message's policy, applied to the phishing probability the model reports. */
  function Classify(phishingProbability: real, threshold: real): Classification
  {
    if phishingProbability >= threshold then Unsafe else Safe
  }

  /**
   * The gate is a threshold. It is Unsafe exactly from the threshold
   * upwards. A higher probability, or a lower threshold, never turns an
   * Unsafe verdict into Safe.
   */
  lemma ClassifyIsThreshold(p: real, q: real, threshold: real, lower: real)
    ensures Classify(p, threshold) == Unsafe <==> p >= threshold
    ensures Classify(p, threshold) == Safe <==> p < threshold
    ensures p <= q && Classify(p, threshold) == Unsafe ==> Classify(q, threshold) == Unsafe
    ensures lower <= threshold && Classify(p, threshold) == Unsafe ==> Classify(p, lower) == Unsafe
  {
  }

  /** With the default threshold, 0.7 itself is already Unsafe and anything below it is Safe. */
  lemma DefaultThreshold(p: real)
    ensures Classify(p, PhishingThreshold) == Unsafe <==> p >= 7.0 / 10.0
  {
  }
}
