/**
 * The two Bayes helpers the agent calls, `compute_evidence` and `bayes_update`.
 * Their source is not part of this model; they are given the standard
 * two-hypothesis form of Bayes' rule (hypothesis H = "the cell is an obstacle"),
 * with a zero normaliser leaving the prior unchanged.
 */
module BayesReasoning {

  /** P(reading) = P(reading | H) P(H) + P(reading | not H) P(not H). */
  function ComputeEvidence(prior: real, likelihoodH: real, likelihoodNotH: real): (evidence: real)
    ensures 0.0 <= prior <= 1.0 && 0.0 <= likelihoodH && 0.0 <= likelihoodNotH ==>
              likelihoodH * prior <= evidence
  {
    likelihoodH * prior + likelihoodNotH * (1.0 - prior)
  }

  /** P(H | reading) = P(reading | H) P(H) / P(reading); the prior when P(reading) is zero. */
  function BayesUpdate(prior: real, likelihoodH: real, evidence: real): (posterior: real)
    ensures evidence != 0.0 ==> posterior * evidence == likelihoodH * prior
  {
    if evidence == 0.0 then prior else likelihoodH * prior / evidence
  }

  /** The posterior of the two helpers chained, as the agent uses them. */
  function Posterior(prior: real, likelihoodH: real, likelihoodNotH: real): real
  {
    BayesUpdate(prior, likelihoodH, ComputeEvidence(prior, likelihoodH, likelihoodNotH))
  }

  /** A probability stays a probability. */
  lemma PosteriorIsProbability(prior: real, likelihoodH: real, likelihoodNotH: real)
    requires 0.0 <= prior <= 1.0 && 0.0 <= likelihoodH && 0.0 <= likelihoodNotH
    ensures 0.0 <= Posterior(prior, likelihoodH, likelihoodNotH) <= 1.0
  {
    var e := ComputeEvidence(prior, likelihoodH, likelihoodNotH);
    if e != 0.0 {
      var post := BayesUpdate(prior, likelihoodH, e);
      assert 0.0 < e;
      assert post * e == likelihoodH * prior;
      ProductSign(likelihoodH, prior);
      assert 0.0 <= likelihoodH * prior <= e;
      ProductSign(post, e);
      ProductSign(post - 1.0, e);
    }
  }

  /**
   * Evidence moves the belief in its own direction: a reading more likely
   * under H never lowers the belief in H, one more likely under not-H never
   * raises it.
   */
  lemma EvidenceDirection(prior: real, likelihoodH: real, likelihoodNotH: real)
    requires 0.0 <= prior <= 1.0 && 0.0 <= likelihoodH && 0.0 <= likelihoodNotH
    ensures likelihoodH >= likelihoodNotH ==> Posterior(prior, likelihoodH, likelihoodNotH) >= prior
    ensures likelihoodH <= likelihoodNotH ==> Posterior(prior, likelihoodH, likelihoodNotH) <= prior
  {
    var e := ComputeEvidence(prior, likelihoodH, likelihoodNotH);
    if e != 0.0 {
      var post := BayesUpdate(prior, likelihoodH, e);
      assert 0.0 < e;
      // the numerator minus prior times the normaliser
      var gap := likelihoodH * prior - prior * e;
      assert gap == prior * (1.0 - prior) * (likelihoodH - likelihoodNotH);
      ProductSign(1.0 - prior, prior);
      ProductSign(likelihoodH - likelihoodNotH, prior * (1.0 - prior));
      ProductSign(likelihoodNotH - likelihoodH, prior * (1.0 - prior));
      assert (post - prior) * e == gap;
      ProductSign(post - prior, e);
      ProductSign(prior - post, e);
    }
  }

  /** With a positive factor `b`, the sign of `a * b` is the sign of `a`. */
  lemma ProductSign(a: real, b: real)
    ensures 0.0 < b ==> (0.0 <= a <==> 0.0 <= a * b)
    ensures 0.0 <= a && 0.0 <= b ==> 0.0 <= a * b
  {
  }

  /** A cell believed certainly free stays certainly free, whatever the reading. */
  lemma CertainlyFreeIsFixed(likelihoodH: real, likelihoodNotH: real)
    ensures Posterior(0.0, likelihoodH, likelihoodNotH) == 0.0
  {
  }
}
