/**
 * The three sample batches the repository runs the engine on (career,
 * marriage, health) and what the engine makes of them.
 */
module Scenarios {
  import opened Options
  import opened Responses
  import opened Weights
  import opened Aggregates
  import opened Sav
  import opened Consensus
  import Numerals

  /** A sample response: every sample carries a dasha weight and a score string. */
  function Sample(agentId: string, domain: string, score: real, confidence: real, dasha: real, sav: string): AgentResponse
  {
    AgentResponse(agentId, domain, score, confidence, Some(dasha), Some(sav))
  }

  /** The sums over four terms, written out. */
  lemma SumsOfFour(ps: seq<Weighted>)
    requires |ps| == 4
    ensures ScoreSum(ps) ==
      ps[0].score * ps[0].weight + ps[1].score * ps[1].weight +
      ps[2].score * ps[2].weight + ps[3].score * ps[3].weight
    ensures WeightSum(ps) == ps[0].weight + ps[1].weight + ps[2].weight + ps[3].weight
  {
    assert ps[..0] == [];
    SumsOfPrefix(ps, 0, ps[0].score, ps[0].weight);
    SumsOfPrefix(ps, 1, ps[1].score, ps[1].weight);
    SumsOfPrefix(ps, 2, ps[2].score, ps[2].weight);
    SumsOfPrefix(ps, 3, ps[3].score, ps[3].weight);
    assert ps[..4] == ps;
  }

  /** The sum of four values, written out. */
  lemma SumOfFour(xs: seq<real>)
    requires |xs| == 4
    ensures Sum(xs) == xs[0] + xs[1] + xs[2] + xs[3]
  {
    assert xs[..1] == [xs[0]] && xs[..1][..0] == [];
    assert xs[..2][..1] == xs[..1];
    assert xs[..3][..2] == xs[..2];
    assert xs[..4][..3] == xs[..3];
    assert Sum(xs[..1]) == xs[0];
    assert Sum(xs[..2]) == Sum(xs[..1]) + xs[1];
    assert Sum(xs[..3]) == Sum(xs[..2]) + xs[2];
    assert xs[..4] == xs;
  }

  const CAREER_SAV: string := "32/48"

  const CAREER: seq<AgentResponse> := [
    Sample("integration_specialist", "career", 78.5, 0.87, 0.85, CAREER_SAV),
    Sample("mathematics_validator", "career", 75.0, 0.95, 0.85, CAREER_SAV),
    Sample("risk_assessor", "career", 81.0, 0.82, 0.85, CAREER_SAV),
    Sample("nuance_specialist", "career", 76.0, 0.79, 0.85, CAREER_SAV)
  ]

  lemma CareerScoreStrings()
    ensures forall r :: r in CAREER ==> r.savScore == Some(CAREER_SAV)
  {
  }

  /** The career sample: scores within 6 of each other, so unanimous with high agreement, and an above-average tier. */
  lemma CareerSample()
    ensures ConsensusOf(CAREER, "career").Success?
    ensures ConsensusOf(CAREER, "career").value.strategyUsed == Unanimous
    ensures ConsensusOf(CAREER, "career").value.agreementLevel == HighAgreement
    ensures ConsensusOf(CAREER, "career").value.savTier == AboveAverage
  {
    var rs := CAREER;
    PositiveConfidencesGivePositiveTotal(rs, "career");
    forall i, j | 0 <= i < |rs| && 0 <= j < |rs| ensures rs[i].score - rs[j].score <= 10.0 {
      assert i == 0 || i == 1 || i == 2 || i == 3;
      assert j == 0 || j == 1 || j == 2 || j == 3;
    }
    NarrowSpreadIsUnanimous(rs, "career");
    HighAgreementIffNarrow(rs);
    Numerals.SampleScoreStrings();
    CareerScoreStrings();
    UniformReadingAverage(rs, CAREER_SAV, 32);
  }

  /** The career sample's confidence: mean 0.8575, raised by 0.1 for high agreement, so high certainty. */
  lemma CareerCertainty()
    ensures ConsensusOf(CAREER, "career").Success?
    ensures ConsensusOf(CAREER, "career").value.confidence == 0.9575
    ensures ConsensusOf(CAREER, "career").value.certaintyLevel == High
  {
    CareerSample();
    var xs := Confidences(CAREER);
    assert xs[0] == 0.87 && xs[1] == 0.95 && xs[2] == 0.82 && xs[3] == 0.79;
    SumOfFour(xs);
    assert AverageConfidence(CAREER) == 0.8575;
  }

  const MARRIAGE_SAV: string := "28/48"

  const MARRIAGE: seq<AgentResponse> := [
    Sample("integration_specialist", "marriage", 68.0, 0.85, 0.70, MARRIAGE_SAV),
    Sample("mathematics_validator", "marriage", 58.0, 0.92, 0.70, MARRIAGE_SAV),
    Sample("risk_assessor", "marriage", 62.0, 0.88, 0.70, MARRIAGE_SAV),
    Sample("nuance_specialist", "marriage", 88.0, 0.78, 0.70, MARRIAGE_SAV)
  ]

  /** The marriage sample's weighted estimate lies between 72 and 73. */
  lemma MarriageInitialScore()
    ensures 72.0 < InitialScore(MARRIAGE, WeightsFor("marriage")) < 73.0
  {
    var w := WeightsFor("marriage");
    assert w == DOMAIN_WEIGHTS["marriage"];
    var ps := EffectiveTerms(MARRIAGE, w);
    assert ps[0] == Weighted(68.0, 0.20 * (0.85 * (0.5 + 0.5 * 0.70)));
    assert ps[1] == Weighted(58.0, 0.10 * (0.92 * (0.5 + 0.5 * 0.70)));
    assert ps[2] == Weighted(62.0, 0.30 * (0.88 * (0.5 + 0.5 * 0.70)));
    assert ps[3] == Weighted(88.0, 0.40 * (0.78 * (0.5 + 0.5 * 0.70)));
    SumsOfFour(ps);
  }

  /** Only the nuance agent's response conflicts with the marriage estimate. */
  lemma MarriageConflicts()
    ensures ConflictPositions(MARRIAGE, InitialScore(MARRIAGE, WeightsFor("marriage"))) == {3}
  {
    var initial := InitialScore(MARRIAGE, WeightsFor("marriage"));
    MarriageInitialScore();
    forall k | 0 <= k < |MARRIAGE| ensures IsConflict(MARRIAGE[k], initial) <==> k == 3 {
      assert k == 0 || k == 1 || k == 2 || k == 3;
    }
  }

  lemma MarriageScoreStrings()
    ensures forall r :: r in MARRIAGE ==> r.savScore == Some(MARRIAGE_SAV)
  {
  }

  /**
   * The marriage sample: only the nuance agent (88 against an estimate
   * between 72 and 73) conflicts, so the engine arbitrates, logs one
   * entry and lands between 81.6 and 82; the scores span 30, so agreement
   * is low; the tier is average.
   */
  lemma MarriageSample()
    ensures ConsensusOf(MARRIAGE, "marriage").Success?
    ensures ConsensusOf(MARRIAGE, "marriage").value.strategyUsed == NuanceArbitration
    ensures 81.6 < ConsensusOf(MARRIAGE, "marriage").value.finalScore < 82.0
    ensures ConsensusOf(MARRIAGE, "marriage").value.conflictsDetected == 1
    ensures ConsensusOf(MARRIAGE, "marriage").value.agreementLevel == LowAgreement
    ensures ConsensusOf(MARRIAGE, "marriage").value.savTier == Average
    ensures LogEntriesFor(MARRIAGE, "marriage") == [ArbitrationEntry("marriage")]
  {
    var rs := MARRIAGE;
    var initial := InitialScore(rs, WeightsFor("marriage"));
    MarriageInitialScore();
    assert EarliestNuanceConflict(rs, initial, 3);
    ArbitrationCase(rs, "marriage", 3);
    MarriageConflicts();
    ResultShape(rs, "marriage");
    LowAgreementIffWide(rs);
    assert rs[3].score - rs[1].score > 20.0;
    Numerals.SampleScoreStrings();
    MarriageScoreStrings();
    UniformReadingAverage(rs, MARRIAGE_SAV, 28);
  }

  const HEALTH_SAV: string := "26/48"

  const HEALTH: seq<AgentResponse> := [
    Sample("integration_specialist", "health", 65.0, 0.80, 0.60, HEALTH_SAV),
    Sample("mathematics_validator", "health", 62.0, 0.90, 0.60, HEALTH_SAV),
    Sample("risk_assessor", "health", 55.0, 0.85, 0.60, HEALTH_SAV),
    Sample("nuance_specialist", "health", 68.0, 0.75, 0.60, HEALTH_SAV)
  ]

  lemma HealthScoreStrings()
    ensures forall r :: r in HEALTH ==> r.savScore == Some(HEALTH_SAV)
  {
  }

  /**
   * The health sample: the scores span 13, within the threshold, so the
   * run is unanimous, with medium agreement, dasha-adjusted, and an
   * average tier.
   */
  lemma HealthSample()
    ensures ConsensusOf(HEALTH, "health").Success?
    ensures ConsensusOf(HEALTH, "health").value.strategyUsed == Unanimous
    ensures ConsensusOf(HEALTH, "health").value.agreementLevel == MediumAgreement
    ensures ConsensusOf(HEALTH, "health").value.dashaAdjusted
    ensures ConsensusOf(HEALTH, "health").value.savTier == Average
  {
    var rs := HEALTH;
    PositiveConfidencesGivePositiveTotal(rs, "health");
    forall i, j | 0 <= i < |rs| && 0 <= j < |rs| ensures rs[i].score - rs[j].score <= CONFLICT_THRESHOLD {
      assert i == 0 || i == 1 || i == 2 || i == 3;
      assert j == 0 || j == 1 || j == 2 || j == 3;
    }
    NarrowSpreadIsUnanimous(rs, "health");
    HighAgreementIffNarrow(rs);
    LowAgreementIffWide(rs);
    assert rs[3].score - rs[2].score > 10.0;
    ResultShape(rs, "health");
    assert rs[0].dashaWeight.Some?;
    Numerals.SampleScoreStrings();
    HealthScoreStrings();
    UniformReadingAverage(rs, HEALTH_SAV, 26);
  }
}
