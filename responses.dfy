/**
 * The values the consensus engine consumes and produces: the closed
 * enumerations, one agent's response, the consensus result and the
 * entries of the resolution log.
 */
module Responses {
  import opened Options

  /** The ways a consensus can be reached. */
  datatype ResolutionStrategy = Unanimous | WeightedMajority | NuanceArbitration | MathOverride

  /** How confident the engine is in its final score. */
  datatype CertaintyLevel = High | Medium | Low

  /** How closely the agents' scores agree, by their spread. */
  datatype AgreementLevel = HighAgreement | MediumAgreement | LowAgreement

  /** Classification of the average auxiliary (SAV) numerator. */
  datatype SavTier = AboveAverage | Average | BelowAverage

  /**
   * One agent's opinion for one domain. The free-text interpretation,
   * the agent's own certainty label and the factor lists are not read by
   * the engine and are not part of this value.
   */
  datatype AgentResponse = AgentResponse(
    agentId: string,
    domain: string,
    score: real,
    confidence: real,
    dashaWeight: Option<real>,
    savScore: Option<string>
  )

  /** The stated ranges of a response: confidence and dasha weight in [0, 1]. */
  predicate WellFormed(r: AgentResponse)
  {
    0.0 <= r.confidence <= 1.0 &&
    (r.dashaWeight.Some? ==> 0.0 <= r.dashaWeight.value <= 1.0)
  }

  /** The engine's answer for one (domain, batch) pair. */
  datatype ConsensusResult = ConsensusResult(
    domain: string,
    finalScore: real,
    confidence: real,
    certaintyLevel: CertaintyLevel,
    agreementLevel: AgreementLevel,
    strategyUsed: ResolutionStrategy,
    conflictsDetected: nat,
    conflictsResolved: nat,
    agentContributions: map<string, real>,
    dashaAdjusted: bool,
    savTier: SavTier
  )

  /** One entry `{strategy, reason}` of the resolution log. */
  datatype LogEntry = LogEntry(strategy: string, reason: string)

  /**
   * The one way a non-empty batch can make the engine fail: the three
   * most confident responses have confidences summing to zero, so the
   * weighted-majority mean divides by zero.
   */
  datatype ConsensusError = MajorityWeightZero
}
