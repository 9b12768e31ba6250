/** The engine's fixed configuration: base weights per domain and agent, and the conflict threshold. */
module Weights {

  const DEFAULT_DOMAIN: string := "career"
  const DEFAULT_AGENT_WEIGHT: real := 0.25
  const CONFLICT_THRESHOLD: real := 15.0

  const AGENTS: set<string> :=
    {"integration_specialist", "mathematics_validator", "risk_assessor", "nuance_specialist"}

  const DOMAIN_WEIGHTS: map<string, map<string, real>> := map[
    "career" := map[
      "integration_specialist" := 0.30,
      "mathematics_validator" := 0.20,
      "risk_assessor" := 0.25,
      "nuance_specialist" := 0.25],
    "marriage" := map[
      "integration_specialist" := 0.20,
      "mathematics_validator" := 0.10,
      "risk_assessor" := 0.30,
      "nuance_specialist" := 0.40],
    "health" := map[
      "integration_specialist" := 0.25,
      "mathematics_validator" := 0.15,
      "risk_assessor" := 0.35,
      "nuance_specialist" := 0.25]
  ]

  /** Every base weight of a table lies in [0, 1]. */
  predicate UnitWeights(weights: map<string, real>)
  {
    forall a :: a in weights ==> 0.0 <= weights[a] <= 1.0
  }

  /**
   * The weight table of a domain; a domain without a table of its own
   * uses the career table.
   */
  function WeightsFor(domain: string): (w: map<string, real>)
    ensures w.Keys == AGENTS
    ensures UnitWeights(w)
    ensures forall a :: a in w ==> w[a] > 0.0
    ensures domain !in DOMAIN_WEIGHTS ==> w == DOMAIN_WEIGHTS[DEFAULT_DOMAIN]
  {
    if domain in DOMAIN_WEIGHTS then DOMAIN_WEIGHTS[domain] else DOMAIN_WEIGHTS[DEFAULT_DOMAIN]
  }

  /** The base weight of an agent in a table, 0.25 for an agent the table does not know. */
  function BaseWeight(weights: map<string, real>, agentId: string): (b: real)
    ensures agentId !in weights ==> b == DEFAULT_AGENT_WEIGHT
    ensures UnitWeights(weights) ==> 0.0 <= b <= 1.0
  {
    if agentId in weights then weights[agentId] else DEFAULT_AGENT_WEIGHT
  }

  /** Only the career, marriage and health domains have tables; every other falls back to career. */
  lemma UnknownDomainUsesCareer(domain: string)
    requires domain != "career" && domain != "marriage" && domain != "health"
    ensures WeightsFor(domain) == WeightsFor("career")
  {
  }
}
