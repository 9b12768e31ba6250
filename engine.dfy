/**
 * The consensus engine: an object holding the resolution log, whose one
 * operation runs a batch of agent responses through the weighted
 * estimate, conflict detection and the choice of strategy, and appends to
 * the log when it arbitrates.
 */
module Engine {
  import opened Options
  import opened Responses
  import opened Weights
  import opened Aggregates
  import opened Sav
  import opened Consensus

  class ConsensusEngine {
    /** The arbitration decisions taken so far, oldest first. */
    var resolutionLog: seq<LogEntry>

    /** A new engine starts with an empty log. */
    constructor()
      ensures resolutionLog == []
    {
      resolutionLog := [];
    }

    /**
     * Picks the strategy for a batch whose conflicting responses with
     * respect to the initial estimate are `conflicts`: keep the estimate
     * when there are none, defer to the nuance agent in a marriage or
     * health run, or else take the confidence-weighted mean of the three
     * most confident responses. Only arbitration writes to the log.
     */
    method ResolveConflicts(responses: seq<AgentResponse>, domain: string, initialScore: real,
                            conflicts: seq<AgentResponse>)
      returns (outcome: Result<Resolution, ConsensusError>)
      requires conflicts == Conflicts(responses, initialScore)
      modifies this
      ensures outcome == Resolve(responses, domain, initialScore)
      ensures resolutionLog == old(resolutionLog) + (if outcome.Success? then outcome.value.logged else [])
    {
      if conflicts != [] {
        var nuanceConflict := FirstNuance(conflicts);
        if nuanceConflict.Some? && domain in ARBITRATION_DOMAINS {
          resolutionLog := resolutionLog + [ArbitrationEntry(domain)];
          var finalScore := 0.6 * nuanceConflict.value.score + 0.4 * initialScore;
          outcome := Success(Resolution(NuanceArbitration, finalScore, [ArbitrationEntry(domain)]));
        } else {
          var top := MajorityTerms(responses);
          var recalcSum, recalcWeight := ScoreSum(top), WeightSum(top);
          if recalcWeight == 0.0 {
            return Failure(MajorityWeightZero);
          }
          outcome := Success(Resolution(WeightedMajority, recalcSum / recalcWeight, []));
        }
      } else {
        outcome := Success(Resolution(Unanimous, initialScore, []));
      }
    }

    /**
     * Computes the consensus of a non-empty batch: the result is that
     * of the step-by-step definition, and the log grows by exactly the
     * entry an arbitration records (or by nothing).
     */
    method CalculateConsensus(responses: seq<AgentResponse>, domain: string)
      returns (result: Result<ConsensusResult, ConsensusError>)
      requires |responses| > 0
      modifies this
      ensures result == ConsensusOf(responses, domain)
      ensures resolutionLog == old(resolutionLog) + LogEntriesFor(responses, domain)
    {
      var weights := WeightsFor(domain);
      var weightedSum, weightTotal, dashaAdjusted, savScores := ScanResponses(responses, weights);

      var initialScore := if weightTotal > 0.0 then weightedSum / weightTotal else NEUTRAL_SCORE;
      assert initialScore == InitialScore(responses, weights);
      var savTier := TierOf(AverageSav(savScores));

      var conflicts := Conflicts(responses, initialScore);
      var outcome := ResolveConflicts(responses, domain, initialScore, conflicts);
      if outcome.Failure? {
        return Failure(outcome.error);
      }

      var agreementLevel := AgreementOf(responses);
      var finalConfidence := FinalConfidence(responses);
      var certainty := CertaintyFor(finalConfidence);

      result := Success(ConsensusResult(
        domain := domain,
        finalScore := outcome.value.finalScore,
        confidence := finalConfidence,
        certaintyLevel := certainty,
        agreementLevel := agreementLevel,
        strategyUsed := outcome.value.strategy,
        conflictsDetected := |conflicts|,
        conflictsResolved := |conflicts|,
        agentContributions := Contributions(responses, weights),
        dashaAdjusted := dashaAdjusted,
        savTier := savTier));
    }
  }
}
