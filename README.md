# Multi-agent consensus engine

A model of the consensus engine of the multi-agent consensus demo. An
engine object keeps a resolution log. Its single operation,
`calculate_consensus`, takes a non-empty batch of agent responses for a
domain (career, marriage, health, or anything else) and produces a
consensus result. The steps are:

1. **Weighted initial estimate.** Each response is weighted by its agent's
   base weight for the domain times its confidence. When the response
   carries a dasha weight, the confidence is first scaled by
   0.5 + 0.5·dasha. A domain the engine has no table for uses the career
   table, and an unknown agent gets base weight 0.25. When the weights do
   not sum to a positive value, the estimate is 50.
2. **Auxiliary (SAV) tier.** The text before the first `/` of every
   non-empty SAV string is read as an integer and the results are
   averaged. The default average is 28. An average of at least 30 is
   above average, at least 25 is average, anything lower is below
   average.
3. **Conflict detection.** A response conflicts when its score is more
   than 15 away from the initial estimate.
4. **Strategy choice.**
   - With no conflicts, the run is *unanimous* and keeps the estimate.
   - When a response of the `nuance_specialist` agent conflicts in a
     marriage or health run, the engine *arbitrates*: the final score is
     0.6 × that response's score + 0.4 × the estimate, and one entry is
     appended to the log.
   - Otherwise it takes the *weighted majority*: the confidence-weighted
     mean of the three most confident responses. The ranking is a stable
     descending sort, so ties keep input order.
5. **Labels.** Agreement is high, medium or low by the spread of the
   scores (≤ 10, ≤ 20, more). The final confidence is the mean
   confidence, +0.1 for high agreement and −0.1 for low, clamped to
   [0, 1]. Certainty is high above 0.8, medium above 0.5, low otherwise.
6. **Result fields.** The result also carries the number of conflicts
   (as both "detected" and "resolved"), each agent's base weight times
   stated confidence, and whether any dasha weight was used.

The project has one module per concern:

- `Options`: Option and Result.
- `Responses`: the data model.
- `Weights`: the weight tables and threshold.
- `Numerals`: reading a numerator.
- `Aggregates`: sums, weighted means, extremes.
- `Ranking`: the stable top-three selection.
- `Sav`: the tier.
- `Consensus`: the step-by-step specification `ConsensusOf`, the lemmas
  about each branch, and the imperative accumulation loop.
- `Engine`: the `ConsensusEngine` class, whose `resolutionLog : seq<LogEntry>`
  field is appended to in place.
- `Scenarios`: the three sample batches the repository ships.

Scores, confidences and weights are exact `real`s.

## Model

| member | source | states |
|---|---|---|
| Engine.ConsensusEngine.constructor | test_local.py:82-83 | A new engine starts with an empty resolution log. |
| Engine.ConsensusEngine.CalculateConsensus | test_local.py:85-149 | The result equals `ConsensusOf` of the batch and domain. The log becomes the old log followed by `LogEntriesFor`: at most one entry, added only when arbitrating, with earlier entries untouched. Only a non-empty batch is required. |
| Engine.ConsensusEngine.ResolveConflicts | test_local.py:114-128 | Given the conflicts of the initial estimate, returns `Resolve`. It appends to the log exactly the entries of the resolution taken: one arbitration entry, or none for the other strategies and for the division-by-zero failure. |
| Consensus.ScanResponses | test_local.py:87-106 | The loop over the batch returns Σ score·w, Σ w over the effective weights, whether any response has a dasha weight, and exactly the SAV numerators read, in input order. |
| Consensus.AddTerm | test_local.py:93-100 | One step extends the running weighted sum and weight total from the first i responses to the first i+1, and reports whether response i used its dasha weight. |
| Consensus.Weigh | test_local.py:93-98 | The effective weight is the base weight (0.25 for an unknown agent) times the confidence, scaled by 0.5 + 0.5·dasha when the response has a dasha weight. It reports dasha use exactly when a dasha weight is present. |
| Consensus.CollectSav | test_local.py:101-106 | Extends the numerators read from the first i responses to the first i+1. An absent, empty or unreadable string adds nothing. |
| Consensus.EffectiveConfidence | test_local.py:94-96 | Defines the effective confidence: the stated confidence, multiplied by 0.5 + 0.5·dasha when the response carries a dasha weight. |
| Consensus.EffectiveWeight | test_local.py:93-98 | Defines a response's effective weight: its base weight times its effective confidence. |
| Consensus.EffectiveTerms | test_local.py:92-100 | Pairs each response's score with its effective weight, in input order, one term per response. |
| Consensus.InitialScore | test_local.py:108 | Defines the initial estimate: Σ score·w / Σ w over the effective terms when Σ w is positive, otherwise 50. |
| Consensus.DashaAdjusted | test_local.py:95-97 | Defines the dasha flag: some response of the batch carries a dasha weight. |
| Consensus.EffectiveConfidenceBetween | test_local.py:94-96 | Without a dasha weight the effective confidence is the stated one. With a dasha weight in [0, 1] it lies between half the stated confidence and the stated confidence. |
| Consensus.EffectiveWeightNonNegative | test_local.py:93-98 | For base weights in [0, 1] and responses whose confidences and dasha weights lie in [0, 1], effective weights are non-negative. |
| Consensus.InitialScoreWithinScores | test_local.py:108 | For base weights in [0, 1] and responses whose confidences and dasha weights lie in [0, 1], when the effective weights have a positive total, the initial estimate lies between the lowest and highest score of the batch. |
| Consensus.PositiveConfidencesGivePositiveTotal | test_local.py:92-108 | With confidences in (0, 1] and dasha weights in [0, 1], the weight total is positive, so the estimate is the weighted mean and not the fallback 50. |
| Consensus.ZeroConfidenceGivesNeutralScore | test_local.py:108 | When every confidence is 0, the estimate is the fallback 50. |
| Consensus.IsConflict | test_local.py:112 | Defines a conflict: the score differs from the reference by more than 15 in absolute value. |
| Consensus.Conflicts | test_local.py:112 | The conflicts are exactly the batch's responses more than 15 from the reference score, and never more than the batch holds. |
| Consensus.ConflictCount | test_local.py:144-145 | The number of conflicts equals the number of positions whose score is more than 15 from the reference. |
| Consensus.ConflictPositionsOfPrefix | test_local.py:112 | Adding a response adds its position to the conflicting positions exactly when it conflicts. |
| Consensus.NoConflictsIffAllClose | test_local.py:112-114 | The conflict list is empty exactly when no response is more than 15 from the reference. |
| Consensus.FirstNuance | test_local.py:115 | The chosen response is a member of the conflicts and belongs to `nuance_specialist`. None is chosen only when no conflict belongs to it. |
| Consensus.FirstNuanceOfAppend | test_local.py:115 | The first `nuance_specialist` response of a concatenation is the first of the left part if there is one, otherwise the first of the right part. |
| Consensus.NoNuanceChoice | test_local.py:115 | No nuance response is chosen exactly when no `nuance_specialist` response of the batch conflicts. |
| Consensus.EarliestNuanceChoice | test_local.py:115 | The response chosen is the first conflicting `nuance_specialist` response in input order. |
| Ranking.Precedes | test_local.py:121 | Defines the ranking order of the sort: higher stated confidence first, and between equal confidences the earlier response first, as a stable sort with `reverse=True` keeps ties. |
| Consensus.MajorityTerms | test_local.py:121-123 | The score and stated confidence of each of the (up to) three most confident responses, in ranking order. |
| Consensus.Resolve | test_local.py:114-128 | Defines the strategy choice. No conflicts gives unanimous with the estimate. Otherwise a conflicting nuance response in a marriage or health run gives arbitration with 0.6·its score + 0.4·estimate and one log entry. Otherwise the top-three confidence-weighted mean gives weighted majority, or the error when the confidences sum to zero. |
| Consensus.ConsensusOf | test_local.py:85-149 | Defines one consensus computation end to end. It takes the domain's weights, the initial estimate and `Resolve`, and propagates the error. It then fills the result from the final score and strategy, the clamped confidence and its certainty, the agreement, the conflict count twice, the contributions, the dasha flag and the SAV tier. |
| Consensus.UnanimousIffNoConflicts | test_local.py:114-128 | The run is unanimous exactly when no response conflicts with the estimate. The final score is then the estimate and nothing is logged. |
| Consensus.NarrowSpreadIsUnanimous | test_local.py:108-128 | For responses whose confidences and dasha weights lie in [0, 1]: if the scores are pairwise within 15 and the weight total is positive, the run succeeds unanimously, because the estimate lies among the scores. |
| Consensus.ArbitrationCase | test_local.py:115-119 | In a marriage or health run whose first conflicting nuance response is at position k, the run arbitrates. The final score is 0.6·score(k) + 0.4·estimate, which lies between the two. Exactly the entry `{NUANCE_ARBITRATION, "<domain> prioritizes D9"}` is logged. |
| Consensus.ArbitrationOnlyWhenNuanceConflicts | test_local.py:115-116 | Arbitration happens only in a marriage or health run that has a conflicting `nuance_specialist` response. |
| Consensus.MajorityCase | test_local.py:120-125 | When there are conflicts and no arbitration, the run fails exactly when the top three confidences sum to zero. Otherwise it is a weighted majority scoring Σ score·conf / Σ conf over the top three. When those three confidences are non-negative, with a positive sum, that score lies within their lowest and highest score. Nothing is logged. |
| Consensus.PositiveConfidencesNeverFail | test_local.py:121-124 | With positive confidences the majority division never divides by zero, so every run succeeds. |
| Consensus.ResultShape | test_local.py:136-149 | A result names the requested domain and is never MathOverride. It detects and resolves one conflict per conflicting position. Its contributions are keyed by exactly the batch's agent ids. It is dasha-adjusted exactly when some response has a dasha weight. Its confidence lies in [0, 1]. |
| Consensus.ArbitrationEntry | test_local.py:117 | Defines the log entry of an arbitration: strategy "NUANCE_ARBITRATION" and reason "<domain> prioritizes D9". |
| Consensus.LogEntriesFor | test_local.py:116-117 | A run appends at most one log entry, exactly when it succeeds by arbitration, and that entry is the arbitration entry for the domain. |
| Consensus.AgreementFor | test_local.py:131 | Defines the agreement label of a spread: high up to 10, medium up to 20, low above. |
| Consensus.AgreementOf | test_local.py:130-131 | The agreement label of the batch's spread, max score − min score. |
| Consensus.AverageConfidence | test_local.py:132 | Defines the mean confidence: the sum of the stated confidences divided by the batch size. |
| Consensus.Adjustment | test_local.py:133 | Defines the confidence adjustment: +0.1 for high agreement, −0.1 for low, 0 for medium. |
| Consensus.HighAgreementIffNarrow | test_local.py:130-131 | Agreement is high exactly when every two scores are within 10 of each other. |
| Consensus.LowAgreementIffWide | test_local.py:130-131 | Agreement is low exactly when some two scores are more than 20 apart. |
| Consensus.ScoreRange | test_local.py:130 | The spread bounds every difference of two scores and is itself such a difference, i.e. max − min. |
| Consensus.AgreementMonotone | test_local.py:131 | A wider spread never gives a higher agreement label. |
| Consensus.AverageConfidenceInUnit | test_local.py:132 | The mean of confidences in [0, 1] lies in [0, 1]. |
| Consensus.Clamp | test_local.py:133 | The clamp lies in [0, 1], leaves values in [0, 1] unchanged, and maps values below 0 to 0 and above 1 to 1. |
| Consensus.FinalConfidence | test_local.py:132-133 | The adjusted, clamped confidence always lies in [0, 1]. |
| Consensus.CertaintyFor | test_local.py:134 | Defines the certainty label: high above 0.8, medium above 0.5, low otherwise. |
| Consensus.CertaintyMonotone | test_local.py:134 | A higher final confidence never gives a lower certainty label. |
| Consensus.Contributions | test_local.py:146 | Defines the contribution map: each response, in input order, sets its agent's entry to base weight × stated confidence, so a later response of the same agent overwrites an earlier one. |
| Consensus.ContributionKeys | test_local.py:146 | The contribution map has exactly the batch's agent ids as keys. |
| Consensus.ContributionOfLastResponse | test_local.py:146 | An agent's contribution is base weight × stated confidence of its last response in the batch: dasha is ignored and later duplicates overwrite earlier ones. |
| Weights.WeightsFor | test_local.py:60-86 | Every domain's table assigns each of the four agents a weight in (0, 1]. A domain without a table uses the career table. |
| Weights.BaseWeight | test_local.py:93 | An agent the table does not know gets 0.25, and base weights from a table in [0, 1] lie in [0, 1]. |
| Weights.UnknownDomainUsesCareer | test_local.py:86 | Every domain other than career, marriage and health uses the career weights. |
| Numerals.ParseInt | test_local.py:103 | Defines the integer reading: an optional '+' or '-' followed by at least one decimal digit gives its value (negated after '-'); anything else gives nothing. |
| Numerals.ParseNumerator | test_local.py:103 | Defines the numerator of a SAV string: `ParseInt` of the text before the first '/'. A failed reading is the "nothing" that the bare `except` turns into a skip. |
| Numerals.BeforeSlash | test_local.py:103 | The text before the first '/' is a prefix without '/', followed in the input by a '/' unless it is the whole string. |
| Numerals.ParseSigned | test_local.py:103 | Reading back a decimal integer, with a sign when negative, gives the integer. |
| Numerals.ParseNumeratorOfFraction | test_local.py:103 | The numerator of "n/d" is n, whatever the denominator text. |
| Numerals.ParseNumeratorWithoutSlash | test_local.py:103 | A string without '/' is read whole. |
| Numerals.SampleScoreStrings | test_local.py:153-172 | The sample strings "32/48", "28/48" and "26/48" read as 32, 28 and 26. |
| Sav.SavNumerator | test_local.py:101-106 | Defines one response's contribution to the SAV list: the numerator of its SAV string when the string is present and non-empty and reads as an integer, otherwise nothing. |
| Sav.SavNumerators | test_local.py:101-106 | Defines the list of numerators collected from a batch, in input order, one per response that yields one. |
| Sav.AverageSav | test_local.py:109 | Defines the SAV average: the sum of the numerators divided by their count, or 28 when none were collected. |
| Sav.TierOf | test_local.py:110 | Defines the tier of an average: above average from 30, average from 25, below average otherwise. |
| Sav.SavTierOf | test_local.py:109-110 | The tier of the average of the batch's collected numerators. |
| Sav.SavNumeratorsAreTheReadOnes | test_local.py:101-106 | A number is collected exactly when some response's non-empty SAV string reads as it. |
| Sav.NothingReadGivesAverage | test_local.py:101-110 | When no SAV string reads as a number, nothing is collected and the tier is average, from the default 28. |
| Sav.UniformNumerators | test_local.py:101-106 | When every response yields the numerator n, the collected list is n once per response. |
| Sav.UniformFractionAverage | test_local.py:101-109 | In a non-empty batch whose every SAV string is "n/d", the average is n. |
| Sav.UniformReadingAverage | test_local.py:101-109 | In a non-empty batch where every response carries the same non-empty string that reads as n, the average is n. |
| Sav.TierMonotone | test_local.py:110 | A higher average never gives a lower tier. |
| Ranking.Insert | test_local.py:121 | Insertion adds exactly the one index to the multiset of ranked indices. |
| Ranking.InsertKeepsRanked | test_local.py:121 | Inserting a new index into a list ranked by confidence (descending, ties in input order) keeps it ranked. |
| Ranking.ByConfidence | test_local.py:121 | The ranking is a permutation of all the batch's indices, ordered by confidence descending with ties in input order, as a stable reverse sort produces. |
| Ranking.TopThree | test_local.py:121 | The selection has min(3, n) indices, in ranking order. |
| Ranking.TopThreeAreMostConfident | test_local.py:121 | A selected response is at least as confident as any response left out, and among equal confidences it came earlier. |
| Ranking.TopThreeDistinct | test_local.py:121 | The selection never repeats a response. |
| Aggregates.ScoreSumBetween | test_local.py:122-123 | With non-negative weights, Σ score·w lies between lo·Σ w and hi·Σ w for any bounds lo, hi of the scores. |
| Aggregates.MeanWithinExtremes | test_local.py:124 | A weighted mean with non-negative weights and a positive total lies between the smallest and largest score. |
| Aggregates.AverageBetween | test_local.py:132 | The plain mean of values within bounds lies within those bounds. |
| Aggregates.WeightSumPositive | test_local.py:123 | Positive weights have a positive sum. |
| Scenarios.CareerSample | test_local.py:152-157 | The career sample is unanimous, with high agreement and an above-average tier. |
| Scenarios.CareerCertainty | test_local.py:152-157 | The career sample's confidence is 0.8575 + 0.1 = 0.9575, so its certainty is high. |
| Scenarios.MarriageInitialScore | test_local.py:160-165 | The marriage sample's estimate lies between 72 and 73. |
| Scenarios.MarriageConflicts | test_local.py:160-165 | In the marriage sample only the nuance agent's response (88) conflicts. |
| Scenarios.MarriageSample | test_local.py:160-165 | The marriage sample arbitrates to a final score between 81.6 and 82, with one conflict. Its agreement is low and its tier average. It logs exactly the marriage arbitration entry. |
| Scenarios.HealthSample | test_local.py:168-173 | The health sample is unanimous, with medium agreement. It is dasha-adjusted and its tier is average. |

## Left out

- `ConsensusResult.to_dict` (test_local.py:45-57): output formatting only, including its rounding to 2 and 3 decimals.
- `Consensus.Contributions`: the `round(…, 3)` of each contribution (test_local.py:146) is not modelled. Contributions are exact products, because decimal rounding of binary floats has no exact-real counterpart.
- The printing harness that runs the samples (test_local.py:175-211): I/O only. The sample batches themselves are modelled as constants in `Scenarios`.
- Sav.AverageSav: computes the average as an exact real. At test_local.py:109, outside the `try`, the source divides two Python ints with `/`. That gives the correctly rounded double of the exact quotient, and it raises an uncaught `OverflowError` only when the absolute value of the quotient exceeds the largest double (about 1.8·10^308). Large numerators that cancel in the sum do not raise. The model gives a tier in every case.
- Numerals.ParseInt: reads a numerator of any length. Since Python 3.11, `int()` at test_local.py:103 rejects a decimal string of more than 4300 digits with a `ValueError`. The bare `except` at test_local.py:105 swallows it, so the source skips that response, while the model collects its numerator.
- Floating-point behaviour is not modelled: scores, confidences and weights are exact reals. Sums and thresholds near 10, 15, 20, 0.5 and 0.8 may differ from IEEE doubles.
- `Numerals.ParseInt`: reads an optional sign followed by ASCII digits only. Python's `int()` also accepts surrounding whitespace, `_` separators and non-ASCII digits, which the model rejects.
- The payload fields the engine never reads are not part of `AgentResponse`: interpretation, certainty label, and supporting and contradicting factors. The constant `final_interpretation` text is not part of `ConsensusResult`.
- The agreement, certainty, tier and strategy labels are datatypes rather than the source's strings; the log entry keeps its two strings.
- `Engine.ConsensusEngine.CalculateConsensus`: the `ZeroDivisionError` the source raises when the top three confidences sum to zero (test_local.py:124) is the result `Failure(MajorityWeightZero)`. As in the source, nothing is logged on that path.
- `Engine.ConsensusEngine.CalculateConsensus`: requires a non-empty batch. The source raises from `max()` of an empty sequence (test_local.py:130).
- `MathOverride` (test_local.py:10) is declared but never produced, and `ResultShape` proves that.
- Concurrent use of one engine is not modelled.
