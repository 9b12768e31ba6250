/**
 * One consensus computation, step by step: the weighted initial estimate,
 * the auxiliary tier, conflict detection, the choice of resolution
 * strategy, and the agreement and confidence labels. The functions here
 * specify the engine's single operation; the lemmas state what it promises.
 */
module Consensus {
  import opened Options
  import opened Responses
  import opened Weights
  import opened Aggregates
  import opened Ranking
  import opened Sav
  import Numerals

  /** The initial score when the effective weights do not sum to a positive value. */
  const NEUTRAL_SCORE: real := 50.0

  /** The agent whose conflicting opinion can be deferred to. */
  const NUANCE_AGENT: string := "nuance_specialist"

  /** The domains in which the engine defers to that agent. */
  const ARBITRATION_DOMAINS: set<string> := {"marriage", "health"}

  // ----- Step 1: the weighted initial estimate -----

  /** The stated confidence, scaled by 0.5 + 0.5·dasha when a dasha weight is present. */
  function EffectiveConfidence(r: AgentResponse): real
  {
    match r.dashaWeight
    case Some(d) => r.confidence * (0.5 + 0.5 * d)
    case None => r.confidence
  }

  /** A dasha weight in [0, 1] keeps the effective confidence between half the stated one and the stated one. */
  lemma EffectiveConfidenceBetween(r: AgentResponse)
    requires WellFormed(r)
    ensures r.dashaWeight.None? ==> EffectiveConfidence(r) == r.confidence
    ensures r.confidence / 2.0 <= EffectiveConfidence(r) <= r.confidence
  {
    match r.dashaWeight
    case Some(d) =>
      DashaScaling(r.confidence, d, EffectiveConfidence(r));
    case None =>
      assert EffectiveConfidence(r) == r.confidence;
  }

  /** Scaling by 0.5 + 0.5·d for d in [0, 1] keeps a non-negative value between its half and itself. */
  lemma DashaScaling(c: real, d: real, scaled: real)
    requires 0.0 <= c && 0.0 <= d <= 1.0 && scaled == c * (0.5 + 0.5 * d)
    ensures c / 2.0 <= scaled <= c
  {
    ScaleMonotone(0.0, d, c);
    ScaleMonotone(d, 1.0, c);
    assert c * (0.5 + 0.5 * d) == 0.5 * c + 0.5 * (d * c);
  }

  function EffectiveWeight(weights: map<string, real>, r: AgentResponse): real
  {
    BaseWeight(weights, r.agentId) * EffectiveConfidence(r)
  }

  /** Each response's score with its effective weight. */
  function EffectiveTerms(rs: seq<AgentResponse>, weights: map<string, real>): (ps: seq<Weighted>)
    ensures |ps| == |rs|
  {
    seq(|rs|, k requires 0 <= k < |rs| => Weighted(rs[k].score, EffectiveWeight(weights, rs[k])))
  }

  /** Σ score·w / Σ w over the effective weights w, or 50 when Σ w is not positive. */
  function InitialScore(rs: seq<AgentResponse>, weights: map<string, real>): real
  {
    var ps := EffectiveTerms(rs, weights);
    if WeightSum(ps) > 0.0 then ScoreSum(ps) / WeightSum(ps) else NEUTRAL_SCORE
  }

  /** Some response carries a dasha weight. */
  predicate DashaAdjusted(rs: seq<AgentResponse>)
  {
    exists k :: 0 <= k < |rs| && rs[k].dashaWeight.Some?
  }

  /**
   * For well-formed responses whose effective weights have a positive
   * total, the initial score lies between the lowest and the highest
   * score of the batch.
   */
  lemma InitialScoreWithinScores(rs: seq<AgentResponse>, weights: map<string, real>)
    requires |rs| > 0 && UnitWeights(weights)
    requires forall k :: 0 <= k < |rs| ==> WellFormed(rs[k])
    requires WeightSum(EffectiveTerms(rs, weights)) > 0.0
    ensures var xs := ScoresOf(EffectiveTerms(rs, weights));
      Min(xs) <= InitialScore(rs, weights) <= Max(xs)
  {
    var ps := EffectiveTerms(rs, weights);
    forall k | 0 <= k < |ps| ensures 0.0 <= ps[k].weight {
      EffectiveWeightNonNegative(weights, rs[k]);
    }
    MeanWithinExtremes(ps);
  }

  lemma EffectiveWeightNonNegative(weights: map<string, real>, r: AgentResponse)
    requires UnitWeights(weights) && WellFormed(r)
    ensures 0.0 <= EffectiveWeight(weights, r)
  {
    var b, c := BaseWeight(weights, r.agentId), EffectiveConfidence(r);
    EffectiveConfidenceBetween(r);
    ScaleMonotone(0.0, b, c);
  }

  /**
   * With positive stated confidences the effective weights have a
   * positive total, so the initial score is their weighted mean rather
   * than the neutral fallback.
   */
  lemma PositiveConfidencesGivePositiveTotal(rs: seq<AgentResponse>, domain: string)
    requires |rs| > 0
    requires forall k :: 0 <= k < |rs| ==> WellFormed(rs[k]) && rs[k].confidence > 0.0
    ensures WeightSum(EffectiveTerms(rs, WeightsFor(domain))) > 0.0
  {
    var weights := WeightsFor(domain);
    var ps := EffectiveTerms(rs, weights);
    forall k | 0 <= k < |ps| ensures ps[k].weight > 0.0 {
      var r := rs[k];
      EffectiveConfidenceBetween(r);
      PositiveProduct(BaseWeight(weights, r.agentId), EffectiveConfidence(r));
    }
    WeightSumPositive(ps);
  }

  /** With every stated confidence zero, the initial score is the neutral 50. */
  lemma ZeroConfidenceGivesNeutralScore(rs: seq<AgentResponse>, weights: map<string, real>)
    requires forall k :: 0 <= k < |rs| ==> rs[k].confidence == 0.0
    ensures InitialScore(rs, weights) == NEUTRAL_SCORE
  {
    var ps := EffectiveTerms(rs, weights);
    forall k | 0 <= k < |ps| ensures ps[k].weight == 0.0 {
      assert EffectiveConfidence(rs[k]) == 0.0;
    }
    WeightSumOfZeros(ps);
  }

  // ----- Step 3: conflict detection -----

  function Abs(x: real): real
  {
    if x < 0.0 then -x else x
  }

  /** A response conflicts when its score is more than the threshold away from the reference. */
  predicate IsConflict(r: AgentResponse, reference: real)
  {
    Abs(r.score - reference) > CONFLICT_THRESHOLD
  }

  /** The conflicting responses, in input order. */
  function Conflicts(rs: seq<AgentResponse>, reference: real): (cs: seq<AgentResponse>)
    ensures |cs| <= |rs|
    ensures forall x :: x in cs <==> x in rs && IsConflict(x, reference)
  {
    if rs == [] then []
    else
      var last := rs[|rs| - 1];
      Conflicts(rs[..|rs| - 1], reference) + (if IsConflict(last, reference) then [last] else [])
  }

  /** The positions of the conflicting responses. */
  function ConflictPositions(rs: seq<AgentResponse>, reference: real): set<int>
  {
    set k | 0 <= k < |rs| && IsConflict(rs[k], reference)
  }

  lemma ConflictPositionsOfPrefix(rs: seq<AgentResponse>, reference: real)
    requires rs != []
    ensures var n := |rs| - 1;
      ConflictPositions(rs, reference) ==
      ConflictPositions(rs[..n], reference) + (if IsConflict(rs[n], reference) then {n} else {})
  {
    var n := |rs| - 1;
    var extra: set<int> := if IsConflict(rs[n], reference) then {n} else {};
    forall k ensures k in ConflictPositions(rs, reference) <==> k in ConflictPositions(rs[..n], reference) + extra {
      if 0 <= k < n {
        assert rs[..n][k] == rs[k];
      }
    }
  }

  /** The number of conflicts is the number of positions holding a conflicting response. */
  lemma {:induction false} ConflictCount(rs: seq<AgentResponse>, reference: real)
    ensures |Conflicts(rs, reference)| == |ConflictPositions(rs, reference)|
  {
    if rs != [] {
      var n := |rs| - 1;
      ConflictCount(rs[..n], reference);
      ConflictPositionsOfPrefix(rs, reference);
      assert n !in ConflictPositions(rs[..n], reference);
    }
  }

  /** No conflicts exactly when every score is within the threshold of the reference. */
  lemma NoConflictsIffAllClose(rs: seq<AgentResponse>, reference: real)
    ensures Conflicts(rs, reference) == [] <==> forall k :: 0 <= k < |rs| ==> !IsConflict(rs[k], reference)
  {
    if Conflicts(rs, reference) != [] {
      assert Conflicts(rs, reference)[0] in Conflicts(rs, reference);
    }
  }

  // ----- Step 4: the choice of strategy -----

  predicate NuanceConflict(r: AgentResponse, reference: real)
  {
    r.agentId == NUANCE_AGENT && IsConflict(r, reference)
  }

  /** The first response of the nuance agent in a list. */
  function FirstNuance(cs: seq<AgentResponse>): (n: Option<AgentResponse>)
    ensures n.Some? ==> n.value in cs && n.value.agentId == NUANCE_AGENT
    ensures n.None? ==> forall k :: 0 <= k < |cs| ==> cs[k].agentId != NUANCE_AGENT
  {
    if cs == [] then None
    else if cs[0].agentId == NUANCE_AGENT then Some(cs[0])
    else FirstNuance(cs[1..])
  }

  lemma {:induction false} FirstNuanceOfAppend(a: seq<AgentResponse>, b: seq<AgentResponse>)
    ensures FirstNuance(a + b) == if FirstNuance(a).Some? then FirstNuance(a) else FirstNuance(b)
  {
    if a != [] {
      assert (a + b)[1..] == a[1..] + b;
      FirstNuanceOfAppend(a[1..], b);
    } else {
      assert a + b == b;
    }
  }

  /** `k` is the position of the first conflicting response of the nuance agent. */
  predicate EarliestNuanceConflict(rs: seq<AgentResponse>, reference: real, k: nat)
  {
    k < |rs| && NuanceConflict(rs[k], reference) &&
    forall j :: 0 <= j < k ==> !NuanceConflict(rs[j], reference)
  }

  /** No conflicting response of the nuance agent is found exactly when none of its responses conflicts. */
  lemma {:induction false} NoNuanceChoice(rs: seq<AgentResponse>, reference: real)
    ensures FirstNuance(Conflicts(rs, reference)).None? <==>
      forall k :: 0 <= k < |rs| ==> !NuanceConflict(rs[k], reference)
  {
    if rs != [] {
      var n := |rs| - 1;
      var init, last := rs[..n], rs[n];
      NoNuanceChoice(init, reference);
      var tail := if IsConflict(last, reference) then [last] else [];
      FirstNuanceOfAppend(Conflicts(init, reference), tail);
      assert forall k :: 0 <= k < n ==> init[k] == rs[k];
    }
  }

  /** The arbitrating response is the first conflicting response of the nuance agent in input order. */
  lemma {:induction false} EarliestNuanceChoice(rs: seq<AgentResponse>, reference: real, k: nat)
    requires EarliestNuanceConflict(rs, reference, k)
    ensures FirstNuance(Conflicts(rs, reference)) == Some(rs[k])
  {
    var n := |rs| - 1;
    var init, last := rs[..n], rs[n];
    var tail := if IsConflict(last, reference) then [last] else [];
    var before := Conflicts(init, reference);
    assert Conflicts(rs, reference) == before + tail;
    FirstNuanceOfAppend(before, tail);
    if k < n {
      assert FirstNuance(before) == Some(rs[k]) by {
        assert EarliestNuanceConflict(init, reference, k) by {
          assert forall j :: 0 <= j <= k ==> init[j] == rs[j];
        }
        EarliestNuanceChoice(init, reference, k);
      }
    } else {
      assert FirstNuance(before).None? by {
        assert forall j :: 0 <= j < n ==> !NuanceConflict(init[j], reference) by {
          assert forall j :: 0 <= j < n ==> init[j] == rs[j];
        }
        NoNuanceChoice(init, reference);
      }
      assert tail == [last];
    }
  }

  /** The text appended to the resolution log when the engine defers to the nuance agent. */
  function ArbitrationEntry(domain: string): LogEntry
  {
    LogEntry("NUANCE_ARBITRATION", domain + " prioritizes D9")
  }

  /** Score and stated confidence of the three most confident responses. */
  function MajorityTerms(rs: seq<AgentResponse>): (ps: seq<Weighted>)
    ensures |ps| == |TopThree(rs)|
  {
    var top := TopThree(rs);
    seq(|top|, k requires 0 <= k < |top| => Weighted(rs[top[k]].score, rs[top[k]].confidence))
  }

  /** The strategy taken, the final score, and what is appended to the log. */
  datatype Resolution = Resolution(strategy: ResolutionStrategy, finalScore: real, logged: seq<LogEntry>)

  function Resolve(rs: seq<AgentResponse>, domain: string, initial: real): Result<Resolution, ConsensusError>
  {
    var cs := Conflicts(rs, initial);
    if cs == [] then Success(Resolution(Unanimous, initial, []))
    else
      var nuance := FirstNuance(cs);
      if nuance.Some? && domain in ARBITRATION_DOMAINS then
        Success(Resolution(NuanceArbitration, 0.6 * nuance.value.score + 0.4 * initial, [ArbitrationEntry(domain)]))
      else
        var ps := MajorityTerms(rs);
        if WeightSum(ps) == 0.0 then Failure(MajorityWeightZero)
        else Success(Resolution(WeightedMajority, ScoreSum(ps) / WeightSum(ps), []))
  }

  // ----- Step 5: agreement, confidence and certainty -----

  /** The spread of the scores: the largest score minus the smallest. */
  function ScoreRange(rs: seq<AgentResponse>): (d: real)
    requires |rs| > 0
    ensures 0.0 <= d
    ensures forall i, j :: 0 <= i < |rs| && 0 <= j < |rs| ==> rs[i].score - rs[j].score <= d
    ensures exists i, j :: 0 <= i < |rs| && 0 <= j < |rs| && rs[i].score - rs[j].score == d
  {
    var xs := seq(|rs|, k requires 0 <= k < |rs| => rs[k].score);
    var hi, lo := Max(xs), Min(xs);
    assert forall k :: 0 <= k < |rs| ==> xs[k] == rs[k].score;
    var i :| 0 <= i < |rs| && xs[i] == hi;
    var j :| 0 <= j < |rs| && xs[j] == lo;
    assert rs[i].score - rs[j].score == hi - lo;
    hi - lo
  }

  function AgreementFor(range: real): AgreementLevel
  {
    if range <= 10.0 then HighAgreement else if range <= 20.0 then MediumAgreement else LowAgreement
  }

  function AgreementOf(rs: seq<AgentResponse>): AgreementLevel
    requires |rs| > 0
  {
    AgreementFor(ScoreRange(rs))
  }

  /** A spread `d` that bounds every difference and is one of them is at most 10 exactly when every difference is. */
  lemma NarrowSpread(rs: seq<AgentResponse>, d: real, i: nat, j: nat)
    requires i < |rs| && j < |rs| && rs[i].score - rs[j].score == d
    requires forall i, j :: 0 <= i < |rs| && 0 <= j < |rs| ==> rs[i].score - rs[j].score <= d
    ensures d <= 10.0 <==> forall i, j :: 0 <= i < |rs| && 0 <= j < |rs| ==> rs[i].score - rs[j].score <= 10.0
  {
  }

  /** Such a spread exceeds 20 exactly when some difference does. */
  lemma WideSpread(rs: seq<AgentResponse>, d: real, i: nat, j: nat)
    requires i < |rs| && j < |rs| && rs[i].score - rs[j].score == d
    requires forall i, j :: 0 <= i < |rs| && 0 <= j < |rs| ==> rs[i].score - rs[j].score <= d
    ensures d > 20.0 <==> exists i, j :: 0 <= i < |rs| && 0 <= j < |rs| && rs[i].score - rs[j].score > 20.0
  {
  }

  /** Agreement is high exactly when every two scores are within 10 of each other. */
  lemma HighAgreementIffNarrow(rs: seq<AgentResponse>)
    requires |rs| > 0
    ensures AgreementOf(rs) == HighAgreement <==>
      forall i, j :: 0 <= i < |rs| && 0 <= j < |rs| ==> rs[i].score - rs[j].score <= 10.0
  {
    var d := ScoreRange(rs);
    var i: nat, j: nat :| i < |rs| && j < |rs| && rs[i].score - rs[j].score == d;
    NarrowSpread(rs, d, i, j);
    assert AgreementOf(rs) == HighAgreement <==> d <= 10.0;
  }

  /** Agreement is low exactly when some two scores are more than 20 apart. */
  lemma LowAgreementIffWide(rs: seq<AgentResponse>)
    requires |rs| > 0
    ensures AgreementOf(rs) == LowAgreement <==>
      exists i, j :: 0 <= i < |rs| && 0 <= j < |rs| && rs[i].score - rs[j].score > 20.0
  {
    var d := ScoreRange(rs);
    var i: nat, j: nat :| i < |rs| && j < |rs| && rs[i].score - rs[j].score == d;
    WideSpread(rs, d, i, j);
    assert AgreementOf(rs) == LowAgreement <==> d > 20.0;
  }

  /** A wider spread never gives a higher agreement. */
  lemma AgreementMonotone(a: real, b: real)
    requires a <= b
    ensures AgreementFor(a) == LowAgreement ==> AgreementFor(b) == LowAgreement
    ensures AgreementFor(b) == HighAgreement ==> AgreementFor(a) == HighAgreement
  {
  }

  function Confidences(rs: seq<AgentResponse>): (xs: seq<real>)
    ensures |xs| == |rs|
  {
    seq(|rs|, k requires 0 <= k < |rs| => rs[k].confidence)
  }

  /** The unweighted mean of the stated confidences. */
  function AverageConfidence(rs: seq<AgentResponse>): real
    requires |rs| > 0
  {
    Sum(Confidences(rs)) / |rs| as real
  }

  /** The mean of confidences that all lie in [0, 1] lies in [0, 1]. */
  lemma AverageConfidenceInUnit(rs: seq<AgentResponse>)
    requires |rs| > 0
    requires forall k :: 0 <= k < |rs| ==> 0.0 <= rs[k].confidence <= 1.0
    ensures 0.0 <= AverageConfidence(rs) <= 1.0
  {
    var xs := Confidences(rs);
    assert forall k :: 0 <= k < |xs| ==> xs[k] == rs[k].confidence;
    AverageBetween(xs, 0.0, 1.0);
  }

  /** +0.1 for high agreement, -0.1 for low, nothing for medium. */
  function Adjustment(agreement: AgreementLevel): real
  {
    match agreement
    case HighAgreement => 0.1
    case LowAgreement => -0.1
    case MediumAgreement => 0.0
  }

  /** `x` cut off to [0, 1]. */
  function Clamp(x: real): (c: real)
    ensures 0.0 <= c <= 1.0
    ensures 0.0 <= x <= 1.0 ==> c == x
    ensures x < 0.0 ==> c == 0.0
    ensures x > 1.0 ==> c == 1.0
  {
    if 1.0 < (if 0.0 < x then x else 0.0) then 1.0 else (if 0.0 < x then x else 0.0)
  }

  /** The adjusted and clamped mean confidence. */
  function FinalConfidence(rs: seq<AgentResponse>): (c: real)
    requires |rs| > 0
    ensures 0.0 <= c <= 1.0
  {
    Clamp(AverageConfidence(rs) + Adjustment(AgreementOf(rs)))
  }

  function CertaintyFor(confidence: real): CertaintyLevel
  {
    if confidence > 0.8 then High else if confidence > 0.5 then Medium else Low
  }

  /** A higher confidence never gives a lower certainty. */
  lemma CertaintyMonotone(a: real, b: real)
    requires a <= b
    ensures CertaintyFor(a) == High ==> CertaintyFor(b) == High
    ensures CertaintyFor(b) == Low ==> CertaintyFor(a) == Low
  {
  }

  // ----- Result assembly -----

  /** Each agent's base weight times its stated confidence; a later response of the same agent wins. */
  function Contributions(rs: seq<AgentResponse>, weights: map<string, real>): map<string, real>
  {
    if rs == [] then map[]
    else
      var last := rs[|rs| - 1];
      Contributions(rs[..|rs| - 1], weights)[last.agentId := BaseWeight(weights, last.agentId) * last.confidence]
  }

  function AgentIds(rs: seq<AgentResponse>): set<string>
  {
    set k | 0 <= k < |rs| :: rs[k].agentId
  }

  /** Exactly the agents of the batch have a contribution. */
  lemma {:induction false} ContributionKeys(rs: seq<AgentResponse>, weights: map<string, real>)
    ensures Contributions(rs, weights).Keys == AgentIds(rs)
  {
    if rs != [] {
      var n := |rs| - 1;
      ContributionKeys(rs[..n], weights);
      forall a ensures a in AgentIds(rs) <==> a in AgentIds(rs[..n]) || a == rs[n].agentId {
        if a in AgentIds(rs) {
          var k :| 0 <= k < |rs| && rs[k].agentId == a;
          if k < n {
            assert rs[..n][k] == rs[k];
          }
        }
        if a in AgentIds(rs[..n]) {
          var k :| 0 <= k < n && rs[..n][k].agentId == a;
          assert rs[k].agentId == a;
        }
      }
    }
  }

  /** The contribution of an agent is computed from its last response in the batch. */
  lemma {:induction false} ContributionOfLastResponse(rs: seq<AgentResponse>, weights: map<string, real>, k: nat)
    requires k < |rs|
    requires forall j :: k < j < |rs| ==> rs[j].agentId != rs[k].agentId
    ensures rs[k].agentId in Contributions(rs, weights)
    ensures Contributions(rs, weights)[rs[k].agentId] == BaseWeight(weights, rs[k].agentId) * rs[k].confidence
  {
    var n := |rs| - 1;
    var init, last := rs[..n], rs[n];
    var a, v := rs[k].agentId, BaseWeight(weights, rs[k].agentId) * rs[k].confidence;
    var before := Contributions(init, weights);
    if k < n {
      assert a in before && before[a] == v by {
        assert init[k] == rs[k];
        assert forall j :: k < j < |init| ==> init[j] == rs[j];
        ContributionOfLastResponse(init, weights, k);
      }
      assert last.agentId != a;
    }
  }

  /** The result of one consensus computation, or the error the majority branch can raise. */
  function ConsensusOf(rs: seq<AgentResponse>, domain: string): Result<ConsensusResult, ConsensusError>
    requires |rs| > 0
  {
    var weights := WeightsFor(domain);
    var initial := InitialScore(rs, weights);
    match Resolve(rs, domain, initial)
    case Failure(e) => Failure(e)
    case Success(res) =>
      var confidence := FinalConfidence(rs);
      var conflicts := |Conflicts(rs, initial)|;
      Success(ConsensusResult(
        domain := domain,
        finalScore := res.finalScore,
        confidence := confidence,
        certaintyLevel := CertaintyFor(confidence),
        agreementLevel := AgreementOf(rs),
        strategyUsed := res.strategy,
        conflictsDetected := conflicts,
        conflictsResolved := conflicts,
        agentContributions := Contributions(rs, weights),
        dashaAdjusted := DashaAdjusted(rs),
        savTier := SavTierOf(rs)))
  }

  /**
   * A successful result names the requested domain and one of the three
   * strategies; it detects and resolves one conflict per conflicting
   * position, credits exactly the agents of the batch, is dasha-adjusted
   * exactly when some response carries a dasha weight, and its
   * confidence lies in [0, 1].
   */
  lemma ResultShape(rs: seq<AgentResponse>, domain: string)
    requires |rs| > 0
    ensures var out := ConsensusOf(rs, domain);
      out.Success? ==>
        out.value.domain == domain &&
        out.value.strategyUsed != MathOverride &&
        out.value.conflictsDetected == out.value.conflictsResolved ==
          |ConflictPositions(rs, InitialScore(rs, WeightsFor(domain)))| &&
        out.value.agentContributions.Keys == AgentIds(rs) &&
        (out.value.dashaAdjusted <==> exists k :: 0 <= k < |rs| && rs[k].dashaWeight.Some?) &&
        0.0 <= out.value.confidence <= 1.0
  {
    ConflictCount(rs, InitialScore(rs, WeightsFor(domain)));
    ContributionKeys(rs, WeightsFor(domain));
  }

  /** What one consensus computation appends to the resolution log: at most one entry, only when arbitrating. */
  function LogEntriesFor(rs: seq<AgentResponse>, domain: string): (entries: seq<LogEntry>)
    requires |rs| > 0
    ensures |entries| <= 1
    ensures |entries| == 1 <==>
      ConsensusOf(rs, domain).Success? && ConsensusOf(rs, domain).value.strategyUsed == NuanceArbitration
    ensures |entries| == 1 ==> entries[0] == ArbitrationEntry(domain)
  {
    match Resolve(rs, domain, InitialScore(rs, WeightsFor(domain)))
    case Success(res) => res.logged
    case Failure(_) => []
  }

  // ----- The three strategies -----

  /**
   * The run is unanimous exactly when no score is more than the
   * threshold away from the initial estimate; the final score is then
   * that estimate and nothing is logged.
   */
  lemma UnanimousIffNoConflicts(rs: seq<AgentResponse>, domain: string)
    requires |rs| > 0
    ensures var initial := InitialScore(rs, WeightsFor(domain));
      (ConsensusOf(rs, domain).Success? && ConsensusOf(rs, domain).value.strategyUsed == Unanimous) <==>
      forall k :: 0 <= k < |rs| ==> !IsConflict(rs[k], initial)
    ensures var initial := InitialScore(rs, WeightsFor(domain));
      (forall k :: 0 <= k < |rs| ==> !IsConflict(rs[k], initial)) ==>
      ConsensusOf(rs, domain).Success? &&
      ConsensusOf(rs, domain).value.finalScore == initial &&
      LogEntriesFor(rs, domain) == []
  {
    NoConflictsIffAllClose(rs, InitialScore(rs, WeightsFor(domain)));
  }

  /**
   * When the effective weights have a positive total and no two scores
   * are more than the threshold apart, no score can conflict with their
   * weighted mean, so the run is unanimous.
   */
  lemma NarrowSpreadIsUnanimous(rs: seq<AgentResponse>, domain: string)
    requires |rs| > 0
    requires forall k :: 0 <= k < |rs| ==> WellFormed(rs[k])
    requires WeightSum(EffectiveTerms(rs, WeightsFor(domain))) > 0.0
    requires forall i, j :: 0 <= i < |rs| && 0 <= j < |rs| ==> rs[i].score - rs[j].score <= CONFLICT_THRESHOLD
    ensures ConsensusOf(rs, domain).Success?
    ensures ConsensusOf(rs, domain).value.strategyUsed == Unanimous
  {
    var weights := WeightsFor(domain);
    var initial := InitialScore(rs, weights);
    InitialScoreWithinScores(rs, weights);
    var xs := ScoresOf(EffectiveTerms(rs, weights));
    var lo :| 0 <= lo < |rs| && xs[lo] == Min(xs);
    var hi :| 0 <= hi < |rs| && xs[hi] == Max(xs);
    forall k | 0 <= k < |rs| ensures !IsConflict(rs[k], initial) {
      assert xs[k] == rs[k].score && xs[lo] == rs[lo].score && xs[hi] == rs[hi].score;
    }
    UnanimousIffNoConflicts(rs, domain);
  }

  /**
   * In a marriage or health run where the nuance agent's response at
   * position k is the first conflicting one of that agent, the engine
   * arbitrates: the final score is 0.6 of that response's score plus 0.4
   * of the initial estimate, so it lies between the two, and one entry
   * is logged.
   */
  lemma ArbitrationCase(rs: seq<AgentResponse>, domain: string, k: nat)
    requires |rs| > 0 && domain in ARBITRATION_DOMAINS
    requires EarliestNuanceConflict(rs, InitialScore(rs, WeightsFor(domain)), k)
    ensures var initial := InitialScore(rs, WeightsFor(domain));
      ConsensusOf(rs, domain).Success? &&
      ConsensusOf(rs, domain).value.strategyUsed == NuanceArbitration &&
      ConsensusOf(rs, domain).value.finalScore == 0.6 * rs[k].score + 0.4 * initial
    ensures var initial := InitialScore(rs, WeightsFor(domain)); var f := 0.6 * rs[k].score + 0.4 * initial;
      (initial <= f <= rs[k].score) || (rs[k].score <= f <= initial)
    ensures LogEntriesFor(rs, domain) == [ArbitrationEntry(domain)]
  {
    var initial := InitialScore(rs, WeightsFor(domain));
    EarliestNuanceChoice(rs, initial, k);
  }

  /** Arbitration happens only in a marriage or health run in which a response of the nuance agent conflicts. */
  lemma ArbitrationOnlyWhenNuanceConflicts(rs: seq<AgentResponse>, domain: string)
    requires |rs| > 0
    requires ConsensusOf(rs, domain).Success? && ConsensusOf(rs, domain).value.strategyUsed == NuanceArbitration
    ensures domain in ARBITRATION_DOMAINS
    ensures exists k :: 0 <= k < |rs| && NuanceConflict(rs[k], InitialScore(rs, WeightsFor(domain)))
  {
    NoNuanceChoice(rs, InitialScore(rs, WeightsFor(domain)));
  }

  /**
   * When some score conflicts but the run does not arbitrate, the final
   * score is the confidence-weighted mean of the three most confident
   * responses, which fails exactly when their confidences sum to zero;
   * nothing is logged. With non-negative confidences that mean lies
   * between the smallest and the largest of those three scores.
   */
  lemma MajorityCase(rs: seq<AgentResponse>, domain: string)
    requires |rs| > 0
    requires var initial := InitialScore(rs, WeightsFor(domain));
      exists k :: 0 <= k < |rs| && IsConflict(rs[k], initial)
    requires var initial := InitialScore(rs, WeightsFor(domain));
      domain !in ARBITRATION_DOMAINS || forall k :: 0 <= k < |rs| ==> !NuanceConflict(rs[k], initial)
    ensures var ps := MajorityTerms(rs);
      ConsensusOf(rs, domain).Failure? <==> WeightSum(ps) == 0.0
    ensures var ps := MajorityTerms(rs);
      WeightSum(ps) != 0.0 ==>
      ConsensusOf(rs, domain).Success? &&
      ConsensusOf(rs, domain).value.strategyUsed == WeightedMajority &&
      ConsensusOf(rs, domain).value.finalScore == ScoreSum(ps) / WeightSum(ps)
    ensures var ps := MajorityTerms(rs);
      NonNegativeWeights(ps) && WeightSum(ps) > 0.0 ==>
      Min(ScoresOf(ps)) <= ConsensusOf(rs, domain).value.finalScore <= Max(ScoresOf(ps))
    ensures LogEntriesFor(rs, domain) == []
  {
    var initial := InitialScore(rs, WeightsFor(domain));
    var ps := MajorityTerms(rs);
    NoConflictsIffAllClose(rs, initial);
    NoNuanceChoice(rs, initial);
    if NonNegativeWeights(ps) && WeightSum(ps) > 0.0 {
      MeanWithinExtremes(ps);
    }
  }

  /** With every stated confidence positive the computation never fails. */
  lemma PositiveConfidencesNeverFail(rs: seq<AgentResponse>, domain: string)
    requires |rs| > 0
    requires forall k :: 0 <= k < |rs| ==> rs[k].confidence > 0.0
    ensures ConsensusOf(rs, domain).Success?
  {
    var ps := MajorityTerms(rs);
    var top := TopThree(rs);
    assert forall c :: 0 <= c < |ps| ==> ps[c].weight == rs[top[c]].confidence;
    WeightSumPositive(ps);
  }

  // ----- The loop over the batch -----

  /** How the numerators read from a prefix grow by one response. */
  lemma SavNumeratorsStep(rs: seq<AgentResponse>, i: nat)
    requires i < |rs|
    ensures SavNumerators(rs[..i + 1]) ==
      match SavNumerator(rs[i])
      case Some(n) => SavNumerators(rs[..i]) + [n]
      case None => SavNumerators(rs[..i])
  {
    assert rs[..i + 1][..i] == rs[..i];
  }

  /** The effective weight of one response, and whether its dasha weight was used. */
  method Weigh(weights: map<string, real>, r: AgentResponse) returns (effectiveWeight: real, usesDasha: bool)
    ensures effectiveWeight == EffectiveWeight(weights, r)
    ensures usesDasha == r.dashaWeight.Some?
  {
    var agentWeight := BaseWeight(weights, r.agentId);
    var effectiveConfidence := r.confidence;
    usesDasha := false;
    if r.dashaWeight.Some? {
      effectiveConfidence := effectiveConfidence * (0.5 + 0.5 * r.dashaWeight.value);
      usesDasha := true;
    }
    effectiveWeight := agentWeight * effectiveConfidence;
  }

  /**
   * Appends the numerator response i's score string reads as, if any, to
   * those read from the responses before it; an absent, empty or
   * unreadable string adds nothing.
   */
  method CollectSav(rs: seq<AgentResponse>, i: nat, savScores: seq<int>) returns (next: seq<int>)
    requires i < |rs| && savScores == SavNumerators(rs[..i])
    ensures next == SavNumerators(rs[..i + 1])
  {
    SavNumeratorsStep(rs, i);
    next := savScores;
    var r := rs[i];
    if r.savScore.Some? && r.savScore.value != "" {
      var numerator := Numerals.ParseNumerator(r.savScore.value);
      if numerator.Some? {
        next := next + [numerator.value];
      }
    }
  }

  /**
   * Adds response i's score times its effective weight to the running
   * weighted sum and its effective weight to the running total.
   */
  method AddTerm(rs: seq<AgentResponse>, weights: map<string, real>, i: nat, weightedSum: real, weightTotal: real)
    returns (newSum: real, newTotal: real, usesDasha: bool)
    requires i < |rs|
    requires weightedSum == ScoreSum(EffectiveTerms(rs, weights)[..i])
    requires weightTotal == WeightSum(EffectiveTerms(rs, weights)[..i])
    ensures newSum == ScoreSum(EffectiveTerms(rs, weights)[..i + 1])
    ensures newTotal == WeightSum(EffectiveTerms(rs, weights)[..i + 1])
    ensures usesDasha == rs[i].dashaWeight.Some?
  {
    var r := rs[i];
    var effectiveWeight;
    effectiveWeight, usesDasha := Weigh(weights, r);
    SumsOfPrefix(EffectiveTerms(rs, weights), i, r.score, effectiveWeight);
    newSum := weightedSum + r.score * effectiveWeight;
    newTotal := weightTotal + effectiveWeight;
  }

  /**
   * One pass over the batch accumulating the weighted score sum, the
   * effective weight total, whether any dasha weight was used, and the
   * auxiliary numerators read.
   */
  method ScanResponses(rs: seq<AgentResponse>, weights: map<string, real>)
    returns (weightedSum: real, weightTotal: real, dashaAdjusted: bool, savScores: seq<int>)
    ensures weightedSum == ScoreSum(EffectiveTerms(rs, weights))
    ensures weightTotal == WeightSum(EffectiveTerms(rs, weights))
    ensures dashaAdjusted == DashaAdjusted(rs)
    ensures savScores == SavNumerators(rs)
  {
    weightedSum, weightTotal, dashaAdjusted, savScores := 0.0, 0.0, false, [];
    ghost var terms := EffectiveTerms(rs, weights);
    for i := 0 to |rs|
      invariant weightedSum == ScoreSum(terms[..i])
      invariant weightTotal == WeightSum(terms[..i])
      invariant dashaAdjusted <==> exists k :: 0 <= k < i && rs[k].dashaWeight.Some?
      invariant savScores == SavNumerators(rs[..i])
    {
      var usesDasha;
      weightedSum, weightTotal, usesDasha := AddTerm(rs, weights, i, weightedSum, weightTotal);
      if usesDasha {
        dashaAdjusted := true;
      }
      savScores := CollectSav(rs, i, savScores);
    }
    assert terms[..|rs|] == terms;
    assert rs[..|rs|] == rs;
  }
}
