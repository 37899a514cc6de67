/**
  The stage preconditions. Each validator inspects the state and either passes
  or fails with the message the source raises as `ValidationError`; none of
  them changes the state.
 */
module Validators {
  import opened Common
  import opened Text
  import opened State

  /** Outcome of a validator: `Fail(m)` is `raise ValidationError(m)`. */
  datatype Check = Pass | Fail(message: string)

  const NoInputMessage := "No market input provided. Please provide a Kalshi market URL, ID, or description."
  const IngestFailedPrefix := "Market input validation failed: "
  const NoTitleMessage := "Market title not extracted. Cannot proceed without identified market."
  const NoCriteriaMessage := "Resolution criteria not extracted. Cannot research without knowing what resolves the market."
  const NoOddsMessage := "Market odds not extracted. Cannot proceed without current pricing."
  const NoSummaryMessage := "Research summary missing. Cannot estimate probabilities without research."
  const NoSourcesMessage := "No sources provided. Research must cite verifiable sources."
  const NoEstimatesMessage := "No probability estimates. Cannot analyze mispricing without estimates."
  const BadSumMessage := "Probability estimates sum to a value outside [0.95, 1.05], should be ~1.0. Please revise estimates to ensure they form a valid probability distribution."
  const NoConfidenceMessage := "Confidence level not specified. Must indicate low/medium/high confidence."
  const NoComparisonMessage := "Pricing comparison missing. Cannot make recommendations without mispricing analysis."
  const NoEdgeMessage := "Edge analysis missing. Must explain potential edges before recommendations."
  const NoRecommendationsMessage := "No persona recommendations generated."
  const MissingPersonasPrefix := "Missing recommendations for personas: "
  const NoScenariosMessage := "No scenarios generated. Must include best/worst/most-likely scenarios."
  const MissingScenariosPrefix := "Missing scenario types: "

  /** Lower and upper bound of the accepted probability total. */
  const SumLow: real := 0.95
  const SumHigh: real := 1.05

  /** The scenario types a complete analysis names, in the order the source lists them. */
  const RequiredScenarioTypes: seq<string> := ["best_case", "worst_case", "most_likely"]

  /** `validate_user_input`: fails exactly on empty or whitespace-only input. */
  function UserInput(s: ResearchState): (c: Check)
    ensures c.Pass? <==> !AllSpace(s.userMarketInput)
    ensures c.Fail? ==> c.message == NoInputMessage
  {
    if s.userMarketInput == [] || Strip(s.userMarketInput) == [] then Fail(NoInputMessage) else Pass
  }

  /** `validate_market_ingested`: a recorded input error wins over a missing title. */
  function MarketIngested(s: ResearchState): (c: Check)
    ensures c.Pass? <==> !Truthy(s.ident.inputValidationError) && Truthy(s.ident.marketTitle)
    ensures Truthy(s.ident.inputValidationError) ==> c == Fail(IngestFailedPrefix + s.ident.inputValidationError.value)
    ensures !Truthy(s.ident.inputValidationError) && !Truthy(s.ident.marketTitle) ==> c == Fail(NoTitleMessage)
  {
    if Truthy(s.ident.inputValidationError) then Fail(IngestFailedPrefix + s.ident.inputValidationError.value)
    else if !Truthy(s.ident.marketTitle) then Fail(NoTitleMessage)
    else Pass
  }

  /** `validate_market_parsed`: criteria are checked before odds. */
  function MarketParsed(s: ResearchState): (c: Check)
    ensures c.Pass? <==> Truthy(s.mechanics.resolutionCriteria) && |s.mechanics.marketOdds| > 0
    ensures !Truthy(s.mechanics.resolutionCriteria) ==> c == Fail(NoCriteriaMessage)
    ensures c.Fail? && Truthy(s.mechanics.resolutionCriteria) ==> c == Fail(NoOddsMessage)
  {
    if !Truthy(s.mechanics.resolutionCriteria) then Fail(NoCriteriaMessage)
    else if s.mechanics.marketOdds == [] then Fail(NoOddsMessage)
    else Pass
  }

  /** `validate_research_complete`: summary before sources. */
  function ResearchComplete(s: ResearchState): (c: Check)
    ensures c.Pass? <==> Truthy(s.research.researchSummary) && |s.research.sources| > 0
    ensures !Truthy(s.research.researchSummary) ==> c == Fail(NoSummaryMessage)
    ensures c.Fail? && Truthy(s.research.researchSummary) ==> c == Fail(NoSourcesMessage)
  {
    if !Truthy(s.research.researchSummary) then Fail(NoSummaryMessage)
    else if s.research.sources == [] then Fail(NoSourcesMessage)
    else Pass
  }

  /** Python's `sum(p["estimated_probability"] for p in ps)`, over exact reals. */
  function Total(ps: seq<ProbabilityEstimate>): real {
    if ps == [] then 0.0 else ps[0].estimatedProbability + Total(ps[1..])
  }

  /** The closed tolerance band around 1. */
  predicate SumAcceptable(total: real) {
    SumLow <= total <= SumHigh
  }

  /** `validate_probabilities_estimated`: non-empty, then the sum band, then a confidence level. */
  function ProbabilitiesEstimated(s: ResearchState): (c: Check)
    ensures c.Pass? <==>
      |s.estimation.estimatedProbabilities| > 0
      && SumAcceptable(Total(s.estimation.estimatedProbabilities))
      && Truthy(s.estimation.confidenceLevel)
    ensures s.estimation.estimatedProbabilities == [] ==> c == Fail(NoEstimatesMessage)
    ensures s.estimation.estimatedProbabilities != [] && !SumAcceptable(Total(s.estimation.estimatedProbabilities))
            ==> c == Fail(BadSumMessage)
    ensures (s.estimation.estimatedProbabilities != [] && SumAcceptable(Total(s.estimation.estimatedProbabilities))
             && !Truthy(s.estimation.confidenceLevel)) ==> c == Fail(NoConfidenceMessage)
  {
    var ps := s.estimation.estimatedProbabilities;
    if ps == [] then Fail(NoEstimatesMessage)
    else if !(SumLow <= Total(ps) && Total(ps) <= SumHigh) then Fail(BadSumMessage)
    else if !Truthy(s.estimation.confidenceLevel) then Fail(NoConfidenceMessage)
    else Pass
  }

  /** `validate_mispricing_analyzed`: comparison before edge analysis. */
  function MispricingAnalyzed(s: ResearchState): (c: Check)
    ensures c.Pass? <==> |s.mispricing.pricingComparison| > 0 && Truthy(s.mispricing.edgeAnalysis)
    ensures s.mispricing.pricingComparison == [] ==> c == Fail(NoComparisonMessage)
    ensures c.Fail? && s.mispricing.pricingComparison != [] ==> c == Fail(NoEdgeMessage)
  {
    if s.mispricing.pricingComparison == [] then Fail(NoComparisonMessage)
    else if !Truthy(s.mispricing.edgeAnalysis) then Fail(NoEdgeMessage)
    else Pass
  }

  /** The elements of `xs` not in `present`, first occurrences only, in order. */
  function Missing(xs: seq<string>, present: set<string>): (m: seq<string>)
    ensures forall x :: x in m <==> x in xs && x !in present
  {
    if xs == [] then []
    else
      var rest := Missing(xs[1..], present);
      if xs[0] in present || xs[0] in rest then rest else [xs[0]] + rest
  }

  /** The personas some recommendation names. */
  function CoveredPersonas(recs: seq<PersonaRecommendation>): set<string> {
    set r | r in recs :: r.persona
  }

  /** `validate_personas_covered`: every required persona has a recommendation; extras and duplicates are fine. */
  function PersonasCovered(s: ResearchState, required: seq<string>): (c: Check)
    ensures c.Pass? <==>
      |s.personaRecommendations| > 0
      && forall p :: p in required ==> exists r :: r in s.personaRecommendations && r.persona == p
    ensures s.personaRecommendations == [] ==> c == Fail(NoRecommendationsMessage)
    ensures s.personaRecommendations != [] && c.Fail? ==>
      c == Fail(MissingPersonasPrefix + Join(Missing(required, CoveredPersonas(s.personaRecommendations)), ", "))
  {
    var recs := s.personaRecommendations;
    if recs == [] then Fail(NoRecommendationsMessage)
    else
      var missing := Missing(required, CoveredPersonas(recs));
      if missing != [] then
        assert missing[0] in required && missing[0] !in CoveredPersonas(recs);
        Fail(MissingPersonasPrefix + Join(missing, ", "))
      else Pass
  }

  /** The scenario types named by the scenarios. */
  function ScenarioTypes(scenarios: seq<Scenario>): set<string> {
    set sc | sc in scenarios :: sc.scenarioType
  }

  /** `validate_scenarios_complete`: the three required types must be among the types; others are allowed. */
  function ScenariosComplete(s: ResearchState): (c: Check)
    ensures c.Pass? <==>
      |s.scenarios| > 0
      && (exists sc :: sc in s.scenarios && sc.scenarioType == "best_case")
      && (exists sc :: sc in s.scenarios && sc.scenarioType == "worst_case")
      && (exists sc :: sc in s.scenarios && sc.scenarioType == "most_likely")
    ensures s.scenarios == [] ==> c == Fail(NoScenariosMessage)
    ensures s.scenarios != [] && c.Fail? ==>
      c == Fail(MissingScenariosPrefix + Join(Missing(RequiredScenarioTypes, ScenarioTypes(s.scenarios)), ", "))
  {
    if s.scenarios == [] then Fail(NoScenariosMessage)
    else
      var missing := Missing(RequiredScenarioTypes, ScenarioTypes(s.scenarios));
      if missing != [] then
        assert missing[0] in RequiredScenarioTypes && missing[0] !in ScenarioTypes(s.scenarios);
        Fail(MissingScenariosPrefix + Join(missing, ", "))
      else
        assert "best_case" in RequiredScenarioTypes && "worst_case" in RequiredScenarioTypes;
        assert "most_likely" in RequiredScenarioTypes;
        Pass
  }

  /** The first failing check in list order, or `Pass` when all pass. */
  function FirstFailure(cs: seq<Check>): (c: Check)
    ensures c.Pass? <==> forall i :: 0 <= i < |cs| ==> cs[i].Pass?
    ensures c.Fail? ==> exists i :: 0 <= i < |cs| && cs[i] == c && forall j :: 0 <= j < i ==> cs[j].Pass?
  {
    if cs == [] then Pass
    else if cs[0].Fail? then cs[0]
    else
      var c := FirstFailure(cs[1..]);
      assert forall i :: 1 <= i < |cs| ==> cs[i] == cs[1..][i - 1];
      if c.Fail? then
        var i :| 0 <= i < |cs[1..]| && cs[1..][i] == c && forall j :: 0 <= j < i ==> cs[1..][j].Pass?;
        assert cs[i + 1] == c;
        c
      else c
  }

  /** The seven checks the final gate runs, in order; `validate_user_input` is not among them. */
  function ReadinessChecks(s: ResearchState, personas: seq<string>): seq<Check> {
    [MarketIngested(s), MarketParsed(s), ResearchComplete(s), ProbabilitiesEstimated(s),
     MispricingAnalyzed(s), PersonasCovered(s, personas), ScenariosComplete(s)]
  }

  /** `validate_ready_for_output`: the validators in sequence, stopping at the first that raises. */
  function ReadyForOutput(s: ResearchState, personas: seq<string>): (c: Check)
    ensures c.Pass? <==>
      MarketIngested(s).Pass? && MarketParsed(s).Pass? && ResearchComplete(s).Pass?
      && ProbabilitiesEstimated(s).Pass? && MispricingAnalyzed(s).Pass?
      && PersonasCovered(s, personas).Pass? && ScenariosComplete(s).Pass?
  {
    var cs := ReadinessChecks(s, personas);
    var c := FirstFailure(cs);
    assert cs[0] == MarketIngested(s) && cs[1] == MarketParsed(s) && cs[2] == ResearchComplete(s);
    assert cs[3] == ProbabilitiesEstimated(s) && cs[4] == MispricingAnalyzed(s);
    assert cs[5] == PersonasCovered(s, personas) && cs[6] == ScenariosComplete(s);
    c
  }

  /** The final gate does not look at the raw user input. */
  lemma ReadyIgnoresUserInput(s: ResearchState, personas: seq<string>, input: string)
    ensures ReadyForOutput(s.(userMarketInput := input), personas) == ReadyForOutput(s, personas)
  {
    ReadySameFindings(s.(userMarketInput := input), s, personas);
  }

  /** Readiness reads only what the stages found, never the input, the step name or the log. */
  lemma ReadySameFindings(s: ResearchState, t: ResearchState, personas: seq<string>)
    requires s.ident == t.ident && s.mechanics == t.mechanics && s.research == t.research
    requires s.estimation == t.estimation && s.mispricing == t.mispricing
    requires s.personaRecommendations == t.personaRecommendations && s.scenarios == t.scenarios
    ensures ReadyForOutput(s, personas) == ReadyForOutput(t, personas)
  {
    assert ReadinessChecks(s, personas) == ReadinessChecks(t, personas);
  }

  function Estimates(ps: seq<real>): seq<ProbabilityEstimate> {
    seq(|ps|, i requires 0 <= i < |ps| => ProbabilityEstimate(if i == 0 then "Yes" else "No", ps[i], ""))
  }

  /** The tolerance band is closed: totals 0.95, 0.96, 1.00 and 1.05 pass; 0.94 and 1.06 fail. */
  lemma SumBandExamples(s: ResearchState)
    requires Truthy(s.estimation.confidenceLevel)
    ensures ProbabilitiesEstimated(s.(estimation := s.estimation.(estimatedProbabilities := Estimates([0.5, 0.45])))).Pass?
    ensures ProbabilitiesEstimated(s.(estimation := s.estimation.(estimatedProbabilities := Estimates([0.5, 0.46])))).Pass?
    ensures ProbabilitiesEstimated(s.(estimation := s.estimation.(estimatedProbabilities := Estimates([0.62, 0.38])))).Pass?
    ensures ProbabilitiesEstimated(s.(estimation := s.estimation.(estimatedProbabilities := Estimates([0.6, 0.45])))).Pass?
    ensures ProbabilitiesEstimated(s.(estimation := s.estimation.(estimatedProbabilities := Estimates([0.5, 0.44])))) == Fail(BadSumMessage)
    ensures ProbabilitiesEstimated(s.(estimation := s.estimation.(estimatedProbabilities := Estimates([0.6, 0.46])))) == Fail(BadSumMessage)
  {
    assert Total(Estimates([0.5, 0.45])) == 0.95;
  }
}
