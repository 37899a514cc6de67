/**
  The research state record threaded through the eight pipeline stages, and its
  dictionary form (`to_dict` / `from_dict`).

  The source declares the state as a mutable dataclass whose nodes assign fields
  in place; here it is an immutable datatype and every stage returns an updated
  copy.
 */
module State {
  import opened Common

  /** Odds quoted for one outcome. */
  datatype MarketOdds = MarketOdds(outcome: string, impliedProbability: real, currentPrice: Option<real>)

  /** An independently estimated probability for one outcome. */
  datatype ProbabilityEstimate = ProbabilityEstimate(outcome: string, estimatedProbability: real, reasoning: string)

  /** Estimated against market probability for one outcome. */
  datatype PricingComparison = PricingComparison(
    outcome: string,
    marketProbability: real,
    estimatedProbability: real,
    difference: real,
    assessment: string)

  /** A recommendation tailored to one persona. */
  datatype PersonaRecommendation = PersonaRecommendation(
    persona: string,
    suggestedPosition: string,
    rationale: string,
    keyRisks: seq<string>)

  /** One scenario of the stress test; `scenarioType` is the source's `type` key. */
  datatype Scenario = Scenario(
    scenarioType: string,
    description: string,
    probabilityShift: string,
    keyTriggers: seq<string>)

  /** Identification group, written by `market_ingestor`. */
  datatype Identification = Identification(
    marketTitle: Option<string>,
    marketUrlOrId: Option<string>,
    inputValidationError: Option<string>)

  /** Mechanics group, written by `market_parser`. */
  datatype Mechanics = Mechanics(
    resolutionCriteria: Option<string>,
    expirationDate: Option<string>,
    marketOdds: seq<MarketOdds>)

  /** Research group, written by `independent_researcher`. */
  datatype Research = Research(researchSummary: Option<string>, sources: seq<string>)

  /** Estimation group, written by `probability_estimator`. */
  datatype Estimation = Estimation(estimatedProbabilities: seq<ProbabilityEstimate>, confidenceLevel: Option<string>)

  /** Comparison group, written by `mispricing_analyst`. */
  datatype Mispricing = Mispricing(pricingComparison: seq<PricingComparison>, edgeAnalysis: Option<string>)

  /**
    The pipeline state: the caller's input, one group per stage (the last
    three stages own a single field each), the current step name and the
    error log.
   */
  datatype ResearchState = ResearchState(
    userMarketInput: string,
    ident: Identification,
    mechanics: Mechanics,
    research: Research,
    estimation: Estimation,
    mispricing: Mispricing,
    personaRecommendations: seq<PersonaRecommendation>,
    scenarios: seq<Scenario>,
    finalOutput: Option<string>,
    currentStep: string,
    errors: seq<string>)

  /** A dictionary value: one constructor per kind of state field. */
  datatype Value =
    | Text(text: string)
    | OptText(opt: Option<string>)
    | TextList(texts: seq<string>)
    | OddsList(odds: seq<MarketOdds>)
    | EstimateList(estimates: seq<ProbabilityEstimate>)
    | ComparisonList(comparisons: seq<PricingComparison>)
    | RecommendationList(recommendations: seq<PersonaRecommendation>)
    | ScenarioList(scenarioItems: seq<Scenario>)

  /** The eighteen state fields. */
  datatype Field =
    | UserMarketInput
    | MarketTitle
    | MarketUrlOrId
    | InputValidationError
    | ResolutionCriteria
    | ExpirationDate
    | MarketOddsField
    | ResearchSummary
    | Sources
    | EstimatedProbabilities
    | ConfidenceLevel
    | PricingComparisonField
    | EdgeAnalysis
    | PersonaRecommendations
    | Scenarios
    | FinalOutput
    | CurrentStep
    | Errors

  /** The field's attribute name in the source, which is also its dictionary key. */
  function Name(f: Field): string {
    match f
    case UserMarketInput => "user_market_input"
    case MarketTitle => "market_title"
    case MarketUrlOrId => "market_url_or_id"
    case InputValidationError => "input_validation_error"
    case ResolutionCriteria => "resolution_criteria"
    case ExpirationDate => "expiration_date"
    case MarketOddsField => "market_odds"
    case ResearchSummary => "research_summary"
    case Sources => "sources"
    case EstimatedProbabilities => "estimated_probabilities"
    case ConfidenceLevel => "confidence_level"
    case PricingComparisonField => "pricing_comparison"
    case EdgeAnalysis => "edge_analysis"
    case PersonaRecommendations => "persona_recommendations"
    case Scenarios => "scenarios"
    case FinalOutput => "final_output"
    case CurrentStep => "current_step"
    case Errors => "errors"
  }

  /**
    A dictionary key. Keys naming a state field are `FieldKey`s; `OtherKey`
    stands for any other string.
   */
  datatype Key = FieldKey(field: Field) | OtherKey(name: string)

  /** The serialised form of a state. */
  type Dict = map<Key, Value>

  /** The kinds of field value. */
  datatype Kind = TextKind | OptKind | TextListKind | OddsKind | EstimatesKind
                | ComparisonsKind | RecommendationsKind | ScenariosKind

  function KindOf(v: Value): Kind {
    match v
    case Text(_) => TextKind
    case OptText(_) => OptKind
    case TextList(_) => TextListKind
    case OddsList(_) => OddsKind
    case EstimateList(_) => EstimatesKind
    case ComparisonList(_) => ComparisonsKind
    case RecommendationList(_) => RecommendationsKind
    case ScenarioList(_) => ScenariosKind
  }

  /** The declared default of each field, as a dictionary value. */
  function DefaultValue(f: Field): Value {
    match f
    case UserMarketInput => Text("")
    case MarketTitle => OptText(None)
    case MarketUrlOrId => OptText(None)
    case InputValidationError => OptText(None)
    case ResolutionCriteria => OptText(None)
    case ExpirationDate => OptText(None)
    case MarketOddsField => OddsList([])
    case ResearchSummary => OptText(None)
    case Sources => TextList([])
    case EstimatedProbabilities => EstimateList([])
    case ConfidenceLevel => OptText(None)
    case PricingComparisonField => ComparisonList([])
    case EdgeAnalysis => OptText(None)
    case PersonaRecommendations => RecommendationList([])
    case Scenarios => ScenarioList([])
    case FinalOutput => OptText(None)
    case CurrentStep => Text("not_started")
    case Errors => TextList([])
  }

  /** `v` is of the kind the field `f` declares. */
  predicate Typed(f: Field, v: Value) {
    KindOf(v) == KindOf(DefaultValue(f))
  }

  /** Every field; `Field` is an enumeration, so this set is finite. */
  const AllFields: set<Field> := set f: Field | true

  /** The state a run starts from: `KalshiResearchState(user_market_input=input)`. */
  function Initial(input: string): (s: ResearchState)
    ensures s.userMarketInput == input
    ensures forall f :: f != UserMarketInput ==> Get(s, f) == DefaultValue(f)
  {
    ResearchState(
      userMarketInput := input,
      ident := Identification(None, None, None),
      mechanics := Mechanics(None, None, []),
      research := Research(None, []),
      estimation := Estimation([], None),
      mispricing := Mispricing([], None),
      personaRecommendations := [],
      scenarios := [],
      finalOutput := None,
      currentStep := "not_started",
      errors := [])
  }

  /** The value of field `f` of `s`, i.e. `getattr(s, f)`. */
  function Get(s: ResearchState, f: Field): (v: Value)
    ensures Typed(f, v)
  {
    match f
    case UserMarketInput => Text(s.userMarketInput)
    case MarketTitle => OptText(s.ident.marketTitle)
    case MarketUrlOrId => OptText(s.ident.marketUrlOrId)
    case InputValidationError => OptText(s.ident.inputValidationError)
    case ResolutionCriteria => OptText(s.mechanics.resolutionCriteria)
    case ExpirationDate => OptText(s.mechanics.expirationDate)
    case MarketOddsField => OddsList(s.mechanics.marketOdds)
    case ResearchSummary => OptText(s.research.researchSummary)
    case Sources => TextList(s.research.sources)
    case EstimatedProbabilities => EstimateList(s.estimation.estimatedProbabilities)
    case ConfidenceLevel => OptText(s.estimation.confidenceLevel)
    case PricingComparisonField => ComparisonList(s.mispricing.pricingComparison)
    case EdgeAnalysis => OptText(s.mispricing.edgeAnalysis)
    case PersonaRecommendations => RecommendationList(s.personaRecommendations)
    case Scenarios => ScenarioList(s.scenarios)
    case FinalOutput => OptText(s.finalOutput)
    case CurrentStep => Text(s.currentStep)
    case Errors => TextList(s.errors)
  }

  /** `to_dict`: exactly the field keys, each mapped to that field's value. */
  function ToDict(s: ResearchState): (d: Dict)
    ensures forall k :: k in d <==> k.FieldKey?
    ensures forall f :: d[FieldKey(f)] == Get(s, f)
  {
    map f | f in AllFields :: FieldKey(f) := Get(s, f)
  }

  /** The value under field key `f` if present and of the field's kind, else the field's default. */
  function Lookup(d: Dict, f: Field): (v: Value)
    ensures Typed(f, v)
  {
    if FieldKey(f) in d && Typed(f, d[FieldKey(f)]) then d[FieldKey(f)] else DefaultValue(f)
  }

  /** Kind-specific views of `Lookup`; the fallback branches are never taken since `Lookup` is typed. */
  function TextAt(d: Dict, f: Field): string {
    var v := Lookup(d, f); if v.Text? then v.text else ""
  }

  function OptAt(d: Dict, f: Field): Option<string> {
    var v := Lookup(d, f); if v.OptText? then v.opt else None
  }

  function TextsAt(d: Dict, f: Field): seq<string> {
    var v := Lookup(d, f); if v.TextList? then v.texts else []
  }

  function OddsAt(d: Dict): seq<MarketOdds> {
    var v := Lookup(d, MarketOddsField); if v.OddsList? then v.odds else []
  }

  function EstimatesAt(d: Dict): seq<ProbabilityEstimate> {
    var v := Lookup(d, EstimatedProbabilities); if v.EstimateList? then v.estimates else []
  }

  function ComparisonsAt(d: Dict): seq<PricingComparison> {
    var v := Lookup(d, PricingComparisonField); if v.ComparisonList? then v.comparisons else []
  }

  function RecommendationsAt(d: Dict): seq<PersonaRecommendation> {
    var v := Lookup(d, PersonaRecommendations); if v.RecommendationList? then v.recommendations else []
  }

  function ScenariosAt(d: Dict): seq<Scenario> {
    var v := Lookup(d, Scenarios); if v.ScenarioList? then v.scenarioItems else []
  }

  function IdentificationOf(d: Dict): Identification {
    Identification(OptAt(d, MarketTitle), OptAt(d, MarketUrlOrId), OptAt(d, InputValidationError))
  }

  function MechanicsOf(d: Dict): Mechanics {
    Mechanics(OptAt(d, ResolutionCriteria), OptAt(d, ExpirationDate), OddsAt(d))
  }

  function ResearchOf(d: Dict): Research {
    Research(OptAt(d, ResearchSummary), TextsAt(d, Sources))
  }

  function EstimationOf(d: Dict): Estimation {
    Estimation(EstimatesAt(d), OptAt(d, ConfidenceLevel))
  }

  function MispricingOf(d: Dict): Mispricing {
    Mispricing(ComparisonsAt(d), OptAt(d, EdgeAnalysis))
  }

  /** `from_dict`: keep the keys that name fields, default the rest. */
  function FromDict(d: Dict): ResearchState {
    ResearchState(
      userMarketInput := TextAt(d, UserMarketInput),
      ident := IdentificationOf(d),
      mechanics := MechanicsOf(d),
      research := ResearchOf(d),
      estimation := EstimationOf(d),
      mispricing := MispricingOf(d),
      personaRecommendations := RecommendationsAt(d),
      scenarios := ScenariosAt(d),
      finalOutput := OptAt(d, FinalOutput),
      currentStep := TextAt(d, CurrentStep),
      errors := TextsAt(d, Errors))
  }

  /** Every field of `from_dict(d)` holds what `Lookup` finds for it. */
  lemma GetFromDict(d: Dict, f: Field)
    ensures Get(FromDict(d), f) == Lookup(d, f)
  {
  }

  lemma LookupToDict(s: ResearchState, f: Field)
    ensures Lookup(ToDict(s), f) == Get(s, f)
  {
  }

  /** `from_dict(to_dict(s)) == s`, group by group. */
  lemma FromDictToDict(s: ResearchState)
    ensures FromDict(ToDict(s)) == s
  {
    InputAndLogRoundTrip(s);
    LateStagesRoundTrip(s);
    IdentificationRoundTrip(s);
    MechanicsRoundTrip(s);
    AnalysisRoundTrip(s);
  }

  lemma InputAndLogRoundTrip(s: ResearchState)
    ensures TextAt(ToDict(s), UserMarketInput) == s.userMarketInput
    ensures TextAt(ToDict(s), CurrentStep) == s.currentStep
    ensures TextsAt(ToDict(s), Errors) == s.errors
  {
    LookupToDict(s, UserMarketInput);
    LookupToDict(s, CurrentStep);
    LookupToDict(s, Errors);
  }

  lemma LateStagesRoundTrip(s: ResearchState)
    ensures RecommendationsAt(ToDict(s)) == s.personaRecommendations
    ensures ScenariosAt(ToDict(s)) == s.scenarios
    ensures OptAt(ToDict(s), FinalOutput) == s.finalOutput
  {
    LookupToDict(s, PersonaRecommendations);
    LookupToDict(s, Scenarios);
    LookupToDict(s, FinalOutput);
  }

  lemma IdentificationRoundTrip(s: ResearchState)
    ensures IdentificationOf(ToDict(s)) == s.ident
  {
    LookupToDict(s, MarketTitle);
    LookupToDict(s, MarketUrlOrId);
    LookupToDict(s, InputValidationError);
  }

  lemma MechanicsRoundTrip(s: ResearchState)
    ensures MechanicsOf(ToDict(s)) == s.mechanics
  {
    LookupToDict(s, ResolutionCriteria);
    LookupToDict(s, ExpirationDate);
    LookupToDict(s, MarketOddsField);
  }

  lemma AnalysisRoundTrip(s: ResearchState)
    ensures ResearchOf(ToDict(s)) == s.research
    ensures EstimationOf(ToDict(s)) == s.estimation
    ensures MispricingOf(ToDict(s)) == s.mispricing
  {
    LookupToDict(s, ResearchSummary);
    LookupToDict(s, Sources);
    LookupToDict(s, EstimatedProbabilities);
    LookupToDict(s, ConfidenceLevel);
    LookupToDict(s, PricingComparisonField);
    LookupToDict(s, EdgeAnalysis);
  }

  /**
    `to_dict(from_dict(d))` agrees with `d` on every field key of `d` whose value
    has the field's kind, and gives every other field its default.
   */
  lemma ToDictFromDict(d: Dict)
    ensures forall f :: ToDict(FromDict(d))[FieldKey(f)]
                        == (if FieldKey(f) in d && Typed(f, d[FieldKey(f)]) then d[FieldKey(f)] else DefaultValue(f))
  {
    forall f
      ensures ToDict(FromDict(d))[FieldKey(f)]
              == (if FieldKey(f) in d && Typed(f, d[FieldKey(f)]) then d[FieldKey(f)] else DefaultValue(f))
    {
      GetFromDict(d, f);
    }
  }

  /** Keys that are not field names play no part in `from_dict`. */
  lemma FromDictIgnoresExtraKeys(d: Dict, extra: Dict)
    requires forall k :: k in extra ==> k.OtherKey?
    ensures FromDict(d + extra) == FromDict(d)
  {
    forall f ensures Lookup(d + extra, f) == Lookup(d, f) {
    }
  }

  /** The initial state is `from_dict` of the one-entry dictionary holding the input. */
  lemma InitialIsFromDict(input: string)
    ensures Initial(input) == FromDict(map[FieldKey(UserMarketInput) := Text(input)])
  {
    var d := map[FieldKey(UserMarketInput) := Text(input)];
    InitialEarlyGroups(d, input);
    InitialLateGroups(d, input);
    InitialScalars(d, input);
  }

  lemma InitialEarlyGroups(d: Dict, input: string)
    requires d == map[FieldKey(UserMarketInput) := Text(input)]
    ensures IdentificationOf(d) == Initial(input).ident
    ensures MechanicsOf(d) == Initial(input).mechanics
  {
  }

  lemma InitialLateGroups(d: Dict, input: string)
    requires d == map[FieldKey(UserMarketInput) := Text(input)]
    ensures ResearchOf(d) == Initial(input).research
    ensures EstimationOf(d) == Initial(input).estimation
    ensures MispricingOf(d) == Initial(input).mispricing
  {
  }

  lemma InitialScalars(d: Dict, input: string)
    requires d == map[FieldKey(UserMarketInput) := Text(input)]
    ensures TextAt(d, UserMarketInput) == input
    ensures RecommendationsAt(d) == [] && ScenariosAt(d) == []
    ensures OptAt(d, FinalOutput) == None
    ensures TextAt(d, CurrentStep) == "not_started" && TextsAt(d, Errors) == []
  {
  }
}
