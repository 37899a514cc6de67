/**
  What every stage promises about the state it hands back, whatever the model,
  the JSON parser or the market lookup do: which fields it may write, that the
  error log only grows, the step name it leaves behind, that a failed
  precondition never reaches the model, and that the research and estimation
  requests never see a market price.
 */
module NodeFacts {
  import opened Common
  import opened Text
  import opened State
  import opened Validators
  import opened KalshiApi
  import opened Nodes

  /** `t` differs from `s` at most in the step name, the error log and the fields stage `st` owns. */
  predicate Confined(st: Stage, s: ResearchState, t: ResearchState) {
    var base := s.(currentStep := t.currentStep, errors := t.errors);
    match st
    case Ingestor => t == base.(ident := t.ident)
    case Parser => t == base.(mechanics := t.mechanics, ident := s.ident.(marketTitle := t.ident.marketTitle))
    case Researcher => t == base.(research := t.research)
    case Estimator => t == base.(estimation := t.estimation)
    case Analyst => t == base.(mispricing := t.mispricing)
    case Recommender => t == base.(personaRecommendations := t.personaRecommendations)
    case ScenarioWriter => t == base.(scenarios := t.scenarios)
    case Suggester => t == base.(finalOutput := t.finalOutput)
  }

  /** The log `after` keeps every entry of `before`, in place, and may add more at the end. */
  predicate Extends(before: seq<string>, after: seq<string>) {
    |before| <= |after| && after[..|before|] == before
  }

  /** The step name a stage leaves behind: its own, except a final stage that returns normally. */
  function StepAfter(st: Stage, o: StepOutcome): string {
    if st == Suggester && o.Done? then "completed" else StageName(st)
  }

  /** The three promises every stage keeps, whether it returns or raises. */
  predicate Disciplined(st: Stage, s: ResearchState, o: StepOutcome) {
    Confined(st, s, o.Final()) && Extends(s.errors, o.Final().errors) && o.Final().currentStep == StepAfter(st, o)
  }

  lemma ExtendsByLog(s: ResearchState, m: string)
    ensures Extends(s.errors, Log(s, m).errors)
  {
    assert Log(s, m).errors[..|s.errors|] == s.errors;
  }

  lemma ExtendsTrans(a: seq<string>, b: seq<string>, c: seq<string>)
    requires Extends(a, b) && Extends(b, c)
    ensures Extends(a, c)
  {
    assert c[..|a|] == c[..|b|][..|a|];
  }

  // --- one lemma per stage --------------------------------------------

  lemma IngestedDisciplined(s0: ResearchState, check: Check, answer: Answer)
    ensures Disciplined(Ingestor, s0, Ingested(s0.(currentStep := StageName(Ingestor)), check, answer))
  {
    var s := s0.(currentStep := StageName(Ingestor));
    match check
    case Fail(m) => ExtendsByLog(s.(ident := s.ident.(inputValidationError := Some(m))), m);
    case Pass =>
      match answer
      case Unparsed(e, _) =>
        ExtendsByLog(s.(ident := s.ident.(inputValidationError := Some("Failed to parse market: " + e))), e);
      case _ =>
  }

  lemma IngestorDisciplined(env: Env, s0: ResearchState)
    ensures Disciplined(Ingestor, s0, IngestorNode(env, s0))
  {
    var s := s0.(currentStep := StageName(Ingestor));
    IngestedDisciplined(s0, UserInput(s), Consult(env, "market_ingestor", IngestorRequest(s)));
  }

  lemma ParserFallbackDisciplined(env: Env, s0: ResearchState, s: ResearchState)
    requires s == s0.(currentStep := StageName(Parser), errors := s.errors) && Extends(s0.errors, s.errors)
    ensures Disciplined(Parser, s0, ParserFallback(env, s))
  {
    match Consult(env, "market_parser", ParserRequest(s))
    case Unparsed(e, _) =>
      ExtendsByLog(s, "Failed to parse market mechanics: " + e);
      ExtendsTrans(s0.errors, s.errors, Log(s, "Failed to parse market mechanics: " + e).errors);
    case _ =>
  }

  lemma ParserDisciplined(env: Env, s0: ResearchState)
    ensures Disciplined(Parser, s0, ParserNode(env, s0))
  {
    var s := s0.(currentStep := StageName(Parser));
    match MarketIngested(s)
    case Fail(m) => ExtendsByLog(s, m);
    case Pass =>
      assert Extends(s0.errors, s.errors);
      match LookupTicker(s)
      case None => ParserFallbackDisciplined(env, s0, s);
      case Some(tk) =>
        match env.fetchMarket(tk)
        case Ok(m) =>
        case Err(KalshiError(e)) =>
          ExtendsByLog(s, "Kalshi API: " + e);
          ParserFallbackDisciplined(env, s0, Log(s, "Kalshi API: " + e));
        case Err(Unexpected(e)) =>
  }

  /** A stage built on `Staged` keeps the discipline when every reply it writes does. */
  lemma StagedDisciplined(st: Stage, s0: ResearchState, gate: Check, answer: Answer, failure: string,
                          write: Reply -> ResearchState)
    requires st != Suggester
    requires forall r :: Confined(st, s0, write(r)) && write(r).errors == s0.errors && write(r).currentStep == StageName(st)
    ensures Disciplined(st, s0, Staged(s0.(currentStep := StageName(st)), gate, answer, failure, write))
  {
    var s := s0.(currentStep := StageName(st));
    match gate
    case Fail(m) => ExtendsByLog(s, m);
    case Pass =>
      match answer
      case Unparsed(e, _) => ExtendsByLog(s, failure + e);
      case Replied(r) => assert Extends(s0.errors, write(r).errors);
      case Crashed(_) =>
  }

  lemma ResearcherDisciplined(env: Env, s0: ResearchState)
    ensures Disciplined(Researcher, s0, ResearcherNode(env, s0))
  {
    var s := s0.(currentStep := StageName(Researcher));
    StagedDisciplined(Researcher, s0, MarketParsed(s), Consult(env, "independent_researcher", ResearchRequest(s)),
      "Failed to parse research: ", (r: Reply) => s.(research := Research(r.researchSummary, r.sources.GetOr([]))));
  }

  lemma EstimatorDisciplined(env: Env, s0: ResearchState)
    ensures Disciplined(Estimator, s0, EstimatorNode(env, s0))
  {
    var s := s0.(currentStep := StageName(Estimator));
    StagedDisciplined(Estimator, s0, ResearchComplete(s), Consult(env, "probability_estimator", EstimatorRequest(s)),
      "Failed to parse probability estimates: ",
      (r: Reply) => s.(estimation := Estimation(r.estimatedProbabilities.GetOr([]), r.confidenceLevel)));
  }

  lemma AnalystDisciplined(env: Env, s0: ResearchState)
    ensures Disciplined(Analyst, s0, AnalystNode(env, s0))
  {
    var s := s0.(currentStep := StageName(Analyst));
    StagedDisciplined(Analyst, s0, ProbabilitiesEstimated(s), Consult(env, "mispricing_analyst", AnalystRequest(s)),
      "Failed to parse mispricing analysis: ",
      (r: Reply) => s.(mispricing := Mispricing(r.pricingComparison.GetOr([]), r.edgeAnalysis)));
  }

  lemma RecommenderDisciplined(env: Env, s0: ResearchState, personas: seq<string>)
    ensures Disciplined(Recommender, s0, RecommenderNode(env, s0, personas))
  {
    var s := s0.(currentStep := StageName(Recommender));
    StagedDisciplined(Recommender, s0, MispricingAnalyzed(s),
      Consult(env, "persona_recommender", RecommenderRequest(s, personas)),
      "Failed to parse persona recommendations: ",
      (r: Reply) => s.(personaRecommendations := r.personaRecommendations.GetOr([])));
  }

  lemma ScenarioDisciplined(env: Env, s0: ResearchState)
    ensures Disciplined(ScenarioWriter, s0, ScenarioNode(env, s0))
  {
    var s := s0.(currentStep := StageName(ScenarioWriter));
    StagedDisciplined(ScenarioWriter, s0, Gate(ScenarioWriter, s), Consult(env, "scenario_analyst", ScenarioRequest(s)),
      "Failed to parse scenario analysis: ", (r: Reply) => s.(scenarios := r.scenarios.GetOr([])));
  }

  /** The readiness warning touches nothing but the error log, which it extends. */
  lemma WarnedOnlyLogs(s: ResearchState, personas: seq<string>)
    ensures Warned(s, personas) == s.(errors := Warned(s, personas).errors)
    ensures Extends(s.errors, Warned(s, personas).errors)
  {
    if ReadyForOutput(s, personas).Fail? {
      ExtendsByLog(s, "Warning: " + ReadyForOutput(s, personas).message);
    }
  }

  lemma SynthesizeDisciplined(s0: ResearchState, s: ResearchState, answer: Answer)
    requires s == s0.(currentStep := StageName(Suggester), errors := s.errors) && Extends(s0.errors, s.errors)
    ensures Disciplined(Suggester, s0, Synthesize(s, answer))
  {
    match answer
    case Unparsed(_, response) =>
      if !StartsWith(Strip(response), "#") {
        ExtendsByLog(s, NoReportMessage);
        ExtendsTrans(s0.errors, s.errors, Log(s, NoReportMessage).errors);
      }
    case _ =>
  }

  lemma SuggesterDisciplined(env: Env, s0: ResearchState, personas: seq<string>)
    ensures Disciplined(Suggester, s0, SuggesterNode(env, s0, personas))
  {
    var s1 := s0.(currentStep := StageName(Suggester));
    var s := Warned(s1, personas);
    WarnedOnlyLogs(s1, personas);
    SynthesizeDisciplined(s0, s, Consult(env, "final_suggester", SuggesterRequest(s)));
  }

  /**
    Every stage writes only the fields it owns, only appends to the error log,
    and leaves its own name as the current step (`"completed"` once the final
    stage returns), whether it returns or raises.
   */
  lemma {:induction false} StageDiscipline(st: Stage, personas: seq<string>, env: Env, s: ResearchState)
    ensures Disciplined(st, s, Node(st, personas, env, s))
  {
    match st
    case Ingestor => IngestorDisciplined(env, s);
    case Parser => ParserDisciplined(env, s);
    case Researcher => ResearcherDisciplined(env, s);
    case Estimator => EstimatorDisciplined(env, s);
    case Analyst => AnalystDisciplined(env, s);
    case Recommender => RecommenderDisciplined(env, s, personas);
    case ScenarioWriter => ScenarioDisciplined(env, s);
    case Suggester => SuggesterDisciplined(env, s, personas);
  }

  // --- gates ----------------------------------------------------------

  /** The gates never read the step name. */
  lemma GateIgnoresStep(st: Stage, s: ResearchState, name: string)
    ensures Gate(st, s.(currentStep := name)) == Gate(st, s)
  {
  }

  /** A stage whose precondition fails returns without consulting the model: the environment does not matter. */
  lemma GateFailureSkipsModel(st: Stage, personas: seq<string>, env: Env, other: Env, s: ResearchState)
    requires st != Suggester && Gate(st, s).Fail?
    ensures Node(st, personas, env, s) == Node(st, personas, other, s)
  {
    GateIgnoresStep(st, s, StageName(st));
  }

  /**
    A stage whose precondition fails returns normally with the failure appended
    to the log; the ingestor also records it as the input error.
   */
  lemma GateFailureIsLogged(st: Stage, personas: seq<string>, env: Env, s: ResearchState)
    requires st != Suggester && Gate(st, s).Fail?
    ensures Node(st, personas, env, s).Done?
    ensures Node(st, personas, env, s).state.errors == s.errors + [Gate(st, s).message]
    ensures Node(st, personas, env, s).state.currentStep == StageName(st)
    ensures st == Ingestor ==> Node(st, personas, env, s).state.ident.inputValidationError == Some(Gate(st, s).message)
  {
    GateIgnoresStep(st, s, StageName(st));
    var t := s.(currentStep := StageName(st));
    var m := Gate(st, s).message;
    match st
    case Ingestor => assert Node(st, personas, env, s) == Ingested(t, Fail(m), Consult(env, "market_ingestor", IngestorRequest(t)));
    case Parser => assert Node(st, personas, env, s) == Done(Log(t, m));
    case Researcher => assert ResearcherNode(env, s) == Done(Log(t, m));
    case Estimator => assert EstimatorNode(env, s) == Done(Log(t, m));
    case Analyst => assert AnalystNode(env, s) == Done(Log(t, m));
    case Recommender => assert RecommenderNode(env, s, personas) == Done(Log(t, m));
    case ScenarioWriter => assert ScenarioNode(env, s) == Done(Log(t, m));
  }

  /** A model reply the ingestor cannot parse still leaves an input error behind, which stops the run. */
  lemma IngestorParseFailureFlags(env: Env, s: ResearchState)
    requires UserInput(s).Pass?
    requires Consult(env, "market_ingestor", IngestorRequest(s.(currentStep := StageName(Ingestor)))).Unparsed?
    ensures IngestorNode(env, s).Done?
    ensures Truthy(IngestorNode(env, s).state.ident.inputValidationError)
  {
    GateIgnoresStep(Ingestor, s, StageName(Ingestor));
  }

  /**
    A reply that does not accept the input flags it exactly when its message is
    missing or a non-empty text: an explicit `null` or empty message leaves the
    input unflagged, so the run goes on to the parser.
   */
  lemma RejectionFlagsUnlessNullMessage(env: Env, s: ResearchState, r: Reply)
    requires UserInput(s).Pass? && r.validationStatus != Some("valid")
    requires Consult(env, "market_ingestor", IngestorRequest(s.(currentStep := StageName(Ingestor)))) == Replied(r)
    ensures IngestorNode(env, s).Done?
    ensures Truthy(IngestorNode(env, s).state.ident.inputValidationError) <==>
      r.validationMessage.Missing? || (r.validationMessage.Given? && r.validationMessage.value != [])
  {
    GateIgnoresStep(Ingestor, s, StageName(Ingestor));
  }

  // --- market_parser --------------------------------------------------

  /**
    When the ticker lookup succeeds the parser writes the live market data and
    never consults the model: its outcome does not depend on the skill files,
    the model or the JSON parser.
   */
  lemma ParserPrefersLiveData(env: Env, s: ResearchState, ticker: string, m: MarketData,
                              skills: string -> Result<string, string>, model: (string, Prompt) -> Result<string, string>,
                              loads: string -> Result<Parsed, string>)
    requires MarketIngested(s).Pass? && LookupTicker(s) == Some(ticker) && env.fetchMarket(ticker) == Ok(m)
    ensures ParserNode(env, s) == Done(ApplyMarket(s.(currentStep := StageName(Parser)), m, env.round4))
    ensures ParserNode(env.(loadSkill := skills, callModel := model, loads := loads), s) == ParserNode(env, s)
  {
    GateIgnoresStep(Parser, s, StageName(Parser));
    assert LookupTicker(s.(currentStep := StageName(Parser))) == LookupTicker(s);
  }

  /** A Kalshi API error is logged and the model-based fallback runs on the logged state. */
  lemma ParserLogsApiError(env: Env, s: ResearchState, ticker: string, e: string)
    requires MarketIngested(s).Pass? && LookupTicker(s) == Some(ticker) && env.fetchMarket(ticker) == Err(KalshiError(e))
    ensures ParserNode(env, s) == ParserFallback(env, Log(s.(currentStep := StageName(Parser)), "Kalshi API: " + e))
  {
    GateIgnoresStep(Parser, s, StageName(Parser));
    assert LookupTicker(s.(currentStep := StageName(Parser))) == LookupTicker(s);
  }

  /** The fallback keeps the log it is given as a prefix. */
  lemma ParserFallbackKeepsLog(env: Env, s: ResearchState)
    ensures Extends(s.errors, ParserFallback(env, s).Final().errors)
  {
    match Consult(env, "market_parser", ParserRequest(s))
    case Unparsed(f, _) => ExtendsByLog(s, "Failed to parse market mechanics: " + f);
    case _ =>
  }

  // --- blindness to prices ----------------------------------------------

  /** Two odds lists naming the same outcomes in the same order, whatever their prices. */
  predicate SameOutcomes(a: seq<MarketOdds>, b: seq<MarketOdds>) {
    |a| == |b| && forall i :: 0 <= i < |a| ==> a[i].outcome == b[i].outcome
  }

  /** `s` with its market odds replaced. */
  function Repriced(s: ResearchState, odds: seq<MarketOdds>): ResearchState {
    s.(mechanics := s.mechanics.(marketOdds := odds))
  }

  /** The research request depends on the title, the criteria and the expiry only. */
  lemma ResearchRequestBlind(s: ResearchState, t: ResearchState)
    requires s.ident.marketTitle == t.ident.marketTitle
    requires s.mechanics.resolutionCriteria == t.mechanics.resolutionCriteria
    requires s.mechanics.expirationDate == t.mechanics.expirationDate
    ensures ResearchRequest(s) == ResearchRequest(t)
  {
  }

  /** Re-pricing the outcomes, or dropping them all, leaves the research request unchanged. */
  lemma ResearchRequestIgnoresOdds(s: ResearchState, odds: seq<MarketOdds>)
    ensures ResearchRequest(Repriced(s, odds)) == ResearchRequest(s)
  {
  }

  /** Re-pricing the outcomes leaves the estimator's request unchanged. */
  lemma EstimatorRequestIgnoresPrices(s: ResearchState, odds: seq<MarketOdds>)
    requires SameOutcomes(s.mechanics.marketOdds, odds)
    ensures EstimatorRequest(Repriced(s, odds)) == EstimatorRequest(s)
  {
    assert OutcomeNames(odds) == OutcomeNames(s.mechanics.marketOdds);
  }

  /** The researcher's outcome on a re-priced state is its outcome on the original, re-priced. */
  lemma ResearcherIgnoresPrices(env: Env, s: ResearchState, odds: seq<MarketOdds>)
    requires SameOutcomes(s.mechanics.marketOdds, odds)
    ensures ResearcherNode(env, Repriced(s, odds)).Done? == ResearcherNode(env, s).Done?
    ensures ResearcherNode(env, Repriced(s, odds)).Final() == Repriced(ResearcherNode(env, s).Final(), odds)
  {
    var t := s.(currentStep := StageName(Researcher));
    assert Repriced(s, odds).(currentStep := StageName(Researcher)) == Repriced(t, odds);
    assert ResearchRequest(Repriced(t, odds)) == ResearchRequest(t);
    assert MarketParsed(Repriced(t, odds)) == MarketParsed(t);
  }

  /** The estimator's outcome on a re-priced state is its outcome on the original, re-priced. */
  lemma EstimatorIgnoresPrices(env: Env, s: ResearchState, odds: seq<MarketOdds>)
    requires SameOutcomes(s.mechanics.marketOdds, odds)
    ensures EstimatorNode(env, Repriced(s, odds)).Done? == EstimatorNode(env, s).Done?
    ensures EstimatorNode(env, Repriced(s, odds)).Final() == Repriced(EstimatorNode(env, s).Final(), odds)
  {
    var t := s.(currentStep := StageName(Estimator));
    assert Repriced(s, odds).(currentStep := StageName(Estimator)) == Repriced(t, odds);
    EstimatorRequestIgnoresPrices(t, odds);
    assert ResearchComplete(Repriced(t, odds)) == ResearchComplete(t);
  }

  // --- final_suggester --------------------------------------------------

  /** A failed readiness check is logged as a warning and the report is still requested. */
  lemma SuggesterWarnsAndContinues(env: Env, s: ResearchState, personas: seq<string>)
    requires ReadyForOutput(s, personas).Fail?
    ensures SuggesterNode(env, s, personas).Final().errors[|s.errors|] == "Warning: " + ReadyForOutput(s, personas).message
    ensures SuggesterNode(env, s, personas).Done? <==>
      !Consult(env, "final_suggester", SuggesterRequest(Warned(s.(currentStep := StageName(Suggester)), personas))).Crashed?
  {
    var s1 := s.(currentStep := StageName(Suggester));
    ReadyIgnoresStep(s, personas);
    var w := Warned(s1, personas);
    assert w.errors == s.errors + ["Warning: " + ReadyForOutput(s, personas).message];
    SynthesizeKeepsLog(w, Consult(env, "final_suggester", SuggesterRequest(w)));
  }

  lemma ReadyIgnoresStep(s: ResearchState, personas: seq<string>)
    ensures ReadyForOutput(s.(currentStep := StageName(Suggester)), personas) == ReadyForOutput(s, personas)
  {
    ReadySameFindings(s.(currentStep := StageName(Suggester)), s, personas);
  }

  /** Synthesis keeps the log it is given as a prefix, and returns unless the call itself fails. */
  lemma SynthesizeKeepsLog(s: ResearchState, answer: Answer)
    ensures Synthesize(s, answer).Final().errors[..|s.errors|] == s.errors
    ensures Synthesize(s, answer).Done? <==> !answer.Crashed?
  {
    match answer
    case Unparsed(_, response) => ExtendsByLog(s, NoReportMessage);
    case _ =>
  }

  /**
    An unparseable answer is kept as the report when, stripped, it starts with
    `#`; otherwise the failure is logged and the report stays as it was. Either
    way the run is marked completed.
   */
  lemma SuggesterSalvagesMarkdown(s: ResearchState, e: string, response: string)
    ensures Synthesize(s, Unparsed(e, response)).Done?
    ensures Synthesize(s, Unparsed(e, response)).state.currentStep == "completed"
    ensures StartsWith(Strip(response), "#") ==>
      Synthesize(s, Unparsed(e, response)).state == s.(finalOutput := Some(response), currentStep := "completed")
    ensures !StartsWith(Strip(response), "#") ==>
      Synthesize(s, Unparsed(e, response)).state == s.(errors := s.errors + [NoReportMessage], currentStep := "completed")
  {
  }
}
