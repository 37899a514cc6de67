/**
  The eight pipeline stages. Each stage names itself in `current_step`, checks
  its precondition (appending the failure to `errors` and stopping there), asks
  the model, and writes the fields it owns from the parsed reply.

  Everything outside the process is a field of `Env`: reading a skill prompt,
  calling the model, `json.loads`, the Kalshi market lookup, `round(x, 4)` and
  the `json.dumps` renderings used in the requests. Any of them may fail; a
  failure the stage does not catch leaves the stage as `Raised`, carrying the
  state as the stage had mutated it so far.
 */
module Nodes {
  import opened Common
  import opened Text
  import opened State
  import opened Validators
  import opened KalshiApi

  // ---------------------------------------------------------------------
  // Foreign calls
  // ---------------------------------------------------------------------

  /**
    A key of a parsed JSON object that is read with a default: missing, present
    with `null`, or present with a value.
   */
  datatype Entry<+T> = Missing | Null | Given(value: T) {
    /** Python's `result.get(key, default)`: the default only when the key is missing. */
    function Get(default: T): (r: Option<T>)
      ensures r.None? <==> this.Null?
      ensures this.Missing? ==> r == Some(default)
      ensures this.Given? ==> r == Some(this.value)
    {
      match this
      case Missing => Some(default)
      case Null => None
      case Given(v) => Some(v)
    }
  }

  /**
    The fields a stage reads from a parsed JSON object. Fields read without a
    default are `None` both when the key is missing and when it holds `null`.
   */
  datatype Reply = Reply(
    validationStatus: Option<string>,
    validationMessage: Entry<string>,
    marketTitle: Option<string>,
    marketUrlOrId: Option<string>,
    resolutionCriteria: Option<string>,
    expirationDate: Option<string>,
    marketOdds: Option<seq<MarketOdds>>,
    researchSummary: Option<string>,
    sources: Option<seq<string>>,
    estimatedProbabilities: Option<seq<ProbabilityEstimate>>,
    confidenceLevel: Option<string>,
    pricingComparison: Option<seq<PricingComparison>>,
    edgeAnalysis: Option<string>,
    personaRecommendations: Option<seq<PersonaRecommendation>>,
    scenarios: Option<seq<Scenario>>,
    finalOutput: Option<string>)

  /** What `json.loads` produced: an object, or another JSON value named by its Python type. */
  datatype Parsed = Object(reply: Reply) | NotObject(typeName: string)

  /** How the market lookup failed: a `KalshiAPIError`, or any other exception. */
  datatype ApiFailure = KalshiError(message: string) | Unexpected(message: string)

  /** `KalshiMarketData`, the result of `fetch_market`. */
  datatype MarketData = MarketData(
    ticker: string,
    title: string,
    rulesPrimary: string,
    rulesSecondary: Option<string>,
    expirationTime: string,
    status: string,
    yesBid: real,
    yesAsk: real,
    noBid: real,
    noAsk: real,
    lastPrice: real,
    volume: int)

  /**
    The outside world. An `Err` is the message of the exception the call
    raises; for `loads` it is a `json.JSONDecodeError`.
   */
  datatype Env = Env(
    loadSkill: string -> Result<string, string>,
    callModel: (string, Prompt) -> Result<string, string>,
    loads: string -> Result<Parsed, string>,
    fetchMarket: string -> Result<MarketData, ApiFailure>,
    round4: real -> real,
    dumpOdds: seq<MarketOdds> -> string,
    dumpEstimates: seq<ProbabilityEstimate> -> string,
    dumpComparisons: seq<PricingComparison> -> string,
    dumpRecommendations: seq<PersonaRecommendation> -> string,
    dumpScenarios: seq<Scenario> -> string)

  // ---------------------------------------------------------------------
  // parse_json_response
  // ---------------------------------------------------------------------

  const JsonFence := "```json"
  const Fence := "```"
  const ParseFailurePrefix := "Could not parse JSON from response: "

  /** The text between an opening fence (ending at `start`) and the next fence, stripped. */
  function FencedBody(response: string, start: int): (r: string)
    ensures Trimmed(r)
  {
    var end := if start < 0 then -1 else Find(response, Fence, start);
    Strip(Slice(response, start, end))
  }

  /** The text handed to `json.loads`: a ```` ```json ```` block, else a bare ```` ``` ```` block, else everything. */
  function Candidate(response: string): (c: string)
  {
    if Contains(response, JsonFence) then FencedBody(response, Find(response, JsonFence, 0) + 7)
    else if Contains(response, Fence) then FencedBody(response, Find(response, Fence, 0) + 3)
    else response
  }

  /** The span from the first `{` to the last `}` inclusive, when both exist. */
  function BraceSpan(c: string): (r: Option<string>)
    ensures r.None? <==> !Contains(c, "{") || '}' !in c
  {
    var start := Find(c, "{", 0);
    var end := RFind(c, '}') + 1;
    if start != -1 && end != 0 then Some(Slice(c, start, end)) else None
  }

  /** `parse_json_response`: the candidate, then its brace span; otherwise a `ValueError`. */
  function ParseJsonResponse(response: string, loads: string -> Result<Parsed, string>): (r: Result<Parsed, string>)
    ensures loads(Candidate(response)).Ok? ==> r == loads(Candidate(response))
    ensures loads(Candidate(response)).Err? && BraceSpan(Candidate(response)).Some? ==>
      r == loads(BraceSpan(Candidate(response)).value)
    ensures loads(Candidate(response)).Err? && BraceSpan(Candidate(response)).None? ==>
      r == Err(ParseFailurePrefix + Slice(Candidate(response), 0, 200) + "...")
  {
    var c := Candidate(response);
    match loads(c)
    case Ok(v) => Ok(v)
    case Err(_) =>
      match BraceSpan(c)
      case Some(span) => loads(span)
      case None => Err(ParseFailurePrefix + Slice(c, 0, 200) + "...")
  }

  /** `Find` returns an occurrence once no earlier position can hold one. */
  lemma FindIs(s: string, pat: string, start: nat, k: nat)
    requires start <= k && OccursAt(s, pat, k)
    requires forall j :: start <= j < k ==> !OccursAt(s, pat, j)
    ensures Find(s, pat, start) == k
  {
  }

  /** A pattern starting with a backtick cannot occur at a backtick-free position. */
  lemma NoTickNoOccurrence(s: string, pat: string, lo: nat, hi: nat)
    requires hi <= |s| && pat != [] && pat[0] == '`'
    requires forall j :: lo <= j < hi ==> s[j] != '`'
    ensures forall j :: lo <= j < hi ==> !OccursAt(s, pat, j)
  {
    forall j | lo <= j < hi ensures !OccursAt(s, pat, j) {
    }
  }

  /** Every ```` ```json ```` fence is also a bare fence. */
  lemma JsonFenceIsFence(s: string)
    requires Contains(s, JsonFence)
    ensures Contains(s, Fence)
  {
    var k := Find(s, JsonFence, 0);
    assert s[k..k + 3] == s[k..k + 7][..3];
    ContainsAt(s, Fence, k);
  }

  /** Without any fence the whole response is the candidate. */
  lemma UnfencedIsWhole(response: string)
    requires !Contains(response, Fence)
    ensures Candidate(response) == response
  {
    if Contains(response, JsonFence) {
      JsonFenceIsFence(response);
    }
  }

  /** A ```` ```json ```` block yields its stripped body, whatever follows the closing fence. */
  lemma JsonFencedBody(pre: string, body: string, post: string)
    requires '`' !in pre && '`' !in body
    ensures Candidate(pre + JsonFence + body + Fence + post) == Strip(body)
  {
    var r := pre + JsonFence + body + Fence + post;
    var open := |pre|;
    var close := |pre| + 7 + |body|;
    assert r[open..open + 7] == JsonFence;
    assert r[close..close + 3] == Fence;
    NoTickNoOccurrence(r, JsonFence, 0, open);
    NoTickNoOccurrence(r, Fence, open + 7, close);
    assert r[open + 7..close] == body;
    BlockCandidate(r, JsonFence, open, close);
  }

  /** A bare ```` ``` ```` block yields its stripped body when no ```` ```json ```` fence appears. */
  lemma BareFencedBody(pre: string, body: string, post: string)
    requires '`' !in pre && '`' !in body && '`' !in post && body != []
    requires !StartsWith(body, "json") && !StartsWith(post, "json")
    ensures Candidate(pre + Fence + body + Fence + post) == Strip(body)
  {
    var r := pre + Fence + body + Fence + post;
    var open := |pre|;
    var close := |pre| + 3 + |body|;
    NoJsonFence(pre, body, post);
    assert r[open..open + 3] == Fence;
    assert r[close..close + 3] == Fence;
    NoTickNoOccurrence(r, Fence, 0, open);
    NoTickNoOccurrence(r, Fence, open + 3, close);
    assert r[open + 3..close] == body;
    BlockCandidate(r, Fence, open, close);
  }

  /**
    The candidate of a response whose first opening fence `open` (```` ```json ````,
    or a bare one when no ```` ```json ```` occurs) is closed at `close`.
   */
  lemma BlockCandidate(r: string, opening: string, open: nat, close: nat)
    requires opening == JsonFence || (opening == Fence && !Contains(r, JsonFence))
    requires OccursAt(r, opening, open) && forall j :: 0 <= j < open ==> !OccursAt(r, opening, j)
    requires open + |opening| <= close && OccursAt(r, Fence, close)
    requires forall j :: open + |opening| <= j < close ==> !OccursAt(r, Fence, j)
    ensures Candidate(r) == Strip(r[open + |opening|..close])
  {
    FindIs(r, opening, 0, open);
    FindIs(r, Fence, open + |opening|, close);
    FencedBodyAt(r, open + |opening|, close);
    if opening == JsonFence {
      assert Contains(r, JsonFence);
    } else {
      assert Contains(r, Fence);
    }
  }

  lemma FencedBodyAt(r: string, start: nat, close: nat)
    requires start <= close <= |r| && Find(r, Fence, start) == close
    ensures FencedBody(r, start) == Strip(r[start..close])
  {
  }

  lemma NoJsonFence(pre: string, body: string, post: string)
    requires '`' !in pre && '`' !in body && '`' !in post && body != []
    requires !StartsWith(body, "json") && !StartsWith(post, "json")
    ensures !Contains(pre + Fence + body + Fence + post, JsonFence)
  {
    var r := pre + Fence + body + Fence + post;
    var open := |pre|;
    var close := |pre| + 3 + |body|;
    NoTickNoOccurrence(r, JsonFence, 0, open);
    NoTickNoOccurrence(r, JsonFence, open + 3, close);
    NoTickNoOccurrence(r, JsonFence, close + 3, |r|);
    assert r[open + 3] == body[0];
    forall j | open < j < open + 3 ensures !OccursAt(r, JsonFence, j) {
      if j + 7 <= |r| {
        assert r[j..j + 7][open + 3 - j] == r[open + 3];
      }
    }
    forall j | close < j < close + 3 ensures !OccursAt(r, JsonFence, j) {
      if j + 7 <= |r| {
        assert r[close + 3] == post[0];
        assert r[j..j + 7][close + 3 - j] == r[close + 3];
      }
    }
    assert r[open + 3..open + 3 + |body|] == body && r[close] == '`';
    FenceNotFollowedByJson(r, open, body);
    assert r[close + 3..close + 3 + |post|] == post;
    FenceNotFollowedByJson(r, close, post);
    assert forall k :: 0 <= k < |r| ==> !OccursAt(r, JsonFence, k);
  }

  lemma FenceNotFollowedByJson(r: string, at: nat, rest: string)
    requires at + 3 + |rest| <= |r| && r[at + 3..at + 3 + |rest|] == rest
    requires !StartsWith(rest, "json")
    requires at + 3 + |rest| == |r| || r[at + 3 + |rest|] == '`'
    ensures !OccursAt(r, JsonFence, at)
  {
    if at + 7 <= |r| {
      var w := r[at..at + 7];
      if |rest| >= 4 {
        assert w[3..7] == r[at + 3..at + 7];
        assert rest[..4] == r[at + 3..at + 7];
      } else {
        assert w[3 + |rest|] == '`';
      }
    }
  }

  /** An unclosed ```` ```json ```` block loses its last character: the missing fence's -1 is used as a slice end. */
  lemma UnclosedFenceDropsLastChar(pre: string, body: string)
    requires '`' !in pre && '`' !in body && body != []
    ensures Candidate(pre + JsonFence + body) == Strip(body[..|body| - 1])
  {
    var r := pre + JsonFence + body;
    var open := |pre|;
    assert r[open..open + 7] == JsonFence;
    NoTickNoOccurrence(r, JsonFence, 0, open);
    FindIs(r, JsonFence, 0, open);
    NoTickNoOccurrence(r, Fence, open + 7, |r|);
    assert Find(r, Fence, open + 7) == -1;
    assert r[open + 7..] == body;
    SliceToLast(r, open + 7);
  }

  /** Python's `s[start:-1]`: everything from `start` except the last character. */
  lemma SliceToLast(s: string, start: nat)
    requires start < |s|
    ensures Slice(s, start, -1) == s[start..][..|s| - start - 1]
  {
  }

  /** The brace span runs from the first `{` to the last `}`. */
  lemma BraceSpanIsOutermost(pre: string, obj: string, post: string)
    requires '{' !in pre && '}' !in post
    requires |obj| >= 2 && obj[0] == '{' && obj[|obj| - 1] == '}'
    ensures BraceSpan(pre + obj + post) == Some(obj)
  {
    var c := pre + obj + post;
    assert OccursAt(c, "{", |pre|) by { assert c[|pre|..|pre| + 1] == [c[|pre|]]; }
    forall j | 0 <= j < |pre| ensures !OccursAt(c, "{", j) {
      assert c[j..j + 1] == [pre[j]];
    }
    FindIs(c, "{", 0, |pre|);
    assert c[|pre| + |obj| - 1] == '}';
    assert RFind(c, '}') == |pre| + |obj| - 1;
    assert c[|pre|..|pre| + |obj|] == obj;
  }

  // ---------------------------------------------------------------------
  // Implied probabilities from the order book
  // ---------------------------------------------------------------------

  /** The unrounded Yes and No probabilities: bid/ask midpoints, falling back to the last price. */
  function ImpliedOdds(m: MarketData): (p: (real, real))
  {
    var yes := if m.yesAsk != 0.0 then (m.yesBid + m.yesAsk) / 2.0 else m.lastPrice;
    var no := if m.noAsk != 0.0 then (m.noBid + m.noAsk) / 2.0 else 1.0 - m.lastPrice;
    if yes == 0.0 && m.lastPrice != 0.0 then (m.lastPrice, 1.0 - m.lastPrice) else (yes, no)
  }

  /** The two-entry odds list; the current price repeats the implied probability. */
  function OddsFor(m: MarketData, round4: real -> real): (odds: seq<MarketOdds>)
    ensures |odds| == 2 && odds[0].outcome == "Yes" && odds[1].outcome == "No"
    ensures forall i :: 0 <= i < 2 ==> odds[i].currentPrice == Some(odds[i].impliedProbability)
    ensures odds[0].impliedProbability == round4(ImpliedOdds(m).0)
    ensures odds[1].impliedProbability == round4(ImpliedOdds(m).1)
  {
    var (yes, no) := ImpliedOdds(m);
    [MarketOdds("Yes", round4(yes), Some(round4(yes))), MarketOdds("No", round4(no), Some(round4(no)))]
  }

  /** Each side is its bid/ask midpoint when both asks are quoted and the Yes midpoint is not zero. */
  lemma MidpointsWhenQuoted(m: MarketData)
    requires m.yesAsk != 0.0 && m.noAsk != 0.0 && m.yesBid + m.yesAsk != 0.0
    ensures ImpliedOdds(m) == ((m.yesBid + m.yesAsk) / 2.0, (m.noBid + m.noAsk) / 2.0)
  {
  }

  /** A zero Yes probability survives only when the last price is zero too. */
  lemma ZeroYesMeansNoLastPrice(m: MarketData)
    requires ImpliedOdds(m).0 == 0.0
    ensures m.lastPrice == 0.0
  {
  }

  /** With the last price as fallback the two sides sum to one. */
  lemma LastPriceFallbackSumsToOne(m: MarketData)
    requires m.yesAsk == 0.0 && m.noAsk == 0.0
    ensures ImpliedOdds(m).0 + ImpliedOdds(m).1 == 1.0
  {
  }

  /** Prices in [0, 1] give probabilities in [0, 1]. */
  lemma ImpliedOddsInUnitRange(m: MarketData)
    requires 0.0 <= m.yesBid <= 1.0 && 0.0 <= m.yesAsk <= 1.0 && 0.0 <= m.noBid <= 1.0
    requires 0.0 <= m.noAsk <= 1.0 && 0.0 <= m.lastPrice <= 1.0
    ensures 0.0 <= ImpliedOdds(m).0 <= 1.0 && 0.0 <= ImpliedOdds(m).1 <= 1.0
  {
  }

  function Quote(yesBid: real, yesAsk: real, noBid: real, noAsk: real, last: real): MarketData {
    MarketData("T", "", "", None, "", "open", yesBid, yesAsk, noBid, noAsk, last, 0)
  }

  /** Quotes .60/.64 and .36/.40 give .62 and .38; an empty book with no last trade gives 0 and 1. */
  lemma ImpliedOddsExamples()
    ensures ImpliedOdds(Quote(0.60, 0.64, 0.36, 0.40, 0.0)) == (0.62, 0.38)
    ensures ImpliedOdds(Quote(0.0, 0.0, 0.0, 0.0, 0.0)) == (0.0, 1.0)
    ensures ImpliedOdds(Quote(0.0, 0.0, 0.0, 0.0, 0.55)) == (0.55, 0.45)
  {
  }

  // ---------------------------------------------------------------------
  // Stages
  // ---------------------------------------------------------------------

  datatype Stage = Ingestor | Parser | Researcher | Estimator | Analyst | Recommender | ScenarioWriter | Suggester

  /** The step name each stage records in `current_step`. */
  function StageName(st: Stage): string {
    match st
    case Ingestor => "market_ingestor"
    case Parser => "market_parser"
    case Researcher => "independent_researcher"
    case Estimator => "probability_estimator"
    case Analyst => "mispricing_analyst"
    case Recommender => "persona_recommender"
    case ScenarioWriter => "scenario_analyst"
    case Suggester => "final_suggester"
  }

  /** How a stage ended: normally with a state, or by raising with the state as mutated so far. */
  datatype StepOutcome = Done(state: ResearchState) | Raised(message: string, partial: ResearchState) {
    function Final(): ResearchState {
      match this
      case Done(s) => s
      case Raised(_, s) => s
    }
  }

  /**
    A request to the model: which stage asks, with the values it interpolates.
    `Render` spells out the exact text `call_claude` receives; the model is
    handed the structured request, which determines that text.
   */
  datatype Prompt =
    | IngestPrompt(input: string)
    | ParsePrompt(title: Option<string>, reference: Option<string>, input: string)
    | ResearchPrompt(title: Option<string>, criteria: Option<string>, expiration: Option<string>)
    | EstimatePrompt(title: Option<string>, criteria: Option<string>, outcomes: seq<string>,
                     summary: Option<string>, sources: seq<string>)
    | AnalysisPrompt(title: Option<string>, confidence: Option<string>, estimates: seq<ProbabilityEstimate>,
                     odds: seq<MarketOdds>)
    | RecommendPrompt(title: Option<string>, comparisons: seq<PricingComparison>, edge: Option<string>,
                      personas: seq<string>)
    | ScenarioPrompt(title: Option<string>, criteria: Option<string>, expiration: Option<string>,
                     edge: Option<string>, comparisons: seq<PricingComparison>)
    | ReportPrompt(state: ResearchState)

  /** The text of a request, with `json.dumps` taken from the environment. */
  function Render(env: Env, p: Prompt): string {
    match p
    case IngestPrompt(input) => IngestText(input)
    case ParsePrompt(title, reference, input) => ParseText(title, reference, input)
    case ResearchPrompt(title, criteria, expiration) => ResearchText(title, criteria, expiration)
    case EstimatePrompt(title, criteria, outcomes, summary, sources) => EstimateText(title, criteria, outcomes, summary, sources)
    case AnalysisPrompt(title, confidence, estimates, odds) => AnalysisText(env, title, confidence, estimates, odds)
    case RecommendPrompt(title, comparisons, edge, personas) => RecommendText(env, title, comparisons, edge, personas)
    case ScenarioPrompt(title, criteria, expiration, edge, comparisons) =>
      ScenarioText(env, title, criteria, expiration, edge, comparisons)
    case ReportPrompt(s) => ReportText(env, s)
  }

  function IngestText(input: string): string {
    "Please analyze this Kalshi market input:\n\n" + input + "\n\nReturn your analysis as JSON."
  }

  function ParseText(title: Option<string>, reference: Option<string>, input: string): string {
    "Please parse this Kalshi market:\n\nMarket Title: " + Show(title)
    + "\nMarket Reference: " + Show(reference)
    + "\nOriginal Input: " + input
    + "\n\nNote: Unable to fetch live data from Kalshi API. Please extract what information\n"
    + "you can from the input, and clearly mark any fields that are unknown.\nReturn your analysis as JSON."
  }

  function ResearchText(title: Option<string>, criteria: Option<string>, expiration: Option<string>): string {
    "Please conduct independent research on this prediction market:\n\nMarket: " + Show(title)
    + "\nResolution Criteria: " + Show(criteria)
    + "\nExpiration: " + Show(expiration)
    + "\n\nResearch the factors that could affect this outcome.\n"
    + "DO NOT reference any market prices in your research.\nReturn your findings as JSON."
  }

  function EstimateText(title: Option<string>, criteria: Option<string>, outcomes: seq<string>, summary: Option<string>, sources: seq<string>): string {
    "Based on this research, estimate probabilities for the market outcomes.\n\nMarket: " + Show(title)
    + "\nResolution Criteria: " + Show(criteria)
    + "\n\nPossible Outcomes: " + Join(outcomes, ", ")
    + "\n\nResearch Summary:\n" + Show(summary)
    + "\n\nSources consulted: " + Join(sources, ", ")
    + "\n\nDO NOT look at or reference any market prices.\n"
    + "Form your probability estimates based ONLY on the research above.\nReturn your estimates as JSON."
  }

  function AnalysisText(env: Env, title: Option<string>, confidence: Option<string>, estimates: seq<ProbabilityEstimate>, odds: seq<MarketOdds>): string {
    "Compare these probability estimates to market pricing:\n\nMarket: " + Show(title)
    + "\nConfidence Level: " + Show(confidence)
    + "\n\nYour Independent Estimates:\n" + env.dumpEstimates(estimates)
    + "\n\nCurrent Market Pricing:\n" + env.dumpOdds(odds)
    + "\n\nAnalyze where mispricing might exist.\nReturn your analysis as JSON."
  }

  function RecommendText(env: Env, title: Option<string>, comparisons: seq<PricingComparison>, edge: Option<string>, personas: seq<string>): string {
    "Generate persona-specific suggestions for this market analysis:\n\nMarket: " + Show(title)
    + "\n\nPricing Comparison:\n" + env.dumpComparisons(comparisons)
    + "\n\nEdge Analysis:\n" + Show(edge)
    + "\n\nGenerate suggestions for these personas: " + Join(personas, ", ")
    + "\n\nReturn your suggestions as JSON."
  }

  function ScenarioText(env: Env, title: Option<string>, criteria: Option<string>, expiration: Option<string>, edge: Option<string>, comparisons: seq<PricingComparison>): string {
    "Generate scenario analysis for this market:\n\nMarket: " + Show(title)
    + "\nResolution: " + Show(criteria)
    + "\nExpiration: " + Show(expiration)
    + "\n\nCurrent Analysis:\n" + Show(edge)
    + "\n\nPricing Comparison:\n" + env.dumpComparisons(comparisons)
    + "\n\nGenerate best-case, worst-case, and most-likely scenarios.\nReturn your analysis as JSON."
  }

  function ReportText(env: Env, s: ResearchState): string {
    "Synthesize this analysis into a final research report:\n\n## Market Information\n- Title: " + Show(s.ident.marketTitle)
    + "\n- Reference: " + Show(s.ident.marketUrlOrId)
    + "\n- Resolution: " + Show(s.mechanics.resolutionCriteria)
    + "\n- Expiration: " + Show(s.mechanics.expirationDate)
    + "\n\n## Current Market Pricing\n" + env.dumpOdds(s.mechanics.marketOdds)
    + "\n\n## Independent Research\n" + Show(s.research.researchSummary)
    + "\n\nSources: " + Join(s.research.sources, ", ")
    + "\n\n## Probability Estimates\n" + env.dumpEstimates(s.estimation.estimatedProbabilities)
    + "\nConfidence: " + Show(s.estimation.confidenceLevel)
    + "\n\n## Mispricing Analysis\n" + env.dumpComparisons(s.mispricing.pricingComparison)
    + "\n\nEdge Analysis: " + Show(s.mispricing.edgeAnalysis)
    + "\n\n## Persona Recommendations\n" + env.dumpRecommendations(s.personaRecommendations)
    + "\n\n## Scenarios\n" + env.dumpScenarios(s.scenarios)
    + "\n\nGenerate the final report as JSON with a 'final_output' field containing markdown."
  }

  /** The answer to a request: a parsed object, a parse failure (a `ValueError`), or an uncaught exception. */
  datatype Answer = Replied(reply: Reply) | Unparsed(error: string, response: string) | Crashed(message: string)

  /** The message of the `AttributeError` raised by `.get` on a JSON value that is not an object. */
  function NoGetMessage(typeName: string): string {
    "'" + typeName + "' object has no attribute 'get'"
  }

  /** Load the skill prompt, call the model, parse the response. */
  function Consult(env: Env, skill: string, request: Prompt): (a: Answer)
    ensures env.loadSkill(skill).Err? ==> a == Crashed(env.loadSkill(skill).error)
    ensures env.loadSkill(skill).Ok? && env.callModel(env.loadSkill(skill).value, request).Err? ==>
      a == Crashed(env.callModel(env.loadSkill(skill).value, request).error)
    ensures (env.loadSkill(skill).Ok? && env.callModel(env.loadSkill(skill).value, request).Ok? &&
             ParseJsonResponse(env.callModel(env.loadSkill(skill).value, request).value, env.loads).Err?) ==>
      a == Unparsed(ParseJsonResponse(env.callModel(env.loadSkill(skill).value, request).value, env.loads).error,
                    env.callModel(env.loadSkill(skill).value, request).value)
    ensures (env.loadSkill(skill).Ok? && env.callModel(env.loadSkill(skill).value, request).Ok? &&
             ParseJsonResponse(env.callModel(env.loadSkill(skill).value, request).value, env.loads).Ok?) ==>
      match ParseJsonResponse(env.callModel(env.loadSkill(skill).value, request).value, env.loads).value
      case NotObject(t) => a == Crashed(NoGetMessage(t))
      case Object(r) => a == Replied(r)
  {
    match env.loadSkill(skill)
    case Err(e) => Crashed(e)
    case Ok(system) =>
      match env.callModel(system, request)
      case Err(e) => Crashed(e)
      case Ok(response) =>
        match ParseJsonResponse(response, env.loads)
        case Err(e) => Unparsed(e, response)
        case Ok(NotObject(t)) => Crashed(NoGetMessage(t))
        case Ok(Object(r)) => Replied(r)
  }

  /** Python's `f"{x}"` for an optional string. */
  function Show(o: Option<string>): string {
    match o
    case None => "None"
    case Some(v) => v
  }

  function Log(s: ResearchState, message: string): (t: ResearchState)
    ensures t.errors == s.errors + [message]
  {
    s.(errors := s.errors + [message])
  }

  const NoRecommendationsGateMessage := "No persona recommendations - cannot proceed to scenarios"

  /** The precondition a stage checks before calling the model; the final stage checks none up front. */
  function Gate(st: Stage, s: ResearchState): Check {
    match st
    case Ingestor => UserInput(s)
    case Parser => MarketIngested(s)
    case Researcher => MarketParsed(s)
    case Estimator => ResearchComplete(s)
    case Analyst => ProbabilitiesEstimated(s)
    case Recommender => MispricingAnalyzed(s)
    case ScenarioWriter => if s.personaRecommendations == [] then Fail(NoRecommendationsGateMessage) else Pass
    case Suggester => Pass
  }

  /**
    The course of the stages from the researcher to the scenario writer once
    the step name is recorded: a failed gate is logged and ends the stage
    before the model is asked; otherwise a parsed reply is written, a parse
    failure is logged after `failure`, and any other exception escapes.
   */
  function Staged(s: ResearchState, gate: Check, answer: Answer, failure: string, write: Reply -> ResearchState): StepOutcome {
    match gate
    case Fail(m) => Done(Log(s, m))
    case Pass =>
      match answer
      case Crashed(m) => Raised(m, s)
      case Unparsed(e, _) => Done(Log(s, failure + e))
      case Replied(r) => Done(write(r))
  }

  // --- market_ingestor -------------------------------------------------

  function IngestorRequest(s: ResearchState): Prompt {
    IngestPrompt(s.userMarketInput)
  }

  /**
    The identification a reply leads to. A rejection flags the input, which ends
    the run, unless its message is `null` or empty.
   */
  function IngestReply(id: Identification, r: Reply): (out: Identification)
    ensures r.validationStatus == Some("valid") ==>
      out == id.(marketTitle := r.marketTitle, marketUrlOrId := r.marketUrlOrId)
    ensures r.validationStatus != Some("valid") ==> out == id.(inputValidationError := out.inputValidationError)
    ensures r.validationStatus != Some("valid") ==>
      (Truthy(out.inputValidationError) <==>
         r.validationMessage.Missing? || (r.validationMessage.Given? && r.validationMessage.value != []))
    ensures r.validationStatus != Some("valid") && r.validationMessage.Given? ==>
      out.inputValidationError == Some(r.validationMessage.value)
    ensures r.validationStatus == Some("needs_clarification") && r.validationMessage.Missing? ==>
      out.inputValidationError == Some("Clarification needed")
    ensures (r.validationStatus != Some("valid") && r.validationStatus != Some("needs_clarification")
             && r.validationMessage.Missing?) ==> out.inputValidationError == Some("Invalid market input")
  {
    if r.validationStatus == Some("valid") then id.(marketTitle := r.marketTitle, marketUrlOrId := r.marketUrlOrId)
    else if r.validationStatus == Some("needs_clarification") then
      id.(inputValidationError := r.validationMessage.Get("Clarification needed"))
    else id.(inputValidationError := r.validationMessage.Get("Invalid market input"))
  }

  /** The ingestor once its step name is recorded: the input check, then the model's verdict. */
  function Ingested(s: ResearchState, check: Check, answer: Answer): StepOutcome {
    match check
    case Fail(m) => Done(Log(s.(ident := s.ident.(inputValidationError := Some(m))), m))
    case Pass =>
      match answer
      case Crashed(m) => Raised(m, s)
      case Unparsed(e, _) => Done(Log(s.(ident := s.ident.(inputValidationError := Some("Failed to parse market: " + e))), e))
      case Replied(r) => Done(s.(ident := IngestReply(s.ident, r)))
  }

  function IngestorNode(env: Env, s0: ResearchState): StepOutcome {
    var s := s0.(currentStep := StageName(Ingestor));
    Ingested(s, UserInput(s), Consult(env, "market_ingestor", IngestorRequest(s)))
  }

  // --- market_parser ---------------------------------------------------

  /** The ticker looked up: from the raw input, else from the ingested reference when that is non-empty. */
  function LookupTicker(s: ResearchState): (t: Option<string>)
    ensures ExtractTicker(s.userMarketInput).Some? ==> t == ExtractTicker(s.userMarketInput)
    ensures ExtractTicker(s.userMarketInput).None? && !Truthy(s.ident.marketUrlOrId) ==> t == None
    ensures ExtractTicker(s.userMarketInput).None? && Truthy(s.ident.marketUrlOrId) ==>
      t == ExtractTicker(s.ident.marketUrlOrId.value)
  {
    var t := ExtractTicker(s.userMarketInput);
    if t.None? && Truthy(s.ident.marketUrlOrId) then ExtractTicker(s.ident.marketUrlOrId.value) else t
  }

  const AdditionalTerms := "\n\nAdditional terms: "

  /** The resolution criteria: the primary rules, plus the secondary rules when there are any. */
  function Criteria(m: MarketData): (c: string)
    ensures Truthy(m.rulesSecondary) ==> c == m.rulesPrimary + AdditionalTerms + m.rulesSecondary.value
    ensures !Truthy(m.rulesSecondary) ==> c == m.rulesPrimary
  {
    if Truthy(m.rulesSecondary) then m.rulesPrimary + AdditionalTerms + m.rulesSecondary.value else m.rulesPrimary
  }

  /** The state after a successful market lookup. */
  function ApplyMarket(s: ResearchState, m: MarketData, round4: real -> real): (t: ResearchState)
    ensures t.mechanics == Mechanics(Some(Criteria(m)), Some(m.expirationTime), OddsFor(m, round4))
    ensures t.ident.marketTitle == (if m.title != [] then Some(m.title) else s.ident.marketTitle)
    ensures t == s.(mechanics := t.mechanics, ident := s.ident.(marketTitle := t.ident.marketTitle))
  {
    s.(mechanics := Mechanics(Some(Criteria(m)), Some(m.expirationTime), OddsFor(m, round4)),
       ident := s.ident.(marketTitle := if m.title != [] then Some(m.title) else s.ident.marketTitle))
  }

  function ParserRequest(s: ResearchState): Prompt {
    ParsePrompt(s.ident.marketTitle, s.ident.marketUrlOrId, s.userMarketInput)
  }

  /** The model-based fallback used when no ticker was found or the lookup failed. */
  function ParserFallback(env: Env, s: ResearchState): StepOutcome {
    match Consult(env, "market_parser", ParserRequest(s))
    case Crashed(m) => Raised(m, s)
    case Unparsed(e, _) => Done(Log(s, "Failed to parse market mechanics: " + e))
    case Replied(r) =>
      Done(s.(mechanics := Mechanics(r.resolutionCriteria, r.expirationDate, r.marketOdds.GetOr([]))))
  }

  function ParserNode(env: Env, s0: ResearchState): StepOutcome {
    var s := s0.(currentStep := StageName(Parser));
    match MarketIngested(s)
    case Fail(m) => Done(Log(s, m))
    case Pass =>
      match LookupTicker(s)
      case None => ParserFallback(env, s)
      case Some(t) =>
        match env.fetchMarket(t)
        case Ok(m) => Done(ApplyMarket(s, m, env.round4))
        case Err(KalshiError(e)) => ParserFallback(env, Log(s, "Kalshi API: " + e))
        case Err(Unexpected(e)) => Raised(e, s)
  }

  // --- independent_researcher ------------------------------------------

  /** The research request names the market, its criteria and its expiry, and nothing about prices. */
  function ResearchRequest(s: ResearchState): Prompt {
    ResearchPrompt(s.ident.marketTitle, s.mechanics.resolutionCriteria, s.mechanics.expirationDate)
  }

  function ResearcherNode(env: Env, s0: ResearchState): StepOutcome {
    var s := s0.(currentStep := StageName(Researcher));
    Staged(s, MarketParsed(s), Consult(env, "independent_researcher", ResearchRequest(s)), "Failed to parse research: ",
      (r: Reply) => s.(research := Research(r.researchSummary, r.sources.GetOr([]))))
  }

  // --- probability_estimator -------------------------------------------

  function OutcomeNames(odds: seq<MarketOdds>): (names: seq<string>)
    ensures |names| == |odds| && forall i :: 0 <= i < |odds| ==> names[i] == odds[i].outcome
  {
    if odds == [] then [] else [odds[0].outcome] + OutcomeNames(odds[1..])
  }

  /** The outcomes offered to the estimator: those of the parsed odds, or Yes and No. */
  function Outcomes(odds: seq<MarketOdds>): (names: seq<string>)
    ensures odds == [] ==> names == ["Yes", "No"]
    ensures odds != [] ==> names == OutcomeNames(odds)
  {
    if odds != [] then OutcomeNames(odds) else ["Yes", "No"]
  }

  /** The estimator sees outcome names, never prices. */
  function EstimatorRequest(s: ResearchState): Prompt {
    EstimatePrompt(s.ident.marketTitle, s.mechanics.resolutionCriteria, Outcomes(s.mechanics.marketOdds),
      s.research.researchSummary, s.research.sources)
  }

  function EstimatorNode(env: Env, s0: ResearchState): StepOutcome {
    var s := s0.(currentStep := StageName(Estimator));
    Staged(s, ResearchComplete(s), Consult(env, "probability_estimator", EstimatorRequest(s)), "Failed to parse probability estimates: ",
      (r: Reply) => s.(estimation := Estimation(r.estimatedProbabilities.GetOr([]), r.confidenceLevel)))
  }

  // --- mispricing_analyst ----------------------------------------------

  function AnalystRequest(s: ResearchState): Prompt {
    AnalysisPrompt(s.ident.marketTitle, s.estimation.confidenceLevel, s.estimation.estimatedProbabilities,
      s.mechanics.marketOdds)
  }

  function AnalystNode(env: Env, s0: ResearchState): StepOutcome {
    var s := s0.(currentStep := StageName(Analyst));
    Staged(s, ProbabilitiesEstimated(s), Consult(env, "mispricing_analyst", AnalystRequest(s)), "Failed to parse mispricing analysis: ",
      (r: Reply) => s.(mispricing := Mispricing(r.pricingComparison.GetOr([]), r.edgeAnalysis)))
  }

  // --- persona_recommender ---------------------------------------------

  function RecommenderRequest(s: ResearchState, personas: seq<string>): Prompt {
    RecommendPrompt(s.ident.marketTitle, s.mispricing.pricingComparison, s.mispricing.edgeAnalysis, personas)
  }

  function RecommenderNode(env: Env, s0: ResearchState, personas: seq<string>): StepOutcome {
    var s := s0.(currentStep := StageName(Recommender));
    Staged(s, MispricingAnalyzed(s), Consult(env, "persona_recommender", RecommenderRequest(s, personas)), "Failed to parse persona recommendations: ",
      (r: Reply) => s.(personaRecommendations := r.personaRecommendations.GetOr([])))
  }

  // --- scenario_analyst ------------------------------------------------

  function ScenarioRequest(s: ResearchState): Prompt {
    ScenarioPrompt(s.ident.marketTitle, s.mechanics.resolutionCriteria, s.mechanics.expirationDate,
      s.mispricing.edgeAnalysis, s.mispricing.pricingComparison)
  }

  function ScenarioNode(env: Env, s0: ResearchState): StepOutcome {
    var s := s0.(currentStep := StageName(ScenarioWriter));
    Staged(s, Gate(ScenarioWriter, s), Consult(env, "scenario_analyst", ScenarioRequest(s)), "Failed to parse scenario analysis: ",
      (r: Reply) => s.(scenarios := r.scenarios.GetOr([])))
  }

  // --- final_suggester -------------------------------------------------

  function SuggesterRequest(s: ResearchState): Prompt {
    ReportPrompt(s)
  }

  const NoReportMessage := "Failed to generate final report"

  /** The state after the readiness check: a failure is logged as a warning and work goes on. */
  function Warned(s: ResearchState, personas: seq<string>): (t: ResearchState)
    ensures ReadyForOutput(s, personas).Pass? ==> t == s
    ensures ReadyForOutput(s, personas).Fail? ==> t == Log(s, "Warning: " + ReadyForOutput(s, personas).message)
  {
    match ReadyForOutput(s, personas)
    case Pass => s
    case Fail(m) => Log(s, "Warning: " + m)
  }

  /** An unparseable response is kept as the report when, stripped, it starts with `#`. */
  function SalvageReport(s: ResearchState, response: string): ResearchState {
    if StartsWith(Strip(response), "#") then s.(finalOutput := Some(response)) else Log(s, NoReportMessage)
  }

  /** The synthesis step proper, on the state after the readiness warning. */
  function Synthesize(s: ResearchState, answer: Answer): StepOutcome {
    match answer
    case Crashed(m) => Raised(m, s)
    case Unparsed(_, response) => Done(SalvageReport(s, response).(currentStep := "completed"))
    case Replied(r) => Done(s.(finalOutput := r.finalOutput, currentStep := "completed"))
  }

  function SuggesterNode(env: Env, s0: ResearchState, personas: seq<string>): StepOutcome {
    var s := Warned(s0.(currentStep := StageName(Suggester)), personas);
    Synthesize(s, Consult(env, "final_suggester", SuggesterRequest(s)))
  }

  /** The stage run by the workflow, which always passes its persona list to the two stages that take one. */
  function Node(st: Stage, personas: seq<string>, env: Env, s: ResearchState): StepOutcome {
    match st
    case Ingestor => IngestorNode(env, s)
    case Parser => ParserNode(env, s)
    case Researcher => ResearcherNode(env, s)
    case Estimator => EstimatorNode(env, s)
    case Analyst => AnalystNode(env, s)
    case Recommender => RecommenderNode(env, s, personas)
    case ScenarioWriter => ScenarioNode(env, s)
    case Suggester => SuggesterNode(env, s, personas)
  }

  /** The Python function name of a stage. */
  function NodeFunctionName(st: Stage): string {
    StageName(st) + "_node"
  }

  /**
    `create_node_runner`: without a persona list, the two stages that need one
    are called without it and raise a `TypeError` before touching the state.
   */
  function NodeRunner(st: Stage, personas: Option<seq<string>>, env: Env, s: ResearchState): (o: StepOutcome)
    ensures personas.Some? ==> o == Node(st, personas.value, env, s)
    ensures personas.None? && (st == Recommender || st == Suggester) ==>
      o == Raised(NodeFunctionName(st) + "() missing 1 required positional argument: 'personas'", s)
  {
    match personas
    case Some(p) => Node(st, p, env, s)
    case None =>
      if st == Recommender || st == Suggester then
        Raised(NodeFunctionName(st) + "() missing 1 required positional argument: 'personas'", s)
      else Node(st, [], env, s)
  }
}
