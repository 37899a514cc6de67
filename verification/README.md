# Kalshi research pipeline — a Dafny model

This project models the core of a research pipeline for Kalshi prediction markets. A user names a
market by URL, by ticker or in prose. Eight stages then run in a fixed order over one shared
research state:

1. the market ingestor;
2. the market parser, which fetches live prices and rules from the Kalshi API;
3. the independent researcher;
4. the probability estimator;
5. the mispricing analyst;
6. the persona recommender;
7. the scenario analyst;
8. the final suggester.

Each stage checks its prerequisites with a validator, asks a language model, and records the
parsed answer. The model also covers a LaTeX report builder that escapes the collected text.

The modules follow the program's files:

| module | file | contents |
|---|---|---|
| `Common` | — | `Option`, `Result` and Python's truthiness of an optional string |
| `Text` | — | the ASCII `str` operations the code uses: `strip`, `upper`, `lower`, `find`, clamped slices, `join`, `split`, one-character `replace` |
| `State` | `src/graph/state.py` | the research state, grouped as in the dataclass; the `to_dict`/`from_dict` dictionary form over JSON-like values |
| `Validators` | `src/graph/validators.py` | the eight prerequisite checks as `Check = Pass \| Fail(message)` |
| `KalshiApi` | `src/graph/kalshi_api.py` | ticker extraction from URLs and free text, with a concrete model of `urllib.parse.urlparse` and of the ticker regular expression |
| `Nodes` | `src/graph/nodes.py` | JSON extraction from model replies, the eight stage functions and the node runner |
| `NodeFacts` | `src/graph/nodes.py` | what the stages may write, and how gates, fallbacks and price data affect them |
| `Workflow` | `src/graph/workflow.py` | the driver loop, its stop rules, its log lines and `run_step` |
| `Latex` | `src/graph/latex_generator.py` | `escape_latex`, persona and scenario names, rationale truncation, the Yes/No price lookup and the sources list |

The outside world is passed in as parameters. The record `Env` supplies:
- loading a skill prompt;
- calling the language model;
- `json.loads`;
- fetching a market;
- `round(x, 4)`;
- the five `json.dumps` calls that embed odds, estimates, comparisons, recommendations and scenarios in requests (`dumpOdds`, `dumpEstimates`, `dumpComparisons`, `dumpRecommendations`, `dumpScenarios`), which `Render` uses.

A stage returns `Done(state)`, or `Raised(message, partial)` when Python would raise. In the second
case `partial` is the state as mutated so far. Requests to the language model are built as
structured `Prompt` values, and `Render` turns a prompt into text.

## Model

| member | source | states |
|---|---|---|
| State.Initial | src/graph/state.py:51-104 | A fresh state holds the user's input, and every other field holds its declared default: `None`, an empty list, `"not_started"` for the step, no errors. |
| State.ToDict | src/graph/state.py:106-127 | The dictionary has exactly one key per state field, and each key maps to that field's value. |
| State.GetFromDict | src/graph/state.py:129-132 | Each field read back from `from_dict` is the dictionary's entry for that key. A missing key gives the field's default. |
| State.LookupToDict | src/graph/state.py:106-132 | Looking a field up in `to_dict(s)` gives that field of `s`. |
| State.FromDictToDict | src/graph/state.py:106-132 | `from_dict(to_dict(s)) == s` for every state. |
| State.ToDictFromDict | src/graph/state.py:106-132 | For a dictionary of well-typed entries, `to_dict(from_dict(d))` agrees with `d` on every field key. |
| State.FromDictIgnoresExtraKeys | src/graph/state.py:129-132 | Keys that name no field do not change the state `from_dict` builds. |
| State.InitialIsFromDict | src/graph/state.py:51-132 | A state built from the input alone equals `from_dict` of a dictionary holding only the input. |
| Validators.UserInput | src/graph/validators.py:16-21 | Passes exactly when the input has a non-whitespace character. Otherwise it fails with the "no input" message. |
| Validators.MarketIngested | src/graph/validators.py:24-33 | Passes exactly when no validation error is set and a title is present. A set validation error takes precedence and is quoted in the message. |
| Validators.MarketParsed | src/graph/validators.py:36-45 | Passes exactly when resolution criteria are present and odds are non-empty. Each failure gets its own message, with criteria checked first. |
| Validators.ResearchComplete | src/graph/validators.py:48-57 | Passes exactly when a summary is present and sources are non-empty. The summary is checked first. |
| Validators.ProbabilitiesEstimated | src/graph/validators.py:60-78 | Passes exactly when estimates exist, their sum lies in [0.95, 1.05] and a confidence level is present. Failures are reported in that order, each with its message. |
| Validators.SumBandExamples | src/graph/validators.py:66-73 | The band is closed: totals of 0.95, 0.96, 1.00 and 1.05 pass, and totals of 0.94 and 1.06 fail with the sum message. |
| Validators.MispricingAnalyzed | src/graph/validators.py:81-90 | Passes exactly when comparisons are non-empty and an edge analysis is present. The comparisons are checked first. |
| Validators.Missing | src/graph/validators.py:100-101 | Holds exactly the required personas that no recommendation names. |
| Validators.PersonasCovered | src/graph/validators.py:93-106 | Passes exactly when there are recommendations and every required persona has one. An empty list fails with its own message. Any other failure names the missing personas after the "Missing recommendations" prefix. |
| Validators.ScenariosComplete | src/graph/validators.py:109-123 | Passes exactly when scenarios exist and best, worst and most likely cases are all present. An empty list fails with its own message. Any other failure names the missing types after the "Missing scenario types" prefix. |
| Validators.FirstFailure | src/graph/validators.py:126-134 | Passes exactly when all checks pass. Otherwise it reports the first failing check, and every check before it passes. |
| Validators.ReadyForOutput | src/graph/validators.py:126-134 | Passes exactly when all seven stage checks pass. |
| Validators.ReadySameFindings | src/graph/validators.py:126-134 | Two states with the same stage findings are equally ready; the input, the step name and the log play no part. |
| Validators.ReadyIgnoresUserInput | src/graph/validators.py:126-134 | Readiness does not depend on the raw user input. |
| KalshiApi.SegmentTicker | src/graph/kalshi_api.py:58-62 | A path segment yields a ticker exactly when it is non-empty and made only of letters, digits and hyphens. The ticker is the segment upper-cased. |
| KalshiApi.PathTickerIsLastSegment | src/graph/kalshi_api.py:52-62 | The ticker of a path is taken from its last segment. |
| KalshiApi.PathTickerIgnoresTrailingSlash | src/graph/kalshi_api.py:52-62 | A trailing slash does not change the extracted ticker, because empty segments are dropped. |
| KalshiApi.PathTickerOfSlashes | src/graph/kalshi_api.py:52-55 | A path made only of slashes yields no ticker. |
| KalshiApi.HttpsUrlPath | src/graph/kalshi_api.py:51-52 | For a plain `https://host/rest` URL, the parsed path is `/rest`. |
| KalshiApi.MarketUrlTicker | src/graph/kalshi_api.py:40-64 | A market URL ending in a ticker-shaped segment yields that segment, upper-cased. |
| KalshiApi.ExtractFromUrl | src/graph/kalshi_api.py:40-64 | Any ticker found in a URL is non-empty and ticker-shaped. |
| KalshiApi.MatchAt | src/graph/kalshi_api.py:88-89 | Finds a regex match at a position exactly when some token starts there, and returns the longest such token. |
| KalshiApi.Matches | src/graph/kalshi_api.py:88-89 | Every match is ticker-shaped with at least 3 characters. The list is empty exactly when no token occurs. Otherwise its first element is the leftmost token, taken at its longest. |
| KalshiApi.MatchesAreTokens | src/graph/kalshi_api.py:88-89 | Every match `findall` returns from a position is a token of the text: a `\b`-bounded capital followed by two or more ticker characters, starting at or after that position. |
| KalshiApi.MatchesFrom | src/graph/kalshi_api.py:88-89 | When the leftmost token from a position starts at `k` and its longest form ends at `e`, `findall` returns that token first and resumes the search at `e`, so later matches never overlap it. |
| KalshiApi.FirstUncommon | src/graph/kalshi_api.py:92-97 | Returns nothing exactly when every match is a common word. Otherwise it returns the first match that is not one. |
| KalshiApi.ExtractTicker | src/graph/kalshi_api.py:67-97 | Any ticker extracted from an input is non-empty and made only of letters, digits and hyphens. |
| KalshiApi.Decide | src/graph/kalshi_api.py:79-97 | After stripping, the URL rule, the bare-ticker rule and the scan each yield only non-empty, ticker-shaped results. |
| KalshiApi.ScanTicker | src/graph/kalshi_api.py:86-97 | The free-text scan returns the first `findall` match that is not a common word. That answer is a token occurring in the upper-cased text, and it is ticker-shaped. It returns nothing exactly when every match is a common word. |
| KalshiApi.BlankInputHasNoTicker | src/graph/kalshi_api.py:76-97 | A blank or whitespace-only input yields no ticker. |
| KalshiApi.UrlInputUsesUrlRuleOnly | src/graph/kalshi_api.py:79-80 | Input starting with `http` is decided by the URL rule alone. There is no fall-back to the text scan. |
| KalshiApi.BareInputUppercased | src/graph/kalshi_api.py:76-84 | Any input of at most 50 characters that does not start with `http` and whose upper-case form is ticker-shaped yields that upper-case form. Mixed case and common words are included. |
| KalshiApi.BareTickerIsItself | src/graph/kalshi_api.py:83-84 | A ticker-shaped input of at most 50 characters is its own ticker. |
| KalshiApi.ExtractIdempotent | src/graph/kalshi_api.py:67-97 | Extracting again from an extracted ticker of at most 50 characters gives the same ticker. |
| KalshiApi.CommonWordAsBareTicker | src/graph/kalshi_api.py:83-84 | The common-word filter applies only to the scan: the bare input `yes` yields `YES`. |
| KalshiApi.ScanTakesFirstUncommonWord | src/graph/kalshi_api.py:86-97 | "Check the INDIACLIMATE-30 market" yields `CHECK`, the first non-common word of three or more letters. |
| KalshiApi.ScanTakesLeadingWord | src/graph/kalshi_api.py:86-97 | When the upper-cased text starts with a complete, non-common token, the scan returns that token. |
| Nodes.BraceSpan | src/graph/nodes.py:70-74 | A brace span exists exactly when the text contains both `{` and `}`. |
| Nodes.ParseJsonResponse | src/graph/nodes.py:55-75 | The candidate text (the fenced block, or else the whole reply) is parsed first. If that fails, the span from the first `{` to the last `}` is parsed. With no brace span, it fails with the "Could not parse JSON" message quoting the first 200 characters of the candidate. |
| Nodes.UnfencedIsWhole | src/graph/nodes.py:62-68 | A reply without a code fence is parsed as a whole. |
| Nodes.JsonFencedBody | src/graph/nodes.py:62-64 | The text inside a ```` ```json ```` fence, stripped, is the candidate. |
| Nodes.BareFencedBody | src/graph/nodes.py:65-67 | The text inside a bare ```` ``` ```` fence, stripped, is the candidate when no `json` fence occurs. |
| Nodes.UnclosedFenceDropsLastChar | src/graph/nodes.py:62-64 | When a `json` fence is never closed, the candidate is the rest of the reply minus its last character. This follows Python's `[start:-1]`. |
| Nodes.BraceSpanIsOutermost | src/graph/nodes.py:70-74 | The brace fallback takes the outermost object when no brace surrounds it. |
| Nodes.OddsFor | src/graph/nodes.py:163-174 | The live odds are exactly a Yes entry and a No entry. Each current price equals its implied probability, and each probability is the rounded midpoint or fallback. |
| Nodes.MidpointsWhenQuoted | src/graph/nodes.py:155-161 | When both asks are quoted and the Yes midpoint is not zero, the odds are the bid/ask midpoints. |
| Nodes.LastPriceFallbackSumsToOne | src/graph/nodes.py:155-161 | Without quotes, Yes and No come from the last price and sum to one. |
| Nodes.ZeroYesMeansNoLastPrice | src/graph/nodes.py:159-161 | A zero Yes probability can only come from a zero last price. |
| Nodes.ImpliedOddsInUnitRange | src/graph/nodes.py:155-161 | Prices in [0, 1] give probabilities in [0, 1]. |
| Nodes.ImpliedOddsExamples | src/graph/nodes.py:155-161 | Midpoints 0.62/0.38 for a quoted market. With no quotes and no last price the result is 0/1, and with last price 0.55 it is 0.55/0.45. |
| Nodes.Criteria | src/graph/nodes.py:146-148 | The resolution criteria are the primary rules, followed by the "Additional terms" paragraph only when secondary rules are present. |
| Nodes.LookupTicker | src/graph/nodes.py:137-139 | The ticker comes from the user input, and from the ingested reference only when the input yields none. |
| Nodes.ApplyMarket | src/graph/nodes.py:143-176 | Live data sets the criteria, the expiration and the odds. The title is replaced only when the API gives a non-empty one, and nothing else changes. |
| Nodes.IngestReply | src/graph/nodes.py:105-112 | A `valid` reply sets the title and reference. Any other status changes only the validation error, which is the reply's message when one is given. A missing message uses the source's default for that status, and a JSON `null` message stores `None`. The input ends up flagged exactly when the message is missing or non-empty. |
| Nodes.Consult | src/graph/nodes.py:33-52 | A failure to load the skill or to call the model surfaces as that failure. A reply that cannot be parsed as JSON is reported with its parse error and the raw reply. A JSON value that is not an object fails as `.get` on it would, and an object is the stage's reply. |
| Nodes.Warned | src/graph/nodes.py:436-439 | A ready state is unchanged. Otherwise exactly one "Warning: …" entry is logged. |
| Nodes.Outcomes | src/graph/nodes.py:260-261 | The estimator asks about the outcomes named in the market odds, or Yes and No when there are none. |
| Nodes.NodeRunner | src/graph/nodes.py:496-508 | With personas, the runner calls the stage with them. Without personas, the recommender and the suggester raise Python's missing-argument `TypeError`. |
| NodeFacts.IngestorDisciplined | src/graph/nodes.py:78-118 | The ingestor changes only its own fields, the step name and the error log, and only appends to the log. |
| NodeFacts.ParserDisciplined | src/graph/nodes.py:121-204 | The same discipline holds for the parser. |
| NodeFacts.ResearcherDisciplined | src/graph/nodes.py:207-242 | The same discipline holds for the researcher. |
| NodeFacts.EstimatorDisciplined | src/graph/nodes.py:245-289 | The same discipline holds for the estimator. |
| NodeFacts.AnalystDisciplined | src/graph/nodes.py:292-336 | The same discipline holds for the analyst. |
| NodeFacts.RecommenderDisciplined | src/graph/nodes.py:339-380 | The same discipline holds for the recommender. |
| NodeFacts.ScenarioDisciplined | src/graph/nodes.py:383-423 | The same discipline holds for the scenario analyst. |
| NodeFacts.SuggesterDisciplined | src/graph/nodes.py:426-492 | The same discipline holds for the final suggester. |
| NodeFacts.StageDiscipline | src/graph/nodes.py:78-492 | Every stage, whether it finishes or raises, writes only its own fields and never removes an error entry. |
| NodeFacts.GateIgnoresStep | src/graph/nodes.py:85-92 | Setting the step name before the gate does not change the gate's verdict. |
| NodeFacts.GateFailureSkipsModel | src/graph/nodes.py:87-92 | When a stage's prerequisite check fails, its result does not depend on the environment: no model is called. |
| NodeFacts.GateFailureIsLogged | src/graph/nodes.py:87-92 | A failed gate returns normally. It appends exactly the failure message and sets the step name; for the ingestor it also sets the validation error. |
| NodeFacts.RejectionFlagsUnlessNullMessage | src/graph/nodes.py:87-112 | Once the input check passes, a reply that does not accept the input flags it exactly when the reply's message is missing or non-empty. |
| NodeFacts.IngestorParseFailureFlags | src/graph/nodes.py:114-116 | An unparsable ingestor reply flags the input as invalid. |
| NodeFacts.ParserPrefersLiveData | src/graph/nodes.py:137-176 | When a ticker is found and the fetch succeeds, the parser uses the live data and never consults the model. |
| NodeFacts.ParserLogsApiError | src/graph/nodes.py:178-183 | A Kalshi API error is logged as "Kalshi API: …" before the model fallback runs. |
| NodeFacts.ParserFallbackKeepsLog | src/graph/nodes.py:183-204 | The model fallback keeps every error entry already logged. |
| NodeFacts.ResearchRequestIgnoresOdds | src/graph/nodes.py:223-231 | The researcher's request is the same whatever the market odds are, so prices never reach it. |
| NodeFacts.EstimatorRequestIgnoresPrices | src/graph/nodes.py:260-278 | The estimator's request is the same for any prices with the same outcome names. |
| NodeFacts.ResearcherIgnoresPrices | src/graph/nodes.py:207-242 | Repricing the market before the researcher runs only reprices its result. |
| NodeFacts.EstimatorIgnoresPrices | src/graph/nodes.py:245-289 | Repricing the market before the estimator runs only reprices its result. |
| NodeFacts.SuggesterWarnsAndContinues | src/graph/nodes.py:436-439 | An unready state gets a "Warning: …" entry, and the suggester still asks the model. |
| NodeFacts.SynthesizeKeepsLog | src/graph/nodes.py:478-492 | The suggester's ending keeps the earlier log. It raises exactly when the model call raised. |
| NodeFacts.SuggesterSalvagesMarkdown | src/graph/nodes.py:484-492 | An unparsable reply that starts with `#` becomes the report. Any other unparsable reply is logged. Either way the step ends "completed". |
| Workflow.ResolvePersonas | src/graph/workflow.py:28-60 | The persona list is never empty. It is the caller's list when that list is non-empty, and the six defaults otherwise. |
| Workflow.CriticalErrors | src/graph/workflow.py:107-109 | Holds exactly the entries without "Warning". |
| Workflow.Warnings | src/graph/workflow.py:107-108 | Holds exactly the entries containing "Warning". |
| Workflow.ErrorsPartition | src/graph/workflow.py:107-109 | Critical entries and warnings together account for the whole log. |
| Workflow.CriticalTestMeansCriticalEntry | src/graph/workflow.py:107-109 | The loop's length comparison holds exactly when some critical entry exists, so its inner check is redundant. |
| Workflow.ErrorNote | src/graph/workflow.py:107-111 | At most one error line is printed per step, and it appears exactly when a critical entry exists. |
| Workflow.After | src/graph/workflow.py:99-118 | A finished stage passes its state on. A raising stage's partial state gets "Step … failed: …" appended. |
| Workflow.Walked | src/graph/workflow.py:96-123 | The stages run form a prefix of the step list. A run that stops early ends at a critical stage, and one that returns early ends at the ingestor. |
| Workflow.Execute | src/graph/workflow.py:80-129 | A run always starts with the ingestor, runs a prefix of the eight stages, and stops early only at the ingestor or the parser. It prints nothing when not verbose. |
| Workflow.ExecutedOnce | src/graph/workflow.py:64-73 | No stage runs twice in one run. |
| Workflow.StopsOnFlaggedInput | src/graph/workflow.py:103-105 | When the ingestor flags the input, the run returns its state right away. |
| Workflow.StopsWhenIngestorRaises | src/graph/workflow.py:115-123 | When the ingestor raises, the failure is logged and the run stops. |
| Workflow.StopsWhenParserRaises | src/graph/workflow.py:115-123 | When the parser raises, the failure is logged and the run stops after two stages. |
| Workflow.ContinuesPastLaterFault | src/graph/workflow.py:115-123 | A non-critical stage that raises is logged, and the run continues from its partial state. |
| Workflow.ContinuesAfterDone | src/graph/workflow.py:96-113 | A stage that finishes, without the ingestor flagging the input, hands its state to the next stage and the run goes on. |
| Workflow.RunsEveryStage | src/graph/workflow.py:96-123 | Every stage runs, in order, exactly when no stage before the last ends the loop on the states the run reaches. The only ways to end it are the ingestor's early return and a critical stage raising. |
| Workflow.ErrorsNeverShrink | src/graph/workflow.py:96-123 | If every stage only appends to the log, the run's final log extends the initial one. |
| Workflow.VerbosityOnlyPrints | src/graph/workflow.py:75-78 | Verbosity changes only the printed lines, never the state or the stages run. |
| Workflow.BlankInputStopsAtIngestor | src/graph/workflow.py:90-105 | A blank input stops the run after the ingestor, with the "no input" error both flagged and logged. |
| Workflow.ReachesParser | src/graph/workflow.py:96-113 | For any stage function, an ingestor that finishes without flagging the input is followed by the parser. |
| Workflow.NullClarificationReachesParser | src/graph/workflow.py:99-113 | A non-blank input whose ingestor reply asks for clarification with a `null` message is not flagged, so the parser runs second. |
| Workflow.RunNeverForgetsErrors | src/graph/workflow.py:96-123 | With the real stages, from any state and over any sequence of stages, the final error log extends the starting one. |
| Workflow.StageNamedInverse | src/graph/workflow.py:64-73 | Step names and stages correspond one to one. |
| Workflow.RunStep | src/graph/workflow.py:131-146 | A known step name runs that stage. An unknown name raises "Unknown step: …". |
| Workflow.RunStepByName | src/graph/workflow.py:131-144 | Running a stage by its own name runs that stage. |
| Latex.Pass | src/graph/latex_generator.py:16-27 | Each replacement pass targets one of the ten special characters. |
| Latex.PassTargetsDistinct | src/graph/latex_generator.py:16-27 | No character is replaced by two passes. |
| Latex.EscapeLatex | src/graph/latex_generator.py:12-30 | Empty text escapes to empty text, as the early return gives. |
| Latex.EscapeIsPerCharacter | src/graph/latex_generator.py:12-30 | The ten sequential replacements equal escaping each character on its own. |
| Latex.EscapeChar | src/graph/latex_generator.py:16-27 | A special character becomes a command starting with `\`. Every other character is kept. |
| Latex.BackslashPasses | src/graph/latex_generator.py:17-29 | A backslash becomes `\textbackslash\{\}`, because the later brace passes escape the braces of its replacement. |
| Latex.EscapeLengthens | src/graph/latex_generator.py:12-30 | Escaping never shortens text. It lengthens it exactly when a special character occurs. |
| Latex.EscapePlainText | src/graph/latex_generator.py:12-30 | Text without special characters is unchanged. |
| Latex.EscapeKeepsLines | src/graph/latex_generator.py:12-30 | Escaping neither adds nor removes line breaks. |
| Latex.DisplayName | src/graph/latex_generator.py:53 | A display name keeps the length and contains no underscore. |
| Latex.TitleIdempotent | src/graph/latex_generator.py:53 | Title-casing twice is the same as once. |
| Latex.TruncateRationale | src/graph/latex_generator.py:55 | A rationale of at most 100 characters is kept. A longer one becomes its first 100 characters plus "...". |
| Latex.TruncateIdempotent | src/graph/latex_generator.py:55 | Truncating an already truncated rationale changes nothing. |
| Latex.RationaleCellShown | src/graph/latex_generator.py:55 | A short rationale without special characters is shown verbatim. A long one is escaped after truncation. |
| Latex.OrDefault | src/graph/latex_generator.py:80-83 | An empty or absent text is replaced by the fallback sentence. |
| Latex.FirstOutcome | src/graph/latex_generator.py:37-44 | Finds the first entry whose outcome, lower-cased, is the wanted one, or reports that none matches. |
| Latex.MarketCell | src/graph/latex_generator.py:37-41 | The market percentage comes from the first matching outcome, ignoring case. It is "N/A" when none matches. |
| Latex.EstimateCell | src/graph/latex_generator.py:44-48 | The estimate percentage comes from the first matching outcome, ignoring case. It is "N/A" when none matches. |
| Latex.LookupExamples | src/graph/latex_generator.py:37-41 | "YES" matches `yes`, and an absent outcome gives "N/A". |
| Latex.SourcesBlock | src/graph/latex_generator.py:86 | No sources gives the single "No sources cited" item. |
| Latex.SourcesOnePerLine | src/graph/latex_generator.py:86 | With sources, the block has exactly one escaped `\item` line per source, in order. |

## Left out

- Network, disk and model I/O: `load_skill`, `call_claude` (`src/graph/nodes.py:33-52`) and `fetch_market` (`src/graph/kalshi_api.py:100-162`) are functions of the `Env` parameter. Their failures are modelled as `Err` values.
- `json.loads` and `json.dumps`: `loads` is an `Env` parameter. Requests that embed `json.dumps` output are kept as structured `Prompt` values, not as text.
- Floating point: prices and probabilities are `real`. `round(x, 4)` is an `Env` parameter. The `:.1f` percentage formatting is a `format` parameter of the cell functions.
- `search_markets` (`src/graph/kalshi_api.py:165-199`) is not used by the pipeline's stages and is not modelled.
- `MarketData`'s string fields are always strings. `fetch_market` reads `title`, `rules_primary` and the expiration with `.get`, which gives `None` for a JSON `null`. A `null` `rules_primary` with truthy secondary rules then makes `src/graph/nodes.py:148` raise `TypeError`. The parser catches only `KalshiAPIError`, so the stage raises and the driver logs the parser as failed and stops. The fetch is a parameter returning typed data, so this case cannot be expressed.
- `to_float` and `to_int` in `fetch_market` (`src/graph/kalshi_api.py:131-147`) belong to the fetch, which is a parameter.
- Validators.ProbabilitiesEstimated: the sum failure message states the band instead of the total formatted with `:.2f`, which would need float formatting.
- Node error entries that embed `str(e)` of a Python exception use the error text the `Env` functions return.
- Printing and clocks: `_log` output is modelled as the list of printed lines in `Workflow.Printed`. `datetime` and file saving (`save_latex_report`) are not modelled.
- The rest of the LaTeX template (`src/graph/latex_generator.py:88-216`) is literal text around the pieces modelled here.
- `urlparse` is modelled concretely for ASCII input. The `ValueError` it raises on a malformed bracketed host is not modelled.
- Text is ASCII: `upper`, `lower`, `title` and `isspace` follow their ASCII behaviour only.
- Validators.PersonasCovered: the failure message lists the missing personas in required-list order, without repeats. Python joins a `set`, whose iteration order is unspecified.
- Validators.ScenariosComplete: the failure message lists the missing types in the order best, worst, most likely, for the same reason.
- State.GetFromDict: a dictionary value of the wrong JSON kind falls back to the field's default, because the typed state cannot hold it. `from_dict` would store it as given.
- State.GetFromDict: JSON `null` is treated as an absent key.
- Latex.EstimateCell: an estimate entry without an `outcome` key (`src/graph/latex_generator.py:44-45`) or without its probability key would raise `KeyError`. Neither can be expressed, because entries are typed records.
- Latex.MarketCell: an odds entry without an `outcome` key makes `src/graph/latex_generator.py:37-38` raise `KeyError`. This cannot be expressed, because entries are typed records.
- Nodes.Outcomes: an odds entry without an `outcome` key makes `src/graph/nodes.py:261` raise `KeyError`. This cannot be expressed, for the same reason.
- Validators.ProbabilitiesEstimated: an estimate without `estimated_probability` makes `src/graph/validators.py:68` raise `KeyError`. This cannot be expressed.
- Validators.PersonasCovered: a recommendation without `persona` makes `src/graph/validators.py:100` raise `KeyError`. This cannot be expressed.
- Validators.ScenariosComplete: a scenario without `type` makes `src/graph/validators.py:116` raise `KeyError`. This cannot be expressed.
- Nodes.ResearcherNode: a reply whose `sources` is JSON `null` stores `[]`. Python stores `None`, so the estimator's `', '.join(state.sources)` (`src/graph/nodes.py:274`) raises `TypeError` and that stage fails. The state's list fields cannot hold `None`.
- Nodes.ParserFallback: the same `null`-to-`[]` conflation applies to `market_odds`.
- Nodes.EstimatorNode: the same conflation applies to `estimated_probabilities`.
- Nodes.AnalystNode: the same conflation applies to `pricing_comparison`.
- Nodes.RecommenderNode: the same conflation applies to `persona_recommendations`.
- Nodes.ScenarioNode: the same conflation applies to `scenarios`.
- Reply values of the wrong JSON type (a number where a string is expected, say) cannot be expressed, because `loads` returns typed replies. The one exception is a non-object result, which is modelled.
- `main.py`, `__init__.py`, `create_research_workflow` and `run_research` are thin wrappers around `Workflow.Run` and are not modelled.
