/**
  The orchestrator: eight stages in a fixed order over one state, stopping
  early only when the ingestor flags the input or when one of the first two
  stages raises. A stage that raises elsewhere has its failure logged in the
  state and the run moves on, so no exception leaves a run.

  The policy is stated for any stage function `step`; `Pipeline` plugs in the
  stages of the research pipeline.
 */
module Workflow {
  import opened Common
  import opened Text
  import opened State
  import opened Nodes
  import opened NodeFacts

  const DefaultPersonas: seq<string> :=
    ["risk_averse", "risk_seeking", "news_driven", "macro_thinker", "casual_participant", "data_analyst"]

  /** `personas or DEFAULT_PERSONAS`: a missing or empty list falls back to the six defaults. */
  function ResolvePersonas(personas: Option<seq<string>>): (p: seq<string>)
    ensures p != []
    ensures personas.Some? && personas.value != [] ==> p == personas.value
    ensures personas.None? || personas.value == [] ==> p == DefaultPersonas
  {
    if personas.Some? && personas.value != [] then personas.value else DefaultPersonas
  }

  /** The stages in the order the workflow runs them. */
  const Steps: seq<Stage> := [Ingestor, Parser, Researcher, Estimator, Analyst, Recommender, ScenarioWriter, Suggester]

  /** A stage whose failure ends the run. */
  predicate Critical(st: Stage) {
    st == Ingestor || st == Parser
  }

  // ---------------------------------------------------------------------
  // Error classification
  // ---------------------------------------------------------------------

  /** The entries that do not mention "Warning" anywhere. */
  function CriticalErrors(errors: seq<string>): (c: seq<string>)
    ensures |c| <= |errors|
    ensures forall e :: e in c <==> e in errors && !Contains(e, "Warning")
  {
    if errors == [] then []
    else
      var rest := CriticalErrors(errors[1..]);
      assert forall e :: e in errors <==> e == errors[0] || e in errors[1..];
      if Contains(errors[0], "Warning") then rest else [errors[0]] + rest
  }

  /** The entries that mention "Warning" somewhere. */
  function Warnings(errors: seq<string>): (w: seq<string>)
    ensures |w| <= |errors|
    ensures forall e :: e in w <==> e in errors && Contains(e, "Warning")
  {
    if errors == [] then []
    else
      var rest := Warnings(errors[1..]);
      assert forall e :: e in errors <==> e == errors[0] || e in errors[1..];
      if Contains(errors[0], "Warning") then [errors[0]] + rest else rest
  }

  /** Every entry is either critical or a warning, never both. */
  lemma {:induction false} ErrorsPartition(errors: seq<string>)
    ensures |CriticalErrors(errors)| + |Warnings(errors)| == |errors|
  {
    if errors != [] {
      ErrorsPartition(errors[1..]);
    }
  }

  /**
    The source's test `errors and len(errors) > len(warnings)` holds exactly
    when some entry is critical.
   */
  lemma CriticalTestMeansCriticalEntry(errors: seq<string>)
    ensures (|errors| > 0 && |errors| > |Warnings(errors)|) <==> |CriticalErrors(errors)| > 0
  {
    ErrorsPartition(errors);
  }

  // ---------------------------------------------------------------------
  // Progress lines
  // ---------------------------------------------------------------------

  function Tag(st: Stage): string {
    "[" + StageName(st) + "] "
  }

  /** The line naming the latest critical error, if there is one. */
  function ErrorNote(st: Stage, errors: seq<string>): (lines: seq<string>)
    ensures |lines| <= 1
    ensures lines != [] <==> |CriticalErrors(errors)| > 0
  {
    var critical := CriticalErrors(errors);
    if |errors| > 0 && |errors| > |Warnings(errors)| then
      CriticalTestMeansCriticalEntry(errors);
      [Tag(st) + "Error: " + critical[|critical| - 1]]
    else
      CriticalTestMeansCriticalEntry(errors);
      []
  }

  const Rule: string := "============================================================"
  const Opening: seq<string> := ["\n" + Rule, "Kalshi Research Workflow Starting", Rule + "\n"]
  const Closing: seq<string> := ["\n" + Rule, "Workflow Complete", Rule + "\n"]
  const AbortLine := "Critical step failed - aborting workflow"

  /** The entry a stage's escaping exception leaves in the log. */
  function FailureEntry(st: Stage, message: string): string {
    "Step " + StageName(st) + " failed: " + message
  }

  // ---------------------------------------------------------------------
  // The loop
  // ---------------------------------------------------------------------

  /** The state the next stage sees: an escaping exception is logged on the state the stage had reached. */
  function After(st: Stage, o: StepOutcome): (t: ResearchState)
    ensures o.Done? ==> t == o.state
    ensures o.Raised? ==> t == o.partial.(errors := o.partial.errors + [FailureEntry(st, o.message)])
  {
    match o
    case Done(t) => t
    case Raised(message, partial) => partial.(errors := partial.errors + [FailureEntry(st, message)])
  }

  /** The ingestor's early `return` on a flagged input. */
  predicate Returns(st: Stage, o: StepOutcome) {
    o.Done? && st == Ingestor && Truthy(o.state.ident.inputValidationError)
  }

  /** The loop ends after this step: an early return, or a critical stage that raised. */
  predicate Stops(st: Stage, o: StepOutcome) {
    Returns(st, o) || (o.Raised? && Critical(st))
  }

  /**
    Where the loop ended up: the state, the stages whose node ran, and whether
    it left through the early `return`.
   */
  datatype Walk = Walk(state: ResearchState, executed: seq<Stage>, returned: bool)

  /** The `for` loop of `run` over the remaining `steps`, starting from `s`. */
  function Walked(step: (Stage, ResearchState) -> StepOutcome, steps: seq<Stage>, s: ResearchState): (w: Walk)
    decreases |steps|
    ensures |w.executed| <= |steps| && w.executed == steps[..|w.executed|]
    ensures steps != [] ==> w.executed != []
    ensures w.returned ==> w.executed != [] && w.executed[|w.executed| - 1] == Ingestor
    ensures |w.executed| < |steps| ==> w.executed != [] && Critical(w.executed[|w.executed| - 1])
  {
    if steps == [] then Walk(s, [], false)
    else
      var st := steps[0];
      var o := step(st, s);
      if Stops(st, o) then Walk(After(st, o), [st], Returns(st, o))
      else
        var rest := Walked(step, steps[1..], After(st, o));
        assert steps == [st] + steps[1..];
        Walk(rest.state, [st] + rest.executed, rest.returned)
  }

  /** What one step prints. */
  function StepLines(st: Stage, o: StepOutcome): seq<string> {
    var running := Tag(st) + "Running...";
    match o
    case Done(t) =>
      if Returns(st, o) then [running, Tag(st) + "Validation failed: " + t.ident.inputValidationError.value]
      else [running] + ErrorNote(st, t.errors) + [Tag(st) + "Complete"]
    case Raised(message, _) =>
      [running, Tag(st) + "FAILED: " + message] + (if Critical(st) then [AbortLine] else [])
  }

  /** The progress lines of the loop, step by step. */
  function Progress(step: (Stage, ResearchState) -> StepOutcome, steps: seq<Stage>, s: ResearchState): seq<string>
    decreases |steps|
  {
    if steps == [] then []
    else
      var o := step(steps[0], s);
      if Stops(steps[0], o) then StepLines(steps[0], o)
      else StepLines(steps[0], o) + Progress(step, steps[1..], After(steps[0], o))
  }

  /** Everything `run` prints when verbose: the banners around the progress lines, the closing one only when the loop did not return early. */
  function Printed(step: (Stage, ResearchState) -> StepOutcome, s: ResearchState, returned: bool): seq<string> {
    Opening + Progress(step, Steps, s) + (if returned then [] else Closing)
  }

  /** What `run` returns: the final state, and what it printed (nothing unless verbose). */
  datatype Outcome = Outcome(state: ResearchState, executed: seq<Stage>, printed: seq<string>)

  /** `ResearchWorkflow.run` for a given stage function. */
  function Execute(step: (Stage, ResearchState) -> StepOutcome, input: string, verbose: bool): (o: Outcome)
    ensures |o.executed| <= |Steps| && o.executed == Steps[..|o.executed|]
    ensures o.executed != [] && o.executed[0] == Ingestor
    ensures o.executed != Steps ==> Critical(o.executed[|o.executed| - 1])
    ensures !verbose ==> o.printed == []
  {
    var s := Initial(input);
    var w := Walked(step, Steps, s);
    Outcome(w.state, w.executed, if verbose then Printed(step, s, w.returned) else [])
  }

  // ---------------------------------------------------------------------
  // The policy, for any stage function
  // ---------------------------------------------------------------------

  /** No stage runs twice. */
  lemma ExecutedOnce(step: (Stage, ResearchState) -> StepOutcome, input: string, verbose: bool)
    ensures forall i, j :: 0 <= i < j < |Execute(step, input, verbose).executed| ==>
      Execute(step, input, verbose).executed[i] != Execute(step, input, verbose).executed[j]
  {
    var e := Execute(step, input, verbose).executed;
    StepsDistinct();
    forall i, j | 0 <= i < j < |e| ensures e[i] != e[j] {
      assert e[i] == Steps[i] && e[j] == Steps[j];
    }
  }

  lemma StepsDistinct()
    ensures forall i, j :: 0 <= i < j < |Steps| ==> Steps[i] != Steps[j]
  {
  }

  /** A run starts with the ingestor on the fresh state; if that flags the input, nothing else runs. */
  lemma StopsOnFlaggedInput(step: (Stage, ResearchState) -> StepOutcome, input: string, verbose: bool, t: ResearchState)
    requires step(Ingestor, Initial(input)) == Done(t) && Truthy(t.ident.inputValidationError)
    ensures Execute(step, input, verbose).state == t
    ensures Execute(step, input, verbose).executed == [Ingestor]
  {
  }

  /** If the ingestor raises, its failure is logged and nothing else runs. */
  lemma StopsWhenIngestorRaises(step: (Stage, ResearchState) -> StepOutcome, input: string, verbose: bool,
                                message: string, partial: ResearchState)
    requires step(Ingestor, Initial(input)) == Raised(message, partial)
    ensures Execute(step, input, verbose).state == partial.(errors := partial.errors + [FailureEntry(Ingestor, message)])
    ensures Execute(step, input, verbose).executed == [Ingestor]
  {
  }

  /** If the parser raises after a clean ingest, its failure is logged and nothing else runs. */
  lemma StopsWhenParserRaises(step: (Stage, ResearchState) -> StepOutcome, input: string, verbose: bool,
                              t: ResearchState, message: string, partial: ResearchState)
    requires step(Ingestor, Initial(input)) == Done(t) && !Truthy(t.ident.inputValidationError)
    requires step(Parser, t) == Raised(message, partial)
    ensures Execute(step, input, verbose).state == partial.(errors := partial.errors + [FailureEntry(Parser, message)])
    ensures Execute(step, input, verbose).executed == [Ingestor, Parser]
  {
    assert Steps[1..][1..] == Steps[2..];
  }

  /** A later stage that raises has its failure logged, and the next stage runs on that state. */
  lemma ContinuesPastLaterFault(step: (Stage, ResearchState) -> StepOutcome, steps: seq<Stage>, s: ResearchState,
                                message: string, partial: ResearchState)
    requires steps != [] && !Critical(steps[0]) && step(steps[0], s) == Raised(message, partial)
    ensures Walked(step, steps, s).state
      == Walked(step, steps[1..], partial.(errors := partial.errors + [FailureEntry(steps[0], message)])).state
    ensures Walked(step, steps, s).executed
      == [steps[0]] + Walked(step, steps[1..], partial.(errors := partial.errors + [FailureEntry(steps[0], message)])).executed
  {
  }

  /** A stage that finishes without flagging the input hands its state to the next stage. */
  lemma ContinuesAfterDone(step: (Stage, ResearchState) -> StepOutcome, steps: seq<Stage>, s: ResearchState, t: ResearchState)
    requires steps != [] && step(steps[0], s) == Done(t)
    requires steps[0] == Ingestor ==> !Truthy(t.ident.inputValidationError)
    ensures Walked(step, steps, s).state == Walked(step, steps[1..], t).state
    ensures Walked(step, steps, s).executed == [steps[0]] + Walked(step, steps[1..], t).executed
  {
  }

  /** No stage before the last one ends the loop, following the states the run actually reaches. */
  predicate NoEarlyStop(step: (Stage, ResearchState) -> StepOutcome, steps: seq<Stage>, s: ResearchState)
    decreases |steps|
  {
    |steps| <= 1
    || (!Stops(steps[0], step(steps[0], s)) && NoEarlyStop(step, steps[1..], After(steps[0], step(steps[0], s))))
  }

  /**
    Every stage runs exactly when the loop is not ended early: the early return
    and a critical stage raising are the only ways out.
   */
  lemma {:induction false} RunsEveryStage(step: (Stage, ResearchState) -> StepOutcome, steps: seq<Stage>, s: ResearchState)
    decreases |steps|
    ensures Walked(step, steps, s).executed == steps <==> NoEarlyStop(step, steps, s)
  {
    if |steps| > 1 {
      var o := step(steps[0], s);
      if !Stops(steps[0], o) {
        RunsEveryStage(step, steps[1..], After(steps[0], o));
        assert steps == [steps[0]] + steps[1..];
      }
    }
  }

  /**
    The error log only grows over a run when every stage keeps it as a prefix;
    a stage failure adds its entry on top.
   */
  lemma {:induction false} ErrorsNeverShrink(step: (Stage, ResearchState) -> StepOutcome, steps: seq<Stage>, s: ResearchState)
    requires forall st: Stage, t: ResearchState :: Extends(t.errors, step(st, t).Final().errors)
    ensures Extends(s.errors, Walked(step, steps, s).state.errors)
  {
    if steps != [] {
      var st := steps[0];
      var o := step(st, s);
      var t := After(st, o);
      assert Extends(s.errors, t.errors) by {
        assert Extends(s.errors, o.Final().errors);
        if o.Raised? {
          assert t.errors[..|o.Final().errors|] == o.Final().errors;
          ExtendsTrans(s.errors, o.Final().errors, t.errors);
        }
      }
      if !Stops(st, o) {
        ErrorsNeverShrink(step, steps[1..], t);
        ExtendsTrans(s.errors, t.errors, Walked(step, steps[1..], t).state.errors);
      }
    }
  }

  /** Verbosity only decides whether the progress lines are printed. */
  lemma VerbosityOnlyPrints(step: (Stage, ResearchState) -> StepOutcome, input: string)
    ensures Execute(step, input, true).state == Execute(step, input, false).state
    ensures Execute(step, input, true).executed == Execute(step, input, false).executed
    ensures Execute(step, input, false).printed == []
    ensures Execute(step, input, true).printed[..3] == Opening
  {
  }

  // ---------------------------------------------------------------------
  // The research pipeline
  // ---------------------------------------------------------------------

  /** The stage function of a workflow: persona-taking stages get the resolved persona list. */
  function Pipeline(env: Env, personas: Option<seq<string>>): (Stage, ResearchState) -> StepOutcome {
    (st: Stage, s: ResearchState) => Node(st, ResolvePersonas(personas), env, s)
  }

  /** `run_research(market_input, client, personas, verbose)`. */
  function Run(env: Env, personas: Option<seq<string>>, verbose: bool, input: string): Outcome {
    Execute(Pipeline(env, personas), input, verbose)
  }

  /** A blank input stops the run after the ingestor, with the reason as input error and only log entry. */
  lemma BlankInputStopsAtIngestor(env: Env, personas: Option<seq<string>>, verbose: bool, input: string)
    requires AllSpace(input)
    ensures Run(env, personas, verbose, input).executed == [Ingestor]
    ensures Run(env, personas, verbose, input).state.ident.inputValidationError == Some(Validators.NoInputMessage)
    ensures Run(env, personas, verbose, input).state.errors == [Validators.NoInputMessage]
  {
    var s := Initial(input);
    GateFailureIsLogged(Ingestor, ResolvePersonas(personas), env, s);
    var t := Node(Ingestor, ResolvePersonas(personas), env, s).state;
    StopsOnFlaggedInput(Pipeline(env, personas), input, verbose, t);
  }

  /** An ingestor that finishes without flagging the input is followed by the parser. */
  lemma ReachesParser(step: (Stage, ResearchState) -> StepOutcome, input: string, verbose: bool, t: ResearchState)
    requires step(Ingestor, Initial(input)) == Done(t) && !Truthy(t.ident.inputValidationError)
    ensures |Execute(step, input, verbose).executed| >= 2
    ensures Execute(step, input, verbose).executed[..2] == [Ingestor, Parser]
  {
    ContinuesAfterDone(step, Steps, Initial(input), t);
    var rest := Walked(step, Steps[1..], t).executed;
    assert rest != [] && rest[0] == Steps[1];
  }

  /**
    A clarification request whose message is JSON `null` leaves the input
    unflagged, so the run does not stop at the ingestor: the parser runs next.
   */
  lemma NullClarificationReachesParser(env: Env, personas: Option<seq<string>>, verbose: bool, input: string, r: Reply)
    requires !AllSpace(input)
    requires r.validationStatus == Some("needs_clarification") && r.validationMessage == Null
    requires Consult(env, "market_ingestor", IngestPrompt(input)) == Replied(r)
    ensures |Run(env, personas, verbose, input).executed| >= 2
    ensures Run(env, personas, verbose, input).executed[..2] == [Ingestor, Parser]
  {
    var s := Initial(input);
    RejectionFlagsUnlessNullMessage(env, s, r);
    var t := IngestorNode(env, s).state;
    ReachesParser(Pipeline(env, personas), input, verbose, t);
  }

  /**
    The pipeline never truncates the error log: from any state, over any
    sequence of stages, the log it ends with extends the log it started with.
   */
  lemma RunNeverForgetsErrors(env: Env, personas: Option<seq<string>>, steps: seq<Stage>, s: ResearchState)
    ensures Extends(s.errors, Walked(Pipeline(env, personas), steps, s).state.errors)
  {
    var step := Pipeline(env, personas);
    forall st: Stage, t: ResearchState ensures Extends(t.errors, step(st, t).Final().errors) {
      StageDiscipline(st, ResolvePersonas(personas), env, t);
    }
    ErrorsNeverShrink(step, steps, s);
  }

  // ---------------------------------------------------------------------
  // run_step
  // ---------------------------------------------------------------------

  /** The stage a step name names, if any. */
  function StageNamed(name: string): Option<Stage> {
    if name == "market_ingestor" then Some(Ingestor)
    else if name == "market_parser" then Some(Parser)
    else if name == "independent_researcher" then Some(Researcher)
    else if name == "probability_estimator" then Some(Estimator)
    else if name == "mispricing_analyst" then Some(Analyst)
    else if name == "persona_recommender" then Some(Recommender)
    else if name == "scenario_analyst" then Some(ScenarioWriter)
    else if name == "final_suggester" then Some(Suggester)
    else None
  }

  /** Every stage is found under its own name, and a name finds only the stage it names. */
  lemma StageNamedInverse(st: Stage, name: string)
    ensures StageNamed(StageName(st)) == Some(st)
    ensures StageNamed(name).Some? ==> StageName(StageNamed(name).value) == name
  {
  }

  /** `run_step`: the named stage on the given state, or a `ValueError` for an unknown name. */
  function RunStep(env: Env, personas: Option<seq<string>>, s: ResearchState, name: string): (r: Result<StepOutcome, string>)
    ensures StageNamed(name).Some? ==> r == Ok(Node(StageNamed(name).value, ResolvePersonas(personas), env, s))
    ensures StageNamed(name).None? ==> r == Err("Unknown step: " + name)
  {
    match StageNamed(name)
    case Some(st) => Ok(Pipeline(env, personas)(st, s))
    case None => Err("Unknown step: " + name)
  }

  /** Running a stage by its own name is running that stage. */
  lemma RunStepByName(env: Env, personas: Option<seq<string>>, s: ResearchState, st: Stage)
    ensures RunStep(env, personas, s, StageName(st)) == Ok(Node(st, ResolvePersonas(personas), env, s))
  {
    StageNamedInverse(st, StageName(st));
  }
}
