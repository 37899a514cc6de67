/**
  The text-level pieces of the LaTeX report: escaping of the ten special
  characters, title-casing of names, truncation of rationales, the Yes/No
  lookups of the pricing table, the fallbacks for missing text, and the
  sources list.
 */
module Latex {
  import opened Common
  import opened Text
  import opened State

  // ---------------------------------------------------------------------
  // Escaping
  // ---------------------------------------------------------------------

  /** The number of replacement passes `escape_latex` makes. */
  const PassCount := 10

  /** Pass `k` of `escape_latex`: the character it replaces and its replacement, in the order applied. */
  function Pass(k: nat): (p: (char, string))
    requires k < PassCount
    ensures Special(p.0)
  {
    match k
    case 0 => ('\\', "\\textbackslash{}")
    case 1 => ('&', "\\&")
    case 2 => ('%', "\\%")
    case 3 => ('$', "\\$")
    case 4 => ('#', "\\#")
    case 5 => ('_', "\\_")
    case 6 => ('{', "\\{")
    case 7 => ('}', "\\}")
    case 8 => ('~', "\\textasciitilde{}")
    case _ => ('^', "\\textasciicircum{}")
  }

  /** The ten passes of `escape_latex`, in order. */
  function Passes(): (ps: seq<(char, string)>)
    ensures |ps| == PassCount
    ensures forall k :: 0 <= k < PassCount ==> ps[k] == Pass(k)
  {
    seq(PassCount, k requires 0 <= k < PassCount => Pass(k))
  }

  /** Passes applied one after another, each a whole `str.replace` over the text the previous one produced. */
  function ReplaceAll(text: string, reps: seq<(char, string)>): string
    decreases |reps|
  {
    if reps == [] then text else ReplaceAll(Replace(text, reps[0].0, reps[0].1), reps[1..])
  }

  /** `escape_latex`: empty text stays empty, anything else goes through the ten passes. */
  function EscapeLatex(text: string): (r: string)
    ensures text == [] ==> r == []
  {
    if text == [] then [] else ReplaceAll(text, Passes())
  }

  predicate Special(c: char) {
    c == '\\' || c == '&' || c == '%' || c == '$' || c == '#' || c == '_'
    || c == '{' || c == '}' || c == '~' || c == '^'
  }

  /**
    What one character becomes in the final text. Braces produced by the
    backslash pass are escaped by the later brace passes, while the braces
    of the tilde and caret replacements, which come after, stay bare.
   */
  function EscapeChar(c: char): (r: string)
    ensures Special(c) ==> |r| >= 2 && r[0] == '\\'
    ensures !Special(c) ==> r == [c]
  {
    match c
    case '\\' => "\\textbackslash" + "\\{" + "\\}"
    case '&' => "\\&"
    case '%' => "\\%"
    case '$' => "\\$"
    case '#' => "\\#"
    case '_' => "\\_"
    case '{' => "\\{"
    case '}' => "\\}"
    case '~' => "\\textasciitilde{}"
    case '^' => "\\textasciicircum{}"
    case _ => [c]
  }

  /** The reference escaping: each character on its own. */
  function EscapeEach(s: string): string {
    if s == [] then [] else EscapeChar(s[0]) + EscapeEach(s[1..])
  }

  /** One pass, stated so that callers need not unfold `ReplaceAll`. */
  lemma ReplaceAllStep(text: string, reps: seq<(char, string)>)
    requires reps != []
    ensures ReplaceAll(text, reps) == ReplaceAll(Replace(text, reps[0].0, reps[0].1), reps[1..])
  {
  }

  /** The passes distribute over concatenation. */
  lemma {:induction false} ReplaceAllAppend(a: string, b: string, reps: seq<(char, string)>)
    ensures ReplaceAll(a + b, reps) == ReplaceAll(a, reps) + ReplaceAll(b, reps)
    decreases |reps|
  {
    if reps != [] {
      var (c, with) := reps[0];
      ReplaceAllStep(a + b, reps);
      ReplaceAllStep(a, reps);
      ReplaceAllStep(b, reps);
      ReplaceAppend(a, b, c, with);
      ReplaceAllAppend(Replace(a, c, with), Replace(b, c, with), reps[1..]);
    }
  }

  /** Text that no pass targets goes through them all untouched. */
  lemma {:induction false} ReplaceAllUntouched(text: string, reps: seq<(char, string)>)
    requires forall i :: 0 <= i < |reps| ==> reps[i].0 !in text
    ensures ReplaceAll(text, reps) == text
    decreases |reps|
  {
    if reps != [] {
      ReplaceAllUntouched(text, reps[1..]);
    }
  }

  /** A character hit by exactly one pass becomes that pass's replacement, when no later pass touches it. */
  lemma {:induction false} ReplaceAllSingle(c: char, reps: seq<(char, string)>, m: nat)
    requires m < |reps| && reps[m].0 == c
    requires forall j :: 0 <= j < m ==> reps[j].0 != c
    requires forall j :: m < j < |reps| ==> reps[j].0 !in reps[m].1
    ensures ReplaceAll([c], reps) == reps[m].1
    decreases m
  {
    var (target, with) := reps[0];
    ReplaceAllStep([c], reps);
    assert [c][1..] == [];
    if m == 0 {
      assert Replace([c], c, with) == with + Replace([], c, with) == with;
      forall j | 0 <= j < |reps[1..]| ensures reps[1..][j].0 !in with {
        assert reps[1..][j] == reps[j + 1];
      }
      ReplaceAllUntouched(with, reps[1..]);
    } else {
      assert Replace([c], target, with) == [c];
      forall j | 0 <= j < |reps[1..]| ensures reps[1..][j] == reps[j + 1] { }
      ReplaceAllSingle(c, reps[1..], m - 1);
    }
  }

  lemma {:induction false} ReplaceAllEmpty(reps: seq<(char, string)>)
    ensures ReplaceAll([], reps) == []
    decreases |reps|
  {
    if reps != [] {
      ReplaceAllEmpty(reps[1..]);
    }
  }

  /** The pass that targets a special character. */
  function PassIndex(c: char): (m: nat)
    requires Special(c)
    ensures m < PassCount && Pass(m).0 == c
  {
    match c
    case '\\' => 0
    case '&' => 1
    case '%' => 2
    case '$' => 3
    case '#' => 4
    case '_' => 5
    case '{' => 6
    case '}' => 7
    case '~' => 8
    case _ => 9
  }

  /** No two passes target the same character. */
  lemma PassTargetsDistinct()
    ensures forall i, j :: 0 <= i < j < PassCount ==> Pass(i).0 != Pass(j).0
  {
  }

  /** Past the first pass, no later pass targets a character an earlier replacement introduced. */
  lemma LaterPassesSpareReplacements()
    ensures forall m, j :: 0 < m < j < PassCount ==> Pass(j).0 !in Pass(m).1
  {
  }

  /** The passes turn a single character into its reference escape. */
  lemma PassesOnChar(c: char)
    ensures ReplaceAll([c], Passes()) == EscapeChar(c)
  {
    if !Special(c) {
      ReplaceAllUntouched([c], Passes());
    } else if c == '\\' {
      BackslashPasses();
    } else {
      SpecialPasses(c, PassIndex(c));
    }
  }

  lemma SpecialPasses(c: char, m: nat)
    requires 0 < m < PassCount && Pass(m).0 == c
    ensures ReplaceAll([c], Passes()) == Pass(m).1
  {
    PassTargetsDistinct();
    LaterPassesSpareReplacements();
    ReplaceAllSingle(c, Passes(), m);
  }

  /**
    A lone backslash: the first pass gives `\textbackslash{}`, whose braces the
    brace passes then escape.
   */
  lemma BackslashPasses()
    ensures ReplaceAll("\\", Passes()) == "\\textbackslash" + "\\{" + "\\}"
  {
    BackslashFirstPass();
    BackslashSplit();
    BackslashWordUntouched();
    OpenBracePasses();
    CloseBracePasses();
  }

  lemma BackslashFirstPass()
    ensures ReplaceAll("\\", Passes()) == ReplaceAll(Pass(0).1, Passes()[1..])
  {
    ReplaceAllStep("\\", Passes());
    assert Replace("\\", '\\', Pass(0).1) == Pass(0).1;
  }

  lemma BackslashSplit()
    ensures ReplaceAll(Pass(0).1, Passes()[1..])
      == ReplaceAll("\\textbackslash", Passes()[1..]) + ReplaceAll("{", Passes()[1..]) + ReplaceAll("}", Passes()[1..])
  {
    var word := "\\textbackslash";
    assert Pass(0).1 == word + "{" + "}";
    ReplaceAllAppend(word + "{", "}", Passes()[1..]);
    ReplaceAllAppend(word, "{", Passes()[1..]);
  }

  lemma BackslashWordUntouched()
    ensures ReplaceAll("\\textbackslash", Passes()[1..]) == "\\textbackslash"
  {
    var later := Passes()[1..];
    forall i | 0 <= i < |later| ensures later[i].0 !in "\\textbackslash" {
      assert later[i] == Pass(i + 1);
    }
    ReplaceAllUntouched("\\textbackslash", later);
  }

  /** The braces left by the backslash pass are escaped by their own passes. */
  lemma OpenBracePasses()
    ensures ReplaceAll("{", Passes()[1..]) == "\\{"
  {
    var later := Passes()[1..];
    assert forall j :: 0 <= j < |later| ==> later[j] == Pass(j + 1);
    ReplaceAllSingle('{', later, 5);
  }

  lemma CloseBracePasses()
    ensures ReplaceAll("}", Passes()[1..]) == "\\}"
  {
    var later := Passes()[1..];
    assert forall j :: 0 <= j < |later| ==> later[j] == Pass(j + 1);
    ReplaceAllSingle('}', later, 6);
  }

  /** The ten passes agree with escaping each character on its own. */
  lemma {:induction false} EscapeIsPerCharacter(s: string)
    ensures EscapeLatex(s) == EscapeEach(s)
  {
    if s != [] {
      assert s == [s[0]] + s[1..];
      ReplaceAllAppend([s[0]], s[1..], Passes());
      PassesOnChar(s[0]);
      EscapeIsPerCharacter(s[1..]);
      ReplaceAllEmpty(Passes());
    }
  }

  lemma {:induction false} EscapeEachGrows(s: string)
    ensures |EscapeEach(s)| >= |s|
    ensures |EscapeEach(s)| == |s| <==> forall i :: 0 <= i < |s| ==> !Special(s[i])
    ensures (forall i :: 0 <= i < |s| ==> !Special(s[i])) ==> EscapeEach(s) == s
  {
    if s != [] {
      EscapeEachGrows(s[1..]);
      assert forall i :: 1 <= i < |s| ==> s[1..][i - 1] == s[i];
    }
  }

  /** Escaping never shortens text, and lengthens it exactly when a special character occurs. */
  lemma EscapeLengthens(s: string)
    ensures |EscapeLatex(s)| >= |s|
    ensures |EscapeLatex(s)| > |s| <==> exists i :: 0 <= i < |s| && Special(s[i])
  {
    EscapeIsPerCharacter(s);
    EscapeEachGrows(s);
  }

  /** Text without special characters comes through unchanged. */
  lemma EscapePlainText(s: string)
    requires forall i :: 0 <= i < |s| ==> !Special(s[i])
    ensures EscapeLatex(s) == s
  {
    EscapeIsPerCharacter(s);
    EscapeEachGrows(s);
  }

  lemma {:induction false} EscapeEachNewlines(s: string)
    ensures '\n' in EscapeEach(s) <==> '\n' in s
  {
    if s != [] {
      EscapeEachNewlines(s[1..]);
      assert s == [s[0]] + s[1..];
      assert '\n' !in EscapeChar(s[0]) || s[0] == '\n';
    }
  }

  /** Escaping neither adds nor removes line breaks. */
  lemma EscapeKeepsLines(s: string)
    ensures '\n' in EscapeLatex(s) <==> '\n' in s
  {
    EscapeIsPerCharacter(s);
    EscapeEachNewlines(s);
  }

  // ---------------------------------------------------------------------
  // Names, rationales and fallbacks
  // ---------------------------------------------------------------------

  predicate IsLetter(c: char) { IsLowerAscii(c) || IsUpperAscii(c) }

  /** Python's `str.title()` on ASCII: a letter is upper-cased after a non-letter and lower-cased after a letter. */
  function Title(s: string): (r: string)
    ensures |r| == |s|
    ensures forall i :: 0 <= i < |s| ==> r[i] == TitleAt(s, i)
  {
    seq(|s|, i requires 0 <= i < |s| => TitleAt(s, i))
  }

  function TitleAt(s: string, i: nat): (c: char)
    requires i < |s|
    ensures IsLetter(c) == IsLetter(s[i])
  {
    if i == 0 || !IsLetter(s[i - 1]) then UpperChar(s[i]) else LowerChar(s[i])
  }

  /** Title-casing twice is title-casing once. */
  lemma TitleIdempotent(s: string)
    ensures Title(Title(s)) == Title(s)
  {
    var t := Title(s);
    forall i | 0 <= i < |s| ensures Title(t)[i] == t[i] {
      if i > 0 {
        assert IsLetter(t[i - 1]) == IsLetter(s[i - 1]);
      }
    }
  }

  /** A persona or scenario name as displayed: underscores become spaces, then title case. */
  function DisplayName(name: string): (r: string)
    ensures |r| == |name|
    ensures '_' !in r
  {
    var spaced := Replace(name, '_', " ");
    ReplaceCharLength(name, '_', ' ');
    Title(spaced)
  }

  lemma {:induction false} ReplaceCharLength(s: string, target: char, with: char)
    ensures |Replace(s, target, [with])| == |s|
    ensures target != with ==> target !in Replace(s, target, [with])
  {
    if s != [] {
      ReplaceCharLength(s[1..], target, with);
    }
  }

  const RationaleLimit := 100

  /** The rationale shown in the persona table: over 100 characters it is cut to 100 and marked with "...". */
  function TruncateRationale(rationale: string): (r: string)
    ensures |rationale| <= RationaleLimit ==> r == rationale
    ensures |rationale| > RationaleLimit ==>
      |r| == RationaleLimit + 3 && r[..RationaleLimit] == rationale[..RationaleLimit] && r[RationaleLimit..] == "..."
  {
    if |rationale| > RationaleLimit then rationale[..RationaleLimit] + "..." else rationale
  }

  /** Truncating an already truncated rationale changes nothing. */
  lemma TruncateIdempotent(rationale: string)
    ensures TruncateRationale(TruncateRationale(rationale)) == TruncateRationale(rationale)
  {
    if |rationale| > RationaleLimit {
      var t := TruncateRationale(rationale);
      assert t[..RationaleLimit] == rationale[..RationaleLimit];
    }
  }

  /** The rationale cell: truncated first, then escaped. */
  function RationaleCell(rec: PersonaRecommendation): string {
    EscapeLatex(TruncateRationale(rec.rationale))
  }

  /** A short rationale without special characters is shown as written; a long one is cut before escaping. */
  lemma RationaleCellShown(rec: PersonaRecommendation)
    ensures |rec.rationale| <= RationaleLimit && (forall i :: 0 <= i < |rec.rationale| ==> !Special(rec.rationale[i]))
      ==> RationaleCell(rec) == rec.rationale
    ensures |rec.rationale| > RationaleLimit ==> RationaleCell(rec) == EscapeLatex(rec.rationale[..RationaleLimit]) + "..."
  {
    if |rec.rationale| <= RationaleLimit && (forall i :: 0 <= i < |rec.rationale| ==> !Special(rec.rationale[i])) {
      EscapePlainText(rec.rationale);
    }
    if |rec.rationale| > RationaleLimit {
      var head := rec.rationale[..RationaleLimit];
      ReplaceAllAppend(head, "...", Passes());
      ReplaceAllUntouched("...", Passes());
    }
  }

  /** Python's `value or default` for an optional text: missing or empty text falls back. */
  function OrDefault(value: Option<string>, default: string): (r: string)
    ensures Truthy(value) ==> r == value.value
    ensures !Truthy(value) ==> r == default
  {
    if Truthy(value) then value.value else default
  }

  /** The edge-analysis paragraph. */
  function EdgeText(s: ResearchState): (r: string)
    ensures r != []
  {
    var text := OrDefault(s.mispricing.edgeAnalysis, "No edge analysis available.");
    EscapeLengthens(text);
    EscapeLatex(text)
  }

  /** The research-summary paragraph. */
  function SummaryText(s: ResearchState): (r: string)
    ensures r != []
  {
    var text := OrDefault(s.research.researchSummary, "No research summary available.");
    EscapeLengthens(text);
    EscapeLatex(text)
  }

  // ---------------------------------------------------------------------
  // The pricing table
  // ---------------------------------------------------------------------

  /** The position of the first item whose outcome, lower-cased, is `want`; -1 when there is none. */
  function FirstOutcome<T>(items: seq<T>, outcome: T -> string, want: string): (i: int)
    ensures -1 <= i < |items|
    ensures i >= 0 ==> Lower(outcome(items[i])) == want
    ensures forall j :: 0 <= j < |items| && (i == -1 || j < i) ==> Lower(outcome(items[j])) != want
  {
    if items == [] then -1
    else if Lower(outcome(items[0])) == want then 0
    else
      var k := FirstOutcome(items[1..], outcome, want);
      if k == -1 then -1 else k + 1
  }

  /** A cell of the pricing table: the formatted percentage of the first matching entry, or "N/A". */
  function PercentCell(found: int, probability: real, format: real -> string): (r: string)
    ensures found < 0 ==> r == "N/A"
    ensures found >= 0 ==> r == format(probability * 100.0)
  {
    if found < 0 then "N/A" else format(probability * 100.0)
  }

  /** The market's implied probability for `want` ("yes" or "no"), as shown. */
  function MarketCell(odds: seq<MarketOdds>, want: string, format: real -> string): (r: string)
    ensures (forall o :: o in odds ==> Lower(o.outcome) != want) ==> r == "N/A"
    ensures forall j ::
      (0 <= j < |odds| && Lower(odds[j].outcome) == want && (forall k :: 0 <= k < j ==> Lower(odds[k].outcome) != want))
      ==> r == format(odds[j].impliedProbability * 100.0)
  {
    var i := FirstOutcome(odds, (o: MarketOdds) => o.outcome, want);
    PercentCell(i, if i >= 0 then odds[i].impliedProbability else 0.0, format)
  }

  /** The independent estimate for `want`, as shown. */
  function EstimateCell(estimates: seq<ProbabilityEstimate>, want: string, format: real -> string): (r: string)
    ensures (forall e :: e in estimates ==> Lower(e.outcome) != want) ==> r == "N/A"
    ensures forall j ::
      (0 <= j < |estimates| && Lower(estimates[j].outcome) == want && (forall k :: 0 <= k < j ==> Lower(estimates[k].outcome) != want))
      ==> r == format(estimates[j].estimatedProbability * 100.0)
  {
    var i := FirstOutcome(estimates, (e: ProbabilityEstimate) => e.outcome, want);
    PercentCell(i, if i >= 0 then estimates[i].estimatedProbability else 0.0, format)
  }

  /** The lookup ignores case, and an outcome that is neither yes nor no is never shown. */
  lemma LookupExamples(format: real -> string)
    ensures MarketCell([MarketOdds("YES", 0.25, None), MarketOdds("No", 0.75, None)], "yes", format) == format(0.25 * 100.0)
    ensures MarketCell([MarketOdds("YES", 0.25, None), MarketOdds("No", 0.75, None)], "no", format) == format(0.75 * 100.0)
    ensures MarketCell([MarketOdds("Above 5%", 0.4, None)], "yes", format) == "N/A"
  {
    var odds := [MarketOdds("YES", 0.25, None), MarketOdds("No", 0.75, None)];
    assert Lower("YES") == "yes";
    assert Lower("No") == "no";
    assert Lower("YES") != "no";
    assert Lower("Above 5%") != "yes" by { assert Lower("Above 5%")[0] == 'a'; }
  }

  // ---------------------------------------------------------------------
  // Sources
  // ---------------------------------------------------------------------

  const NoSourcesItem := "    \\item No sources cited"

  function SourceItem(source: string): string {
    "    \\item " + EscapeLatex(source)
  }

  /** The itemised sources: one escaped item per source, or a single placeholder item when there are none. */
  function SourcesBlock(sources: seq<string>): (r: string)
    ensures sources == [] ==> r == NoSourcesItem
  {
    if sources == [] then NoSourcesItem
    else Join(seq(|sources|, i requires 0 <= i < |sources| => SourceItem(sources[i])), "\n")
  }

  /** Sources without line breaks appear one per line, in order. */
  lemma SourcesOnePerLine(sources: seq<string>)
    requires sources != []
    requires forall i :: 0 <= i < |sources| ==> '\n' !in sources[i]
    ensures |Split(SourcesBlock(sources), '\n')| == |sources|
    ensures forall i :: 0 <= i < |sources| ==> Split(SourcesBlock(sources), '\n')[i] == SourceItem(sources[i])
  {
    var items := seq(|sources|, i requires 0 <= i < |sources| => SourceItem(sources[i]));
    forall i | 0 <= i < |items| ensures '\n' !in items[i] {
      EscapeKeepsLines(sources[i]);
      assert items[i] == "    \\item " + EscapeLatex(sources[i]);
    }
    SplitJoin(items, '\n');
  }
}
