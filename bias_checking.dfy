/** The deterministic parts of agents/bias_checking_agent.py: the line parser
    for the classifier's reply, the text extractor that prepares content for
    it, the human-readable report, and the short-circuits around the two
    language-model calls, whose replies are inputs here. */
module BiasChecking {
  import opened Wrappers
  import opened Text

  // ---------------------------------------------------------------------------
  // Parsing the classifier's reply

  datatype Section = NoSection | Issues | Recommendations | Assessment

  /** The parser's state: the `result` dictionary's changing entries and the
      current section. */
  datatype ParseState = ParseState(
    score: int,
    acceptable: bool,
    issues: seq<string>,
    recommendations: seq<string>,
    section: Section)

  const InitialState := ParseState(7, true, [], [], NoSection)

  /** The dictionary returned by `check_content_bias`. */
  datatype BiasResult = BiasResult(
    biasScore: int,
    isAcceptable: bool,
    issuesFound: seq<string>,
    recommendations: seq<string>,
    analysis: string,
    error: Option<string>)

  function Clamp(v: int): (r: int)
    ensures 0 <= r <= 10
    ensures 0 <= v <= 10 ==> r == v
    ensures v < 0 ==> r == 0
    ensures v > 10 ==> r == 10
  {
    if v < 0 then 0 else if v > 10 then 10 else v
  }

  /** The text between the first and the second colon of `line`
      (`line.split(':')[1]`). */
  function AfterColon(line: string): string
    requires ':' in line
  {
    SplitAtSeparator(line, ':');
    Split(line, ':')[1]
  }

  /** `int(line.split(':')[1].strip().split()[0])`, None where Python raises. */
  function ScoreOf(line: string): Option<int>
    requires ':' in line
  {
    match FirstToken(Strip(AfterColon(line)))
    case None => None
    case Some(tok) => ParseInt(tok)
  }

  /** `line.split(':')[1].strip().upper().startswith('YES')`. */
  predicate YesAnswer(line: string)
    requires ':' in line
  {
    StartsWith(Upper(Strip(AfterColon(line))), "YES")
  }

  /** A bullet (`-`) or a single-digit numbered line (`1.`) longer than two characters. */
  predicate IsItemLine(line: string) {
    StartsWith(line, "-") || (|line| > 2 && IsDigit(line[0]) && line[1] == '.')
  }

  /** The item text of a list line: its prefix removed and white space trimmed. */
  function ItemText(line: string): string
    requires IsItemLine(line)
  {
    if StartsWith(line, "-") then Strip(line[1..]) else Strip(line[2..])
  }

  /** A numbered line always holds a dot, and dropping its number and dot is
      taking what follows the first dot, as `line.split('.', 1)[1]` does. */
  lemma NumberedItemText(line: string)
    requires IsItemLine(line) && !StartsWith(line, "-")
    ensures '.' in line
    ensures ItemText(line) == Strip(SplitOnce(line, '.')[1])
  {
    SplitOnceAt(line, '.', 1);
  }

  lemma HeaderHasColon(line: string)
    requires StartsWith(line, "BIAS_SCORE:") || StartsWith(line, "IS_ACCEPTABLE:") || StartsWith(line, "ISSUES_FOUND:")
             || StartsWith(line, "RECOMMENDATIONS:") || StartsWith(line, "OVERALL_ASSESSMENT:")
    ensures ':' in line
  {
    if StartsWith(line, "BIAS_SCORE:") { assert line[10] == ':'; }
    else if StartsWith(line, "IS_ACCEPTABLE:") { assert line[13] == ':'; }
    else if StartsWith(line, "ISSUES_FOUND:") { assert line[12] == ':'; }
    else if StartsWith(line, "RECOMMENDATIONS:") { assert line[15] == ':'; }
    else { assert line[18] == ':'; }
  }

  /** Which branch of the parser's `if` chain a stripped line takes. */
  datatype LineKind = ScoreLine | AnswerLine | IssuesHeader | RecommendationsHeader | AssessmentHeader | Body

  function Classify(line: string): (k: LineKind)
    ensures k != Body ==> ':' in line
  {
    if StartsWith(line, "BIAS_SCORE:") then HeaderHasColon(line); ScoreLine
    else if StartsWith(line, "IS_ACCEPTABLE:") then HeaderHasColon(line); AnswerLine
    else if StartsWith(line, "ISSUES_FOUND:") then HeaderHasColon(line); IssuesHeader
    else if StartsWith(line, "RECOMMENDATIONS:") then HeaderHasColon(line); RecommendationsHeader
    else if StartsWith(line, "OVERALL_ASSESSMENT:") then HeaderHasColon(line); AssessmentHeader
    else Body
  }

  /** The five markers exclude one another, so the order of the tests does
      not matter. */
  lemma ClassifyByPrefix(line: string)
    ensures StartsWith(line, "BIAS_SCORE:") <==> Classify(line) == ScoreLine
    ensures StartsWith(line, "IS_ACCEPTABLE:") <==> Classify(line) == AnswerLine
    ensures StartsWith(line, "ISSUES_FOUND:") <==> Classify(line) == IssuesHeader
    ensures StartsWith(line, "RECOMMENDATIONS:") <==> Classify(line) == RecommendationsHeader
    ensures StartsWith(line, "OVERALL_ASSESSMENT:") <==> Classify(line) == AssessmentHeader
  {
    if StartsWith(line, "IS_ACCEPTABLE:") {
      assert line[0] == 'I' && line[2] == '_';
    }
    if StartsWith(line, "ISSUES_FOUND:") {
      assert line[0] == 'I' && line[2] == 'S';
    }
    if StartsWith(line, "RECOMMENDATIONS:") {
      assert line[0] == 'R';
    }
    if StartsWith(line, "OVERALL_ASSESSMENT:") {
      assert line[0] == 'O';
    }
  }

  /** What a list line adds under the current section. */
  function ItemOf(line: string): (r: seq<string>)
    ensures r == [] || (IsItemLine(line) && r == [ItemText(line)] && ItemText(line) != "")
  {
    if IsItemLine(line) && ItemText(line) != "" then [ItemText(line)] else []
  }

  /** What a stripped line of the reply means to the parser: the branch of
      the `if` chain it takes, with the value that branch reads from it. */
  datatype LexedLine =
    | ScoreValue(value: Option<int>)   // `BIAS_SCORE:`; None where `int(...)` raises
    | Answer(yes: bool)                // `IS_ACCEPTABLE:`
    | Header(section: Section)         // `ISSUES_FOUND:`, `RECOMMENDATIONS:`, `OVERALL_ASSESSMENT:`
    | Other(item: seq<string>)         // any other line, with its list item if it has one

  /** Reading one raw line of the reply; `LexLine` states what it gives. */
  function Lex(raw: string): LexedLine {
    var line := Strip(raw);
    match Classify(line)
    case ScoreLine => ScoreValue(ScoreOf(line))
    case AnswerLine => Answer(YesAnswer(line))
    case IssuesHeader => Header(Issues)
    case RecommendationsHeader => Header(Recommendations)
    case AssessmentHeader => Header(Assessment)
    case Body => Other(ItemOf(line))
  }

  /** A line that, once stripped, starts with one of the five markers. */
  predicate MarkerLine(raw: string) {
    var line := Strip(raw);
    StartsWith(line, "BIAS_SCORE:") || StartsWith(line, "IS_ACCEPTABLE:") || StartsWith(line, "ISSUES_FOUND:")
    || StartsWith(line, "RECOMMENDATIONS:") || StartsWith(line, "OVERALL_ASSESSMENT:")
  }

  /** The branch a line takes depends only on which marker its stripped
      text starts with; each branch reads what the source reads, and a line
      without a marker carries at most one non-empty item. */
  lemma LexLine(raw: string)
    ensures Lex(raw).ScoreValue? <==> StartsWith(Strip(raw), "BIAS_SCORE:")
    ensures Lex(raw).Answer? <==> StartsWith(Strip(raw), "IS_ACCEPTABLE:")
    ensures Lex(raw) == Header(Issues) <==> StartsWith(Strip(raw), "ISSUES_FOUND:")
    ensures Lex(raw) == Header(Recommendations) <==> StartsWith(Strip(raw), "RECOMMENDATIONS:")
    ensures Lex(raw) == Header(Assessment) <==> StartsWith(Strip(raw), "OVERALL_ASSESSMENT:")
    ensures Lex(raw) != Header(NoSection)
    ensures Lex(raw).Other? <==> !MarkerLine(raw)
    ensures Lex(raw).ScoreValue? ==> ':' in Strip(raw) && Lex(raw).value == ScoreOf(Strip(raw))
    ensures Lex(raw).Answer? ==> ':' in Strip(raw) && Lex(raw).yes == YesAnswer(Strip(raw))
    ensures Lex(raw).Other? ==> Lex(raw).item == ItemOf(Strip(raw))
  {
    var line := Strip(raw);
    ClassifyByPrefix(line);
    match Classify(line)
    case ScoreLine => assert Lex(raw) == ScoreValue(ScoreOf(line));
    case AnswerLine => assert Lex(raw) == Answer(YesAnswer(line));
    case IssuesHeader => assert Lex(raw) == Header(Issues);
    case RecommendationsHeader => assert Lex(raw) == Header(Recommendations);
    case AssessmentHeader => assert Lex(raw) == Header(Assessment);
    case Body => assert Lex(raw) == Other(ItemOf(line));
  }

  /** What one line does to the state. */
  function Step(st: ParseState, l: LexedLine): ParseState {
    match l
    case ScoreValue(v) => if v.Some? then st.(score := Clamp(v.value)) else st
    case Answer(yes) => st.(acceptable := yes)
    case Header(s) => st.(section := s)
    case Other(item) =>
      if st.section == Issues then st.(issues := st.issues + item)
      else if st.section == Recommendations then st.(recommendations := st.recommendations + item)
      else st
  }

  /** The state after the given lines, one after the other. */
  function Run(st: ParseState, ls: seq<LexedLine>): ParseState {
    if ls == [] then st else Step(Run(st, ls[..|ls| - 1]), ls[|ls| - 1])
  }

  /** The lines of a reply, each read on its own. */
  function LexAll(lines: seq<string>): (ls: seq<LexedLine>)
    ensures |ls| == |lines|
  {
    if lines == [] then [] else LexAll(lines[..|lines| - 1]) + [Lex(lines[|lines| - 1])]
  }

  lemma {:induction false} LexAllAt(lines: seq<string>, k: nat)
    requires k < |lines|
    ensures LexAll(lines)[k] == Lex(lines[k])
  {
    if k < |lines| - 1 {
      LexAllAt(lines[..|lines| - 1], k);
    }
  }

  function ParseResult(text: string): BiasResult {
    var st := Run(InitialState, LexAll(Split(text, '\n')));
    BiasResult(st.score, st.acceptable, st.issues, st.recommendations, text, None)
  }

  /** One pass of the loop of `_parse_bias_analysis`: the stripped line is
      tested against the markers in order, and otherwise read as a list line
      of the current section. */
  method ParseLine(st: ParseState, raw: string) returns (next: ParseState)
    ensures next == Step(st, Lex(raw))
  {
    next := st;
    var line := Strip(raw);
    LexLine(raw);
    if StartsWith(line, "BIAS_SCORE:") {
      var parsed := ScoreOf(line);
      if parsed.Some? {
        next := next.(score := Clamp(parsed.value));
      }
    } else if StartsWith(line, "IS_ACCEPTABLE:") {
      next := next.(acceptable := YesAnswer(line));
    } else if StartsWith(line, "ISSUES_FOUND:") {
      next := next.(section := Issues);
    } else if StartsWith(line, "RECOMMENDATIONS:") {
      next := next.(section := Recommendations);
    } else if StartsWith(line, "OVERALL_ASSESSMENT:") {
      next := next.(section := Assessment);
    } else {
      assert Lex(raw) == Other(ItemOf(line));
      next := AddListItem(st, line);
    }
  }

  /** A line that is no marker: inside a section, a `-` or `N.` list line
      with a non-empty item adds that item to the issues or the
      recommendations; any other line leaves the state alone. */
  method AddListItem(st: ParseState, line: string) returns (next: ParseState)
    ensures next == Step(st, Other(ItemOf(line)))
  {
    next := st;
    if st.section != NoSection && IsItemLine(line) {
      var item := ItemText(line);
      if item != "" {
        assert ItemOf(line) == [item];
        if st.section == Issues {
          next := next.(issues := next.issues + [item]);
        } else if st.section == Recommendations {
          next := next.(recommendations := next.recommendations + [item]);
        }
        return;
      }
    }
    StepNothing(st, line);
  }

  /** A line that yields no item changes nothing. */
  lemma StepNothing(st: ParseState, line: string)
    requires st.section == NoSection || ItemOf(line) == []
    ensures Step(st, Other(ItemOf(line))) == st
  {
    if ItemOf(line) == [] {
      assert st.issues + [] == st.issues;
      assert st.recommendations + [] == st.recommendations;
    }
  }

  /** Running one line further is one more step. */
  lemma RunPrefixStep(st: ParseState, lines: seq<string>, i: nat)
    requires i < |lines|
    ensures Run(st, LexAll(lines[..i + 1])) == Step(Run(st, LexAll(lines[..i])), Lex(lines[i]))
  {
    assert lines[..i + 1][..i] == lines[..i];
    var ls := LexAll(lines[..i + 1]);
    assert ls == LexAll(lines[..i]) + [Lex(lines[i])];
    assert ls[..|ls| - 1] == LexAll(lines[..i]);
  }

  /** The loop of `_parse_bias_analysis`: every line, in order, is one
      step of the parser. */
  method ParseLines(st0: ParseState, lines: seq<string>) returns (st: ParseState)
    ensures st == Run(st0, LexAll(lines))
  {
    st := st0;
    var i := 0;
    while i < |lines|
      invariant 0 <= i <= |lines|
      invariant st == Run(st0, LexAll(lines[..i]))
    {
      RunPrefixStep(st0, lines, i);
      st := ParseLine(st, lines[i]);
      i := i + 1;
    }
    assert lines[..|lines|] == lines;
  }

  /** `_parse_bias_analysis`. Nothing in its `try` block can raise once the
      score conversion's own errors are caught, so the outer handler is not
      modelled. */
  method ParseBiasAnalysis(text: string) returns (r: BiasResult)
    ensures r == ParseResult(text)
    ensures 0 <= r.biasScore <= 10 && r.analysis == text && r.error.None?
  {
    var lines := Split(text, '\n');
    var st := ParseLines(InitialState, lines);
    ScoreStaysInRange(InitialState, LexAll(lines));
    r := BiasResult(st.score, st.acceptable, st.issues, st.recommendations, text, None);
  }

  /** The score never leaves [0, 10] once it starts there. */
  lemma {:induction false} ScoreStaysInRange(st: ParseState, ls: seq<LexedLine>)
    requires 0 <= st.score <= 10
    ensures 0 <= Run(st, ls).score <= 10
  {
    if ls != [] {
      ScoreStaysInRange(st, ls[..|ls| - 1]);
    }
  }

  /** The answer of the last `IS_ACCEPTABLE:` line. */
  function LastAnswer(ls: seq<LexedLine>): Option<bool> {
    if ls == [] then None
    else if ls[|ls| - 1].Answer? then Some(ls[|ls| - 1].yes)
    else LastAnswer(ls[..|ls| - 1])
  }

  /** The value of the last `BIAS_SCORE:` line that converts to an integer. */
  function LastScore(ls: seq<LexedLine>): Option<int> {
    if ls == [] then None
    else if ls[|ls| - 1].ScoreValue? && ls[|ls| - 1].value.Some? then ls[|ls| - 1].value
    else LastScore(ls[..|ls| - 1])
  }

  /** Acceptability is decided by the last `IS_ACCEPTABLE:` line alone, and
      stays at its default without one. */
  lemma {:induction false} AcceptableIsLastAnswer(st: ParseState, ls: seq<LexedLine>)
    ensures Run(st, ls).acceptable == match LastAnswer(ls)
                                       case None => st.acceptable
                                       case Some(yes) => yes
  {
    if ls != [] {
      AcceptableIsLastAnswer(st, ls[..|ls| - 1]);
    }
  }

  /** The score is the clamped value of the last convertible `BIAS_SCORE:`
      line; unconvertible ones leave it alone. */
  lemma {:induction false} ScoreIsLastScore(st: ParseState, ls: seq<LexedLine>)
    ensures Run(st, ls).score == match LastScore(ls)
                                  case None => st.score
                                  case Some(v) => Clamp(v)
  {
    if ls != [] {
      ScoreIsLastScore(st, ls[..|ls| - 1]);
    }
  }

  /** Lines without a marker change nothing outside a section. */
  lemma {:induction false} OtherLinesOutsideSections(st: ParseState, ls: seq<LexedLine>)
    requires st.section == NoSection
    requires forall k :: 0 <= k < |ls| ==> ls[k].Other?
    ensures Run(st, ls) == st
  {
    if ls != [] {
      OtherLinesOutsideSections(st, ls[..|ls| - 1]);
    }
  }

  /** A reply without any marker line parses to the defaults: score 7,
      acceptable, and no issues or recommendations. */
  lemma NoMarkersGiveDefaults(text: string)
    requires forall line :: line in Split(text, '\n') ==> !MarkerLine(line)
    ensures ParseResult(text) == BiasResult(7, true, [], [], text, None)
  {
    var lines := Split(text, '\n');
    var ls := LexAll(lines);
    forall k | 0 <= k < |ls|
      ensures ls[k].Other?
    {
      LexAllAt(lines, k);
      LexLine(lines[k]);
    }
    OtherLinesOutsideSections(InitialState, ls);
  }

  /** Lines before the first section header add no items. */
  lemma {:induction false} NoItemsBeforeHeader(st: ParseState, ls: seq<LexedLine>)
    requires st.section == NoSection
    requires forall k :: 0 <= k < |ls| ==> !ls[k].Header?
    ensures Run(st, ls).issues == st.issues && Run(st, ls).recommendations == st.recommendations
    ensures Run(st, ls).section == NoSection
  {
    if ls != [] {
      NoItemsBeforeHeader(st, ls[..|ls| - 1]);
    }
  }

  /** Under OVERALL_ASSESSMENT list lines are ignored, however many there are. */
  lemma {:induction false} AssessmentIgnoresItems(st: ParseState, ls: seq<LexedLine>)
    requires st.section == Assessment
    requires forall k :: 0 <= k < |ls| ==> ls[k].Other?
    ensures Run(st, ls) == st
  {
    if ls != [] {
      AssessmentIgnoresItems(st, ls[..|ls| - 1]);
    }
  }

  /** Every collected item comes from a line without a marker, in order, and
      items are only ever appended. */
  lemma {:induction false} ItemsComeFromListLines(st: ParseState, ls: seq<LexedLine>)
    ensures var r := Run(st, ls);
            |st.issues| <= |r.issues| && |st.recommendations| <= |r.recommendations|
            && r.issues[..|st.issues|] == st.issues && r.recommendations[..|st.recommendations|] == st.recommendations
    ensures var r := Run(st, ls);
            forall j :: |st.issues| <= j < |r.issues| ==>
              exists k :: 0 <= k < |ls| && ls[k].Other? && r.issues[j] in ls[k].item
    ensures var r := Run(st, ls);
            forall j :: |st.recommendations| <= j < |r.recommendations| ==>
              exists k :: 0 <= k < |ls| && ls[k].Other? && r.recommendations[j] in ls[k].item
  {
    if ls != [] {
      var init := ls[..|ls| - 1];
      var last := ls[|ls| - 1];
      ItemsComeFromListLines(st, init);
      var p := Run(st, init);
      var r := Run(st, ls);
      StepItems(p, last);
      var newIssues := if last.Other? && p.section == Issues then last.item else [];
      var newRecs := if last.Other? && p.section == Recommendations then last.item else [];
      PrefixOfAppend(p.issues, newIssues, |st.issues|);
      PrefixOfAppend(p.recommendations, newRecs, |st.recommendations|);
      PrefixOfAppend(p.issues, newIssues, |p.issues|);
      PrefixOfAppend(p.recommendations, newRecs, |p.recommendations|);
      forall j | |st.issues| <= j < |r.issues|
        ensures exists k :: 0 <= k < |ls| && ls[k].Other? && r.issues[j] in ls[k].item
      {
        if j < |p.issues| {
          var k :| 0 <= k < |init| && init[k].Other? && p.issues[j] in init[k].item;
          assert init[k] == ls[k];
        } else {
          assert r.issues[j] == last.item[j - |p.issues|];
        }
      }
      forall j | |st.recommendations| <= j < |r.recommendations|
        ensures exists k :: 0 <= k < |ls| && ls[k].Other? && r.recommendations[j] in ls[k].item
      {
        if j < |p.recommendations| {
          var k :| 0 <= k < |init| && init[k].Other? && p.recommendations[j] in init[k].item;
          assert init[k] == ls[k];
        } else {
          assert r.recommendations[j] == last.item[j - |p.recommendations|];
        }
      }
    }
  }

  /** One step appends to the issues or the recommendations: the item of a
      line without a marker, to the list of the current section. */
  lemma StepItems(p: ParseState, l: LexedLine)
    ensures Step(p, l).issues == p.issues + (if l.Other? && p.section == Issues then l.item else [])
    ensures Step(p, l).recommendations
            == p.recommendations + (if l.Other? && p.section == Recommendations then l.item else [])
  {
    assert p.issues + [] == p.issues;
    assert p.recommendations + [] == p.recommendations;
  }

  /** Parsing a reply in two pieces is parsing the first, then the second
      from where the first left off. */
  lemma {:induction false} RunAppend(st: ParseState, a: seq<LexedLine>, b: seq<LexedLine>)
    ensures Run(st, a + b) == Run(Run(st, a), b)
  {
    if b != [] {
      RunAppend(st, a, b[..|b| - 1]);
      AppendInit(a, b);
    } else {
      assert a + b == a;
    }
  }

  // ---------------------------------------------------------------------------
  // Checking content

  /** The outcome of `check_content_bias`: the parsed reply, or when the
      language-model call raised with message `e`, the neutral fallback. */
  method CheckContentBias(reply: Result<string, string>) returns (r: BiasResult)
    ensures reply.Ok? ==> r == ParseResult(reply.value)
    ensures reply.Err? ==>
              r == BiasResult(5, true, [], [], "Bias check unavailable", Some(reply.error))
    ensures 0 <= r.biasScore <= 10
  {
    match reply
    case Ok(text) =>
      r := ParseBiasAnalysis(text);
    case Err(e) =>
      r := BiasResult(5, true, [], [], "Bias check unavailable", Some(e));
  }

  // ---------------------------------------------------------------------------
  // Extracting text

  /** One entry of a quiz's `questions` list; each key may be missing. */
  datatype QuestionEntry = QuestionEntry(
    question: Option<string>,
    questionText: Option<string>,
    options: Option<seq<string>>,
    explanation: Option<string>)

  /** The content dictionary, with the keys the extractor reads, and
      `repr`, the text `str(content)` gives. */
  datatype Content = Content(
    title: Option<string>,
    mission: Option<string>,
    scenario: Option<string>,
    clues: Option<seq<string>>,
    body: Option<string>,
    caseBrief: Option<Option<string>>,
    questions: Option<seq<QuestionEntry>>,
    hint: Option<string>,
    explanation: Option<string>,
    repr: string)

  /** The block one quiz question contributes. */
  function QuestionBlock(q: QuestionEntry): (r: string)
    ensures StartsWith(r, "Question: ")
  {
    var text := if q.question.Some? then q.question.value else q.questionText.GetOr("");
    var options := q.options.GetOr([]);
    var explanation := q.explanation.GetOr("");
    var r := "Question: " + text + "\n"
      + (if options != [] then "Options: " + Join(options, ", ") + "\n" else "")
      + (if explanation != "" then "Explanation: " + explanation + "\n" else "")
      + "\n";
    assert r[..10] == "Question: ";
    r
  }

  /** The blocks of the questions, in quiz order. */
  function QuizBlocks(qs: seq<QuestionEntry>): string {
    if qs == [] then "" else QuizBlocks(qs[..|qs| - 1]) + QuestionBlock(qs[|qs| - 1])
  }

  /** The blocks of two runs of questions are those of each, in order. */
  lemma {:induction false} QuizBlocksAppend(a: seq<QuestionEntry>, b: seq<QuestionEntry>)
    ensures QuizBlocks(a + b) == QuizBlocks(a) + QuizBlocks(b)
  {
    if b != [] {
      QuizBlocksAppend(a, b[..|b| - 1]);
      AppendInit(a, b);
      ConcatAssoc(QuizBlocks(a), QuizBlocks(b[..|b| - 1]), QuestionBlock(b[|b| - 1]));
    } else {
      assert a + b == a;
    }
  }

  function CaseBriefText(c: Content): string {
    if c.caseBrief.Some? then "Case Brief Scenario: " + c.caseBrief.value.GetOr("") + "\n\n" else ""
  }

  /** A story with a title: its title, mission and scenario lines, then its clues when present. */
  function StoryText(c: Content): (r: string)
    requires c.title.Some?
    ensures StartsWith(r, "Title: " + c.title.value + "\n")
  {
    var head := "Title: " + c.title.value + "\n";
    var r := head
      + "Mission: " + c.mission.GetOr("") + "\n"
      + "Scenario: " + c.scenario.GetOr("") + "\n"
      + (if c.clues.Some? then "Clues: " + Join(c.clues.value, ", ") + "\n" else "");
    assert r[..|head|] == head;
    r
  }

  /** The text `_extract_text_from_content` gives for each content type. */
  function ExtractedText(c: Content, contentType: string): string {
    if contentType == "story" then
      if c.title.Some? then StoryText(c) else c.body.GetOr(c.repr)
    else if contentType == "quiz" then CaseBriefText(c) + QuizBlocks(c.questions.GetOr([]))
    else if contentType == "hint" then c.hint.GetOr(c.repr)
    else if contentType == "explanation" then c.explanation.GetOr(c.repr)
    else c.repr
  }

  /** The loop over a quiz's questions: one block per question, appended in order. */
  method AppendQuizBlocks(prefix: string, qs: seq<QuestionEntry>) returns (text: string)
    ensures text == prefix + QuizBlocks(qs)
  {
    text := prefix;
    var i := 0;
    while i < |qs|
      invariant 0 <= i <= |qs|
      invariant text == prefix + QuizBlocks(qs[..i])
    {
      assert qs[..i + 1][..i] == qs[..i];
      assert QuizBlocks(qs[..i + 1]) == QuizBlocks(qs[..i]) + QuestionBlock(qs[i]);
      ConcatAssoc(prefix, QuizBlocks(qs[..i]), QuestionBlock(qs[i]));
      text := text + QuestionBlock(qs[i]);
      i := i + 1;
    }
    assert qs[..|qs|] == qs;
  }

  /** `_extract_text_from_content`; the quiz text is built question by question. */
  method ExtractTextFromContent(c: Content, contentType: string) returns (text: string)
    ensures text == ExtractedText(c, contentType)
    ensures contentType == "quiz" ==> StartsWith(text, CaseBriefText(c))
  {
    if contentType == "story" {
      if c.title.Some? {
        return StoryText(c);
      }
      return c.body.GetOr(c.repr);
    } else if contentType == "quiz" {
      text := AppendQuizBlocks(CaseBriefText(c), c.questions.GetOr([]));
      assert text[..|CaseBriefText(c)|] == CaseBriefText(c);
    } else if contentType == "hint" {
      return c.hint.GetOr(c.repr);
    } else if contentType == "explanation" {
      return c.explanation.GetOr(c.repr);
    } else {
      return c.repr;
    }
  }

  /** Hint and explanation content without their key fall back to `str(content)`. */
  lemma FallbackToRepr(c: Content, contentType: string)
    requires (contentType == "hint" && c.hint.None?) || (contentType == "explanation" && c.explanation.None?)
             || (contentType == "story" && c.title.None? && c.body.None?)
    ensures ExtractedText(c, contentType) == c.repr
  {
  }

  // ---------------------------------------------------------------------------
  // Suggesting improvements

  datatype Suggestion =
    | Unchanged(content: Content)
    | Improved(improvedContent: string, originalBiasScore: int, improvementsMade: seq<string>)

  /** `suggest_improvements`: `reply` is the rewrite the language model
      returned, or the message of the error its call raised. */
  function SuggestImprovements(c: Content, analysis: BiasResult, reply: Result<string, string>): (r: Suggestion)
    ensures analysis.biasScore >= 8 ==> r == Unchanged(c)
    ensures r.Improved? <==> analysis.biasScore < 8 && reply.Ok?
    ensures r.Improved? ==> r.improvementsMade == analysis.recommendations && r.originalBiasScore == analysis.biasScore
  {
    if analysis.biasScore >= 8 then Unchanged(c)
    else
      match reply
      case Ok(t) => Improved(t, analysis.biasScore, analysis.recommendations)
      case Err(_) => Unchanged(c)
  }

  /** Content scoring 8 or more never reaches the language model: whatever
      it would have replied, the outcome is the same. */
  lemma HighScoreSkipsModel(c: Content, analysis: BiasResult, r1: Result<string, string>, r2: Result<string, string>)
    requires analysis.biasScore >= 8
    ensures SuggestImprovements(c, analysis, r1) == SuggestImprovements(c, analysis, r2)
  {
  }

  // ---------------------------------------------------------------------------
  // The report

  /** The status band of a score. */
  function Status(score: int): (s: string)
    ensures score >= 9 ==> s == "\U{2705} EXCELLENT"
    ensures 7 <= score < 9 ==> s == "\U{2713} GOOD"
    ensures 5 <= score < 7 ==> s == "\U{26A0}\U{FE0F} NEEDS REVIEW"
    ensures score < 5 ==> s == "\U{274C} REQUIRES REVISION"
  {
    if score >= 9 then "\U{2705} EXCELLENT"
    else if score >= 7 then "\U{2713} GOOD"
    else if score >= 5 then "\U{26A0}\U{FE0F} NEEDS REVIEW"
    else "\U{274C} REQUIRES REVISION"
  }

  /** The band's position: 3 for excellent down to 0 for requires revision. */
  function StatusLevel(score: int): (n: nat)
    ensures n <= 3
  {
    if score >= 9 then 3 else if score >= 7 then 2 else if score >= 5 then 1 else 0
  }

  /** A higher score never lands in a lower band, and the band decides the status. */
  lemma StatusMonotone(a: int, b: int)
    requires a <= b
    ensures StatusLevel(a) <= StatusLevel(b)
    ensures StatusLevel(a) == StatusLevel(b) ==> Status(a) == Status(b)
  {
  }

  function Rule(): string {
    Repeat('=', 60)
  }

  function ReportHeader(score: int, acceptable: bool): string {
    "\n" + Rule() + "\nBIAS & INCLUSIVITY ANALYSIS REPORT\n" + Rule() + "\n\n"
    + "Overall Score: " + IntToString(score) + "/10 - " + Status(score) + "\n"
    + "Acceptable: " + (if acceptable then "YES" else "NO") + "\n\n"
  }

  /** One line per entry, each with the given marker in front. */
  function Bullets(marker: string, xs: seq<string>): string {
    if xs == [] then "" else Bullets(marker, xs[..|xs| - 1]) + "  " + marker + " " + xs[|xs| - 1] + "\n"
  }

  /** A titled list, present only when the list is non-empty. */
  function ListSection(heading: string, marker: string, xs: seq<string>): (r: string)
    ensures xs == [] <==> r == ""
    ensures xs != [] ==> StartsWith(r, heading + ":\n")
  {
    if xs == [] then ""
    else
      var r := heading + ":\n" + Bullets(marker, xs) + "\n";
      assert r[..|heading + ":\n"|] == heading + ":\n";
      r
  }

  function ReportText(score: int, acceptable: bool, issues: seq<string>, recommendations: seq<string>): string {
    ReportHeader(score, acceptable)
    + ListSection("Issues Found", "\U{26A0}\U{FE0F}", issues)
    + ListSection("Recommendations", "\U{1F4A1}", recommendations)
    + Rule() + "\n"
  }

  /** The loop over one list of the report: a marked line per entry, in order. */
  method AppendBullets(prefix: string, marker: string, xs: seq<string>) returns (text: string)
    ensures text == prefix + Bullets(marker, xs)
  {
    text := prefix;
    var i := 0;
    while i < |xs|
      invariant 0 <= i <= |xs|
      invariant text == prefix + Bullets(marker, xs[..i])
    {
      assert xs[..i + 1][..i] == xs[..i];
      text := text + "  " + marker + " " + xs[i] + "\n";
      i := i + 1;
    }
    assert xs[..|xs|] == xs;
  }

  /** One `if xs:` block of the report: the heading, a marked line per
      entry and a blank line, or nothing for an empty list. */
  method AppendSection(prefix: string, heading: string, marker: string, xs: seq<string>) returns (text: string)
    ensures text == prefix + ListSection(heading, marker, xs)
  {
    text := prefix;
    if xs != [] {
      text := text + heading + ":\n";
      text := AppendBullets(text, marker, xs);
      text := text + "\n";
    }
  }

  /** `get_bias_report`: the header, the two lists each only when non-empty,
      and the closing rule. */
  method GetBiasReport(analysis: BiasResult) returns (report: string)
    ensures report == ReportText(analysis.biasScore, analysis.isAcceptable, analysis.issuesFound, analysis.recommendations)
  {
    report := ReportHeader(analysis.biasScore, analysis.isAcceptable);
    report := AppendSection(report, "Issues Found", "\U{26A0}\U{FE0F}", analysis.issuesFound);
    report := AppendSection(report, "Recommendations", "\U{1F4A1}", analysis.recommendations);
    report := report + Rule() + "\n";
  }

  /** With nothing to list, the report is the header and the closing rule. */
  lemma EmptyListsReport(score: int, acceptable: bool)
    ensures ReportText(score, acceptable, [], []) == ReportHeader(score, acceptable) + Rule() + "\n"
  {
    var h := ReportHeader(score, acceptable);
    assert h + ListSection("Issues Found", "\U{26A0}\U{FE0F}", []) == h;
    assert h + ListSection("Recommendations", "\U{1F4A1}", []) == h;
  }
}
