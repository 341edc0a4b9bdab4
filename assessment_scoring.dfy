/** The deterministic scoring rules of the analytics assessment: the letter
    grade, and the code-quality, business-relevance, presentation and
    performance checks that each build a score and a feedback list one check
    at a time. Every check is a substring or size test on its inputs. */
module Scoring {
  import opened Strings

  /** Feedback marks: a passed check, a failed check, and a caution that is
      counted as neither a strength nor a weakness. */
  const Tick := "\U{2705}"
  const Cross := "\U{274C}"
  const Caution := "\U{26A0}\U{FE0F}"

  function Min(a: int, b: int): int { if a <= b then a else b }
  function Max(a: int, b: int): int { if a >= b then a else b }

  /** Python's `any(k in text for k in keywords)`. */
  predicate ContainsAny(text: string, keywords: seq<string>) {
    exists k :: 0 <= k < |keywords| && Contains(text, keywords[k])
  }

  /** Python's `sum(1 for k in keywords if k in text)`. */
  function CountContained(text: string, keywords: seq<string>): (n: nat)
    ensures n <= |keywords|
  {
    if keywords == [] then 0
    else (if Contains(text, keywords[0]) then 1 else 0) + CountContained(text, keywords[1..])
  }

  /** The count is 0 exactly when no keyword occurs in the text. */
  lemma {:induction false} CountContainedZero(text: string, keywords: seq<string>)
    ensures CountContained(text, keywords) == 0 <==> !ContainsAny(text, keywords)
  {
    if keywords != [] {
      CountContainedZero(text, keywords[1..]);
      assert forall k :: 1 <= k < |keywords| ==> keywords[1..][k - 1] == keywords[k];
      if ContainsAny(text, keywords[1..]) {
        var k :| 0 <= k < |keywords[1..]| && Contains(text, keywords[1..][k]);
        assert Contains(text, keywords[k + 1]);
      }
    }
  }

  // ----- Letter grade -----

  /** `get_grade`: the letter for a score, cut at 90, 80, 70 and 60. */
  function Grade(score: real): (g: string)
    ensures g in {"A", "B", "C", "D", "F"}
  {
    if score >= 90.0 then "A"
    else if score >= 80.0 then "B"
    else if score >= 70.0 then "C"
    else if score >= 60.0 then "D"
    else "F"
  }

  /** The position of a letter from best (0) to worst (4). */
  function GradeRank(g: string): nat {
    if g == "A" then 0 else if g == "B" then 1 else if g == "C" then 2 else if g == "D" then 3 else 4
  }

  /** A higher score never earns a worse letter. */
  lemma {:induction false} GradeMonotone(a: real, b: real)
    requires a <= b
    ensures GradeRank(Grade(b)) <= GradeRank(Grade(a))
  {
  }

  /** Each letter covers exactly its band of scores. */
  lemma {:induction false} GradeBands(score: real)
    ensures Grade(score) == "A" <==> score >= 90.0
    ensures Grade(score) == "B" <==> 80.0 <= score < 90.0
    ensures Grade(score) == "C" <==> 70.0 <= score < 80.0
    ensures Grade(score) == "D" <==> 60.0 <= score < 70.0
    ensures Grade(score) == "F" <==> score < 60.0
  {
  }

  // ----- Feedback lines -----

  /** A feedback line: a mark, a space and the text. */
  function Note(mark: string, text: string): string {
    mark + " " + text
  }

  /** A line starts with a mark exactly when it was written with that mark. */
  lemma {:induction false} NoteMarks(mark: string, text: string)
    requires mark in {Tick, Cross, Caution}
    ensures StartsWith(Note(mark, text), Tick) <==> mark == Tick
    ensures StartsWith(Note(mark, text), Cross) <==> mark == Cross
  {
    var n := Note(mark, text);
    assert n[0] == mark[0];
    if mark == Tick {
      assert n[..|Tick|] == Tick;
    } else if mark == Cross {
      assert n[..|Cross|] == Cross;
    }
  }

  /** The feedback line of one check: the passed text marked as passed, or
      the failed text with the mark for failure (a cross or a caution). */
  function Line(passed: bool, failMark: string, good: string, bad: string): string {
    if passed then Note(Tick, good) else Note(failMark, bad)
  }

  /** A line starts with the passed mark exactly when its check passed, and
      with the failed mark exactly when it failed and failures are marked so. */
  lemma LineMarks(passed: bool, failMark: string, good: string, bad: string)
    requires failMark in {Cross, Caution}
    ensures StartsWith(Line(passed, failMark, good, bad), Tick) <==> passed
    ensures StartsWith(Line(passed, failMark, good, bad), Cross) <==> !passed && failMark == Cross
  {
    NoteMarks(Tick, good);
    NoteMarks(failMark, bad);
  }

  /** The entries of `feedback` that start with `mark`, in order. */
  function Marked(feedback: seq<string>, mark: string): (r: seq<string>)
    ensures |r| <= |feedback|
  {
    if feedback == [] then []
    else (if StartsWith(feedback[0], mark) then [feedback[0]] else []) + Marked(feedback[1..], mark)
  }

  /** A line is among the marked ones exactly when it is in the feedback and
      starts with the mark. */
  lemma {:induction false} MarkedMembers(feedback: seq<string>, mark: string)
    ensures forall f :: f in Marked(feedback, mark) <==> f in feedback && StartsWith(f, mark)
  {
    if feedback != [] {
      MarkedMembers(feedback[1..], mark);
      assert forall f :: f in feedback <==> f == feedback[0] || f in feedback[1..];
    }
  }

  function Points(passed: bool, points: int): int { if passed then points else 0 }

  // ----- Code quality -----

  const StatsKeywords := ["mean", "median", "std", "corr", "groupby", "agg", "describe"]

  /** The six code checks in the order `assess_code_quality` makes them:
      pandas, statistics, plotting, more than 20 lines, error handling, output. */
  function CodeChecks(code: string): (checks: seq<bool>)
    ensures |checks| == 6
  {
    [Contains(code, "import pandas") || Contains(code, "pd."),
     ContainsAny(code, StatsKeywords),
     Contains(code, "plt.") || Contains(code, "seaborn") || Contains(code, "matplotlib"),
     |Split(code, '\n')| > 20,
     Contains(code, "try:") || Contains(code, "except"),
     Contains(code, "print(")]
  }

  /** The code-quality points of the passed checks: 20 for each of the first
      four, 10 for each of the last two. */
  function CodeScore(checks: seq<bool>): int
    requires |checks| == 6
  {
    Points(checks[0], 20) + Points(checks[1], 20) + Points(checks[2], 20) + Points(checks[3], 20)
    + Points(checks[4], 10) + Points(checks[5], 10)
  }

  /** The code-quality points never pass 100, so the cap in
      `assess_code_quality` never applies; they are 0 exactly when every check
      failed and 100 exactly when every check passed. */
  lemma {:induction false} CodeScoreRange(checks: seq<bool>)
    requires |checks| == 6
    ensures 0 <= CodeScore(checks) <= 100
    ensures CodeScore(checks) == 0 <==> forall i :: 0 <= i < 6 ==> !checks[i]
    ensures CodeScore(checks) == 100 <==> forall i :: 0 <= i < 6 ==> checks[i]
  {
    if CodeScore(checks) == 0 {
      assert !checks[0] && !checks[1] && !checks[2] && !checks[3] && !checks[4] && !checks[5];
    }
    if CodeScore(checks) == 100 {
      assert checks[0] && checks[1] && checks[2] && checks[3] && checks[4] && checks[5];
    }
  }

  /** Passing more checks never lowers the code-quality score. */
  lemma {:induction false} CodeScoreMonotone(a: seq<bool>, b: seq<bool>)
    requires |a| == 6 && |b| == 6
    requires forall i :: 0 <= i < 6 && a[i] ==> b[i]
    ensures CodeScore(a) <= CodeScore(b)
  {
    assert a[0] ==> b[0];
    assert a[1] ==> b[1];
    assert a[2] ==> b[2];
    assert a[3] ==> b[3];
    assert a[4] ==> b[4];
    assert a[5] ==> b[5];
  }

  /** The six feedback lines of `assess_code_quality` for the given checks:
      each starts with the passed mark exactly when its check passed, and
      with the failed mark exactly when it failed, except the error-handling
      line, which is marked as a caution instead. */
  function CodeFeedback(checks: seq<bool>): (f: seq<string>)
    requires |checks| == 6
    ensures |f| == 6
  {
    [Line(checks[0], Cross, "Proper pandas usage", "Missing pandas usage"),
     Line(checks[1], Cross, "Statistical analysis present", "Limited statistical analysis"),
     Line(checks[2], Cross, "Data visualization included", "No data visualization"),
     Line(checks[3], Cross, "Comprehensive analysis logic", "Analysis too simplistic"),
     Line(checks[4], Caution, "Error handling present", "No error handling"),
     Line(checks[5], Cross, "Proper output formatting", "No output statements")]
  }

  datatype CodeQuality = CodeQuality(score: int, feedback: seq<string>, strengths: seq<string>, weaknesses: seq<string>)

  /** `assess_code_quality`: six checks, each adding its points and one
      feedback line; strengths and weaknesses are the lines marked as passed
      and as failed, so the failed error-handling check is in neither. */
  method AssessCodeQuality(code: string) returns (r: CodeQuality)
    ensures r.score == CodeScore(CodeChecks(code))
    ensures r.feedback == CodeFeedback(CodeChecks(code))
    ensures r.strengths == Marked(r.feedback, Tick) && r.weaknesses == Marked(r.feedback, Cross)
  {
    var checks := CodeChecks(code);
    var score := CodeQualityPoints(checks);
    var feedback := CodeQualityFeedback(checks);
    CodeScoreRange(checks);
    r := CodeQuality(Min(score, 100), feedback, Marked(feedback, Tick), Marked(feedback, Cross));
  }

  /** The points of `assess_code_quality`, check by check. */
  method CodeQualityPoints(checks: seq<bool>) returns (score: int)
    requires |checks| == 6
    ensures score == CodeScore(checks)
  {
    score := 0;
    if checks[0] {
      score := score + 20;
    }
    if checks[1] {
      score := score + 20;
    }
    if checks[2] {
      score := score + 20;
    }
    if checks[3] {
      score := score + 20;
    }
    if checks[4] {
      score := score + 10;
    }
    if checks[5] {
      score := score + 10;
    }
  }

  /** The feedback of `assess_code_quality`: one line per check, in order. */
  method CodeQualityFeedback(checks: seq<bool>) returns (feedback: seq<string>)
    requires |checks| == 6
    ensures feedback == CodeFeedback(checks)
  {
    feedback := [];
    feedback := feedback + [Line(checks[0], Cross, "Proper pandas usage", "Missing pandas usage")];
    feedback := feedback + [Line(checks[1], Cross, "Statistical analysis present", "Limited statistical analysis")];
    feedback := feedback + [Line(checks[2], Cross, "Data visualization included", "No data visualization")];
    feedback := feedback + [Line(checks[3], Cross, "Comprehensive analysis logic", "Analysis too simplistic")];
    feedback := feedback + [Line(checks[4], Caution, "Error handling present", "No error handling")];
    feedback := feedback + [Line(checks[5], Cross, "Proper output formatting", "No output statements")];
  }



  /** The marks of the six feedback lines. */
  lemma CodeFeedbackMarks(checks: seq<bool>)
    requires |checks| == 6
    ensures var f := CodeFeedback(checks);
            && (forall i :: 0 <= i < 6 ==> (StartsWith(f[i], Tick) <==> checks[i]))
            && (forall i :: 0 <= i < 6 && i != 4 ==> (StartsWith(f[i], Cross) <==> !checks[i]))
            && !StartsWith(f[4], Cross)
  {
    var f := CodeFeedback(checks);
    forall i | 0 <= i < 6
      ensures StartsWith(f[i], Tick) <==> checks[i]
      ensures i != 4 ==> (StartsWith(f[i], Cross) <==> !checks[i])
      ensures i == 4 ==> !StartsWith(f[i], Cross)
    {
      if i == 0 {
        LineMarks(checks[0], Cross, "Proper pandas usage", "Missing pandas usage");
      } else if i == 1 {
        LineMarks(checks[1], Cross, "Statistical analysis present", "Limited statistical analysis");
      } else if i == 2 {
        LineMarks(checks[2], Cross, "Data visualization included", "No data visualization");
      } else if i == 3 {
        LineMarks(checks[3], Cross, "Comprehensive analysis logic", "Analysis too simplistic");
      } else if i == 4 {
        LineMarks(checks[4], Caution, "Error handling present", "No error handling");
      } else {
        LineMarks(checks[5], Cross, "Proper output formatting", "No output statements");
      }
    }
  }


  /** The strengths are the lines of the passed checks, and the weaknesses
      the lines of the failed checks other than error handling. */
  lemma {:induction false} StrengthsAndWeaknesses(checks: seq<bool>)
    requires |checks| == 6
    ensures var f := CodeFeedback(checks);
            && (forall i :: 0 <= i < 6 ==> (f[i] in Marked(f, Tick) <==> checks[i]))
            && (forall i :: 0 <= i < 6 && i != 4 ==> (f[i] in Marked(f, Cross) <==> !checks[i]))
            && f[4] !in Marked(f, Cross)
            && (forall w :: w in Marked(f, Cross) ==> exists i :: 0 <= i < 6 && i != 4 && w == f[i] && !checks[i])
  {
    var f := CodeFeedback(checks);
    CodeFeedbackMarks(checks);
    MarkedMembers(f, Tick);
    MarkedMembers(f, Cross);
    forall w | w in Marked(f, Cross)
      ensures exists i :: 0 <= i < 6 && i != 4 && w == f[i] && !checks[i]
    {
      var i :| 0 <= i < 6 && w == f[i];
      assert i != 4 && !checks[i];
    }
  }

  // ----- Business relevance -----

  const BusinessTerms := ["revenue", "cost", "profit", "roi", "efficiency", "performance",
                          "strategy", "optimization", "risk", "opportunity", "value"]
  const ActionWords := ["recommend", "suggest", "should", "could", "improve",
                        "optimize", "implement", "consider", "focus"]

  /** The business-impact phrase occurs in the output, both lower-cased and
      with spaces removed. */
  predicate AddressesImpact(output: string, businessImpact: string) {
    Contains(Without(Lower(output), ' '), Without(Lower(businessImpact), ' '))
  }

  /** The business-relevance score from the two keyword counts and the
      impact test: 30/20/10 by terms, 35/25/10 by action words, 35/15 by impact. */
  function BusinessScore(terms: nat, actions: nat, addressed: bool): int {
    (if terms > 8 then 30 else if terms > 5 then 20 else 10)
    + (if actions > 5 then 35 else if actions > 3 then 25 else 10)
    + (if addressed then 35 else 15)
  }

  /** The score lies in [35, 100], so the cap never applies. */
  lemma {:induction false} BusinessScoreRange(terms: nat, actions: nat, addressed: bool)
    ensures 35 <= BusinessScore(terms, actions, addressed) <= 100
    ensures Min(BusinessScore(terms, actions, addressed), 100) == BusinessScore(terms, actions, addressed)
  {
  }

  /** More business terms, more action words or addressing the impact area
      never lowers the score. */
  lemma {:induction false} BusinessScoreMonotone(t1: nat, a1: nat, i1: bool, t2: nat, a2: nat, i2: bool)
    requires t1 <= t2 && a1 <= a2 && (i1 ==> i2)
    ensures BusinessScore(t1, a1, i1) <= BusinessScore(t2, a2, i2)
  {
  }

  /** The feedback line of the business-term band. */
  function TermNote(terms: nat): (line: string)
    ensures StartsWith(line, Tick) <==> terms > 5
    ensures !StartsWith(line, Cross)
  {
    var (mark, text) := if terms > 8 then (Tick, "Strong business focus")
                      else if terms > 5 then (Tick, "Good business relevance")
                      else (Caution, "Could emphasize business impact more");
    NoteMarks(mark, text);
    Note(mark, text)
  }

  /** The feedback line of the action-word band. */
  function ActionNote(actions: nat): (line: string)
    ensures StartsWith(line, Tick) <==> actions > 3
    ensures StartsWith(line, Cross) <==> actions <= 3
  {
    var (mark, text) := if actions > 5 then (Tick, "Highly actionable insights")
                      else if actions > 3 then (Tick, "Good actionable content")
                      else (Cross, "Limited actionable recommendations");
    NoteMarks(mark, text);
    Note(mark, text)
  }

  /** The feedback line of the impact test. */
  function ImpactNote(addressed: bool): (line: string)
    ensures StartsWith(line, Tick) <==> addressed
    ensures !StartsWith(line, Cross)
  {
    var (mark, text) := if addressed then (Tick, "Directly addresses business impact area")
                      else (Caution, "Could better address specific business impact");
    NoteMarks(mark, text);
    Note(mark, text)
  }

  /** The three business-relevance feedback lines: the term band, the
      action-word band and the impact test, in that order. */
  function BusinessFeedback(terms: nat, actions: nat, addressed: bool): (f: seq<string>)
    ensures |f| == 3
  {
    [TermNote(terms), ActionNote(actions), ImpactNote(addressed)]
  }

  /** A line is ticked exactly when its band earns more than the lowest
      points; only a shortage of action words is crossed. */
  lemma BusinessFeedbackMarks(terms: nat, actions: nat, addressed: bool)
    ensures var f := BusinessFeedback(terms, actions, addressed);
            && (StartsWith(f[0], Tick) <==> terms > 5)
            && (StartsWith(f[1], Tick) <==> actions > 3)
            && (StartsWith(f[2], Tick) <==> addressed)
            && (StartsWith(f[1], Cross) <==> actions <= 3)
            && !StartsWith(f[0], Cross) && !StartsWith(f[2], Cross)
  {
  }

  datatype BusinessRelevance = BusinessRelevance(score: int, feedback: seq<string>, businessTermsCount: nat, actionableItems: nat)

  /** The three banded checks of `assess_business_relevance`, each adding
      points and one feedback line. */
  method BusinessPoints(terms: nat, actions: nat, addressed: bool) returns (score: int, feedback: seq<string>)
    ensures score == BusinessScore(terms, actions, addressed)
    ensures feedback == BusinessFeedback(terms, actions, addressed)
  {
    score := 0;
    feedback := [];
    if terms > 8 {
      score := score + 30;
    } else if terms > 5 {
      score := score + 20;
    } else {
      score := score + 10;
    }
    feedback := feedback + [TermNote(terms)];
    if actions > 5 {
      score := score + 35;
    } else if actions > 3 {
      score := score + 25;
    } else {
      score := score + 10;
    }
    feedback := feedback + [ActionNote(actions)];
    if addressed {
      score := score + 35;
    } else {
      score := score + 15;
    }
    feedback := feedback + [ImpactNote(addressed)];
  }

  /** `assess_business_relevance`: count the business terms and action words
      in the lower-cased output, test the impact phrase, then score. */
  method AssessBusinessRelevance(output: string, businessImpact: string) returns (r: BusinessRelevance)
    ensures r.businessTermsCount == CountContained(Lower(output), BusinessTerms)
    ensures r.actionableItems == CountContained(Lower(output), ActionWords)
    ensures r.score == BusinessScore(r.businessTermsCount, r.actionableItems, AddressesImpact(output, businessImpact))
    ensures 35 <= r.score <= 100
    ensures r.feedback == BusinessFeedback(r.businessTermsCount, r.actionableItems, AddressesImpact(output, businessImpact))
    ensures StartsWith(r.feedback[2], Tick) <==> AddressesImpact(output, businessImpact)
  {
    var businessCount := CountContained(Lower(output), BusinessTerms);
    var actionCount := CountContained(Lower(output), ActionWords);
    var addressed := AddressesImpact(output, businessImpact);
    var score, feedback := BusinessPoints(businessCount, actionCount, addressed);
    BusinessScoreRange(businessCount, actionCount, addressed);
    BusinessFeedbackMarks(businessCount, actionCount, addressed);
    r := BusinessRelevance(Min(score, 100), feedback, businessCount, actionCount);
  }

  // ----- Presentation -----

  const SectionIndicators := ["summary", "analysis", "findings", "conclusion", "recommendation", "key insights"]

  /** The words of every sentence, added up. */
  function TotalWords(sentences: seq<string>): nat {
    if sentences == [] then 0 else WordCount(sentences[0]) + TotalWords(sentences[1..])
  }

  /** The average number of words per `.`-separated sentence; `split` never
      returns an empty list, so the division is defined. */
  function AverageSentenceLength(output: string): real {
    var sentences := Split(output, '.');
    TotalWords(sentences) as real / |sentences| as real
  }

  /** The four presentation checks: structure marks, a section keyword, a
      chart, and an average sentence length between 10 and 25 words. */
  function PresentationChecks(output: string, hasChart: bool): (checks: seq<bool>)
    ensures |checks| == 4
  {
    [Contains(output, "##") || Contains(output, "**") || Contains(output, "- "),
     ContainsAny(Lower(output), SectionIndicators),
     hasChart,
     10.0 <= AverageSentenceLength(output) <= 25.0]
  }

  /** The presentation points: 25 per passed check. */
  function PresentationScore(checks: seq<bool>): int
    requires |checks| == 4
  {
    Points(checks[0], 25) + Points(checks[1], 25) + Points(checks[2], 25) + Points(checks[3], 25)
  }

  /** The presentation score is a multiple of 25 in [0, 100], so the cap never
      applies, and it is 0 exactly when every check failed. */
  lemma {:induction false} PresentationScoreShape(checks: seq<bool>)
    requires |checks| == 4
    ensures PresentationScore(checks) % 25 == 0 && 0 <= PresentationScore(checks) <= 100
    ensures PresentationScore(checks) == 0 <==> forall i :: 0 <= i < 4 ==> !checks[i]
  {
    if PresentationScore(checks) == 0 {
      assert !checks[0] && !checks[1] && !checks[2] && !checks[3];
    }
  }

  datatype Presentation = Presentation(score: int, feedback: seq<string>, hasVisualization: bool, avgSentenceLength: real)

  /** `assess_presentation`: four independent 25-point checks, each adding one
      feedback line marked as passed or not. */
  method AssessPresentation(output: string, hasChart: bool) returns (r: Presentation)
    ensures var checks := PresentationChecks(output, hasChart);
            && r.score == PresentationScore(checks)
            && r.feedback == PresentationFeedback(checks)
    ensures r.hasVisualization == hasChart
    ensures r.avgSentenceLength == AverageSentenceLength(output)
  {
    var checks := PresentationChecks(output, hasChart);
    var score := PresentationPoints(checks);
    var feedback := PresentationFeedbackLines(checks);
    PresentationScoreShape(checks);
    r := Presentation(Min(score, 100), feedback, hasChart, AverageSentenceLength(output));
  }

  /** The four feedback lines of `assess_presentation` for the given checks. */
  function PresentationFeedback(checks: seq<bool>): (f: seq<string>)
    requires |checks| == 4
    ensures |f| == 4
  {
    [Line(checks[0], Cross, "Well-structured output", "Poor output structure"),
     Line(checks[1], Cross, "Clear content organization", "Lacks clear organization"),
     Line(checks[2], Cross, "Visual elements included", "No visual elements"),
     Line(checks[3], Caution, "Good readability", "Could improve readability")]
  }

  /** Each presentation line starts with the passed mark exactly when its
      check passed; only the readability line is a caution when it fails. */
  lemma PresentationFeedbackMarks(checks: seq<bool>)
    requires |checks| == 4
    ensures var f := PresentationFeedback(checks);
            && (forall i :: 0 <= i < 4 ==> (StartsWith(f[i], Tick) <==> checks[i]))
            && (forall i :: 0 <= i < 3 ==> (StartsWith(f[i], Cross) <==> !checks[i]))
            && !StartsWith(f[3], Cross)
  {
    LineMarks(checks[0], Cross, "Well-structured output", "Poor output structure");
    LineMarks(checks[1], Cross, "Clear content organization", "Lacks clear organization");
    LineMarks(checks[2], Cross, "Visual elements included", "No visual elements");
    LineMarks(checks[3], Caution, "Good readability", "Could improve readability");
  }

  /** The points of `assess_presentation`, check by check. */
  method PresentationPoints(checks: seq<bool>) returns (score: int)
    requires |checks| == 4
    ensures score == PresentationScore(checks)
  {
    score := 0;
    if checks[0] {
      score := score + 25;
    }
    if checks[1] {
      score := score + 25;
    }
    if checks[2] {
      score := score + 25;
    }
    if checks[3] {
      score := score + 25;
    }
  }

  /** The feedback of `assess_presentation`: one line per check, in order. */
  method PresentationFeedbackLines(checks: seq<bool>) returns (feedback: seq<string>)
    requires |checks| == 4
    ensures feedback == PresentationFeedback(checks)
  {
    feedback := [];
    feedback := feedback + [Line(checks[0], Cross, "Well-structured output", "Poor output structure")];
    feedback := feedback + [Line(checks[1], Cross, "Clear content organization", "Lacks clear organization")];
    feedback := feedback + [Line(checks[2], Cross, "Visual elements included", "No visual elements")];
    feedback := feedback + [Line(checks[3], Caution, "Good readability", "Could improve readability")];
  }




  // ----- Performance -----

  /** Points lost to execution time: none under 30 s, then 10, 25 and 40. */
  function TimePenalty(execTime: real): int {
    if execTime < 30.0 then 0 else if execTime < 60.0 then 10 else if execTime < 120.0 then 25 else 40
  }

  /** Points lost to code length: none under 1000 characters, then 5 and 15. */
  function LengthPenalty(codeLength: int): int {
    if codeLength < 1000 then 0 else if codeLength < 2000 then 5 else 15
  }

  /** The two performance feedback lines: the speed band, then the length band. */
  function PerformanceFeedback(execTime: real, codeLength: int): (f: seq<string>)
    ensures |f| == 2
  {
    [ if execTime < 30.0 then Note(Tick, "Excellent execution speed")
      else if execTime < 60.0 then Note(Tick, "Good execution speed")
      else if execTime < 120.0 then Note(Caution, "Acceptable execution speed")
      else Note(Cross, "Slow execution"),
      if codeLength < 1000 then Note(Tick, "Efficient code length")
      else if codeLength < 2000 then Note(Tick, "Reasonable code length")
      else Note(Caution, "Could be more concise") ]
  }

  /** A line is ticked exactly when its penalty is at most 10 points (speed)
      or 5 points (length); only the slowest band is crossed. */
  lemma PerformanceFeedbackMarks(execTime: real, codeLength: int)
    ensures var f := PerformanceFeedback(execTime, codeLength);
            && (StartsWith(f[0], Tick) <==> TimePenalty(execTime) <= 10)
            && (StartsWith(f[0], Cross) <==> TimePenalty(execTime) == 40)
            && (StartsWith(f[1], Tick) <==> LengthPenalty(codeLength) <= 5)
            && !StartsWith(f[1], Cross)
  {
    if execTime < 30.0 {
      NoteMarks(Tick, "Excellent execution speed");
    } else if execTime < 60.0 {
      NoteMarks(Tick, "Good execution speed");
    } else if execTime < 120.0 {
      NoteMarks(Caution, "Acceptable execution speed");
    } else {
      NoteMarks(Cross, "Slow execution");
    }
    if codeLength < 1000 {
      NoteMarks(Tick, "Efficient code length");
    } else if codeLength < 2000 {
      NoteMarks(Tick, "Reasonable code length");
    } else {
      NoteMarks(Caution, "Could be more concise");
    }
  }

  datatype Performance = Performance(score: int, feedback: seq<string>, executionTime: real, codeLength: int)

  /** `assess_performance`: start at 100 and subtract a time and a length
      penalty; the floor at 0 never applies. */
  method AssessPerformance(execTime: real, codeLength: int) returns (r: Performance)
    ensures r.score == 100 - TimePenalty(execTime) - LengthPenalty(codeLength)
    ensures 45 <= r.score <= 100
    ensures r.feedback == PerformanceFeedback(execTime, codeLength)
    ensures r.executionTime == execTime && r.codeLength == codeLength
  {
    var score := 100;
    var feedback: seq<string> := [];
    if execTime < 30.0 {
      feedback := feedback + [Note(Tick, "Excellent execution speed")];
    } else if execTime < 60.0 {
      score := score - 10;
      feedback := feedback + [Note(Tick, "Good execution speed")];
    } else if execTime < 120.0 {
      score := score - 25;
      feedback := feedback + [Note(Caution, "Acceptable execution speed")];
    } else {
      score := score - 40;
      feedback := feedback + [Note(Cross, "Slow execution")];
    }
    if codeLength < 1000 {
      feedback := feedback + [Note(Tick, "Efficient code length")];
    } else if codeLength < 2000 {
      score := score - 5;
      feedback := feedback + [Note(Tick, "Reasonable code length")];
    } else {
      score := score - 15;
      feedback := feedback + [Note(Caution, "Could be more concise")];
    }
    r := Performance(Max(score, 0), feedback, execTime, codeLength);
  }

  /** Slower runs and longer code never score higher. */
  lemma {:induction false} PerformanceAntitone(t1: real, l1: int, t2: real, l2: int)
    requires t1 <= t2 && l1 <= l2
    ensures 100 - TimePenalty(t2) - LengthPenalty(l2) <= 100 - TimePenalty(t1) - LengthPenalty(l1)
  {
  }
}
