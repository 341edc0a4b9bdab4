/** The assessment report: per-domain score summaries, the overall summary,
    and the improvement recommendations drawn from the most frequent
    weaknesses across all assessed questions. */
module AssessmentReport {
  import opened Wrappers
  import opened Strings
  import opened Scoring

  /** One question's outcome as the report reads it: an assessed run with its
      overall score and the weaknesses of its assessment (only the
      code-quality category carries a weakness list), or a run that raised. */
  datatype TestResult = Assessed(overallScore: real, weaknesses: seq<string>) | Errored(error: string)

  /** The results of every domain, in the order the domains were tested. */
  type DomainResults = seq<(string, seq<TestResult>)>

  // ----- Weakness tally -----

  /** The weaknesses of a domain's assessed results, in order. */
  function ResultWeaknesses(results: seq<TestResult>): seq<string> {
    if results == [] then []
    else
      var last := results[|results| - 1];
      ResultWeaknesses(results[..|results| - 1]) + (if last.Assessed? then last.weaknesses else [])
  }

  /** The weaknesses of every domain's assessed results, in order. */
  function DomainWeaknesses(domainResults: DomainResults): seq<string> {
    if domainResults == [] then []
    else
      DomainWeaknesses(domainResults[..|domainResults| - 1]) + ResultWeaknesses(domainResults[|domainResults| - 1].1)
  }

  /** A weakness and the number of times it was seen. */
  datatype Issue = Issue(text: string, count: nat)

  /** `common_issues[w] += 1`, with `w` added at the end with count 1 when it
      is not there yet: the tally keeps its keys in first-seen order. */
  function AddIssue(tally: seq<Issue>, w: string): (r: seq<Issue>)
    ensures |tally| <= |r| <= |tally| + 1
  {
    if tally == [] then [Issue(w, 1)]
    else if tally[0].text == w then [Issue(w, tally[0].count + 1)] + tally[1..]
    else [tally[0]] + AddIssue(tally[1..], w)
  }

  /** `t` with the weaknesses of `ws` counted one at a time. */
  function AddIssues(t: seq<Issue>, ws: seq<string>): seq<Issue> {
    if ws == [] then t else AddIssue(AddIssues(t, ws[..|ws| - 1]), ws[|ws| - 1])
  }

  /** The tally of a sequence of weaknesses. */
  function Tally(ws: seq<string>): seq<Issue> {
    AddIssues([], ws)
  }

  /** Counting two runs of weaknesses is counting the first, then the second. */
  lemma {:induction false} AddIssuesAppend(t: seq<Issue>, a: seq<string>, b: seq<string>)
    ensures AddIssues(t, a + b) == AddIssues(AddIssues(t, a), b)
  {
    if b == [] {
      assert a + b == a;
    } else {
      AddIssuesAppend(t, a, b[..|b| - 1]);
      assert (a + b)[..|a + b| - 1] == a + b[..|b| - 1];
    }
  }

  predicate DistinctTexts(t: seq<Issue>) {
    forall i, j :: 0 <= i < j < |t| ==> t[i].text != t[j].text
  }

  /** `t` counts exactly the weaknesses of `ws`: one entry per distinct
      weakness, holding the number of its occurrences. */
  predicate Counts(t: seq<Issue>, ws: seq<string>) {
    && DistinctTexts(t)
    && (forall i :: 0 <= i < |t| ==> t[i].count == multiset(ws)[t[i].text] && t[i].count > 0)
    && (forall w :: w in ws ==> exists i :: 0 <= i < |t| && t[i].text == w)
  }

  /** Counting a weakness already in the tally increments its entry in place. */
  lemma {:induction false} AddIssueExisting(t: seq<Issue>, w: string, k: int)
    requires DistinctTexts(t) && 0 <= k < |t| && t[k].text == w
    ensures AddIssue(t, w) == t[k := Issue(w, t[k].count + 1)]
    decreases |t|
  {
    if t[0].text != w {
      AddIssueExisting(t[1..], w, k - 1);
      assert [t[0]] + t[1..][k - 1 := Issue(w, t[k].count + 1)] == t[k := Issue(w, t[k].count + 1)];
    } else {
      assert k == 0;
      assert [Issue(w, t[0].count + 1)] + t[1..] == t[0 := Issue(w, t[0].count + 1)];
    }
  }

  /** Counting a new weakness appends it with count 1. */
  lemma {:induction false} AddIssueNew(t: seq<Issue>, w: string)
    requires forall i :: 0 <= i < |t| ==> t[i].text != w
    ensures AddIssue(t, w) == t + [Issue(w, 1)]
    decreases |t|
  {
    if t != [] {
      AddIssueNew(t[1..], w);
      assert [t[0]] + (t[1..] + [Issue(w, 1)]) == t + [Issue(w, 1)];
    }
  }

  /** Counting one more weakness keeps the tally exact. */
  lemma {:induction false} AddIssueCounts(t: seq<Issue>, ws: seq<string>, w: string)
    requires Counts(t, ws)
    ensures Counts(AddIssue(t, w), ws + [w])
  {
    var ws' := ws + [w];
    assert multiset(ws') == multiset(ws) + multiset{w};
    if k :| 0 <= k < |t| && t[k].text == w {
      AddIssueExisting(t, w, k);
      var r := t[k := Issue(w, t[k].count + 1)];
      forall x | x in ws'
        ensures exists i :: 0 <= i < |r| && r[i].text == x
      {
        if x == w {
          assert r[k].text == x;
        } else {
          assert x in ws;
          var i :| 0 <= i < |t| && t[i].text == x;
          assert r[i].text == x;
        }
      }
    } else {
      AddIssueNew(t, w);
      var r := t + [Issue(w, 1)];
      assert w !in ws;
      assert multiset(ws)[w] == 0;
      forall x | x in ws'
        ensures exists i :: 0 <= i < |r| && r[i].text == x
      {
        if x == w {
          assert r[|t|].text == x;
        } else {
          assert x in ws;
          var i :| 0 <= i < |t| && t[i].text == x;
          assert r[i].text == x;
        }
      }
    }
  }

  /** Counting more weaknesses into an exact tally keeps it exact. */
  lemma {:induction false} AddIssuesCounts(t: seq<Issue>, prior: seq<string>, ws: seq<string>)
    requires Counts(t, prior)
    ensures Counts(AddIssues(t, ws), prior + ws)
  {
    if ws != [] {
      var init := ws[..|ws| - 1];
      AddIssuesCounts(t, prior, init);
      AddIssueCounts(AddIssues(t, init), prior + init, ws[|ws| - 1]);
      AppendLast(prior, ws);
    }
  }

  lemma AppendLast(prior: seq<string>, ws: seq<string>)
    requires ws != []
    ensures prior + ws[..|ws| - 1] + [ws[|ws| - 1]] == prior + ws
  {
    assert ws == ws[..|ws| - 1] + [ws[|ws| - 1]];
  }

  /** The tally of any sequence of weaknesses counts it exactly. */
  lemma {:induction false} TallyCounts(ws: seq<string>)
    ensures Counts(Tally(ws), ws)
  {
    AddIssuesCounts([], [], ws);
    assert [] + ws == ws;
  }

  /** The innermost loop of the counting: each weakness of one assessment
      counted in turn. */
  method CountWeaknesses(issues: seq<Issue>, ws: seq<string>) returns (r: seq<Issue>)
    ensures r == AddIssues(issues, ws)
  {
    r := issues;
    for k := 0 to |ws|
      invariant r == AddIssues(issues, ws[..k])
    {
      assert ws[..k + 1][..k] == ws[..k];
      r := AddIssue(r, ws[k]);
    }
    assert ws[..|ws|] == ws;
  }

  /** One more result adds its weaknesses at the end. */
  lemma {:induction false} ResultWeaknessesStep(results: seq<TestResult>, j: int)
    requires 0 <= j < |results|
    ensures ResultWeaknesses(results[..j + 1])
            == ResultWeaknesses(results[..j]) + (if results[j].Assessed? then results[j].weaknesses else [])
  {
    assert results[..j + 1][..j] == results[..j];
  }

  /** One more domain adds its results' weaknesses at the end. */
  lemma {:induction false} DomainWeaknessesStep(domainResults: DomainResults, i: int)
    requires 0 <= i < |domainResults|
    ensures DomainWeaknesses(domainResults[..i + 1])
            == DomainWeaknesses(domainResults[..i]) + ResultWeaknesses(domainResults[i].1)
  {
    assert domainResults[..i + 1][..i] == domainResults[..i];
  }

  /** The loop over one domain's results: the weaknesses of each assessed
      result counted in turn; a result that raised adds nothing. */
  method CountResults(issues: seq<Issue>, results: seq<TestResult>) returns (r: seq<Issue>)
    ensures r == AddIssues(issues, ResultWeaknesses(results))
  {
    r := issues;
    assert ResultWeaknesses(results[..0]) == [];
    for j := 0 to |results|
      invariant r == AddIssues(issues, ResultWeaknesses(results[..j]))
    {
      ResultWeaknessesStep(results, j);
      if results[j].Assessed? {
        r := CountWeaknesses(r, results[j].weaknesses);
        AddIssuesAppend(issues, ResultWeaknesses(results[..j]), results[j].weaknesses);
      } else {
        assert ResultWeaknesses(results[..j]) + [] == ResultWeaknesses(results[..j]);
      }
    }
    assert results[..|results|] == results;
  }

  /** The weakness counting of `generate_recommendations`: every weakness of
      every assessed result, domain by domain, counted into the tally. */
  method CountIssues(domainResults: DomainResults) returns (issues: seq<Issue>)
    ensures issues == Tally(DomainWeaknesses(domainResults))
  {
    issues := [];
    assert DomainWeaknesses(domainResults[..0]) == [];
    for i := 0 to |domainResults|
      invariant issues == AddIssues([], DomainWeaknesses(domainResults[..i]))
    {
      issues := CountResults(issues, domainResults[i].1);
      DomainWeaknessesStep(domainResults, i);
      AddIssuesAppend([], DomainWeaknesses(domainResults[..i]), ResultWeaknesses(domainResults[i].1));
    }
    assert domainResults[..|domainResults|] == domainResults;
  }

  // ----- Most frequent issues -----

  /** Most frequent first. */
  predicate ByCountDescending(t: seq<Issue>) {
    forall i, j :: 0 <= i < j < |t| ==> t[i].count >= t[j].count
  }

  /** `x` placed in front of the first entry it is at least as frequent as,
      so that it stays ahead of the equally frequent entries it preceded. */
  function InsertByCount(x: Issue, sorted: seq<Issue>): (r: seq<Issue>)
    ensures multiset(r) == multiset(sorted) + multiset{x}
  {
    if sorted == [] || x.count >= sorted[0].count then [x] + sorted
    else
      assert sorted == [sorted[0]] + sorted[1..];
      [sorted[0]] + InsertByCount(x, sorted[1..])
  }

  /** `sorted(common_issues.items(), key=count, reverse=True)`: a stable
      sort, most frequent first. */
  function SortByCount(t: seq<Issue>): (r: seq<Issue>)
    ensures multiset(r) == multiset(t)
  {
    if t == [] then []
    else
      assert t == [t[0]] + t[1..];
      InsertByCount(t[0], SortByCount(t[1..]))
  }

  lemma {:induction false} InsertByCountSorted(x: Issue, sorted: seq<Issue>)
    requires ByCountDescending(sorted)
    ensures ByCountDescending(InsertByCount(x, sorted))
  {
    if sorted != [] && x.count < sorted[0].count {
      InsertByCountSorted(x, sorted[1..]);
      var rest := InsertByCount(x, sorted[1..]);
      forall k | 0 <= k < |rest|
        ensures sorted[0].count >= rest[k].count
      {
        assert rest[k] in multiset(rest);
        assert rest[k] == x || rest[k] in multiset(sorted[1..]);
        if rest[k] != x {
          var m :| 0 <= m < |sorted[1..]| && sorted[1..][m] == rest[k];
          assert sorted[m + 1] == rest[k];
        }
      }
    }
  }

  /** The sort puts the most frequent issues first and loses or adds none. */
  lemma {:induction false} SortByCountSorted(t: seq<Issue>)
    ensures ByCountDescending(SortByCount(t))
    ensures multiset(SortByCount(t)) == multiset(t)
  {
    if t != [] {
      SortByCountSorted(t[1..]);
      InsertByCountSorted(t[0], SortByCount(t[1..]));
    }
  }

  /** `sorted_issues[:5]`. */
  function TopFive(sorted: seq<Issue>): (top: seq<Issue>)
    ensures |top| == Min(5, |sorted|) && top == sorted[..|top|]
  {
    if |sorted| <= 5 then sorted else sorted[..5]
  }

  /** Every issue left out of the top five is at most as frequent as every
      issue in it. */
  lemma {:induction false} TopFiveMostFrequent(t: seq<Issue>, x: Issue, y: Issue)
    requires x in t && x !in TopFive(SortByCount(t)) && y in TopFive(SortByCount(t))
    ensures y.count >= x.count
  {
    var s := SortByCount(t);
    var top := TopFive(s);
    SortByCountSorted(t);
    assert x in multiset(s);
    var k :| 0 <= k < |s| && s[k] == x;
    var i :| 0 <= i < |top| && top[i] == y;
    assert s[i] == y;
    assert forall j :: 0 <= j < |top| ==> s[j] == top[j] && top[j] != x;
  }

  // ----- Recommendations -----

  datatype Recommendations = Recommendations(immediate: seq<string>, strategic: seq<string>, technical: seq<string>)

  /** The three lists a recommendation can go to. */
  datatype Bucket = Immediate | Strategic | Technical

  const VisualizationAdvice := "Enhance data visualization capabilities - ensure all analyses include relevant charts and graphs"
  const StatisticsAdvice := "Improve statistical analysis depth - include more advanced statistical methods and significance testing"
  const BusinessAdvice := "Strengthen business context - better connect technical findings to business impact and ROI"
  const ErrorHandlingAdvice := "Implement robust error handling in generated code to improve reliability"
  const ActionabilityAdvice := "Enhance actionability - provide more specific, implementable recommendations"
  const GeneralAdvice := [
    "Develop domain-specific templates for consistent high-quality analysis",
    "Implement automated quality checks for generated analyses",
    "Create feedback loops to continuously improve response quality"]

  /** The recommendation for one issue, by the first keyword its lower-cased
      text contains: visualization, statistical, business, error handling,
      actionable; none for any other issue. */
  function Advice(issue: string): Option<(Bucket, string)> {
    var l := Lower(issue);
    if Contains(l, "visualization") then Some((Immediate, VisualizationAdvice))
    else if Contains(l, "statistical") then Some((Technical, StatisticsAdvice))
    else if Contains(l, "business") then Some((Strategic, BusinessAdvice))
    else if Contains(l, "error handling") then Some((Technical, ErrorHandlingAdvice))
    else if Contains(l, "actionable") then Some((Strategic, ActionabilityAdvice))
    else None
  }

  /** `recs` with an issue's recommendation appended to its list. */
  function File(recs: Recommendations, advice: Option<(Bucket, string)>): Recommendations {
    match advice
    case None => recs
    case Some((Immediate, text)) => recs.(immediate := recs.immediate + [text])
    case Some((Strategic, text)) => recs.(strategic := recs.strategic + [text])
    case Some((Technical, text)) => recs.(technical := recs.technical + [text])
  }

  /** The recommendations for a run of issues, in order. */
  function Advise(issues: seq<Issue>): Recommendations {
    if issues == [] then Recommendations([], [], [])
    else File(Advise(issues[..|issues| - 1]), Advice(issues[|issues| - 1].text))
  }

  /** `generate_recommendations` on a tally: the advice for the five most
      frequent issues, then the general items on the strategic list. */
  function RecommendationsFor(tally: seq<Issue>): Recommendations {
    var recs := Advise(TopFive(SortByCount(tally)));
    recs.(strategic := recs.strategic + GeneralAdvice)
  }

  /** `generate_recommendations`. */
  method GenerateRecommendations(domainResults: DomainResults) returns (recs: Recommendations)
    ensures recs == RecommendationsFor(Tally(DomainWeaknesses(domainResults)))
  {
    var issues := CountIssues(domainResults);
    var top := TopFive(SortByCount(issues));
    recs := Recommendations([], [], []);
    for i := 0 to |top|
      invariant recs == Advise(top[..i])
    {
      assert top[..i + 1][..i] == top[..i];
      var l := Lower(top[i].text);
      if Contains(l, "visualization") {
        recs := recs.(immediate := recs.immediate + [VisualizationAdvice]);
      } else if Contains(l, "statistical") {
        recs := recs.(technical := recs.technical + [StatisticsAdvice]);
      } else if Contains(l, "business") {
        recs := recs.(strategic := recs.strategic + [BusinessAdvice]);
      } else if Contains(l, "error handling") {
        recs := recs.(technical := recs.technical + [ErrorHandlingAdvice]);
      } else if Contains(l, "actionable") {
        recs := recs.(strategic := recs.strategic + [ActionabilityAdvice]);
      }
    }
    assert top[..|top|] == top;
    recs := recs.(strategic := recs.strategic + GeneralAdvice);
  }

  /** At most one recommendation per issue, each on the list its keyword
      selects. */
  lemma {:induction false} AdviseShape(issues: seq<Issue>)
    ensures var r := Advise(issues);
            && |r.immediate| + |r.strategic| + |r.technical| <= |issues|
            && (forall k :: 0 <= k < |r.immediate| ==> r.immediate[k] == VisualizationAdvice)
            && (forall k :: 0 <= k < |r.technical| ==> r.technical[k] in {StatisticsAdvice, ErrorHandlingAdvice})
            && (forall k :: 0 <= k < |r.strategic| ==> r.strategic[k] in {BusinessAdvice, ActionabilityAdvice})
  {
    if issues != [] {
      AdviseShape(issues[..|issues| - 1]);
    }
  }

  /** Some issue mentions visualization, in any letter case. */
  predicate MentionsVisualization(issues: seq<Issue>) {
    exists k :: 0 <= k < |issues| && Contains(Lower(issues[k].text), "visualization")
  }

  /** The immediate list is non-empty exactly when an issue mentions
      visualization. */
  lemma {:induction false} AdviseImmediate(issues: seq<Issue>)
    ensures Advise(issues).immediate != [] <==> MentionsVisualization(issues)
  {
    if issues != [] {
      var init := issues[..|issues| - 1];
      AdviseImmediate(init);
      if exists k :: 0 <= k < |init| && Contains(Lower(init[k].text), "visualization") {
        var k :| 0 <= k < |init| && Contains(Lower(init[k].text), "visualization");
        assert issues[k] == init[k];
      }
      if exists k :: 0 <= k < |issues| && Contains(Lower(issues[k].text), "visualization") {
        var k :| 0 <= k < |issues| && Contains(Lower(issues[k].text), "visualization");
        if k < |init| {
          assert init[k] == issues[k];
        }
      }
    }
  }

  /** The recommendations: at most five specific items, then the three
      general ones last on the strategic list; immediate improvements exactly
      when one of the five most frequent issues mentions visualization. */
  lemma {:induction false} RecommendationsShape(tally: seq<Issue>)
    ensures var r := RecommendationsFor(tally);
            && 3 <= |r.immediate| + |r.strategic| + |r.technical| <= 8
            && |r.strategic| >= 3 && r.strategic[|r.strategic| - 3..] == GeneralAdvice
            && (forall k :: 0 <= k < |r.immediate| ==> r.immediate[k] == VisualizationAdvice)
            && (r.immediate != [] <==> MentionsVisualization(TopFive(SortByCount(tally))))
  {
    var top := TopFive(SortByCount(tally));
    AdviseShape(top);
    AdviseImmediate(top);
    var recs := Advise(top);
    assert RecommendationsFor(tally) == recs.(strategic := recs.strategic + GeneralAdvice);
    assert (recs.strategic + GeneralAdvice)[|recs.strategic + GeneralAdvice| - 3..] == GeneralAdvice;
  }

  // ----- Scores -----

  /** The overall scores of a domain's assessed results, in order. */
  function Scores(results: seq<TestResult>): (scores: seq<real>)
    ensures |scores| <= |results|
  {
    if results == [] then []
    else
      var last := results[|results| - 1];
      Scores(results[..|results| - 1]) + (if last.Assessed? then [last.overallScore] else [])
  }

  /** The overall scores of every domain's assessed results, in order. */
  function AllScores(domainResults: DomainResults): (scores: seq<real>)
    ensures |scores| <= TestCount(domainResults)
  {
    if domainResults == [] then []
    else AllScores(domainResults[..|domainResults| - 1]) + Scores(domainResults[|domainResults| - 1].1)
  }

  /** The number of results over all domains. */
  function TestCount(domainResults: DomainResults): nat {
    if domainResults == [] then 0
    else TestCount(domainResults[..|domainResults| - 1]) + |domainResults[|domainResults| - 1].1|
  }

  function Sum(xs: seq<real>): real {
    if xs == [] then 0.0 else Sum(xs[..|xs| - 1]) + xs[|xs| - 1]
  }

  /** `max(xs)` */
  function Highest(xs: seq<real>): real
    requires xs != []
  {
    if |xs| == 1 then xs[0]
    else
      var m := Highest(xs[..|xs| - 1]);
      if xs[|xs| - 1] > m then xs[|xs| - 1] else m
  }

  /** `min(xs)` */
  function Lowest(xs: seq<real>): real
    requires xs != []
  {
    if |xs| == 1 then xs[0]
    else
      var m := Lowest(xs[..|xs| - 1]);
      if xs[|xs| - 1] < m then xs[|xs| - 1] else m
  }

  /** The highest and lowest scores are scores, and bound every score. */
  lemma {:induction false} Extremes(xs: seq<real>)
    requires xs != []
    ensures Highest(xs) in xs && forall k :: 0 <= k < |xs| ==> xs[k] <= Highest(xs)
    ensures Lowest(xs) in xs && forall k :: 0 <= k < |xs| ==> Lowest(xs) <= xs[k]
  {
    if |xs| > 1 {
      var init := xs[..|xs| - 1];
      Extremes(init);
      assert forall k :: 0 <= k < |init| ==> init[k] == xs[k];
      assert xs == init + [xs[|xs| - 1]];
    }
  }

  function Average(xs: seq<real>): real
    requires xs != []
  {
    Sum(xs) / |xs| as real
  }

  /** Every element bounded below by `lo` and above by `hi` bounds the sum by
      `n * lo` and `n * hi`. */
  lemma {:induction false} SumBounds(xs: seq<real>, lo: real, hi: real)
    requires forall k :: 0 <= k < |xs| ==> lo <= xs[k] <= hi
    ensures |xs| as real * lo <= Sum(xs) <= |xs| as real * hi
  {
    if xs != [] {
      var init := xs[..|xs| - 1];
      assert forall k :: 0 <= k < |init| ==> init[k] == xs[k];
      SumBounds(init, lo, hi);
      assert |xs| as real * lo == |init| as real * lo + lo;
      assert |xs| as real * hi == |init| as real * hi + hi;
    }
  }

  /** A bound on `n` copies of `x` bounds `x` by the quotient. */
  lemma QuotientBounds(lo: real, hi: real, s: real, n: real)
    requires n > 0.0 && n * lo <= s <= n * hi
    ensures lo <= s / n <= hi
  {
    var q := s / n;
    assert q * n == s;
    assert n * lo <= n * q <= n * hi;
  }

  /** The average lies between the lowest and the highest score. */
  lemma {:induction false} AverageBetween(xs: seq<real>)
    requires xs != []
    ensures Lowest(xs) <= Average(xs) <= Highest(xs)
  {
    var n, lo, hi, total := |xs| as real, Lowest(xs), Highest(xs), Sum(xs);
    Extremes(xs);
    SumBounds(xs, lo, hi);
    QuotientBounds(lo, hi, total, n);
  }

  // ----- Report -----

  /** A domain's line of the report: full figures when any of its results was
      assessed, otherwise average and success rate 0 with grade F. */
  datatype DomainAnalysis =
    | Scored(averageScore: real, highestScore: real, lowestScore: real, successRate: real, grade: string)
    | Unscored(averageScore: real, successRate: real, grade: string)

  /** The overall summary over all domains. */
  datatype Summary = Summary(totalTests: nat, successfulTests: nat, failedTests: nat, successRate: real,
                             averageScore: real, overallGrade: string, highestScore: real, lowestScore: real)

  /** The report: the overall summary is absent (an empty dictionary in the
      program) when no result was assessed. */
  datatype Report = Report(overallSummary: Option<Summary>, domainAnalysis: map<string, DomainAnalysis>,
                           recommendations: Recommendations)

  /** The analysis of one domain's results. */
  function AnalyzeDomain(results: seq<TestResult>): DomainAnalysis {
    var scores := Scores(results);
    if scores == [] then Unscored(0.0, 0.0, "F")
    else Scored(Average(scores), Highest(scores), Lowest(scores),
                |scores| as real / |results| as real * 100.0, Grade(Average(scores)))
  }

  /** Every domain's analysis, keyed by domain. */
  function DomainAnalyses(domainResults: DomainResults): map<string, DomainAnalysis> {
    if domainResults == [] then map[]
    else
      var last := domainResults[|domainResults| - 1];
      DomainAnalyses(domainResults[..|domainResults| - 1])[last.0 := AnalyzeDomain(last.1)]
  }

  /** The overall summary, present exactly when some result was assessed. */
  function Summarize(domainResults: DomainResults): Option<Summary> {
    var all := AllScores(domainResults);
    var total := TestCount(domainResults);
    if all == [] then None
    else Some(Summary(total, |all|, total - |all|, |all| as real / total as real * 100.0,
                      Average(all), Grade(Average(all)), Highest(all), Lowest(all)))
  }

  lemma {:induction false} ScoresStep(results: seq<TestResult>, j: int)
    requires 0 <= j < |results|
    ensures Scores(results[..j + 1]) == Scores(results[..j]) + (if results[j].Assessed? then [results[j].overallScore] else [])
  {
    assert results[..j + 1][..j] == results[..j];
  }

  lemma {:induction false} DomainStep(domainResults: DomainResults, i: int)
    requires 0 <= i < |domainResults|
    ensures AllScores(domainResults[..i + 1]) == AllScores(domainResults[..i]) + Scores(domainResults[i].1)
    ensures TestCount(domainResults[..i + 1]) == TestCount(domainResults[..i]) + |domainResults[i].1|
    ensures DomainAnalyses(domainResults[..i + 1])
            == DomainAnalyses(domainResults[..i])[domainResults[i].0 := AnalyzeDomain(domainResults[i].1)]
  {
    assert domainResults[..i + 1][..i] == domainResults[..i];
  }

  /** The loop over one domain's results in `generate_assessment_report`:
      the scores of the assessed results, in order, and the number that
      raised. */
  method ScoreDomain(results: seq<TestResult>) returns (domainScores: seq<real>, failures: nat)
    ensures domainScores == Scores(results)
    ensures |domainScores| + failures == |results|
  {
    domainScores := [];
    failures := 0;
    for j := 0 to |results|
      invariant domainScores == Scores(results[..j])
      invariant |domainScores| + failures == j
    {
      ScoresStep(results, j);
      if results[j].Assessed? {
        domainScores := domainScores + [results[j].overallScore];
      } else {
        failures := failures + 1;
      }
    }
    assert results[..|results|] == results;
  }

  /** The loop over the domains in `generate_assessment_report`: every
      domain's analysis, all assessed scores in order, and the counts of
      assessed and raised results. */
  method AnalyzeDomains(domainResults: DomainResults)
    returns (domainAnalysis: map<string, DomainAnalysis>, allScores: seq<real>, successfulTests: nat, failedTests: nat)
    ensures domainAnalysis == DomainAnalyses(domainResults)
    ensures allScores == AllScores(domainResults)
    ensures successfulTests == |allScores|
    ensures successfulTests + failedTests == TestCount(domainResults)
  {
    domainAnalysis, allScores, successfulTests, failedTests := map[], [], 0, 0;
    for i := 0 to |domainResults|
      invariant domainAnalysis == DomainAnalyses(domainResults[..i])
      invariant allScores == AllScores(domainResults[..i])
      invariant successfulTests == |allScores|
      invariant successfulTests + failedTests == TestCount(domainResults[..i])
    {
      var (domain, results) := domainResults[i];
      DomainStep(domainResults, i);
      var domainScores, failures := ScoreDomain(results);
      allScores := allScores + domainScores;
      successfulTests := successfulTests + |domainScores|;
      failedTests := failedTests + failures;
      if domainScores != [] {
        var average := Average(domainScores);
        domainAnalysis := domainAnalysis[domain := Scored(average, Highest(domainScores), Lowest(domainScores),
                                                          |domainScores| as real / |results| as real * 100.0,
                                                          Grade(average))];
      } else {
        domainAnalysis := domainAnalysis[domain := Unscored(0.0, 0.0, "F")];
      }
    }
    assert domainResults[..|domainResults|] == domainResults;
  }

  /** `generate_assessment_report`. */
  method GenerateAssessmentReport(domainResults: DomainResults) returns (report: Report)
    ensures report == Report(Summarize(domainResults), DomainAnalyses(domainResults),
                             RecommendationsFor(Tally(DomainWeaknesses(domainResults))))
  {
    var domainAnalysis, allScores, successfulTests, failedTests := AnalyzeDomains(domainResults);
    var summary: Option<Summary> := None;
    if allScores != [] {
      var total := successfulTests + failedTests;
      summary := Some(Summary(total, successfulTests, failedTests, successfulTests as real / total as real * 100.0,
                              Average(allScores), Grade(Average(allScores)), Highest(allScores), Lowest(allScores)));
    }
    assert summary == Summarize(domainResults);
    var recommendations := GenerateRecommendations(domainResults);
    report := Report(summary, domainAnalysis, recommendations);
  }

  /** A domain with no assessed result reports average and success rate 0
      with grade F; any other reports the letter of its average, which lies
      between its lowest and highest score, and a success rate in (0, 100]. */
  lemma {:induction false} DomainAnalysisShape(results: seq<TestResult>)
    ensures var a := AnalyzeDomain(results);
            && (a.Unscored? <==> forall j :: 0 <= j < |results| ==> results[j].Errored?)
            && (a.Unscored? ==> a == Unscored(0.0, 0.0, "F"))
            && (a.Scored? ==>
                  && a.grade == Grade(a.averageScore)
                  && a.lowestScore <= a.averageScore <= a.highestScore
                  && 0.0 < a.successRate <= 100.0)
  {
    ScoresEmpty(results);
    var scores := Scores(results);
    if scores != [] {
      AverageBetween(scores);
      RateBounds(|scores|, |results|);
    }
  }

  /** A ratio of `k` out of `n`, for `0 < k <= n`, as a percentage lies in (0, 100]. */
  lemma {:induction false} RateBounds(k: nat, n: nat)
    requires 0 < k <= n
    ensures 0.0 < k as real / n as real * 100.0 <= 100.0
  {
    assert k as real / n as real <= 1.0;
  }

  /** No scores exactly when every result raised. */
  lemma {:induction false} ScoresEmpty(results: seq<TestResult>)
    ensures Scores(results) == [] <==> forall j :: 0 <= j < |results| ==> results[j].Errored?
  {
    if results != [] {
      var init := results[..|results| - 1];
      ScoresEmpty(init);
      assert forall j :: 0 <= j < |init| ==> init[j] == results[j];
    }
  }

  /** The summary is present exactly when some result was assessed; its
      counts add up to every result, and its average lies between its lowest
      and highest score. */
  lemma {:induction false} SummaryShape(domainResults: DomainResults)
    ensures Summarize(domainResults).Some? <==> AllScores(domainResults) != []
    ensures Summarize(domainResults).Some? ==>
              var s := Summarize(domainResults).value;
              && s.successfulTests + s.failedTests == s.totalTests == TestCount(domainResults)
              && s.successfulTests > 0
              && s.overallGrade == Grade(s.averageScore)
              && s.lowestScore <= s.averageScore <= s.highestScore
              && 0.0 < s.successRate <= 100.0
  {
    var all := AllScores(domainResults);
    if all != [] {
      AverageBetween(all);
      RateBounds(|all|, TestCount(domainResults));
    }
  }

  /** The report has an analysis for exactly the domains of the results. */
  lemma {:induction false} DomainAnalysesKeys(domainResults: DomainResults)
    ensures DomainAnalyses(domainResults).Keys == set p | p in domainResults :: p.0
  {
    if domainResults != [] {
      var init := domainResults[..|domainResults| - 1];
      var last := domainResults[|domainResults| - 1];
      DomainAnalysesKeys(init);
      assert domainResults == init + [last];
      assert (set p | p in domainResults :: p.0) == (set p | p in init :: p.0) + {last.0};
    }
  }

  /** A domain listed once, or last among its repetitions, is reported with
      the analysis of its own results. */
  lemma {:induction false} DomainAnalysisLookup(domainResults: DomainResults, i: int)
    requires 0 <= i < |domainResults|
    requires forall j :: i < j < |domainResults| ==> domainResults[j].0 != domainResults[i].0
    ensures domainResults[i].0 in DomainAnalyses(domainResults)
    ensures DomainAnalyses(domainResults)[domainResults[i].0] == AnalyzeDomain(domainResults[i].1)
  {
    var n := |domainResults|;
    if i < n - 1 {
      var init := domainResults[..n - 1];
      assert forall j :: 0 <= j < n - 1 ==> init[j] == domainResults[j];
      DomainAnalysisLookup(init, i);
    }
  }
}
