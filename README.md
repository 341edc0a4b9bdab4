# Conversational data-analyst backend, modelled in Dafny

The system answers business questions about a domain's tabular data through a
chain of language-model calls. It classifies the message. It answers greetings
directly. For analysis requests it rephrases the question, drafts a plan,
generates Python code, runs that code locally against CSV tables and reports on
the output. This project models the deterministic core around those calls.

- `ContextManager` (`context_manager.dfy`) covers the token-budget manager.
  It counts tokens per message with an abstract tokenizer. It truncates over
  the budget by keeping every system message and the most recent other
  messages that fit. A marker message notes how many were kept. It also builds
  the list sent to the API with a system prompt.
- `Executor` (`executor.dfy`) covers the local code executor: `LocalCodeExecutor`
  as a class over the output directory and the scratch scripts. Chart clearing,
  the outcome of a run (success, non-zero exit, timeout, launch error), the
  listing of output files and the indentation helper are modelled. The
  subprocess is an input `RunOutcome`.
- `DomainLoader` (`domain_loader.dfy`) covers the per-domain schema loader.
  It includes the instance cache (`LoaderCache`), the generated DataFrame-loading
  program and the schema summary given to the model. That summary keeps its
  literal two-character `\n` escapes.
- `Workflow` (`workflow.dfy`) covers the query workflow:
  - the two conversation-history windows;
  - the code-fence stripping;
  - the program assembled for execution;
  - `process_query` as a function of a language-model oracle and a code-runner
    oracle. It returns the response and the sequence of calls made.
- `Scoring` and `AssessmentReport` (`assessment_scoring.dfy`,
  `assessment_report.dfy`) cover the response-assessment suite:
  - the code-quality, business-relevance, presentation and performance scores
    with their feedback lines;
  - letter grades;
  - the weakness tally, its stable descending sort and the recommendations
    derived from its top five;
  - the per-domain and overall report.
- `AgeBrackets` (`age_brackets.dfy`) covers the age-bracket labelling used by
  the chart check.
- `DemoScenarios` (`demo_scenarios.dfy`) covers the demo-scenario lookups and
  the demo script, over a scenario catalogue given as a map.
- `TestSuite` (`test_suite.dfy`) covers the test-suite bookkeeping: logging a
  result, pass and fail counters, success rate and overall status band.

`Strings` and `Wrappers` hold the Python string operations used above and the
`Option`/`Result` types. The Python string operations are `strip`, `split`,
`join`, ASCII `lower`/`upper`/`title` and decimal rendering.

Where prose descriptions of the system and its code differ, the model follows
the code:

- Truncation does not guarantee that the result fits the budget. The marker
  and the system messages are added after the budget walk, and that walk
  charges only content plus 4 per message, so the role's tokens are not
  counted (`ContextManager.TruncationMayExceedBudget`).
- The scratch script is removed only when the subprocess completes. A timeout
  or launch error leaves it behind.
- A failing planning or report call does not halt the workflow. It becomes
  the text `Error creating analysis plan: …` / `Error generating report: …`.
- Generated code is run even when generation produced nothing usable.

## Model

| member | source | states |
|---|---|---|
| ContextManager.CountMessageTokens | context_manager.py:32-41 | the loop's total equals `TotalTokens`: role tokens + content tokens + 4 for each message |
| ContextManager.TotalTokensAppend | context_manager.py:32-41 | the count of a concatenation is the sum of the counts |
| ContextManager.TotalTokensLowerBound | context_manager.py:32-41 | every message costs at least the 4-token overhead |
| ContextManager.KeptCount | context_manager.py:66-75 | the walk from the newest message stops at the first message whose content plus 4 would exceed what the system messages leave |
| ContextManager.KeptCountUnique | context_manager.py:66-75 | that stopping point is the only count satisfying the stopping condition |
| ContextManager.KeptTail | context_manager.py:63-78 | the kept non-system messages are a suffix of the non-system messages, in order, whose charge fits the remaining budget |
| ContextManager.KeepRecent | context_manager.py:66-75 | the in-place walk (insert at the front, add to the running total) yields exactly `KeptTail` |
| ContextManager.TruncateConversation | context_manager.py:43-87 | the method's result equals the truncation function `Truncate` |
| ContextManager.TruncateWithinBudget | context_manager.py:48-54 | an empty list or one within the budget is returned unchanged; truncation never lengthens the list |
| ContextManager.TruncateOverBudget | context_manager.py:56-87 | over budget: all system messages kept, in order; the marker is present exactly when something was dropped, at index len-1 (or 0 for a one-element list); removing it gives system messages + kept tail |
| ContextManager.FiltersIdempotent | context_manager.py:58-63 | filtering by role twice equals filtering once |
| ContextManager.TruncationMayExceedBudget | context_manager.py:67-85 | a concrete list of three 1-token messages is truncated to 18 tokens under a budget of 10 |
| ContextManager.UnitTruncation | context_manager.py:80-85 | three 1-token "hi" messages under a budget of 10 become the first, the marker "keeping 2 of 3 messages", then the last: the marker goes before the last kept message |
| ContextManager.PrepareWithPrompt | context_manager.py:89-108 | a non-empty prompt replaces every system message and keeps the others in order, so the prepared list's only system message is the prompt; without one the list is truncated as given |
| Executor.LocalCodeExecutor.constructor | backend.py:162-167 | the output directory holds the pre-existing files and no scratch script exists |
| Executor.LocalCodeExecutor.ClearPreviousCharts | backend.py:173-182 | exactly the `.png` files are removed from the output directory |
| Executor.LocalCodeExecutor.GetOutputFiles | backend.py:304-317 | the listing names exactly the files in the output directory, each with path `output/<name>` |
| Executor.LocalCodeExecutor.ExecuteCode | backend.py:184-296 | charts cleared first, produced files added unless launch failed; the scratch script removed only after a completed run; the result is `OutcomeResult` with the directory listing after a completed run |
| Executor.OutcomeResultConsistent | backend.py:264-296 | success iff the run completed with return code 0; an error is present iff not successful; output starts with stdout; timeout and launch errors give empty output and no files |
| Executor.FailedRunOutput | backend.py:268-281 | a non-zero exit reports stderr as the error and appends "\n\nErrors:\n" + stderr to the output exactly when stderr is non-empty |
| Executor.IndentCodeLines | backend.py:298-302 | line by line, blank lines are kept and the others prefixed with the given number of spaces |
| Executor.UnindentIndentCode | backend.py:298-302 | indentation is undone by removing the same prefix from non-blank lines (round trip) |
| DomainLoader.DomainDataLoader.constructor | backend.py:54-58 | a new instance is uninitialised and has no schema |
| DomainLoader.DomainDataLoader.Initialize | backend.py:60-77 | a missing schema file gives "Schema file not found: metadata/<d>/_schema.json" and leaves the instance uninitialised; otherwise the schema is stored and the loading program built |
| DomainLoader.LoaderCache.constructor | backend.py:52 | the cache starts empty |
| DomainLoader.LoaderCache.Get | backend.py:54-68 | one instance per domain: earlier entries unchanged, a new domain gets a fresh entry; a missing schema is an error and the uninitialised instance stays cached |
| DomainLoader.LoaderCache.ClearInstances | backend.py:151-154 | the cache becomes empty |
| DomainLoader.BuildDataframesLoadingCode | backend.py:79-107 | the `+=` loop yields `LoadingCode` |
| DomainLoader.LoadingCodeShape | backend.py:79-107 | the loading program is the header, then one block per table in schema order, then the footer |
| DomainLoader.LoadingCodeLines | backend.py:100-106 | with newline-free names, the program has the header's lines + 3 per table + 1 newlines |
| DomainLoader.DomainDataLoader.GetDomainContext | backend.py:125-145 | the method returns `DomainContext` of the stored schema |
| DomainLoader.AppendTable | backend.py:131-143 | one table's loop step appends that table's section |
| DomainLoader.DomainContextShape | backend.py:125-145 | the context is the domain head followed by one independently defined section per table, in order |
| DomainLoader.DomainContextSingleLine | backend.py:127-143 | with newline-free schema fields, the context has no real newline (separators are the two characters `\n`) |
| Workflow.BuildRephraseContext | backend.py:461-470 | the loop yields `RephraseContext` |
| Workflow.BuildPlanContext | backend.py:514-526 | the loop yields `PlanContext` |
| Workflow.WindowIsRecentSuffix | backend.py:466 | the window is the last min(n, len) messages of the history |
| Workflow.RephraseContextShape | backend.py:462-470 | empty history gives no context; otherwise the header and one line per message of the last six |
| Workflow.RephraseLineBound | backend.py:467-470 | each line shows at most 200 characters of content, prefixed by the role ("unknown" when absent) |
| Workflow.RephraseContextIgnoresOlder | backend.py:466 | messages older than the last six do not affect the rephrase context |
| Workflow.PlanContextIgnoresOlder | backend.py:519 | messages older than the last four do not affect the plan context |
| Workflow.PlanContextShape | backend.py:515-526 | empty history gives no context; otherwise the header and the planning line of each of the last four messages, numbered by position |
| Workflow.PlanLineBound | backend.py:520-526 | a user message shows at most its first 150 characters as "Previous Question n", an assistant message at most its first 200 as "Previous Result n", any other role nothing |
| Workflow.PlanContextOnlyHeader | backend.py:520-526 | a history with neither user nor assistant messages yields only the header |
| Workflow.PlanLineNumbers | backend.py:522-526 | turns are numbered i//2 + 1, so positions 0 and 1 share a number and 1 and 2 do not |
| Workflow.CleanCode | backend.py:663-671 | the method's result equals `StripFences` |
| Workflow.StripPythonFence | backend.py:664-671 | a reply fenced with a python fence is reduced to its stripped body |
| Workflow.StripBareFence | backend.py:666-671 | a reply in bare fences is reduced to its stripped body |
| Workflow.StripNoFence | backend.py:663-671 | an unfenced reply is only stripped |
| Workflow.CompleteCodeParts | backend.py:673-676 | the program run is the loading program, a separator comment, then the generated code |
| Workflow.ExecuteStageRuns | backend.py:651-691 | a code-generation failure runs nothing and reports the error; otherwise the cleaned code behind the loading program is run once |
| Workflow.QueryAfterSetup | backend.py:344-360 | domain initialisation always reports success, yet a later query is refused as uninitialised exactly when the domain name is empty |
| Workflow.UninitializedRefuses | backend.py:359-360 | without domain and executor the answer is "Domain not initialized" and nothing is called |
| Workflow.GreetingShortCircuits | backend.py:362-368 | the answer is a greeting iff classification answered "greeting" (after strip and lower) and the schema loads; then exactly the classification and greeting calls are made and the answer is the reply or the fixed fallback |
| Workflow.AnalysisRunsPipeline | backend.py:370-390 | a non-greeting message runs rephrase, plan, code and report in that order and returns their results |
| Workflow.AnalyzeTrace | backend.py:370-390 | the calls made are the asks in pipeline order with at most one code run in between |
| Workflow.RunsStartWithLoadingCode | backend.py:673-679 | every program run starts with the domain's loading program |
| Workflow.FailuresAreWorkflowErrors | backend.py:359-393 | an error response is the uninitialised refusal or a "Workflow error: " from classification, the loader or rephrasing, before anything runs |
| Scoring.Grade | comprehensive_assessment.py:469-480 | the grade is one of A–F |
| Scoring.GradeBands | comprehensive_assessment.py:469-480 | each letter holds exactly on its band (>=90, 80–90, 70–80, 60–70, <60) |
| Scoring.GradeMonotone | comprehensive_assessment.py:469-480 | a higher score never gets a worse grade |
| Scoring.AssessCodeQuality | comprehensive_assessment.py:225-278 | score and feedback follow the six checks; strengths are the ticked lines, weaknesses the crossed lines |
| Scoring.CodeQualityPoints | comprehensive_assessment.py:230-271 | the `+=` scoring yields `CodeScore` |
| Scoring.CodeScoreRange | comprehensive_assessment.py:230-271 | the score is within 0..100, is 0 iff every check fails and is 100 iff every check passes |
| Scoring.CodeScoreMonotone | comprehensive_assessment.py:230-271 | passing more checks never lowers the score |
| Scoring.CodeFeedbackMarks | comprehensive_assessment.py:230-271 | each line is ticked iff its check passed; a failed check is crossed, except the comment check, which is a caution |
| Scoring.StrengthsAndWeaknesses | comprehensive_assessment.py:273-278 | strengths are exactly the passed checks' lines; every weakness comes from a failed check other than the comment check |
| Scoring.AssessBusinessRelevance | comprehensive_assessment.py:340-388 | the counts are of business terms and action words in the lower-cased output; score between 35 and 100; the three feedback lines are those of the term band, the action band and the impact test |
| Scoring.BusinessPoints | comprehensive_assessment.py:345-384 | the three `+=` steps yield `BusinessScore` and the feedback lines `BusinessFeedback` of the same bands |
| Scoring.BusinessFeedbackMarks | comprehensive_assessment.py:345-384 | the term line is ticked iff more than 5 terms, the action line ticked iff more than 3 action words and crossed otherwise, the impact line ticked iff the impact is addressed |
| Scoring.BusinessScoreRange | comprehensive_assessment.py:345-384 | 35 <= score <= 100 and the cap at 100 never changes it |
| Scoring.BusinessScoreMonotone | comprehensive_assessment.py:345-384 | more terms, more actions or addressing the impact never lowers the score |
| Scoring.AssessPresentation | comprehensive_assessment.py:390-432 | score and feedback follow the four presentation checks; the chart flag and average sentence length are recorded |
| Scoring.PresentationScoreShape | comprehensive_assessment.py:395-427 | the score is a multiple of 25 within 0..100, and 0 iff no check passes |
| Scoring.PresentationFeedbackMarks | comprehensive_assessment.py:395-427 | each feedback line is ticked iff its check passed |
| Scoring.AssessPerformance | comprehensive_assessment.py:434-467 | score = 100 − time penalty − length penalty, always between 45 and 100; the feedback is the speed band's line then the length band's line |
| Scoring.PerformanceFeedbackMarks | comprehensive_assessment.py:439-460 | the speed line is ticked iff the time penalty is at most 10 and crossed iff it is 40; the length line is ticked iff the length penalty is at most 5 and never crossed |
| Scoring.PerformanceAntitone | comprehensive_assessment.py:439-460 | slower or longer code never scores higher |
| AssessmentReport.CountIssues | comprehensive_assessment.py:603-616 | the nested loops yield the tally of all weaknesses, in domain and test order |
| AssessmentReport.TallyCounts | comprehensive_assessment.py:603-616 | the tally has distinct texts, one for each weakness seen, each with its number of occurrences |
| AssessmentReport.SortByCountSorted | comprehensive_assessment.py:619 | the sorted tally is in descending count order and a permutation of the tally |
| AssessmentReport.TopFiveMostFrequent | comprehensive_assessment.py:619-622 | no issue left out of the top five occurs more often than one in it |
| AssessmentReport.GenerateRecommendations | comprehensive_assessment.py:594-651 | the recommendations are those for the tally of all weaknesses |
| AssessmentReport.AdviseShape | comprehensive_assessment.py:622-642 | at most one piece of advice per top issue, and each bucket holds only its own advice texts |
| AssessmentReport.AdviseImmediate | comprehensive_assessment.py:625-627 | immediate actions are non-empty iff a top issue mentions visualization |
| AssessmentReport.RecommendationsShape | comprehensive_assessment.py:622-649 | between 3 and 8 recommendations; the three general items always close the strategic list; immediate ones exist iff a top-five issue mentions visualization |
| AssessmentReport.ScoreDomain | comprehensive_assessment.py:548-558 | the scores are those of the assessed tests; the failures are the rest |
| AssessmentReport.AnalyzeDomains | comprehensive_assessment.py:546-574 | per-domain analyses keyed by domain; successful + failed tests = total tests |
| AssessmentReport.GenerateAssessmentReport | comprehensive_assessment.py:533-592 | the report is the summary, the domain analyses and the recommendations |
| AssessmentReport.DomainAnalysisShape | comprehensive_assessment.py:561-574 | no scores iff every test errored (then average 0, rate 0, grade "F"); otherwise the grade of the average, the average between lowest and highest, and a rate in (0, 100] |
| AssessmentReport.AverageBetween | comprehensive_assessment.py:563-565 | the average lies between the lowest and the highest score |
| AssessmentReport.SummaryShape | comprehensive_assessment.py:577-587 | a summary exists iff some test was scored; successful + failed = total; the grade is that of the overall average, which lies between lowest and highest; the rate is in (0, 100] |
| AssessmentReport.DomainAnalysesKeys | comprehensive_assessment.py:546-574 | the analyses are keyed by exactly the domains tested |
| AssessmentReport.DomainAnalysisLookup | comprehensive_assessment.py:561-574 | a domain's entry is the analysis of its last result list |
| AgeBrackets.Bracket | test_chart_improvements.py:19-32 | the label is one of the seven bracket labels |
| AgeBrackets.BracketByBounds | test_chart_improvements.py:19-32 | the label is the one indexed by the number of lower bounds (18, 26, 36, 46, 56, 66) the age reaches |
| AgeBrackets.BracketBands | test_chart_improvements.py:19-32 | an age has the k-th label iff it lies in the k-th band |
| AgeBrackets.BracketMonotone | test_chart_improvements.py:19-32 | an older age never falls in an earlier bracket |
| AgeBrackets.BracketExamples | test_chart_improvements.py:19-32 | 17, 18, 25, 26, 65 and 66 fall where the band edges say, and every negative age is "Under 18" |
| AgeBrackets.CreateAgeBrackets | test_chart_improvements.py:15-33 | one label per age, in order |
| DemoScenarios.GetDomainScenarios | demo_test_scenarios.py:170-172 | a known domain's scenarios, or nothing for an unknown domain |
| DemoScenarios.GetAllQuestionsForDomain | demo_test_scenarios.py:174-183 | the four question categories concatenated in order; empty for an unknown domain |
| DemoScenarios.GetConversationScenarios | demo_test_scenarios.py:185-188 | a known domain's follow-up scenarios, or empty |
| DemoScenarios.GenerateDemoScript | demo_test_scenarios.py:190-237 | the method's result equals `DemoScript` |
| DemoScenarios.SectionsSucceed | demo_test_scenarios.py:203-204 | the script is produced iff every requested domain is in the catalogue |
| DemoScenarios.DemoScriptDefault | demo_test_scenarios.py:192-204 | without a domain, the script covers banking, hospital and marketing in that order |
| DemoScenarios.DemoScriptUnknown | demo_test_scenarios.py:192-204 | an unknown domain raises KeyError naming it |
| DemoScenarios.SectionShape | demo_test_scenarios.py:210-235 | a domain's section has 12 fixed lines, up to 3 easy, 4 medium and 2 hard questions and the lines of the first follow-up scenario |
| DemoScenarios.AppendSection | demo_test_scenarios.py:203-235 | the loop body appends exactly that domain's section |
| TestSuite.ComprehensiveTestSuite.constructor | comprehensive_test_suite.py:19-23 | no results and all counters zero |
| TestSuite.ComprehensiveTestSuite.LogTest | comprehensive_test_suite.py:25-34 | the result is stored under its name (replacing an earlier one); passed counts "PASS", failed counts everything else; total grows by one |
| TestSuite.ComprehensiveTestSuite.ResultsBounded | comprehensive_test_suite.py:27-34 | there are never more stored results than logged tests |
| TestSuite.LatestKeys | comprehensive_test_suite.py:27 | the stored names are exactly the names logged |
| TestSuite.LatestIsLast | comprehensive_test_suite.py:27 | a name's stored record is its last logged record |
| TestSuite.ComprehensiveTestSuite.Summary | comprehensive_test_suite.py:429-442 | a status is reported iff some test was run |
| TestSuite.SuccessRate | comprehensive_test_suite.py:477 | 0 with no tests, within 0..100 when passes do not exceed tests, 100 when all pass |
| TestSuite.OverallStatus | comprehensive_test_suite.py:433-440 | the status is one of the four bands |
| TestSuite.OverallStatusMonotone | comprehensive_test_suite.py:433-440 | a higher rate never gets a worse band; EXCELLENT iff >= 90 and POOR iff < 50 |
| TestSuite.AllPassedExcellent | comprehensive_test_suite.py:429-434 | when every test passes the status is EXCELLENT |

## Left out

- Language-model calls are the oracle `Llm`. Prompt wording, model names, temperatures and token limits are not modelled.
- The rephrase prompt's pass through `prepare_messages_for_api` (backend.py:498) is not represented in the `Rephrase` request. The request carries only the question and the history context.
- The tokenizer is the abstract function `Tokenizer`. tiktoken's encoding and its fallback are external.
- The subprocess, its 120-second timeout, the temporary directory and its cleanup, and `__del__` are not modelled. The subprocess is the input `RunOutcome`; the timeout is its `Timeout` case.
- Executor.LocalCodeExecutor.ClearPreviousCharts: a failure part-way through the deletions (the exception is swallowed) is not modelled. All charts are removed.
- The matplotlib harness wrapped around the user code and the automatic chart saving are not modelled. The files a run produces are an input.
- Reading the schema JSON and the CSV files (`_load_schema`, `_load_dataframes`) is left out. The parsed schema, or its absence, is an input.
- The execution time in the assessment is a real number supplied by the caller. Wall-clock timing, time stamps and printed progress are not modelled.
- `lower`, `upper` and `title` map ASCII letters only, wherever they are used: the keyword and impact tests of `Scoring`, the role title in `Workflow.RephraseLine`, the greeting label in `Workflow.Label`, the advice tests in `AssessmentReport.Advice` and the domain heading in `DemoScenarios.Intro`. Python's full Unicode case mapping is not modelled.
- AverageBetween: scores, averages and success rates are exact reals, where the program uses floating point. A float `sum / len` can fall one rounding step outside [lowest, highest]; three scores of 99.9 average to 99.90000000000002. The bound is proved for exact arithmetic only.
- DomainAnalysisShape: its clause that the average lies between the lowest and the highest score, and its success-rate bounds, hold for exact reals, not for the program's floats (see AverageBetween).
- SummaryShape: its clause that the overall average lies between the lowest and the highest score, and its success-rate bounds, hold for exact reals, not for the program's floats (see AverageBetween).
- The question catalogue of the demo scenarios is a parameter, not the built-in data. Saving it as JSON and the printed summary are I/O.
- `assess_analysis_depth`, `run_question_test`, `run_comprehensive_assessment`, `print_final_report` and the test runners of the test suite are left out. They call the workflow and print; they are not part of the scoring core.
- `get_available_domains`, `validate_environment`, `get_openai_key`, the web app and the data-generation and debugging scripts are left out. They are environment, UI and I/O code.
