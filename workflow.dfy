/** `LLMWorkflow` (backend.py): the dispatch of `process_query` over its
    stages, the conversation windows handed to the rephrasing and planning
    prompts, and the clean-up of generated code before it runs. Every language
    model call is an oracle `Llm` from a request to a reply or a raised error;
    the executor is an oracle `Runner` from a program to its result record. */
module Workflow {
  import opened Wrappers
  import opened Strings
  import opened ContextManager
  import opened Executor
  import opened DomainLoader

  // ----- conversation windows -----

  /** `history[-n:] if len(history) > n else history` */
  function Window(history: seq<Message>, n: nat): seq<Message> {
    if |history| > n then history[|history| - n..] else history
  }

  /** `msg.get('role', 'unknown')` */
  function RoleOrUnknown(m: Message): string { m.role.GetOr("unknown") }

  const RephraseHeader := "\n\nConversation Context:\n"

  /** The line one turn adds to the rephrasing context. */
  function RephraseLine(m: Message): string {
    Title(RoleOrUnknown(m)) + ": " + Take(ContentText(m), 200) + "\n"
  }

  /** The rephrasing loop from `context` on. */
  function AppendRephraseLines(context: string, window: seq<Message>): string
    decreases |window|
  {
    if window == [] then context else AppendRephraseLines(context + RephraseLine(window[0]), window[1..])
  }

  /** The context section of `_rephrase_question`. */
  function RephraseContext(history: seq<Message>): string {
    if history == [] then "" else AppendRephraseLines(RephraseHeader, Window(history, 6))
  }

  const PlanHeader := "\n\nRecent Conversation Context:\n"

  /** The line the turn at position `i` of the window adds to the planning
      context: user and assistant turns only, numbered by exchange. */
  function PlanLine(i: nat, m: Message): string {
    if m.role == Some("user") then
      "Previous Question " + NatToString(i / 2 + 1) + ": " + Take(ContentText(m), 150) + "\n"
    else if m.role == Some("assistant") then
      "Previous Result " + NatToString(i / 2 + 1) + ": " + Take(ContentText(m), 200) + "\n"
    else ""
  }

  /** The planning loop from position `i` of the window on. */
  function AppendPlanLines(context: string, window: seq<Message>, i: nat): string
    requires i <= |window|
    decreases |window| - i
  {
    if i == |window| then context else AppendPlanLines(context + PlanLine(i, window[i]), window, i + 1)
  }

  /** The context section of `_create_analysis_plan`. */
  function PlanContext(history: seq<Message>): string {
    if history == [] then "" else AppendPlanLines(PlanHeader, Window(history, 4), 0)
  }

  /** The rephrasing context section, built turn by turn. */
  method BuildRephraseContext(history: seq<Message>) returns (contextSection: string)
    ensures contextSection == RephraseContext(history)
  {
    contextSection := "";
    if |history| > 0 {
      contextSection := RephraseHeader;
      var recentHistory := if |history| > 6 then history[|history| - 6..] else history;
      for k := 0 to |recentHistory|
        invariant AppendRephraseLines(contextSection, recentHistory[k..]) == RephraseContext(history)
      {
        var msg := recentHistory[k];
        assert recentHistory[k..][1..] == recentHistory[k + 1..];
        var role := RoleOrUnknown(msg);
        var content := Take(ContentText(msg), 200);
        contextSection := contextSection + (Title(role) + ": " + content + "\n");
      }
    }
  }

  /** The planning context section, built turn by turn. */
  method BuildPlanContext(history: seq<Message>) returns (contextSection: string)
    ensures contextSection == PlanContext(history)
  {
    contextSection := "";
    if |history| > 0 {
      contextSection := PlanHeader;
      var recentHistory := if |history| > 4 then history[|history| - 4..] else history;
      for i := 0 to |recentHistory|
        invariant AppendPlanLines(contextSection, recentHistory, i) == PlanContext(history)
      {
        var msg := recentHistory[i];
        if msg.role == Some("user") {
          contextSection := contextSection
            + ("Previous Question " + NatToString(i / 2 + 1) + ": " + Take(ContentText(msg), 150) + "\n");
        } else if msg.role == Some("assistant") {
          var content := Take(ContentText(msg), 200);
          contextSection := contextSection + ("Previous Result " + NatToString(i / 2 + 1) + ": " + content + "\n");
        } else {
          assert contextSection + PlanLine(i, msg) == contextSection;
        }
      }
    }
  }

  /** The concatenation of the rephrasing lines of a window. */
  function RephraseLines(window: seq<Message>): string {
    if window == [] then "" else RephraseLine(window[0]) + RephraseLines(window[1..])
  }

  lemma {:induction false} AppendRephraseLinesIsConcat(context: string, window: seq<Message>)
    ensures AppendRephraseLines(context, window) == context + RephraseLines(window)
    decreases |window|
  {
    if window != [] {
      var line, rest := RephraseLine(window[0]), window[1..];
      AppendRephraseLinesIsConcat(context + line, rest);
      ConcatAssoc(context, line, RephraseLines(rest));
    }
  }

  /** The window holds the last `min(n, |history|)` turns, in order. */
  lemma {:induction false} WindowIsRecentSuffix(history: seq<Message>, n: nat)
    ensures var w := Window(history, n);
            && |w| == (if |history| < n then |history| else n)
            && w == history[|history| - |w|..]
  {
  }

  /** An empty history gives an empty rephrasing section; otherwise the section
      is the header followed by one line per turn of the last six. */
  lemma {:induction false} RephraseContextShape(history: seq<Message>)
    ensures history == [] ==> RephraseContext(history) == ""
    ensures history != [] ==> RephraseContext(history) == RephraseHeader + RephraseLines(Window(history, 6))
  {
    if history != [] {
      AppendRephraseLinesIsConcat(RephraseHeader, Window(history, 6));
    }
  }

  /** Each rephrasing line shows at most 200 characters of the turn's text, and
      they are its first ones. */
  lemma {:induction false} RephraseLineBound(m: Message)
    ensures var shown := Take(ContentText(m), 200);
            && |shown| <= 200
            && StartsWith(ContentText(m), shown)
            && RephraseLine(m) == Title(RoleOrUnknown(m)) + ": " + shown + "\n"
  {
  }

  /** Turns older than the last `n` never reach a window. */
  lemma {:induction false} WindowIgnoresOlder(older: seq<Message>, history: seq<Message>, n: nat)
    requires |history| >= n
    ensures Window(older + history, n) == Window(history, n)
  {
    var h := older + history;
    assert h[|h| - n..] == history[|history| - n..];
  }

  /** Once six turns are there, older turns do not change the rephrasing section. */
  lemma {:induction false} RephraseContextIgnoresOlder(older: seq<Message>, history: seq<Message>)
    requires |history| >= 6
    ensures RephraseContext(older + history) == RephraseContext(history)
  {
    WindowIgnoresOlder(older, history, 6);
  }

  /** Once four turns are there, older turns do not change the planning section. */
  lemma {:induction false} PlanContextIgnoresOlder(older: seq<Message>, history: seq<Message>)
    requires |history| >= 4
    ensures PlanContext(older + history) == PlanContext(history)
  {
    WindowIgnoresOlder(older, history, 4);
  }

  /** Turns that are neither from the user nor from the assistant add nothing. */
  lemma {:induction false} AppendPlanLinesSkipsOthers(context: string, window: seq<Message>, i: nat)
    requires i <= |window|
    requires forall j :: i <= j < |window| ==> window[j].role != Some("user") && window[j].role != Some("assistant")
    ensures AppendPlanLines(context, window, i) == context
    decreases |window| - i
  {
    if i < |window| {
      assert context + PlanLine(i, window[i]) == context;
      AppendPlanLinesSkipsOthers(context, window, i + 1);
    }
  }

  /** A planning section over a window with no user or assistant turn is the
      bare header. */
  lemma {:induction false} PlanContextOnlyHeader(history: seq<Message>)
    requires history != []
    requires forall j :: 0 <= j < |history| ==> history[j].role != Some("user") && history[j].role != Some("assistant")
    ensures PlanContext(history) == PlanHeader
  {
    var w := Window(history, 4);
    assert forall j :: 0 <= j < |w| ==> w[j] == history[|history| - |w| + j];
    AppendPlanLinesSkipsOthers(PlanHeader, w, 0);
  }

  /** The planning loop only appends to what it was given. */
  lemma {:induction false} AppendPlanLinesExtends(context: string, window: seq<Message>, i: nat)
    requires i <= |window|
    ensures StartsWith(AppendPlanLines(context, window, i), context)
    decreases |window| - i
  {
    if i < |window| {
      var next := context + PlanLine(i, window[i]);
      AppendPlanLinesExtends(next, window, i + 1);
      assert next[..|context|] == context;
    }
  }

  /** The turn at window position `i` is numbered `i / 2 + 1`, so a window of
      four numbers its turns 1, 1, 2, 2. */
  lemma {:induction false} PlanLineNumbers(m: Message)
    requires m.role == Some("user")
    ensures PlanLine(0, m) == PlanLine(1, m)
    ensures PlanLine(2, m) == PlanLine(3, m)
    ensures PlanLine(1, m) != PlanLine(2, m)
  {
    var l1, l2 := PlanLine(1, m), PlanLine(2, m);
    assert NatToString(1) == "1" && NatToString(2) == "2";
    var prefix := "Previous Question ";
    assert l1[|prefix|] == '1' && l2[|prefix|] == '2';
  }

  /** The concatenation of the planning lines of a window from position `i` on. */
  function PlanLines(window: seq<Message>, i: nat): string
    requires i <= |window|
    decreases |window| - i
  {
    if i == |window| then "" else PlanLine(i, window[i]) + PlanLines(window, i + 1)
  }

  lemma {:induction false} AppendPlanLinesIsConcat(context: string, window: seq<Message>, i: nat)
    requires i <= |window|
    ensures AppendPlanLines(context, window, i) == context + PlanLines(window, i)
    decreases |window| - i
  {
    if i < |window| {
      var line := PlanLine(i, window[i]);
      AppendPlanLinesIsConcat(context + line, window, i + 1);
      ConcatAssoc(context, line, PlanLines(window, i + 1));
    }
  }

  /** An empty history gives an empty planning section; otherwise the section
      is the header followed by the planning line of each of the last four
      turns, numbered by window position. */
  lemma {:induction false} PlanContextShape(history: seq<Message>)
    ensures history == [] ==> PlanContext(history) == ""
    ensures history != [] ==> PlanContext(history) == PlanHeader + PlanLines(Window(history, 4), 0)
  {
    if history != [] {
      AppendPlanLinesIsConcat(PlanHeader, Window(history, 4), 0);
    }
  }

  /** A user turn shows at most its first 150 characters as a question, an
      assistant turn at most its first 200 as a result, and any other turn
      nothing. */
  lemma {:induction false} PlanLineBound(i: nat, m: Message)
    ensures m.role == Some("user") ==>
              var shown := Take(ContentText(m), 150);
              && |shown| <= 150 && StartsWith(ContentText(m), shown)
              && PlanLine(i, m) == "Previous Question " + NatToString(i / 2 + 1) + ": " + shown + "\n"
    ensures m.role == Some("assistant") ==>
              var shown := Take(ContentText(m), 200);
              && |shown| <= 200 && StartsWith(ContentText(m), shown)
              && PlanLine(i, m) == "Previous Result " + NatToString(i / 2 + 1) + ": " + shown + "\n"
    ensures m.role != Some("user") && m.role != Some("assistant") ==> PlanLine(i, m) == ""
  {
  }

  // ----- generated code -----

  const PythonFence := "```python"
  const Fence := "```"

  /** The first step of the clean-up: a leading "```python", or else a
      leading "```", is dropped. */
  function Unfence(code: string): string {
    if StartsWith(code, PythonFence) then code[9..]
    else if StartsWith(code, Fence) then code[3..]
    else code
  }

  /** The second step: a trailing "```" is dropped. */
  function Unclose(code: string): string {
    if EndsWith(code, Fence) then code[..|code| - 3] else code
  }

  /** The clean-up of the generated code: the opening fence, then the
      closing fence, then surrounding whitespace. */
  function StripFences(code: string): string {
    Strip(Unclose(Unfence(code)))
  }

  method DropOpeningFence(reply: string) returns (code: string)
    ensures code == Unfence(reply)
  {
    code := reply;
    if StartsWith(code, PythonFence) {
      code := code[9..];
    } else if StartsWith(code, Fence) {
      code := code[3..];
    }
  }

  method DropClosingFence(reply: string) returns (code: string)
    ensures code == Unclose(reply)
  {
    code := reply;
    if EndsWith(code, Fence) {
      code := code[..|code| - 3];
    }
  }

  /** The code clean-up, one reassignment at a time. */
  method CleanCode(reply: string) returns (code: string)
    ensures code == StripFences(reply)
  {
    code := DropOpeningFence(reply);
    code := DropClosingFence(code);
    code := Strip(code);
  }

  /** A body in a python fence comes out stripped and otherwise as written. */
  lemma {:induction false} StripPythonFence(body: string)
    ensures StripFences(PythonFence + body + Fence) == Strip(body)
  {
    var code := PythonFence + body + Fence;
    assert code[..9] == PythonFence;
    var unfenced := code[9..];
    assert unfenced == body + Fence;
    assert unfenced[|unfenced| - 3..] == Fence;
    assert unfenced[..|unfenced| - 3] == body;
  }

  /** A body in a bare fence comes out stripped and otherwise as written, unless
      it begins with `python`. */
  lemma {:induction false} StripBareFence(body: string)
    requires !StartsWith(body, "python")
    ensures StripFences(Fence + body + Fence) == Strip(body)
  {
    var code := Fence + body + Fence;
    assert !StartsWith(code, PythonFence) by { PythonAfterFence(body); }
    assert StartsWith(code, Fence) by { assert code[..3] == Fence; }
    var unfenced := code[3..];
    assert unfenced == body + Fence;
    assert unfenced[|unfenced| - 3..] == Fence;
    assert unfenced[..|unfenced| - 3] == body;
  }

  /** A bare fence reads as a python fence only when the body begins with `python`. */
  lemma {:induction false} PythonAfterFence(body: string)
    ensures StartsWith(Fence + body + Fence, PythonFence) ==> StartsWith(body, "python")
  {
    var code := Fence + body + Fence;
    if |body| < 6 {
      ShortBodyNotPython(body);
    } else if StartsWith(code, PythonFence) {
      assert body[..6] == code[3..9];
    }
  }

  lemma {:induction false} ShortBodyNotPython(body: string)
    requires |body| < 6
    ensures !StartsWith(Fence + body + Fence, PythonFence)
  {
    var code := Fence + body + Fence;
    assert code[3 + |body|] == '`';
    assert PythonFence[3 + |body|] != '`';
  }

  /** Code without fences is only stripped. */
  lemma {:induction false} StripNoFence(code: string)
    requires !StartsWith(code, Fence) && !EndsWith(code, Fence)
    ensures StripFences(code) == Strip(code)
  {
    PythonFenceIsFence(code);
  }

  lemma {:induction false} PythonFenceIsFence(code: string)
    ensures StartsWith(code, PythonFence) ==> StartsWith(code, Fence)
  {
    if StartsWith(code, PythonFence) {
      assert code[..3] == code[..9][..3];
    }
  }

  const AnalysisSeparator := "\n\n# Analysis Code:\n"

  /** The program handed to the executor: the loading code, a separator, the
      cleaned analysis code. */
  function CompleteCode(loading: string, code: string): string {
    loading + AnalysisSeparator + code
  }

  /** The loading code is always a prefix of what runs, and the analysis code
      can be read back after the separator. */
  lemma {:induction false} CompleteCodeParts(loading: string, code: string)
    ensures var complete := CompleteCode(loading, code);
            && StartsWith(complete, loading)
            && complete[|loading|..|loading| + |AnalysisSeparator|] == AnalysisSeparator
            && complete[|loading| + |AnalysisSeparator|..] == code
            && EndsWith(complete, code)
  {
    var complete := CompleteCode(loading, code);
    assert complete == loading + (AnalysisSeparator + code);
  }

  // ----- the stages of `process_query` -----

  /** A language model call, with the parts of its prompt the model keeps. */
  datatype Request =
    | Classify(message: string)
    | Greet(message: string)
    | Rephrase(question: string, context: string)
    | Plan(question: string, context: string)
    | Code(plan: string)
    | Report(question: string, output: string)

  /** The reply's content, or the text of the exception the call raised. */
  datatype Reply = Answer(text: string) | Raised(error: string)

  type Llm = Request -> Reply
  type Runner = string -> ExecResult

  /** Each call the workflow makes, in order. */
  datatype Call = Ask(request: Request) | Run(program: string)

  datatype CodeResults =
    | Executed(generatedCode: string, analysisCode: string, execution: ExecResult)
    | GenerationFailed(error: string)

  datatype Response =
    | Failed(error: string)
    | Greeted(finalAnswer: string, domain: string)
    | Answered(messageType: string, rephrasedQuestion: string, analysisPlan: string,
               codeResults: CodeResults, finalAnswer: string, domain: string)

  /** What the workflow holds: its current domain (if any), whether an
      executor was set up, and the schema file of that domain (`None` when it
      is missing, so that the loader raises). */
  datatype WorkflowState = WorkflowState(domain: Option<string>, hasExecutor: bool, schema: Option<Schema>)

  /** `self.current_domain and self.executor` */
  predicate Initialized(st: WorkflowState) {
    st.domain.Some? && st.domain.value != "" && st.hasExecutor
  }

  const NotInitialized := "Domain not initialized"
  const WorkflowErrorPrefix := "Workflow error: "

  function GreetingFallback(domain: string): string {
    "Hello! I'm here to help you analyze your " + domain + " data. What would you like to explore?"
  }

  /** `_classify_message`: the reply stripped and lowered. */
  function Label(text: string): string { Lower(Strip(text)) }

  /** `_handle_greeting`'s answer: the reply stripped, or the fixed fallback. */
  function GreetingAnswer(reply: Reply, domain: string): string {
    if reply.Answer? then Strip(reply.text) else GreetingFallback(domain)
  }

  /** `_create_analysis_plan`'s result: a failed call becomes the plan text. */
  function PlanText(reply: Reply): string {
    if reply.Answer? then Strip(reply.text) else "Error creating analysis plan: " + reply.error
  }

  /** `_generate_final_report`'s result: a failed call becomes the report text. */
  function ReportText(reply: Reply): string {
    if reply.Answer? then Strip(reply.text) else "Error generating report: " + reply.error
  }

  /** `code_results['execution_result'].get('output', '')` */
  function ExecutionOutput(results: CodeResults): string {
    if results.Executed? then results.execution.output else ""
  }

  /** `_execute_analysis_plan`: ask for code, clean it, put the loading code in
      front and run it. A failed call skips the run. */
  function ExecuteStage(llm: Llm, run: Runner, loading: string, plan: string): CodeResults {
    var reply := llm(Code(plan));
    if reply.Raised? then GenerationFailed("Code generation failed: " + reply.error)
    else
      var code := StripFences(Strip(reply.text));
      var complete := CompleteCode(loading, code);
      Executed(complete, code, run(complete))
  }

  /** The analysis branch of `process_query`, after classification: the
      response and every call made, the classification first. A raised
      rephrasing call ends it with a workflow error; the later stages turn
      theirs into text. */
  function Analyze(domain: string, loading: string, kind: string, userMessage: string, history: seq<Message>,
                   llm: Llm, run: Runner): (Response, seq<Call>)
  {
    var rephraseRequest := Rephrase(userMessage, RephraseContext(history));
    var rephrased := llm(rephraseRequest);
    if rephrased.Raised? then
      (Failed(WorkflowErrorPrefix + rephrased.error), [Ask(Classify(userMessage)), Ask(rephraseRequest)])
    else
      var question := Strip(rephrased.text);
      var planRequest := Plan(question, PlanContext(history));
      var plan := PlanText(llm(planRequest));
      var results := ExecuteStage(llm, run, loading, plan);
      var reportRequest := Report(question, ExecutionOutput(results));
      var report := ReportText(llm(reportRequest));
      (Answered(kind, question, plan, results, report, domain),
       if results.Executed? then
         [Ask(Classify(userMessage)), Ask(rephraseRequest), Ask(planRequest), Ask(Code(plan)),
          Run(results.generatedCode), Ask(reportRequest)]
       else
         [Ask(Classify(userMessage)), Ask(rephraseRequest), Ask(planRequest), Ask(Code(plan)), Ask(reportRequest)])
  }

  /** `process_query`: the response and the calls made on the way. Exceptions
      out of classification, the loader and rephrasing end the query with a
      workflow error. */
  function ProcessQuery(st: WorkflowState, userMessage: string, history: seq<Message>, llm: Llm, run: Runner)
    : (Response, seq<Call>)
  {
    if !Initialized(st) then (Failed(NotInitialized), [])
    else
      var domain := st.domain.value;
      var classified := llm(Classify(userMessage));
      if classified.Raised? then (Failed(WorkflowErrorPrefix + classified.error), [Ask(Classify(userMessage))])
      else if st.schema.None? then
        (Failed(WorkflowErrorPrefix + SchemaNotFound(domain)), [Ask(Classify(userMessage))])
      else if Label(classified.text) == "greeting" then
        var greeting := llm(Greet(userMessage));
        (Greeted(GreetingAnswer(greeting, domain), domain), [Ask(Classify(userMessage)), Ask(Greet(userMessage))])
      else
        Analyze(domain, LoadingCode(domain, st.schema.value.tables), Label(classified.text), userMessage, history, llm, run)
  }

  /** `initialize_domain`: the domain is recorded and a fresh executor set up,
      whose `initialize_container` always answers `True`; the schema file of
      the domain is carried along for the loader. */
  function InitializeDomain(domain: string, schemaFile: Option<Schema>): (bool, WorkflowState) {
    (true, WorkflowState(Some(domain), true, schemaFile))
  }

  /** Setting up reports success for every name, yet a query afterwards is
      refused as uninitialised exactly when the name is empty. */
  lemma {:induction false} QueryAfterSetup(domain: string, schemaFile: Option<Schema>, userMessage: string,
                                           history: seq<Message>, llm: Llm, run: Runner)
    ensures InitializeDomain(domain, schemaFile).0
    ensures var st := InitializeDomain(domain, schemaFile).1;
            ProcessQuery(st, userMessage, history, llm, run).0 == Failed(NotInitialized) <==> domain == ""
  {
    FailuresAreWorkflowErrors(InitializeDomain(domain, schemaFile).1, userMessage, history, llm, run);
    assert NotInitialized[..|WorkflowErrorPrefix|][0] != WorkflowErrorPrefix[0];
  }

  /** Nothing is called, and the fixed error returned, before a domain is set. */
  lemma {:induction false} UninitializedRefuses(st: WorkflowState, userMessage: string, history: seq<Message>, llm: Llm, run: Runner)
    requires !Initialized(st)
    ensures ProcessQuery(st, userMessage, history, llm, run) == (Failed(NotInitialized), [])
  {
  }

  /** A query is answered as a greeting exactly when classification answered
      "greeting" (after stripping and lowering) and the domain's schema loads;
      then only the classifier and the greeter are asked, and nothing runs. */
  lemma {:induction false} GreetingShortCircuits(st: WorkflowState, userMessage: string, history: seq<Message>, llm: Llm, run: Runner)
    requires Initialized(st)
    ensures var (response, calls) := ProcessQuery(st, userMessage, history, llm, run);
            var classified := llm(Classify(userMessage));
            && (response.Greeted? <==>
                  classified.Answer? && Label(classified.text) == "greeting" && st.schema.Some?)
            && (response.Greeted? ==>
                  calls == [Ask(Classify(userMessage)), Ask(Greet(userMessage))]
                  && response.finalAnswer == GreetingAnswer(llm(Greet(userMessage)), st.domain.value))
  {
  }

  /** The code stage runs the loading code followed by the cleaned code exactly
      when code came back. */
  lemma {:induction false} ExecuteStageRuns(llm: Llm, run: Runner, loading: string, plan: string)
    ensures var results := ExecuteStage(llm, run, loading, plan);
            var reply := llm(Code(plan));
            && (reply.Answer? <==> results.Executed?)
            && (reply.Answer? ==>
                  && results.analysisCode == StripFences(Strip(reply.text))
                  && StartsWith(results.generatedCode, loading)
                  && EndsWith(results.generatedCode, results.analysisCode)
                  && results.execution == run(results.generatedCode))
            && (reply.Raised? ==> results == GenerationFailed("Code generation failed: " + reply.error))
  {
    var reply := llm(Code(plan));
    if reply.Answer? {
      CompleteCodeParts(loading, StripFences(Strip(reply.text)));
    }
  }

  /** Any label other than "greeting" runs the whole pipeline once the schema
      loads and rephrasing answers: classification, rephrasing, planning, code
      generation, the run (exactly when code came back) and the report, in
      that order. A failed plan or report call does not stop it. */
  lemma {:induction false} AnalysisRunsPipeline(st: WorkflowState, userMessage: string, history: seq<Message>, llm: Llm, run: Runner)
    requires Initialized(st) && st.schema.Some?
    requires llm(Classify(userMessage)).Answer? && Label(llm(Classify(userMessage)).text) != "greeting"
    requires llm(Rephrase(userMessage, RephraseContext(history))).Answer?
    ensures var (response, calls) := ProcessQuery(st, userMessage, history, llm, run);
            var question := Strip(llm(Rephrase(userMessage, RephraseContext(history))).text);
            var plan := PlanText(llm(Plan(question, PlanContext(history))));
            && response.Answered?
            && response.rephrasedQuestion == question
            && response.analysisPlan == plan
            && response.finalAnswer == ReportText(llm(Report(question, ExecutionOutput(response.codeResults))))
            && calls[..4] == [Ask(Classify(userMessage)), Ask(Rephrase(userMessage, RephraseContext(history))),
                              Ask(Plan(question, PlanContext(history))), Ask(Code(plan))]
            && calls[|calls| - 1] == Ask(Report(question, ExecutionOutput(response.codeResults)))
            && (llm(Code(plan)).Answer? <==> |calls| == 6)
            && (|calls| == 6 ==> calls[4] == Run(response.codeResults.generatedCode))
  {
    var loading := LoadingCode(st.domain.value, st.schema.value.tables);
    var kind := Label(llm(Classify(userMessage)).text);
    assert ProcessQuery(st, userMessage, history, llm, run) == Analyze(st.domain.value, loading, kind, userMessage, history, llm, run);
    AnalyzeTrace(st.domain.value, loading, kind, userMessage, history, llm, run);
    var (response, calls) := Analyze(st.domain.value, loading, kind, userMessage, history, llm, run);
    var rephraseRequest := Rephrase(userMessage, RephraseContext(history));
    var question := Strip(llm(rephraseRequest).text);
    var plan := PlanText(llm(Plan(question, PlanContext(history))));
    var asked := [Ask(Classify(userMessage)), Ask(rephraseRequest), Ask(Plan(question, PlanContext(history))), Ask(Code(plan))];
    var reported := Ask(Report(question, ExecutionOutput(response.codeResults)));
    if response.codeResults.Executed? {
      assert calls == asked + [Run(response.codeResults.generatedCode), reported];
    } else {
      assert calls == asked + [reported];
    }
    assert calls[..4] == asked;
  }

  /** Once rephrasing answers, the analysis branch asks for a plan, code and a
      report in that order, running the code between the last two exactly
      when code generation answered. */
  lemma {:induction false} AnalyzeTrace(domain: string, loading: string, kind: string, userMessage: string,
                                        history: seq<Message>, llm: Llm, run: Runner)
    requires llm(Rephrase(userMessage, RephraseContext(history))).Answer?
    ensures var (response, calls) := Analyze(domain, loading, kind, userMessage, history, llm, run);
            var rephraseRequest := Rephrase(userMessage, RephraseContext(history));
            var question := Strip(llm(rephraseRequest).text);
            var plan := PlanText(llm(Plan(question, PlanContext(history))));
            var asked := [Ask(Classify(userMessage)), Ask(rephraseRequest), Ask(Plan(question, PlanContext(history))), Ask(Code(plan))];
            var reported := Ask(Report(question, ExecutionOutput(response.codeResults)));
            && response == Answered(kind, question, plan, response.codeResults,
                                    ReportText(llm(Report(question, ExecutionOutput(response.codeResults)))), domain)
            && (llm(Code(plan)).Answer? <==> response.codeResults.Executed?)
            && calls == (if response.codeResults.Executed? then asked + [Run(response.codeResults.generatedCode), reported]
                         else asked + [reported])
  {
    var rephraseRequest := Rephrase(userMessage, RephraseContext(history));
    var question := Strip(llm(rephraseRequest).text);
    var plan := PlanText(llm(Plan(question, PlanContext(history))));
    ExecuteStageRuns(llm, run, loading, plan);
  }

  /** Whatever runs starts with the domain's loading code and ends with the
      cleaned analysis code; nothing runs unless the query was analysed. */
  lemma {:induction false} RunsStartWithLoadingCode(st: WorkflowState, userMessage: string, history: seq<Message>, llm: Llm, run: Runner)
    requires Initialized(st)
    ensures var (response, calls) := ProcessQuery(st, userMessage, history, llm, run);
            forall k :: 0 <= k < |calls| && calls[k].Run? ==>
              && st.schema.Some?
              && response.Answered? && response.codeResults.Executed?
              && StartsWith(calls[k].program, LoadingCode(st.domain.value, st.schema.value.tables))
              && EndsWith(calls[k].program, response.codeResults.analysisCode)
  {
    var (response, calls) := ProcessQuery(st, userMessage, history, llm, run);
    var classified := llm(Classify(userMessage));
    if classified.Raised? || st.schema.None? {
      assert calls == [Ask(Classify(userMessage))];
    } else if Label(classified.text) == "greeting" {
      assert calls == [Ask(Classify(userMessage)), Ask(Greet(userMessage))];
    } else {
      var loading := LoadingCode(st.domain.value, st.schema.value.tables);
      assert (response, calls) == Analyze(st.domain.value, loading, Label(classified.text), userMessage, history, llm, run);
      AnalyzeRunsLoadingCode(st.domain.value, loading, Label(classified.text), userMessage, history, llm, run);
    }
  }

  /** The only program a trace runs, if it runs any, is `program`. */
  predicate RunsOnly(calls: seq<Call>, program: string) {
    forall k :: 0 <= k < |calls| && calls[k].Run? ==> calls[k].program == program
  }

  /** A trace of four questions, one run and a last question runs only that
      program. */
  lemma {:induction false} RunBetweenAsks(a: Call, b: Call, c: Call, d: Call, program: string, reported: Call)
    requires a.Ask? && b.Ask? && c.Ask? && d.Ask? && reported.Ask?
    ensures RunsOnly([a, b, c, d, Run(program), reported], program)
  {
  }

  /** Whatever the analysis branch runs is the loading code followed by the
      cleaned analysis code it reports; a trace without a run runs nothing. */
  lemma {:induction false} AnalyzeRunsLoadingCode(domain: string, loading: string, kind: string, userMessage: string,
                                                  history: seq<Message>, llm: Llm, run: Runner)
    ensures var (response, calls) := Analyze(domain, loading, kind, userMessage, history, llm, run);
            || (forall k :: 0 <= k < |calls| ==> calls[k].Ask?)
            || (&& response.Answered? && response.codeResults.Executed?
                && RunsOnly(calls, response.codeResults.generatedCode)
                && StartsWith(response.codeResults.generatedCode, loading)
                && EndsWith(response.codeResults.generatedCode, response.codeResults.analysisCode))
  {
    var (response, calls) := Analyze(domain, loading, kind, userMessage, history, llm, run);
    var rephraseRequest := Rephrase(userMessage, RephraseContext(history));
    var rephrased := llm(rephraseRequest);
    if rephrased.Raised? {
      assert calls == [Ask(Classify(userMessage)), Ask(rephraseRequest)];
    } else {
      AnalyzeTrace(domain, loading, kind, userMessage, history, llm, run);
      var question := Strip(rephrased.text);
      var planRequest := Plan(question, PlanContext(history));
      var plan := PlanText(llm(planRequest));
      var asked := [Ask(Classify(userMessage)), Ask(rephraseRequest), Ask(planRequest), Ask(Code(plan))];
      var reported := Ask(Report(question, ExecutionOutput(response.codeResults)));
      if response.codeResults.Executed? {
        ExecuteStageRuns(llm, run, loading, plan);
        assert calls == asked + [Run(response.codeResults.generatedCode), reported];
        RunBetweenAsks(asked[0], asked[1], asked[2], asked[3], response.codeResults.generatedCode, reported);
      } else {
        assert calls == asked + [reported];
      }
    }
  }

  /** Every error response is the uninitialised refusal, with nothing called,
      or a workflow error raised by the classifier, the loader or rephrasing,
      before anything runs. */
  lemma {:induction false} FailuresAreWorkflowErrors(st: WorkflowState, userMessage: string, history: seq<Message>, llm: Llm, run: Runner)
    ensures var (response, calls) := ProcessQuery(st, userMessage, history, llm, run);
            response.Failed? ==>
              (response.error == NotInitialized && calls == [])
              || (StartsWith(response.error, WorkflowErrorPrefix) && 1 <= |calls| <= 2
                  && forall k :: 0 <= k < |calls| ==> calls[k].Ask?)
  {
    if Initialized(st) {
      var classified := llm(Classify(userMessage));
      var rephrased := llm(Rephrase(userMessage, RephraseContext(history)));
      if classified.Raised? {
        StartsWithConcat(WorkflowErrorPrefix, classified.error);
      } else if st.schema.None? {
        StartsWithConcat(WorkflowErrorPrefix, SchemaNotFound(st.domain.value));
      } else if rephrased.Raised? {
        StartsWithConcat(WorkflowErrorPrefix, rephrased.error);
      }
    }
  }
}
