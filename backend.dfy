/**
 * The backend: the request-body schemas of its four POST routes, the global
 * error handler, the prompt inputs it assembles, the four-agent workflow and
 * the route handlers. The language model is a parameter: a total function
 * from the prompt a chain is called with to the text it produces or the
 * message of the error it raises.
 */
module Backend {
  import opened Common
  import opened PRDContext
  import AgentDebatePanel
  import LiveStagePanel

  // ---------------------------------------------------------------------------
  // Request bodies and their schemas

  /** A property of a JSON body: missing, a string, or any other JSON value. */
  datatype Field = Absent | Str(s: string) | NonString

  /** A string whose length (in code points, as the schema counts) lies in `lo..hi`. */
  predicate LengthIn(f: Field, lo: nat, hi: nat)
  {
    f.Str? && lo <= |f.s| <= hi
  }

  /** An optional string of at most `hi` code points. */
  predicate OptionalAtMost(f: Field, hi: nat)
  {
    f.Absent? || (f.Str? && |f.s| <= hi)
  }

  /** An optional stage: absent, or one of the six stage names. */
  predicate OptionalStage(f: Field)
  {
    f.Absent? || (f.Str? && ParseStage(f.s).Some?)
  }

  /** The value of an optional string, or the default when it is missing. */
  function OrDefault(f: Field, default: string): (r: string)
    requires !f.NonString?
    ensures f.Absent? ==> r == default
    ensures f.Str? ==> r == f.s
  {
    if f.Str? then f.s else default
  }

  const DefaultStage := "Aperture"

  datatype IdeaBody = IdeaBody(idea: Field, stage: Field, prdContext: Field)

  /** `ideaSubmissionSchema`. */
  predicate IdeaBodyValid(b: IdeaBody)
  {
    LengthIn(b.idea, 10, 2000) && OptionalStage(b.stage) && OptionalAtMost(b.prdContext, 5000)
  }

  /** One entry of `conversationHistory` (an object; only the two properties
      the prompt reads are kept). */
  datatype ChatLine = ChatLine(role: string, content: string)

  /** `conversationHistory`: missing, an array of objects, or anything else. */
  datatype HistoryField = NoHistory | Lines(lines: seq<ChatLine>) | BadHistory

  datatype ChatBody = ChatBody(message: Field, stage: Field, prdContext: Field, history: HistoryField)

  /** `chatSchema`. */
  predicate ChatBodyValid(b: ChatBody)
  {
    LengthIn(b.message, 1, 1000) && OptionalStage(b.stage) && OptionalAtMost(b.prdContext, 5000) &&
    !b.history.BadHistory?
  }

  datatype SummarizeBody = SummarizeBody(section: Field, content: Field, stage: Field)

  /** The schema of `/api/prd/summarize`: non-empty section and content strings. */
  predicate SummarizeBodyValid(b: SummarizeBody)
  {
    b.section.Str? && |b.section.s| >= 1 && b.content.Str? && |b.content.s| >= 1 && OptionalStage(b.stage)
  }

  /** Every stage the frontend can send passes the stage check. */
  lemma StageNamesAccepted(st: Stage)
    ensures OptionalStage(Str(StageName(st)))
  {
    ParseStageName(st);
  }

  /** The home page's request (a non-empty idea, a stage name and a context)
      is accepted exactly when the idea has 10 to 2000 code points and the
      context at most 5000: the browser's `required` check lets through ideas
      the server rejects. */
  lemma HomeRequestAccepted(idea: string, st: Stage, prdContext: string)
    ensures IdeaBodyValid(IdeaBody(Str(idea), Str(StageName(st)), Str(prdContext))) <==>
      10 <= |idea| <= 2000 && |prdContext| <= 5000
    ensures 0 < |idea| < 10 ==> !IdeaBodyValid(IdeaBody(Str(idea), Str(StageName(st)), Str(prdContext)))
  {
    StageNamesAccepted(st);
  }

  /** The body the Live panel posts for one of its requests (an empty history). */
  function LiveBody(req: LiveStagePanel.ChatRequest): (b: ChatBody)
    ensures b.message == Str(req.message) && b.prdContext == Str(req.prdContext)
    ensures OptionalStage(b.stage) <==> ParseStage(req.stage).Some?
  {
    ChatBody(Str(req.message), Str(req.stage), Str(req.prdContext), Lines([]))
  }

  /** A Live-stage request with a non-empty message passes the chat schema
      exactly when the message fits in 1000 code points and the context in 5000. */
  lemma LiveRequestAccepted(req: LiveStagePanel.ChatRequest)
    requires req.stage == "Live" && req.message != ""
    ensures ChatBodyValid(LiveBody(req)) <==> |req.message| <= 1000 && |req.prdContext| <= 5000
  {
    StageNamesAccepted(Live);
  }

  /** The Live panel's results analysis passes the chat schema exactly when
      its prompt (the fixed wording plus the title, both metric lists and the
      feedback) fits in 1000 code points and its context in 5000. */
  lemma LiveAnalysisAccepted(title: string, successMetrics: seq<string>, postLaunch: seq<string>, feedback: string)
    ensures var req := LiveStagePanel.ChatRequest(
        LiveStagePanel.AnalysisPrompt(title, successMetrics, postLaunch, feedback),
        "Live", LiveStagePanel.AnalysisContext(title, successMetrics));
      ChatBodyValid(LiveBody(req)) <==>
        LiveStagePanel.AnalysisFixedLength + |title| + |Join(successMetrics, "\n")| + |Join(postLaunch, "\n")| + |feedback| <= 1000 &&
        |req.prdContext| <= 5000
  {
    var message := LiveStagePanel.AnalysisPrompt(title, successMetrics, postLaunch, feedback);
    LiveStagePanel.FixedLengths();
    LiveRequestAccepted(LiveStagePanel.ChatRequest(message, "Live", LiveStagePanel.AnalysisContext(title, successMetrics)));
  }

  /** The Live panel's follow-up passes the chat schema exactly when its
      prompt (the fixed wording plus the five interpolated values) fits in
      1000 code points and its context in 5000. */
  lemma LiveFollowUpAccepted(title: string, successMetrics: seq<string>, postLaunch: seq<string>, feedback: string, validation: string)
    ensures var req := LiveStagePanel.ChatRequest(
        LiveStagePanel.FollowUpPrompt(title, successMetrics, postLaunch, feedback, validation),
        "Live", LiveStagePanel.FollowUpContext(title, validation));
      ChatBodyValid(LiveBody(req)) <==>
        LiveStagePanel.FollowUpFixedLength + |title| + |Join(successMetrics, "\n")| + |Join(postLaunch, "\n")| + |feedback| + |validation| <= 1000 &&
        |req.prdContext| <= 5000
  {
    var message := LiveStagePanel.FollowUpPrompt(title, successMetrics, postLaunch, feedback, validation);
    LiveStagePanel.FixedLengths();
    LiveRequestAccepted(LiveStagePanel.ChatRequest(message, "Live", LiveStagePanel.FollowUpContext(title, validation)));
  }

  /** The follow-up prompt embeds the whole hypothesis validation, so a
      validation longer than 593 code points always draws the 400
      validation failure, whatever the other values are. */
  lemma LongValidationRefused(title: string, successMetrics: seq<string>, postLaunch: seq<string>, feedback: string, validation: string)
    requires |validation| > 593
    ensures !ChatBodyValid(LiveBody(LiveStagePanel.ChatRequest(
        LiveStagePanel.FollowUpPrompt(title, successMetrics, postLaunch, feedback, validation),
        "Live", LiveStagePanel.FollowUpContext(title, validation))))
  {
    LiveFollowUpAccepted(title, successMetrics, postLaunch, feedback, validation);
    LiveStagePanel.FixedLengths();
  }

  /** The request-validation cases of the backend's API tests. */
  lemma ApiTestBodies()
    ensures IdeaBodyValid(IdeaBody(Str("A fitness tracking app for busy professionals"), Str("Aperture"), Str("Test context")))
    ensures !IdeaBodyValid(IdeaBody(Str(""), Str("InvalidStage"), Absent))
    ensures !IdeaBodyValid(IdeaBody(Str(seq(2001, i => 'A')), Str("Aperture"), Absent))
    ensures ChatBodyValid(ChatBody(Str("Hello, can you help me with product discovery?"), Str("Aperture"), Str("Test context"), Lines([])))
    ensures !ChatBodyValid(ChatBody(Str(""), Str("Aperture"), Absent, NoHistory))
  {
    assert ParseStage("Aperture").Some?;
  }

  // ---------------------------------------------------------------------------
  // Responses and the global error handler

  /** The four texts of a finished workflow. */
  datatype WorkflowTexts = WorkflowTexts(userStories: string, prd: string, architecture: string, devTasks: string)

  /** The JSON a route sends: `success: true` with its payload, or
      `success: false` with an error message. */
  datatype Body =
    | WorkflowBody(texts: WorkflowTexts)
    | SummaryBody(summary: string)
    | ChatReplyBody(response: string)
    | FailureBody(error: string)

  datatype Response = Response(status: nat, body: Body)

  predicate Succeeded(r: Response)
  {
    !r.body.FailureBody?
  }

  /** What reaches the global error handler: a schema failure, an error with
      an HTTP status code (the rate limiter's 429), or any other error. */
  datatype ServerError = ServerError(validation: bool, statusCode: Option<int>)

  const ValidationFailure := ServerError(true, None)

  /** The global error handler: 400 for a validation failure, else 429 for a
      429 status code, else 500; the body always reports failure. */
  function HandleError(e: ServerError): (r: Response)
    ensures !Succeeded(r)
    ensures r.status == 400 <==> e.validation
    ensures r.status == 429 <==> !e.validation && e.statusCode == Some(429)
    ensures r.status == 500 <==> !e.validation && e.statusCode != Some(429)
    ensures r.status in {400, 429, 500}
  {
    if e.validation then Response(400, FailureBody("Validation Error"))
    else if e.statusCode == Some(429) then Response(429, FailureBody("Rate limit exceeded"))
    else Response(500, FailureBody("Internal Server Error"))
  }

  /** `error.message || 'Internal server error'`. */
  function ErrorText(message: string): (s: string)
    ensures s != ""
    ensures message != "" ==> s == message
  {
    OrElse(message, "Internal server error")
  }

  // ---------------------------------------------------------------------------
  // The language model

  /** The input each chain is called with. */
  datatype Prompt =
    | UserStoriesPrompt(idea: string, stage: string, prdContext: string)
    | PRDPrompt(userStories: string, stage: string, prdContext: string)
    | ArchitecturePrompt(prd: string, stage: string, prdContext: string)
    | DevTasksPrompt(architecture: string, stage: string, prdContext: string)
    | SectionSummaryPrompt(section: string, content: string, stage: string)
    | ChatPrompt(chatStage: Option<string>, prdContext: string, conversationHistory: string, message: string)
    | DebatePrompt(agentResponses: string)

  /** The text a chain produces, or the message of the error it raises. */
  type Llm = Prompt -> Result<string, string>

  // ---------------------------------------------------------------------------
  // The four-agent workflow

  const WorkflowFailed := "LangChain workflow failed: "

  /** The prompt of step `k` of the workflow, fed the previous step's text
      (the idea for the first step). */
  function StepPrompt(k: nat, input: string, stage: string, prdContext: string): Prompt
    requires k < 4
  {
    if k == 0 then UserStoriesPrompt(input, stage, prdContext)
    else if k == 1 then PRDPrompt(input, stage, prdContext)
    else if k == 2 then ArchitecturePrompt(input, stage, prdContext)
    else DevTasksPrompt(input, stage, prdContext)
  }

  /** The calls form a chain: the first is fed the idea, each later one the
      text the one before produced, and every call but the last succeeded. */
  ghost predicate Chained(llm: Llm, calls: seq<Prompt>, idea: string, stage: string, prdContext: string)
  {
    1 <= |calls| <= 4 &&
    calls[0] == StepPrompt(0, idea, stage, prdContext) &&
    forall k :: 0 <= k < |calls| - 1 ==>
      llm(calls[k]).Success? && calls[k + 1] == StepPrompt(k + 1, llm(calls[k]).value, stage, prdContext)
  }

  /** `runLangChainWorkflow`: four chain calls in order, each fed the previous
      text. It returns the four texts when every call succeeds; at the first
      failure it makes no further call and fails with that call's message
      under the workflow prefix, with no partial result. */
  method RunWorkflow(llm: Llm, idea: string, stage: string, prdContext: string)
    returns (r: Result<WorkflowTexts, string>, calls: seq<Prompt>)
    ensures Chained(llm, calls, idea, stage, prdContext)
    ensures r.Success? <==> |calls| == 4 && llm(calls[3]).Success?
    ensures r.Success? ==>
      r.value == WorkflowTexts(llm(calls[0]).value, llm(calls[1]).value, llm(calls[2]).value, llm(calls[3]).value)
    ensures r.Failure? ==>
      llm(calls[|calls| - 1]).Failure? && r.error == WorkflowFailed + llm(calls[|calls| - 1]).error
  {
    var p0 := StepPrompt(0, idea, stage, prdContext);
    calls := [p0];
    var userStoriesResult := llm(p0);
    if userStoriesResult.Failure? {
      return Failure(WorkflowFailed + userStoriesResult.error), calls;
    }
    var userStories := userStoriesResult.value;

    var p1 := StepPrompt(1, userStories, stage, prdContext);
    calls := calls + [p1];
    var prdResult := llm(p1);
    if prdResult.Failure? {
      return Failure(WorkflowFailed + prdResult.error), calls;
    }
    var prd := prdResult.value;

    var p2 := StepPrompt(2, prd, stage, prdContext);
    calls := calls + [p2];
    var architectureResult := llm(p2);
    if architectureResult.Failure? {
      return Failure(WorkflowFailed + architectureResult.error), calls;
    }
    var architecture := architectureResult.value;

    var p3 := StepPrompt(3, architecture, stage, prdContext);
    calls := calls + [p3];
    var devTasksResult := llm(p3);
    if devTasksResult.Failure? {
      return Failure(WorkflowFailed + devTasksResult.error), calls;
    }
    r := Success(WorkflowTexts(userStories, prd, architecture, devTasksResult.value));
  }

  /** With a model that never fails, the workflow makes all four calls and
      hands each step's text to the next. */
  method WorkflowWithReliableModel(llm: Llm, idea: string, stage: string, prdContext: string)
    returns (r: Result<WorkflowTexts, string>, calls: seq<Prompt>)
    requires forall p :: llm(p).Success?
    ensures r.Success? && |calls| == 4
    ensures calls == [UserStoriesPrompt(idea, stage, prdContext),
                      PRDPrompt(r.value.userStories, stage, prdContext),
                      ArchitecturePrompt(r.value.prd, stage, prdContext),
                      DevTasksPrompt(r.value.architecture, stage, prdContext)]
  {
    r, calls := RunWorkflow(llm, idea, stage, prdContext);
  }

  // ---------------------------------------------------------------------------
  // Prompt inputs

  /** `section.replace(/([A-Z])/g, ' $1').toLowerCase()`, with ASCII case mapping. */
  function SectionPhrase(section: string): (r: string)
    ensures |r| >= |section|
    ensures forall i :: 0 <= i < |r| ==> !IsAsciiUpper(r[i])
  {
    Lower(SpaceCapitals(section))
  }

  /** A camel-cased pair of words reads as the two words, lower-cased and
      separated by a space. */
  lemma {:induction false} TwoWordPhrase(first: string, second: string)
    requires forall i :: 0 <= i < |first| ==> !IsAsciiUpper(first[i])
    requires |second| > 0 && IsAsciiUpper(second[0])
    requires forall i :: 1 <= i < |second| ==> !IsAsciiUpper(second[i])
    ensures SectionPhrase(first + second) == first + " " + [LowerChar(second[0])] + second[1..]
  {
    SpaceCapitalsAt(first, second);
    var spaced := first + " " + second;
    var expected := first + " " + [LowerChar(second[0])] + second[1..];
    assert |Lower(spaced)| == |expected|;
    forall i | 0 <= i < |expected|
      ensures Lower(spaced)[i] == expected[i]
    {
      if i < |first| {
        assert spaced[i] == first[i];
      } else if i == |first| {
        assert spaced[i] == ' ';
      } else if i == |first| + 1 {
        assert spaced[i] == second[0];
      } else {
        assert spaced[i] == second[i - |first| - 1];
      }
    }
  }

  /** The section keys read as phrases, as the summariser is told them. */
  lemma ProblemStatementPhrase()
    ensures SectionPhrase("problemStatement") == "problem statement"
  {
    assert "problemStatement" == "problem" + "Statement";
    TwoWordPhrase("problem", "Statement");
    assert LowerChar('S') == 's';
    assert "Statement"[1..] == "tatement";
    assert "problem" + " " + ['s'] + "tatement" == "problem statement";
  }

  lemma SuccessMetricsPhrase()
    ensures SectionPhrase("successMetrics") == "success metrics"
  {
    assert "successMetrics" == "success" + "Metrics";
    TwoWordPhrase("success", "Metrics");
    assert LowerChar('M') == 'm';
    assert "Metrics"[1..] == "etrics";
    assert "success" + " " + ['m'] + "etrics" == "success metrics";
  }

  lemma TradeOffsPhrase()
    ensures SectionPhrase("tradeOffs") == "trade offs"
  {
    assert "tradeOffs" == "trade" + "Offs";
    TwoWordPhrase("trade", "Offs");
    assert LowerChar('O') == 'o';
    assert "Offs"[1..] == "ffs";
    assert "trade" + " " + ['o'] + "ffs" == "trade offs";
  }

  /** `Array.isArray(content) ? content.join('\n') : content`. */
  function ContentText(content: Content): (s: string)
    ensures content.Text? ==> s == content.text
    ensures content.Items? ==> s == Join(content.items, "\n")
  {
    match content
    case Text(t) => t
    case Items(items) => Join(items, "\n")
  }

  const NoConversation := "No previous conversation."
  const NoPRDContext := "No PRD context available."

  function HistoryLine(line: ChatLine): string
  {
    line.role + ": " + line.content
  }

  function HistoryLines(lines: seq<ChatLine>): (r: seq<string>)
    ensures |r| == |lines|
    ensures forall i :: 0 <= i < |lines| ==> r[i] == HistoryLine(lines[i])
    decreases |lines|
  {
    if lines == [] then [] else [HistoryLine(lines[0])] + HistoryLines(lines[1..])
  }

  /** The conversation as the chat prompt shows it: 'role: content' lines
      joined by new lines, or a fixed sentence for an empty conversation. */
  function FormatHistory(lines: seq<ChatLine>): (s: string)
    ensures lines == [] ==> s == NoConversation
    ensures |lines| > 0 ==> |s| >= |HistoryLine(lines[0])| && s[..|HistoryLine(lines[0])|] == HistoryLine(lines[0])
  {
    if |lines| > 0 then Join(HistoryLines(lines), "\n") else NoConversation
  }

  /** One more message adds exactly one more line to a non-empty conversation. */
  lemma FormatHistorySnoc(lines: seq<ChatLine>, line: ChatLine)
    requires lines != []
    ensures FormatHistory(lines + [line]) == FormatHistory(lines) + "\n" + HistoryLine(line)
  {
    assert HistoryLines(lines + [line]) == HistoryLines(lines) + [HistoryLine(line)];
    JoinSnoc(HistoryLines(lines), HistoryLine(line), "\n");
  }

  /** `prdContext || 'No PRD context available.'`. */
  function ChatContext(prdContext: Field): (s: string)
    requires !prdContext.NonString?
    ensures s != ""
    ensures prdContext.Str? && prdContext.s != "" ==> s == prdContext.s
  {
    if prdContext.Str? && prdContext.s != "" then prdContext.s else NoPRDContext
  }

  /** The chat stage is passed through as sent: there is no default. */
  function ChatStage(stage: Field): (r: Option<string>)
    requires !stage.NonString?
    ensures r.None? <==> stage.Absent?
  {
    if stage.Str? then Some(stage.s) else None
  }

  /** `agent.confidence ? ... : ''`: the tag appears only for a truthy confidence. */
  function ConfidenceTag(confidence: Option<int>): string
  {
    if AgentDebatePanel.Unspecified(confidence) then ""
    else " [Confidence: " + IntToString(confidence.value) + "%]"
  }

  /** One agent's block: name, role in parentheses, the optional confidence
      tag, a colon, a new line and the response. */
  function FormatOpinion(a: AgentDebatePanel.OpinionEntry): string
  {
    a.name + " (" + a.role + ")" + ConfidenceTag(a.confidence) + ":\n" + a.response
  }

  /** The block ends with the response after ':\n', and carries the tag exactly
      when the panel shows a confidence badge for that agent. */
  lemma OpinionShape(a: AgentDebatePanel.DebateAgent)
    ensures var e := AgentDebatePanel.Payload([a])[0];
      var head := a.name + " (" + a.role + ")";
      var block := FormatOpinion(e);
      (AgentDebatePanel.BadgeShown(a) <==> ConfidenceTag(e.confidence) != "") &&
      block == head + ConfidenceTag(e.confidence) + ":\n" + a.response &&
      (!AgentDebatePanel.BadgeShown(a) ==> block == head + ":\n" + a.response)
  {
  }

  function FormatOpinions(agents: seq<AgentDebatePanel.OpinionEntry>): (r: seq<string>)
    ensures |r| == |agents|
    ensures forall i :: 0 <= i < |agents| ==> r[i] == FormatOpinion(agents[i])
    decreases |agents|
  {
    if agents == [] then [] else [FormatOpinion(agents[0])] + FormatOpinions(agents[1..])
  }

  /** The debate as the summariser sees it: one block per agent, in order,
      separated by a blank line. */
  function FormatDebate(agents: seq<AgentDebatePanel.OpinionEntry>): string
  {
    Join(FormatOpinions(agents), "\n\n")
  }

  /** One more agent adds one more block after a blank line. */
  lemma FormatDebateSnoc(agents: seq<AgentDebatePanel.OpinionEntry>, a: AgentDebatePanel.OpinionEntry)
    requires agents != []
    ensures FormatDebate(agents + [a]) == FormatDebate(agents) + "\n\n" + FormatOpinion(a)
  {
    assert FormatOpinions(agents + [a]) == FormatOpinions(agents) + [FormatOpinion(a)];
    JoinSnoc(FormatOpinions(agents), FormatOpinion(a), "\n\n");
  }

  // ---------------------------------------------------------------------------
  // Routes

  /** `POST /api/idea/submit`: a body the schema rejects gets the handler's 400
      and reaches no chain; otherwise the workflow runs with the stage and the
      context defaulted, and its texts come back with 200, or its failure
      message with 500. */
  method SubmitIdea(llm: Llm, body: IdeaBody) returns (resp: Response, calls: seq<Prompt>)
    ensures !IdeaBodyValid(body) ==> resp == HandleError(ValidationFailure) && calls == []
    ensures IdeaBodyValid(body) ==>
      Chained(llm, calls, body.idea.s, OrDefault(body.stage, DefaultStage), OrDefault(body.prdContext, ""))
    ensures IdeaBodyValid(body) ==> (Succeeded(resp) <==> |calls| == 4 && llm(calls[3]).Success?)
    ensures IdeaBodyValid(body) && Succeeded(resp) ==>
      resp == Response(200, WorkflowBody(WorkflowTexts(llm(calls[0]).value, llm(calls[1]).value,
                                                       llm(calls[2]).value, llm(calls[3]).value)))
    ensures IdeaBodyValid(body) && !Succeeded(resp) ==>
      llm(calls[|calls| - 1]).Failure? && resp == Response(500, FailureBody(WorkflowFailed + llm(calls[|calls| - 1]).error))
  {
    if !IdeaBodyValid(body) {
      return HandleError(ValidationFailure), [];
    }
    var stage := OrDefault(body.stage, DefaultStage);
    var prdContext := OrDefault(body.prdContext, "");
    var result;
    result, calls := RunWorkflow(llm, body.idea.s, stage, prdContext);
    if result.Success? {
      resp := Response(200, WorkflowBody(result.value));
    } else {
      resp := Response(500, FailureBody(ErrorText(result.error)));
    }
  }

  const SummaryFailed := "PRD summarization failed: "
  const ChatFailed := "Chat processing failed: "
  const DebateFailed := "Agent debate summarization failed: "

  /** `POST /api/prd/summarize`: one call to the summariser with the section
      as a phrase and the stage defaulted; 200 with its text, or 500 with its
      failure message. */
  method SummarizeSection(llm: Llm, body: SummarizeBody) returns (resp: Response, calls: seq<Prompt>)
    ensures !SummarizeBodyValid(body) ==> resp == HandleError(ValidationFailure) && calls == []
    ensures SummarizeBodyValid(body) ==>
      calls == [SectionSummaryPrompt(SectionPhrase(body.section.s), body.content.s, OrDefault(body.stage, DefaultStage))]
    ensures SummarizeBodyValid(body) && llm(calls[0]).Success? ==> resp == Response(200, SummaryBody(llm(calls[0]).value))
    ensures SummarizeBodyValid(body) && llm(calls[0]).Failure? ==>
      resp == Response(500, FailureBody(SummaryFailed + llm(calls[0]).error))
  {
    if !SummarizeBodyValid(body) {
      return HandleError(ValidationFailure), [];
    }
    var prompt := SectionSummaryPrompt(SectionPhrase(body.section.s), ContentText(Text(body.content.s)),
                                       OrDefault(body.stage, DefaultStage));
    calls := [prompt];
    var result := llm(prompt);
    if result.Success? {
      resp := Response(200, SummaryBody(result.value));
    } else {
      resp := Response(500, FailureBody(ErrorText(SummaryFailed + result.error)));
    }
  }

  /** `POST /api/chat`: one call with the conversation formatted (a missing
      history is an empty one), the context defaulted and the stage as sent. */
  method Chat(llm: Llm, body: ChatBody) returns (resp: Response, calls: seq<Prompt>)
    ensures !ChatBodyValid(body) ==> resp == HandleError(ValidationFailure) && calls == []
    ensures ChatBodyValid(body) ==>
      calls == [ChatPrompt(ChatStage(body.stage), ChatContext(body.prdContext),
                           FormatHistory(if body.history.Lines? then body.history.lines else []), body.message.s)]
    ensures ChatBodyValid(body) && llm(calls[0]).Success? ==> resp == Response(200, ChatReplyBody(llm(calls[0]).value))
    ensures ChatBodyValid(body) && llm(calls[0]).Failure? ==>
      resp == Response(500, FailureBody(ChatFailed + llm(calls[0]).error))
  {
    if !ChatBodyValid(body) {
      return HandleError(ValidationFailure), [];
    }
    var history := if body.history.Lines? then body.history.lines else [];
    var prompt := ChatPrompt(ChatStage(body.stage), ChatContext(body.prdContext), FormatHistory(history), body.message.s);
    calls := [prompt];
    var result := llm(prompt);
    if result.Success? {
      resp := Response(200, ChatReplyBody(result.value));
    } else {
      resp := Response(500, FailureBody(ErrorText(ChatFailed + result.error)));
    }
  }

  /** `agentResponses`: missing or falsy, some other non-array value, or an
      array of agent objects. */
  datatype AgentsField = AgentsMissing | AgentsNotArray | AgentsArray(agents: seq<AgentDebatePanel.OpinionEntry>)

  const AgentsRequired := "Agent responses array is required and must not be empty"

  /** `POST /api/agents/summarize`: without a non-empty array it answers 400
      and calls no chain; otherwise one call with the formatted debate. A
      successful reply carries a summary and never any trade-offs. */
  method SummarizeAgents(llm: Llm, field: AgentsField) returns (resp: Response, calls: seq<Prompt>)
    ensures !field.AgentsArray? || field.agents == [] <==> resp == Response(400, FailureBody(AgentsRequired))
    ensures resp.status == 400 ==> calls == []
    ensures field.AgentsArray? && field.agents != [] ==> calls == [DebatePrompt(FormatDebate(field.agents))]
    ensures Succeeded(resp) ==>
      |calls| == 1 && llm(calls[0]).Success? && resp == Response(200, SummaryBody(llm(calls[0]).value))
    ensures field.AgentsArray? && field.agents != [] && !Succeeded(resp) ==>
      llm(calls[0]).Failure? && resp == Response(500, FailureBody(DebateFailed + llm(calls[0]).error))
  {
    if !field.AgentsArray? || |field.agents| == 0 {
      return Response(400, FailureBody(AgentsRequired)), [];
    }
    var prompt := DebatePrompt(FormatDebate(field.agents));
    calls := [prompt];
    var result := llm(prompt);
    if result.Success? {
      resp := Response(200, SummaryBody(result.value));
    } else {
      resp := Response(500, FailureBody(ErrorText(DebateFailed + result.error)));
    }
  }
}
