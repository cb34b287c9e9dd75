/**
 * The home page: the idea form and its submission to the backend's four-agent
 * workflow, the per-agent status board, the notice under the form, and how
 * the workflow's result is handed to the debate panel and the stage banner.
 */
module HomePage {
  import opened Common
  import opened PRDContext
  import ChatInterface
  import AgentDebatePanel
  import StageRecommendation

  /** The workflow's four texts, as the `/api/idea/submit` reply carries them. */
  datatype AgentResult = AgentResult(userStories: string, prd: string, architecture: string, devTasks: string)

  datatype AgentStatus = Idle | Processing | Completed | Error

  /** The status board, one entry per agent. */
  datatype Statuses = Statuses(businessAnalyst: AgentStatus, productManager: AgentStatus,
                               solutionArchitect: AgentStatus, scrumMaster: AgentStatus)

  function AllAt(s: AgentStatus): (r: Statuses)
    ensures r.businessAnalyst == r.productManager == r.solutionArchitect == r.scrumMaster == s
  {
    Statuses(s, s, s, s)
  }

  datatype NoticeKind = SuccessNotice | ErrorNotice

  /** The message shown under the form. */
  datatype Notice = Notice(kind: NoticeKind, text: string)

  const SuccessText := "Project idea processed successfully!"
  const FailureText := "Failed to process project idea. Please try again."
  const NetworkErrorText := "Network error. Please check your connection and try again."

  /** `data.error || 'Failed to process project idea. Please try again.'`. */
  function FailureMessage(error: Option<string>): (s: string)
    ensures s != ""
    ensures error.Some? && error.value != "" ==> s == error.value
    ensures error.None? || error.value == "" ==> s == FailureText
  {
    if error.Some? && error.value != "" then error.value else FailureText
  }

  /** The notice each outcome of the request leaves. */
  function OutcomeNotice(reply: Reply<AgentResult>): (n: Notice)
    ensures n.kind == SuccessNotice <==> reply.Ok?
    ensures n.text != ""
  {
    match reply
    case Ok(_) => Notice(SuccessNotice, SuccessText)
    case Rejected(e) => Notice(ErrorNotice, FailureMessage(e))
    case NetworkError => Notice(ErrorNotice, NetworkErrorText)
  }

  // ---------------------------------------------------------------------------
  // The PRD context of the idea request

  /** The five candidates of the page's own context builder: the labelled part
      when its field is present, a falsy `''` (or `false`) otherwise. */
  function Candidates(title: string, problem: string, metrics: seq<string>, tradeOffs: seq<string>, learnings: string): (c: seq<string>)
    ensures |c| == 5
  {
    [ if title != "" then ChatInterface.TitleLabel + title else "",
      if problem != "" then ChatInterface.ProblemLabel + problem else "",
      if |metrics| > 0 then ChatInterface.MetricsLabel + Join(metrics, ", ") else "",
      if |tradeOffs| > 0 then ChatInterface.TradeOffsLabel + Join(tradeOffs, ", ") else "",
      if learnings != "" then ChatInterface.LearningsLabel + learnings else "" ]
  }

  /** `filter(Boolean)` on strings: drops the empty ones, keeps the order. */
  function FilterNonEmpty(xs: seq<string>): (r: seq<string>)
    ensures forall i :: 0 <= i < |r| ==> r[i] != ""
    ensures |r| <= |xs|
    decreases |xs|
  {
    if xs == [] then []
    else FilterNonEmpty(xs[..|xs| - 1]) + Kept(xs[|xs| - 1])
  }

  /** The page's context string. */
  function PageContext(title: string, problem: string, metrics: seq<string>, tradeOffs: seq<string>, learnings: string): (s: string)
  {
    Join(FilterNonEmpty(Candidates(title, problem, metrics, tradeOffs, learnings)), "\n")
  }

  /** The page builds the same context string as the chat panel: filtering
      the falsy candidates keeps exactly the parts the chat panel pushes. */
  lemma PageContextMatchesChat(title: string, problem: string, metrics: seq<string>, tradeOffs: seq<string>, learnings: string)
    ensures PageContext(title, problem, metrics, tradeOffs, learnings) ==
      ChatInterface.ContextText(title, problem, metrics, tradeOffs, learnings)
  {
    var c := Candidates(title, problem, metrics, tradeOffs, learnings);
    FilterFive(c);
    assert Kept(c[0]) == ChatInterface.Part(title != "", ChatInterface.TitleLabel + title);
    assert Kept(c[1]) == ChatInterface.Part(problem != "", ChatInterface.ProblemLabel + problem);
    assert Kept(c[2]) == ChatInterface.Part(|metrics| > 0, ChatInterface.MetricsLabel + Join(metrics, ", "));
    assert Kept(c[3]) == ChatInterface.Part(|tradeOffs| > 0, ChatInterface.TradeOffsLabel + Join(tradeOffs, ", "));
    assert Kept(c[4]) == ChatInterface.Part(learnings != "", ChatInterface.LearningsLabel + learnings);
  }

  /** What the filter keeps of one candidate. */
  function Kept(x: string): (r: seq<string>)
    ensures x != "" <==> r == [x]
  {
    if x != "" then [x] else []
  }

  /** Filtering five candidates keeps each one on its own. */
  lemma FilterFive(c: seq<string>)
    requires |c| == 5
    ensures FilterNonEmpty(c) == Kept(c[0]) + Kept(c[1]) + Kept(c[2]) + Kept(c[3]) + Kept(c[4])
  {
    assert c[..5] == c;
    assert c[..0] == [];
    FilterStep(c, 1);
    assert FilterNonEmpty(c[..1]) == Kept(c[0]);
    FilterStep(c, 2);
    assert FilterNonEmpty(c[..2]) == Kept(c[0]) + Kept(c[1]);
    FilterStep(c, 3);
    assert FilterNonEmpty(c[..3]) == Kept(c[0]) + Kept(c[1]) + Kept(c[2]);
    FilterStep(c, 4);
    assert FilterNonEmpty(c[..4]) == Kept(c[0]) + Kept(c[1]) + Kept(c[2]) + Kept(c[3]);
    FilterStep(c, 5);
  }

  /** One step of the filter: the first `i` candidates filter to the first
      `i - 1` filtered, then what is kept of the `i`-th. */
  lemma FilterStep(c: seq<string>, i: nat)
    requires 0 < i <= |c|
    ensures FilterNonEmpty(c[..i]) == FilterNonEmpty(c[..i - 1]) + Kept(c[i - 1])
  {
    assert c[..i][..i - 1] == c[..i - 1];
  }

  /** The `/api/idea/submit` request body. */
  datatype IdeaRequest = IdeaRequest(idea: string, stage: string, prdContext: string)

  // ---------------------------------------------------------------------------
  // What the result feeds

  /** `formatAgentResponses`: the four agents in workflow order, each with the
      text it produced; none without a result. */
  function FormatAgentResponses(result: Option<AgentResult>): (r: seq<AgentDebatePanel.DebateAgent>)
    ensures |r| == (if result.Some? then 4 else 0)
    ensures forall i :: 0 <= i < |r| ==> r[i].confidence.None?
  {
    if result.None? then []
    else
      var a := result.value;
      [ AgentDebatePanel.DebateAgent("Business Analyst", "User Story Specialist", a.userStories, None, "\U{1F465}"),
        AgentDebatePanel.DebateAgent("Product Manager", "PRD Developer", a.prd, None, "\U{1F4CB}"),
        AgentDebatePanel.DebateAgent("Solution Architect", "Technical Designer", a.architecture, None, "\U{1F3D7}\U{FE0F}"),
        AgentDebatePanel.DebateAgent("Scrum Master", "Development Planner", a.devTasks, None, "\U{1F4C5}") ]
  }

  /** `formatAgentResponsesForBanner`. */
  function FormatAgentResponsesForBanner(result: Option<AgentResult>): (r: seq<StageRecommendation.AgentResponse>)
    ensures |r| == (if result.Some? then 4 else 0)
  {
    if result.None? then []
    else
      var a := result.value;
      [ StageRecommendation.AgentResponse("Business Analyst", a.userStories),
        StageRecommendation.AgentResponse("Product Manager", a.prd),
        StageRecommendation.AgentResponse("Solution Architect", a.architecture),
        StageRecommendation.AgentResponse("Scrum Master", a.devTasks) ]
  }

  /** The banner and the debate panel see the same agents, in the same order,
      with the same texts, and those texts are the result's four fields. */
  lemma BannerMatchesDebate(result: Option<AgentResult>)
    ensures var d := FormatAgentResponses(result);
      var b := FormatAgentResponsesForBanner(result);
      |b| == |d| &&
      forall i :: 0 <= i < |b| ==> b[i].agent == d[i].name && b[i].response == d[i].response
    ensures result.Some? ==>
      [FormatAgentResponses(result)[0].response, FormatAgentResponses(result)[1].response,
       FormatAgentResponses(result)[2].response, FormatAgentResponses(result)[3].response] ==
      [result.value.userStories, result.value.prd, result.value.architecture, result.value.devTasks]
  {
  }

  /** The editor panel shows in the Define stage or once there is a result. */
  predicate EditorShown(stage: Stage, result: Option<AgentResult>)
  {
    stage == Define || result.Some?
  }

  /** The debate panel and the result cards show once there is a result; the
      guidance shows until then. */
  predicate ResultShown(result: Option<AgentResult>)
  {
    result.Some?
  }

  /** Whenever the debate panel shows, so does the editor, and the debate panel
      then has the four agents to summarise. */
  lemma DebateImpliesEditor(stage: Stage, result: Option<AgentResult>)
    requires ResultShown(result)
    ensures EditorShown(stage, result)
    ensures !AgentDebatePanel.SummarizeDisabled(false, FormatAgentResponses(result))
  {
  }

  // ---------------------------------------------------------------------------
  // The page state

  class Home {
    var idea: string
    var isSubmitting: bool
    var message: Option<Notice>
    var result: Option<AgentResult>
    var status: Statuses

    /** A result is on screen only with the success notice and every agent
        completed; an error notice comes with every agent in error and no result. */
    ghost predicate Consistent()
      reads this
    {
      (result.Some? ==> message == Some(Notice(SuccessNotice, SuccessText)) && status == AllAt(Completed)) &&
      (message.Some? && message.value.kind == ErrorNotice ==> result.None? && status == AllAt(Error))
    }

    constructor ()
      ensures Consistent()
      ensures idea == "" && !isSubmitting && message.None? && result.None? && status == AllAt(Idle)
    {
      idea := "";
      isSubmitting := false;
      message := None;
      result := None;
      status := AllAt(Idle);
    }

    /** `handleInputChange` on the idea field. */
    method HandleInputChange(value: string)
      requires Consistent()
      modifies this`idea
      ensures Consistent() && idea == value
    {
      idea := value;
    }

    /** The first half of a submission. The form is not submitted while its
        required idea field is empty or the button is disabled by a request in
        flight; otherwise the flag rises, the notice and the result are cleared,
        every agent goes back to idle, and the request body is returned. */
    method BeginSubmit(store: PRDStore) returns (req: Option<IdeaRequest>)
      requires store.Valid() && store.WellTyped()
      requires Consistent()
      modifies this`isSubmitting, this`message, this`result, this`status
      ensures Consistent()
      ensures idea == "" || old(isSubmitting) ==>
        req.None? && isSubmitting == old(isSubmitting) && message == old(message) &&
        result == old(result) && status == old(status)
      ensures idea != "" && !old(isSubmitting) ==>
        req == Some(IdeaRequest(idea, StageName(store.stage), ChatInterface.StoreContext(store))) &&
        isSubmitting && message.None? && result.None? && status == AllAt(Idle)
    {
      if idea == "" || isSubmitting {
        return None;
      }
      isSubmitting := true;
      message := None;
      result := None;
      status := AllAt(Idle);
      var context := ChatInterface.FormatPRDContext(store);
      req := Some(IdeaRequest(idea, StageName(store.stage), context));
    }

    /** The second half, with the request's outcome as a parameter: a success
        shows the result, clears the idea and completes every agent; a rejection
        or a network failure shows its error and puts every agent in error.
        Every outcome lowers the flag. */
    method FinishSubmit(reply: Reply<AgentResult>)
      requires Consistent()
      requires result.None?
      modifies this`idea, this`isSubmitting, this`message, this`result, this`status
      ensures Consistent()
      ensures !isSubmitting && message == Some(OutcomeNotice(reply))
      ensures reply.Ok? ==> result == Some(reply.value) && idea == "" && status == AllAt(Completed)
      ensures !reply.Ok? ==> result.None? && idea == old(idea) && status == AllAt(Error)
    {
      match reply {
        case Ok(r) =>
          message := Some(Notice(SuccessNotice, SuccessText));
          result := Some(r);
          idea := "";
          status := AllAt(Completed);
        case Rejected(e) =>
          message := Some(Notice(ErrorNotice, FailureMessage(e)));
          status := AllAt(Error);
        case NetworkError =>
          message := Some(Notice(ErrorNotice, NetworkErrorText));
          status := AllAt(Error);
      }
      isSubmitting := false;
    }

    /** The whole of `handleSubmit` with the outcome as a parameter: after a
        sent request the page shows a result exactly when the request
        succeeded, and the debate panel then holds the four agents. */
    method HandleSubmit(store: PRDStore, reply: Reply<AgentResult>) returns (req: Option<IdeaRequest>)
      requires store.Valid() && store.WellTyped()
      requires Consistent() && !isSubmitting
      modifies this`idea, this`isSubmitting, this`message, this`result, this`status
      ensures Consistent() && !isSubmitting
      ensures req.None? <==> old(idea) == ""
      ensures req.Some? ==> (ResultShown(result) <==> reply.Ok?) && message == Some(OutcomeNotice(reply))
      ensures req.Some? && reply.Ok? ==> |FormatAgentResponses(result)| == 4
    {
      req := BeginSubmit(store);
      if req.Some? {
        FinishSubmit(reply);
      }
    }
  }
}
