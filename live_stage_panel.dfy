/**
 * The Live-stage panel: post-launch metric edits (the editor's list edits on
 * `postLaunchMetrics`, which keeps no history), the guarded results analysis,
 * the metrics comparison and the follow-up handler.
 */
module LiveStagePanel {
  import opened Common
  import opened PRDContext
  import opened PRDEditorPanel

  /** The `/api/chat` request body both handlers send (with an empty history). */
  datatype ChatRequest = ChatRequest(message: string, stage: string, prdContext: string)

  /** Analysis is refused when there are no post-launch metrics and the
      feedback is the empty string (`!''` is true in JavaScript). */
  predicate AnalysisBlocked(postLaunchMetrics: seq<string>, userFeedback: string)
  {
    |postLaunchMetrics| == 0 && userFeedback == ""
  }

  /** The analyse button is disabled while analysing or when analysis is refused. */
  predicate AnalyzeDisabled(isAnalyzing: bool, postLaunchMetrics: seq<string>, userFeedback: string)
  {
    isAnalyzing || AnalysisBlocked(postLaunchMetrics, userFeedback)
  }

  /** The follow-up button is disabled while working or without a validation text. */
  predicate FollowUpDisabled(isCreatingFollowUp: bool, hypothesisValidation: string)
  {
    isCreatingFollowUp || hypothesisValidation == ""
  }

  // The fixed wording of the two prompts, piece by piece.
  const AnalysisOpening := "Analyze the post-launch results for the project \""
  const AnalysisMetricsHeading := "\".\n\nOriginal Success Metrics:\n"
  const FollowUpOpening := "Based on the post-launch results for \""
  const FollowUpMetricsHeading := "\", generate insights for a follow-up PRD.\n\nOriginal Success Metrics:\n"
  const PostLaunchHeading := "\n\nPost-Launch Metrics:\n"
  const FeedbackHeading := "\n\nUser Feedback:\n"
  const ValidationHeading := "\n\nHypothesis Validation:\n"
  const AnalysisClosing := "\n\nPlease provide:\n1. Did the feature validate our hypothesis?\n2. What should we do next?\n3. Key insights and recommendations\n\nFocus on comparing actual results to original success metrics and providing actionable next steps."
  const FollowUpClosing := "\n\nPlease provide:\n1. Key learnings from the launch\n2. Identified opportunities for improvement\n3. Suggested next steps or new features\n4. Updated hypothesis based on results\n\nFormat this as insights that can be used to start a new PRD."

  /** How many characters of the analysis prompt are fixed wording. */
  const AnalysisFixedLength := |AnalysisOpening| + |AnalysisMetricsHeading| + |PostLaunchHeading| + |FeedbackHeading| + |AnalysisClosing|

  /** How many characters of the follow-up prompt are fixed wording. */
  const FollowUpFixedLength := |FollowUpOpening| + |FollowUpMetricsHeading| + |PostLaunchHeading| + |FeedbackHeading| + |ValidationHeading| + |FollowUpClosing|

  /** The fixed wording takes 343 characters of an analysis prompt and 407 of a follow-up prompt. */
  lemma FixedLengths()
    ensures AnalysisFixedLength == 343 && FollowUpFixedLength == 407
  {
    assert |AnalysisOpening| == 49 && |AnalysisMetricsHeading| == 30 && |AnalysisClosing| == 224;
    assert |FollowUpOpening| == 38 && |FollowUpMetricsHeading| == 69 && |FollowUpClosing| == 235;
    assert |PostLaunchHeading| == 23 && |FeedbackHeading| == 17 && |ValidationHeading| == 25;
  }

  /** A text made of an opening, a title, a middle and a tail shows the
      opening, the title and the tail at their places. */
  lemma PromptShape(opening: string, title: string, middle: string, tail: string)
    ensures var s := opening + title + middle + tail;
      |s| == |opening| + |title| + |middle| + |tail| &&
      s[..|opening|] == opening && s[|opening|..|opening| + |title|] == title && s[|s| - |tail|..] == tail
  {
    var s := opening + title + middle + tail;
    assert s == opening + (title + (middle + tail));
    assert s[..|opening|] == opening;
    assert s[|opening|..][..|title|] == title;
    assert s[|s| - |tail|..] == tail;
  }

  /** The analysis prompt: the title, both metric lists one per line, the
      feedback, then the fixed closing instructions. */
  function AnalysisPrompt(title: string, successMetrics: seq<string>, postLaunch: seq<string>, feedback: string): (s: string)
    ensures |s| == AnalysisFixedLength + |title| + |Join(successMetrics, "\n")| + |Join(postLaunch, "\n")| + |feedback|
    ensures |AnalysisOpening| + |title| <= |s|
    ensures s[..|AnalysisOpening|] == AnalysisOpening && s[|AnalysisOpening|..|AnalysisOpening| + |title|] == title
    ensures var tail := FeedbackHeading + feedback + AnalysisClosing;
      |tail| <= |s| && s[|s| - |tail|..] == tail
  {
    var middle := AnalysisMetricsHeading + Join(successMetrics, "\n") + PostLaunchHeading + Join(postLaunch, "\n");
    var tail := FeedbackHeading + feedback + AnalysisClosing;
    PromptShape(AnalysisOpening, title, middle, tail);
    AnalysisOpening + title + middle + tail
  }

  /** The follow-up prompt: the same blocks as the analysis, then the
      hypothesis validation, then the fixed closing instructions. */
  function FollowUpPrompt(title: string, successMetrics: seq<string>, postLaunch: seq<string>, feedback: string, validation: string): (s: string)
    ensures |s| == FollowUpFixedLength + |title| + |Join(successMetrics, "\n")| + |Join(postLaunch, "\n")| + |feedback| + |validation|
    ensures |FollowUpOpening| + |title| <= |s|
    ensures s[..|FollowUpOpening|] == FollowUpOpening && s[|FollowUpOpening|..|FollowUpOpening| + |title|] == title
    ensures var tail := ValidationHeading + validation + FollowUpClosing;
      |tail| <= |s| && s[|s| - |tail|..] == tail
  {
    var middle := FollowUpMetricsHeading + Join(successMetrics, "\n") + PostLaunchHeading + Join(postLaunch, "\n")
      + FeedbackHeading + feedback;
    var tail := ValidationHeading + validation + FollowUpClosing;
    PromptShape(FollowUpOpening, title, middle, tail);
    FollowUpOpening + title + middle + tail
  }

  /** The analysis request's context line: the title and the original metrics. */
  function AnalysisContext(title: string, successMetrics: seq<string>): (s: string)
    ensures |s| >= 9 + |title| && s[..9] == "Project: " && s[9..9 + |title|] == title
  {
    "Project: " + title + "\nOriginal Success Metrics: " + Join(successMetrics, ", ")
  }

  /** The follow-up request's context line: the title and the validation text. */
  function FollowUpContext(title: string, validation: string): (s: string)
    ensures |s| >= 9 + |title| && s[..9] == "Project: " && s[9..9 + |title|] == title
    ensures |s| >= |validation| && s[|s| - |validation|..] == validation
  {
    "Project: " + title + "\nResults: " + validation
  }

  datatype Comparison = Comparison(original: seq<string>, actual: seq<string>)

  /** `compareMetrics`: a comparison only when both metric lists are non-empty. */
  function CompareMetrics(successMetrics: seq<string>, postLaunch: seq<string>): (r: Option<Comparison>)
    ensures r.Some? <==> successMetrics != [] && postLaunch != []
    ensures r.Some? ==> r.value.original == successMetrics && r.value.actual == postLaunch
  {
    if |successMetrics| == 0 || |postLaunch| == 0 then None
    else Some(Comparison(successMetrics, postLaunch))
  }

  class LivePanel {
    var isAnalyzing: bool
    var isCreatingFollowUp: bool

    constructor ()
      ensures !isAnalyzing && !isCreatingFollowUp
    {
      isAnalyzing := false;
      isCreatingFollowUp := false;
    }

    /** `addPostLaunchMetric`: never creates a history entry. */
    method AddPostLaunchMetric(store: PRDStore, now: int, suffix: string)
      requires store.Valid() && store.WellTyped()
      modifies store`sections, store`versions
      ensures store.Valid() && store.WellTyped()
      ensures store.sections == old(store.sections)[PostLaunchMetrics := Items(AppendItem(old(store.ItemsOf(PostLaunchMetrics))))]
      ensures store.versions == old(store.versions)
    {
      store.UpdateSection(PostLaunchMetrics, Items(AppendItem(store.ItemsOf(PostLaunchMetrics))), now, suffix);
    }

    /** `updatePostLaunchMetric`, for the index of an existing metric. */
    method UpdatePostLaunchMetric(store: PRDStore, index: nat, value: string, now: int, suffix: string)
      requires store.Valid() && store.WellTyped()
      requires index < |store.ItemsOf(PostLaunchMetrics)|
      modifies store`sections, store`versions
      ensures store.Valid() && store.WellTyped()
      ensures store.sections == old(store.sections)[PostLaunchMetrics :=
        Items(ReplaceItem(old(store.ItemsOf(PostLaunchMetrics)), index, value))]
      ensures store.versions == old(store.versions)
    {
      store.UpdateSection(PostLaunchMetrics, Items(ReplaceItem(store.ItemsOf(PostLaunchMetrics), index, value)), now, suffix);
    }

    /** `removePostLaunchMetric`. */
    method RemovePostLaunchMetric(store: PRDStore, index: int, now: int, suffix: string)
      requires store.Valid() && store.WellTyped()
      modifies store`sections, store`versions
      ensures store.Valid() && store.WellTyped()
      ensures store.sections == old(store.sections)[PostLaunchMetrics :=
        Items(RemoveItem(old(store.ItemsOf(PostLaunchMetrics)), index))]
      ensures store.versions == old(store.versions)
    {
      store.UpdateSection(PostLaunchMetrics, Items(RemoveItem(store.ItemsOf(PostLaunchMetrics), index)), now, suffix);
    }

    /** The first half of `handleAnalyzeResults`: refused, with no request and no
        state change, when there is nothing to analyse; otherwise raises the flag
        and returns the request. */
    method BeginAnalyze(store: PRDStore) returns (req: Option<ChatRequest>)
      requires store.Valid() && store.WellTyped()
      modifies this`isAnalyzing
      ensures var metrics := store.ItemsOf(PostLaunchMetrics);
        var feedback := store.TextOf(UserFeedback);
        if AnalysisBlocked(metrics, feedback) then
          req.None? && isAnalyzing == old(isAnalyzing)
        else
          isAnalyzing &&
          req == Some(ChatRequest(
            AnalysisPrompt(store.title, store.ItemsOf(SuccessMetrics), metrics, feedback),
            "Live", AnalysisContext(store.title, store.ItemsOf(SuccessMetrics))))
    {
      var metrics := store.ItemsOf(PostLaunchMetrics);
      var feedback := store.TextOf(UserFeedback);
      if AnalysisBlocked(metrics, feedback) {
        req := None;
      } else {
        isAnalyzing := true;
        req := Some(ChatRequest(
          AnalysisPrompt(store.title, store.ItemsOf(SuccessMetrics), metrics, feedback),
          "Live", AnalysisContext(store.title, store.ItemsOf(SuccessMetrics))));
      }
    }

    /** The second half: only a successful reply writes `hypothesisValidation`;
        the flag is lowered in every outcome. */
    method FinishAnalyze(store: PRDStore, reply: Reply<string>, now: int, suffix: string)
      requires store.Valid() && store.WellTyped()
      modifies this`isAnalyzing, store`sections, store`versions
      ensures store.Valid() && store.WellTyped() && !isAnalyzing
      ensures reply.Ok? ==> store.sections == old(store.sections)[HypothesisValidation := Text(reply.value)]
      ensures !reply.Ok? ==> store.sections == old(store.sections)
      ensures store.versions == old(store.versions)
    {
      if reply.Ok? {
        store.UpdateSection(HypothesisValidation, Text(reply.value), now, suffix);
      }
      isAnalyzing := false;
    }

    /** The first half of `handleStartFollowUpPRD` (the handler has no guard of
        its own: the button is disabled without a validation text). */
    method BeginFollowUp(store: PRDStore) returns (req: ChatRequest)
      requires store.Valid() && store.WellTyped()
      modifies this`isCreatingFollowUp
      ensures isCreatingFollowUp
      ensures req == ChatRequest(
        FollowUpPrompt(store.title, store.ItemsOf(SuccessMetrics), store.ItemsOf(PostLaunchMetrics),
                       store.TextOf(UserFeedback), store.TextOf(HypothesisValidation)),
        "Live", FollowUpContext(store.title, store.TextOf(HypothesisValidation)))
    {
      isCreatingFollowUp := true;
      req := ChatRequest(
        FollowUpPrompt(store.title, store.ItemsOf(SuccessMetrics), store.ItemsOf(PostLaunchMetrics),
                       store.TextOf(UserFeedback), store.TextOf(HypothesisValidation)),
        "Live", FollowUpContext(store.title, store.TextOf(HypothesisValidation)));
    }

    /** The second half: only a successful reply writes `nextSteps` and
        navigates to a new workspace (its id, `Date.now()`, is a parameter). */
    method FinishFollowUp(store: PRDStore, reply: Reply<string>, workspaceId: nat, now: int, suffix: string)
      returns (navigateTo: Option<string>)
      requires store.Valid() && store.WellTyped()
      modifies this`isCreatingFollowUp, store`sections, store`versions
      ensures store.Valid() && store.WellTyped() && !isCreatingFollowUp
      ensures reply.Ok? ==> store.sections == old(store.sections)[NextSteps := Text(reply.value)]
      ensures reply.Ok? ==> navigateTo == Some("/workspace/" + NatToString(workspaceId))
      ensures !reply.Ok? ==> store.sections == old(store.sections) && navigateTo.None?
      ensures store.versions == old(store.versions)
    {
      navigateTo := None;
      if reply.Ok? {
        store.UpdateSection(NextSteps, Text(reply.value), now, suffix);
        navigateTo := Some("/workspace/" + NatToString(workspaceId));
      }
      isCreatingFollowUp := false;
    }
  }
}
