/**
 * The banner that shows the current recommendation: its three state fields,
 * the effect that recomputes the recommendation whenever the document
 * changes, the advance and dismiss handlers, and the choice of button and
 * colour scheme.
 */
module StageRecommendationBanner {
  import opened Common
  import opened PRDContext
  import opened StageRecommendation

  /** The document state the effect hands to `getRecommendedNextStage`;
      the banner's `agentResponses` prop defaults to []. */
  function Snapshot(store: PRDStore, responses: seq<AgentResponse>): (p: PRDState)
    reads store
    requires store.Valid() && store.WellTyped()
    ensures p.stage == store.stage && p.title == store.title
    ensures p.problemStatement == store.TextOf(ProblemStatement) && p.learnings == store.TextOf(Learnings)
    ensures p.tradeOffs == store.ItemsOf(TradeOffs) && p.successMetrics == store.ItemsOf(SuccessMetrics)
    ensures p.postLaunchMetrics == store.ItemsOf(PostLaunchMetrics) && p.userFeedback == store.TextOf(UserFeedback)
    ensures p.hypothesisValidation == store.TextOf(HypothesisValidation) && p.nextSteps == store.TextOf(NextSteps)
    ensures p.agentResponses == Some(responses)
  {
    PRDState(store.stage, store.title,
      store.TextOf(ProblemStatement), store.ItemsOf(TradeOffs), store.ItemsOf(SuccessMetrics),
      store.TextOf(Learnings), store.ItemsOf(PostLaunchMetrics), store.TextOf(UserFeedback),
      store.TextOf(HypothesisValidation), store.TextOf(NextSteps), Some(responses))
  }

  /** The effect's test: show a recommendation that names another stage or asks for a review. */
  predicate WorthShowing(r: Recommendation, current: Stage)
  {
    r.recommendedStage != current || r.action == Review
  }

  datatype Button = MoveTo(target: Stage) | ReviewStage(target: Stage) | NoButton

  /** `getActionButton`: 'Move to X' for an advance to another stage, 'Review X'
      for a review, and no button otherwise. */
  function ActionButton(r: Recommendation, current: Stage): (b: Button)
    ensures b.MoveTo? <==> r.action == Advance && r.recommendedStage != current
    ensures b.ReviewStage? <==> r.action == Review
    ensures b.NoButton? <==> !(r.action == Advance && r.recommendedStage != current) && r.action != Review
    ensures !b.NoButton? ==> b.target == r.recommendedStage
  {
    if r.action == Advance && r.recommendedStage != current then MoveTo(r.recommendedStage)
    else if r.action == Review then ReviewStage(r.recommendedStage)
    else NoButton
  }

  /** The button's caption. */
  function ButtonLabel(b: Button): (s: string)
    ensures b.NoButton? <==> s == ""
  {
    match b
    case MoveTo(t) => "Move to " + StageName(t)
    case ReviewStage(t) => "Review " + StageName(t)
    case NoButton => ""
  }

  /** Every recommendation produced for a document has a button. */
  lemma RecommendedHasButton(p: PRDState)
    ensures !ActionButton(Recommend(p), p.stage).NoButton?
  {
    RecommendationAlwaysShown(p);
  }

  datatype Scheme = Green | Yellow | Blue

  /** `getBannerStyles`: the colour scheme, a function of the action alone. */
  function BannerStyle(a: Action): (s: Scheme)
    ensures s == Green <==> a == Advance
    ensures s == Yellow <==> a == Review
    ensures s == Blue <==> a == Stay
  {
    match a
    case Advance => Green
    case Review => Yellow
    case Stay => Blue
  }

  /** Two recommendations get the same colour exactly when they carry the same action. */
  lemma BannerStyleInjective(r1: Recommendation, r2: Recommendation)
    ensures BannerStyle(r1.action) == BannerStyle(r2.action) <==> r1.action == r2.action
  {
  }

  class Banner {
    var recommendation: Option<Recommendation>
    var isVisible: bool
    var isDismissed: bool

    constructor ()
      ensures recommendation == None && !isVisible && !isDismissed
    {
      recommendation := None;
      isVisible := false;
      isDismissed := false;
    }

    /** The component renders only when visible, not dismissed and holding a recommendation. */
    predicate Renders()
      reads this
    {
      isVisible && !isDismissed && recommendation.Some?
    }

    /** The effect: recomputes the recommendation for the current document and
        shows it (clearing the dismissed flag) when it is worth showing. By
        `RecommendationAlwaysShown` every recommendation is, so the effect's
        branch that hides the banner is dead and the banner renders after every
        recomputation. */
    method Recompute(store: PRDStore, responses: seq<AgentResponse>)
      requires store.Valid() && store.WellTyped()
      modifies this
      ensures WorthShowing(Recommend(Snapshot(store, responses)), store.stage)
      ensures recommendation == Some(Recommend(Snapshot(store, responses)))
      ensures isVisible && !isDismissed && Renders()
    {
      var r := Recommend(Snapshot(store, responses));
      RecommendationAlwaysShown(Snapshot(store, responses));
      if WorthShowing(r, store.stage) {
        recommendation := Some(r);
        isVisible := true;
        isDismissed := false;
      } else {
        assert false;
      }
    }

    /** Moves the document to the recommended stage and hides the banner; a
        no-op without a recommendation. The banner stays hidden only until
        the effect runs again, which the stage change itself triggers. */
    method HandleAdvance(store: PRDStore)
      modifies this`isVisible, store`stage
      ensures recommendation.Some? ==> store.stage == recommendation.value.recommendedStage && !isVisible
      ensures recommendation.None? ==> store.stage == old(store.stage) && isVisible == old(isVisible)
      ensures !Renders()
    {
      if recommendation.Some? {
        store.SetStage(recommendation.value.recommendedStage);
        isVisible := false;
      }
    }

    /** An advance followed by the effect it triggers: the document is in the
        recommended stage and the banner shows the recommendation for it. */
    method AdvanceThenRecompute(store: PRDStore, responses: seq<AgentResponse>)
      requires store.Valid() && store.WellTyped() && recommendation.Some?
      modifies this, store`stage
      ensures store.stage == old(recommendation.value.recommendedStage)
      ensures recommendation == Some(Recommend(Snapshot(store, responses)))
      ensures Renders()
    {
      HandleAdvance(store);
      Recompute(store, responses);
    }

    /** Hides the banner until the effect runs again. */
    method HandleDismiss()
      modifies this`isVisible, this`isDismissed
      ensures isDismissed && !isVisible
      ensures !Renders()
    {
      isDismissed := true;
      isVisible := false;
    }

    /** A dismissal followed by a re-render of the page that holds the banner,
        with the document unchanged. The page builds a fresh `agentResponses`
        array on every render and the effect compares its dependencies by
        reference, so the effect reruns and the dismissed banner renders again. */
    method DismissThenRerender(store: PRDStore, responses: seq<AgentResponse>)
      requires store.Valid() && store.WellTyped()
      modifies this
      ensures recommendation == Some(Recommend(Snapshot(store, responses)))
      ensures !isDismissed && Renders()
    {
      HandleDismiss();
      Recompute(store, responses);
    }

    /** The effect as evidently intended: it reruns only when the document it
        reads differs, by value, from the one of its previous run. */
    method RecomputeOnChange(store: PRDStore, responses: seq<AgentResponse>, previous: PRDState)
      requires store.Valid() && store.WellTyped()
      modifies this
      ensures Snapshot(store, responses) == previous ==>
        recommendation == old(recommendation) && isVisible == old(isVisible) && isDismissed == old(isDismissed)
      ensures Snapshot(store, responses) != previous ==>
        recommendation == Some(Recommend(Snapshot(store, responses))) && Renders()
    {
      if Snapshot(store, responses) != previous {
        Recompute(store, responses);
      }
    }

    /** With the intended effect a dismissal lasts through re-renders that
        leave the document as it was. */
    method DismissThenUnchangedRerender(store: PRDStore, responses: seq<AgentResponse>)
      requires store.Valid() && store.WellTyped()
      modifies this
      ensures isDismissed && !Renders()
    {
      HandleDismiss();
      RecomputeOnChange(store, responses, Snapshot(store, responses));
    }

    /** The review button: moves the document to the stage under review; the
        banner's own state is untouched. */
    method ClickReview(store: PRDStore, r: Recommendation)
      requires recommendation == Some(r)
      requires ActionButton(r, store.stage).ReviewStage?
      modifies store`stage
      ensures store.stage == r.recommendedStage
    {
      store.SetStage(r.recommendedStage);
    }
  }
}
