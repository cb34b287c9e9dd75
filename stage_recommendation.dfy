/**
 * Stage recommendation rules: three quality scorers, each clamped to [0, 1],
 * and a per-stage decision table that turns the scores into a recommended
 * stage, a confidence and an action. Scores are exact rationals (`real`);
 * the source computes them in IEEE doubles.
 */
module StageRecommendation {
  import opened Common
  import opened PRDContext

  datatype AgentResponse = AgentResponse(agent: string, response: string)

  /** The document as the recommender sees it. */
  datatype PRDState = PRDState(
    stage: Stage,
    title: string,
    problemStatement: string,
    tradeOffs: seq<string>,
    successMetrics: seq<string>,
    learnings: string,
    postLaunchMetrics: seq<string>,
    userFeedback: string,
    hypothesisValidation: string,
    nextSteps: string,
    agentResponses: Option<seq<AgentResponse>>)

  datatype Confidence = High | Medium | Low

  datatype Action = Advance | Review | Stay

  datatype Recommendation = Recommendation(
    recommendedStage: Stage, reason: Reason, confidence: Confidence, action: Action)

  /** Why a recommendation was made; `ReasonText` is the sentence shown. */
  datatype Reason =
    | ApertureReady | ApertureThin | DiscoveryReady | DiscoveryThin | DefineReady | DefineSparse | DesignReady | DesignThin | DeliverDone | LiveDone | LiveThin

  function ReasonText(r: Reason): string
  {
    match r
    case ApertureReady => "Aperture stage is well-defined with clear problem statement and learnings. Ready to move to Discovery."
    case ApertureThin => "Aperture stage needs more detail. Please complete the problem statement and document key learnings."
    case DiscoveryReady => "Discovery stage is comprehensive with well-defined metrics, trade-offs, and agent insights. Ready to define the solution."
    case DiscoveryThin => "Discovery stage needs more detail. Please add more trade-offs, success metrics, or get agent feedback."
    case DefineReady => "Define stage is well-structured with clear requirements. Ready to move to Design phase."
    case DefineSparse => "Define stage is sparse. Consider going back to Discovery to gather more requirements and insights."
    case DesignReady => "Design phase is ready. Proceed to Deliver to start implementation."
    case DesignThin => "Design phase needs better definition. Review the problem statement and success metrics."
    case DeliverDone => "Implementation is complete. Move to Live stage to analyze post-launch results."
    case LiveDone => "Post-launch analysis complete. Consider starting a follow-up PRD based on learnings."
    case LiveThin => "Live stage needs post-launch data. Add metrics and user feedback for analysis."
  }

  function RMin(a: real, b: real): real { if a <= b then a else b }

  /** A count over a positive total is a fraction in [0, 1]. */
  lemma FractionBounds(c: real, n: real)
    requires 0.0 <= c <= n && n > 0.0
    ensures 0.0 <= c / n <= 1.0
    ensures c / n == 1.0 <==> c == n
    ensures c == 0.0 ==> c / n == 0.0
  {
  }

  // ---------------------------------------------------------------------------
  // Text measures

  /** The number of words `text.trim().split(/\s+/)` yields for a non-blank
      text: the number of non-space characters not preceded by a space
      (`prevSpace` says whether the character before `s` was one). */
  function WordsFrom(s: string, prevSpace: bool): nat
    decreases |s|
  {
    if s == [] then 0
    else if !IsSpace(s[0]) && prevSpace then 1 + WordsFrom(s[1..], false)
    else WordsFrom(s[1..], IsSpace(s[0]))
  }

  function Words(s: string): nat { WordsFrom(s, true) }

  predicate IsSentenceEnd(c: char) { c == '.' || c == '!' || c == '?' }

  /** The number of pieces of `text.split(/[.!?]+/)` that are not blank:
      `seen` says whether the current piece already holds a non-space character. */
  function SentencesFrom(s: string, seen: bool): nat
    decreases |s|
  {
    if s == [] then 0
    else if IsSentenceEnd(s[0]) then SentencesFrom(s[1..], false)
    else if !IsSpace(s[0]) && !seen then 1 + SentencesFrom(s[1..], true)
    else SentencesFrom(s[1..], seen)
  }

  function Sentences(s: string): nat { SentencesFrom(s, false) }

  predicate IsLineTerminator(c: char)
  {
    c == '\n' || c == '\r' || c == '\U{2028}' || c == '\U{2029}'
  }

  /** `/^(.*\n){need,}/`: the first `need` line terminators of `s` are all '\n'. */
  predicate LeadingLines(s: string, need: nat)
    decreases |s|
  {
    if need == 0 then true
    else if s == [] then false
    else if s[0] == '\n' then LeadingLines(s[1..], need - 1)
    else if IsLineTerminator(s[0]) then false
    else LeadingLines(s[1..], need)
  }

  /** `/^(.*\n){2,}/.test(text) || /^[•\-\*]/.test(text)`. */
  predicate HasStructure(text: string)
  {
    LeadingLines(text, 2) || (text != [] && (text[0] == '\U{2022}' || text[0] == '-' || text[0] == '*'))
  }

  // ---------------------------------------------------------------------------
  // The three scorers

  /** `analyzeTextQuality`: one tenth per word up to 1, plus bonuses for three
      sentences, for structure and for more than fifty words, clamped to 1. */
  function TextQuality(text: string): (r: real)
    ensures 0.0 <= r <= 1.0
  {
    if Trim(text) == "" then 0.0
    else
      var words := Words(Trim(text));
      var score := RMin(words as real / 10.0, 1.0)
        + (if Sentences(text) >= 3 then 0.2 else 0.0)
        + (if HasStructure(text) then 0.2 else 0.0)
        + (if words > 50 then 0.1 else 0.0);
      RMin(score, 1.0)
  }

  /** A text scores 0 exactly when it is empty or blank. */
  lemma TextQualityZero(text: string)
    ensures TextQuality(text) == 0.0 <==> IsBlank(text)
  {
    if !IsBlank(text) {
      TextQualityWords(text);
    }
  }

  /** A non-blank text scores at least its word count over ten (so at least
      0.1), and 1 once it has ten words. */
  lemma TextQualityWords(text: string)
    requires !IsBlank(text)
    ensures Words(Trim(text)) >= 1
    ensures TextQuality(text) >= RMin(Words(Trim(text)) as real / 10.0, 1.0) >= 0.1
    ensures Words(Trim(text)) >= 10 ==> TextQuality(text) == 1.0
  {
    var t := Trim(text);
    assert t != [] && !IsSpace(t[0]);
  }

  /** The items whose trimmed text is non-empty, in order. */
  function NonBlankItems(items: seq<string>): (r: seq<string>)
    ensures |r| <= |items|
    ensures forall i :: 0 <= i < |r| ==> !IsBlank(r[i])
    ensures (forall i :: 0 <= i < |items| ==> IsBlank(items[i])) ==> r == []
    ensures (forall i :: 0 <= i < |items| ==> !IsBlank(items[i])) ==> r == items
    decreases |items|
  {
    // `item.trim().length > 0` is `!IsBlank(item)` (see `Common.Trim`)
    if items == [] then []
    else if !IsBlank(items[0]) then [items[0]] + NonBlankItems(items[1..])
    else NonBlankItems(items[1..])
  }

  function SumLengths(items: seq<string>): nat
    decreases |items|
  {
    if items == [] then 0 else |items[0]| + SumLengths(items[1..])
  }

  /** `analyzeArrayQuality`: the share of non-blank items, plus bonuses for an
      average length over twenty and for three or more such items, clamped to 1. */
  function ArrayQuality(items: seq<string>): (r: real)
    ensures 0.0 <= r <= 1.0
  {
    if items == [] then 0.0
    else
      var nonEmpty := NonBlankItems(items);
      FractionBounds(|nonEmpty| as real, |items| as real);
      // average length over 20, written without the division; the average of
      // no items is NaN in the source, and NaN > 20 is false
      var longItems := nonEmpty != [] && SumLengths(nonEmpty) > 20 * |nonEmpty|;
      var score := |nonEmpty| as real / |items| as real
        + (if longItems then 0.2 else 0.0)
        + (if |nonEmpty| >= 3 then 0.2 else 0.0);
      RMin(score, 1.0)
  }

  /** An empty list, or one holding only blank items, scores 0; a non-empty
      list without blank items scores 1; any list at least its share of
      non-blank items. */
  lemma ArrayQualityShare(items: seq<string>)
    ensures (forall i :: 0 <= i < |items| ==> IsBlank(items[i])) ==> ArrayQuality(items) == 0.0
    ensures items != [] && (forall i :: 0 <= i < |items| ==> !IsBlank(items[i])) ==> ArrayQuality(items) == 1.0
    ensures items != [] ==> ArrayQuality(items) >= |NonBlankItems(items)| as real / |items| as real
  {
    if items != [] {
      FractionBounds(|NonBlankItems(items)| as real, |items| as real);
    }
  }

  predicate IsSubstantial(r: AgentResponse)
  {
    |Trim(r.response)| > 50
  }

  /** `xs.filter(p).length`. */
  function CountWhere<T>(xs: seq<T>, p: T -> bool): (n: nat)
    ensures n <= |xs|
    decreases |xs|
  {
    if xs == [] then 0
    else (if p(xs[0]) then 1 else 0) + CountWhere(xs[1..], p)
  }

  /** The filter keeps everything exactly when every element passes. */
  lemma {:induction false} CountWhereAll<T>(xs: seq<T>, p: T -> bool)
    ensures (forall i :: 0 <= i < |xs| ==> p(xs[i])) <==> CountWhere(xs, p) == |xs|
    decreases |xs|
  {
    if xs != [] {
      CountWhereAll(xs[1..], p);
      assert forall i :: 1 <= i < |xs| ==> xs[i] == xs[1..][i - 1];
    }
  }

  /** The filter keeps nothing exactly when no element passes. */
  lemma {:induction false} CountWhereNone<T>(xs: seq<T>, p: T -> bool)
    ensures (forall i :: 0 <= i < |xs| ==> !p(xs[i])) <==> CountWhere(xs, p) == 0
    decreases |xs|
  {
    if xs != [] {
      CountWhereNone(xs[1..], p);
      assert forall i :: 1 <= i < |xs| ==> xs[i] == xs[1..][i - 1];
    }
  }

  /** The number of responses whose trimmed text is longer than 50 characters. */
  function CountSubstantial(responses: seq<AgentResponse>): (n: nat)
    ensures n <= |responses|
  {
    CountWhere(responses, IsSubstantial)
  }

  /** The count reaches its bounds exactly in the extreme cases: all responses
      substantial, or none. */
  lemma CountSubstantialExtremes(responses: seq<AgentResponse>)
    ensures (forall i :: 0 <= i < |responses| ==> IsSubstantial(responses[i])) <==>
      CountSubstantial(responses) == |responses|
    ensures (forall i :: 0 <= i < |responses| ==> !IsSubstantial(responses[i])) <==>
      CountSubstantial(responses) == 0
  {
    CountWhereAll(responses, IsSubstantial);
    CountWhereNone(responses, IsSubstantial);
  }

  /** `analyzeAgentResponses`: 0 without responses, otherwise the share of
      substantial ones, clamped to 1. */
  function AgentQuality(responses: Option<seq<AgentResponse>>): (r: real)
    ensures 0.0 <= r <= 1.0
    ensures responses.None? || responses.value == [] ==> r == 0.0
  {
    if responses.None? || responses.value == [] then 0.0
    else
      FractionBounds(CountSubstantial(responses.value) as real, |responses.value| as real);
      RMin(CountSubstantial(responses.value) as real / |responses.value| as real, 1.0)
  }

  /** The clamp never bites: the score is exactly the share of substantial
      responses, and it is 1 exactly when all of them are. */
  lemma AgentQualityShare(responses: seq<AgentResponse>)
    requires responses != []
    ensures AgentQuality(Some(responses)) == CountSubstantial(responses) as real / |responses| as real
    ensures AgentQuality(Some(responses)) == 1.0 <==> CountSubstantial(responses) == |responses|
  {
    FractionBounds(CountSubstantial(responses) as real, |responses| as real);
  }

  // ---------------------------------------------------------------------------
  // The decision table

  /** The stage that follows in the cycle Aperture → … → Live → Aperture. */
  function Next(s: Stage): (n: Stage)
    ensures n != s
  {
    match s
    case Aperture => Discovery
    case Discovery => Define
    case Define => Design
    case Design => Deliver
    case Deliver => Live
    case Live => Aperture
  }

  /** The stage a `review` recommendation sends the user to, per stage. */
  function ReviewTarget(s: Stage): Option<Stage>
  {
    match s
    case Aperture => Some(Aperture)
    case Discovery => Some(Discovery)
    case Define => Some(Discovery)
    case Design => Some(Define)
    case Deliver => None
    case Live => Some(Live)
  }

  /** The title counts fully once it is longer than five characters. */
  function TitleScore(title: string): (r: real)
    ensures r == 1.0 <==> |title| > 5
    ensures r == 0.0 || r == 1.0
  {
    if |title| > 5 then 1.0 else 0.0
  }

  /** The Aperture analysis: the mean of the title, problem and learnings scores. */
  function ApertureAnalysis(title: real, problem: real, learnings: real): (r: Recommendation)
    ensures r.action == Advance <==> (title + problem + learnings) / 3.0 >= 0.7
    ensures r.recommendedStage == (if r.action == Advance then Discovery else Aperture)
    ensures r.action != Stay && r.confidence == High
  {
    if (title + problem + learnings) / 3.0 >= 0.7 then
      Recommendation(Discovery, ApertureReady, High, Advance)
    else
      Recommendation(Aperture, ApertureThin, High, Review)
  }

  /** The Discovery analysis: the mean of five scores, agent responses included. */
  function DiscoveryAnalysis(problem: real, tradeOffs: real, metrics: real, learnings: real, agents: real): (r: Recommendation)
    ensures r.action == Advance <==> (problem + tradeOffs + metrics + learnings + agents) / 5.0 >= 0.6
    ensures r.recommendedStage == (if r.action == Advance then Define else Discovery)
    ensures r.action != Stay && r.confidence == (if r.action == Advance then High else Medium)
  {
    if (problem + tradeOffs + metrics + learnings + agents) / 5.0 >= 0.6 then
      Recommendation(Define, DiscoveryReady, High, Advance)
    else
      Recommendation(Discovery, DiscoveryThin, Medium, Review)
  }

  /** The Define analysis: the mean of four scores; a sparse definition goes back to Discovery. */
  function DefineAnalysis(problem: real, tradeOffs: real, metrics: real, learnings: real): (r: Recommendation)
    ensures r.action == Advance <==> (problem + tradeOffs + metrics + learnings) / 4.0 >= 0.7
    ensures r.recommendedStage == (if r.action == Advance then Design else Discovery)
    ensures r.action != Stay && r.confidence == (if r.action == Advance then High else Medium)
  {
    if (problem + tradeOffs + metrics + learnings) / 4.0 >= 0.7 then
      Recommendation(Design, DefineReady, High, Advance)
    else
      Recommendation(Discovery, DefineSparse, Medium, Review)
  }

  /** The Design analysis: both the problem statement and the success metrics must score 0.6. */
  function DesignAnalysis(problem: real, metrics: real): (r: Recommendation)
    ensures r.action == Advance <==> problem >= 0.6 && metrics >= 0.6
    ensures r.recommendedStage == (if r.action == Advance then Deliver else Define)
    ensures r.action != Stay && r.confidence == Medium
  {
    if problem >= 0.6 && metrics >= 0.6 then
      Recommendation(Deliver, DesignReady, Medium, Advance)
    else
      Recommendation(Define, DesignThin, Medium, Review)
  }

  /** The Deliver analysis ignores the content and always moves on to Live. */
  function DeliverAnalysis(): (r: Recommendation)
    ensures r.recommendedStage == Live && r.confidence == High && r.action == Advance
  {
    Recommendation(Live, DeliverDone, High, Advance)
  }

  /** The Live analysis: either post-launch score reaching 0.5 starts a new cycle. */
  function LiveAnalysis(postLaunch: real, feedback: real): (r: Recommendation)
    ensures r.action == Advance <==> postLaunch >= 0.5 || feedback >= 0.5
    ensures r.recommendedStage == (if r.action == Advance then Aperture else Live)
    ensures r.action != Stay && r.confidence == (if r.action == Advance then Medium else High)
  {
    if postLaunch >= 0.5 || feedback >= 0.5 then
      Recommendation(Aperture, LiveDone, Medium, Advance)
    else
      Recommendation(Live, LiveThin, High, Review)
  }

  /** `getRecommendedNextStage`: never 'stay'; an advance names the next stage
      in the cycle, a review the stage's fixed review target, and Deliver always
      advances to Live with high confidence. */
  function Recommend(p: PRDState): (r: Recommendation)
    ensures r.action != Stay && r.confidence != Low
    ensures r.action == Advance ==> r.recommendedStage == Next(p.stage)
    ensures r.action == Review ==> ReviewTarget(p.stage) == Some(r.recommendedStage)
    ensures p.stage == Deliver ==> r == Recommendation(Live, DeliverDone, High, Advance)
  {
    match p.stage
    case Aperture =>
      ApertureAnalysis(TitleScore(p.title), TextQuality(p.problemStatement), TextQuality(p.learnings))
    case Discovery =>
      DiscoveryAnalysis(TextQuality(p.problemStatement), ArrayQuality(p.tradeOffs), ArrayQuality(p.successMetrics),
                        TextQuality(p.learnings), AgentQuality(p.agentResponses))
    case Define =>
      DefineAnalysis(TextQuality(p.problemStatement), ArrayQuality(p.tradeOffs), ArrayQuality(p.successMetrics),
                     TextQuality(p.learnings))
    case Design => DesignAnalysis(TextQuality(p.problemStatement), ArrayQuality(p.successMetrics))
    case Deliver => DeliverAnalysis()
    case Live => LiveAnalysis(ArrayQuality(p.postLaunchMetrics), TextQuality(p.userFeedback))
  }

  /** Aperture advances iff the mean of the title, problem and learnings scores
      reaches 0.7, the title scoring 1 iff it is longer than five characters. */
  lemma ApertureThreshold(p: PRDState)
    requires p.stage == Aperture
    ensures Recommend(p).action == Advance <==>
      (TitleScore(p.title) + TextQuality(p.problemStatement) + TextQuality(p.learnings)) / 3.0 >= 0.7
  {
    assert Recommend(p) == ApertureAnalysis(TitleScore(p.title), TextQuality(p.problemStatement), TextQuality(p.learnings));
  }

  /** Discovery advances iff the mean of its five scores reaches 0.6. */
  lemma DiscoveryThreshold(p: PRDState)
    requires p.stage == Discovery
    ensures Recommend(p).action == Advance <==>
      (TextQuality(p.problemStatement) + ArrayQuality(p.tradeOffs) + ArrayQuality(p.successMetrics)
        + TextQuality(p.learnings) + AgentQuality(p.agentResponses)) / 5.0 >= 0.6
  {
    assert Recommend(p) == DiscoveryAnalysis(TextQuality(p.problemStatement), ArrayQuality(p.tradeOffs),
      ArrayQuality(p.successMetrics), TextQuality(p.learnings), AgentQuality(p.agentResponses));
  }

  /** Define advances iff the mean of its four scores reaches 0.7. */
  lemma DefineThreshold(p: PRDState)
    requires p.stage == Define
    ensures Recommend(p).action == Advance <==>
      (TextQuality(p.problemStatement) + ArrayQuality(p.tradeOffs) + ArrayQuality(p.successMetrics)
        + TextQuality(p.learnings)) / 4.0 >= 0.7
  {
    assert Recommend(p) == DefineAnalysis(TextQuality(p.problemStatement), ArrayQuality(p.tradeOffs),
      ArrayQuality(p.successMetrics), TextQuality(p.learnings));
  }

  /** Design advances iff both its scores reach 0.6. */
  lemma DesignThreshold(p: PRDState)
    requires p.stage == Design
    ensures Recommend(p).action == Advance <==>
      TextQuality(p.problemStatement) >= 0.6 && ArrayQuality(p.successMetrics) >= 0.6
  {
    assert Recommend(p) == DesignAnalysis(TextQuality(p.problemStatement), ArrayQuality(p.successMetrics));
  }

  /** Live advances iff either of its scores reaches 0.5. */
  lemma LiveThreshold(p: PRDState)
    requires p.stage == Live
    ensures Recommend(p).action == Advance <==>
      ArrayQuality(p.postLaunchMetrics) >= 0.5 || TextQuality(p.userFeedback) >= 0.5
  {
    assert Recommend(p) == LiveAnalysis(ArrayQuality(p.postLaunchMetrics), TextQuality(p.userFeedback));
  }

  /** Every recommendation either names another stage or asks for a review. */
  lemma RecommendationAlwaysShown(p: PRDState)
    ensures Recommend(p).recommendedStage != p.stage || Recommend(p).action == Review
  {
    var r := Recommend(p);
    if r.action == Advance {
      assert r.recommendedStage == Next(p.stage);
    }
  }

  /** A document with a long title and at least ten words in both the problem
      statement and the learnings is always advanced out of Aperture. */
  lemma FullAperture(p: PRDState)
    requires p.stage == Aperture && |p.title| > 5
    requires !IsBlank(p.problemStatement) && Words(Trim(p.problemStatement)) >= 10
    requires !IsBlank(p.learnings) && Words(Trim(p.learnings)) >= 10
    ensures Recommend(p).recommendedStage == Discovery && Recommend(p).action == Advance
  {
    TextQualityWords(p.problemStatement);
    TextQualityWords(p.learnings);
    ApertureThreshold(p);
  }

  /** An empty document in Live stage is sent back to review Live. */
  lemma EmptyLiveReviews(p: PRDState)
    requires p.stage == Live && p.postLaunchMetrics == [] && IsBlank(p.userFeedback)
    ensures Recommend(p).action == Review && Recommend(p).recommendedStage == Live
  {
    TextQualityZero(p.userFeedback);
  }

  /** `getStageRequirements`: every stage has at least two requirements, none empty. */
  function StageRequirements(s: Stage): (r: seq<string>)
    ensures |r| >= 2
    ensures forall i :: 0 <= i < |r| ==> r[i] != ""
  {
    match s
    case Aperture => ["Clear project title", "Well-defined problem statement", "Documented learnings and insights"]
    case Discovery => ["Comprehensive problem analysis", "Multiple trade-offs identified", "Clear success metrics", "Agent feedback and insights"]
    case Define => ["Detailed problem statement", "Well-analyzed trade-offs", "Specific success metrics", "Comprehensive learnings"]
    case Design => ["Clear requirements from Define stage", "Well-defined success metrics"]
    case Deliver => ["Implementation based on Design", "Ready for launch"]
    case Live => ["Post-launch metrics", "User feedback", "Results analysis"]
  }
}
