/**
 * The agent debate panel: the confidence badge (its text and colour bands),
 * the request that asks the backend to summarise the agents' opinions, and
 * the summary and trade-off fields that request fills in.
 */
module AgentDebatePanel {
  import opened Common

  /** One agent's answer as the panel receives it; `confidence` is optional
      (integer percentages only). */
  datatype DebateAgent = DebateAgent(name: string, role: string, response: string, confidence: Option<int>, icon: string)

  /** `!confidence`: absent or zero (NaN is not modelled). */
  predicate Unspecified(confidence: Option<int>)
  {
    confidence.None? || confidence.value == 0
  }

  /** The four bands the badge distinguishes. */
  datatype Band = NotSpecified | HighBand | MediumBand | LowBand

  function ConfidenceBand(confidence: Option<int>): (b: Band)
    ensures b == NotSpecified <==> Unspecified(confidence)
    ensures b == HighBand <==> !Unspecified(confidence) && confidence.value >= 80
    ensures b == MediumBand <==> !Unspecified(confidence) && 60 <= confidence.value < 80
    ensures b == LowBand <==> !Unspecified(confidence) && confidence.value < 60
  {
    if Unspecified(confidence) then NotSpecified
    else if confidence.value >= 80 then HighBand
    else if confidence.value >= 60 then MediumBand
    else LowBand
  }

  /** `getConfidenceText`. */
  function ConfidenceText(confidence: Option<int>): string
  {
    if Unspecified(confidence) then "Not specified"
    else if confidence.value >= 80 then "High"
    else if confidence.value >= 60 then "Medium"
    else "Low"
  }

  datatype Colour = Grey | Green | Yellow | Red

  /** `getConfidenceColor`. */
  function ConfidenceColor(confidence: Option<int>): Colour
  {
    if Unspecified(confidence) then Grey
    else if confidence.value >= 80 then Green
    else if confidence.value >= 60 then Yellow
    else Red
  }

  /** Text and colour follow the same bands: each is a function of the band,
      and distinct bands get distinct texts and distinct colours. */
  lemma TextAndColourFollowBand(c1: Option<int>, c2: Option<int>)
    ensures ConfidenceText(c1) == ConfidenceText(c2) <==> ConfidenceBand(c1) == ConfidenceBand(c2)
    ensures ConfidenceColor(c1) == ConfidenceColor(c2) <==> ConfidenceBand(c1) == ConfidenceBand(c2)
  {
  }

  /** `agent.confidence && (...)`: the badge is shown only for a truthy confidence. */
  predicate BadgeShown(a: DebateAgent)
  {
    !Unspecified(a.confidence)
  }

  /** A shown badge always names a level, never 'Not specified'. */
  lemma ShownBadgeHasLevel(a: DebateAgent)
    requires BadgeShown(a)
    ensures ConfidenceText(a.confidence) in {"High", "Medium", "Low"}
  {
  }

  /** One entry of the request body: everything but the icon. */
  datatype OpinionEntry = OpinionEntry(name: string, role: string, response: string, confidence: Option<int>)

  /** `agentResponses.map(agent => ({ name, role, response, confidence }))`. */
  function Payload(agents: seq<DebateAgent>): (p: seq<OpinionEntry>)
    ensures |p| == |agents|
    ensures forall i :: 0 <= i < |agents| ==>
      p[i] == OpinionEntry(agents[i].name, agents[i].role, agents[i].response, agents[i].confidence)
    decreases |agents|
  {
    if agents == [] then []
    else [OpinionEntry(agents[0].name, agents[0].role, agents[0].response, agents[0].confidence)] + Payload(agents[1..])
  }

  /** The icon is all the payload drops: agents differing only in their icons
      send the same request. */
  lemma PayloadIgnoresIcons(a: seq<DebateAgent>, b: seq<DebateAgent>)
    requires |a| == |b|
    requires forall i :: 0 <= i < |a| ==>
      a[i].name == b[i].name && a[i].role == b[i].role && a[i].response == b[i].response && a[i].confidence == b[i].confidence
    ensures Payload(a) == Payload(b)
  {
  }

  /** What a successful reply carries: the summary, and the trade-offs when
      the reply holds an array under that name. */
  datatype DebateReply = DebateReply(summary: string, tradeOffs: Option<seq<string>>)

  /** The summarise button is disabled while summarising or without responses. */
  predicate SummarizeDisabled(isSummarizing: bool, agents: seq<DebateAgent>)
  {
    isSummarizing || |agents| == 0
  }

  class DebatePanel {
    var isSummarizing: bool
    var summary: string
    var tradeOffs: seq<string>

    constructor ()
      ensures !isSummarizing && summary == "" && tradeOffs == []
    {
      isSummarizing := false;
      summary := "";
      tradeOffs := [];
    }

    /** The summary card is shown once the summary is non-empty. */
    predicate ShowsSummary()
      reads this
    {
      summary != ""
    }

    /** The first half of `handleSummarizeOpinions`: with no responses it sends
        nothing and changes nothing; otherwise it raises the flag, clears the
        summary and the trade-offs, and returns the request body. */
    method BeginSummarize(agents: seq<DebateAgent>) returns (req: Option<seq<OpinionEntry>>)
      modifies this
      ensures agents == [] ==>
        req.None? && isSummarizing == old(isSummarizing) && summary == old(summary) && tradeOffs == old(tradeOffs)
      ensures agents != [] ==> req == Some(Payload(agents)) && isSummarizing && summary == "" && tradeOffs == []
    {
      if |agents| == 0 {
        return None;
      }
      isSummarizing := true;
      summary := "";
      tradeOffs := [];
      req := Some(Payload(agents));
    }

    /** The second half: a successful reply sets the summary, and the
        trade-offs only when it carries an array; every outcome lowers the flag. */
    method FinishSummarize(reply: Reply<DebateReply>)
      modifies this
      ensures !isSummarizing
      ensures reply.Ok? ==> summary == reply.value.summary
      ensures reply.Ok? && reply.value.tradeOffs.Some? ==> tradeOffs == reply.value.tradeOffs.value
      ensures reply.Ok? && reply.value.tradeOffs.None? ==> tradeOffs == old(tradeOffs)
      ensures !reply.Ok? ==> summary == old(summary) && tradeOffs == old(tradeOffs)
    {
      if reply.Ok? {
        summary := reply.value.summary;
        if reply.value.tradeOffs.Some? {
          tradeOffs := reply.value.tradeOffs.value;
        }
      }
      isSummarizing := false;
    }

    /** The whole handler with the reply as a parameter: after a failed
        request the panel shows no summary and no trade-offs, because both were
        cleared before it was sent. */
    method SummarizeOpinions(agents: seq<DebateAgent>, reply: Reply<DebateReply>)
      modifies this
      ensures !isSummarizing || (agents == [] && old(isSummarizing))
      ensures agents != [] && !reply.Ok? ==> summary == "" && tradeOffs == [] && !ShowsSummary()
      ensures agents != [] && reply.Ok? ==> summary == reply.value.summary
      ensures agents != [] && reply.Ok? && reply.value.tradeOffs.Some? ==> tradeOffs == reply.value.tradeOffs.value
      ensures agents != [] && reply.Ok? && reply.value.tradeOffs.None? ==> tradeOffs == []
      ensures agents == [] ==> summary == old(summary) && tradeOffs == old(tradeOffs)
    {
      var req := BeginSummarize(agents);
      if req.Some? {
        FinishSummarize(reply);
      }
    }
  }
}
