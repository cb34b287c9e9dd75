/**
 * The chat panel: the PRD-context string it sends, and the discipline of its
 * message list (one user message and exactly one assistant message per
 * accepted send, whatever the outcome of the request).
 */
module ChatInterface {
  import opened Common
  import opened PRDContext

  // ---------------------------------------------------------------------------
  // The PRD context

  const TitleLabel := "Project Title: "
  const ProblemLabel := "Problem Statement: "
  const MetricsLabel := "Success Metrics: "
  const TradeOffsLabel := "Trade-offs: "
  const LearningsLabel := "Learnings: "

  /** `[part]` when the field is present, `[]` otherwise. */
  function Part(present: bool, part: string): (r: seq<string>)
    ensures present <==> r == [part]
    ensures !present <==> r == []
  {
    if present then [part] else []
  }

  /** The parts `formatPRDContext` collects, in order: a part is present only
      when its field is non-empty (lists joined with ', '). */
  function ContextParts(title: string, problem: string, metrics: seq<string>, tradeOffs: seq<string>, learnings: string): (parts: seq<string>)
  {
    Part(title != "", TitleLabel + title)
      + Part(problem != "", ProblemLabel + problem)
      + Part(|metrics| > 0, MetricsLabel + Join(metrics, ", "))
      + Part(|tradeOffs| > 0, TradeOffsLabel + Join(tradeOffs, ", "))
      + Part(learnings != "", LearningsLabel + learnings)
  }

  /** Every collected part is non-empty (it starts with its label), and there is
      one part for each non-empty field. */
  lemma ContextPartsShape(title: string, problem: string, metrics: seq<string>, tradeOffs: seq<string>, learnings: string)
    ensures var parts := ContextParts(title, problem, metrics, tradeOffs, learnings);
      (forall i :: 0 <= i < |parts| ==> parts[i] != "") &&
      |parts| == (if title != "" then 1 else 0) + (if problem != "" then 1 else 0)
        + (if |metrics| > 0 then 1 else 0) + (if |tradeOffs| > 0 then 1 else 0)
        + (if learnings != "" then 1 else 0)
  {
    var s0, s1, s2, s3, s4 := TitleLabel + title, ProblemLabel + problem, MetricsLabel + Join(metrics, ", "),
                              TradeOffsLabel + Join(tradeOffs, ", "), LearningsLabel + learnings;
    assert |s0| > 0 && |s1| > 0 && |s2| > 0 && |s3| > 0 && |s4| > 0;
    FivePartsShape(title != "", problem != "", |metrics| > 0, |tradeOffs| > 0, learnings != "", s0, s1, s2, s3, s4);
  }

  predicate AllNonEmpty(parts: seq<string>)
  {
    forall i :: 0 <= i < |parts| ==> parts[i] != ""
  }

  /** Five optional non-empty parts: what is collected is non-empty, one
      entry per present part. */
  lemma FivePartsShape(b0: bool, b1: bool, b2: bool, b3: bool, b4: bool,
                       s0: string, s1: string, s2: string, s3: string, s4: string)
    requires s0 != "" && s1 != "" && s2 != "" && s3 != "" && s4 != ""
    ensures var parts := Part(b0, s0) + Part(b1, s1) + Part(b2, s2) + Part(b3, s3) + Part(b4, s4);
      AllNonEmpty(parts) &&
      |parts| == (if b0 then 1 else 0) + (if b1 then 1 else 0) + (if b2 then 1 else 0)
        + (if b3 then 1 else 0) + (if b4 then 1 else 0)
  {
    var p0, p1, p2, p3, p4 := Part(b0, s0), Part(b1, s1), Part(b2, s2), Part(b3, s3), Part(b4, s4);
    assert AllNonEmpty(p0) && AllNonEmpty(p1) && AllNonEmpty(p2) && AllNonEmpty(p3) && AllNonEmpty(p4);
    ConcatNonEmpty(p0, p1);
    ConcatNonEmpty(p0 + p1, p2);
    ConcatNonEmpty(p0 + p1 + p2, p3);
    ConcatNonEmpty(p0 + p1 + p2 + p3, p4);
  }

  lemma ConcatNonEmpty(a: seq<string>, b: seq<string>)
    requires AllNonEmpty(a) && AllNonEmpty(b)
    ensures AllNonEmpty(a + b)
  {
    forall i | 0 <= i < |a + b| ensures (a + b)[i] != "" {
      if i >= |a| {
        assert (a + b)[i] == b[i - |a|];
      }
    }
  }

  /** A document whose fields are all filled in yields exactly the five labelled
      parts, in the order title, problem, metrics, trade-offs, learnings. */
  lemma FullContextParts(title: string, problem: string, metrics: seq<string>, tradeOffs: seq<string>, learnings: string)
    requires title != "" && problem != "" && metrics != [] && tradeOffs != [] && learnings != ""
    ensures ContextParts(title, problem, metrics, tradeOffs, learnings) ==
      [TitleLabel + title, ProblemLabel + problem, MetricsLabel + Join(metrics, ", "),
       TradeOffsLabel + Join(tradeOffs, ", "), LearningsLabel + learnings]
  {
  }

  /** The context string: the present parts joined with new lines; '' exactly
      for a document whose five fields are all empty. */
  function ContextText(title: string, problem: string, metrics: seq<string>, tradeOffs: seq<string>, learnings: string): (s: string)
    ensures s == "" <==> title == "" && problem == "" && metrics == [] && tradeOffs == [] && learnings == ""
  {
    var parts := ContextParts(title, problem, metrics, tradeOffs, learnings);
    ContextPartsShape(title, problem, metrics, tradeOffs, learnings);
    JoinEmptyIff(parts, "\n");
    Join(parts, "\n")
  }

  /** The context string of the store's current document. */
  function StoreContext(store: PRDStore): (s: string)
    reads store
    requires store.Valid() && store.WellTyped()
  {
    ContextText(store.title, store.TextOf(ProblemStatement), store.ItemsOf(SuccessMetrics),
                store.ItemsOf(TradeOffs), store.TextOf(Learnings))
  }

  /** `formatPRDContext`: pushes the present parts one by one and joins them. */
  method FormatPRDContext(store: PRDStore) returns (s: string)
    requires store.Valid() && store.WellTyped()
    ensures s == StoreContext(store)
  {
    s := BuildContext(store.title, store.TextOf(ProblemStatement), store.ItemsOf(SuccessMetrics),
                      store.ItemsOf(TradeOffs), store.TextOf(Learnings));
  }

  /** The body of `formatPRDContext`, on the five fields it reads. */
  method BuildContext(title: string, problem: string, metrics: seq<string>, tradeOffs: seq<string>, learnings: string)
    returns (s: string)
    ensures s == ContextText(title, problem, metrics, tradeOffs, learnings)
  {
    // the parts collected so far, field by field
    ghost var p0 := Part(title != "", TitleLabel + title);
    ghost var p1 := Part(problem != "", ProblemLabel + problem);
    ghost var p2 := Part(|metrics| > 0, MetricsLabel + Join(metrics, ", "));
    ghost var p3 := Part(|tradeOffs| > 0, TradeOffsLabel + Join(tradeOffs, ", "));
    ghost var p4 := Part(learnings != "", LearningsLabel + learnings);
    var contextParts: seq<string> := [];
    if title != "" {
      contextParts := contextParts + [TitleLabel + title];
    }
    assert contextParts == p0;
    if problem != "" {
      contextParts := contextParts + [ProblemLabel + problem];
    }
    assert contextParts == p0 + p1;
    if |metrics| > 0 {
      contextParts := contextParts + [MetricsLabel + Join(metrics, ", ")];
    }
    assert contextParts == p0 + p1 + p2;
    if |tradeOffs| > 0 {
      contextParts := contextParts + [TradeOffsLabel + Join(tradeOffs, ", ")];
    }
    assert contextParts == p0 + p1 + p2 + p3;
    if learnings != "" {
      contextParts := contextParts + [LearningsLabel + learnings];
    }
    assert contextParts == ContextParts(title, problem, metrics, tradeOffs, learnings);
    s := Join(contextParts, "\n");
  }

  /** What the request sends in place of an empty context. */
  const NoContext := "No PRD context available yet."

  function SentContext(context: string): (s: string)
    ensures s != ""
    ensures context != "" ==> s == context
  {
    if context != "" then context else NoContext
  }

  // ---------------------------------------------------------------------------
  // Messages

  datatype Role = User | Assistant

  /** A chat message (its `Date` timestamp is not modelled). */
  datatype Message = Message(id: string, role: Role, content: string)

  /** A message as the request's `conversationHistory` carries it. */
  datatype HistoryEntry = HistoryEntry(role: Role, content: string)

  /** `messages.map(m => ({ role: m.role, content: m.content }))`. */
  function History(messages: seq<Message>): (h: seq<HistoryEntry>)
    ensures |h| == |messages|
    ensures forall i :: 0 <= i < |messages| ==> h[i].role == messages[i].role && h[i].content == messages[i].content
    decreases |messages|
  {
    if messages == [] then []
    else [HistoryEntry(messages[0].role, messages[0].content)] + History(messages[1..])
  }

  /** The `/api/chat` request body. */
  datatype ChatPayload = ChatPayload(message: string, stage: string, prdContext: string, history: seq<HistoryEntry>)

  const ServerErrorText := "Sorry, I encountered an error. Please try again."
  const NetworkErrorText := "Sorry, I encountered a network error. Please check your connection and try again."

  /** The assistant's message for each outcome of the request. */
  function ReplyText(reply: Reply<string>): (s: string)
    ensures reply.Ok? ==> s == reply.value
    ensures reply.Rejected? ==> s == ServerErrorText
    ensures reply.NetworkError? ==> s == NetworkErrorText
  {
    match reply
    case Ok(text) => text
    case Rejected(_) => ServerErrorText
    case NetworkError => NetworkErrorText
  }

  /** A send is ignored when the input is blank or a request is in flight. */
  predicate SendIgnored(input: string, isLoading: bool)
  {
    IsBlank(input) || isLoading
  }

  class Chat {
    var messages: seq<Message>
    var inputMessage: string
    var isLoading: bool

    constructor ()
      ensures messages == [] && inputMessage == "" && !isLoading
    {
      messages := [];
      inputMessage := "";
      isLoading := false;
    }

    /** Typing into the input. */
    method SetInput(text: string)
      modifies this`inputMessage
      ensures inputMessage == text
    {
      inputMessage := text;
    }

    /** The first half of `handleSendMessage`: ignored (no request, no change)
        when the trimmed input is empty or a request is in flight; otherwise it
        appends the user message, clears the input, raises the loading flag and
        returns the request, whose history is the earlier messages only. The id
        (`Date.now()`) is a parameter. */
    method BeginSend(store: PRDStore, id: string) returns (req: Option<ChatPayload>)
      requires store.Valid() && store.WellTyped()
      modifies this`messages, this`inputMessage, this`isLoading
      ensures SendIgnored(old(inputMessage), old(isLoading)) ==>
        req.None? && messages == old(messages) && inputMessage == old(inputMessage) && isLoading == old(isLoading)
      ensures !SendIgnored(old(inputMessage), old(isLoading)) ==>
        messages == old(messages) + [Message(id, User, old(inputMessage))] &&
        inputMessage == "" && isLoading &&
        req == Some(ChatPayload(old(inputMessage), StageName(store.stage),
          SentContext(old(StoreContext(store))),
          History(old(messages))))
    {
      // `!inputMessage.trim()`: the trimmed input is empty exactly when it is blank (`Common.Trim`)
      if IsBlank(inputMessage) || isLoading {
        return None;
      }
      var payload := AcceptSend(store, id);
      req := Some(payload);
    }

    /** The accepted path of `handleSendMessage`: the user message is appended,
        the input cleared and the loading flag raised before the request is built. */
    method AcceptSend(store: PRDStore, id: string) returns (payload: ChatPayload)
      requires store.Valid() && store.WellTyped()
      modifies this`messages, this`inputMessage, this`isLoading
      ensures messages == old(messages) + [Message(id, User, old(inputMessage))]
      ensures inputMessage == "" && isLoading
      ensures payload == ChatPayload(old(inputMessage), StageName(store.stage),
        SentContext(old(StoreContext(store))), History(old(messages)))
    {
      var text := inputMessage;
      var earlier := messages;
      // the context reads only the document, which the chat's own updates leave alone
      ghost var context := StoreContext(store);
      var prdContext := FormatPRDContext(store);
      assert prdContext == context;
      messages := messages + [Message(id, User, text)];
      inputMessage := "";
      isLoading := true;
      payload := ChatPayload(text, StageName(store.stage), SentContext(prdContext), History(earlier));
    }

    /** The second half: exactly one assistant message is appended, the reply
        or the error text for the outcome, and the loading flag is lowered. */
    method FinishSend(reply: Reply<string>, id: string)
      modifies this`messages, this`isLoading
      ensures messages == old(messages) + [Message(id, Assistant, ReplyText(reply))]
      ensures !isLoading
    {
      messages := messages + [Message(id, Assistant, ReplyText(reply))];
      isLoading := false;
    }

    /** The whole handler with the request's outcome as a parameter: an
        accepted send grows the list by exactly two, the user message followed
        by the assistant's, and ends with an empty input and no request in flight. */
    method SendMessage(store: PRDStore, reply: Reply<string>, userId: string, replyId: string)
      requires store.Valid() && store.WellTyped()
      modifies this`messages, this`inputMessage, this`isLoading
      ensures SendIgnored(old(inputMessage), old(isLoading)) ==>
        messages == old(messages) && inputMessage == old(inputMessage) && isLoading == old(isLoading)
      ensures !SendIgnored(old(inputMessage), old(isLoading)) ==>
        messages == old(messages) + [Message(userId, User, old(inputMessage)), Message(replyId, Assistant, ReplyText(reply))] &&
        |messages| == |old(messages)| + 2 && inputMessage == "" && !isLoading
    {
      var req := BeginSend(store, userId);
      if req.Some? {
        FinishSend(reply, replyId);
      }
    }
  }
}
