/** The optimization orchestrator of the API helper (src/lib/api.ts): `analyzeText` and both
    branches of `optimizeText`. The two HTTP requests are not performed; their outcomes are
    parameters, and every request issued and every progress callback made is recorded, in order,
    in a trace. */
module Api {
  import opened Wrappers
  import opened Modes
  import opened Prompts
  import opened Stream

  /** One piece of feedback about a rewrite. */
  datatype Modification = Modification(original: string, reason: string, suggestion: string, reasoning: Option<string>)

  /** What `optimizeText` resolves with. */
  datatype OptimizeResult = OptimizeResult(optimizedContent: string, modifications: seq<Modification>)

  /** The errors `optimizeText` and `analyzeText` reject with. */
  datatype ApiError =
    | MissingApiKey               // the API key is not configured
    | NetworkError                // `fetch` itself rejected
    | RequestFailed(status: int)  // a non-2xx status on the content request
    | NoResponseBody              // the streamed response has no readable body
    | StreamReadFailed            // `reader.read()` rejected part way
    | InvalidResponse             // the non-streamed content reply is not JSON
    | EmptyContent                // the non-streamed content reply carries no text

  /** What the outside world sees: a request issued, or a call of the progress callback. */
  datatype Event =
    | Fetch(systemPrompt: string, userMessage: string, stream: bool)
    | Progress(text: string, suggestions: Option<seq<Modification>>)

  /** A non-streamed chat reply: its status and `choices?.[0]?.message?.content || ""`, which is
      `None` when the body is not JSON. */
  datatype ChatReply = ChatReply(status: int, messageContent: Option<string>)

  /** The decoded chunks the body reader yields, and whether a read rejects after them instead of
      reporting `done`. */
  datatype StreamBody = StreamBody(chunks: seq<string>, readFails: bool)

  /** A streamed reply: its status and its body, `None` when there is no reader. */
  datatype StreamReply = StreamReply(status: int, body: Option<StreamBody>)

  /** An outcome together with the trace that led to it. */
  datatype Run = Run(result: Result<OptimizeResult, ApiError>, trace: seq<Event>)

  /** `response.ok` */
  predicate IsOk(status: int) {
    200 <= status <= 299
  }

  /** `!SILICON_FLOW_API_KEY` fails for an undefined or empty key. */
  predicate KeyConfigured(apiKey: Option<string>) {
    apiKey.Some? && apiKey.value != []
  }

  const ReasoningInstruction := "分析这段内容需要优化的地方，解释你的优化思路和计划。请简明扼要地总结你将如何改进这段内容，而不是直接给出改进后的内容。"
  const RewriteInstruction := "请提供优化后的内容，保持适当分段格式，移除所有星号标记(*)，确保文本结构清晰。直接给出优化结果，无需解释。"
  const ReasoningPending := "优化思路生成中..."
  const ReasoningUnavailable := "无法获取优化思路"
  const ReasoningReason := "优化思路"
  const AnalysisReason := "整体优化建议"
  const AnalysisPlaceholder := "在分析完成后将显示优化建议"

  /** The user message of both requests: the mode's prompt, the content, then the instruction. */
  function UserMessage(t: OptimizationType, customPrompt: string, content: string, instruction: string): string {
    PromptForType(t, customPrompt) + "\n\n" + content + "\n\n" + instruction
  }

  /** The first request: ask for the intended changes, not streamed. */
  function ReasoningRequest(content: string, t: OptimizationType, customPrompt: string): Event {
    Fetch(SystemPrompt(t), UserMessage(t, customPrompt, content, ReasoningInstruction), false)
  }

  /** The second request: ask for the rewritten text. */
  function RewriteRequest(content: string, t: OptimizationType, customPrompt: string, stream: bool): Event {
    Fetch(SystemPrompt(t), UserMessage(t, customPrompt, content, RewriteInstruction), stream)
  }

  /** The reasoning text of the streaming branch: the placeholder stays when the reply is not JSON,
      the fallback replaces an empty message; the status is only logged. */
  function StreamingReasoning(reply: ChatReply): string {
    match reply.messageContent
    case None => ReasoningPending
    case Some(c) => if c == [] then ReasoningUnavailable else c
  }

  /** The reasoning text of the non-streaming branch: the fallback unless a 2xx reply carries text. */
  function PlainReasoning(reply: ChatReply): string {
    if IsOk(reply.status) && reply.messageContent.Some? && reply.messageContent.value != [] then reply.messageContent.value
    else ReasoningUnavailable
  }

  /** The streaming branch's reasoning: the placeholder when the reply is not JSON, the fallback
      for an empty message, the message otherwise, whatever the status; never empty. */
  lemma StreamingReasoningFallbacks(reply: ChatReply, status: int)
    ensures StreamingReasoning(reply) != []
    ensures reply.messageContent.None? ==> StreamingReasoning(reply) == ReasoningPending
    ensures reply.messageContent == Some([]) ==> StreamingReasoning(reply) == ReasoningUnavailable
    ensures reply.messageContent.Some? && reply.messageContent.value != [] ==>
              StreamingReasoning(reply) == reply.messageContent.value
    ensures StreamingReasoning(reply.(status := status)) == StreamingReasoning(reply)
  {
  }

  /** The non-streaming branch's reasoning: the message only from a 2xx reply that has one, the
      fallback otherwise; never empty. A non-2xx reply that carries a message thus gives the
      message in the streaming branch and the fallback here. */
  lemma PlainReasoningFallbacks(reply: ChatReply)
    ensures PlainReasoning(reply) != []
    ensures !IsOk(reply.status) || reply.messageContent.None? || reply.messageContent == Some([]) ==>
              PlainReasoning(reply) == ReasoningUnavailable
    ensures IsOk(reply.status) && reply.messageContent.Some? && reply.messageContent.value != [] ==>
              PlainReasoning(reply) == reply.messageContent.value
    ensures !IsOk(reply.status) && reply.messageContent.Some? && reply.messageContent.value != [] ==>
              StreamingReasoning(reply) == reply.messageContent.value && PlainReasoning(reply) == ReasoningUnavailable
  {
  }

  /** The one-element feedback list built around a suggestion. */
  function Feedback(content: string, suggestion: string, reasoning: string): seq<Modification> {
    [Modification(content, ReasoningReason, suggestion, Some(reasoning))]
  }

  /** One progress call, without feedback, per running text. */
  function ProgressCalls(texts: seq<string>): seq<Event> {
    if texts == [] then [] else [Progress(texts[0], None)] + ProgressCalls(texts[1..])
  }

  /** `analyzeText(content)`: one overall placeholder suggestion, or the missing-key error. */
  function AnalyzeText(apiKey: Option<string>, content: string): (r: Result<seq<Modification>, ApiError>)
    ensures r.Ok? <==> KeyConfigured(apiKey)
    ensures r.Err? ==> r.error == MissingApiKey
    ensures r.Ok? ==> |r.value| == 1 && r.value[0].original == content && r.value[0].reasoning.None?
  {
    if !KeyConfigured(apiKey) then Err(MissingApiKey)
    else Ok([Modification(content, AnalysisReason, AnalysisPlaceholder, None)])
  }

  /** The first three events of a streamed run once the reasoning is known: the reasoning request,
      the first feedback call with an empty suggestion, and the content request. */
  function Opening(content: string, t: OptimizationType, customPrompt: string, reasoning: string): seq<Event> {
    [ReasoningRequest(content, t, customPrompt)]
    + [Progress([], Some(Feedback(content, [], reasoning)))]
    + [RewriteRequest(content, t, customPrompt, true)]
  }

  /** What the streaming branch of `optimizeText` does, as a value: the specification the method
      `OptimizeText` is proved against. It resolves exactly when both requests get through, the
      content reply is a 2xx reply with a body, and every read succeeds; past the key check, the
      reasoning request always goes out first. */
  function StreamingRun(apiKey: Option<string>, content: string, t: OptimizationType, customPrompt: string,
                        reasoningReply: Option<ChatReply>, contentReply: Option<StreamReply>, parse: DeltaParser): (run: Run)
    ensures run.result.Ok? <==> StreamSucceeds(apiKey, reasoningReply, contentReply)
    ensures KeyConfigured(apiKey) ==> |run.trace| > 0 && run.trace[0] == ReasoningRequest(content, t, customPrompt)
  {
    if !KeyConfigured(apiKey) then Run(Err(MissingApiKey), [])
    else if reasoningReply.None? then Run(Err(NetworkError), [ReasoningRequest(content, t, customPrompt)])
    else
      var reasoning := StreamingReasoning(reasoningReply.value);
      var opening := Opening(content, t, customPrompt, reasoning);
      if contentReply.None? then Run(Err(NetworkError), opening)
      else if !IsOk(contentReply.value.status) then Run(Err(RequestFailed(contentReply.value.status)), opening)
      else if contentReply.value.body.None? then Run(Err(NoResponseBody), opening)
      else
        var body := contentReply.value.body.value;
        var deltas := StreamDeltas(body.chunks, parse);
        var streamed := opening + ProgressCalls(Running(deltas));
        if body.readFails then Run(Err(StreamReadFailed), streamed)
        else
          var full := Concat(deltas);
          Run(Ok(OptimizeResult(full, Feedback(content, full, reasoning))), SuccessTrace(content, t, customPrompt, reasoning, deltas))
  }

  /** `optimizeText(content, promptType, customPrompt, onProgress)` with a progress callback. */
  method OptimizeText(apiKey: Option<string>, content: string, promptType: OptimizationType, customPrompt: string,
                      reasoningReply: Option<ChatReply>, contentReply: Option<StreamReply>, parse: DeltaParser)
    returns (run: Run)
    ensures run == StreamingRun(apiKey, content, promptType, customPrompt, reasoningReply, contentReply, parse)
  {
    if !KeyConfigured(apiKey) {
      return Run(Err(MissingApiKey), []);
    }
    if reasoningReply.None? {
      return Run(Err(NetworkError), [ReasoningRequest(content, promptType, customPrompt)]);
    }
    var optimizationReasoning := StreamingReasoning(reasoningReply.value);
    var trace := Opening(content, promptType, customPrompt, optimizationReasoning);
    if contentReply.None? {
      return Run(Err(NetworkError), trace);
    }
    var response := contentReply.value;
    if !IsOk(response.status) {
      return Run(Err(RequestFailed(response.status)), trace);
    }
    if response.body.None? {
      return Run(Err(NoResponseBody), trace);
    }
    var fullContent, progress := ReadStream(response.body.value.chunks, parse);
    trace := trace + ProgressCalls(progress);
    if response.body.value.readFails {
      return Run(Err(StreamReadFailed), trace);
    }
    var modifications := Feedback(content, fullContent, optimizationReasoning);
    trace := trace + [Progress(fullContent, Some(modifications))];
    return Run(Ok(OptimizeResult(fullContent, modifications)), trace);
  }

  /** `optimizeText(content, promptType, customPrompt)` without a progress callback: both requests
      are answered whole. */
  function PlainRun(apiKey: Option<string>, content: string, t: OptimizationType, customPrompt: string,
                    reasoningReply: Option<ChatReply>, contentReply: Option<ChatReply>): (run: Run)
    ensures run.result.Ok? ==> run.result.value.optimizedContent != []
  {
    if !KeyConfigured(apiKey) then Run(Err(MissingApiKey), [])
    else if reasoningReply.None? then Run(Err(NetworkError), [ReasoningRequest(content, t, customPrompt)])
    else
      var reasoning := PlainReasoning(reasoningReply.value);
      var requests := [ReasoningRequest(content, t, customPrompt), RewriteRequest(content, t, customPrompt, false)];
      if contentReply.None? then Run(Err(NetworkError), requests)
      else if !IsOk(contentReply.value.status) then Run(Err(RequestFailed(contentReply.value.status)), requests)
      else
        match contentReply.value.messageContent
        case None => Run(Err(InvalidResponse), requests)
        case Some(text) =>
          if text == [] then Run(Err(EmptyContent), requests)
          else Run(Ok(OptimizeResult(text, Feedback(content, text, reasoning))), requests)
  }

  /** The feedback list an event hands to the progress callback, if any. */
  function FeedbackOf(e: Event): seq<seq<Modification>> {
    if e.Progress? && e.suggestions.Some? then [e.suggestions.value] else []
  }

  /** The text an event hands to the progress callback without feedback, if any. */
  function TextOf(e: Event): seq<string> {
    if e.Progress? && e.suggestions.None? then [e.text] else []
  }

  /** The request an event issues, if any. */
  function RequestOf(e: Event): seq<Event> {
    if e.Fetch? then [e] else []
  }

  /** The feedback lists handed to the progress callback, in order. */
  function FeedbackUpdates(trace: seq<Event>): seq<seq<Modification>> {
    if trace == [] then [] else FeedbackOf(trace[0]) + FeedbackUpdates(trace[1..])
  }

  /** The texts handed to the progress callback without feedback, in order. */
  function ProgressTexts(trace: seq<Event>): seq<string> {
    if trace == [] then [] else TextOf(trace[0]) + ProgressTexts(trace[1..])
  }

  /** The requests issued, in order. */
  function Requests(trace: seq<Event>): seq<Event> {
    if trace == [] then [] else RequestOf(trace[0]) + Requests(trace[1..])
  }

  lemma {:induction false} FeedbackAppend(a: seq<Event>, b: seq<Event>)
    ensures FeedbackUpdates(a + b) == FeedbackUpdates(a) + FeedbackUpdates(b)
    decreases |a|
  {
    HeadSplit(a, b);
    if a != [] {
      FeedbackAppend(a[1..], b);
    }
  }

  lemma {:induction false} TextsAppend(a: seq<Event>, b: seq<Event>)
    ensures ProgressTexts(a + b) == ProgressTexts(a) + ProgressTexts(b)
    decreases |a|
  {
    HeadSplit(a, b);
    if a != [] {
      TextsAppend(a[1..], b);
    }
  }

  lemma {:induction false} RequestsAppend(a: seq<Event>, b: seq<Event>)
    ensures Requests(a + b) == Requests(a) + Requests(b)
    decreases |a|
  {
    HeadSplit(a, b);
    if a != [] {
      RequestsAppend(a[1..], b);
    }
  }

  /** All three projections of a trace distribute over concatenation. */
  lemma TraceAppend(a: seq<Event>, b: seq<Event>)
    ensures FeedbackUpdates(a + b) == FeedbackUpdates(a) + FeedbackUpdates(b)
    ensures ProgressTexts(a + b) == ProgressTexts(a) + ProgressTexts(b)
    ensures Requests(a + b) == Requests(a) + Requests(b)
  {
    FeedbackAppend(a, b);
    TextsAppend(a, b);
    RequestsAppend(a, b);
  }

  /** One event's projections. */
  lemma SingleEvent(e: Event)
    ensures FeedbackUpdates([e]) == FeedbackOf(e)
    ensures ProgressTexts([e]) == TextOf(e)
    ensures Requests([e]) == RequestOf(e)
  {
    assert [e][1..] == [];
  }

  /** The opening reports one feedback list, with an empty suggestion, no running text, and issues
      both requests. */
  lemma OpeningShape(content: string, t: OptimizationType, customPrompt: string, reasoning: string)
    ensures FeedbackUpdates(Opening(content, t, customPrompt, reasoning)) == [Feedback(content, [], reasoning)]
    ensures ProgressTexts(Opening(content, t, customPrompt, reasoning)) == []
    ensures Requests(Opening(content, t, customPrompt, reasoning))
            == [ReasoningRequest(content, t, customPrompt), RewriteRequest(content, t, customPrompt, true)]
  {
    ThreeEvents(ReasoningRequest(content, t, customPrompt), Progress([], Some(Feedback(content, [], reasoning))),
                RewriteRequest(content, t, customPrompt, true));
  }

  /** The projections of three events in a row. */
  lemma ThreeEvents(a: Event, b: Event, c: Event)
    ensures FeedbackUpdates([a] + [b] + [c]) == FeedbackOf(a) + FeedbackOf(b) + FeedbackOf(c)
    ensures ProgressTexts([a] + [b] + [c]) == TextOf(a) + TextOf(b) + TextOf(c)
    ensures Requests([a] + [b] + [c]) == RequestOf(a) + RequestOf(b) + RequestOf(c)
  {
    SingleEvent(a);
    SingleEvent(b);
    SingleEvent(c);
    TraceAppend([a], [b]);
    TraceAppend([a] + [b], [c]);
  }

  /** The projections of a trace, more events and one last event. */
  lemma TraceOfThree(a: seq<Event>, b: seq<Event>, last: Event)
    ensures FeedbackUpdates(a + b + [last]) == FeedbackUpdates(a) + FeedbackUpdates(b) + FeedbackOf(last)
    ensures ProgressTexts(a + b + [last]) == ProgressTexts(a) + ProgressTexts(b) + TextOf(last)
    ensures Requests(a + b + [last]) == Requests(a) + Requests(b) + RequestOf(last)
  {
    SingleEvent(last);
    TraceAppend(a, b);
    TraceAppend(a + b, [last]);
  }

  /** The streamed progress calls carry no feedback and no request, and their texts are the
      running texts, in order. */
  lemma {:induction false} ProgressCallsShape(texts: seq<string>)
    ensures FeedbackUpdates(ProgressCalls(texts)) == []
    ensures Requests(ProgressCalls(texts)) == []
    ensures ProgressTexts(ProgressCalls(texts)) == texts
    decreases |texts|
  {
    if texts != [] {
      ProgressCallsShape(texts[1..]);
      HeadSplit([Progress(texts[0], None)], ProgressCalls(texts[1..]));
      assert [texts[0]] + texts[1..] == texts;
    }
  }

  /** Without an API key nothing is requested and nothing is reported. */
  lemma MissingKeyRejectsFirst(apiKey: Option<string>, content: string, t: OptimizationType, customPrompt: string,
                               reasoningReply: Option<ChatReply>, reply: Option<StreamReply>, plainReply: Option<ChatReply>, parse: DeltaParser)
    requires !KeyConfigured(apiKey)
    ensures StreamingRun(apiKey, content, t, customPrompt, reasoningReply, reply, parse) == Run(Err(MissingApiKey), [])
    ensures PlainRun(apiKey, content, t, customPrompt, reasoningReply, plainReply) == Run(Err(MissingApiKey), [])
  {
  }

  /** The conditions under which the streamed branch resolves. */
  predicate StreamSucceeds(apiKey: Option<string>, reasoningReply: Option<ChatReply>, contentReply: Option<StreamReply>) {
    && KeyConfigured(apiKey) && reasoningReply.Some? && contentReply.Some?
    && IsOk(contentReply.value.status) && contentReply.value.body.Some? && !contentReply.value.body.value.readFails
  }

  /** A successful streamed run: the result text is the concatenation of the stream's deltas;
      exactly one modification, of the input, suggesting that text; the callback got the feedback
      list exactly twice, first with an empty suggestion and then with the full text, and in between
      the running texts, one per delta; and exactly the two requests were issued. */
  lemma StreamingSuccess(apiKey: Option<string>, content: string, t: OptimizationType, customPrompt: string,
                         reasoningReply: Option<ChatReply>, contentReply: Option<StreamReply>, parse: DeltaParser)
    requires StreamSucceeds(apiKey, reasoningReply, contentReply)
    ensures
      var run := StreamingRun(apiKey, content, t, customPrompt, reasoningReply, contentReply, parse);
      var deltas := StreamDeltas(contentReply.value.body.value.chunks, parse);
      var reasoning := StreamingReasoning(reasoningReply.value);
      && run.result.Ok?
      && run.result.value.optimizedContent == Concat(deltas)
      && |run.result.value.modifications| == 1
      && run.result.value.modifications[0].original == content
      && run.result.value.modifications[0].suggestion == run.result.value.optimizedContent
      && FeedbackUpdates(run.trace) == [Feedback(content, [], reasoning), Feedback(content, Concat(deltas), reasoning)]
      && ProgressTexts(run.trace) == Running(deltas)
      && Requests(run.trace) == [ReasoningRequest(content, t, customPrompt), RewriteRequest(content, t, customPrompt, true)]
      && run.result.value.modifications == Feedback(content, Concat(deltas), reasoning)
      && run.trace == Opening(content, t, customPrompt, reasoning) + ProgressCalls(Running(deltas))
                      + [Progress(Concat(deltas), Some(Feedback(content, Concat(deltas), reasoning)))]
  {
    var reasoning := StreamingReasoning(reasoningReply.value);
    var deltas := StreamDeltas(contentReply.value.body.value.chunks, parse);
    var full := Concat(deltas);
    assert StreamingRun(apiKey, content, t, customPrompt, reasoningReply, contentReply, parse)
           == Run(Ok(OptimizeResult(full, Feedback(content, full, reasoning))), SuccessTrace(content, t, customPrompt, reasoning, deltas));
    SuccessTraceShape(content, t, customPrompt, reasoning, deltas);
  }

  /** The trace of a successful streamed run. */
  function SuccessTrace(content: string, t: OptimizationType, customPrompt: string, reasoning: string, deltas: seq<string>): seq<Event> {
    Opening(content, t, customPrompt, reasoning) + ProgressCalls(Running(deltas))
    + [Progress(Concat(deltas), Some(Feedback(content, Concat(deltas), reasoning)))]
  }

  lemma SuccessTraceShape(content: string, t: OptimizationType, customPrompt: string, reasoning: string, deltas: seq<string>)
    ensures
      var trace := SuccessTrace(content, t, customPrompt, reasoning, deltas);
      && FeedbackUpdates(trace) == [Feedback(content, [], reasoning), Feedback(content, Concat(deltas), reasoning)]
      && ProgressTexts(trace) == Running(deltas)
      && Requests(trace) == [ReasoningRequest(content, t, customPrompt), RewriteRequest(content, t, customPrompt, true)]
  {
    var full := Concat(deltas);
    var opening := Opening(content, t, customPrompt, reasoning);
    var calls := ProgressCalls(Running(deltas));
    var last := Progress(full, Some(Feedback(content, full, reasoning)));
    OpeningShape(content, t, customPrompt, reasoning);
    ProgressCallsShape(Running(deltas));
    TraceOfThree(opening, calls, last);
  }

  /** A failed content request, a missing body or a failed read rejects with no result, after the
      two requests and the first feedback call, and before any final feedback. */
  lemma StreamingFailure(apiKey: Option<string>, content: string, t: OptimizationType, customPrompt: string,
                         reasoningReply: Option<ChatReply>, reply: StreamReply, parse: DeltaParser)
    requires KeyConfigured(apiKey) && reasoningReply.Some?
    requires !IsOk(reply.status) || reply.body.None? || reply.body.value.readFails
    ensures
      var run := StreamingRun(apiKey, content, t, customPrompt, reasoningReply, Some(reply), parse);
      && run.result.Err?
      && (!IsOk(reply.status) ==> run.result.error == RequestFailed(reply.status))
      && FeedbackUpdates(run.trace) == [Feedback(content, [], StreamingReasoning(reasoningReply.value))]
      && Requests(run.trace) == [ReasoningRequest(content, t, customPrompt), RewriteRequest(content, t, customPrompt, true)]
  {
    var reasoning := StreamingReasoning(reasoningReply.value);
    var opening := Opening(content, t, customPrompt, reasoning);
    OpeningShape(content, t, customPrompt, reasoning);
    if IsOk(reply.status) && reply.body.Some? {
      var deltas := StreamDeltas(reply.body.value.chunks, parse);
      ProgressCallsShape(Running(deltas));
      TraceAppend(opening, ProgressCalls(Running(deltas)));
    }
  }

  /** The non-streamed branch succeeds exactly when both requests get through and the content reply
      is a 2xx JSON reply with text; that text is the result and its only suggestion. */
  lemma PlainSuccessIff(apiKey: Option<string>, content: string, t: OptimizationType, customPrompt: string,
                        reasoningReply: Option<ChatReply>, contentReply: Option<ChatReply>)
    ensures
      var run := PlainRun(apiKey, content, t, customPrompt, reasoningReply, contentReply);
      && (run.result.Ok? <==>
            KeyConfigured(apiKey) && reasoningReply.Some? && contentReply.Some? && IsOk(contentReply.value.status)
            && contentReply.value.messageContent.Some? && contentReply.value.messageContent.value != [])
      && (run.result.Ok? ==>
            && run.result.value.optimizedContent == contentReply.value.messageContent.value
            && run.result.value.modifications == Feedback(content, run.result.value.optimizedContent, PlainReasoning(reasoningReply.value)))
  {
  }
}
