/** `OpenAIBackend`: the system text travels as a leading "system" chat message. */
module OpenAIBackend {
  import opened Wrappers
  import opened JsonValue
  import opened ProviderWire
  import opened PyText
  import opened BackendBase

  const DefaultModel: string := "gpt-4o"

  /** The text `IndexError` carries when a reply or a chunk has no choices. */
  const NoChoices: string := "list index out of range"

  /** The text `AttributeError` carries when a reply has no usage record. */
  const NoUsage: string := "'NoneType' object has no attribute 'prompt_tokens'"

  datatype Backend = Backend(apiKey: string, model: string)

  /** `OpenAIBackend(api_key, model)`. */
  function New(apiKey: string, model: Option<string>): (b: Backend)
    ensures b.apiKey == apiKey && b.model == OrDefault(model, DefaultModel) && b.model != ""
  {
    Backend(apiKey, OrDefault(model, DefaultModel))
  }

  /** The keyword arguments of `chat.completions.create`; `tools` is `None` when the key is absent. */
  datatype Kwargs = Kwargs(model: string, messages: seq<WireMessage>, maxTokens: int, temperature: real, tools: Option<seq<Json>>)

  /** One streamed chunk: the `delta.content` of each of its choices. */
  datatype Chunk = Chunk(deltas: seq<Option<string>>)

  /** `client.chat.completions.create(**kwargs)` for the client made with the given key. */
  type CreateApi = (string, Kwargs) -> Result<OpenAIReply>

  /** The same call with `stream=True`: the chunks, read to the end. */
  type StreamApi = (string, Kwargs) -> Result<seq<Chunk>>

  /** The chat messages sent: a "system" message first when there is system text, then the request's messages. */
  function WireMessages(request: CompletionRequest): (r: seq<WireMessage>)
    ensures |r| == |request.messages| + (if request.system != "" then 1 else 0)
  {
    (if request.system != "" then [WireMessage("system", request.system)] else []) + ToWire(request.messages)
  }

  /** The two `messages.append` steps `complete` and `stream_complete` both take. */
  method BuildMessages(request: CompletionRequest) returns (messages: seq<WireMessage>)
    ensures messages == WireMessages(request)
  {
    messages := [];
    if request.system != "" {
      messages := messages + [WireMessage("system", request.system)];
    }
    var head := messages;
    var i := 0;
    while i < |request.messages|
      invariant 0 <= i <= |request.messages|
      invariant messages == head + ToWire(request.messages[..i])
    {
      var msg := request.messages[i];
      messages := messages + [WireMessage(msg.role, msg.content)];
      i := i + 1;
    }
    assert request.messages[..i] == request.messages;
  }

  /** The system text is sent exactly when it is non-empty, and the caller's messages follow it unchanged. */
  lemma WireMessagesKeepRequest(request: CompletionRequest)
    ensures request.system != "" ==> WireMessages(request)[0] == WireMessage("system", request.system)
    ensures var skip := if request.system != "" then 1 else 0;
      FromWire(WireMessages(request)[skip..]) == request.messages
  {
    var skip := if request.system != "" then 1 else 0;
    assert WireMessages(request)[skip..] == ToWire(request.messages);
    WireRoundTrip(request.messages);
  }

  /** The arguments a request becomes; `tools` is only ever sent by `complete`, and only when non-empty. */
  function KwargsFor(b: Backend, request: CompletionRequest, withTools: bool): (k: Kwargs)
    ensures k.model == b.model && k.maxTokens == request.maxTokens && k.temperature == request.temperature
    ensures k.messages == WireMessages(request)
    ensures k.tools.Some? <==> withTools && request.tools != []
    ensures k.tools.Some? ==> k.tools.value == request.tools
  {
    Kwargs(b.model, WireMessages(request), request.maxTokens, request.temperature,
      if withTools && request.tools != [] then Some(request.tools) else None)
  }

  /** One tool call as `{id, name, input}`; the arguments stay the unparsed JSON text. */
  function ToolCallOf(tc: OpenAIToolCall): ToolCall {
    ToolCall(tc.id, tc.functionName, JStr(tc.functionArguments))
  }

  /** The tool calls of the first choice; an absent or empty list gives none. */
  function ToolCallsOf(message: OpenAIMessage): (r: seq<ToolCall>)
    ensures message.toolCalls.None? ==> r == []
    ensures message.toolCalls.Some? ==> |r| == |message.toolCalls.value|
  {
    match message.toolCalls
    case None => []
    case Some(calls) => seq(|calls|, i requires 0 <= i < |calls| => ToolCallOf(calls[i]))
  }

  /** Every tool call keeps its id, function name and argument text, in order. */
  lemma ToolCallsKeepCalls(message: OpenAIMessage, i: int)
    requires message.toolCalls.Some? && 0 <= i < |message.toolCalls.value|
    ensures ToolCallsOf(message)[i].id == message.toolCalls.value[i].id
    ensures ToolCallsOf(message)[i].name == message.toolCalls.value[i].functionName
    ensures ToolCallsOf(message)[i].input == JStr(message.toolCalls.value[i].functionArguments)
  {
  }

  /** The `for tc in ...tool_calls: tool_calls.append(...)` loop, behind its truthiness test. */
  method CollectToolCalls(message: OpenAIMessage) returns (toolCalls: seq<ToolCall>)
    ensures toolCalls == ToolCallsOf(message)
  {
    toolCalls := [];
    if message.toolCalls.Some? && message.toolCalls.value != [] {
      var calls := message.toolCalls.value;
      var i := 0;
      while i < |calls|
        invariant 0 <= i <= |calls|
        invariant toolCalls == ToolCallsOf(message)[..i]
      {
        toolCalls := toolCalls + [ToolCallOf(calls[i])];
        i := i + 1;
      }
    }
  }

  /** The response `complete` builds from a reply, in the order Python reads the reply's attributes. */
  function ResponseOf(reply: OpenAIReply): (r: Result<CompletionResponse>)
    ensures reply.choices == [] ==> r == Err(NoChoices)
    ensures reply.choices != [] && reply.usage.None? ==> r == Err(NoUsage)
    ensures r.Ok? ==> r.value.content == reply.choices[0].content.GetOr("") && r.value.model == reply.model
    ensures r.Ok? ==> r.value.usage == UsageMap(reply.usage.value.promptTokens, reply.usage.value.completionTokens)
    ensures r.Ok? ==> r.value.toolCalls == ToolCallsOf(reply.choices[0])
  {
    if reply.choices == [] then Err(NoChoices)
    else if reply.usage.None? then Err(NoUsage)
    else
      var first := reply.choices[0];
      var usage := reply.usage.value;
      Ok(CompletionResponse(first.content.GetOr(""), reply.model,
        UsageMap(usage.promptTokens, usage.completionTokens), ToolCallsOf(first), Some(OpenAIRaw(reply))))
  }

  function CompleteSpec(b: Backend, request: CompletionRequest, api: CreateApi): Result<CompletionResponse> {
    match api(b.apiKey, KwargsFor(b, request, true))
    case Err(e) => Err(e)
    case Ok(reply) => ResponseOf(reply)
  }

  /** `complete`: succeeds exactly when the API answers with at least one choice and a usage record. */
  method Complete(b: Backend, request: CompletionRequest, api: CreateApi) returns (r: Result<CompletionResponse>)
    ensures r == CompleteSpec(b, request, api)
    ensures r.Ok? <==> (var reply := api(b.apiKey, KwargsFor(b, request, true));
      reply.Ok? && reply.value.choices != [] && reply.value.usage.Some?)
  {
    var messages := BuildMessages(request);
    var kwargs := Kwargs(b.model, messages, request.maxTokens, request.temperature, None);
    if request.tools != [] {
      kwargs := kwargs.(tools := Some(request.tools));
    }
    var reply := api(b.apiKey, kwargs);
    if reply.Err? {
      return Err(reply.error);
    }
    if reply.value.choices == [] {
      return Err(NoChoices);
    }
    var toolCalls := CollectToolCalls(reply.value.choices[0]);
    var content := reply.value.choices[0].content.GetOr("");
    if reply.value.usage.None? {
      return Err(NoUsage);
    }
    var usage := UsageMap(reply.value.usage.value.promptTokens, reply.value.usage.value.completionTokens);
    r := Ok(CompletionResponse(content, reply.value.model, usage, toolCalls, Some(OpenAIRaw(reply.value))));
  }

  /** The fragments the chunks yield, or `IndexError` at the first chunk without choices. */
  function Fragments(chunks: seq<Chunk>): Result<seq<string>> {
    if chunks == [] then Ok([])
    else
      match Fragments(chunks[..|chunks| - 1])
      case Err(e) => Err(e)
      case Ok(init) =>
        var last := chunks[|chunks| - 1];
        if last.deltas == [] then Err(NoChoices)
        else
          var text := last.deltas[0].GetOr("");
          Ok(init + if text != "" then [text] else [])
  }

  /** The text of the first choice of every chunk, absent text read as empty. */
  function FirstDeltas(chunks: seq<Chunk>): (r: seq<string>)
    requires forall i :: 0 <= i < |chunks| ==> chunks[i].deltas != []
    ensures |r| == |chunks|
  {
    seq(|chunks|, i requires 0 <= i < |chunks| => chunks[i].deltas[0].GetOr(""))
  }

  /** The stream fails exactly when some chunk has no choices; otherwise it yields the non-empty first deltas. */
  lemma {:induction false} FragmentsAreNonEmptyDeltas(chunks: seq<Chunk>)
    ensures Fragments(chunks).Ok? <==> forall i :: 0 <= i < |chunks| ==> chunks[i].deltas != []
    ensures Fragments(chunks).Ok? ==> Fragments(chunks).value == NonEmpty(FirstDeltas(chunks))
  {
    if chunks != [] {
      var init := chunks[..|chunks| - 1];
      FragmentsAreNonEmptyDeltas(init);
      if Fragments(chunks).Ok? {
        assert FirstDeltas(chunks)[..|chunks| - 1] == FirstDeltas(init);
      }
      if forall i :: 0 <= i < |chunks| ==> chunks[i].deltas != [] {
        assert forall i :: 0 <= i < |init| ==> init[i].deltas == chunks[i].deltas;
      }
    }
  }

  /** The `async for chunk in stream: if chunk.choices[0].delta.content: yield ...` loop. */
  method YieldDeltas(chunks: seq<Chunk>) returns (r: Result<seq<string>>)
    ensures r == Fragments(chunks)
  {
    var out: seq<string> := [];
    var i := 0;
    while i < |chunks|
      invariant 0 <= i <= |chunks|
      invariant Fragments(chunks[..i]) == Ok(out)
    {
      assert chunks[..i + 1][..i] == chunks[..i];
      if chunks[i].deltas == [] {
        FailureSticks(chunks, i + 1);
        return Err(NoChoices);
      }
      var delta := chunks[i].deltas[0];
      ghost var text := delta.GetOr("");
      assert Fragments(chunks[..i + 1]) == Ok(out + if text != "" then [text] else []);
      if delta.Some? && delta.value != "" {
        out := out + [delta.value];
      } else {
        assert out + [] == out;
      }
      i := i + 1;
    }
    assert chunks[..i] == chunks;
    r := Ok(out);
  }

  /** Once a prefix of the stream has failed, the whole stream fails with the same error. */
  lemma {:induction false} FailureSticks(chunks: seq<Chunk>, n: nat)
    requires n <= |chunks| && Fragments(chunks[..n]).Err?
    ensures Fragments(chunks) == Fragments(chunks[..n])
    decreases |chunks| - n
  {
    if n == |chunks| {
      assert chunks[..n] == chunks;
    } else {
      assert chunks[..n + 1][..n] == chunks[..n];
      FailureSticks(chunks, n + 1);
    }
  }

  function StreamSpec(b: Backend, request: CompletionRequest, api: StreamApi): Result<seq<string>> {
    match api(b.apiKey, KwargsFor(b, request, false))
    case Err(e) => Err(e)
    case Ok(chunks) => Fragments(chunks)
  }

  /** `stream_complete`: the same messages without `tools`; only non-empty first-choice deltas are yielded. */
  method StreamComplete(b: Backend, request: CompletionRequest, api: StreamApi) returns (r: Result<seq<string>>)
    ensures r == StreamSpec(b, request, api)
    ensures KwargsFor(b, request, false).tools == None
  {
    var messages := BuildMessages(request);
    var chunks := api(b.apiKey, Kwargs(b.model, messages, request.maxTokens, request.temperature, None));
    if chunks.Err? {
      return Err(chunks.error);
    }
    r := YieldDeltas(chunks.value);
  }
}
