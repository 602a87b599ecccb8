/** `ClaudeBackend`: requests as Anthropic Messages API keyword arguments, replies folded back. */
module ClaudeBackend {
  import opened Wrappers
  import opened JsonValue
  import opened ProviderWire
  import opened PyText
  import opened BackendBase

  const DefaultModel: string := "claude-sonnet-4-20250514"

  /** An instance: its API key (the client is built from it) and its model name. */
  datatype Backend = Backend(apiKey: string, model: string)

  /** `ClaudeBackend(api_key, model)`. */
  function New(apiKey: string, model: Option<string>): (b: Backend)
    ensures b.apiKey == apiKey && b.model == OrDefault(model, DefaultModel) && b.model != ""
  {
    Backend(apiKey, OrDefault(model, DefaultModel))
  }

  /** The keyword arguments of `messages.create` / `messages.stream`; `None` is an absent key. */
  datatype Kwargs = Kwargs(
    model: string,
    maxTokens: int,
    messages: seq<WireMessage>,
    temperature: real,
    system: Option<string>,
    tools: Option<seq<Json>>)

  /** `client.messages.create(**kwargs)` for the client made with the given key. */
  type CreateApi = (string, Kwargs) -> Result<ClaudeReply>

  /** The `text_stream` of `client.messages.stream(**kwargs)`, read to its end. */
  type StreamApi = (string, Kwargs) -> Result<seq<string>>

  /** The arguments a request becomes; `tools` is only ever sent by `complete`. */
  function KwargsFor(b: Backend, request: CompletionRequest, withTools: bool): (k: Kwargs)
    ensures k.model == b.model && k.maxTokens == request.maxTokens && k.temperature == request.temperature
    ensures FromWire(k.messages) == request.messages
    ensures k.system.Some? <==> request.system != ""
    ensures k.system.Some? ==> k.system.value == request.system
    ensures k.tools.Some? <==> withTools && request.tools != []
    ensures k.tools.Some? ==> k.tools.value == request.tools
  {
    WireRoundTrip(request.messages);
    Kwargs(
      b.model, request.maxTokens, ToWire(request.messages), request.temperature,
      if request.system != "" then Some(request.system) else None,
      if withTools && request.tools != [] then Some(request.tools) else None)
  }

  /** The text of the "text" blocks, concatenated in the order the reply emits them. */
  function TextOf(blocks: seq<ClaudeBlock>): string {
    if blocks == [] then ""
    else TextOf(blocks[..|blocks| - 1]) + match blocks[|blocks| - 1] {
      case TextBlock(t) => t
      case _ => ""
    }
  }

  /** The "tool_use" blocks as `{id, name, input}`, in the order the reply emits them. */
  function ToolUsesOf(blocks: seq<ClaudeBlock>): seq<ToolCall> {
    if blocks == [] then []
    else ToolUsesOf(blocks[..|blocks| - 1]) + match blocks[|blocks| - 1] {
      case ToolUseBlock(id, name, input) => [ToolCall(id, name, input)]
      case _ => []
    }
  }

  /** Folding a reply split in two is folding each part and joining the results. */
  lemma FoldAppend(a: seq<ClaudeBlock>, b: seq<ClaudeBlock>)
    ensures TextOf(a + b) == TextOf(a) + TextOf(b)
    ensures ToolUsesOf(a + b) == ToolUsesOf(a) + ToolUsesOf(b)
  {
    TextOfAppend(a, b);
    ToolUsesOfAppend(a, b);
  }

  lemma {:induction false} TextOfAppend(a: seq<ClaudeBlock>, b: seq<ClaudeBlock>)
    ensures TextOf(a + b) == TextOf(a) + TextOf(b)
    decreases |b|
  {
    if b == [] {
      assert a + b == a;
    } else {
      var init := b[..|b| - 1];
      TextOfAppend(a, init);
      assert (a + b)[..|a + b| - 1] == a + init;
      assert (a + b)[|a + b| - 1] == b[|b| - 1];
    }
  }

  lemma {:induction false} ToolUsesOfAppend(a: seq<ClaudeBlock>, b: seq<ClaudeBlock>)
    ensures ToolUsesOf(a + b) == ToolUsesOf(a) + ToolUsesOf(b)
    decreases |b|
  {
    if b == [] {
      assert a + b == a;
    } else {
      var init := b[..|b| - 1];
      ToolUsesOfAppend(a, init);
      assert (a + b)[..|a + b| - 1] == a + init;
      assert (a + b)[|a + b| - 1] == b[|b| - 1];
    }
  }

  /** Exactly the "tool_use" blocks become tool calls; text and other blocks never do. */
  lemma {:induction false} ToolUsesAreToolBlocks(blocks: seq<ClaudeBlock>)
    ensures forall c :: c in ToolUsesOf(blocks) <==> ToolUseBlock(c.id, c.name, c.input) in blocks
  {
    if blocks != [] {
      var init := blocks[..|blocks| - 1];
      ToolUsesAreToolBlocks(init);
      assert blocks == init + [blocks[|blocks| - 1]];
    }
  }

  /** A reply without "text" blocks has empty content. */
  lemma {:induction false} TextNeedsTextBlocks(blocks: seq<ClaudeBlock>)
    requires forall i :: 0 <= i < |blocks| ==> !blocks[i].TextBlock?
    ensures TextOf(blocks) == ""
  {
    if blocks != [] {
      TextNeedsTextBlocks(blocks[..|blocks| - 1]);
    }
  }

  /** The loop over `response.content`: `content +=` for text, `tool_calls.append` for tool use. */
  method FoldBlocks(blocks: seq<ClaudeBlock>) returns (content: string, toolCalls: seq<ToolCall>)
    ensures content == TextOf(blocks) && toolCalls == ToolUsesOf(blocks)
  {
    content, toolCalls := "", [];
    var i := 0;
    while i < |blocks|
      invariant 0 <= i <= |blocks|
      invariant content == TextOf(blocks[..i]) && toolCalls == ToolUsesOf(blocks[..i])
    {
      assert blocks[..i + 1][..i] == blocks[..i];
      match blocks[i] {
        case TextBlock(t) =>
          content := content + t;
        case ToolUseBlock(id, name, input) =>
          toolCalls := toolCalls + [ToolCall(id, name, input)];
        case OtherBlock(_) =>
      }
      i := i + 1;
    }
    assert blocks[..i] == blocks;
  }

  /** The response `complete` builds from a reply. */
  function ResponseOf(reply: ClaudeReply): (r: CompletionResponse)
    ensures r.model == reply.model && r.rawResponse == Some(ClaudeRaw(reply))
    ensures r.usage == UsageMap(reply.usage.inputTokens, reply.usage.outputTokens)
  {
    CompletionResponse(
      TextOf(reply.content), reply.model,
      UsageMap(reply.usage.inputTokens, reply.usage.outputTokens),
      ToolUsesOf(reply.content), Some(ClaudeRaw(reply)))
  }

  function CompleteSpec(b: Backend, request: CompletionRequest, api: CreateApi): Result<CompletionResponse> {
    match api(b.apiKey, KwargsFor(b, request, true))
    case Err(e) => Err(e)
    case Ok(reply) => Ok(ResponseOf(reply))
  }

  /** `complete`: builds the arguments, calls the API, folds the reply; an API failure propagates. */
  method Complete(b: Backend, request: CompletionRequest, api: CreateApi) returns (r: Result<CompletionResponse>)
    ensures r == CompleteSpec(b, request, api)
    ensures r.Err? <==> api(b.apiKey, KwargsFor(b, request, true)).Err?
    ensures r.Ok? ==> r.value.usage.Keys == {"input_tokens", "output_tokens"}
  {
    var kwargs := Kwargs(b.model, request.maxTokens, ToWire(request.messages), request.temperature, None, None);
    if request.system != "" {
      kwargs := kwargs.(system := Some(request.system));
    }
    if request.tools != [] {
      kwargs := kwargs.(tools := Some(request.tools));
    }
    var reply := api(b.apiKey, kwargs);
    if reply.Err? {
      return Err(reply.error);
    }
    var content, toolCalls := FoldBlocks(reply.value.content);
    var usage := UsageMap(reply.value.usage.inputTokens, reply.value.usage.outputTokens);
    r := Ok(CompletionResponse(content, reply.value.model, usage, toolCalls, Some(ClaudeRaw(reply.value))));
  }

  /** `stream_complete`: the same arguments without `tools`; the text fragments pass through unchanged. */
  function StreamSpec(b: Backend, request: CompletionRequest, api: StreamApi): (r: Result<seq<string>>)
    ensures KwargsFor(b, request, false).tools == None
    ensures r == api(b.apiKey, KwargsFor(b, request, false))
  {
    api(b.apiKey, KwargsFor(b, request, false))
  }
}
