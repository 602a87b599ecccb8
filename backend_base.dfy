/**
 * The provider-independent request and response records, the backend tags, and the
 * parts of `BaseBackend` that every provider shares (`chat`'s request, `model or DEFAULT`).
 */
module BackendBase {
  import opened Wrappers
  import opened JsonValue
  import opened ProviderWire

  /** `BackendType`: the four backends, each with its string value. */
  datatype BackendType = Claude | Gemini | OpenAI | Antigravity {
    function Value(): string {
      match this
      case Claude => "claude"
      case Gemini => "gemini"
      case OpenAI => "openai"
      case Antigravity => "antigravity"
    }
  }

  /** `BackendType(value)`: the member whose value is `value`, else the enum's `ValueError`. The value is quoted with `'` even where Python's `repr` would pick `"` (a value holding `'`). */
  function BackendTypeOf(value: string): (r: Result<BackendType>)
    ensures r.Ok? ==> r.value.Value() == value
    ensures r.Err? ==> forall t: BackendType :: t.Value() != value
  {
    if value == "claude" then Ok(Claude)
    else if value == "gemini" then Ok(Gemini)
    else if value == "openai" then Ok(OpenAI)
    else if value == "antigravity" then Ok(Antigravity)
    else Err("'" + value + "' is not a valid BackendType")
  }

  /** Every tag is found again from its value, and there are exactly four values. */
  lemma BackendTypeValues(t: BackendType)
    ensures BackendTypeOf(t.Value()) == Ok(t)
    ensures t.Value() in {"claude", "gemini", "openai", "antigravity"}
  {
  }

  datatype Message = Message(role: string, content: string)

  const DefaultMaxTokens: int := 4096
  const DefaultTemperature: real := 0.7

  /** `temperature` is carried through unchanged; nothing here computes with it. */
  datatype CompletionRequest = CompletionRequest(
    messages: seq<Message>,
    system: string,
    maxTokens: int,
    temperature: real,
    tools: seq<Json>)

  /** `CompletionRequest(messages=...)` with every other field at its default. */
  function NewRequest(messages: seq<Message>): (r: CompletionRequest)
    ensures r.messages == messages && r.system == ""
    ensures r.maxTokens == 4096 && r.temperature == 0.7 && r.tools == []
  {
    CompletionRequest(messages, "", DefaultMaxTokens, DefaultTemperature, [])
  }

  /** One entry of `tool_calls`: `{"id": ..., "name": ..., "input": ...}`. */
  datatype ToolCall = ToolCall(id: string, name: string, input: Json)

  datatype CompletionResponse = CompletionResponse(
    content: string,
    model: string,
    usage: map<string, int>,
    toolCalls: seq<ToolCall>,
    rawResponse: Option<RawReply>)

  /** `CompletionResponse(content=..., model=...)` with every other field at its default. */
  function NewResponse(content: string, model: string): (r: CompletionResponse)
    ensures r.content == content && r.model == model
    ensures r.usage == map[] && r.toolCalls == [] && r.rawResponse == None
  {
    CompletionResponse(content, model, map[], [], None)
  }

  /** The usage mapping of a provider that reports both counts. */
  function UsageMap(inputTokens: int, outputTokens: int): (u: map<string, int>)
    ensures u.Keys == {"input_tokens", "output_tokens"}
    ensures u["input_tokens"] == inputTokens && u["output_tokens"] == outputTokens
  {
    map["input_tokens" := inputTokens, "output_tokens" := outputTokens]
  }

  /** The request `chat` builds: one user message holding the prompt and no tools. */
  function ChatRequest(prompt: string, system: string, temperature: real, maxTokens: int): (r: CompletionRequest)
    ensures r.messages == [Message("user", prompt)]
    ensures r.system == system && r.temperature == temperature && r.maxTokens == maxTokens
    ensures r.tools == []
  {
    CompletionRequest([Message("user", prompt)], system, maxTokens, temperature, [])
  }

  /** What `chat` returns of `complete`'s outcome: the content, or the same failure. */
  function ContentOf(r: Result<CompletionResponse>): (c: Result<string>)
    ensures c.Ok? <==> r.Ok?
    ensures r.Ok? ==> c.value == r.value.content
    ensures r.Err? ==> c.error == r.error
  {
    match r
    case Ok(resp) => Ok(resp.content)
    case Err(e) => Err(e)
  }

  /** `[{"role": m.role, "content": m.content} for m in messages]`. */
  function ToWire(messages: seq<Message>): (r: seq<WireMessage>)
    ensures |r| == |messages|
  {
    seq(|messages|, i requires 0 <= i < |messages| => WireMessage(messages[i].role, messages[i].content))
  }

  function FromWire(wire: seq<WireMessage>): (r: seq<Message>)
    ensures |r| == |wire|
  {
    seq(|wire|, i requires 0 <= i < |wire| => Message(wire[i].role, wire[i].content))
  }

  /** The wire messages lose nothing: every role and content, in order, comes back. */
  lemma WireRoundTrip(messages: seq<Message>)
    ensures FromWire(ToWire(messages)) == messages
  {
  }

  // ------------------------------------------------------------- streamed fragments

  /** The fragments a stream yields when it skips empty ones (`if text: yield text`). */
  function NonEmpty(fragments: seq<string>): (r: seq<string>)
    ensures |r| <= |fragments|
    ensures forall i :: 0 <= i < |r| ==> r[i] != ""
    ensures forall f :: f in r ==> f in fragments
  {
    if fragments == [] then []
    else
      var last := fragments[|fragments| - 1];
      NonEmpty(fragments[..|fragments| - 1]) + (if last != "" then [last] else [])
  }

  /** The text a sequence of fragments spells out. */
  function Concat(fragments: seq<string>): string {
    if fragments == [] then "" else Concat(fragments[..|fragments| - 1]) + fragments[|fragments| - 1]
  }

  /** Skipping empty fragments never changes the streamed text. */
  lemma {:induction false} NonEmptyKeepsText(fragments: seq<string>)
    ensures Concat(NonEmpty(fragments)) == Concat(fragments)
  {
    if fragments != [] {
      var init := fragments[..|fragments| - 1];
      var last := fragments[|fragments| - 1];
      NonEmptyKeepsText(init);
      if last != "" {
        var r := NonEmpty(init) + [last];
        assert r[..|r| - 1] == NonEmpty(init);
      } else {
        assert NonEmpty(init) + [] == NonEmpty(init);
        assert Concat(fragments) == Concat(init) + "";
      }
    }
  }

  /** A stream with no empty fragment is passed through as it is. */
  lemma {:induction false} NonEmptyKeepsAll(fragments: seq<string>)
    requires forall i :: 0 <= i < |fragments| ==> fragments[i] != ""
    ensures NonEmpty(fragments) == fragments
  {
    if fragments != [] {
      NonEmptyKeepsAll(fragments[..|fragments| - 1]);
      assert fragments == fragments[..|fragments| - 1] + [fragments[|fragments| - 1]];
    }
  }

  /** The `async for chunk in stream: if text: yield text` loop, over a finite stream. */
  method YieldNonEmpty(chunks: seq<string>) returns (out: seq<string>)
    ensures out == NonEmpty(chunks)
  {
    out := [];
    var i := 0;
    while i < |chunks|
      invariant 0 <= i <= |chunks|
      invariant out == NonEmpty(chunks[..i])
    {
      assert chunks[..i + 1][..i] == chunks[..i];
      if chunks[i] != "" {
        out := out + [chunks[i]];
      }
      i := i + 1;
    }
    assert chunks[..i] == chunks;
  }
}
