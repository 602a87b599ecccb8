/** `GeminiBackend`: no system channel, so the system text is prefixed onto the first user message. */
module GeminiBackend {
  import opened Wrappers
  import opened ProviderWire
  import opened PyText
  import opened BackendBase

  const DefaultModel: string := "gemini-2.0-flash"

  datatype Backend = Backend(apiKey: string, model: string)

  /** `GeminiBackend(api_key, model)`. */
  function New(apiKey: string, model: Option<string>): (b: Backend)
    ensures b.apiKey == apiKey && b.model == OrDefault(model, DefaultModel) && b.model != ""
  {
    Backend(apiKey, OrDefault(model, DefaultModel))
  }

  /** `generate_content_async(contents, generation_config=...)` of the model built with key and name. */
  type GenerateApi = (string, string, seq<GeminiContent>, GenerationConfig) -> Result<GeminiReply>

  /** The same call with `stream=True`: the `text` of every chunk, in order. */
  type StreamApi = (string, string, seq<GeminiContent>, GenerationConfig) -> Result<seq<string>>

  /** `f"{system}\n\n" if system else ""`. */
  function SystemPrefix(system: string): (p: string)
    ensures system == "" ==> p == ""
    ensures system != "" ==> p == system + "\n\n"
  {
    if system != "" then system + "\n\n" else ""
  }

  /** Gemini knows two roles: "user" stays "user", every other role becomes "model". */
  function RoleOf(role: string): (r: string)
    ensures r == "user" <==> role == "user"
    ensures r == "user" || r == "model"
  {
    if role == "user" then "user" else "model"
  }

  /** The entry for message `i`: only message 0, and only when it is a user message, gets the prefix. */
  function ContentAt(request: CompletionRequest, i: nat): GeminiContent
    requires i < |request.messages|
  {
    var msg := request.messages[i];
    var prefix := SystemPrefix(request.system);
    var text := if i == 0 && msg.role == "user" && prefix != "" then prefix + msg.content else msg.content;
    GeminiContent(RoleOf(msg.role), [text])
  }

  /** The `contents` list `complete` and `stream_complete` build. */
  function Contents(request: CompletionRequest): (r: seq<GeminiContent>)
    ensures |r| == |request.messages|
  {
    seq(|request.messages|, i requires 0 <= i < |request.messages| => ContentAt(request, i))
  }

  /** The `for i, msg in enumerate(request.messages)` loop appending to `contents`. */
  method BuildContents(request: CompletionRequest) returns (contents: seq<GeminiContent>)
    ensures contents == Contents(request)
  {
    contents := [];
    var prefix := SystemPrefix(request.system);
    var i := 0;
    while i < |request.messages|
      invariant 0 <= i <= |request.messages|
      invariant contents == Contents(request)[..i]
    {
      var msg := request.messages[i];
      var content := msg.content;
      if i == 0 && msg.role == "user" && prefix != "" {
        content := prefix + content;
      }
      var role := if msg.role == "user" then "user" else "model";
      contents := contents + [GeminiContent(role, [content])];
      i := i + 1;
    }
  }

  /** Without a leading user message the system text is dropped: the contents are those of the request without it. */
  lemma SystemDroppedWithoutLeadingUser(request: CompletionRequest)
    requires request.messages == [] || request.messages[0].role != "user"
    ensures Contents(request) == Contents(request.(system := ""))
  {
    var plain := request.(system := "");
    forall i | 0 <= i < |request.messages|
      ensures Contents(request)[i] == Contents(plain)[i]
    {
    }
  }

  /** With a leading user message, that message alone carries the system text, before its own text. */
  lemma SystemPrefixedOnLeadingUser(request: CompletionRequest)
    requires request.messages != [] && request.messages[0].role == "user"
    ensures Contents(request)[0] == GeminiContent("user", [SystemPrefix(request.system) + request.messages[0].content])
    ensures Contents(request)[1..] == Contents(request.(system := ""))[1..]
  {
    var plain := request.(system := "");
    assert SystemPrefix(request.system) == "" ==> SystemPrefix(request.system) + request.messages[0].content == request.messages[0].content;
    assert |Contents(request)[1..]| == |Contents(plain)[1..]|;
    forall i | 0 <= i < |Contents(request)[1..]|
      ensures Contents(request)[1..][i] == Contents(plain)[1..][i]
    {
      assert Contents(request)[1..][i] == ContentAt(request, i + 1);
    }
  }

  /** Usage is both counts when the reply carries usage metadata, and the empty mapping otherwise. */
  function UsageOf(reply: GeminiReply): (u: map<string, int>)
    ensures reply.usageMetadata.None? ==> u == map[]
    ensures reply.usageMetadata.Some? ==> u.Keys == {"input_tokens", "output_tokens"}
  {
    match reply.usageMetadata
    case None => map[]
    case Some(m) => UsageMap(m.promptTokenCount, m.candidatesTokenCount)
  }

  function ConfigOf(request: CompletionRequest): GenerationConfig {
    GenerationConfig(request.temperature, request.maxTokens)
  }

  function CompleteSpec(b: Backend, request: CompletionRequest, api: GenerateApi): Result<CompletionResponse> {
    match api(b.apiKey, b.model, Contents(request), ConfigOf(request))
    case Err(e) => Err(e)
    case Ok(reply) =>
      match reply.text
      case Err(e) => Err(e)
      case Ok(text) => Ok(CompletionResponse(text, b.model, UsageOf(reply), [], Some(GeminiRaw(reply))))
  }

  /** `complete`: the reply's model is the backend's own, and Gemini never reports tool calls. */
  method Complete(b: Backend, request: CompletionRequest, api: GenerateApi) returns (r: Result<CompletionResponse>)
    ensures r == CompleteSpec(b, request, api)
    ensures r.Ok? ==> r.value.model == b.model && r.value.toolCalls == []
    ensures r.Ok? ==> r.value.usage == map[] || r.value.usage.Keys == {"input_tokens", "output_tokens"}
  {
    var contents := BuildContents(request);
    var reply := api(b.apiKey, b.model, contents, GenerationConfig(request.temperature, request.maxTokens));
    if reply.Err? {
      return Err(reply.error);
    }
    var usage: map<string, int> := map[];
    if reply.value.usageMetadata.Some? {
      var m := reply.value.usageMetadata.value;
      usage := UsageMap(m.promptTokenCount, m.candidatesTokenCount);
    }
    if reply.value.text.Err? {
      return Err(reply.value.text.error);
    }
    r := Ok(CompletionResponse(reply.value.text.value, b.model, usage, [], Some(GeminiRaw(reply.value))));
  }

  function StreamSpec(b: Backend, request: CompletionRequest, api: StreamApi): Result<seq<string>> {
    match api(b.apiKey, b.model, Contents(request), ConfigOf(request))
    case Err(e) => Err(e)
    case Ok(chunks) => Ok(NonEmpty(chunks))
  }

  /** `stream_complete`: yields the text of every chunk whose text is non-empty, in order. */
  method StreamComplete(b: Backend, request: CompletionRequest, api: StreamApi) returns (r: Result<seq<string>>)
    ensures r == StreamSpec(b, request, api)
    ensures r.Ok? ==> forall i :: 0 <= i < |r.value| ==> r.value[i] != ""
  {
    var contents := BuildContents(request);
    var chunks := api(b.apiKey, b.model, contents, GenerationConfig(request.temperature, request.maxTokens));
    if chunks.Err? {
      return Err(chunks.error);
    }
    var out := YieldNonEmpty(chunks.value);
    r := Ok(out);
  }
}
