/**
 * `create_backend` and the calls every backend answers (`complete`, `stream_complete`,
 * and `chat`, which `BaseBackend` defines once over the provider's own `complete`).
 */
module Backends {
  import opened Wrappers
  import opened PyText
  import opened BackendBase
  import ClaudeBackend
  import GeminiBackend
  import OpenAIBackend
  import AntigravityBackend

  /** A backend instance of any of the four providers. */
  datatype AnyBackend =
    | ClaudeInstance(claude: ClaudeBackend.Backend)
    | GeminiInstance(gemini: GeminiBackend.Backend)
    | OpenAIInstance(openai: OpenAIBackend.Backend)
    | AntigravityInstance(antigravity: AntigravityBackend.Backend)
  {
    /** The class attribute `backend_type`. */
    function Type(): BackendType {
      match this
      case ClaudeInstance(_) => Claude
      case GeminiInstance(_) => Gemini
      case OpenAIInstance(_) => OpenAI
      case AntigravityInstance(_) => Antigravity
    }

    function Model(): string {
      match this
      case ClaudeInstance(b) => b.model
      case GeminiInstance(b) => b.model
      case OpenAIInstance(b) => b.model
      case AntigravityInstance(b) => b.model
    }

    function ApiKey(): string {
      match this
      case ClaudeInstance(b) => b.apiKey
      case GeminiInstance(b) => b.apiKey
      case OpenAIInstance(b) => b.apiKey
      case AntigravityInstance(b) => b.apiKey
    }
  }

  /** The provider SDK calls, one pair (plain and streamed) per SDK. */
  datatype Apis = Apis(
    claudeCreate: ClaudeBackend.CreateApi,
    claudeStream: ClaudeBackend.StreamApi,
    geminiGenerate: GeminiBackend.GenerateApi,
    geminiStream: GeminiBackend.StreamApi,
    openaiCreate: OpenAIBackend.CreateApi,
    openaiStream: OpenAIBackend.StreamApi)

  /** What `create_backend` accepts as its type: a name in any letter case, or a `BackendType`. */
  datatype BackendTag = TagName(name: string) | TagType(backendType: BackendType)

  /** `DEFAULT_MODEL` of each backend class. */
  function DefaultModel(t: BackendType): string {
    match t
    case Claude => ClaudeBackend.DefaultModel
    case Gemini => GeminiBackend.DefaultModel
    case OpenAI => OpenAIBackend.DefaultModel
    case Antigravity => AntigravityBackend.DefaultModel
  }

  /** `backend_map[t](api_key, model)`. */
  function Construct(t: BackendType, apiKey: string, model: Option<string>): (b: AnyBackend)
    ensures b.Type() == t && b.ApiKey() == apiKey
    ensures b.Model() == OrDefault(model, DefaultModel(t))
  {
    match t
    case Claude => ClaudeInstance(ClaudeBackend.New(apiKey, model))
    case Gemini => GeminiInstance(GeminiBackend.New(apiKey, model))
    case OpenAI => OpenAIInstance(OpenAIBackend.New(apiKey, model))
    case Antigravity => AntigravityInstance(AntigravityBackend.New(apiKey, model))
  }

  /** `create_backend`: a name is lower-cased and looked up; an unknown name is the enum's `ValueError`. */
  function CreateBackend(tag: BackendTag, apiKey: string, model: Option<string>): Result<AnyBackend> {
    match tag
    case TagType(t) => Ok(Construct(t, apiKey, model))
    case TagName(name) =>
      match BackendTypeOf(Lower(name))
      case Err(e) => Err(e)
      case Ok(t) => Ok(Construct(t, apiKey, model))
  }

  /** A name is accepted exactly when its lower-cased form is one of the four values, and it builds that backend. */
  lemma CreateBackendByName(name: string, apiKey: string, model: Option<string>)
    ensures CreateBackend(TagName(name), apiKey, model).Ok? <==> Lower(name) in {"claude", "gemini", "openai", "antigravity"}
    ensures CreateBackend(TagName(name), apiKey, model).Ok? ==>
      var b := CreateBackend(TagName(name), apiKey, model).value;
      b.Type().Value() == Lower(name) && b.ApiKey() == apiKey && b.Model() == OrDefault(model, DefaultModel(b.Type()))
    ensures CreateBackend(TagName(name), apiKey, model).Err? ==>
      CreateBackend(TagName(name), apiKey, model).error == "'" + Lower(name) + "' is not a valid BackendType"
  {
  }

  /** Naming a backend in upper case builds the same instance as passing its `BackendType`. */
  lemma CreateBackendIgnoresCase(t: BackendType, apiKey: string, model: Option<string>)
    ensures CreateBackend(TagName(Upper(t.Value())), apiKey, model) == CreateBackend(TagType(t), apiKey, model)
  {
    LowerUpper(t.Value());
    BackendTypeValues(t);
  }

  function CompleteSpec(b: AnyBackend, request: CompletionRequest, apis: Apis): Result<CompletionResponse> {
    match b
    case ClaudeInstance(c) => ClaudeBackend.CompleteSpec(c, request, apis.claudeCreate)
    case GeminiInstance(g) => GeminiBackend.CompleteSpec(g, request, apis.geminiGenerate)
    case OpenAIInstance(o) => OpenAIBackend.CompleteSpec(o, request, apis.openaiCreate)
    case AntigravityInstance(a) => AntigravityBackend.CompleteSpec(a, request, apis.claudeCreate)
  }

  /** `backend.complete(request)`, answered by the instance's own provider. */
  method Complete(b: AnyBackend, request: CompletionRequest, apis: Apis) returns (r: Result<CompletionResponse>)
    ensures r == CompleteSpec(b, request, apis)
  {
    match b {
      case ClaudeInstance(c) => r := ClaudeBackend.Complete(c, request, apis.claudeCreate);
      case GeminiInstance(g) => r := GeminiBackend.Complete(g, request, apis.geminiGenerate);
      case OpenAIInstance(o) => r := OpenAIBackend.Complete(o, request, apis.openaiCreate);
      case AntigravityInstance(a) => r := AntigravityBackend.Complete(a, request, apis.claudeCreate);
    }
  }

  function ChatSpec(b: AnyBackend, prompt: string, system: string, temperature: real, maxTokens: int, apis: Apis): Result<string> {
    ContentOf(CompleteSpec(b, ChatRequest(prompt, system, temperature, maxTokens), apis))
  }

  /** `chat`: the content of `complete` on one user message holding the prompt; a failure of `complete` propagates. */
  method Chat(b: AnyBackend, prompt: string, system: string, temperature: real, maxTokens: int, apis: Apis) returns (r: Result<string>)
    ensures r == ChatSpec(b, prompt, system, temperature, maxTokens, apis)
    ensures var response := CompleteSpec(b, ChatRequest(prompt, system, temperature, maxTokens), apis);
      (r.Ok? <==> response.Ok?) && (r.Ok? ==> r.value == response.value.content) && (r.Err? ==> r.error == response.error)
  {
    var request := CompletionRequest([Message("user", prompt)], system, maxTokens, temperature, []);
    var response := Complete(b, request, apis);
    if response.Err? {
      return Err(response.error);
    }
    r := Ok(response.value.content);
  }

  /** An Antigravity `agent_task` is `chat` of its prompt with no system text and the default settings. */
  lemma AgentTaskIsChat(a: AntigravityBackend.Backend, task: string, context: string, outputFormat: string, apis: Apis)
    ensures AntigravityBackend.AgentTask(a, task, context, outputFormat, apis.claudeCreate)
      == ChatSpec(AntigravityInstance(a), AntigravityBackend.AgentPrompt(task, context, outputFormat), "", 0.7, 4096, apis)
  {
  }

  function StreamSpec(b: AnyBackend, request: CompletionRequest, apis: Apis): Result<seq<string>> {
    match b
    case ClaudeInstance(c) => ClaudeBackend.StreamSpec(c, request, apis.claudeStream)
    case GeminiInstance(g) => GeminiBackend.StreamSpec(g, request, apis.geminiStream)
    case OpenAIInstance(o) => OpenAIBackend.StreamSpec(o, request, apis.openaiStream)
    case AntigravityInstance(a) => AntigravityBackend.StreamSpec(a, request, apis.claudeStream)
  }

  /** `backend.stream_complete(request)`, read to its end. */
  method StreamComplete(b: AnyBackend, request: CompletionRequest, apis: Apis) returns (r: Result<seq<string>>)
    ensures r == StreamSpec(b, request, apis)
  {
    match b {
      case ClaudeInstance(c) => r := ClaudeBackend.StreamSpec(c, request, apis.claudeStream);
      case GeminiInstance(g) => r := GeminiBackend.StreamComplete(g, request, apis.geminiStream);
      case OpenAIInstance(o) => r := OpenAIBackend.StreamComplete(o, request, apis.openaiStream);
      case AntigravityInstance(a) => r := AntigravityBackend.StreamSpec(a, request, apis.claudeStream);
    }
  }
}
