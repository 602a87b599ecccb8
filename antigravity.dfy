/** `AntigravityBackend`: a Claude backend whose every request carries an agent-style system prompt. */
module AntigravityBackend {
  import opened Wrappers
  import opened PyText
  import opened BackendBase
  import ClaudeBackend

  const DefaultModel: string := "claude-sonnet-4-20250514"

  /** `ANTIGRAVITY_SYSTEM_PROMPT`. */
  const SystemPrompt: string :=
    "你是一个强大的 AI Agent，具有以下能力：\n\n"
    + "1. **深度分析能力**：能够对复杂问题进行多角度、多层次的分析\n"
    + "2. **结构化思维**：输出结构清晰、层次分明的内容\n"
    + "3. **创意生成**：能够产生新颖、有洞察力的观点\n"
    + "4. **数据处理**：能够处理和分析各种格式的数据\n\n"
    + "工作原则：\n"
    + "- 始终提供高质量、深思熟虑的回答\n"
    + "- 使用清晰的 Markdown 格式组织输出\n"
    + "- 在分析时考虑多个维度和视角\n"
    + "- 提供可操作的建议和洞察\n\n"
    + "请以专业、深入的方式完成用户的任务。"

  /** What separates the agent prompt from the caller's own system text. */
  const Separator: string := "\n\n---\n\n"

  /** An instance and the Claude backend it delegates to, built with the same key and model. */
  datatype Backend = Backend(apiKey: string, model: string, inner: ClaudeBackend.Backend)

  /** `AntigravityBackend(api_key, model)`. */
  function New(apiKey: string, model: Option<string>): (b: Backend)
    ensures b.apiKey == apiKey && b.model == OrDefault(model, DefaultModel)
    ensures b.inner == ClaudeBackend.Backend(apiKey, b.model)
  {
    var m := OrDefault(model, DefaultModel);
    Backend(apiKey, m, ClaudeBackend.New(apiKey, Some(m)))
  }

  /** The system text sent: the agent prompt alone, or followed by the separator and the caller's text. */
  function EnhancedSystem(system: string): (e: string)
    ensures system == "" ==> e == SystemPrompt
    ensures system != "" ==> e == SystemPrompt + Separator + system
    ensures StartsWith(e, SystemPrompt)
  {
    if system != "" then SystemPrompt + Separator + system else SystemPrompt
  }

  /** Reads the caller's system text back out of an enhanced one; `None` for text no caller could produce. */
  function CallerSystem(enhanced: string): Option<string> {
    var head := SystemPrompt + Separator;
    if enhanced == SystemPrompt then Some("")
    else if |enhanced| > |head| && enhanced[..|head|] == head then Some(enhanced[|head|..])
    else None
  }

  /** Enhancing loses nothing: the caller's system text, empty or not, is recovered exactly. */
  lemma EnhancedSystemRoundTrip(system: string)
    ensures CallerSystem(EnhancedSystem(system)) == Some(system)
  {
    var head := SystemPrompt + Separator;
    if system != "" {
      var e := EnhancedSystem(system);
      assert e == head + system;
      assert e[..|head|] == head && e[|head|..] == system;
    }
  }

  /** So two requests with different system texts never send the same system prompt. */
  lemma EnhancedSystemInjective(s1: string, s2: string)
    requires EnhancedSystem(s1) == EnhancedSystem(s2)
    ensures s1 == s2
  {
    EnhancedSystemRoundTrip(s1);
    EnhancedSystemRoundTrip(s2);
  }

  /** The request handed to Claude: the same messages and limits, the enhanced system text, and the tools only when kept. */
  function EnhancedRequest(request: CompletionRequest, keepTools: bool): (r: CompletionRequest)
    ensures r.messages == request.messages && r.maxTokens == request.maxTokens && r.temperature == request.temperature
    ensures r.system == EnhancedSystem(request.system)
    ensures r.tools == (if keepTools then request.tools else [])
  {
    CompletionRequest(request.messages, EnhancedSystem(request.system), request.maxTokens, request.temperature,
      if keepTools then request.tools else [])
  }

  function CompleteSpec(b: Backend, request: CompletionRequest, api: ClaudeBackend.CreateApi): Result<CompletionResponse> {
    ClaudeBackend.CompleteSpec(b.inner, EnhancedRequest(request, true), api)
  }

  /** Claude always receives a system prompt, and it is the caller's text enhanced exactly once. */
  lemma CompleteSendsEnhancedSystem(b: Backend, request: CompletionRequest)
    ensures ClaudeBackend.KwargsFor(b.inner, EnhancedRequest(request, true), true).system == Some(EnhancedSystem(request.system))
    ensures ClaudeBackend.KwargsFor(b.inner, EnhancedRequest(request, false), false).system == Some(EnhancedSystem(request.system))
  {
    assert |EnhancedSystem(request.system)| >= |SystemPrompt| > 0;
  }

  /** `complete`: delegates the enhanced request, tools included, to the inner Claude backend. */
  method Complete(b: Backend, request: CompletionRequest, api: ClaudeBackend.CreateApi) returns (r: Result<CompletionResponse>)
    ensures r == CompleteSpec(b, request, api)
    ensures r.Ok? ==> r.value.usage.Keys == {"input_tokens", "output_tokens"}
  {
    var enhanced := SystemPrompt;
    if request.system != "" {
      enhanced := SystemPrompt + Separator + request.system;
    }
    var req := CompletionRequest(request.messages, enhanced, request.maxTokens, request.temperature, request.tools);
    r := ClaudeBackend.Complete(b.inner, req, api);
  }

  /** `stream_complete`: the enhanced request without the caller's tools, streamed through Claude unchanged. */
  function StreamSpec(b: Backend, request: CompletionRequest, api: ClaudeBackend.StreamApi): (r: Result<seq<string>>)
    ensures EnhancedRequest(request, false).tools == []
    ensures r == ClaudeBackend.StreamSpec(b.inner, EnhancedRequest(request, false), api)
  {
    ClaudeBackend.StreamSpec(b.inner, EnhancedRequest(request, false), api)
  }

  /** The instruction for an output format; an unknown format gets none. */
  function FormatInstruction(outputFormat: string): (s: string)
    ensures s != "" <==> outputFormat in {"markdown", "json", "text"}
  {
    if outputFormat == "markdown" then "请使用 Markdown 格式输出，包含适当的标题、列表和代码块。"
    else if outputFormat == "json" then "请以 JSON 格式输出，确保格式有效。"
    else if outputFormat == "text" then "请以纯文本格式输出。"
    else ""
  }

  /** The context line: the labelled context, or nothing when there is no context. */
  function ContextLine(context: string): (s: string)
    ensures context == "" <==> s == ""
  {
    if context != "" then "上下文: " + context else ""
  }

  /** The prompt `agent_task` sends; the blank lines stay even when the context or the instruction is empty. */
  function AgentPrompt(task: string, context: string, outputFormat: string): string {
    PromptHead(task) + ContextLine(context) + PromptTail(outputFormat)
  }

  /** The `任务:` line naming the agent's job, and the blank line after it. */
  function PromptHead(task: string): string {
    "任务: " + task + "\n\n"
  }

  /** A blank line, the format instruction, a blank line and the closing request. */
  function PromptTail(outputFormat: string): string {
    "\n\n" + FormatInstruction(outputFormat) + "\n\n请开始执行任务。"
  }

  /** Text framed by the same head and tail on both sides is the same text. */
  lemma SameFrame(head: string, x: string, y: string, tail: string)
    requires head + x + tail == head + y + tail
    ensures x == y
  {
    var a, b := head + x + tail, head + y + tail;
    assert |x| == |y|;
    assert a[|head|..|head| + |x|] == x;
    assert b[|head|..|head| + |y|] == y;
  }

  /** Different contexts give different context lines. */
  lemma ContextLineInjective(c1: string, c2: string)
    requires ContextLine(c1) == ContextLine(c2)
    ensures c1 == c2
  {
    var tag := "上下文: ";
    if c1 != "" && c2 != "" {
      assert ContextLine(c1)[|tag|..] == c1;
      assert ContextLine(c2)[|tag|..] == c2;
    }
  }

  /** For a given task and format, different contexts give different prompts. */
  lemma AgentPromptKeepsContext(task: string, c1: string, c2: string, outputFormat: string)
    requires AgentPrompt(task, c1, outputFormat) == AgentPrompt(task, c2, outputFormat)
    ensures c1 == c2
  {
    var head, tail := PromptHead(task), PromptTail(outputFormat);
    var l1, l2 := ContextLine(c1), ContextLine(c2);
    SameFrame(head, l1, l2, tail);
    ContextLineInjective(c1, c2);
  }

  /** `agent_task`: the reply `chat` gets for the prompt, which goes through this backend's own `complete`. */
  function AgentTask(b: Backend, task: string, context: string, outputFormat: string, api: ClaudeBackend.CreateApi): Result<string> {
    ContentOf(CompleteSpec(b, ChatRequest(AgentPrompt(task, context, outputFormat), "", DefaultTemperature, DefaultMaxTokens), api))
  }

  /** What Claude receives for an agent task: the prompt as the only user message, the bare agent prompt as system text, no tools. */
  lemma AgentTaskRequest(b: Backend, task: string, context: string, outputFormat: string)
    ensures var k := ClaudeBackend.KwargsFor(b.inner,
      EnhancedRequest(ChatRequest(AgentPrompt(task, context, outputFormat), "", DefaultTemperature, DefaultMaxTokens), true), true);
      && k.messages == [ProviderWire.WireMessage("user", AgentPrompt(task, context, outputFormat))]
      && k.system == Some(SystemPrompt)
      && k.tools == None
      && k.maxTokens == 4096 && k.temperature == 0.7
  {
    var req := EnhancedRequest(ChatRequest(AgentPrompt(task, context, outputFormat), "", DefaultTemperature, DefaultMaxTokens), true);
    assert |SystemPrompt| > 0;
    assert ToWire(req.messages)[0] == ProviderWire.WireMessage("user", AgentPrompt(task, context, outputFormat));
  }
}
