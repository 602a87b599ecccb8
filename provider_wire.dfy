/**
 * The shapes the provider SDKs (anthropic, google.generativeai, openai) accept and
 * return. The SDK calls themselves are oracles passed to the backends as functions.
 */
module ProviderWire {
  import opened Wrappers
  import opened JsonValue

  /** A `{"role": ..., "content": ...}` message as Anthropic and OpenAI accept it. */
  datatype WireMessage = WireMessage(role: string, content: string)

  /** A content block of an Anthropic reply; `OtherBlock` is any block type but "text" and "tool_use". */
  datatype ClaudeBlock =
    | TextBlock(text: string)
    | ToolUseBlock(id: string, name: string, input: Json)
    | OtherBlock(kind: string)

  datatype ClaudeUsage = ClaudeUsage(inputTokens: int, outputTokens: int)

  datatype ClaudeReply = ClaudeReply(content: seq<ClaudeBlock>, model: string, usage: ClaudeUsage)

  /** A `{"role": ..., "parts": [...]}` entry of Gemini's `contents`. */
  datatype GeminiContent = GeminiContent(role: string, parts: seq<string>)

  datatype GenerationConfig = GenerationConfig(temperature: real, maxOutputTokens: int)

  datatype GeminiUsage = GeminiUsage(promptTokenCount: int, candidatesTokenCount: int)

  /** `text` is `Err` when reading `response.text` raises (no usable candidate);
      `usageMetadata` is `None` when the attribute is missing or empty. */
  datatype GeminiReply = GeminiReply(text: Result<string>, usageMetadata: Option<GeminiUsage>)

  datatype OpenAIToolCall = OpenAIToolCall(id: string, functionName: string, functionArguments: string)

  /** `choices[i].message`: its `content` and `tool_calls` may each be `None`. */
  datatype OpenAIMessage = OpenAIMessage(content: Option<string>, toolCalls: Option<seq<OpenAIToolCall>>)

  datatype OpenAIUsage = OpenAIUsage(promptTokens: int, completionTokens: int)

  datatype OpenAIReply = OpenAIReply(choices: seq<OpenAIMessage>, model: string, usage: Option<OpenAIUsage>)

  /** The provider reply a `CompletionResponse` keeps for debugging. */
  datatype RawReply = ClaudeRaw(claude: ClaudeReply) | GeminiRaw(gemini: GeminiReply) | OpenAIRaw(openai: OpenAIReply)
}
