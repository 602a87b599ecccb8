/** `Settings`: the application configuration and the per-backend API key lookup. */
module Config {
  import opened BackendBase

  /** The settings fields; the environment loading that fills them is not modelled. */
  datatype Settings = Settings(
    anthropicApiKey: string,
    googleApiKey: string,
    openaiApiKey: string,
    defaultBackend: string,
    claudeModel: string,
    geminiModel: string,
    openaiModel: string,
    supabaseUrl: string,
    supabaseKey: string,
    outputDir: string,
    maxConcurrentSkills: int,
    skillTimeout: int)

  /** `Settings()` with nothing set in the environment. */
  function DefaultSettings(): (s: Settings)
    ensures s.anthropicApiKey == "" && s.googleApiKey == "" && s.openaiApiKey == ""
    ensures s.defaultBackend == "claude"
    ensures s.claudeModel == "claude-sonnet-4-20250514" && s.geminiModel == "gemini-2.0-flash" && s.openaiModel == "gpt-4o"
    ensures s.supabaseUrl == "" && s.supabaseKey == "" && s.outputDir == "output"
    ensures s.maxConcurrentSkills == 3 && s.skillTimeout == 300
  {
    Settings("", "", "", "claude", "claude-sonnet-4-20250514", "gemini-2.0-flash", "gpt-4o", "", "", "output", 3, 300)
  }

  /** `default_backend` only ever holds one of the four backend values. */
  predicate ValidSettings(s: Settings) {
    s.defaultBackend in {"claude", "gemini", "openai", "antigravity"}
  }

  /** `get_backend_api_key`: an exact, case-sensitive lookup; Antigravity shares the Anthropic key. */
  function GetBackendApiKey(s: Settings, backend: string): (key: string)
    ensures backend == "claude" ==> key == s.anthropicApiKey
    ensures backend == "gemini" ==> key == s.googleApiKey
    ensures backend == "openai" ==> key == s.openaiApiKey
    ensures backend == "antigravity" ==> key == s.anthropicApiKey
    ensures backend !in {"claude", "gemini", "openai", "antigravity"} ==> key == ""
  {
    if backend == "claude" then s.anthropicApiKey
    else if backend == "gemini" then s.googleApiKey
    else if backend == "openai" then s.openaiApiKey
    else if backend == "antigravity" then s.anthropicApiKey
    else ""
  }

  /** `validate_backend`: the backend has a non-empty API key. */
  predicate ValidateBackend(s: Settings, backend: string) {
    GetBackendApiKey(s, backend) != ""
  }

  /** A backend that validates is named by an exact `BackendType` value, and its key is that type's key. */
  lemma ValidatedBackendIsType(s: Settings, backend: string)
    requires ValidateBackend(s, backend)
    ensures BackendTypeOf(backend).Ok?
    ensures GetBackendApiKey(s, backend) == KeyOf(s, BackendTypeOf(backend).value)
  {
  }

  /** The key each backend type uses. */
  function KeyOf(s: Settings, t: BackendType): string {
    match t
    case Claude => s.anthropicApiKey
    case Gemini => s.googleApiKey
    case OpenAI => s.openaiApiKey
    case Antigravity => s.anthropicApiKey
  }

  /** With default settings no backend validates. */
  lemma NoBackendValidatesByDefault(backend: string)
    ensures !ValidateBackend(DefaultSettings(), backend)
    ensures ValidSettings(DefaultSettings())
  {
  }
}
