# SkillForge core in Dafny

SkillForge runs "skills": small jobs that ask an AI backend (Claude, Gemini, OpenAI or
the Antigravity agent) for text, store their runs and results in a Supabase database,
and render HTML reports. This project models the core of that system and proves
properties of the model:

- `ProviderWire`, `BackendBase`, `ClaudeBackend`, `GeminiBackend`, `OpenAIBackend`,
  `AntigravityBackend` and `Backends` model the backend layer: how a chat request is
  turned into each provider's call, how the provider's answer is turned back into a
  response, the streaming filters, and the factory that picks a backend by name. The
  provider SDK calls are functions passed in, which answer with a reply or an error.
- `Config` holds the settings fields and their defaults.
- `Skills` models the skill base class: its lazily cached backend and the `run` wrapper
  around the hooks and `execute`, with a `nat` clock that every `datetime.now()` reads
  and advances by one tick.
- `Registry` models the skill registry as an insertion-ordered dictionary with the
  listing, tag and schedule queries and module discovery.
- `WeiboTrending` models the Weibo trending skill: fetching and mapping the hot-search
  list with its mock fallback, the per-topic analysis with code-fence stripping, the
  summary, and `execute`.
- `ReportGenerator` models the report file names, the directory scan that reads them
  back, and the contexts handed to the templates.
- `DbModels` models the stored records and their validation; `DbClient` models the
  database client as a class that sends query plans to a store and keeps a log of
  them.
- `Wrappers`, `JsonValue` and `PyText` hold `Option`/`Result`, JSON values, and the
  Python string operations the core uses.

Loops of the source are methods proved equal to a specification function, and the
properties are lemmas about those functions.

## Model

| member | source | states |
|---|---|---|
| `BackendBase.BackendTypeOf` | src/backends/base.py:9-15 | a value converts to the tag whose value it is; a value no tag has is refused |
| `BackendBase.BackendTypeValues` | src/backends/base.py:12-15 | every tag converts back from its value, and the values are exactly "claude", "gemini", "openai" and "antigravity" |
| `BackendBase.NewRequest` | src/backends/base.py:26-34 | a request defaults to empty system text, 4096 tokens, temperature 0.7 and no tools |
| `BackendBase.NewResponse` | src/backends/base.py:37-45 | a response defaults to empty usage, no tool calls and no raw reply |
| `PyText.OrDefault` | src/backends/claude.py:21 | `model or DEFAULT_MODEL`: a missing or empty value gives the default and any other is kept; the same `or` gives the model at gemini.py:20, openai_backend.py:20 and antigravity.py:42, and the URL and key at client.py:25-26 |
| `BackendBase.ChatRequest` | src/backends/base.py:75-80 | `chat` sends exactly one user message, holding the prompt, with the given system text, temperature and token limit and no tools |
| `BackendBase.ContentOf` | src/backends/base.py:81-82 | `chat` succeeds iff `complete` does, and then returns its content; otherwise the same failure |
| `BackendBase.WireRoundTrip` | src/backends/claude.py:27 | the role/content dictionaries lose nothing: every message, in order, is recovered from them |
| `BackendBase.UsageMap` | src/backends/claude.py:62-65 | the usage mapping has exactly the keys input_tokens and output_tokens, holding the two counts |
| `BackendBase.NonEmpty` | src/backends/gemini.py:92-94 | the yielded fragments are never empty and are drawn from the stream |
| `BackendBase.NonEmptyKeepsText` | src/backends/gemini.py:92-94 | skipping empty fragments never changes the text the stream spells out |
| `BackendBase.NonEmptyKeepsAll` | src/backends/gemini.py:92-94 | a stream without empty fragments is yielded whole |
| `BackendBase.YieldNonEmpty` | src/backends/gemini.py:92-94 | the loop yields exactly the non-empty fragments, in order |
| `Config.DefaultSettings` | src/config.py:20-44 | with nothing set, every key and the Supabase settings are empty, the backend is claude, and the models, output directory, concurrency 3 and timeout 300 are the defaults |
| `Config.GetBackendApiKey` | src/config.py:46-54 | each of the four names gives its provider's key, antigravity shares the Anthropic key, and any other name (including other letter cases) gives "" |
| `Config.ValidatedBackendIsType` | src/config.py:56-58 | a backend validates only when named by an exact backend value, and its key is that type's key |
| `Config.NoBackendValidatesByDefault` | src/config.py:56-58 | with default settings no backend validates, and the default backend is one of the four |
| `ClaudeBackend.New` | src/backends/claude.py:20-22 | the instance keeps the key, and its model is the given one or the default when missing or empty, never empty |
| `ClaudeBackend.KwargsFor` | src/backends/claude.py:27-41 | the arguments carry the model, token limit, temperature and every message; system only when non-empty; tools only from `complete` and only when non-empty |
| `ClaudeBackend.FoldAppend` | src/backends/claude.py:47-57 | folding a reply split in two equals folding the parts and joining the texts and the tool calls |
| `ClaudeBackend.ToolUsesAreToolBlocks` | src/backends/claude.py:52-57 | a tool call is reported iff the reply has a tool_use block with that id, name and input |
| `ClaudeBackend.TextNeedsTextBlocks` | src/backends/claude.py:50-51 | a reply without text blocks has empty content |
| `ClaudeBackend.FoldBlocks` | src/backends/claude.py:47-57 | the loop produces the concatenated text blocks and the tool_use blocks, in reply order |
| `ClaudeBackend.ResponseOf` | src/backends/claude.py:59-68 | the response carries the reply's model, its two token counts and the raw reply |
| `ClaudeBackend.Complete` | src/backends/claude.py:24-68 | `complete` fails iff the API call does, and a response always reports both token counts |
| `ClaudeBackend.StreamSpec` | src/backends/claude.py:70-86 | streaming sends the same arguments without tools and passes the text fragments through unchanged |
| `GeminiBackend.New` | src/backends/gemini.py:19-22 | the instance keeps the key, and its model is the given one or the default, never empty |
| `GeminiBackend.SystemPrefix` | src/backends/gemini.py:30 | the prefix is empty without system text, and otherwise the system text followed by a blank line |
| `GeminiBackend.RoleOf` | src/backends/gemini.py:38 | a role maps to "user" iff it is "user"; every other role becomes "model" |
| `GeminiBackend.Contents` | src/backends/gemini.py:27-39 | there is one content entry per message |
| `GeminiBackend.BuildContents` | src/backends/gemini.py:27-39 | the enumerate loop builds exactly the contents list |
| `GeminiBackend.SystemDroppedWithoutLeadingUser` | src/backends/gemini.py:35-36 | when the first message is not a user message the system text is lost: the contents equal those without it |
| `GeminiBackend.SystemPrefixedOnLeadingUser` | src/backends/gemini.py:35-36 | with a leading user message, only that first entry carries the prefix, before its own text |
| `GeminiBackend.UsageOf` | src/backends/gemini.py:54-59 | usage has both counts when the reply carries usage metadata, and is empty otherwise |
| `GeminiBackend.Complete` | src/backends/gemini.py:24-66 | the response's model is the backend's own, Gemini never reports tool calls, and usage is empty or has both counts |
| `GeminiBackend.StreamComplete` | src/backends/gemini.py:68-94 | the stream yields only non-empty chunk texts |
| `OpenAIBackend.New` | src/backends/openai_backend.py:19-21 | the instance keeps the key, and its model is the given one or the default, never empty |
| `OpenAIBackend.WireMessages` | src/backends/openai_backend.py:26-32 | one chat message per request message, plus one when there is system text |
| `OpenAIBackend.BuildMessages` | src/backends/openai_backend.py:26-32 | the appending steps build exactly those messages |
| `OpenAIBackend.WireMessagesKeepRequest` | src/backends/openai_backend.py:28-32 | the system text is sent first exactly when non-empty, and the caller's messages follow unchanged |
| `OpenAIBackend.KwargsFor` | src/backends/openai_backend.py:35-43 | the arguments carry the model, token limit, temperature and the wire messages (the system message first when non-empty, then every message of the request, as `WireMessagesKeepRequest` states); tools only from `complete` and only when non-empty |
| `OpenAIBackend.ToolCallsOf` | src/backends/openai_backend.py:49-56 | an absent tool-call list gives none; otherwise one call per listed call |
| `OpenAIBackend.ToolCallsKeepCalls` | src/backends/openai_backend.py:52-56 | every tool call keeps its id, function name and unparsed argument text |
| `OpenAIBackend.CollectToolCalls` | src/backends/openai_backend.py:49-56 | the loop collects exactly those calls |
| `OpenAIBackend.ResponseOf` | src/backends/openai_backend.py:50-67 | no choice raises IndexError, no usage raises AttributeError; otherwise the content (None read as ""), model, both counts and tool calls of the first choice |
| `OpenAIBackend.Complete` | src/backends/openai_backend.py:23-67 | `complete` succeeds iff the API answers with at least one choice and a usage record |
| `OpenAIBackend.FirstDeltas` | src/backends/openai_backend.py:87-89 | one delta text per chunk |
| `OpenAIBackend.FragmentsAreNonEmptyDeltas` | src/backends/openai_backend.py:87-89 | the stream fails iff some chunk has no choices; otherwise it yields the non-empty first-choice deltas |
| `OpenAIBackend.YieldDeltas` | src/backends/openai_backend.py:87-89 | the loop yields exactly those fragments, or fails at the first chunk without choices |
| `OpenAIBackend.FailureSticks` | src/backends/openai_backend.py:87-89 | once a prefix of the stream has failed, the whole stream fails with the same error |
| `OpenAIBackend.StreamComplete` | src/backends/openai_backend.py:69-89 | streaming never sends tools, and yields what the delta loop yields |
| `AntigravityBackend.New` | src/backends/antigravity.py:41-44 | the instance keeps the key and model, and its inner Claude backend uses the same key and model |
| `AntigravityBackend.EnhancedSystem` | src/backends/antigravity.py:49-51 | an empty caller system text sends the Antigravity prompt alone; any other is appended to it after the separator |
| `AntigravityBackend.EnhancedSystemRoundTrip` | src/backends/antigravity.py:49-51 | the caller's system text is recovered from the merged text, an empty one included |
| `AntigravityBackend.EnhancedSystemInjective` | src/backends/antigravity.py:49-51 | two different caller system texts never merge into the same text |
| `AntigravityBackend.EnhancedRequest` | src/backends/antigravity.py:54-60 | the enhanced request keeps messages, token limit and temperature, carries the merged system, and keeps tools only in `complete` |
| `AntigravityBackend.CompleteSendsEnhancedSystem` | src/backends/antigravity.py:46-79 | both `complete` and `stream_complete` send the merged system text to Claude |
| `AntigravityBackend.Complete` | src/backends/antigravity.py:46-63 | `complete` is Claude's `complete` of the enhanced request, so it always reports both token counts |
| `AntigravityBackend.StreamSpec` | src/backends/antigravity.py:65-79 | streaming drops the tools and passes Claude's stream of the enhanced request through |
| `AntigravityBackend.FormatInstruction` | src/backends/antigravity.py:98-102 | there is an instruction exactly for markdown, json and text |
| `AntigravityBackend.ContextLineInjective` | src/backends/antigravity.py:106 | different contexts give different context lines, and only an empty context gives none |
| `AntigravityBackend.AgentPromptKeepsContext` | src/backends/antigravity.py:104-110 | the prompt determines the context it was built from |
| `AntigravityBackend.AgentTaskRequest` | src/backends/antigravity.py:81-112 | an agent task reaches Claude as one user message holding the prompt, with only the Antigravity prompt as system, no tools, 4096 tokens and temperature 0.7 |
| `Backends.Construct` | src/backends/__init__.py:38-49 | each type builds its own backend class with the key, and the model or that class's default |
| `Backends.CreateBackendByName` | src/backends/__init__.py:35-49 | a name is accepted iff its lower-cased form is one of the four values, builds that backend, and otherwise gives the enum's error |
| `Backends.CreateBackendIgnoresCase` | src/backends/__init__.py:35-36 | naming a backend in upper case builds the same instance as passing its type |
| `Backends.Complete` | src/backends/base.py:57-60 | `complete` dispatches to the instance's own class |
| `Backends.Chat` | src/backends/base.py:67-82 | `chat` succeeds iff `complete` of the one-message request does, and returns its content |
| `Backends.AgentTaskIsChat` | src/backends/antigravity.py:112 | an agent task is `chat` of its prompt with no system text, temperature 0.7 and 4096 tokens |
| `Backends.StreamComplete` | src/backends/base.py:62-65 | `stream_complete` dispatches to the instance's own class |
| `ClaudeBackend.TextOf` | src/backends/claude.py:50-51 | the reply's text blocks concatenated in order, other blocks contributing nothing; `FoldBlocks`, `TextOfAppend` and `TextNeedsTextBlocks` state this |
| `ClaudeBackend.ToolUsesOf` | src/backends/claude.py:52-57 | one tool call per tool_use block, with its id, name and input, in reply order; `ToolUsesOfAppend` and `ToolUsesAreToolBlocks` state this |
| `ClaudeBackend.CompleteSpec` | src/backends/claude.py:24-68 | `complete`: the API's failure, or its reply read as text, usage and tool calls; `Complete` is proved to compute it, with failure exactly when the API fails |
| `Backends.ChatSpec` | src/backends/base.py:67-82 | `chat`: the content of `complete` on one user message holding the prompt; `Chat` and `AgentTaskIsChat` state this |
| `Backends.CreateBackend` | src/backends/__init__.py:35-49 | a backend type builds that backend; a name builds the backend whose value is its lower-cased form, else the enum's error; `CreateBackendByName` and `CreateBackendIgnoresCase` state this |
| `AntigravityBackend.AgentPrompt` | src/backends/antigravity.py:98-110 | the `任务:` line, the context line, the instruction for the output format (empty for an unknown format) and the closing request, with their blank lines kept; `AgentPromptKeepsContext` shows the context can be read back |
| `AntigravityBackend.ContextLine` | src/backends/antigravity.py:106 | the `上下文:` line is empty exactly when the context is |
| `AntigravityBackend.AgentTask` | src/backends/antigravity.py:81-112 | `agent_task`: the content of Claude's answer to the agent prompt; `AgentTaskRequest` and `AgentTaskIsChat` state the request sent |
| `GeminiBackend.CompleteSpec` | src/backends/gemini.py:24-66 | `complete`: the API's failure, the failure of reading the reply's text, or that text with the backend's model, no tool calls and usage when reported; `GeminiBackend.Complete` is proved to compute it |
| `GeminiBackend.StreamSpec` | src/backends/gemini.py:68-94 | `stream_complete`: the API's failure, or the non-empty chunk texts in order; `GeminiBackend.StreamComplete` is proved to compute it |
| `OpenAIBackend.CompleteSpec` | src/backends/openai_backend.py:23-67 | `complete`: the API's failure, a failure when there is no choice or no usage, or the first choice's text, model, usage and tool calls; `OpenAIBackend.Complete` is proved to compute it |
| `OpenAIBackend.StreamSpec` | src/backends/openai_backend.py:69-89 | `stream_complete`: the API's failure, or the delta fragments of the chunk stream; `OpenAIBackend.StreamComplete` is proved to compute it |
| `AntigravityBackend.CompleteSpec` | src/backends/antigravity.py:46-63 | `complete`: Claude's `complete` of the request with the agent system prompt added and its tools kept; `AntigravityBackend.Complete` is proved to compute it |
| `Backends.CompleteSpec` | src/backends/base.py:57-60 | `complete` of any backend is the `complete` of its own class; `Backends.Complete` and `Backends.Chat` state it |
| `Backends.StreamSpec` | src/backends/base.py:62-65 | `stream_complete` of any backend is the `stream_complete` of its own class; `Backends.StreamComplete` states it |
| `Skills.NewResult` | src/skills/base.py:34-42 | a result defaults to empty data, no error and no timestamps |
| `Skills.DurationSeconds` | src/skills/base.py:44-49 | there is a duration iff both timestamps are set, and then start plus duration is the finish |
| `Skills.Subclass` | src/skills/base.py:69-81 | a subclass that overrides only its name and `execute` keeps the base description, version 1.0.0, backend antigravity, no schedule, no tags, `before_execute` and `after_execute` that always pass, and the given `execute` |
| `Skills.BackendFor` | src/skills/base.py:88-93 | a backend is built iff the skill's backend has a key; it has that type, key and default model; otherwise the missing-key error names the backend |
| `Skills.LowerKnownName` | src/backends/__init__.py:35-36 | lower-casing a backend value changes nothing, so `create_backend` accepts every configured name |
| `Skills.Skill.constructor` | src/skills/base.py:83-84 | a new instance has no cached backend |
| `Skills.Skill.GetBackend` | src/skills/base.py:86-94 | a cached backend is returned unchanged; otherwise the backend is built, and cached only when building succeeds |
| `Skills.Skill.Run` | src/skills/base.py:117-136 | the hooks run in order and stop at the first failure; a failing before hook or `execute` gives a failed result with that error; otherwise `execute`'s result is stamped with the context's start and a finish time, and a failing after hook marks it failed with its error and a later finish; every result has a duration |
| `Registry.Empty` | src/skills/registry.py:18-19 | a new catalogue is empty and well-formed |
| `Registry.Put` | src/skills/registry.py:33 | storing a class under its name keeps the catalogue well-formed, overwrites that name only, keeps the position of an existing name and appends a new one |
| `Registry.TaggedExactly` | src/skills/registry.py:51-56 | a name is listed iff it is registered and its class carries the tag, in registration order |
| `Registry.ScheduledExactly` | src/skills/registry.py:58-64 | a name is listed iff its class has a non-empty schedule, in registration order |
| `Registry.DiscoverAttrs` | src/skills/registry.py:82-90 | scanning one module's classes keeps the catalogue well-formed |
| `Registry.DiscoverModules` | src/skills/registry.py:74-92 | scanning the modules keeps the catalogue well-formed |
| `Registry.DiscoverAttrsGrows` | src/skills/registry.py:84-90 | discovery never replaces or removes a registered class: it only adds names not yet present |
| `Registry.DiscoverModulesGrows` | src/skills/registry.py:74-92 | over all modules, discovery only adds classes and keeps every earlier registration and its position |
| `Registry.IgnoredModuleChangesNothing` | src/skills/registry.py:75-76 | a module whose name starts with "_" or is base or registry, or whose import fails, changes nothing |
| `Registry.SkillRegistry.constructor` | src/skills/registry.py:18-19 | a new registry is empty |
| `Registry.SkillRegistry.Register` | src/skills/registry.py:21-34 | a class that does not derive from the base is refused and nothing changes; otherwise it is stored under its name and returned |
| `Registry.SkillRegistry.Get` | src/skills/registry.py:36-38 | a lookup finds a class iff the name is registered, and that class has the name |
| `Registry.SkillRegistry.GetInstance` | src/skills/registry.py:40-45 | an instance is made iff the name is registered, a fresh one of that class with an empty backend cache |
| `Registry.SkillRegistry.ListAll` | src/skills/registry.py:47-49 | the registered names in first-registration order, each once |
| `Registry.SkillRegistry.ListByTag` | src/skills/registry.py:51-56 | exactly the names whose class carries the tag, in registration order |
| `Registry.SkillRegistry.ListScheduled` | src/skills/registry.py:58-64 | exactly the scheduled names, each paired with its own schedule, in registration order |
| `Registry.SkillRegistry.Len` | src/skills/registry.py:94-95 | the length is the number of registered names |
| `Registry.SkillRegistry.Contains` | src/skills/registry.py:97-98 | a name is contained iff it is listed |
| `Registry.SkillRegistry.AutoDiscover` | src/skills/registry.py:66-92 | discovery leaves the registry well-formed, as the module scan gives it, and keeps every earlier registration |
| `Registry.Tagged` | src/skills/registry.py:51-56 | `list_by_tag`: every name listed is registered and its class carries the tag; `TaggedExactly` adds the converse and the order |
| `Registry.Scheduled` | src/skills/registry.py:58-64 | `list_scheduled`: every pair listed is a name with a non-empty schedule and that schedule; `ScheduledExactly` adds the converse and the order |
| `WeiboTrending.TopicJson` | src/skills/weibo_trending.py:95-102 | a topic is a six-field dictionary whose first field is its rank |
| `WeiboTrending.WithAnalysis` | src/skills/weibo_trending.py:49-52 | an analysed topic is the topic's fields in order, followed by its analysis |
| `WeiboTrending.TopicOf` | src/skills/weibo_trending.py:94-103 | item i gets rank i + 1; title, hot value and category default to "", 0 and ""; a flag is set iff the item's field equals 1 in Python's sense: the integer 1 or `true` |
| `WeiboTrending.MapItems` | src/skills/weibo_trending.py:94-103 | one topic per item of the realtime list |
| `WeiboTrending.MockData` | src/skills/weibo_trending.py:111-119 | the fallback list has five topics |
| `WeiboTrending.FetchTrending` | src/skills/weibo_trending.py:74-109 | a 200 answer with a readable body gives its mapped items; any other status, an unreadable body or a failed request gives the mock list |
| `WeiboTrending.RanksAreContiguous` | src/skills/weibo_trending.py:96 | the fetched topics are ranked 1, 2, 3, ... in order, from the API and from the mock list alike |
| `WeiboTrending.NoTopicsOnlyFromEmptyAnswer` | src/skills/weibo_trending.py:39-43 | the fetch gives no topics iff the API answered 200 with an empty realtime list |
| `WeiboTrending.UnfencedReplyKept` | src/skills/weibo_trending.py:155-159 | a reply that neither starts nor ends with a fence is only stripped of surrounding white space |
| `WeiboTrending.FirstBreakUnique` | src/skills/weibo_trending.py:157 | splitting at the first line break is unambiguous |
| `WeiboTrending.OpeningLineDropped` | src/skills/weibo_trending.py:156-157 | an opening fence line, with its language tag, is dropped whole |
| `WeiboTrending.FencedReplyBody` | src/skills/weibo_trending.py:155-159 | a reply fenced as "```lang" newline body "```" gives back exactly its body |
| `WeiboTrending.FenceLineAndFenceDropped` | src/skills/weibo_trending.py:156-159 | after the opening line is dropped, a closing fence is cut off too |
| `WeiboTrending.BareFenceRaises` | src/skills/weibo_trending.py:157 | a reply that is only a fence has no second line and raises IndexError |
| `WeiboTrending.FenceLineWithoutBreak` | src/skills/weibo_trending.py:157 | a fence with no line break after it has no second part, so taking it raises IndexError |
| `WeiboTrending.FencedReplyAnalysed` | src/skills/weibo_trending.py:155-164 | a fenced reply is parsed from its stripped body; a body that does not parse gives the raw reply under raw_analysis |
| `WeiboTrending.FailuresReportedAsError` | src/skills/weibo_trending.py:165-166 | a failed chat call, or a reply that is only a fence, becomes an analysis holding the error text |
| `WeiboTrending.AnalyzeReply` | src/skills/weibo_trending.py:153-164 | a reply is stripped, cut at an opening fence line and a closing fence, then parsed; a body that does not parse gives the raw reply, and a bare fence gives the IndexError text |
| `WeiboTrending.AnalyzeTopic` | src/skills/weibo_trending.py:121-166 | for any chat function, the analysis is the parsed JSON of the reply to the topic's prompt, the raw reply, or the error text, as the specification function gives it |
| `WeiboTrending.SummaryLineHotValue` | src/skills/weibo_trending.py:171 | a summary line ends with the hot value grouped by thousands, and that text reads back as the same number |
| `WeiboTrending.SummaryLines` | src/skills/weibo_trending.py:170-173 | one summary line per topic |
| `WeiboTrending.AnalyzedTopics` | src/skills/weibo_trending.py:46-52 | one analysed topic per topic |
| `WeiboTrending.AnalyzedTopicAt` | src/skills/weibo_trending.py:46-52 | entry i is topic i with that topic's own analysis |
| `WeiboTrending.AnalyzedTopicsStep` | src/skills/weibo_trending.py:46-52 | analysing one more topic appends its entry and leaves the earlier entries unchanged |
| `WeiboTrending.AnalyzeAll` | src/skills/weibo_trending.py:46-52 | the loop appends exactly the analysed topics, in order |
| `WeiboTrending.AnalyzedTopicsKeepFields` | src/skills/weibo_trending.py:49-52 | each analysed topic keeps its six topic fields first and adds the analysis last |
| `WeiboTrending.Execute` | src/skills/weibo_trending.py:34-72 | for any chat function, `execute` computes the result the specification function gives |
| `WeiboTrending.ExecuteWithoutTopics` | src/skills/weibo_trending.py:39-43 | no topics gives a failed result with the no-data error and no data |
| `WeiboTrending.ExecuteOutcome` | src/skills/weibo_trending.py:34-72 | the result is success iff there are topics and the summary call succeeds; a run with topics whose summary call fails is reported with that call's error |
| `WeiboTrending.ExecuteSuccessData` | src/skills/weibo_trending.py:57-65 | a successful result carries exactly the five data keys, the total count of topics, the analysed topics (at most ten) and their count |
| `WeiboTrending.WeiboTrendingSkill` | src/skills/weibo_trending.py:13-32 | the skill's name, backend, version, six-hour schedule and tags; its `execute` runs the specification with the context backend's `chat` and the skill's prompt texts |
| `WeiboTrending.ExecuteSpec` | src/skills/weibo_trending.py:34-72 | `execute`: no topics fails with the no-data error; otherwise at most ten topics are analysed and summarised into a successful result; `Execute`, `ExecuteWithoutTopics`, `ExecuteOutcome` and `ExecuteSuccessData` state this |
| `WeiboTrending.AnalysisOf` | src/skills/weibo_trending.py:145-166 | the analysis of one reply: the parsed fenced body, the raw reply under `raw_analysis` when it does not parse, or the error text; `AnalyzeReply`, `FencedReplyAnalysed` and `FailuresReportedAsError` state this |
| `WeiboTrending.FenceBody` | src/skills/weibo_trending.py:155-159 | the stripped reply without its opening fence line and closing fence; `UnfencedReplyKept`, `FencedReplyBody`, `FenceLineAndFenceDropped` and `BareFenceRaises` state this |
| `WeiboTrending.SummaryLine` | src/skills/weibo_trending.py:169-172 | one line of the summary prompt: rank, title and hot value grouped by thousands; `SummaryLineHotValue` shows the hot value reads back |
| `WeiboTrending.AnalysisPrompt` | src/skills/weibo_trending.py:123-144 | the prompt `_analyze_topic` sends: the topic's title, its hot value with thousands separators and its category, then the fixed instructions; `AnalyzeTopic` states that the chat receives exactly this prompt |
| `WeiboTrending.SummaryPrompt` | src/skills/weibo_trending.py:170-186 | the prompt `_generate_summary` sends: one `rank. title (热度: value)` line per analysed topic, in order, joined by line breaks; `ExecuteOutcome` states that the summary call receives it |
| `WeiboTrending.AnalyzeSpec` | src/skills/weibo_trending.py:121-166 | `_analyze_topic`: the chat's reply to the topic's prompt with system text and temperature 0.3, fences stripped and parsed, or `raw_analysis`, or `error`; `AnalyzeTopic` and `AnalyzedTopicsStep` state it |
| `ReportGenerator.DateDigits` | src/reports/generator.py:103 | the `%Y%m%d` part of a file name is eight digits |
| `ReportGenerator.TimeDigits` | src/reports/generator.py:103 | the `%H%M%S` part of a file name is six digits |
| `ReportGenerator.ParseStamp` | src/reports/generator.py:166 | a parsed `%Y%m%d_%H%M%S` stamp is a valid date and time |
| `ReportGenerator.StampRoundTrip` | src/reports/generator.py:166 | parsing the digits written for a date and time gives that date and time back |
| `ReportGenerator.StampDigits` | src/reports/generator.py:166 | a stamp that parses is exactly the digits written for the parsed date and time |
| `ReportGenerator.Stem` | src/reports/generator.py:160 | a file's stem is a prefix of its name |
| `ReportGenerator.HtmlStem` | src/reports/generator.py:160 | an `.html` name is its stem followed by `.html` |
| `ReportGenerator.ThreeParts` | src/reports/generator.py:160 | a stem split from the right at two underscores joins back to itself |
| `ReportGenerator.SplitThree` | src/reports/generator.py:160 | three parts joined by `_`, the last two free of `_`, split from the right back into those parts |
| `ReportGenerator.ReportStem` | src/reports/generator.py:103 | a report file is never `index.html`, and its stem is the name without `.html` |
| `ReportGenerator.ReportStemSplits` | src/reports/generator.py:159-164 | a report file's stem splits into the skill name, the date digits and the time digits |
| `ReportGenerator.ReportFileNameRoundTrip` | src/reports/generator.py:159-173 | the name of a generated report scans back to its skill name, title and minute-precision date |
| `ReportGenerator.ScannedFileIsReportFile` | src/reports/generator.py:159-173 | every name the scan accepts is the file name some report of that skill at a valid time would have |
| `ReportGenerator.BareSuffixSkipped` | src/reports/generator.py:160-161 | a file named only `.html` has too few parts and is skipped |
| `ReportGenerator.IndexPageSkipped` | src/reports/generator.py:156-157 | the index page is never listed as a report |
| `ReportGenerator.HtmlFiles` | src/reports/generator.py:155 | the glob keeps exactly the names that end in `.html` |
| `ReportGenerator.SortDescending` | src/reports/generator.py:155 | the reverse sort is a permutation of its input |
| `ReportGenerator.InsertDescending` | src/reports/generator.py:155 | inserting a name into a descending list keeps it descending |
| `ReportGenerator.SortDescendingSorts` | src/reports/generator.py:155 | the reverse sort gives a descending permutation |
| `ReportGenerator.Entries` | src/reports/generator.py:155-175 | there are at most as many entries as files |
| `ReportGenerator.EntriesAreScanned` | src/reports/generator.py:155-175 | every entry comes from a listed file and is that file's scanned entry |
| `ReportGenerator.EntriesComplete` | src/reports/generator.py:155-175 | every listed file that scans gives an entry |
| `ReportGenerator.EntriesDescending` | src/reports/generator.py:155-175 | entries keep the descending order of their files |
| `ReportGenerator.Capped` | src/reports/generator.py:177 | `reports[:20]`: a prefix of the entries, all of them when there are 20 or fewer and exactly the first 20 otherwise |
| `ReportGenerator.ScanReports` | src/reports/generator.py:152-177 | the loop over the sorted files computes the scan specification |
| `ReportGenerator.SortedHtml` | src/reports/generator.py:155 | the scanned files are exactly the `.html` names, in descending order |
| `ReportGenerator.ScanReportsLists` | src/reports/generator.py:152-177 | at most 20 reports, each one an `.html` file of the directory and its scanned entry |
| `ReportGenerator.ScanReportsDescending` | src/reports/generator.py:155-177 | the reports are listed newest name first |
| `ReportGenerator.ScanReportsComplete` | src/reports/generator.py:152-177 | when there are at most 20 reports, every report file of the directory is listed |
| `ReportGenerator.ScanReportsKeepsLargest` | src/reports/generator.py:152-177 | any accepted report file is listed, or exactly 20 entries are listed and every one is named no smaller than it: with more than 20 reports the scan keeps the largest names |
| `ReportGenerator.CappedKeepsLargest` | src/reports/generator.py:177 | cutting a list ordered largest name first drops only entries no larger than every one kept, and only when 20 are kept |
| `ReportGenerator.NewGenerator` | src/reports/generator.py:22-23 | the output directory is the given one, or the configured one when none or an empty one is given |
| `ReportGenerator.StaticUrl` | src/reports/generator.py:46-48 | a static URL is `static/` followed by the file name |
| `ReportGenerator.GetOr` | src/reports/generator.py:89-94 | `dict.get` gives the stored value, or the default when the key is missing |
| `ReportGenerator.GenerateReport` | src/reports/generator.py:57-107 | the output file is named from the skill and the time; the context carries the title, the dates, the rendered summary, and `backend`, `topics`, `total_count` and `analyzed_count` each taken from its own key of the data or defaulted to "AI", [], 0 and 0 |
| `ReportGenerator.GeneratedReportIsScanned` | src/reports/generator.py:152-177 | a report just generated is found by the scan under its own name, skill and minute |
| `ReportGenerator.SkillCards` | src/reports/generator.py:124-133 | there is at most one card per registered name |
| `ReportGenerator.SkillCardsFollowRegistry` | src/reports/generator.py:124-133 | each registered name gives its class's card, in registration order |
| `ReportGenerator.GenerateIndex` | src/reports/generator.py:109-150 | the index is written to `index.html`; it lists the given reports or the scan's, one card per registered skill in order, and the time of writing |
| `ReportGenerator.ReportFileName` | src/reports/generator.py:103 | `{skill}_{%Y%m%d_%H%M%S}.html`; `ReportFileNameRoundTrip`, `ReportStem` and `ScannedFileIsReportFile` show it scans back and that only such names are scanned |
| `ReportGenerator.ScanEntry` | src/reports/generator.py:156-175 | the entry a file name gives: none for `index.html`, for a stem without three `_` parts or for an invalid date; `IndexPageSkipped`, `BareSuffixSkipped`, `ReportFileNameRoundTrip` and `ScannedFileIsReportFile` state this |
| `ReportGenerator.ScanSpec` | src/reports/generator.py:152-177 | `_scan_reports`: the entries of the `.html` files in descending name order, at most twenty; `ScanReports`, `ScanReportsLists`, `ScanReportsDescending`, `ScanReportsComplete` and `ScanReportsKeepsLargest` state this |
| `ReportGenerator.MinuteText` | src/reports/generator.py:171 | `%Y-%m-%d %H:%M`, the date of a scanned report; `GeneratedReportIsScanned` states that a generated report scans back with its own minute |
| `ReportGenerator.SecondText` | src/reports/generator.py:88 | `%Y-%m-%d %H:%M:%S`, the `generated_at` of a report and of the index (generator.py:139); `GenerateReport` and `GenerateIndex` state it |
| `ReportGenerator.ReportDateText` | src/reports/generator.py:87 | `%Y年%m月%d日 %H:%M`, the `report_date` of a report; `GenerateReport` states it |
| `ReportGenerator.CardOf` | src/reports/generator.py:128-133 | a skill card carries its class's name, description, schedule and tags; `SkillCardsFollowRegistry` and `GenerateIndex` state the list of cards |
| `DbModels.RunStatusOf` | src/database/models.py:10-17 | a status text is accepted exactly when it is the value of some status, and gives that status |
| `DbModels.RunStatusValues` | src/database/models.py:10-17 | each status reads back from its value, and the values are the five status names |
| `DbModels.Strings` | src/database/models.py:98 | a list of strings dumps to the same strings, item by item |
| `DbModels.AsStrings` | src/database/models.py:98 | a list accepted as strings dumps back to the same list |
| `DbModels.StringsRoundTrip` | src/database/models.py:98 | dumped strings are accepted as exactly those strings |
| `DbModels.NewSkillRun` | src/database/models.py:20-36 | a new run keeps its id, skill name and params, starts now, is pending and has every optional field unset |
| `DbModels.NewSkillResult` | src/database/models.py:42-56 | a new result keeps its ids, data and summary, is created now, and has no version and no tags |
| `DbModels.NewReport` | src/database/models.py:59-77 | a new report keeps its ids, title and contents, is created now, and is not published |
| `DbModels.TopicRecord` | src/database/models.py:80-98 | a topic dumps to a JSON object |
| `DbModels.TopicRecordKeys` | src/database/models.py:80-98 | a dumped topic has each field name once |
| `DbModels.RequiredTopicFields` | src/database/models.py:88-90 | a topic without title, rank or hot value is refused |
| `DbModels.TopicDefaults` | src/database/models.py:85-98 | missing optional fields take their defaults: fetched now, no category, not hot, not new, empty analysis, no sentiment, no keywords |
| `DbModels.TopicRecordIds` | src/database/models.py:83-85 | the dumped id, run id and fetch time read back as the topic's |
| `DbModels.TopicRecordCounts` | src/database/models.py:88-90 | the dumped rank, title and hot value read back as the topic's |
| `DbModels.TopicRecordFlags` | src/database/models.py:91-93 | the dumped category and flags read back as the topic's |
| `DbModels.TopicRecordAnalysis` | src/database/models.py:96-98 | the dumped analysis, sentiment and keywords read back as the topic's |
| `DbModels.ValidateFromFields` | src/database/models.py:80-98 | validation succeeds with the topic whose every field reads back from the dictionary |
| `DbModels.TopicRecordRoundTrip` | src/database/models.py:80-98 | validating a dumped topic gives the same topic back, when the ISO text of its fetch time parses back |
| `DbModels.TableNamesOnePerType` | src/database/models.py:102-107 | four table names, one for each record type |
| `DbModels.ValidateTopic` | src/database/models.py:80-98 | `TrendingTopic(**fields)`: each field checked against its type, missing ones at their defaults; `RequiredTopicFields`, `TopicDefaults` and `TopicRecordRoundTrip` state this |
| `DbModels.SkillRunRecord` | src/database/models.py:20-39 | `model_dump()` of a run; `SkillRunRecordKeys` and `SkillRunRecordReadsBack` state what it holds |
| `DbModels.SkillRunRecordKeys` | src/database/models.py:20-36 | a dumped run holds each field name once |
| `DbModels.SkillRunRecordReadsBack` | src/database/models.py:25-39 | a dumped run stores the status as its enum value, which reads back as the same status; it stores the start time as text, a null finish time exactly when the run is unfinished, and the parameters unchanged |
| `DbModels.SkillResultRecord` | src/database/models.py:42-56 | `model_dump()` of a stored result; `SkillResultRecordKeys` and `SkillResultRecordReadsBack` state what it holds |
| `DbModels.SkillResultRecordKeys` | src/database/models.py:42-56 | a dumped result holds each field name once |
| `DbModels.SkillResultRecordReadsBack` | src/database/models.py:48-56 | a dumped result stores its creation time as text, its data unchanged, and tags that read back as the same list |
| `DbModels.ReportRecord` | src/database/models.py:59-77 | `model_dump()` of a report; `ReportRecordKeys` and `ReportRecordReadsBack` state what it holds |
| `DbModels.ReportRecordKeys` | src/database/models.py:59-77 | a dumped report holds each field name once |
| `DbModels.ReportRecordReadsBack` | src/database/models.py:68-77 | a dumped report stores its title and HTML, a null Markdown text exactly when it has none, and its publication flag |
| `DbClient.Data` | src/database/client.py:61-62 | a failed request passes its error on; a plain request gives all rows; a `single()` request succeeds exactly when one row comes back, and gives that row |
| `DbClient.EqSteps` | src/database/client.py:74-76 | one equality filter per filter entry, in the dictionary's order |
| `DbClient.FiltersOfEqSteps` | src/database/client.py:74-76 | the filters read back from the query are exactly the given ones |
| `DbClient.QueryPlanFilters` | src/database/client.py:72-76 | a query selects every column of its table and filters by exactly the given entries |
| `DbClient.QueryPlanOrder` | src/database/client.py:78-81 | a query is ordered iff a non-empty `order_by` is given, by the column and direction that text names |
| `DbClient.QueryPlanLimit` | src/database/client.py:83-84 | a query is limited iff a non-zero limit is given, to that limit |
| `DbClient.OrderSign` | src/database/client.py:79-80 | an `order_by` text is some leading dashes followed by the column; it is descending iff there was a dash |
| `DbClient.OrderStepInverse` | src/database/client.py:79-81 | writing a column with a leading dash for descending order reads back as that column and direction |
| `DbClient.NewestFirstPlan` | src/database/client.py:125-139 | a newest-first listing filters by the skill name when one is given, orders by the column descending, and limits when the limit is non-zero |
| `DbClient.FirstRow` | src/database/client.py:47 | the first returned row, or an empty object when none came back |
| `DbClient.StartedAt` | src/database/client.py:119-120 | a run with a parseable `started_at` gives that time; a missing or empty run gives none |
| `DbClient.RunStatusPayloadFields` | src/database/client.py:112-121 | the update sets the status; the error message when non-empty; the finish time when given; the duration when both times are known |
| `DbClient.UpdateRunStatusRequests` | src/database/client.py:104-123 | an unconfigured client sends nothing; without a finish time one update is sent; with one the run is fetched first, and a passing call then sends the update whose payload carries the fetched start; a completed call ends with the update of the run's status payload |
| `DbClient.ClashingKey` | src/database/client.py:215-219 | a topic clashes iff it carries its own `id` or `run_id`, and the clash names that key |
| `DbClient.ValidatedIds` | src/database/models.py:83-84 | a validated topic's ids are the ones its dictionary holds |
| `DbClient.BuildTopicIds` | src/database/client.py:215-219 | a built topic carries the fresh id and the run's id |
| `DbClient.ClashRefused` | src/database/client.py:215-219 | a topic that carries its own `id` or `run_id` is refused with CPython's duplicate-keyword error naming `src.database.models.TrendingTopic()` |
| `DbClient.TopicsBuiltEach` | src/database/client.py:213-222 | for any build step, all topics build iff each one does, and then the list holds each built topic in order |
| `DbClient.TopicsBuiltStep` | src/database/client.py:214-222 | one more topic either appends its built topic or ends the loop with its error |
| `DbClient.TopicsBuiltErrorSticks` | src/database/client.py:213-222 | the first topic that fails ends the loop with its error |
| `DbClient.BuildTopics` | src/database/client.py:213-222 | the loop builds the topics `TopicsBuilt` gives for the source's build step: every topic at its own clock tick, or the first error |
| `DbClient.Dumps` | src/database/client.py:220-222 | one record per built topic, each its dump |
| `DbClient.RevalidatedRoundTrip` | src/database/client.py:227 | rebuilding the topics from their records gives the same topics, when ISO times parse back |
| `DbClient.SaveTopicsRequests` | src/database/client.py:207-227 | no topics sends nothing; a topic that does not build fails before anything is sent; otherwise one batch insert of all the records is sent, and the topics returned are the ones built |
| `DbClient.Remote.constructor` | src/database/client.py:46 | a fresh store has been sent nothing |
| `DbClient.Remote.Execute` | src/database/client.py:86 | running a request logs it and gives the store's answer under the single-row rule |
| `DbClient.DatabaseClient.constructor` | src/database/client.py:24-27 | an explicit non-empty URL or key wins over the configured one; no connection yet |
| `DbClient.DatabaseClient.Client` | src/database/client.py:29-36 | a connection exists iff URL and key are both set; it is made once and kept; otherwise the not-configured error |
| `DbClient.DatabaseClient.Send` | src/database/client.py:29-36 | a request is sent only when configured; otherwise the not-configured error and nothing is sent |
| `DbClient.DatabaseClient.InsertRow` | src/database/client.py:44-47 | one insert is sent and the first returned row is the result |
| `DbClient.DatabaseClient.InsertMany` | src/database/client.py:49-52 | one insert of all rows is sent and the returned rows are the result |
| `DbClient.DatabaseClient.UpdateRow` | src/database/client.py:54-57 | one update filtered by id is sent and the first returned row is the result |
| `DbClient.DatabaseClient.GetById` | src/database/client.py:59-62 | one single-row select by id is sent |
| `DbClient.DatabaseClient.Query` | src/database/client.py:64-87 | the loop builds the query plan: every column, the filters, the order and the limit |
| `DbClient.DatabaseClient.CreateRun` | src/database/client.py:91-102 | a pending run is inserted into `skill_runs`, and returned when the insert succeeds |
| `DbClient.DatabaseClient.UpdateRunStatus` | src/database/client.py:104-123 | the requests and the outcome are those of the status-update specification |
| `DbClient.DatabaseClient.GetRecentRuns` | src/database/client.py:125-139 | runs are listed newest start first, filtered by skill name when one is given |
| `DbClient.DatabaseClient.SaveResult` | src/database/client.py:143-161 | the new result is inserted into `skill_results`, and returned when the insert succeeds |
| `DbClient.DatabaseClient.SaveReport` | src/database/client.py:165-187 | the new report is inserted into `reports`, and returned when the insert succeeds |
| `DbClient.DatabaseClient.GetLatestReports` | src/database/client.py:189-203 | reports are listed newest first, filtered by skill name when one is given |
| `DbClient.DatabaseClient.SaveTrendingTopics` | src/database/client.py:207-227 | the topics are built by `BuildTopics` and dumped; the requests and the result are those of the save specification |
| `DbClient.Exchange` | src/database/client.py:29-62 | one request to the store: the not-configured error with nothing sent, or the store's answer read under the single-row rule with the request logged; `DatabaseClient.Send` and the client methods are stated through it |
| `DbClient.QueryPlan` | src/database/client.py:64-89 | `query`: select every column, one equality filter per entry, the order and the limit when given; `QueryPlanFilters`, `QueryPlanOrder`, `QueryPlanLimit` and `NewestFirstPlan` state this |
| `DbClient.RunStatusPayload` | src/database/client.py:112-121 | the fields of a status update; `RunStatusPayloadFields` states them |
| `DbClient.UpdateRunStatusSpec` | src/database/client.py:104-123 | `update_run_status`: the requests sent and the outcome; `UpdateRunStatusRequests` and `DatabaseClient.UpdateRunStatus` state this |
| `DbClient.BuildTopic` | src/database/client.py:215-219 | `TrendingTopic(id=..., run_id=..., **topic)`: the duplicate-keyword error, or the validated topic; `ClashRefused` and `BuildTopicIds` state this |
| `DbClient.TopicsBuilt` | src/database/client.py:213-222 | the topic list built in order, stopping at the first failure; `TopicsBuiltEach`, `TopicsBuiltStep` and `TopicsBuiltErrorSticks` state this |
| `DbClient.SaveTopicsSpec` | src/database/client.py:207-227 | `save_trending_topics`: the requests sent and the topics returned; `SaveTopicsRequests` and `DatabaseClient.SaveTrendingTopics` state this |
| `DbClient.SkillFilter` | src/database/client.py:131-133 | the skill-name filter is present only when a non-empty name is given (also client.py:196-197); `NewestFirstPlan`, `DatabaseClient.GetRecentRuns` and `DatabaseClient.GetLatestReports` state the query sent |
| `DbClient.Builder` | src/database/client.py:215-221 | the loop step of `save_trending_topics`: a topic with a fresh id and the run's id, validated; `BuildTopics` and `SaveTopicsRequests` state the loop over it |
| `DbClient.Revalidated` | src/database/client.py:227 | `[TrendingTopic(**r) for r in records]`: every dumped record validated again; `RevalidatedRoundTrip` states that it gives back the saved topics |
| `DbClient.UpdateRunStatusDuration` | src/database/client.py:115-121 | when a finish time is given, the update carries `duration_seconds` equal to the finish time minus the start read from the fetched run, and no duration when the run has none |
| `PyText.TrimStart` | src/skills/weibo_trending.py:155 | the left strip drops exactly the leading white space |
| `PyText.TrimEnd` | src/skills/weibo_trending.py:155 | the right strip drops exactly the trailing white space |
| `PyText.Strip` | src/skills/weibo_trending.py:155 | a stripped text neither starts nor ends with white space |
| `PyText.StripKeeps` | src/skills/weibo_trending.py:161 | a text without surrounding white space is its own strip |
| `PyText.StripIdempotent` | src/skills/weibo_trending.py:161 | stripping twice is stripping once |
| `PyText.IndexOf` | src/skills/weibo_trending.py:157 | the first position of a character, or none iff it does not occur |
| `PyText.LastIndexOf` | src/reports/generator.py:160 | the last position of a character, or none iff it does not occur |
| `PyText.SplitFirst` | src/skills/weibo_trending.py:157 | `split(sep, 1)` gives the text whole when the separator is absent, otherwise the part before its first occurrence and the rest |
| `PyText.RSplit` | src/reports/generator.py:160 | `rsplit(sep, n)` gives between one and n + 1 parts |
| `PyText.RSplitJoin` | src/reports/generator.py:160 | the parts of `rsplit` join back to the text, and every part after the first is free of the separator |
| `PyText.RSplitAtLast` | src/reports/generator.py:160 | `rsplit` cuts at the last separator first |
| `PyText.LStripChar` | src/database/client.py:80 | `lstrip(c)` drops exactly the leading run of c |
| `PyText.Lower` | src/backends/__init__.py:36 | `lower()` maps each character through the ASCII lower-casing |
| `PyText.LowerUpper` | src/backends/__init__.py:36 | lower-casing an upper-cased text without capitals gives it back |
| `PyText.DecimalDigits` | src/skills/weibo_trending.py:171 | a number is written as at least one decimal digit |
| `PyText.ParseDecimalDigits` | src/skills/weibo_trending.py:171 | the decimal text of a number reads back as that number |
| `PyText.Grouped` | src/skills/weibo_trending.py:171 | the `:,` text of a number starts with a digit |
| `PyText.GroupedDigits` | src/skills/weibo_trending.py:171 | removing the commas of the `:,` text gives the plain decimal text |
| `PyText.FormatThousandsRoundTrip` | src/skills/weibo_trending.py:171 | the `:,` text of any integer reads back as that integer |
| `PyText.StrLeTotal` | src/reports/generator.py:155 | any two names compare one way or the other |
| `PyText.StrLeTransitive` | src/reports/generator.py:155 | the name order is transitive |
| `PyText.StrLeAntisymmetric` | src/reports/generator.py:155 | names that compare both ways are equal |
| `PyText.ZeroPad` | src/reports/generator.py:103 | a zero-padded field has exactly its width in digits |
| `PyText.ZeroPadRoundTrip` | src/reports/generator.py:166 | a zero-padded number that fits its width reads back as itself |
| `PyText.ParseZeroPad` | src/reports/generator.py:166 | a digit field is the zero-padded text of its value |

## Left out

- Network, file and console I/O: provider SDK calls, the Weibo HTTP request and the Supabase store are functions or objects passed in; writing files, `mkdir` and the copy of static files are not modelled.
- Time: `datetime.now()` is a `nat` clock passed in, ISO text is a pair of functions `iso`/`fromIso` passed in, and durations are whole clock ticks rather than float seconds.
- `uuid4()` ids are parameters.
- Floating point: `temperature` is passed through unchanged; `_format_duration` and the report's `duration` text (`:.1f` formatting) are not modelled.
- Template rendering and the Markdown conversion: a page is modelled as its template context, and the summary renderer is a function passed in.
- `genai.configure` and `create_client` are modelled as values; the connection is cached and kept, but the model keeps no count of `create_client` calls.
- Environment loading of the settings (`.env`, pydantic-settings) is not modelled; the settings are a value.
- `ReportGenerator.ParseStamp`: accepts only an eight-digit date and a six-digit time, while `strptime` also takes some shorter fields; a report name it refuses is skipped.
- `ReportGenerator.DateDigits`: writes the year with four digits; how `%Y` pads years below 1000 is not modelled.
- `DbModels.TopicDefaults`: only exact JSON types are accepted; pydantic's lax coercions (numeric strings, 0/1 as booleans) and its exact error texts are not modelled.
- `DbClient.Data`: the PostgREST error text for a `single()` request without exactly one row is a placeholder constant.
- `DbClient.BuildTopicIds`: a `fetched_at` given inside a topic dictionary is read with `fromIso` rather than by pydantic's datetime parsing.
- The Weibo skill's calls to the context backend's `chat` go through a function `chat` passed in, and the prompt texts are a `PromptTexts` value; `WeiboTrendingSkill` instantiates them with `BackendChat` (the backend's `chat`) and `Prompts` (the source's literal texts).
- The topic loop of `save_trending_topics` is stated for any per-topic build step; `Builder` is the step `save_trending_topics` takes, which `BuildTopics` and `SaveTopicsSpec` use.
- `WeiboTrending.TopicOf`: the API item's `word`, `num` and `category` are typed text and integers. A JSON `null` there gives `None` in the source rather than the default, the flags do not compare a float such as `1.0`, and a `null` or text `num` makes the `{hot_value:,}` format in `_analyze_topic` raise outside its `try`, so `execute` fails with that `TypeError`/`ValueError`; none of these are modelled.
- Writes that `before_execute`/`after_execute` hooks make to the context or result are not modelled; a hook is modelled by its outcome.
- Registration at import time by the `@skill` decorator, and the module-level `registry` and `db` instances, are not modelled; the registry and client are explicit objects.
- Importing a module during `auto_discover` is a function passed in; its printed warning is not modelled.
- `Registry.SkillRegistry.Register`: the `TypeError` text uses the class's name, not its `repr`.
- `str.lower()` is modelled for ASCII letters only.
- `OpenAIBackend.StreamComplete`, `ClaudeBackend.StreamSpec`, `GeminiBackend.StreamComplete`, `AntigravityBackend.StreamSpec`: the chunk stream is one value that either arrives whole or fails; a failure midway, after the caller has received some fragments, is modelled as a failure of the whole stream (for Gemini this includes a chunk whose `text` raises partway).
- `Backends.CreateBackendByName`: the final "不支持的后端类型" branch cannot be reached once the name is a valid backend type, so it is not modelled.
- `runner.py` (the command line) is not part of this model.
- `asyncio`: the async methods are modelled as sequential calls.
- In four places the model follows behaviour worth noting: `register` overwrites a name already present; `run` passes `execute`'s status through; the trending fetch has only the `_fetch_trending` strategy; an `after_execute` failure re-stamps `finished_at`.
- `DbClient.DatabaseClient.GetRecentRuns`, `DbClient.DatabaseClient.GetLatestReports`: `limit` is a required argument; the source's default of 10 is left to the caller.
- `BackendBase.BackendTypeOf`, `DbModels.RunStatusOf`, `DbClient.StartedAt`: the error text always quotes the value with `'`; Python's `repr` switches to `"` when the value contains `'`.
