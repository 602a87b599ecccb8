/**
 * `WeiboTrendingSkill`: fetch the Weibo hot-search list (or fall back to a fixed list),
 * ask the backend to analyse the first ten topics one by one, then to summarise them.
 */
module WeiboTrending {
  import opened Wrappers
  import opened JsonValue
  import opened PyText
  import opened Backends
  import opened Skills

  const MaxTopics: nat := 10

  /** A hot-search topic as `_fetch_trending` returns it. */
  datatype Topic = Topic(rank: int, title: string, hotValue: int, category: string, isHot: bool, isNew: bool)

  /** The topic as the dictionary the skill passes around and stores. */
  function TopicJson(t: Topic): (j: Json)
    ensures j.JObj? && |j.fields| == 6 && j.fields[0] == ("rank", JInt(t.rank))
  {
    JObj([("rank", JInt(t.rank)), ("title", JStr(t.title)), ("hot_value", JInt(t.hotValue)),
      ("category", JStr(t.category)), ("is_hot", JBool(t.isHot)), ("is_new", JBool(t.isNew))])
  }

  /** `{**topic, "analysis": analysis}`: every field of the topic, then the analysis. */
  function WithAnalysis(t: Topic, analysis: Json): (j: Json)
    ensures j.JObj? && j.fields == TopicJson(t).fields + [("analysis", analysis)]
  {
    JObj(TopicJson(t).fields + [("analysis", analysis)])
  }

  /** One entry of the API's `realtime` list; `None` is a missing key. The flags keep their JSON value. */
  datatype ApiItem = ApiItem(word: Option<string>, num: Option<int>, category: Option<string>, isHot: Option<Json>, isNew: Option<Json>)

  /** Python's `value == 1` on a JSON value: the integer 1, and `true`, which Python counts as 1. */
  predicate EqualsOne(value: Json) {
    value == JInt(1) || value == JBool(true)
  }

  /**
   * What the hot-search request came to: it raised (network failure, timeout), or it
   * answered with a status and a body. The body is `None` when it is not JSON; otherwise
   * it is `data.realtime`, the empty list when either key is missing.
   */
  datatype FetchOutcome = Raised | Responded(status: int, body: Option<seq<ApiItem>>)

  /** The topic made of the API item at position `i`. */
  function TopicOf(item: ApiItem, i: nat): (t: Topic)
    ensures t.rank == i + 1
    ensures t.title == item.word.GetOr("") && t.hotValue == item.num.GetOr(0) && t.category == item.category.GetOr("")
    ensures t.isHot <==> item.isHot == Some(JInt(1)) || item.isHot == Some(JBool(true))
    ensures t.isNew <==> item.isNew == Some(JInt(1)) || item.isNew == Some(JBool(true))
  {
    Topic(i + 1, item.word.GetOr(""), item.num.GetOr(0), item.category.GetOr(""),
      EqualsOne(item.isHot.GetOr(JInt(0))), EqualsOne(item.isNew.GetOr(JInt(0))))
  }

  function MapItems(items: seq<ApiItem>): (r: seq<Topic>)
    ensures |r| == |items|
  {
    seq(|items|, i requires 0 <= i < |items| => TopicOf(items[i], i))
  }

  /** `_get_mock_data`. */
  function MockData(): (r: seq<Topic>)
    ensures |r| == 5
  {
    [ Topic(1, "AI技术突破", 1500000, "科技", true, false),
      Topic(2, "新能源汽车销量创新高", 1200000, "财经", true, true),
      Topic(3, "春节假期安排公布", 1000000, "社会", false, true),
      Topic(4, "热门电影票房破10亿", 900000, "娱乐", true, false),
      Topic(5, "国际形势最新动态", 800000, "国际", false, false) ]
  }

  /** `_fetch_trending`: the mapped items of a JSON answer with status 200, else the mock list. */
  function FetchTrending(outcome: FetchOutcome): (r: seq<Topic>)
    ensures outcome.Responded? && outcome.status == 200 && outcome.body.Some? ==> r == MapItems(outcome.body.value)
    ensures !(outcome.Responded? && outcome.status == 200 && outcome.body.Some?) ==> r == MockData()
  {
    if outcome.Responded? && outcome.status == 200 && outcome.body.Some? then MapItems(outcome.body.value)
    else MockData()
  }

  /** Ranks run 1, 2, ... in list order, whether the topics came from the API or from the mock list. */
  lemma RanksAreContiguous(outcome: FetchOutcome)
    ensures forall i :: 0 <= i < |FetchTrending(outcome)| ==> FetchTrending(outcome)[i].rank == i + 1
  {
  }

  /** Only an answer with status 200 and an empty or missing `realtime` list gives no topics at all. */
  lemma NoTopicsOnlyFromEmptyAnswer(outcome: FetchOutcome)
    ensures FetchTrending(outcome) == [] <==> outcome == Responded(200, Some([]))
  {
  }

  // ------------------------------------------------------------------ one topic's analysis


  /** The text `IndexError` carries. */
  const IndexErrorText: string := "list index out of range"

  const Fence: string := "```"

  /**
   * The fixed texts of the two prompts: the system prompt of each call and what each
   * prompt asks for after its topic lines. Every specification below holds for any texts;
   * the skill itself uses `Prompts`.
   */
  datatype PromptTexts = PromptTexts(
    analysisSystem: string,
    analysisInstructions: string,
    summarySystem: string,
    summaryInstructions: string)

  /** The texts `_analyze_topic` and `_generate_summary` send. */
  const Prompts: PromptTexts := PromptTexts(
    "你是一个专业的舆情分析师，擅长从多角度分析社会热点话题。请始终以 JSON 格式回复。",
    "\n\n请从以下维度进行分析：\n1. **话题背景**：简要说明话题的背景和起源\n2. **舆论倾向**：分析公众对此话题的主要态度\n3. **热度原因**：解释为什么这个话题会上热搜\n4. **潜在影响**：分析该话题可能带来的社会影响\n5. **发展预测**：预测话题未来的发展趋势\n\n请用 JSON 格式返回分析结果，包含以下字段：\n- background: 话题背景（string）\n- sentiment: 舆论倾向（positive/negative/neutral）\n- sentiment_reason: 倾向原因（string）\n- hot_reason: 热度原因（string）\n- impact: 潜在影响（string）\n- prediction: 发展预测（string）\n- keywords: 关键词列表（array of strings）\n",
    "你是一个资深的舆情分析专家，善于从碎片化信息中提炼价值洞察。",
    "\n\n请从以下维度生成报告：\n1. **今日热点概述**：总结今日舆论场的主要特征\n2. **话题分类分布**：分析各类话题的占比和特点\n3. **舆情风向**：识别主要的舆论情绪和倾向\n4. **值得关注**：指出最值得关注的2-3个话题及原因\n5. **趋势洞察**：从热搜榜单中发现的趋势性信号\n\n请用结构清晰的 Markdown 格式输出报告。")


  /** The prompt `_analyze_topic` sends for a topic. */
  function AnalysisPrompt(texts: PromptTexts, t: Topic): string {
    "请分析以下微博热搜话题：\n\n话题：" + t.title + "\n热度值：" + FormatThousands(t.hotValue) + "\n分类：" + t.category
    + texts.analysisInstructions
  }

  /**
   * The text handed to the JSON parser, before its final `strip()`: the stripped reply
   * without an opening fence line and without a closing fence. An opening fence with no
   * line break after it raises `IndexError`.
   */
  function FenceBody(response: string): Result<string> {
    match DropOpeningLine(Strip(response))
    case Err(e) => Err(e)
    case Ok(t) => Ok(DropClosingFence(t))
  }

  /** `s.split("\n", 1)[1]` when `s` starts with a fence, else `s`. */
  function DropOpeningLine(s: string): Result<string> {
    if StartsWith(s, Fence) then
      var parts := SplitFirst(s, '\n');
      if |parts| < 2 then Err(IndexErrorText) else Ok(parts[1])
    else Ok(s)
  }

  /** `t.rsplit("```", 1)[0]` when `t` ends with a fence (all of `t` before that last fence), else `t`. */
  function DropClosingFence(t: string): string {
    if EndsWith(t, Fence) then t[..|t| - |Fence|] else t
  }

  /** A reply with no fence at either end reaches the parser stripped and otherwise as it is. */
  lemma UnfencedReplyKept(response: string)
    requires !StartsWith(Strip(response), Fence) && !EndsWith(Strip(response), Fence)
    ensures FenceBody(response) == Ok(Strip(response))
  {
  }

  /** Two texts cut at their first line break into the same pieces are cut identically. */
  lemma FirstBreakUnique(a: string, b: string, x: string, y: string)
    requires a + "\n" + b == x + "\n" + y && '\n' !in a && '\n' !in x
    ensures a == x && b == y
  {
    var s := a + "\n" + b;
    assert forall k :: 0 <= k < |a| ==> s[k] == a[k];
    assert forall k :: 0 <= k < |x| ==> s[k] == x[k];
    assert s[|a|] == '\n' && s[|x|] == '\n';
    assert |a| == |x|;
    assert s[..|a|] == a && s[..|x|] == x;
    assert s[|a| + 1..] == b && s[|x| + 1..] == y;
  }

  /** A reply that is its own `strip()` and opens with a fence line loses exactly that line. */
  lemma OpeningLineDropped(head: string, tail: string)
    requires '\n' !in head && StartsWith(head, Fence)
    ensures DropOpeningLine(head + "\n" + tail) == Ok(tail)
  {
    var s := head + "\n" + tail;
    assert s[..|head|] == head;
    assert StartsWith(s, Fence) by { assert s[..|Fence|] == head[..|Fence|]; }
    assert s[|head|] == '\n';
    var parts := SplitFirst(s, '\n');
    FirstBreakUnique(parts[0], parts[1], head, tail);
  }

  /** A fenced reply ```` ```lang\n<body>``` ```` hands exactly its body to the parser, whatever the body holds. */
  lemma FencedReplyBody(lang: string, body: string)
    requires '\n' !in lang
    ensures FenceBody(Fence + lang + "\n" + body + Fence) == Ok(body)
  {
    var head, tail := Fence + lang, body + Fence;
    assert Fence + lang + "\n" + body + Fence == head + "\n" + tail;
    assert head[..|Fence|] == Fence;
    FenceLineAndFenceDropped(head, tail);
    assert tail[|tail| - |Fence|..] == Fence;
  }

  /** A text that opens with a fence line and ends with a fence keeps what lies between the two. */
  lemma FenceLineAndFenceDropped(head: string, tail: string)
    requires '\n' !in head && StartsWith(head, Fence) && EndsWith(tail, Fence)
    ensures FenceBody(head + "\n" + tail) == Ok(tail[..|tail| - |Fence|])
  {
    var s := head + "\n" + tail;
    assert s[0] == head[0] == '`';
    assert s[|s| - 1] == tail[|tail| - 1] == '`';
    StripKeeps(s);
    OpeningLineDropped(head, tail);
  }

  /** An opening fence with nothing after it on its line and no line break raises `IndexError`. */
  lemma BareFenceRaises()
    ensures FenceBody("```") == Err(IndexErrorText)
  {
    StripKeeps(Fence);
    FenceLineWithoutBreak();
  }

  /** A bare fence has no line after its opening line. */
  lemma FenceLineWithoutBreak()
    ensures DropOpeningLine(Fence) == Err(IndexErrorText)
  {
    assert StartsWith(Fence, Fence) && '\n' !in Fence;
  }

  /**
   * What `_analyze_topic` returns for the backend's reply: the parsed JSON, the raw reply
   * when it does not parse, or `{"error": ...}` when the call or the fence handling raised.
   */
  function AnalysisOf(reply: Result<string>, parse: string -> Option<Json>): Json {
    match reply
    case Err(e) => JObj([("error", JStr(e))])
    case Ok(response) =>
      match FenceBody(response)
      case Err(e) => JObj([("error", JStr(e))])
      case Ok(body) =>
        match parse(Strip(body))
        case None => JObj([("raw_analysis", JStr(response))])
        case Some(v) => v
  }

  /** A fenced reply is analysed as its body: the parsed body, or the whole reply when the body does not parse. */
  lemma FencedReplyAnalysed(lang: string, body: string, parse: string -> Option<Json>)
    requires '\n' !in lang
    ensures var reply := Fence + lang + "\n" + body + Fence;
      AnalysisOf(Ok(reply), parse) == (if parse(Strip(body)).Some? then parse(Strip(body)).value else JObj([("raw_analysis", JStr(reply))]))
  {
    FencedReplyBody(lang, body);
  }

  /** A failed call, or a reply opening with a bare fence, is reported under "error" and never parsed. */
  lemma FailuresReportedAsError(e: string, parse: string -> Option<Json>)
    ensures AnalysisOf(Err(e), parse) == JObj([("error", JStr(e))])
    ensures AnalysisOf(Ok(Fence), parse) == JObj([("error", JStr(IndexErrorText))])
  {
    BareFenceRaises();
  }

  /** `backend.chat(prompt, system_prompt, temperature, max_tokens)`, as a function of its arguments. */
  type ChatFn = (string, string, real, int) -> Result<string>

  /** The `chat` of a backend instance: what `Backends.ChatSpec` gives for it over the provider calls. */
  function BackendChat(backend: AnyBackend, apis: Apis): ChatFn {
    (prompt, system, temperature, maxTokens) => ChatSpec(backend, prompt, system, temperature, maxTokens, apis)
  }

  function AnalyzeSpec(chat: ChatFn, texts: PromptTexts, t: Topic, parse: string -> Option<Json>): Json {
    AnalysisOf(chat(AnalysisPrompt(texts, t), texts.analysisSystem, 0.3, 4096), parse)
  }

  /** The `try` body of `_analyze_topic` after the `chat` call: the fence handling and the parse. */
  method AnalyzeReply(response: string, parse: string -> Option<Json>) returns (analysis: Json)
    ensures analysis == AnalysisOf(Ok(response), parse)
  {
    var body := FenceBody(response);
    if body.Err? {
      return JObj([("error", JStr(body.error))]);
    }
    var parsed := parse(Strip(body.value));
    if parsed.None? {
      return JObj([("raw_analysis", JStr(response))]);
    }
    analysis := parsed.value;
  }

  /** `_analyze_topic`: one `chat` call at temperature 0.3; nothing it raises escapes. */
  method AnalyzeTopic(chat: ChatFn, texts: PromptTexts, t: Topic, parse: string -> Option<Json>) returns (analysis: Json)
    ensures analysis == AnalyzeSpec(chat, texts, t, parse)
  {
    var response := chat(AnalysisPrompt(texts, t), texts.analysisSystem, 0.3, 4096);
    if response.Err? {
      return JObj([("error", JStr(response.error))]);
    }
    analysis := AnalyzeReply(response.value, parse);
  }

  // ------------------------------------------------------------------ the summary

  /** `f"{rank}. {title} (热度: {hot_value:,})"`. */
  function SummaryLine(t: Topic): string {
    IntToString(t.rank) + ". " + t.title + " (热度: " + FormatThousands(t.hotValue) + ")"
  }

  /** The hot value can be read back from the end of its summary line. */
  lemma SummaryLineHotValue(t: Topic)
    ensures var tail := " (热度: " + FormatThousands(t.hotValue) + ")";
      EndsWith(SummaryLine(t), tail) && ParseThousands(FormatThousands(t.hotValue)) == Some(t.hotValue)
  {
    var tail := " (热度: " + FormatThousands(t.hotValue) + ")";
    var line := SummaryLine(t);
    var head := IntToString(t.rank) + ". " + t.title;
    assert line == head + tail;
    assert line[|line| - |tail|..] == tail;
    FormatThousandsRoundTrip(t.hotValue);
  }

  function SummaryLines(topics: seq<Topic>): (r: seq<string>)
    ensures |r| == |topics|
  {
    seq(|topics|, i requires 0 <= i < |topics| => SummaryLine(topics[i]))
  }

  /** The prompt `_generate_summary` sends: one line per topic, joined by line breaks, in topic order. */
  function SummaryPrompt(texts: PromptTexts, topics: seq<Topic>): string {
    "基于以下微博热搜榜单，生成一份综合洞察报告：\n\n" + Join(SummaryLines(topics), "\n")
    + texts.summaryInstructions
  }

  // ------------------------------------------------------------------ execute

  /**
   * What `execute` needs from outside: the hot-search request's outcome, the provider
   * calls behind the backend, the JSON parser, and the `isoformat()` text of the clock
   * reading it stamps.
   */
  datatype Env = Env(fetch: FetchOutcome, apis: Apis, parse: string -> Option<Json>, fetchedAt: string)

  function Min(a: nat, b: nat): nat {
    if a < b then a else b
  }

  /** The analysed topics, in order, each with its analysis appended. */
  function AnalyzedTopics(chat: ChatFn, texts: PromptTexts, topics: seq<Topic>, parse: string -> Option<Json>): (r: seq<Json>)
    ensures |r| == |topics|
  {
    if topics == [] then []
    else
      var last := topics[|topics| - 1];
      AnalyzedTopics(chat, texts, topics[..|topics| - 1], parse) + [WithAnalysis(last, AnalyzeSpec(chat, texts, last, parse))]
  }

  /** Topic `i` is analysed on its own: its entry is the topic with its own analysis. */
  lemma {:induction false} AnalyzedTopicAt(chat: ChatFn, texts: PromptTexts, topics: seq<Topic>, parse: string -> Option<Json>, i: int)
    requires 0 <= i < |topics|
    ensures AnalyzedTopics(chat, texts, topics, parse)[i] == WithAnalysis(topics[i], AnalyzeSpec(chat, texts, topics[i], parse))
    decreases |topics|
  {
    var init := topics[..|topics| - 1];
    if i < |topics| - 1 {
      AnalyzedTopicAt(chat, texts, init, parse, i);
      assert init[i] == topics[i];
    }
  }

  /** Analysing one more topic appends that topic's entry and leaves the earlier ones alone. */
  lemma AnalyzedTopicsStep(chat: ChatFn, texts: PromptTexts, topics: seq<Topic>, parse: string -> Option<Json>, i: int)
    requires 0 <= i < |topics|
    ensures AnalyzedTopics(chat, texts, topics[..i + 1], parse)
      == AnalyzedTopics(chat, texts, topics[..i], parse) + [WithAnalysis(topics[i], AnalyzeSpec(chat, texts, topics[i], parse))]
  {
    assert topics[..i + 1][..i] == topics[..i];
  }

  const NoDataError: string := "获取热搜数据失败"

  /** What `execute` returns when the backend's `chat` is `chat`. */
  function ExecuteSpec(chat: ChatFn, texts: PromptTexts, env: Env): SkillResult {
    var all := FetchTrending(env.fetch);
    if all == [] then SkillResult(Failed, map[], Some(NoDataError), None, None)
    else
      var topics := all[..Min(|all|, MaxTopics)];
      var analyzed := AnalyzedTopics(chat, texts, topics, env.parse);
      match chat(SummaryPrompt(texts, topics), texts.summarySystem, 0.5, 4096)
      case Err(e) => SkillResult(Failed, map[], Some(e), None, None)
      case Ok(summary) =>
        SkillResult(Success,
          map["topics" := JArr(analyzed), "summary" := JStr(summary), "fetched_at" := JStr(env.fetchedAt),
              "total_count" := JInt(|all|), "analyzed_count" := JInt(|analyzed|)],
          None, None, None)
  }

  /** The `for topic in trending_list[:MAX_TOPICS]` loop appending each analysed topic. */
  method AnalyzeAll(chat: ChatFn, texts: PromptTexts, topics: seq<Topic>, parse: string -> Option<Json>) returns (analyzed: seq<Json>)
    ensures analyzed == AnalyzedTopics(chat, texts, topics, parse)
  {
    analyzed := [];
    for i := 0 to |topics|
      invariant analyzed == AnalyzedTopics(chat, texts, topics[..i], parse)
    {
      var analysis := AnalyzeTopic(chat, texts, topics[i], parse);
      AnalyzedTopicsStep(chat, texts, topics, parse, i);
      analyzed := analyzed + [WithAnalysis(topics[i], analysis)];
    }
    assert topics[..|topics|] == topics;
  }

  /** `execute`, with the context's backend's `chat` as `chat`: everything that can raise inside it is turned into a FAILED result. */
  method Execute(chat: ChatFn, texts: PromptTexts, env: Env) returns (r: SkillResult)
    ensures r == ExecuteSpec(chat, texts, env)
  {
    var all := FetchTrending(env.fetch);
    if |all| == 0 {
      return SkillResult(Failed, map[], Some(NoDataError), None, None);
    }
    var topics := all[..Min(|all|, MaxTopics)];
    var analyzed := AnalyzeAll(chat, texts, topics, env.parse);
    var summary := chat(SummaryPrompt(texts, topics), texts.summarySystem, 0.5, 4096);
    if summary.Err? {
      return SkillResult(Failed, map[], Some(summary.error), None, None);
    }
    r := SkillResult(Success,
      map["topics" := JArr(analyzed), "summary" := JStr(summary.value), "fetched_at" := JStr(env.fetchedAt),
          "total_count" := JInt(|all|), "analyzed_count" := JInt(|analyzed|)],
      None, None, None);
  }

  /** No topics at all is a failure with its own message, and the result carries no data and no stamps. */
  lemma ExecuteWithoutTopics(chat: ChatFn, texts: PromptTexts, env: Env)
    requires FetchTrending(env.fetch) == []
    ensures ExecuteSpec(chat, texts, env) == SkillResult(Failed, map[], Some(NoDataError), None, None)
  {
  }

  /** The run succeeds exactly when there are topics and the summary call succeeds; otherwise it fails with the summary call's error. */
  lemma ExecuteOutcome(chat: ChatFn, texts: PromptTexts, env: Env)
    ensures var all := FetchTrending(env.fetch); var r := ExecuteSpec(chat, texts, env);
      && (r.status == Success || r.status == Failed)
      && (r.status == Success <==> (all != [] &&
            chat(SummaryPrompt(texts, all[..Min(|all|, MaxTopics)]), texts.summarySystem, 0.5, 4096).Ok?))
      && (r.status == Failed && all != [] ==>
            r.error == Some(chat(SummaryPrompt(texts, all[..Min(|all|, MaxTopics)]), texts.summarySystem, 0.5, 4096).error))
  {
  }

  /** A successful run counts every topic, analyses at most ten, and carries exactly the five data keys. */
  lemma ExecuteSuccessData(chat: ChatFn, texts: PromptTexts, env: Env)
    requires ExecuteSpec(chat, texts, env).status == Success
    ensures var all := FetchTrending(env.fetch); var r := ExecuteSpec(chat, texts, env);
      && r.data.Keys == {"topics", "summary", "fetched_at", "total_count", "analyzed_count"}
      && r.data["total_count"] == JInt(|all|)
      && r.data["analyzed_count"] == JInt(Min(|all|, MaxTopics))
      && r.data["topics"] == JArr(AnalyzedTopics(chat, texts, all[..Min(|all|, MaxTopics)], env.parse))
  {
  }

  /** Each analysed topic keeps every field of the topic it came from, in place, followed by its analysis. */
  lemma AnalyzedTopicsKeepFields(chat: ChatFn, texts: PromptTexts, topics: seq<Topic>, parse: string -> Option<Json>, i: int)
    requires 0 <= i < |topics|
    ensures var j := AnalyzedTopics(chat, texts, topics, parse)[i];
      j.JObj? && |j.fields| == 7 && j.fields[..6] == TopicJson(topics[i]).fields && j.fields[6].0 == "analysis"
  {
    AnalyzedTopicAt(chat, texts, topics, parse, i);
  }

  /** The skill class: its attributes, default hooks, and `execute` over the given environment. */
  function WeiboTrendingSkill(env: Env): (c: SkillClass)
    ensures c.name == "weibo_trending" && c.defaultBackend == "antigravity" && c.version == "1.0.0"
    ensures c.schedule == Some("0 */6 * * *") && c.tags == ["social", "trending", "analysis"]
    ensures c.derivesFromBase && !c.isBase
    ensures forall ctx :: c.execute(ctx) == Ok(ExecuteSpec(BackendChat(ctx.backend, env.apis), Prompts, env))
  {
    SkillClass("weibo_trending", "获取并分析微博热搜榜，生成深度洞察报告", "1.0.0", "antigravity",
      Some("0 */6 * * *"), ["social", "trending", "analysis"], true, false,
      _ => Pass, (ctx: SkillContext) => Ok(ExecuteSpec(BackendChat(ctx.backend, env.apis), Prompts, env)), (_, _) => Pass)
  }
}
