/**
 * The database records: `RunStatus`, `SkillRun`, `SkillResult`, `Report`, `TrendingTopic`
 * with their defaults, `TABLE_NAMES`, the dictionaries `model_dump` gives for them, and the
 * validation that builds a `TrendingTopic` from a dictionary.
 *
 * A `datetime` is a `nat` clock reading; its `isoformat()` text and `fromisoformat` parse
 * are parameters (`iso`, `fromIso`). Durations are whole clock ticks.
 */
module DbModels {
  import opened Wrappers
  import opened JsonValue

  /** `RunStatus`, a `str` enum. */
  datatype RunStatus = Pending | Running | Success | Failed | Partial {
    function Value(): string {
      match this
      case Pending => "pending"
      case Running => "running"
      case Success => "success"
      case Failed => "failed"
      case Partial => "partial"
    }
  }

  /** `RunStatus(value)`: the member whose value is `value`, else the enum's `ValueError`. The value is quoted with `'` even where Python's `repr` would pick `"` (a value holding `'`). */
  function RunStatusOf(value: string): (r: Result<RunStatus>)
    ensures r.Ok? ==> r.value.Value() == value
    ensures r.Err? ==> forall s: RunStatus :: s.Value() != value
  {
    if value == "pending" then Ok(Pending)
    else if value == "running" then Ok(Running)
    else if value == "success" then Ok(Success)
    else if value == "failed" then Ok(Failed)
    else if value == "partial" then Ok(Partial)
    else Err("'" + value + "' is not a valid RunStatus")
  }

  /** Every status is found again from its value, and there are exactly five values. */
  lemma RunStatusValues(s: RunStatus)
    ensures RunStatusOf(s.Value()) == Ok(s)
    ensures s.Value() in {"pending", "running", "success", "failed", "partial"}
  {
  }

  /** A record's `dict[str, Any]` field, in insertion order. */
  type Fields = seq<(string, Json)>

  function OptStr(o: Option<string>): Json {
    if o.Some? then JStr(o.value) else JNull
  }

  function OptInt(o: Option<int>): Json {
    if o.Some? then JInt(o.value) else JNull
  }

  function Strings(s: seq<string>): (r: seq<Json>)
    ensures |r| == |s| && forall i :: 0 <= i < |s| ==> r[i] == JStr(s[i])
  {
    seq(|s|, i requires 0 <= i < |s| => JStr(s[i]))
  }

  // ------------------------------------------------------------------ SkillRun

  /** `SkillRun`; `status` is kept as the enum (`use_enum_values` stores its value). */
  datatype SkillRun = SkillRun(
    id: string,
    skillName: string,
    status: RunStatus,
    startedAt: nat,
    finishedAt: Option<nat>,
    durationSeconds: Option<int>,
    backendUsed: Option<string>,
    params: Fields,
    errorMessage: Option<string>,
    reportId: Option<string>)

  /** `SkillRun(id=..., skill_name=..., params=...)` created at `now`, every other field at its default. */
  function NewSkillRun(id: string, skillName: string, params: Fields, now: nat): (r: SkillRun)
    ensures r.id == id && r.skillName == skillName && r.params == params && r.startedAt == now
    ensures r.status == Pending && r.finishedAt == None && r.durationSeconds == None
    ensures r.backendUsed == None && r.errorMessage == None && r.reportId == None
  {
    SkillRun(id, skillName, Pending, now, None, None, None, params, None, None)
  }

  /** `run.model_dump()` with `started_at` (and a set `finished_at`) written as ISO text. */
  function SkillRunRecord(r: SkillRun, iso: nat -> string): Json {
    JObj([("id", JStr(r.id)), ("skill_name", JStr(r.skillName)), ("status", JStr(r.status.Value())),
      ("started_at", JStr(iso(r.startedAt))),
      ("finished_at", if r.finishedAt.Some? then JStr(iso(r.finishedAt.value)) else JNull),
      ("duration_seconds", OptInt(r.durationSeconds)), ("backend_used", OptStr(r.backendUsed)),
      ("params", JObj(r.params)), ("error_message", OptStr(r.errorMessage)), ("report_id", OptStr(r.reportId))])
  }

  // ------------------------------------------------------------------ SkillResult

  /** The stored `SkillResult` record (not the result a run returns). */
  datatype SkillResult = SkillResult(
    id: string,
    runId: string,
    skillName: string,
    createdAt: nat,
    data: Fields,
    summary: Option<string>,
    version: Option<string>,
    tags: seq<string>)

  function NewSkillResult(id: string, runId: string, skillName: string, data: Fields, summary: Option<string>, now: nat): (r: SkillResult)
    ensures r.id == id && r.runId == runId && r.skillName == skillName && r.createdAt == now
    ensures r.data == data && r.summary == summary && r.version == None && r.tags == []
  {
    SkillResult(id, runId, skillName, now, data, summary, None, [])
  }

  function SkillResultRecord(r: SkillResult, iso: nat -> string): Json {
    JObj([("id", JStr(r.id)), ("run_id", JStr(r.runId)), ("skill_name", JStr(r.skillName)),
      ("created_at", JStr(iso(r.createdAt))), ("data", JObj(r.data)), ("summary", OptStr(r.summary)),
      ("version", OptStr(r.version)), ("tags", JArr(Strings(r.tags)))])
  }

  // ------------------------------------------------------------------ Report

  datatype Report = Report(
    id: string,
    runId: string,
    skillName: string,
    createdAt: nat,
    title: string,
    contentHtml: string,
    contentMarkdown: Option<string>,
    filePath: Option<string>,
    isPublished: bool,
    publishedUrl: Option<string>)

  function NewReport(id: string, runId: string, skillName: string, title: string, contentHtml: string,
                     contentMarkdown: Option<string>, filePath: Option<string>, now: nat): (r: Report)
    ensures r.id == id && r.runId == runId && r.skillName == skillName && r.createdAt == now
    ensures r.title == title && r.contentHtml == contentHtml
    ensures r.contentMarkdown == contentMarkdown && r.filePath == filePath
    ensures !r.isPublished && r.publishedUrl == None
  {
    Report(id, runId, skillName, now, title, contentHtml, contentMarkdown, filePath, false, None)
  }

  function ReportRecord(r: Report, iso: nat -> string): Json {
    JObj([("id", JStr(r.id)), ("run_id", JStr(r.runId)), ("skill_name", JStr(r.skillName)),
      ("created_at", JStr(iso(r.createdAt))), ("title", JStr(r.title)), ("content_html", JStr(r.contentHtml)),
      ("content_markdown", OptStr(r.contentMarkdown)), ("file_path", OptStr(r.filePath)),
      ("is_published", JBool(r.isPublished)), ("published_url", OptStr(r.publishedUrl))])
  }

  /** A dumped run holds each field name once. */
  lemma SkillRunRecordKeys(r: SkillRun, iso: nat -> string)
    ensures DistinctKeys(SkillRunRecord(r, iso).fields)
  {
    var f := SkillRunRecord(r, iso).fields;
    var names := ["id", "skill_name", "status", "started_at", "finished_at", "duration_seconds",
      "backend_used", "params", "error_message", "report_id"];
    assert forall i :: 0 <= i < |f| ==> f[i].0 == names[i];
  }

  /** In a dumped run, the status, times and parameters read back. */
  lemma SkillRunRecordReadsBack(r: SkillRun, iso: nat -> string)
    ensures var f := SkillRunRecord(r, iso).fields;
      && Get(f, "status") == Some(JStr(r.status.Value())) && RunStatusOf(r.status.Value()) == Ok(r.status)
      && Get(f, "started_at") == Some(JStr(iso(r.startedAt)))
      && (Get(f, "finished_at") == Some(JNull) <==> r.finishedAt.None?)
      && Get(f, "params") == Some(JObj(r.params))
  {
    var f := SkillRunRecord(r, iso).fields;
    SkillRunRecordKeys(r, iso);
    GetAt(f, 2);
    GetAt(f, 3);
    GetAt(f, 4);
    GetAt(f, 7);
    RunStatusValues(r.status);
  }

  /** A dumped result holds each field name once. */
  lemma SkillResultRecordKeys(r: SkillResult, iso: nat -> string)
    ensures DistinctKeys(SkillResultRecord(r, iso).fields)
  {
    var f := SkillResultRecord(r, iso).fields;
    var names := ["id", "run_id", "skill_name", "created_at", "data", "summary", "version", "tags"];
    assert forall i :: 0 <= i < |f| ==> f[i].0 == names[i];
  }

  /** In a dumped result, the data and tags read back. */
  lemma SkillResultRecordReadsBack(r: SkillResult, iso: nat -> string)
    ensures var f := SkillResultRecord(r, iso).fields;
      && Get(f, "created_at") == Some(JStr(iso(r.createdAt)))
      && Get(f, "data") == Some(JObj(r.data))
      && Get(f, "tags").Some? && Get(f, "tags").value.JArr?
      && AsStrings(Get(f, "tags").value.items) == Some(r.tags)
  {
    var f := SkillResultRecord(r, iso).fields;
    SkillResultRecordKeys(r, iso);
    GetAt(f, 3);
    GetAt(f, 4);
    GetAt(f, 7);
    StringsRoundTrip(r.tags);
  }

  /** A dumped report holds each field name once. */
  lemma ReportRecordKeys(r: Report, iso: nat -> string)
    ensures DistinctKeys(ReportRecord(r, iso).fields)
  {
    var f := ReportRecord(r, iso).fields;
    var names := ["id", "run_id", "skill_name", "created_at", "title", "content_html",
      "content_markdown", "file_path", "is_published", "published_url"];
    assert forall i :: 0 <= i < |f| ==> f[i].0 == names[i];
  }

  /** In a dumped report, the title, contents and publication state read back. */
  lemma ReportRecordReadsBack(r: Report, iso: nat -> string)
    ensures var f := ReportRecord(r, iso).fields;
      && Get(f, "title") == Some(JStr(r.title)) && Get(f, "content_html") == Some(JStr(r.contentHtml))
      && (Get(f, "content_markdown") == Some(JNull) <==> r.contentMarkdown.None?)
      && Get(f, "is_published") == Some(JBool(r.isPublished))
  {
    var f := ReportRecord(r, iso).fields;
    ReportRecordKeys(r, iso);
    GetAt(f, 4);
    GetAt(f, 5);
    GetAt(f, 6);
    GetAt(f, 8);
  }

  // ------------------------------------------------------------------ TrendingTopic

  datatype TrendingTopic = TrendingTopic(
    id: string,
    runId: string,
    fetchedAt: nat,
    rank: int,
    title: string,
    hotValue: int,
    category: Option<string>,
    isHot: bool,
    isNew: bool,
    analysis: Fields,
    sentiment: Option<string>,
    keywords: seq<string>)

  /** `t.model_dump()` with `fetched_at` written as ISO text. */
  function TopicRecord(t: TrendingTopic, iso: nat -> string): (j: Json)
    ensures j.JObj?
  {
    JObj([("id", JStr(t.id)), ("run_id", JStr(t.runId)), ("fetched_at", JStr(iso(t.fetchedAt))),
      ("rank", JInt(t.rank)), ("title", JStr(t.title)), ("hot_value", JInt(t.hotValue)),
      ("category", OptStr(t.category)), ("is_hot", JBool(t.isHot)), ("is_new", JBool(t.isNew)),
      ("analysis", JObj(t.analysis)), ("sentiment", OptStr(t.sentiment)), ("keywords", JArr(Strings(t.keywords)))])
  }

  const TopicFieldNames: seq<string> :=
    ["id", "run_id", "fetched_at", "rank", "title", "hot_value", "category", "is_hot", "is_new", "analysis", "sentiment", "keywords"]

  /** The text of a failed validation; the model does not reproduce pydantic's message. */
  function InvalidField(name: string): string {
    "1 validation error for TrendingTopic\n" + name
  }

  /** A required field: present with the value's own type. */
  function RequiredStr(fields: Fields, name: string): Result<string> {
    match Get(fields, name)
    case Some(JStr(s)) => Ok(s)
    case _ => Err(InvalidField(name))
  }

  function RequiredInt(fields: Fields, name: string): Result<int> {
    match Get(fields, name)
    case Some(JInt(i)) => Ok(i)
    case _ => Err(InvalidField(name))
  }

  /** A `str | None` field that defaults to `None`. */
  function OptionalStr(fields: Fields, name: string): Result<Option<string>> {
    match Get(fields, name)
    case None => Ok(None)
    case Some(JNull) => Ok(None)
    case Some(JStr(s)) => Ok(Some(s))
    case _ => Err(InvalidField(name))
  }

  /** A `bool` field that defaults to `False`. */
  function FlagField(fields: Fields, name: string): Result<bool> {
    match Get(fields, name)
    case None => Ok(false)
    case Some(JBool(b)) => Ok(b)
    case _ => Err(InvalidField(name))
  }

  /** A `dict` field that defaults to `{}`. */
  function DictField(fields: Fields, name: string): Result<Fields> {
    match Get(fields, name)
    case None => Ok([])
    case Some(JObj(f)) => Ok(f)
    case _ => Err(InvalidField(name))
  }

  function AsStrings(items: seq<Json>): (r: Option<seq<string>>)
    ensures r.Some? ==> Strings(r.value) == items
  {
    if items == [] then Some([])
    else match items[0]
      case JStr(s) =>
        (match AsStrings(items[1..])
         case Some(rest) => assert Strings([s] + rest) == [JStr(s)] + Strings(rest); Some([s] + rest)
         case None => None)
      case _ => None
  }

  /** A `list[str]` field that defaults to `[]`. */
  function StringsField(fields: Fields, name: string): Result<seq<string>> {
    match Get(fields, name)
    case None => Ok([])
    case Some(JArr(items)) => (match AsStrings(items) case Some(s) => Ok(s) case None => Err(InvalidField(name)))
    case _ => Err(InvalidField(name))
  }

  /** A `datetime` field that defaults to the clock reading `now`; a text is read with `fromIso`. */
  function TimeField(fields: Fields, name: string, now: nat, fromIso: string -> Option<nat>): Result<nat> {
    match Get(fields, name)
    case None => Ok(now)
    case Some(JStr(s)) => (match fromIso(s) case Some(t) => Ok(t) case None => Err(InvalidField(name)))
    case _ => Err(InvalidField(name))
  }

  /**
   * `TrendingTopic(**fields)`: every field validated against its type, the missing ones at
   * their defaults (`fetched_at` is `now`); keys that are not fields are ignored.
   */
  function ValidateTopic(fields: Fields, now: nat, fromIso: string -> Option<nat>): Result<TrendingTopic> {
    var id := RequiredStr(fields, "id");
    var runId := RequiredStr(fields, "run_id");
    var fetchedAt := TimeField(fields, "fetched_at", now, fromIso);
    var rank := RequiredInt(fields, "rank");
    var title := RequiredStr(fields, "title");
    var hotValue := RequiredInt(fields, "hot_value");
    var category := OptionalStr(fields, "category");
    var isHot := FlagField(fields, "is_hot");
    var isNew := FlagField(fields, "is_new");
    var analysis := DictField(fields, "analysis");
    var sentiment := OptionalStr(fields, "sentiment");
    var keywords := StringsField(fields, "keywords");
    if id.Err? then Err(id.error)
    else if runId.Err? then Err(runId.error)
    else if fetchedAt.Err? then Err(fetchedAt.error)
    else if rank.Err? then Err(rank.error)
    else if title.Err? then Err(title.error)
    else if hotValue.Err? then Err(hotValue.error)
    else if category.Err? then Err(category.error)
    else if isHot.Err? then Err(isHot.error)
    else if isNew.Err? then Err(isNew.error)
    else if analysis.Err? then Err(analysis.error)
    else if sentiment.Err? then Err(sentiment.error)
    else if keywords.Err? then Err(keywords.error)
    else Ok(TrendingTopic(id.value, runId.value, fetchedAt.value, rank.value, title.value, hotValue.value,
      category.value, isHot.value, isNew.value, analysis.value, sentiment.value, keywords.value))
  }

  /** A topic without `title`, `rank` or `hot_value` is refused. */
  lemma RequiredTopicFields(fields: Fields, now: nat, fromIso: string -> Option<nat>)
    requires Get(fields, "title").None? || Get(fields, "rank").None? || Get(fields, "hot_value").None?
    ensures ValidateTopic(fields, now, fromIso).Err?
  {
  }

  /** A field left out of the dictionary takes its default. */
  lemma TopicDefaults(fields: Fields, now: nat, fromIso: string -> Option<nat>)
    requires ValidateTopic(fields, now, fromIso).Ok?
    ensures var t := ValidateTopic(fields, now, fromIso).value;
      && (Get(fields, "fetched_at").None? ==> t.fetchedAt == now)
      && (Get(fields, "category").None? ==> t.category == None)
      && (Get(fields, "is_hot").None? ==> !t.isHot)
      && (Get(fields, "is_new").None? ==> !t.isNew)
      && (Get(fields, "analysis").None? ==> t.analysis == [])
      && (Get(fields, "sentiment").None? ==> t.sentiment == None)
      && (Get(fields, "keywords").None? ==> t.keywords == [])
  {
  }

  /** A dumped topic validates back to itself when the clock's ISO text reads back. */
  lemma TopicRecordRoundTrip(t: TrendingTopic, now: nat, iso: nat -> string, fromIso: string -> Option<nat>)
    requires fromIso(iso(t.fetchedAt)) == Some(t.fetchedAt)
    ensures ValidateTopic(TopicRecord(t, iso).fields, now, fromIso) == Ok(t)
  {
    var f := TopicRecord(t, iso).fields;
    TopicRecordIds(t, iso, now, fromIso);
    TopicRecordCounts(t, iso);
    TopicRecordFlags(t, iso);
    TopicRecordAnalysis(t, iso);
    ValidateFromFields(f, now, fromIso, t);
  }

  lemma TopicRecordIds(t: TrendingTopic, iso: nat -> string, now: nat, fromIso: string -> Option<nat>)
    requires fromIso(iso(t.fetchedAt)) == Some(t.fetchedAt)
    ensures var f := TopicRecord(t, iso).fields;
      RequiredStr(f, "id") == Ok(t.id) && RequiredStr(f, "run_id") == Ok(t.runId)
      && TimeField(f, "fetched_at", now, fromIso) == Ok(t.fetchedAt)
  {
    var f := TopicRecord(t, iso).fields;
    TopicRecordKeys(t, iso);
    GetAt(f, 0);
    GetAt(f, 1);
    GetAt(f, 2);
  }

  lemma TopicRecordCounts(t: TrendingTopic, iso: nat -> string)
    ensures var f := TopicRecord(t, iso).fields;
      RequiredInt(f, "rank") == Ok(t.rank) && RequiredStr(f, "title") == Ok(t.title)
      && RequiredInt(f, "hot_value") == Ok(t.hotValue)
  {
    var f := TopicRecord(t, iso).fields;
    TopicRecordKeys(t, iso);
    GetAt(f, 3);
    GetAt(f, 4);
    GetAt(f, 5);
  }

  lemma TopicRecordFlags(t: TrendingTopic, iso: nat -> string)
    ensures var f := TopicRecord(t, iso).fields;
      OptionalStr(f, "category") == Ok(t.category) && FlagField(f, "is_hot") == Ok(t.isHot)
      && FlagField(f, "is_new") == Ok(t.isNew)
  {
    var f := TopicRecord(t, iso).fields;
    TopicRecordKeys(t, iso);
    GetAt(f, 6);
    GetAt(f, 7);
    GetAt(f, 8);
  }

  lemma TopicRecordAnalysis(t: TrendingTopic, iso: nat -> string)
    ensures var f := TopicRecord(t, iso).fields;
      DictField(f, "analysis") == Ok(t.analysis) && OptionalStr(f, "sentiment") == Ok(t.sentiment)
      && StringsField(f, "keywords") == Ok(t.keywords)
  {
    var f := TopicRecord(t, iso).fields;
    TopicRecordKeys(t, iso);
    GetAt(f, 9);
    GetAt(f, 10);
    GetAt(f, 11);
    StringsRoundTrip(t.keywords);
  }

  /** Validation succeeds with the topic whose fields each lookup gives. */
  lemma ValidateFromFields(f: Fields, now: nat, fromIso: string -> Option<nat>, t: TrendingTopic)
    requires RequiredStr(f, "id") == Ok(t.id) && RequiredStr(f, "run_id") == Ok(t.runId)
    requires TimeField(f, "fetched_at", now, fromIso) == Ok(t.fetchedAt)
    requires RequiredInt(f, "rank") == Ok(t.rank) && RequiredStr(f, "title") == Ok(t.title)
    requires RequiredInt(f, "hot_value") == Ok(t.hotValue) && OptionalStr(f, "category") == Ok(t.category)
    requires FlagField(f, "is_hot") == Ok(t.isHot) && FlagField(f, "is_new") == Ok(t.isNew)
    requires DictField(f, "analysis") == Ok(t.analysis) && OptionalStr(f, "sentiment") == Ok(t.sentiment)
    requires StringsField(f, "keywords") == Ok(t.keywords)
    ensures ValidateTopic(f, now, fromIso) == Ok(t)
  {
  }

  /** A dumped topic holds each field name once. */
  lemma TopicRecordKeys(t: TrendingTopic, iso: nat -> string)
    ensures DistinctKeys(TopicRecord(t, iso).fields)
  {
    var f := TopicRecord(t, iso).fields;
    assert forall i :: 0 <= i < |f| ==> f[i].0 == TopicFieldNames[i];
  }

  lemma {:induction false} StringsRoundTrip(s: seq<string>)
    ensures AsStrings(Strings(s)) == Some(s)
    decreases |s|
  {
    if s != [] {
      StringsRoundTrip(s[1..]);
      assert Strings(s)[1..] == Strings(s[1..]);
      assert [s[0]] + s[1..] == s;
    }
  }

  // ------------------------------------------------------------------ tables

  /** The record type a table holds. */
  datatype RecordType = SkillRunType | SkillResultType | ReportType | TrendingTopicType

  /** `TABLE_NAMES`. */
  const TableNames: map<string, RecordType> := map[
    "skill_runs" := SkillRunType,
    "skill_results" := SkillResultType,
    "reports" := ReportType,
    "trending_topics" := TrendingTopicType]

  /** Four tables, one per record type. */
  lemma TableNamesOnePerType(t: RecordType)
    ensures |TableNames.Keys| == 4
    ensures exists name :: name in TableNames && TableNames[name] == t
    ensures forall a, b :: a in TableNames && b in TableNames && TableNames[a] == TableNames[b] ==> a == b
  {
    assert TableNames.Keys == {"skill_runs", "skill_results", "reports", "trending_topics"};
    match t
    case SkillRunType => assert TableNames["skill_runs"] == t;
    case SkillResultType => assert TableNames["skill_results"] == t;
    case ReportType => assert TableNames["reports"] == t;
    case TrendingTopicType => assert TableNames["trending_topics"] == t;
  }
}
