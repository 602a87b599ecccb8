/**
 * `DatabaseClient`: the lazily created Supabase connection, the request each operation
 * sends (recorded as a query plan instead of being run), and the records the run, result,
 * report and trending-topic operations build.
 *
 * The remote store is a `Remote` object that logs every plan it is sent and answers each
 * with the rows a function of the earlier plans and the new one gives. `uuid4()` values
 * and clock readings are parameters; `isoformat`/`fromisoformat` are `iso`/`fromIso`.
 */
module DbClient {
  import opened Wrappers
  import opened JsonValue
  import opened PyText
  import opened Config
  import opened DbModels

  /** One call on a table's request builder. */
  datatype Step =
    | Select(columns: string)
    | Insert(payload: Json)
    | Update(payload: Json)
    | Eq(column: string, value: Json)
    | Order(column: string, desc: bool)
    | Limit(count: int)
    | Single

  /** `client.table(table)` followed by the builder calls, in the order they were made. */
  datatype Plan = Plan(table: string, steps: seq<Step>)

  /** What `create_client(url, key)` returns. */
  datatype Connection = Connection(url: string, key: string)

  /** The rows the store answers a plan with, given the plans it was sent before; `Err` is a raised `APIError`. */
  type Answer = (seq<Plan>, Plan) -> Result<seq<Json>>

  const NotConfigured := "Supabase URL 和 Key 未配置"
  const SingleRowError := "JSON object requested, multiple (or no) rows returned"

  /** `execute().data`: the rows as a list, or, after `.single()`, the one row (any other count is refused). */
  function Data(p: Plan, rows: Result<seq<Json>>): (r: Result<Json>)
    ensures rows.Err? ==> r == Err(rows.error)
    ensures rows.Ok? && Single !in p.steps ==> r == Ok(JArr(rows.value))
    ensures rows.Ok? && Single in p.steps ==> (r.Ok? <==> |rows.value| == 1)
    ensures rows.Ok? && Single in p.steps && r.Ok? ==> r.value == rows.value[0]
  {
    if rows.Err? then Err(rows.error)
    else if Single in p.steps then (if |rows.value| == 1 then Ok(rows.value[0]) else Err(SingleRowError))
    else Ok(JArr(rows.value))
  }

  /**
   * Sending `p` through a client: unconfigured, the `client` property raises before anything
   * is sent; otherwise the plan joins the log and its answer comes back.
   */
  function Exchange(configured: bool, answer: Answer, log: seq<Plan>, p: Plan): (Result<Json>, seq<Plan>) {
    if !configured then (Err(NotConfigured), log)
    else (Data(p, answer(log, p)), log + [p])
  }

  // ------------------------------------------------------------------ plans

  function InsertPlan(table: string, data: Json): Plan {
    Plan(table, [Insert(data)])
  }

  function UpdatePlan(table: string, id: string, data: Json): Plan {
    Plan(table, [Update(data), Eq("id", JStr(id))])
  }

  function ByIdPlan(table: string, id: string): Plan {
    Plan(table, [Select("*"), Eq("id", JStr(id)), Single])
  }

  /** One equality filter per entry of `filters`, in the mapping's order. */
  function EqSteps(filters: Fields): (r: seq<Step>)
    ensures |r| == |filters|
    ensures forall i :: 0 <= i < |filters| ==> r[i] == Eq(filters[i].0, filters[i].1)
  {
    seq(|filters|, i requires 0 <= i < |filters| => Eq(filters[i].0, filters[i].1))
  }

  /** `order(column, desc=...)` for an `order_by` text: a leading `-` means descending and every leading `-` is dropped. */
  function OrderStep(orderBy: string): Step {
    Order(LStripChar(orderBy, '-'), StartsWith(orderBy, "-"))
  }

  /** The request `query` builds: `select("*")`, the filters, an order for a non-empty `order_by`, a limit for a non-zero `limit`. */
  function QueryPlan(table: string, filters: Fields, orderBy: Option<string>, limit: Option<int>): Plan {
    Plan(table, [Select("*")] + EqSteps(filters)
      + (if orderBy.Some? && orderBy.value != "" then [OrderStep(orderBy.value)] else [])
      + (if limit.Some? && limit.value != 0 then [Limit(limit.value)] else []))
  }

  /** The equality filters of a plan, in order: what a reader of the request recovers as `filters`. */
  function Filters(steps: seq<Step>): seq<(string, Json)> {
    if steps == [] then []
    else (if steps[0].Eq? then [(steps[0].column, steps[0].value)] else []) + Filters(steps[1..])
  }

  /** The order of a plan: its last `Order` call, if any. */
  function OrderOf(steps: seq<Step>): Option<(string, bool)> {
    if steps == [] then None
    else if steps[|steps| - 1].Order? then Some((steps[|steps| - 1].column, steps[|steps| - 1].desc))
    else OrderOf(steps[..|steps| - 1])
  }

  /** The limit of a plan: its last `Limit` call, if any. */
  function LimitOf(steps: seq<Step>): Option<int> {
    if steps == [] then None
    else if steps[|steps| - 1].Limit? then Some(steps[|steps| - 1].count)
    else LimitOf(steps[..|steps| - 1])
  }

  lemma {:induction false} FiltersAppend(a: seq<Step>, b: seq<Step>)
    ensures Filters(a + b) == Filters(a) + Filters(b)
    decreases |a|
  {
    if a != [] {
      var first: seq<(string, Json)> := if a[0].Eq? then [(a[0].column, a[0].value)] else [];
      assert (a + b)[0] == a[0];
      assert (a + b)[1..] == a[1..] + b;
      FiltersAppend(a[1..], b);
      calc {
        Filters(a + b);
        first + Filters(a[1..] + b);
        first + (Filters(a[1..]) + Filters(b));
        (first + Filters(a[1..])) + Filters(b);
      }
    } else {
      assert a + b == b;
    }
  }

  lemma {:induction false} FiltersOfEqSteps(filters: Fields)
    ensures Filters(EqSteps(filters)) == filters
    decreases |filters|
  {
    if filters != [] {
      assert EqSteps(filters)[1..] == EqSteps(filters[1..]);
      FiltersOfEqSteps(filters[1..]);
    }
  }

  /** A plan with no `Order` and no `Limit` call has neither. */
  lemma {:induction false} NoOrderNoLimit(steps: seq<Step>)
    requires forall i :: 0 <= i < |steps| ==> !steps[i].Order? && !steps[i].Limit?
    ensures OrderOf(steps) == None && LimitOf(steps) == None
    decreases |steps|
  {
    if steps != [] {
      NoOrderNoLimit(steps[..|steps| - 1]);
    }
  }

  lemma OrderOfSnoc(steps: seq<Step>, x: Step)
    ensures OrderOf(steps + [x]) == if x.Order? then Some((x.column, x.desc)) else OrderOf(steps)
  {
    assert (steps + [x])[..|steps|] == steps;
  }

  lemma LimitOfSnoc(steps: seq<Step>, x: Step)
    ensures LimitOf(steps + [x]) == if x.Limit? then Some(x.count) else LimitOf(steps)
  {
    assert (steps + [x])[..|steps|] == steps;
  }

  /** The request `query` builds starts with `select("*")` and carries exactly the given filters, in order. */
  lemma QueryPlanFilters(table: string, filters: Fields, orderBy: Option<string>, limit: Option<int>)
    ensures var p := QueryPlan(table, filters, orderBy, limit);
      p.table == table && p.steps[0] == Select("*") && Filters(p.steps) == filters
  {
    var head := [Select("*")] + EqSteps(filters);
    var order: seq<Step> := if orderBy.Some? && orderBy.value != "" then [OrderStep(orderBy.value)] else [];
    var lim: seq<Step> := if limit.Some? && limit.value != 0 then [Limit(limit.value)] else [];
    assert QueryPlan(table, filters, orderBy, limit).steps == head + order + lim;
    FiltersAppend(head + order, lim);
    FiltersAppend(head, order);
    FiltersAppend([Select("*")], EqSteps(filters));
    FiltersOfEqSteps(filters);
    assert Filters([Select("*")]) == [];
    assert Filters(order) == [] by { if order != [] { assert order[1..] == []; } }
    assert Filters(lim) == [] by { if lim != [] { assert lim[1..] == []; } }
  }

  /** The request `query` builds is ordered iff `order_by` is non-empty, by the column and direction `order_by` gives. */
  lemma QueryPlanOrder(table: string, filters: Fields, orderBy: Option<string>, limit: Option<int>)
    ensures OrderOf(QueryPlan(table, filters, orderBy, limit).steps)
      == if orderBy.Some? && orderBy.value != "" then Some((OrderStep(orderBy.value).column, OrderStep(orderBy.value).desc)) else None
  {
    var head := [Select("*")] + EqSteps(filters);
    var order: seq<Step> := if orderBy.Some? && orderBy.value != "" then [OrderStep(orderBy.value)] else [];
    var lim: seq<Step> := if limit.Some? && limit.value != 0 then [Limit(limit.value)] else [];
    assert QueryPlan(table, filters, orderBy, limit).steps == head + order + lim;
    NoOrderNoLimit(head);
    if lim != [] {
      OrderOfSnoc(head + order, lim[0]);
    } else {
      assert head + order + lim == head + order;
    }
    if order != [] {
      OrderOfSnoc(head, order[0]);
    } else {
      assert head + order == head;
    }
  }

  /** The request `query` builds is limited iff `limit` is given and non-zero, to that many rows. */
  lemma QueryPlanLimit(table: string, filters: Fields, orderBy: Option<string>, limit: Option<int>)
    ensures LimitOf(QueryPlan(table, filters, orderBy, limit).steps)
      == if limit.Some? && limit.value != 0 then Some(limit.value) else None
  {
    var head := [Select("*")] + EqSteps(filters);
    var order: seq<Step> := if orderBy.Some? && orderBy.value != "" then [OrderStep(orderBy.value)] else [];
    var lim: seq<Step> := if limit.Some? && limit.value != 0 then [Limit(limit.value)] else [];
    assert QueryPlan(table, filters, orderBy, limit).steps == head + order + lim;
    NoOrderNoLimit(head);
    if lim != [] {
      LimitOfSnoc(head + order, lim[0]);
    } else {
      assert head + order + lim == head + order;
      if order != [] {
        LimitOfSnoc(head, order[0]);
      } else {
        assert head + order == head;
      }
    }
  }

  /** `order_by` is the order's column after as many `-` as were stripped; the order is descending iff there was at least one. */
  lemma OrderSign(orderBy: string)
    ensures var o := OrderStep(orderBy);
      && o.Order?
      && (o.column == [] || o.column[0] != '-')
      && orderBy == seq(|orderBy| - |o.column|, _ => '-') + o.column
      && (o.desc <==> |o.column| < |orderBy|)
  {
    var o := OrderStep(orderBy);
    var dashes := seq(|orderBy| - |o.column|, _ => '-');
    assert orderBy == dashes + o.column;
  }

  /** Writing a column with `-` for descending (or bare for ascending) gives back that column and direction. */
  lemma OrderStepInverse(column: string, desc: bool)
    requires column != [] && column[0] != '-'
    ensures OrderStep((if desc then "-" else "") + column) == Order(column, desc)
  {
    if desc {
      var text := "-" + column;
      assert text[..1] == "-";
      assert text[1..] == column;
      assert LStripChar(text, '-') == LStripChar(column, '-');
    } else {
      assert "" + column == column;
      assert !StartsWith(column, "-") by { assert column[..1] != "-" by { assert column[..1][0] == column[0]; } }
    }
  }

  /** The first returned row, or `{}` when none came back. */
  function FirstRow(data: Json): (r: Json)
    ensures data.JArr? && data.items != [] ==> r == data.items[0]
    ensures !data.JArr? || data.items == [] ==> r == JObj([])
  {
    if data.JArr? && data.items != [] then data.items[0] else JObj([])
  }

  // ------------------------------------------------------------------ run records

  /** `started` read from a fetched run: nothing unless the run and its `started_at` are truthy; a bad text raises. The value is quoted with `'` even where Python's `repr` would pick `"` (a value holding `'`). */
  function StartedAt(run: Json, fromIso: string -> Option<nat>): (r: Result<Option<nat>>)
    ensures !Truthy(run) || !run.JObj? ==> r == Ok(None)
    ensures run.JObj? && Get(run.fields, "started_at").Some? && Truthy(Get(run.fields, "started_at").value)
      && Get(run.fields, "started_at").value.JStr? && fromIso(Get(run.fields, "started_at").value.s).Some?
      ==> r == Ok(fromIso(Get(run.fields, "started_at").value.s))
    ensures r.Ok? && r.value.Some? ==> (run.JObj? && Get(run.fields, "started_at").Some?
      && Get(run.fields, "started_at").value.JStr? && fromIso(Get(run.fields, "started_at").value.s) == r.value)
  {
    if !Truthy(run) || !run.JObj? then Ok(None)
    else match Get(run.fields, "started_at")
      case None => Ok(None)
      case Some(v) =>
        if !Truthy(v) then Ok(None)
        else if !v.JStr? then Err("fromisoformat: argument must be str")
        else match fromIso(v.s)
          case None => Err("Invalid isoformat string: '" + v.s + "'")
          case Some(t) => Ok(Some(t))
  }

  /**
   * The `data` dict `update_run_status` sends: the status; the error message when it is
   * non-empty; with a finish time its ISO text and, when the stored run has a start, the
   * duration in clock ticks.
   */
  function RunStatusPayload(status: RunStatus, errorMessage: Option<string>, finishedAt: Option<nat>,
                            started: Option<nat>, iso: nat -> string): Fields {
    [("status", JStr(status.Value()))]
    + (if errorMessage.Some? && errorMessage.value != "" then [("error_message", JStr(errorMessage.value))] else [])
    + (if finishedAt.Some? then
         [("finished_at", JStr(iso(finishedAt.value)))]
         + (if started.Some? then [("duration_seconds", JInt(finishedAt.value - started.value))] else [])
       else [])
  }

  /**
   * The payload always sets the status, sets the error message only when one is given and
   * non-empty, and sets the finish time, and with a known start the duration, only when a
   * finish time is given; it sets nothing else, and no key twice.
   */
  lemma RunStatusPayloadFields(status: RunStatus, errorMessage: Option<string>, finishedAt: Option<nat>,
                               started: Option<nat>, iso: nat -> string)
    ensures var p := RunStatusPayload(status, errorMessage, finishedAt, started, iso);
      && DistinctKeys(p)
      && (forall i :: 0 <= i < |p| ==> p[i].0 in ["status", "error_message", "finished_at", "duration_seconds"])
      && Get(p, "status") == Some(JStr(status.Value()))
      && Get(p, "error_message") == (if errorMessage.Some? && errorMessage.value != "" then Some(JStr(errorMessage.value)) else None)
      && Get(p, "finished_at") == (if finishedAt.Some? then Some(JStr(iso(finishedAt.value))) else None)
      && Get(p, "duration_seconds") == (if finishedAt.Some? && started.Some? then Some(JInt(finishedAt.value - started.value)) else None)
  {
    var p := RunStatusPayload(status, errorMessage, finishedAt, started, iso);
    var e := if errorMessage.Some? && errorMessage.value != "" then 1 else 0;
    assert p[0].0 == "status";
    GetAt(p, 0);
    if e == 1 {
      assert p[1].0 == "error_message";
      GetAt(p, 1);
    } else {
      GetAbsent(p, "error_message");
    }
    if finishedAt.Some? {
      assert p[1 + e] == ("finished_at", JStr(iso(finishedAt.value)));
      GetAt(p, 1 + e);
      if started.Some? {
        assert p[2 + e] == ("duration_seconds", JInt(finishedAt.value - started.value));
        GetAt(p, 2 + e);
      } else {
        GetAbsent(p, "duration_seconds");
      }
    } else {
      GetAbsent(p, "finished_at");
      GetAbsent(p, "duration_seconds");
    }
  }

  /**
   * `update_run_status` against a store that has received `log`: with a finish time it
   * first fetches the run to read its start, then it sends the update.
   */
  function UpdateRunStatusSpec(configured: bool, answer: Answer, log: seq<Plan>, runId: string, status: RunStatus,
                               errorMessage: Option<string>, finishedAt: Option<nat>,
                               iso: nat -> string, fromIso: string -> Option<nat>): (Outcome, seq<Plan>)
  {
    if finishedAt.None? then
      var sent := Exchange(configured, answer, log, UpdatePlan("skill_runs", runId, JObj(RunStatusPayload(status, errorMessage, None, None, iso))));
      (if sent.0.Ok? then Pass else Fail(sent.0.error), sent.1)
    else
      var fetched := Exchange(configured, answer, log, ByIdPlan("skill_runs", runId));
      if fetched.0.Err? then (Fail(fetched.0.error), fetched.1)
      else
        var started := StartedAt(fetched.0.value, fromIso);
        if started.Err? then (Fail(started.error), fetched.1)
        else
          var sent := Exchange(configured, answer, fetched.1,
            UpdatePlan("skill_runs", runId, JObj(RunStatusPayload(status, errorMessage, finishedAt, started.value, iso))));
          (if sent.0.Ok? then Pass else Fail(sent.0.error), sent.1)
  }

  /**
   * Unconfigured, `update_run_status` fails before sending anything. Otherwise, without a
   * finish time it sends exactly the update; with one it first fetches that run by id, and
   * when it succeeds it has sent that fetch and then the update whose payload holds the start
   * read from the fetched run (so the duration is the finish time minus that start).
   */
  lemma UpdateRunStatusRequests(configured: bool, answer: Answer, log: seq<Plan>, runId: string, status: RunStatus,
                                errorMessage: Option<string>, finishedAt: Option<nat>,
                                iso: nat -> string, fromIso: string -> Option<nat>)
    ensures var (r, after) := UpdateRunStatusSpec(configured, answer, log, runId, status, errorMessage, finishedAt, iso, fromIso);
      && (!configured ==> r == Fail(NotConfigured) && after == log)
      && (configured && finishedAt.None? ==>
            after == log + [UpdatePlan("skill_runs", runId, JObj(RunStatusPayload(status, errorMessage, None, None, iso)))])
      && (configured && finishedAt.Some? ==> |after| > |log| && after[..|log| + 1] == log + [ByIdPlan("skill_runs", runId)])
      && (configured && r.Pass? && finishedAt.Some? ==>
            var fetched := Exchange(configured, answer, log, ByIdPlan("skill_runs", runId));
            && fetched.0.Ok? && StartedAt(fetched.0.value, fromIso).Ok?
            && after == log + [ByIdPlan("skill_runs", runId),
                 UpdatePlan("skill_runs", runId,
                   JObj(RunStatusPayload(status, errorMessage, finishedAt, StartedAt(fetched.0.value, fromIso).value, iso)))])
  {
    var (r, after) := UpdateRunStatusSpec(configured, answer, log, runId, status, errorMessage, finishedAt, iso, fromIso);
    if configured && finishedAt.Some? {
      var fetched := Exchange(configured, answer, log, ByIdPlan("skill_runs", runId));
      assert fetched.1 == log + [ByIdPlan("skill_runs", runId)];
      if fetched.0.Ok? && StartedAt(fetched.0.value, fromIso).Ok? {
        var started := StartedAt(fetched.0.value, fromIso).value;
        assert after == fetched.1 + [UpdatePlan("skill_runs", runId, JObj(RunStatusPayload(status, errorMessage, finishedAt, started, iso)))];
        assert after[..|log| + 1] == fetched.1;
      }
    } else if configured {
      assert RunStatusPayload(status, errorMessage, finishedAt, None, iso) == RunStatusPayload(status, errorMessage, None, None, iso);
    }
  }

  /**
   * When `update_run_status` succeeds with a finish time, the duration it records is the
   * finish time minus the start read from the run it fetched, and there is none when that
   * run has no start.
   */
  lemma UpdateRunStatusDuration(configured: bool, answer: Answer, log: seq<Plan>, runId: string, status: RunStatus,
                                errorMessage: Option<string>, finishedAt: Option<nat>,
                                iso: nat -> string, fromIso: string -> Option<nat>)
    requires configured && finishedAt.Some?
    requires UpdateRunStatusSpec(configured, answer, log, runId, status, errorMessage, finishedAt, iso, fromIso).0.Pass?
    ensures var fetched := Exchange(configured, answer, log, ByIdPlan("skill_runs", runId));
      && fetched.0.Ok? && StartedAt(fetched.0.value, fromIso).Ok?
      && var started := StartedAt(fetched.0.value, fromIso).value;
         Get(RunStatusPayload(status, errorMessage, finishedAt, started, iso), "duration_seconds")
           == (if started.Some? then Some(JInt(finishedAt.value - started.value)) else None)
  {
    var fetched := Exchange(configured, answer, log, ByIdPlan("skill_runs", runId));
    var started := StartedAt(fetched.0.value, fromIso).value;
    RunStatusPayloadFields(status, errorMessage, finishedAt, started, iso);
  }

  /** The filters `get_recent_runs` and `get_latest_reports` use: the skill name, only when one is given and non-empty. */
  function SkillFilter(skillName: Option<string>): Fields {
    if skillName.Some? && skillName.value != "" then [("skill_name", JStr(skillName.value))] else []
  }

  /**
   * `get_recent_runs` and `get_latest_reports` ask for every column, filter by the skill only
   * when one is named, order by the time column newest first, and cap the rows unless the
   * limit is zero.
   */
  lemma NewestFirstPlan(table: string, column: string, skillName: Option<string>, limit: int)
    requires column != [] && column[0] != '-'
    ensures QueryPlan(table, SkillFilter(skillName), Some("-" + column), Some(limit)) == Plan(table,
      [Select("*")]
      + (if skillName.Some? && skillName.value != "" then [Eq("skill_name", JStr(skillName.value))] else [])
      + [Order(column, true)]
      + (if limit != 0 then [Limit(limit)] else []))
  {
    OrderStepInverse(column, true);
    assert EqSteps(SkillFilter(skillName))
      == (if skillName.Some? && skillName.value != "" then [Eq("skill_name", JStr(skillName.value))] else []);
  }

  // ------------------------------------------------------------------ trending topics

  /** CPython's duplicate-keyword error names the callee by module and qualified name (the package is imported as `src`). */
  const KeywordClash := "src.database.models.TrendingTopic() got multiple values for keyword argument '"

  /** The first key of a topic that repeats a keyword `save_trending_topics` passes itself (`id`, `run_id`). */
  function ClashingKey(topic: Fields): (r: Option<string>)
    ensures r.None? <==> Get(topic, "id").None? && Get(topic, "run_id").None?
    ensures r.Some? ==> r.value == "id" || r.value == "run_id"
  {
    if topic == [] then None
    else if topic[0].0 == "id" || topic[0].0 == "run_id" then Some(topic[0].0)
    else ClashingKey(topic[1..])
  }

  /** `TrendingTopic(id=..., run_id=..., **topic)` read at clock `clock`. */
  function BuildTopic(runId: string, topic: Fields, id: string, clock: nat, fromIso: string -> Option<nat>): Result<TrendingTopic> {
    match ClashingKey(topic)
    case Some(k) => Err(KeywordClash + k + "'")
    case None => ValidateTopic([("id", JStr(id)), ("run_id", JStr(runId))] + topic, clock, fromIso)
  }

  /** A validated topic has the `id` and `run_id` its fields give. */
  lemma ValidatedIds(fields: Fields, clock: nat, fromIso: string -> Option<nat>)
    requires ValidateTopic(fields, clock, fromIso).Ok?
    ensures ValidateTopic(fields, clock, fromIso).value.id == RequiredStr(fields, "id").value
    ensures ValidateTopic(fields, clock, fromIso).value.runId == RequiredStr(fields, "run_id").value
  {
  }

  /** A built topic carries the id it was given and the run's id. */
  lemma BuildTopicIds(runId: string, topic: Fields, id: string, clock: nat, fromIso: string -> Option<nat>)
    requires BuildTopic(runId, topic, id, clock, fromIso).Ok?
    ensures BuildTopic(runId, topic, id, clock, fromIso).value.id == id
    ensures BuildTopic(runId, topic, id, clock, fromIso).value.runId == runId
  {
    var f := [("id", JStr(id)), ("run_id", JStr(runId))] + topic;
    assert f[1..] == [("run_id", JStr(runId))] + topic;
    assert RequiredStr(f, "id") == Ok(id);
    assert f[1..][0] == ("run_id", JStr(runId));
    assert Get(f, "run_id") == Get(f[1..], "run_id") == Some(JStr(runId));
    assert RequiredStr(f, "run_id") == Ok(runId);
    ValidatedIds(f, clock, fromIso);
  }

  /** A topic that names `id` or `run_id` itself is refused with the duplicate-keyword error. */
  lemma ClashRefused(runId: string, topic: Fields, id: string, clock: nat, fromIso: string -> Option<nat>)
    requires Get(topic, "id").Some? || Get(topic, "run_id").Some?
    ensures BuildTopic(runId, topic, id, clock, fromIso).Err?
    ensures StartsWith(BuildTopic(runId, topic, id, clock, fromIso).error, KeywordClash)
  {
    var k := ClashingKey(topic).value;
    assert BuildTopic(runId, topic, id, clock, fromIso).error == KeywordClash + (k + "'");
    assert (KeywordClash + (k + "'"))[..|KeywordClash|] == KeywordClash;
  }

  /** One step of the loop in `save_trending_topics`: a topic dictionary, its fresh id and the clock give a topic or an error. */
  type BuildFn = (Fields, string, nat) -> Result<TrendingTopic>

  /** The step `save_trending_topics` takes for the run `runId`. */
  function Builder(runId: string, fromIso: string -> Option<nat>): BuildFn {
    (topic: Fields, id: string, clock: nat) => BuildTopic(runId, topic, id, clock, fromIso)
  }

  /** The topics of the loop in `save_trending_topics`, the `i`-th built at clock `now + i`; the first refused one ends it. */
  function TopicsBuilt(build: BuildFn, topics: seq<Fields>, ids: seq<string>, now: nat): Result<seq<TrendingTopic>>
    requires |ids| == |topics|
    decreases |topics|
  {
    if topics == [] then Ok([])
    else
      var n := |topics| - 1;
      match TopicsBuilt(build, topics[..n], ids[..n], now)
      case Err(e) => Err(e)
      case Ok(built) =>
        match build(topics[n], ids[n], now + n)
        case Err(e) => Err(e)
        case Ok(t) => Ok(built + [t])
  }

  /** The loop succeeds iff every topic builds, and then gives one topic per dictionary, in order. */
  lemma {:induction false} TopicsBuiltEach(build: BuildFn, topics: seq<Fields>, ids: seq<string>, now: nat)
    requires |ids| == |topics|
    ensures var r := TopicsBuilt(build, topics, ids, now);
      && (r.Ok? <==> forall i :: 0 <= i < |topics| ==> build(topics[i], ids[i], now + i).Ok?)
      && (r.Ok? ==> (|r.value| == |topics|
            && forall i :: 0 <= i < |topics| ==> build(topics[i], ids[i], now + i) == Ok(r.value[i])))
    decreases |topics|
  {
    if topics != [] {
      var n := |topics| - 1;
      TopicsBuiltEach(build, topics[..n], ids[..n], now);
      assert forall i :: 0 <= i < n ==> topics[..n][i] == topics[i] && ids[..n][i] == ids[i];
    }
  }

  /** Building one more topic either appends it or ends the loop with its error. */
  lemma TopicsBuiltStep(build: BuildFn, topics: seq<Fields>, ids: seq<string>, now: nat, i: nat)
    requires |ids| == |topics| && i < |topics|
    ensures TopicsBuilt(build, topics[..i + 1], ids[..i + 1], now)
      == match TopicsBuilt(build, topics[..i], ids[..i], now)
         case Err(e) => Err(e)
         case Ok(built) =>
           match build(topics[i], ids[i], now + i)
           case Err(e) => Err(e)
           case Ok(t) => Ok(built + [t])
  {
    assert topics[..i + 1][..i] == topics[..i] && ids[..i + 1][..i] == ids[..i];
  }

  /** Once a prefix of the topics is refused, the whole loop is refused with that error. */
  lemma {:induction false} TopicsBuiltErrorSticks(build: BuildFn, topics: seq<Fields>, ids: seq<string>, now: nat, k: nat)
    requires |ids| == |topics| && k <= |topics|
    requires TopicsBuilt(build, topics[..k], ids[..k], now).Err?
    ensures TopicsBuilt(build, topics, ids, now) == TopicsBuilt(build, topics[..k], ids[..k], now)
    decreases |topics|
  {
    if k < |topics| {
      var n := |topics| - 1;
      assert topics[..n][..k] == topics[..k] && ids[..n][..k] == ids[..k];
      TopicsBuiltErrorSticks(build, topics[..n], ids[..n], now, k);
    } else {
      assert topics[..k] == topics && ids[..k] == ids;
    }
  }

  /** The loop of `save_trending_topics` building one topic per dictionary, the `i`-th at clock `now + i`; the first refused one ends it. */
  method BuildTopics(runId: string, topics: seq<Fields>, ids: seq<string>, now: nat, fromIso: string -> Option<nat>)
    returns (r: Result<seq<TrendingTopic>>)
    requires |ids| == |topics|
    ensures r == TopicsBuilt(Builder(runId, fromIso), topics, ids, now)
  {
    var built: seq<TrendingTopic> := [];
    for i := 0 to |topics|
      invariant TopicsBuilt(Builder(runId, fromIso), topics[..i], ids[..i], now) == Ok(built)
    {
      var t := BuildTopic(runId, topics[i], ids[i], now + i, fromIso);
      assert t == Builder(runId, fromIso)(topics[i], ids[i], now + i);
      TopicsBuiltStep(Builder(runId, fromIso), topics, ids, now, i);
      if t.Err? {
        TopicsBuiltErrorSticks(Builder(runId, fromIso), topics, ids, now, i + 1);
        return Err(t.error);
      }
      built := built + [t.value];
    }
    assert topics[..|topics|] == topics && ids[..|topics|] == ids;
    r := Ok(built);
  }

  /** The records `save_trending_topics` inserts: one `model_dump()` per topic, `fetched_at` as ISO text. */
  function Dumps(ts: seq<TrendingTopic>, iso: nat -> string): (r: seq<Json>)
    ensures |r| == |ts| && forall i :: 0 <= i < |ts| ==> r[i] == TopicRecord(ts[i], iso)
  {
    seq(|ts|, i requires 0 <= i < |ts| => TopicRecord(ts[i], iso))
  }

  /** `[TrendingTopic(**r) for r in records]`: every record validated again (each has its `fetched_at`). */
  function Revalidated(ts: seq<TrendingTopic>, iso: nat -> string, now: nat, fromIso: string -> Option<nat>): Result<seq<TrendingTopic>>
    decreases |ts|
  {
    if ts == [] then Ok([])
    else
      match ValidateTopic(TopicRecord(ts[0], iso).fields, now, fromIso)
      case Err(e) => Err(e)
      case Ok(t) =>
        match Revalidated(ts[1..], iso, now, fromIso)
        case Err(e) => Err(e)
        case Ok(rest) => Ok([t] + rest)
  }

  /** `fromisoformat` reads back every `isoformat` text. */
  ghost predicate IsoInverse(iso: nat -> string, fromIso: string -> Option<nat>) {
    forall t: nat :: fromIso(iso(t)) == Some(t)
  }

  /** Validating the dumped records again gives back exactly the topics that were built. */
  lemma {:induction false} RevalidatedRoundTrip(ts: seq<TrendingTopic>, iso: nat -> string, now: nat, fromIso: string -> Option<nat>)
    requires IsoInverse(iso, fromIso)
    ensures Revalidated(ts, iso, now, fromIso) == Ok(ts)
    decreases |ts|
  {
    if ts != [] {
      TopicRecordRoundTrip(ts[0], now, iso, fromIso);
      RevalidatedRoundTrip(ts[1..], iso, now, fromIso);
      assert [ts[0]] + ts[1..] == ts;
    }
  }

  /** `save_trending_topics` against a store that has received `log`. */
  function SaveTopicsSpec(configured: bool, answer: Answer, log: seq<Plan>, runId: string, topics: seq<Fields>,
                          ids: seq<string>, now: nat, iso: nat -> string, fromIso: string -> Option<nat>)
    : (Result<seq<TrendingTopic>>, seq<Plan>)
    requires |ids| == |topics|
  {
    match TopicsBuilt(Builder(runId, fromIso), topics, ids, now)
    case Err(e) => (Err(e), log)
    case Ok(built) =>
      if built == [] then (Ok([]), log)
      else
        var sent := Exchange(configured, answer, log, InsertPlan("trending_topics", JArr(Dumps(built, iso))));
        if sent.0.Err? then (Err(sent.0.error), sent.1) else (Revalidated(built, iso, now, fromIso), sent.1)
  }

  /**
   * With no topics nothing is sent (even unconfigured); a refused topic stops everything
   * before anything is sent; otherwise exactly one insert carries one record per topic, in
   * order, and what comes back are the topics that were built.
   */
  lemma SaveTopicsRequests(configured: bool, answer: Answer, log: seq<Plan>, runId: string, topics: seq<Fields>,
                           ids: seq<string>, now: nat, iso: nat -> string, fromIso: string -> Option<nat>)
    requires |ids| == |topics|
    ensures var (r, after) := SaveTopicsSpec(configured, answer, log, runId, topics, ids, now, iso, fromIso);
      var built := TopicsBuilt(Builder(runId, fromIso), topics, ids, now);
      && (topics == [] ==> r == Ok([]) && after == log)
      && (built.Err? ==> r == Err(built.error) && after == log)
      && (built.Ok? && topics != [] && configured ==> (after == log + [InsertPlan("trending_topics", JArr(Dumps(built.value, iso)))]
            && |Dumps(built.value, iso)| == |topics|))
      && (built.Ok? && r.Ok? && IsoInverse(iso, fromIso) ==> r.value == built.value)
  {
    var built := TopicsBuilt(Builder(runId, fromIso), topics, ids, now);
    TopicsBuiltEach(Builder(runId, fromIso), topics, ids, now);
    if built.Ok? && built.value != [] && IsoInverse(iso, fromIso) {
      RevalidatedRoundTrip(built.value, iso, now, fromIso);
    }
  }

  // ------------------------------------------------------------------ the store and the client

  /** The Supabase store: it logs every plan it is sent and answers it with `answer`. */
  class Remote {
    var sent: seq<Plan>
    const answer: Answer

    constructor(answer: Answer)
      ensures sent == [] && this.answer == answer
    {
      sent := [];
      this.answer := answer;
    }

    /** `execute()`: the plan is logged and its data returned. */
    method Execute(p: Plan) returns (r: Result<Json>)
      modifies this
      ensures sent == old(sent) + [p]
      ensures r == Data(p, answer(old(sent), p))
    {
      r := Data(p, answer(sent, p));
      sent := sent + [p];
    }
  }

  /** `DatabaseClient`; `conn` is the `_client` cache. */
  class DatabaseClient {
    const url: string
    const key: string
    const server: Remote
    var conn: Option<Connection>

    /** `is_configured`: both the URL and the key are non-empty. */
    predicate IsConfigured() {
      url != "" && key != ""
    }

    /** The connection a configured client opens. */
    function Connected(): Option<Connection> {
      if IsConfigured() then Some(Connection(url, key)) else None
    }

    /** A cached connection is the one for this client's URL and key. */
    predicate Valid()
      reads this
    {
      conn.Some? ==> conn == Connected()
    }

    /** `DatabaseClient(url, key)`: each argument falls back to its setting; nothing is connected yet. */
    constructor(url: Option<string>, key: Option<string>, settings: Settings, server: Remote)
      ensures this.url == OrDefault(url, settings.supabaseUrl) && this.key == OrDefault(key, settings.supabaseKey)
      ensures this.server == server && conn == None && Valid()
    {
      this.url := OrDefault(url, settings.supabaseUrl);
      this.key := OrDefault(key, settings.supabaseKey);
      this.server := server;
      conn := None;
    }

    /** The `client` property: the cached connection, opened on first use; unconfigured, `ValueError`. */
    method Client() returns (r: Result<Connection>)
      requires Valid()
      modifies this
      ensures Valid()
      ensures r.Ok? <==> IsConfigured()
      ensures r.Ok? ==> r.value == Connection(url, key) && conn == Some(r.value)
      ensures r.Err? ==> r.error == NotConfigured && conn == old(conn) == None
      ensures old(conn).Some? ==> conn == old(conn)
    {
      if conn.None? {
        if url == "" || key == "" {
          return Err(NotConfigured);
        }
        conn := Some(Connection(url, key));
      }
      r := Ok(conn.value);
    }

    /** `self.client.table(...)...execute().data` for the plan `p`. */
    method Send(p: Plan) returns (r: Result<Json>)
      requires Valid()
      modifies this, server
      ensures Valid() && conn == Connected()
      ensures (r, server.sent) == Exchange(IsConfigured(), server.answer, old(server.sent), p)
    {
      var c := Client();
      if c.Err? {
        return Err(c.error);
      }
      r := server.Execute(p);
    }

    /** `insert`: the first row the store returns, or `{}`. */
    method InsertRow(table: string, data: Json) returns (r: Result<Json>)
      requires Valid()
      modifies this, server
      ensures Valid() && conn == Connected()
      ensures var sent := Exchange(IsConfigured(), server.answer, old(server.sent), InsertPlan(table, data));
        && server.sent == sent.1
        && r == (if sent.0.Err? then Err(sent.0.error) else Ok(FirstRow(sent.0.value)))
    {
      var d := Send(InsertPlan(table, data));
      if d.Err? {
        return Err(d.error);
      }
      r := Ok(FirstRow(d.value));
    }

    /** `insert_many`: one insert of the whole list; the store's rows come back as they are. */
    method InsertMany(table: string, rows: seq<Json>) returns (r: Result<Json>)
      requires Valid()
      modifies this, server
      ensures Valid() && conn == Connected()
      ensures (r, server.sent) == Exchange(IsConfigured(), server.answer, old(server.sent), InsertPlan(table, JArr(rows)))
    {
      r := Send(InsertPlan(table, JArr(rows)));
    }

    /** `update`: the row with that id is updated; the first row returned, or `{}`. */
    method UpdateRow(table: string, id: string, data: Json) returns (r: Result<Json>)
      requires Valid()
      modifies this, server
      ensures Valid() && conn == Connected()
      ensures var sent := Exchange(IsConfigured(), server.answer, old(server.sent), UpdatePlan(table, id, data));
        && server.sent == sent.1
        && r == (if sent.0.Err? then Err(sent.0.error) else Ok(FirstRow(sent.0.value)))
    {
      var d := Send(UpdatePlan(table, id, data));
      if d.Err? {
        return Err(d.error);
      }
      r := Ok(FirstRow(d.value));
    }

    /** `get_by_id`: the single row with that id. */
    method GetById(table: string, id: string) returns (r: Result<Json>)
      requires Valid()
      modifies this, server
      ensures Valid() && conn == Connected()
      ensures (r, server.sent) == Exchange(IsConfigured(), server.answer, old(server.sent), ByIdPlan(table, id))
    {
      r := Send(ByIdPlan(table, id));
    }

    /** `query`: the plan is built step by step, one equality filter per entry. */
    method Query(table: string, filters: Fields, orderBy: Option<string>, limit: Option<int>) returns (r: Result<Json>)
      requires Valid()
      modifies this, server
      ensures Valid() && conn == Connected()
      ensures (r, server.sent) == Exchange(IsConfigured(), server.answer, old(server.sent), QueryPlan(table, filters, orderBy, limit))
    {
      var c := Client();
      if c.Err? {
        return Err(c.error);
      }
      var steps := [Select("*")];
      for i := 0 to |filters|
        invariant steps == [Select("*")] + EqSteps(filters[..i])
      {
        assert EqSteps(filters[..i + 1]) == EqSteps(filters[..i]) + [Eq(filters[i].0, filters[i].1)];
        steps := steps + [Eq(filters[i].0, filters[i].1)];
      }
      assert filters[..|filters|] == filters;
      if orderBy.Some? && orderBy.value != "" {
        var desc := StartsWith(orderBy.value, "-");
        var column := LStripChar(orderBy.value, '-');
        steps := steps + [Order(column, desc)];
      }
      if limit.Some? && limit.value != 0 {
        steps := steps + [Limit(limit.value)];
      }
      assert Plan(table, steps) == QueryPlan(table, filters, orderBy, limit);
      r := server.Execute(Plan(table, steps));
    }

    /** `create_run`: a pending run with `params or {}`, inserted into `skill_runs`, then returned. */
    method CreateRun(skillName: string, params: Option<Fields>, id: string, now: nat, iso: nat -> string) returns (r: Result<SkillRun>)
      requires Valid()
      modifies this, server
      ensures Valid() && conn == Connected()
      ensures var run := NewSkillRun(id, skillName, params.GetOr([]), now);
        var sent := Exchange(IsConfigured(), server.answer, old(server.sent), InsertPlan("skill_runs", SkillRunRecord(run, iso)));
        && server.sent == sent.1
        && r == (if sent.0.Err? then Err(sent.0.error) else Ok(run))
    {
      var run := NewSkillRun(id, skillName, params.GetOr([]), now);
      var inserted := InsertRow("skill_runs", SkillRunRecord(run, iso));
      if inserted.Err? {
        return Err(inserted.error);
      }
      r := Ok(run);
    }

    /** `update_run_status`: the payload is filled step by step, reading the run's start when a finish time is given. */
    method UpdateRunStatus(runId: string, status: RunStatus, errorMessage: Option<string>, finishedAt: Option<nat>,
                           iso: nat -> string, fromIso: string -> Option<nat>) returns (r: Outcome)
      requires Valid()
      modifies this, server
      ensures Valid() && (IsConfigured() ==> conn == Connected()) && (!IsConfigured() ==> conn == None)
      ensures (r, server.sent) == UpdateRunStatusSpec(IsConfigured(), server.answer, old(server.sent), runId, status,
                                                      errorMessage, finishedAt, iso, fromIso)
    {
      var data := [("status", JStr(status.Value()))];
      if errorMessage.Some? && errorMessage.value != "" {
        data := data + [("error_message", JStr(errorMessage.value))];
      }
      assert data == [("status", JStr(status.Value()))]
        + (if errorMessage.Some? && errorMessage.value != "" then [("error_message", JStr(errorMessage.value))] else []);
      var started: Option<nat> := None;
      var timing: Fields := [];
      if finishedAt.Some? {
        timing := [("finished_at", JStr(iso(finishedAt.value)))];
        var run := GetById("skill_runs", runId);
        if run.Err? {
          return Fail(run.error);
        }
        var s := StartedAt(run.value, fromIso);
        if s.Err? {
          return Fail(s.error);
        }
        started := s.value;
        if started.Some? {
          timing := timing + [("duration_seconds", JInt(finishedAt.value - started.value))];
        }
      }
      assert timing == if finishedAt.Some? then
          [("finished_at", JStr(iso(finishedAt.value)))]
          + (if started.Some? then [("duration_seconds", JInt(finishedAt.value - started.value))] else [])
        else [];
      data := data + timing;
      assert data == RunStatusPayload(status, errorMessage, finishedAt, started, iso);
      var updated := UpdateRow("skill_runs", runId, JObj(data));
      r := if updated.Ok? then Pass else Fail(updated.error);
    }

    /** `get_recent_runs`: the newest runs first, of one skill when it is named. */
    method GetRecentRuns(skillName: Option<string>, limit: int) returns (r: Result<Json>)
      requires Valid()
      modifies this, server
      ensures Valid() && conn == Connected()
      ensures (r, server.sent) == Exchange(IsConfigured(), server.answer, old(server.sent),
                                           QueryPlan("skill_runs", SkillFilter(skillName), Some("-started_at"), Some(limit)))
    {
      r := Query("skill_runs", SkillFilter(skillName), Some("-started_at"), Some(limit));
    }

    /** `save_result`: a result record inserted into `skill_results`, then returned. */
    method SaveResult(runId: string, skillName: string, data: Fields, summary: Option<string>, id: string, now: nat,
                      iso: nat -> string) returns (r: Result<DbModels.SkillResult>)
      requires Valid()
      modifies this, server
      ensures Valid() && conn == Connected()
      ensures var result := NewSkillResult(id, runId, skillName, data, summary, now);
        var sent := Exchange(IsConfigured(), server.answer, old(server.sent), InsertPlan("skill_results", SkillResultRecord(result, iso)));
        && server.sent == sent.1
        && r == (if sent.0.Err? then Err(sent.0.error) else Ok(result))
    {
      var result := NewSkillResult(id, runId, skillName, data, summary, now);
      var inserted := InsertRow("skill_results", SkillResultRecord(result, iso));
      if inserted.Err? {
        return Err(inserted.error);
      }
      r := Ok(result);
    }

    /** `save_report`: an unpublished report inserted into `reports`, then returned. */
    method SaveReport(runId: string, skillName: string, title: string, contentHtml: string, contentMarkdown: Option<string>,
                      filePath: Option<string>, id: string, now: nat, iso: nat -> string) returns (r: Result<Report>)
      requires Valid()
      modifies this, server
      ensures Valid() && conn == Connected()
      ensures var report := NewReport(id, runId, skillName, title, contentHtml, contentMarkdown, filePath, now);
        var sent := Exchange(IsConfigured(), server.answer, old(server.sent), InsertPlan("reports", ReportRecord(report, iso)));
        && server.sent == sent.1
        && r == (if sent.0.Err? then Err(sent.0.error) else Ok(report))
    {
      var report := NewReport(id, runId, skillName, title, contentHtml, contentMarkdown, filePath, now);
      var inserted := InsertRow("reports", ReportRecord(report, iso));
      if inserted.Err? {
        return Err(inserted.error);
      }
      r := Ok(report);
    }

    /** `get_latest_reports`: the newest reports first, of one skill when it is named. */
    method GetLatestReports(skillName: Option<string>, limit: int) returns (r: Result<Json>)
      requires Valid()
      modifies this, server
      ensures Valid() && conn == Connected()
      ensures (r, server.sent) == Exchange(IsConfigured(), server.answer, old(server.sent),
                                           QueryPlan("reports", SkillFilter(skillName), Some("-created_at"), Some(limit)))
    {
      r := Query("reports", SkillFilter(skillName), Some("-created_at"), Some(limit));
    }

    /**
     * `save_trending_topics`: one record per topic appended in a loop (the `i`-th read at
     * clock `now + i`), one insert when there are any, and the records validated again.
     */
    method SaveTrendingTopics(runId: string, topics: seq<Fields>, ids: seq<string>, now: nat,
                              iso: nat -> string, fromIso: string -> Option<nat>) returns (r: Result<seq<TrendingTopic>>)
      requires |ids| == |topics|
      requires Valid()
      modifies this, server
      ensures Valid()
      ensures (r, server.sent) == SaveTopicsSpec(IsConfigured(), server.answer, old(server.sent), runId, topics, ids, now, iso, fromIso)
    {
      var built := BuildTopics(runId, topics, ids, now, fromIso);
      if built.Err? {
        return Err(built.error);
      }
      var records := Dumps(built.value, iso);
      if records != [] {
        var inserted := InsertMany("trending_topics", records);
        if inserted.Err? {
          return Err(inserted.error);
        }
      }
      r := Revalidated(built.value, iso, now, fromIso);
    }
  }
}
