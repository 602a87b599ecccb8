/**
 * `BaseSkill` and its records: the run lifecycle (before hook, execute, after hook, with
 * failures captured into the result) and the memoised backend.
 *
 * Time is a `nat` clock: every `datetime.now()` reads the clock and advances it by one tick.
 */
module Skills {
  import opened Wrappers
  import opened JsonValue
  import opened BackendBase
  import opened Backends
  import opened Config

  /** `SkillStatus`. */
  datatype SkillStatus = Pending | Running | Success | Failed | Skipped {
    function Value(): string {
      match this
      case Pending => "pending"
      case Running => "running"
      case Success => "success"
      case Failed => "failed"
      case Skipped => "skipped"
    }
  }

  /** `SkillContext`: what a run is given. */
  datatype SkillContext = SkillContext(
    runId: string,
    startedAt: nat,
    backend: AnyBackend,
    params: map<string, Json>,
    data: map<string, Json>)

  /** `SkillResult`: what a run returns. */
  datatype SkillResult = SkillResult(
    status: SkillStatus,
    data: map<string, Json>,
    error: Option<string>,
    startedAt: Option<nat>,
    finishedAt: Option<nat>)

  /** `SkillResult(status=...)` with every other field at its default. */
  function NewResult(status: SkillStatus): (r: SkillResult)
    ensures r.status == status && r.data == map[] && r.error == None
    ensures r.startedAt == None && r.finishedAt == None
  {
    SkillResult(status, map[], None, None, None)
  }

  /** `duration_seconds`: the time between the two stamps, or `None` unless both are set. */
  function DurationSeconds(r: SkillResult): (d: Option<int>)
    ensures d.Some? <==> r.startedAt.Some? && r.finishedAt.Some?
    ensures d.Some? ==> r.startedAt.value + d.value == r.finishedAt.value
  {
    if r.startedAt.Some? && r.finishedAt.Some? then Some(r.finishedAt.value - r.startedAt.value) else None
  }

  /**
   * A skill class: its class attributes and its three overridable coroutines. A hook or
   * `execute` that raises returns `Fail`/`Err` with `str(e)`. `derivesFromBase` is
   * `issubclass(cls, BaseSkill)`, and `isBase` is `cls is BaseSkill`.
   */
  datatype SkillClass = SkillClass(
    name: string,
    description: string,
    version: string,
    defaultBackend: string,
    schedule: Option<string>,
    tags: seq<string>,
    derivesFromBase: bool,
    isBase: bool,
    beforeExecute: SkillContext -> Outcome,
    execute: SkillContext -> Result<SkillResult>,
    afterExecute: (SkillContext, SkillResult) -> Outcome)

  /** A subclass of `BaseSkill` that overrides only `name` and `execute`: every other attribute keeps the base default. */
  function Subclass(name: string, execute: SkillContext -> Result<SkillResult>): (c: SkillClass)
    ensures c.name == name && c.description == "技能描述" && c.version == "1.0.0"
    ensures c.defaultBackend == "antigravity" && c.schedule == None && c.tags == []
    ensures c.derivesFromBase && !c.isBase
    ensures forall ctx :: c.beforeExecute(ctx) == Pass
    ensures forall ctx, res :: c.afterExecute(ctx, res) == Pass
    ensures c.execute == execute
  {
    SkillClass(name, "技能描述", "1.0.0", "antigravity", None, [], true, false,
      _ => Pass, execute, (_, _) => Pass)
  }

  /** The steps a run went through, in the order they started. */
  datatype Hook = BeforeHook | ExecuteStep | AfterHook

  /** The error `get_backend` raises when the skill's backend has no key. */
  function NoKeyError(backend: string): string {
    "未配置 " + backend + " 的 API Key"
  }

  /** The backend `get_backend` builds on first use: `create_backend(default_backend, key)`, or the missing-key error. */
  function BackendFor(settings: Settings, cls: SkillClass): (r: Result<AnyBackend>)
    ensures r.Ok? <==> ValidateBackend(settings, cls.defaultBackend)
    ensures r.Err? ==> r.error == NoKeyError(cls.defaultBackend)
    ensures r.Ok? ==> (r.value.Type().Value() == cls.defaultBackend
      && r.value.ApiKey() == GetBackendApiKey(settings, cls.defaultBackend)
      && r.value.Model() == DefaultModel(r.value.Type()))
  {
    var key := GetBackendApiKey(settings, cls.defaultBackend);
    if key == "" then Err(NoKeyError(cls.defaultBackend))
    else
      ValidatedBackendIsType(settings, cls.defaultBackend);
      var t := BackendTypeOf(cls.defaultBackend).value;
      LowerKnownName(t);
      CreateBackend(TagName(cls.defaultBackend), key, None)
  }

  /** The four backend values are already lower case. */
  lemma LowerKnownName(t: BackendType)
    ensures PyText.Lower(t.Value()) == t.Value()
  {
    var v := t.Value();
    assert forall i :: 0 <= i < |v| ==> 'a' <= v[i] <= 'z';
  }

  /** An instance of a skill class; `backend` is the `_backend` cache. */
  class Skill {
    const cls: SkillClass
    var backend: Option<AnyBackend>

    /** `cls()`: a fresh instance with an empty cache. */
    constructor(cls: SkillClass)
      ensures this.cls == cls && backend == None
    {
      this.cls := cls;
      backend := None;
    }

    /** `get_backend`: the cached backend, or a new one that is then cached; a missing key raises and caches nothing. */
    method GetBackend(settings: Settings) returns (r: Result<AnyBackend>)
      modifies this
      ensures old(backend).Some? ==> r == Ok(old(backend).value) && backend == old(backend)
      ensures old(backend).None? ==> r == BackendFor(settings, cls)
      ensures old(backend).None? ==> backend == (if r.Ok? then Some(r.value) else None)
    {
      if backend.None? {
        var key := GetBackendApiKey(settings, cls.defaultBackend);
        if key == "" {
          return Err(NoKeyError(cls.defaultBackend));
        }
        var created := CreateBackend(TagName(cls.defaultBackend), key, None);
        if created.Err? {
          return Err(created.error);
        }
        backend := Some(created.value);
      }
      r := Ok(backend.value);
    }

    /**
     * `run`: `before_execute`, `execute`, `after_execute` in that order; the first one that
     * raises ends the run and turns the result it leaves into a failure. Nothing is re-raised.
     */
    method Run(ctx: SkillContext, clock: nat) returns (result: SkillResult, trace: seq<Hook>, clockOut: nat)
      ensures trace == [BeforeHook]
        + (if cls.beforeExecute(ctx).Pass? then [ExecuteStep] else [])
        + (if cls.beforeExecute(ctx).Pass? && cls.execute(ctx).Ok? then [AfterHook] else [])
      ensures cls.beforeExecute(ctx).Fail? ==>
        result == SkillResult(Failed, map[], Some(cls.beforeExecute(ctx).error), Some(clock), Some(clock + 1))
      ensures cls.beforeExecute(ctx).Pass? && cls.execute(ctx).Err? ==>
        result == SkillResult(Failed, map[], Some(cls.execute(ctx).error), Some(clock), Some(clock + 1))
      ensures cls.beforeExecute(ctx).Pass? && cls.execute(ctx).Ok? ==>
        var stamped := cls.execute(ctx).value.(startedAt := Some(ctx.startedAt), finishedAt := Some(clock + 1));
        if cls.afterExecute(ctx, stamped).Pass? then result == stamped
        else result == stamped.(status := Failed, error := Some(cls.afterExecute(ctx, stamped).error), finishedAt := Some(clock + 2))
      ensures DurationSeconds(result).Some? && clock < result.finishedAt.value < clockOut
    {
      var now := clock;
      result := SkillResult(Running, map[], None, Some(now), None);
      now := now + 1;
      trace := [BeforeHook];
      var failure: Option<string> := None;
      var before := cls.beforeExecute(ctx);
      if before.Fail? {
        failure := Some(before.error);
      } else {
        trace := trace + [ExecuteStep];
        var executed := cls.execute(ctx);
        if executed.Err? {
          failure := Some(executed.error);
        } else {
          result := executed.value;
          result := result.(startedAt := Some(ctx.startedAt));
          result := result.(finishedAt := Some(now));
          now := now + 1;
          trace := trace + [AfterHook];
          var after := cls.afterExecute(ctx, result);
          if after.Fail? {
            failure := Some(after.error);
          }
        }
      }
      if failure.Some? {
        result := result.(status := Failed);
        result := result.(error := failure);
        result := result.(finishedAt := Some(now));
        now := now + 1;
      }
      clockOut := now;
    }
  }
}
