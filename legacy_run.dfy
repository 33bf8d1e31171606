/** `BaseAdapter.run` of the legacy runtime.

    What the process would read or hear from outside (the inputs file, the
    manifest, each resource's download, what `build_cmd` returns, whether
    the command starts, what each `parse_tool_output` call or `generate`
    does, the command's return code, the digest of the events file, the
    upload, the clock) is one `LegacyOracles` value. What the adapter's code
    does to the runtime is a sequence of `Action`s: `emit` calls and
    assignments to the heartbeat's metrics. The workdir, the writer, the
    heartbeat and the upload are recorded as `Runtime.Step`s in a
    `Runtime.Host`, and signals are the `Outbox`'s posts. `LegacyRun` is
    proved to produce exactly the trace `LegacyExpected` describes. */
module LegacyRun {
  import opened Common
  import opened Text
  import opened Jsons
  import opened Utils
  import opened Io
  import opened Envelope
  import opened LegacyRuntime
  import Runtime

  /** The class attributes `TOOL`, `TOOL_VERSION`, `PRODUCES` and
      `HEARTBEAT_S`. */
  datatype LegacyAdapter = LegacyAdapter(tool: string, toolVersion: string, produces: seq<string>, heartbeatS: int)

  /** What `run` reads from the environment. */
  datatype LegacySettings = LegacySettings(
    inputsUrl: string,
    manifestUrl: Option<string>,
    signalUrl: Option<string>,
    outputUrl: Option<string>,
    tenantId: string,
    runId: string,
    batchId: string,
    ocsPrefix: string,
    tool: string,
    toolVersion: string,
    digest: Option<string>)

  /** The variables `run` reads, `_env(name)` being `os.getenv(name) or ""`;
      without a non-empty `INPUTS_URL` there is nothing to run. */
  function LegacyFromEnv(a: LegacyAdapter, env: Env): (r: Result<LegacySettings>)
    ensures r.Ok? <==> "INPUTS_URL" in env && env["INPUTS_URL"] != ""
    ensures r.Ok? ==> r.value.inputsUrl == env["INPUTS_URL"]
    ensures r.Ok? ==> r.value.tool == (if a.tool != "" then a.tool else Runtime.EnvText(env, "TOOL"))
    ensures r.Ok? ==> r.value.toolVersion == (if a.toolVersion != "" then a.toolVersion else Runtime.EnvText(env, "TOOL_VERSION"))
    ensures r.Ok? ==> r.value.digest.None? || r.value.digest.value != ""
  {
    var inputs := EnvStr(env, "INPUTS_URL", None);
    if !Runtime.Given(inputs) then Err("missing INPUTS_URL")
    else
      Ok(LegacySettings(
        inputs.value,
        EnvStr(env, "RESOURCES_MANIFEST_URL", None),
        EnvStr(env, "SIGNAL_URL", None),
        EnvStr(env, "OUTPUT_URL", None),
        Runtime.EnvText(env, "TENANT_ID"),
        Runtime.EnvText(env, "RUN_ID"),
        Runtime.EnvText(env, "BATCH_ID"),
        Runtime.EnvText(env, "OCS_PREFIX"),
        Coalesce(Some(a.tool), Runtime.EnvText(env, "TOOL")),
        Coalesce(Some(a.toolVersion), Runtime.EnvText(env, "TOOL_VERSION")),
        Runtime.EnvNonEmpty(env, "TOOL_IMAGE_DIGEST")))
  }

  // ----- what the adapter does -----

  /** One effect of the adapter's code on the runtime: an `emit(event_type,
      payload)` call at a clock reading, or `hb.metrics[key] = value`. */
  datatype Action = Emitted(eventType: string, payload: Json, at: string) | Metric(key: string, value: Json)

  /** How a call into the adapter's code ends: it returns, it raises an
      `Exception`, or it raises `SystemExit`, which no `except Exception`
      of `run` catches. */
  datatype HookEnd = Returns | Raises(error: string) | Exits

  /** One `parse_tool_output(line, emit, hb)` call: what it did before it
      returned or raised an `Exception` (`raised`), or before it raised
      `SystemExit`. */
  datatype LineOutcome = LineOutcome(actions: seq<Action>, raised: bool) | LineExits(actions: seq<Action>)

  /** Everything the run would learn from outside. `build_cmd` ends as
      `buildEnd` says, and when it returns, it returns `argv` (`None` or a
      list); `generate` performs `generated` and then ends as
      `generateEnd` says. */
  datatype LegacyOracles = LegacyOracles(
    inputs: Result<string>,
    manifest: Result<Json>,
    fetches: seq<ResourceFetch>,
    argv: Option<seq<string>>,
    buildEnd: HookEnd,
    spawns: bool,
    lines: seq<LineOutcome>,
    returnCode: Option<int>,
    generated: seq<Action>,
    generateEnd: HookEnd,
    eventsDigest: string,
    upload: Result<()>,
    now: string)

  /** The heartbeat's metrics and the envelopes written so far. */
  datatype Tally = Tally(metrics: Fields, written: seq<Fields>)

  /** One action on the tally: the `emit` closure drops an event whose type
      a non-empty `PRODUCES` does not list, and otherwise writes it and
      sets `emitted_docs` to the writer's count. */
  function Apply(produces: seq<string>, ctx: LegacyContext, t: Tally, a: Action): (r: Tally)
    ensures t.written <= r.written && |r.written| <= |t.written| + 1
    ensures UniqueKeys(t.metrics) ==> UniqueKeys(r.metrics)
  {
    match a
    case Emitted(eventType, payload, at) =>
      if Runtime.Admits(produces, eventType) then
        var m := Put(t.metrics, "emitted_docs", Int(|t.written| + 1));
        assert UniqueKeys(t.metrics) ==> UniqueKeys(m) by {
          if UniqueKeys(t.metrics) { PutUnique(t.metrics, "emitted_docs", Int(|t.written| + 1)); }
        }
        Tally(m, t.written + [LegacyEnvelope(ctx, eventType, at, payload)])
      else t
    case Metric(k, v) =>
      assert UniqueKeys(t.metrics) ==> UniqueKeys(Put(t.metrics, k, v)) by {
        if UniqueKeys(t.metrics) { PutUnique(t.metrics, k, v); }
      }
      Tally(Put(t.metrics, k, v), t.written)
  }

  /** The actions in order. Nothing is ever taken out of the events file:
      what was written stays a prefix of what is written. */
  function Perform(produces: seq<string>, ctx: LegacyContext, t: Tally, acts: seq<Action>): (r: Tally)
    ensures t.written <= r.written
    ensures UniqueKeys(t.metrics) ==> UniqueKeys(r.metrics)
    decreases |acts|
  {
    if acts == [] then t
    else Apply(produces, ctx, Perform(produces, ctx, t, acts[..|acts| - 1]), acts[|acts| - 1])
  }

  /** Performing two runs of actions one after the other is performing
      them together. */
  lemma {:induction false} PerformAppend(produces: seq<string>, ctx: LegacyContext, t: Tally, xs: seq<Action>, ys: seq<Action>)
    ensures Perform(produces, ctx, t, xs + ys) == Perform(produces, ctx, Perform(produces, ctx, t, xs), ys)
    decreases |ys|
  {
    if ys == [] {
      assert xs + ys == xs;
    } else {
      var ys' := ys[..|ys| - 1];
      assert (xs + ys)[..|xs + ys| - 1] == xs + ys';
      PerformAppend(produces, ctx, t, xs, ys');
    }
  }

  lemma PerformSnoc(produces: seq<string>, ctx: LegacyContext, t: Tally, xs: seq<Action>, a: Action)
    ensures Perform(produces, ctx, t, xs + [a]) == Apply(produces, ctx, Perform(produces, ctx, t, xs), a)
  {
    assert (xs + [a])[..|xs + [a]| - 1] == xs;
  }

  /** How many `emit` calls get past the `PRODUCES` filter. */
  function AdmittedCount(produces: seq<string>, acts: seq<Action>): (n: nat)
    ensures n <= |acts|
  {
    if acts == [] then 0
    else
      var a := acts[|acts| - 1];
      AdmittedCount(produces, acts[..|acts| - 1]) + if a.Emitted? && Runtime.Admits(produces, a.eventType) then 1 else 0
  }

  /** Exactly one envelope per admitted `emit` is written. */
  lemma {:induction false} PerformCount(produces: seq<string>, ctx: LegacyContext, t: Tally, acts: seq<Action>)
    ensures |Perform(produces, ctx, t, acts).written| == |t.written| + AdmittedCount(produces, acts)
    decreases |acts|
  {
    if acts != [] {
      PerformCount(produces, ctx, t, acts[..|acts| - 1]);
    }
  }

  /** Events of types a non-empty `PRODUCES` does not declare leave the
      events file as it was. */
  lemma {:induction false} PerformDropsUndeclared(produces: seq<string>, ctx: LegacyContext, t: Tally, acts: seq<Action>)
    requires produces != []
    requires forall i :: 0 <= i < |acts| && acts[i].Emitted? ==> acts[i].eventType !in produces
    ensures Perform(produces, ctx, t, acts).written == t.written
    decreases |acts|
  {
    if acts != [] {
      PerformDropsUndeclared(produces, ctx, t, acts[..|acts| - 1]);
    }
  }

  /** While the adapter's code leaves `emitted_docs` alone, it equals the
      number of envelopes written. */
  lemma {:induction false} EmittedDocsInSync(produces: seq<string>, ctx: LegacyContext, t: Tally, acts: seq<Action>)
    requires Get(t.metrics, "emitted_docs") == Some(Int(|t.written|))
    requires forall i :: 0 <= i < |acts| && acts[i].Metric? ==> acts[i].key != "emitted_docs"
    ensures var r := Perform(produces, ctx, t, acts); Get(r.metrics, "emitted_docs") == Some(Int(|r.written|))
    decreases |acts|
  {
    if acts != [] {
      var init := acts[..|acts| - 1];
      EmittedDocsInSync(produces, ctx, t, init);
      ApplyEmittedDocs(produces, ctx, Perform(produces, ctx, t, init), acts[|acts| - 1]);
    }
  }

  lemma ApplyEmittedDocs(produces: seq<string>, ctx: LegacyContext, t: Tally, a: Action)
    requires Get(t.metrics, "emitted_docs") == Some(Int(|t.written|))
    requires a.Metric? ==> a.key != "emitted_docs"
    ensures var r := Apply(produces, ctx, t, a); Get(r.metrics, "emitted_docs") == Some(Int(|r.written|))
  {
  }

  /** The actions of the parsed lines, line after line. A line whose parse
      raised an `Exception` contributes what it did before raising; the
      exception itself is swallowed. */
  function LineActions(lines: seq<LineOutcome>): seq<Action>
  {
    if lines == [] then [] else LineActions(lines[..|lines| - 1]) + lines[|lines| - 1].actions
  }

  /** How many lines `parse_tool_output` is called on: every line, or the
      lines up to and including the first whose call raises `SystemExit`,
      which leaves the `for` loop. */
  function ParsedCount(lines: seq<LineOutcome>): (k: nat)
    ensures k <= |lines|
    ensures forall i :: 0 <= i < k - 1 ==> !lines[i].LineExits?
    ensures k == |lines| || (0 < k && lines[k - 1].LineExits?)
  {
    if lines == [] then 0
    else if lines[0].LineExits? then 1
    else
      var k := ParsedCount(lines[1..]);
      assert forall i :: 1 <= i < k ==> lines[i] == lines[1..][i - 1];
      1 + k
  }

  /** Some line's `parse_tool_output` call raised `SystemExit`. */
  predicate LinesExit(lines: seq<LineOutcome>)
  {
    var k := ParsedCount(lines);
    0 < k && lines[k - 1].LineExits?
  }

  /** A line's `SystemExit` is seen: the loop stops at the first one. */
  lemma LinesExitWhen(lines: seq<LineOutcome>)
    ensures LinesExit(lines) <==> exists i :: 0 <= i < |lines| && lines[i].LineExits?
  {
    var k := ParsedCount(lines);
    if k < |lines| {
      assert lines[k - 1].LineExits?;
    }
  }

  /** How the inner `try` block ends: with an exit code, with an
      exception, or with `SystemExit`. */
  datatype LegacyEnd = Finished(code: int) | Failed(error: string) | Exited

  const SpawnFailed := "the command could not be started"

  /** `build_cmd` returned a non-empty list. */
  predicate CommandMode(o: LegacyOracles)
  {
    o.buildEnd.Returns? && o.argv.Some? && o.argv.value != []
  }

  /** `proc.returncode or 0`. */
  function ReturnCode(rc: Option<int>): (code: int)
    ensures rc.None? ==> code == 0
    ensures rc.Some? ==> code == rc.value
  {
    if rc.Some? && rc.value != 0 then rc.value else 0
  }

  const ExecUpdate: Fields := [("phase", Str("exec")), ("processed_targets", Int(0))]

  function GenerateUpdate(n: nat): Fields
  {
    [("phase", Str("generate")), ("processed_targets", Int(n))]
  }

  /** The inner `try` block: the command and its lines, or `generate`. The
      generate branch computes `0 if writer.count >= before else 2`, which
      is 0 because nothing is taken out of the events file. A `SystemExit`
      from `build_cmd`, from a `parse_tool_output` call or from `generate`
      leaves the block; an `Exception` from a line's parse is swallowed. */
  function WorkOf(a: LegacyAdapter, o: LegacyOracles, n: nat, ctx: LegacyContext): (r: (LegacyEnd, Tally))
    ensures r.0.Finished? && !CommandMode(o) ==> r.0.code == 0
    ensures r.0.Finished? && CommandMode(o) ==> r.0.code == ReturnCode(o.returnCode)
    ensures r.0.Failed? <==> o.buildEnd.Raises? || (CommandMode(o) && !o.spawns)
                             || (o.buildEnd.Returns? && !CommandMode(o) && o.generateEnd.Raises?)
    ensures r.0.Exited? <==> o.buildEnd.Exits? || (CommandMode(o) && o.spawns && LinesExit(o.lines))
                             || (o.buildEnd.Returns? && !CommandMode(o) && o.generateEnd.Exits?)
  {
    var t0 := Tally(LegacyInitialMetrics, []);
    match o.buildEnd
    case Raises(e) => (Failed(e), t0)
    case Exits => (Exited, t0)
    case Returns =>
      if CommandMode(o) then
        var t1 := Tally(Merge(LegacyInitialMetrics, ExecUpdate), []);
        if !o.spawns then (Failed(SpawnFailed), t1)
        else
          var t2 := Perform(a.produces, ctx, t1, LineActions(o.lines[..ParsedCount(o.lines)]));
          (if LinesExit(o.lines) then Exited else Finished(ReturnCode(o.returnCode)), t2)
      else
        var t1 := Tally(Merge(LegacyInitialMetrics, GenerateUpdate(n)), []);
        var t2 := Perform(a.produces, ctx, t1, o.generated);
        (match o.generateEnd
         case Raises(e) => Failed(e)
         case Exits => Exited
         case Returns => Finished(0), t2)
  }

  /** The state the outer `try` block reaches before its `except`: how the
      work ended, whether the writer and the heartbeat were created, the
      final tally (with the phase `finalize` once they were), and the
      configuration. */
  datatype LegacyBody = LegacyBody(end: LegacyEnd, started: bool, tally: Tally, cfg: LegacyConfig)

  function ContextOf(s: LegacySettings, cfg: LegacyConfig): LegacyContext
  {
    LegacyContext(cfg.tool, cfg.toolVersion, s.runId, s.batchId, s.digest)
  }

  /** The heartbeat's `base`: the identity of the batch and the resolved
      tool. */
  function HeartbeatBase(s: LegacySettings, cfg: LegacyConfig): Fields
  {
    [("tenant_id", Str(s.tenantId)), ("run_id", Str(s.runId)), ("batch_id", Str(s.batchId)),
     ("tool", cfg.tool), ("tool_version", Str(cfg.toolVersion))]
  }

  /** The resource loop from the `i`-th resource on: the first resource
      whose download, checksum or extraction raises ends it. */
  function LegacyPrepareFrom(specs: seq<ResourceSpec>, fetches: seq<ResourceFetch>, i: nat): (r: Result<()>)
    requires i <= |specs|
    ensures r.Ok? <==> forall j :: i <= j < |specs| ==> LegacyPrepareResource(specs[j], Runtime.FetchAt(fetches, j)).outcome.Ok?
    decreases |specs| - i
  {
    if i == |specs| then Ok(())
    else
      var p := LegacyPrepareResource(specs[i], Runtime.FetchAt(fetches, i));
      if p.outcome.Err? then p.outcome else LegacyPrepareFrom(specs, fetches, i + 1)
  }

  /** The outer `try` block once the inputs are read and the resources
      prepared: the writer, the heartbeat, the work, and the inner
      `finally`, which sets the phase to `finalize` whatever happened. */
  function StartedBody(a: LegacyAdapter, s: LegacySettings, o: LegacyOracles, n: nat, cfg: LegacyConfig): (b: LegacyBody)
    ensures b.started && b.cfg == cfg
    ensures Get(b.tally.metrics, "phase") == Some(Str("finalize"))
  {
    var w := WorkOf(a, o, n, ContextOf(s, cfg));
    LegacyBody(w.0, true, Tally(Put(w.1.metrics, "phase", Str("finalize")), w.1.written), cfg)
  }

  /** The outer `try` block up to its `except`. */
  function LegacyBodyOf(a: LegacyAdapter, s: LegacySettings, o: LegacyOracles): (b: LegacyBody)
    ensures !b.started ==> b.end.Failed? && b.tally.written == []
  {
    match Runtime.LoadTargets(o.inputs)
    case Err(e) => LegacyBody(Failed(e), false, Tally(LegacyInitialMetrics, []), LegacyConfig(Str(s.tool), s.toolVersion, Obj([]), []))
    case Ok(targets) =>
      var cfg := ResolvedConfig(s.manifestUrl, o.manifest, s.tool, s.toolVersion);
      match LegacyPrepareFrom(cfg.resources, o.fetches, 0)
      case Err(e) => LegacyBody(Failed(e), false, Tally(LegacyInitialMetrics, []), cfg)
      case Ok(_) => StartedBody(a, s, o, |targets|, cfg)
  }

  /** The `progress@v1` signal of the `except` branch: the settings' own
      tool and version, not the manifest's. */
  function LegacyErrorPayload(s: LegacySettings, error: string, at: string): (r: Fields)
    ensures |r| == 9 && r[0] == ("kind", Str("progress@v1"))
  {
    [("kind", Str("progress@v1")), ("tenant_id", Str(s.tenantId)), ("run_id", Str(s.runId)),
     ("batch_id", Str(s.batchId)), ("tool", Str(s.tool)), ("tool_version", Str(s.toolVersion)),
     ("phase", Str("error")), ("error", Str(error)), ("at", Str(at))]
  }

  /** `f"{ocs_prefix}events.jsonl.gz" if ocs_prefix else "events.jsonl.gz"`. */
  function LegacyEventsBlob(prefix: string): (r: string)
    ensures r == Runtime.EventsBlob(prefix)
  {
    if prefix != "" then prefix + "events.jsonl.gz" else "events.jsonl.gz"
  }

  /** The `results_ready@v1` payload: `kind` first, and
      `tool_image_digest` last, only when it is set. */
  function LegacyResultsPayload(s: LegacySettings, cfg: LegacyConfig, count: nat, sha: string, createdAt: string): (r: Fields)
    ensures |r| == 10 + if Runtime.Given(s.digest) then 1 else 0
    ensures r[0] == ("kind", Str("results_ready@v1")) && r[6] == ("doc_count", Int(count))
    ensures r[7] == ("events_blob", Str(Runtime.EventsBlob(s.ocsPrefix)))
  {
    var body := [("kind", Str("results_ready@v1")), ("tenant_id", Str(s.tenantId)), ("run_id", Str(s.runId)),
                 ("batch_id", Str(s.batchId)), ("tool", cfg.tool), ("tool_version", Str(cfg.toolVersion)),
                 ("doc_count", Int(count)), ("events_blob", Str(LegacyEventsBlob(s.ocsPrefix))),
                 ("events_sha256", Str(sha)), ("created_at", Str(createdAt))];
    if Runtime.Given(s.digest) then body + [("tool_image_digest", Str(s.digest.value))] else body
  }

  /** `preserve.lower() in {"1", "true", "yes"}` for a set, non-empty
      `ADAPTER_PRESERVE_WORKDIR`. */
  predicate LegacyPreserves(env: Env)
  {
    PreserveWorkdirVar in env && env[PreserveWorkdirVar] != ""
    && Lower(env[PreserveWorkdirVar]) in {"1", "true", "yes"}
  }

  /** The first pass of the heartbeat's worker, which sends the initial
      metrics. */
  function StartPosts(s: LegacySettings, b: LegacyBody, now: string): seq<Post>
  {
    if b.started then PostsTo(s.signalUrl, LegacyProgressPayload(HeartbeatBase(s, b.cfg), LegacyInitialMetrics, now)) else []
  }

  /** The heartbeat `stop()` sends in the inner `finally`. */
  function StopPosts(s: LegacySettings, b: LegacyBody, now: string): seq<Post>
  {
    if b.started then PostsTo(s.signalUrl, LegacyProgressPayload(HeartbeatBase(s, b.cfg), b.tally.metrics, now)) else []
  }

  function ErrorPosts(s: LegacySettings, error: string, now: string): seq<Post>
  {
    PostsTo(s.signalUrl, LegacyErrorPayload(s, error, now))
  }

  function ResultsPosts(s: LegacySettings, b: LegacyBody, o: LegacyOracles): seq<Post>
  {
    PostsTo(s.signalUrl, LegacyResultsPayload(s, b.cfg, |b.tally.written|, o.eventsDigest, o.now))
  }

  /** The inner `finally`: the writer closes before the heartbeat stops. */
  function ClosingSteps(b: LegacyBody): seq<Runtime.Step>
  {
    if b.started then [Runtime.CloseWriter, Runtime.StopHeartbeat] else []
  }

  function CleanupSteps(env: Env): seq<Runtime.Step>
  {
    if LegacyPreserves(env) then [] else [Runtime.RemoveWorkdir]
  }

  function UploadSteps(s: LegacySettings): seq<Runtime.Step>
  {
    if Runtime.Given(s.outputUrl) then [Runtime.Upload(s.outputUrl.value)] else []
  }

  /** What follows the inner `finally`: the `except` branch with its error
      signal, or the upload and `results_ready@v1`; then the outer
      `finally`. A `SystemExit` skips both and leaves `run` after the outer
      `finally`. */
  function Tail(s: LegacySettings, env: Env, b: LegacyBody, o: LegacyOracles): Runtime.Trace
  {
    match b.end
    case Exited =>
      Runtime.Trace(Runtime.Escapes(Runtime.SystemExitError), CleanupSteps(env), [])
    case Failed(e) =>
      Runtime.Trace(Runtime.Exit(1), CleanupSteps(env), ErrorPosts(s, e, o.now))
    case Finished(code) =>
      if Runtime.Given(s.outputUrl) && o.upload.Err? then
        Runtime.Trace(Runtime.Exit(1), UploadSteps(s) + CleanupSteps(env), ErrorPosts(s, o.upload.error, o.now))
      else
        Runtime.Trace(Runtime.Exit(code), UploadSteps(s) + CleanupSteps(env), ResultsPosts(s, b, o))
  }

  /** What `run` does once the outer `try` block has reached `b`. */
  function LegacyFinish(s: LegacySettings, env: Env, b: LegacyBody, o: LegacyOracles): Runtime.Trace
  {
    var t := Tail(s, env, b, o);
    Runtime.Trace(t.outcome, ClosingSteps(b) + t.steps, StartPosts(s, b, o.now) + StopPosts(s, b, o.now) + t.posts)
  }

  /** The whole of `run`. */
  function LegacyExpected(a: LegacyAdapter, env: Env, o: LegacyOracles): Runtime.Trace
  {
    match LegacyFromEnv(a, env)
    case Err(_) => Runtime.Trace(Runtime.Exit(2), [], [])
    case Ok(s) =>
      var f := LegacyFinish(s, env, LegacyBodyOf(a, s, o), o);
      Runtime.Trace(f.outcome, [Runtime.MakeWorkdir] + f.steps, f.posts)
  }

  // ----- the methods -----

  /** The resource loop of `run`. */
  method LegacyPrepareResources(specs: seq<ResourceSpec>, fetches: seq<ResourceFetch>) returns (r: Result<()>)
    ensures r == LegacyPrepareFrom(specs, fetches, 0)
  {
    var i := 0;
    while i < |specs|
      invariant 0 <= i <= |specs|
      invariant LegacyPrepareFrom(specs, fetches, 0) == LegacyPrepareFrom(specs, fetches, i)
    {
      var p := LegacyPrepareResource(specs[i], Runtime.FetchAt(fetches, i));
      if p.outcome.Err? {
        return p.outcome;
      }
      i := i + 1;
    }
    return Ok(());
  }

  /** The configuration `run` works with: the manifest is read only when its
      URL is set, and any failure to read or decode it leaves the default. */
  method LoadConfig(s: LegacySettings, manifest: Result<Json>) returns (cfg: LegacyConfig)
    ensures cfg == ResolvedConfig(s.manifestUrl, manifest, s.tool, s.toolVersion)
  {
    cfg := LegacyConfig(Str(s.tool), s.toolVersion, Obj([]), []);
    if Runtime.Given(s.manifestUrl) && manifest.Ok? {
      var decoded := DecodeManifest(manifest.value);
      if decoded.Ok? {
        cfg := decoded.value;
      }
    }
    cfg := cfg.(tool := Or(cfg.tool, Str(s.tool)),
                toolVersion := if cfg.toolVersion != "" then cfg.toolVersion else s.toolVersion);
  }

  /** The adapter's actions, one after the other, on the writer and the
      heartbeat. */
  method PerformActions(produces: seq<string>, acts: seq<Action>, writer: LegacyEventWriter, hb: LegacyHeartbeat)
    requires writer.Valid() && !writer.closed && hb.Valid()
    modifies writer, hb
    ensures writer.Valid() && !writer.closed && hb.Valid()
    ensures hb.workers == old(hb.workers) && hb.stopped == old(hb.stopped)
    ensures Tally(hb.metrics, writer.envelopes) ==
              Perform(produces, writer.context, Tally(old(hb.metrics), old(writer.envelopes)), acts)
  {
    ghost var t0 := Tally(hb.metrics, writer.envelopes);
    var i := 0;
    assert acts[..0] == [];
    while i < |acts|
      invariant 0 <= i <= |acts|
      invariant writer.Valid() && !writer.closed && hb.Valid()
      invariant hb.workers == old(hb.workers) && hb.stopped == old(hb.stopped)
      invariant Tally(hb.metrics, writer.envelopes) == Perform(produces, writer.context, t0, acts[..i])
    {
      ghost var done := acts[..i];
      ApplyAction(produces, acts[i], writer, hb);
      PerformSnoc(produces, writer.context, t0, done, acts[i]);
      assert acts[..i + 1] == done + [acts[i]];
      i := i + 1;
    }
    assert acts[..i] == acts;
  }

  /** One action on the writer and the heartbeat. */
  method ApplyAction(produces: seq<string>, a: Action, writer: LegacyEventWriter, hb: LegacyHeartbeat)
    requires writer.Valid() && !writer.closed && hb.Valid()
    modifies writer, hb
    ensures writer.Valid() && !writer.closed && hb.Valid()
    ensures hb.workers == old(hb.workers) && hb.stopped == old(hb.stopped)
    ensures Tally(hb.metrics, writer.envelopes) ==
              Apply(produces, writer.context, Tally(old(hb.metrics), old(writer.envelopes)), a)
  {
    match a {
      case Emitted(eventType, payload, at) =>
        if Runtime.Admits(produces, eventType) {
          writer.Emit(eventType, payload, at);
          hb.SetMetric("emitted_docs", Int(writer.count));
        }
      case Metric(k, v) =>
        hb.SetMetric(k, v);
    }
  }

  /** `for line in proc.stdout: try: self.parse_tool_output(line, emit, hb)
      except Exception: pass`, which a `SystemExit` leaves. */
  method ParseLines(produces: seq<string>, lines: seq<LineOutcome>, writer: LegacyEventWriter, hb: LegacyHeartbeat)
    returns (exited: bool)
    requires writer.Valid() && !writer.closed && hb.Valid()
    modifies writer, hb
    ensures writer.Valid() && !writer.closed && hb.Valid()
    ensures hb.workers == old(hb.workers) && hb.stopped == old(hb.stopped)
    ensures exited == LinesExit(lines)
    ensures Tally(hb.metrics, writer.envelopes) ==
              Perform(produces, writer.context, Tally(old(hb.metrics), old(writer.envelopes)),
                      LineActions(lines[..ParsedCount(lines)]))
  {
    ghost var t0 := Tally(hb.metrics, writer.envelopes);
    var i := 0;
    exited := false;
    assert lines[..0] == [];
    while i < |lines| && !exited
      invariant 0 <= i <= |lines|
      invariant writer.Valid() && !writer.closed && hb.Valid()
      invariant hb.workers == old(hb.workers) && hb.stopped == old(hb.stopped)
      invariant forall j :: 0 <= j < i - 1 ==> !lines[j].LineExits?
      invariant exited <==> 0 < i && lines[i - 1].LineExits?
      invariant Tally(hb.metrics, writer.envelopes) == Perform(produces, writer.context, t0, LineActions(lines[..i]))
    {
      assert lines[..i + 1][..i] == lines[..i];
      PerformAppend(produces, writer.context, t0, LineActions(lines[..i]), lines[i].actions);
      PerformActions(produces, lines[i].actions, writer, hb);
      exited := lines[i].LineExits?;
      i := i + 1;
    }
    assert i == ParsedCount(lines);
  }

  /** The inner `try` block. */
  method RunWork(a: LegacyAdapter, o: LegacyOracles, n: nat, writer: LegacyEventWriter, hb: LegacyHeartbeat)
    returns (end: LegacyEnd)
    requires writer.Valid() && !writer.closed && writer.envelopes == [] && hb.Valid() && hb.metrics == LegacyInitialMetrics
    modifies writer, hb
    ensures writer.Valid() && !writer.closed && hb.Valid()
    ensures hb.workers == old(hb.workers) && hb.stopped == old(hb.stopped)
    ensures var w := WorkOf(a, o, n, writer.context);
            end == w.0 && hb.metrics == w.1.metrics && writer.envelopes == w.1.written
  {
    if o.buildEnd.Raises? {
      return Failed(o.buildEnd.error);
    }
    if o.buildEnd.Exits? {
      return Exited;
    }
    if o.argv.Some? && o.argv.value != [] {
      hb.UpdateMetrics(ExecUpdate);
      if !o.spawns {
        return Failed(SpawnFailed);
      }
      var exited := ParseLines(a.produces, o.lines, writer, hb);
      end := if exited then Exited else Finished(ReturnCode(o.returnCode));
    } else {
      hb.UpdateMetrics(GenerateUpdate(n));
      var before := writer.count;
      PerformActions(a.produces, o.generated, writer, hb);
      match o.generateEnd {
        case Raises(e) => return Failed(e);
        case Exits => return Exited;
        case Returns => end := Finished(if writer.count >= before then 0 else 2);
      }
    }
  }

  /** What follows the inner `finally`. */
  method Conclude(s: LegacySettings, env: Env, o: LegacyOracles, ghost b: LegacyBody, end: LegacyEnd, cfg: LegacyConfig,
                  count: nat, host: Runtime.Host, outbox: Outbox)
    returns (outcome: Runtime.Outcome)
    requires end == b.end && cfg == b.cfg && count == |b.tally.written|
    modifies host, outbox
    ensures var t := Tail(s, env, b, o);
            && outcome == t.outcome
            && host.steps == old(host.steps) + t.steps
            && outbox.posts == old(outbox.posts) + t.posts
  {
    ghost var h0 := host.steps;
    if end.Exited? {
      outcome := Runtime.Escapes(Runtime.SystemExitError);
    } else if end.Failed? {
      outbox.PostJson(s.signalUrl, LegacyErrorPayload(s, end.error, o.now));
      outcome := Runtime.Exit(1);
    } else {
      if Runtime.Given(s.outputUrl) {
        host.Do(Runtime.Upload(s.outputUrl.value));
      }
      if Runtime.Given(s.outputUrl) && o.upload.Err? {
        outbox.PostJson(s.signalUrl, LegacyErrorPayload(s, o.upload.error, o.now));
        outcome := Runtime.Exit(1);
      } else {
        outbox.PostJson(s.signalUrl, LegacyResultsPayload(s, cfg, count, o.eventsDigest, o.now));
        outcome := Runtime.Exit(end.code);
      }
    }
    ghost var h1 := host.steps;
    if !LegacyPreserves(env) {
      host.Do(Runtime.RemoveWorkdir);
    }
    AppendAssoc(h0, h1[|h0|..], CleanupSteps(env));
  }

  /** The writer, the heartbeat, the inner `try` block and its
      `finally`. */
  method RunWriterAndHeartbeat(a: LegacyAdapter, s: LegacySettings, o: LegacyOracles, n: nat, cfg: LegacyConfig,
                                host: Runtime.Host, outbox: Outbox)
    returns (end: LegacyEnd, count: nat)
    modifies host, outbox
    ensures var w := WorkOf(a, o, n, ContextOf(s, cfg));
            && end == w.0 && count == |w.1.written|
            && host.steps == old(host.steps) + [Runtime.CloseWriter, Runtime.StopHeartbeat]
            && outbox.posts == old(outbox.posts)
                 + (PostsTo(s.signalUrl, LegacyProgressPayload(HeartbeatBase(s, cfg), LegacyInitialMetrics, o.now))
                    + PostsTo(s.signalUrl, LegacyProgressPayload(HeartbeatBase(s, cfg), Put(w.1.metrics, "phase", Str("finalize")), o.now)))
  {
    var writer := new LegacyEventWriter(ContextOf(s, cfg));
    var hb := StartHeartbeat(s.signalUrl, HeartbeatBase(s, cfg), a.heartbeatS, o.now, outbox);
    ghost var p1 := outbox.posts;
    end, count := WorkAndStop(a, o, n, writer, hb, host);
    AppendAssoc(old(outbox.posts), p1[|old(outbox.posts)|..], outbox.posts[|p1|..]);
  }

  /** The inner `try` block and its `finally`, on a fresh writer and a
      started heartbeat. */
  method WorkAndStop(a: LegacyAdapter, o: LegacyOracles, n: nat, writer: LegacyEventWriter, hb: LegacyHeartbeat, host: Runtime.Host)
    returns (end: LegacyEnd, count: nat)
    requires writer.Valid() && !writer.closed && writer.envelopes == [] && hb.Valid() && hb.metrics == LegacyInitialMetrics
    modifies writer, hb, hb.outbox, host
    ensures var w := WorkOf(a, o, n, writer.context);
            && end == w.0 && count == |w.1.written|
            && host.steps == old(host.steps) + [Runtime.CloseWriter, Runtime.StopHeartbeat]
            && hb.outbox.posts == old(hb.outbox.posts)
                 + PostsTo(hb.url, LegacyProgressPayload(hb.basePayload, Put(w.1.metrics, "phase", Str("finalize")), o.now))
  {
    end := RunWork(a, o, n, writer, hb);
    writer.Close();
    host.Do(Runtime.CloseWriter);
    StopHeartbeat(hb, o.now, host);
    count := writer.count;
  }

  lemma StartedParts(a: LegacyAdapter, s: LegacySettings, o: LegacyOracles, n: nat, cfg: LegacyConfig)
    ensures var b := StartedBody(a, s, o, n, cfg);
            var w := WorkOf(a, o, n, ContextOf(s, cfg));
            && b.end == w.0 && |b.tally.written| == |w.1.written|
            && ClosingSteps(b) == [Runtime.CloseWriter, Runtime.StopHeartbeat]
            && StartPosts(s, b, o.now) == PostsTo(s.signalUrl, LegacyProgressPayload(HeartbeatBase(s, cfg), LegacyInitialMetrics, o.now))
            && StopPosts(s, b, o.now) ==
                 PostsTo(s.signalUrl, LegacyProgressPayload(HeartbeatBase(s, cfg), Put(w.1.metrics, "phase", Str("finalize")), o.now))
  {
  }

  /** `hb = Heartbeat(...); hb.start()`. */
  method StartHeartbeat(url: Option<string>, base: Fields, intervalS: int, now: string, outbox: Outbox)
    returns (hb: LegacyHeartbeat)
    modifies outbox
    ensures fresh(hb) && hb.Valid() && !hb.stopped
    ensures hb.url == url && hb.basePayload == base && hb.outbox == outbox && hb.metrics == LegacyInitialMetrics
    ensures outbox.posts == old(outbox.posts) + PostsTo(url, LegacyProgressPayload(base, LegacyInitialMetrics, now))
  {
    hb := new LegacyHeartbeat(url, base, intervalS, outbox);
    hb.Start(now);
  }

  /** `hb.metrics["phase"] = "finalize"; hb.stop()`. */
  method StopHeartbeat(hb: LegacyHeartbeat, now: string, host: Runtime.Host)
    requires hb.Valid()
    modifies hb, hb.outbox, host
    ensures hb.outbox.posts == old(hb.outbox.posts)
              + PostsTo(hb.url, LegacyProgressPayload(hb.basePayload, Put(old(hb.metrics), "phase", Str("finalize")), now))
    ensures host.steps == old(host.steps) + [Runtime.StopHeartbeat]
  {
    hb.SetMetric("phase", Str("finalize"));
    hb.Stop(now);
    host.Do(Runtime.StopHeartbeat);
  }

  /** The outer `try` block from the writer on, and what follows. */
  method RunStarted(a: LegacyAdapter, s: LegacySettings, env: Env, o: LegacyOracles, n: nat, cfg: LegacyConfig,
                    ghost b: LegacyBody, host: Runtime.Host, outbox: Outbox)
    returns (outcome: Runtime.Outcome)
    requires b == StartedBody(a, s, o, n, cfg)
    modifies host, outbox
    ensures var f := LegacyFinish(s, env, b, o);
            && outcome == f.outcome
            && host.steps == old(host.steps) + f.steps
            && outbox.posts == old(outbox.posts) + f.posts
  {
    ghost var t := Tail(s, env, b, o);
    ghost var opening := StartPosts(s, b, o.now) + StopPosts(s, b, o.now);
    assert LegacyFinish(s, env, b, o) == Runtime.Trace(t.outcome, ClosingSteps(b) + t.steps, opening + t.posts);
    StartedParts(a, s, o, n, cfg);
    var end, count := RunWriterAndHeartbeat(a, s, o, n, cfg, host, outbox);
    outcome := Conclude(s, env, o, b, end, cfg, count, host, outbox);
    AppendAssoc(old(host.steps), ClosingSteps(b), t.steps);
    AppendAssoc(old(outbox.posts), opening, t.posts);
  }

  /** Before the writer exists, the trace is the tail's. */
  lemma NotStartedFinish(s: LegacySettings, env: Env, b: LegacyBody, o: LegacyOracles)
    requires !b.started
    ensures LegacyFinish(s, env, b, o) == Tail(s, env, b, o)
  {
    var t := Tail(s, env, b, o);
    assert ClosingSteps(b) + t.steps == t.steps;
    assert StartPosts(s, b, o.now) + StopPosts(s, b, o.now) + t.posts == t.posts;
  }

  /** `run` once the settings are read and the workdir exists. */
  method RunInWorkdir(a: LegacyAdapter, s: LegacySettings, env: Env, o: LegacyOracles, host: Runtime.Host, outbox: Outbox)
    returns (outcome: Runtime.Outcome)
    modifies host, outbox
    ensures var f := LegacyFinish(s, env, LegacyBodyOf(a, s, o), o);
            && outcome == f.outcome
            && host.steps == old(host.steps) + f.steps
            && outbox.posts == old(outbox.posts) + f.posts
  {
    ghost var b := LegacyBodyOf(a, s, o);
    var targets := Runtime.LoadTargets(o.inputs);
    if targets.Err? {
      NotStartedFinish(s, env, b, o);
      outcome := Conclude(s, env, o, b, Failed(targets.error), LegacyConfig(Str(s.tool), s.toolVersion, Obj([]), []), 0, host, outbox);
      return;
    }
    var cfg := LoadConfig(s, o.manifest);
    var prepared := LegacyPrepareResources(cfg.resources, o.fetches);
    if prepared.Err? {
      NotStartedFinish(s, env, b, o);
      outcome := Conclude(s, env, o, b, Failed(prepared.error), cfg, 0, host, outbox);
      return;
    }
    outcome := RunStarted(a, s, env, o, |targets.value|, cfg, b, host, outbox);
  }

  /** `BaseAdapter.run` of the legacy runtime. */
  method LegacyRun(a: LegacyAdapter, env: Env, o: LegacyOracles, host: Runtime.Host, outbox: Outbox)
    returns (outcome: Runtime.Outcome)
    modifies host, outbox
    ensures var t := LegacyExpected(a, env, o);
            && outcome == t.outcome
            && host.steps == old(host.steps) + t.steps
            && outbox.posts == old(outbox.posts) + t.posts
  {
    var settings := LegacyFromEnv(a, env);
    if settings.Err? {
      return Runtime.Exit(2);
    }
    var s := settings.value;
    host.Do(Runtime.MakeWorkdir);
    ghost var f := LegacyFinish(s, env, LegacyBodyOf(a, s, o), o);
    outcome := RunInWorkdir(a, s, env, o, host, outbox);
    AppendAssoc(old(host.steps), [Runtime.MakeWorkdir], f.steps);
  }
}
