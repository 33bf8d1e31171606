/** The batch lifecycle of the packaged runtime: `RuntimeSettings.from_env`,
    `BaseAdapter.run` with its helpers, `spawn_and_stream`, and
    `WrapperAdapter.main`.

    What the process would read or hear from outside (the inputs file, the
    manifest, each resource's download, the calls the adapter's `main`
    makes, the digest of the events file, the upload, the clock) is one
    `Oracles` value. The temporary directory, the SIGTERM handler and the
    upload are recorded as `Step`s in a `Host`; signals are the `Outbox`'s
    posts. `Run` is proved to produce exactly the `Trace` that the
    function `Expected` describes, and the lemmas below it state what the
    runtime promises about every such trace. */
module Runtime {
  import opened Common
  import opened Text
  import opened Jsons
  import opened Utils
  import opened Io
  import opened Envelope
  import opened Signals
  import Events

  /** An optional string as `if value:` sees it. */
  predicate Given(u: Option<string>)
  {
    u.Some? && u.value != ""
  }

  datatype RuntimeSettings = RuntimeSettings(
    inputsUrl: string,
    resourcesManifestUrl: Option<string>,
    outputUrl: Option<string>,
    signalUrl: Option<string>,
    tenantId: string,
    runId: string,
    batchId: string,
    ocsPrefix: string,
    toolImageDigest: Option<string>,
    tool: string,
    toolVersion: string,
    heartbeatSeconds: int,
    preserveWorkdir: bool)

  // ----- settings -----

  /** `env_str(name, "") or ""`. */
  function EnvText(env: Env, name: string): (r: string)
    ensures name in env ==> r == env[name]
    ensures name !in env ==> r == ""
  {
    Coalesce(EnvStr(env, name, Some("")), "")
  }

  /** `env_str(name) or None`: an empty variable counts as unset. */
  function EnvNonEmpty(env: Env, name: string): (r: Option<string>)
    ensures r.Some? <==> name in env && env[name] != ""
    ensures r.Some? ==> r.value == env[name]
  {
    var v := EnvStr(env, name, None);
    if Given(v) then v else None
  }

  /** `env_str("HEARTBEAT_SECONDS", "30") or "30"`. */
  function HeartbeatText(env: Env): (r: string)
    ensures "HEARTBEAT_SECONDS" in env && env["HEARTBEAT_SECONDS"] != "" ==> r == env["HEARTBEAT_SECONDS"]
    ensures "HEARTBEAT_SECONDS" !in env || env["HEARTBEAT_SECONDS"] == "" ==> r == "30"
  {
    Coalesce(EnvStr(env, "HEARTBEAT_SECONDS", Some("30")), "30")
  }

  /** `RuntimeSettings.from_env(default_tool, default_version)`: it raises
      without a non-empty `INPUTS_URL` and when `HEARTBEAT_SECONDS` is not
      an integer; the adapter's own tool name and version win over the
      environment's. */
  function FromEnv(env: Env, defaultTool: string, defaultVersion: string): (r: Result<RuntimeSettings>)
    ensures r.Ok? <==> ("INPUTS_URL" in env && env["INPUTS_URL"] != "") && ParseInt(HeartbeatText(env)).Some?
    ensures r.Ok? ==> r.value.inputsUrl == env["INPUTS_URL"]
    ensures r.Ok? ==> r.value.tool == (if defaultTool != "" then defaultTool else EnvText(env, "TOOL"))
    ensures r.Ok? ==> r.value.toolVersion == (if defaultVersion != "" then defaultVersion else EnvText(env, "TOOL_VERSION"))
    ensures r.Ok? ==> r.value.heartbeatSeconds == ParseInt(HeartbeatText(env)).value
    ensures r.Ok? ==> r.value.preserveWorkdir == ShouldPreserveWorkdir(env)
    ensures r.Ok? ==> r.value.resourcesManifestUrl == EnvStr(env, "RESOURCES_MANIFEST_URL", None)
    ensures r.Ok? ==> r.value.toolImageDigest.None? || r.value.toolImageDigest.value != ""
  {
    var inputs := EnvNonEmpty(env, "INPUTS_URL");
    if inputs.None? then Err("missing INPUTS_URL")
    else
      var heartbeat := ParseInt(HeartbeatText(env));
      if heartbeat.None? then Err("invalid literal for int() with base 10")
      else
        Ok(RuntimeSettings(
          inputs.value,
          EnvStr(env, "RESOURCES_MANIFEST_URL", None),
          EnvStr(env, "OUTPUT_URL", None),
          EnvStr(env, "SIGNAL_URL", None),
          EnvText(env, "TENANT_ID"),
          EnvText(env, "RUN_ID"),
          EnvText(env, "BATCH_ID"),
          EnvText(env, "OCS_PREFIX"),
          EnvNonEmpty(env, "TOOL_IMAGE_DIGEST"),
          Coalesce(Some(defaultTool), EnvText(env, "TOOL")),
          Coalesce(Some(defaultVersion), EnvText(env, "TOOL_VERSION")),
          heartbeat.value,
          EnvFlag(env, PreserveWorkdirVar, false)))
  }

  /** The default heartbeat text is an integer. */
  lemma DefaultHeartbeat()
    ensures ParseInt("30") == Some(30)
  {
    assert NatToString(30) == NatToString(3) + [DigitChar(0)];
    assert IntToString(30) == "30";
    ParseNonNegative(30);
  }

  /** With `INPUTS_URL` set and none of the optional variables, the
      settings load with a 30-second heartbeat, no signal or output URL, no
      digest, and a workdir that is removed. */
  lemma FromEnvMinimal(env: Env, defaultTool: string, defaultVersion: string)
    requires "INPUTS_URL" in env && env["INPUTS_URL"] != ""
    requires "HEARTBEAT_SECONDS" !in env && PreserveWorkdirVar !in env && "TOOL_IMAGE_DIGEST" !in env
    requires "SIGNAL_URL" !in env && "OUTPUT_URL" !in env
    ensures var r := FromEnv(env, defaultTool, defaultVersion);
            && r.Ok? && r.value.heartbeatSeconds == 30 && !r.value.preserveWorkdir
            && r.value.signalUrl == None && r.value.outputUrl == None && r.value.toolImageDigest == None
  {
    DefaultHeartbeat();
  }

  // ----- payloads -----

  /** `payload["tool_image_digest"] = digest` when the digest is set and
      not empty. */
  function WithDigest(fs: Fields, digest: Option<string>): (r: Fields)
    requires "tool_image_digest" !in Keys(fs)
    ensures Get(r, "tool_image_digest") == if Given(digest) then Some(Str(digest.value)) else None
    ensures Keys(r) == Keys(fs) + if Given(digest) then ["tool_image_digest"] else []
  {
    if Given(digest) then Put(fs, "tool_image_digest", Str(digest.value)) else fs
  }

  /** Adding the digest leaves every other key as it was. */
  lemma WithDigestOther(fs: Fields, digest: Option<string>, k: string)
    requires "tool_image_digest" !in Keys(fs) && k != "tool_image_digest"
    ensures Get(WithDigest(fs, digest), k) == Get(fs, k)
  {
  }

  /** `_build_signal_payload(runtime)`: the identity every signal carries,
      with the settings' own tool name and version. */
  function SignalPayload(s: RuntimeSettings): (r: Fields)
    ensures Get(r, "tool") == Some(Str(s.tool)) && Get(r, "tool_version") == Some(Str(s.toolVersion))
    ensures Get(r, "tool_image_digest") == if Given(s.toolImageDigest) then Some(Str(s.toolImageDigest.value)) else None
  {
    var base := [("tenant_id", Str(s.tenantId)), ("run_id", Str(s.runId)), ("batch_id", Str(s.batchId)),
                 ("tool", Str(s.tool)), ("tool_version", Str(s.toolVersion))];
    NotAKey(base, "tool_image_digest");
    GetFirst(base, 3);
    GetFirst(base, 4);
    WithDigestOther(base, s.toolImageDigest, "tool");
    WithDigestOther(base, s.toolImageDigest, "tool_version");
    WithDigest(base, s.toolImageDigest)
  }

  /** `_build_event_context(runtime, tool, tool_version)`: what each
      envelope carries besides the event, with the resolved tool. */
  function EventContext(s: RuntimeSettings, tool: string, version: string): (r: Fields)
    ensures Get(r, "tool") == Some(Str(tool)) && Get(r, "tool_version") == Some(Str(version))
    ensures Get(r, "tool_image_digest") == if Given(s.toolImageDigest) then Some(Str(s.toolImageDigest.value)) else None
    ensures "event_type" !in Keys(r) && "timestamp" !in Keys(r) && "payload" !in Keys(r)
  {
    var base := [("tool", Str(tool)), ("tool_version", Str(version)), ("run_id", Str(s.runId)),
                 ("batch_id", Str(s.batchId))];
    NotAKey(base, "tool_image_digest");
    NotAKey(base, "event_type");
    NotAKey(base, "timestamp");
    NotAKey(base, "payload");
    GetFirst(base, 0);
    GetFirst(base, 1);
    WithDigestOther(base, s.toolImageDigest, "tool");
    WithDigestOther(base, s.toolImageDigest, "tool_version");
    WithDigest(base, s.toolImageDigest)
  }

  /** The blob name under the object-store prefix, which is used as
      given, without a separator of its own. */
  function EventsBlob(prefix: string): (r: string)
    ensures StartsWith(r, prefix) && EndsWith(r, "events.jsonl.gz")
  {
    prefix + "events.jsonl.gz"
  }

  /** The identity half of the `results_ready@v1` payload. */
  function ResultsHead(s: RuntimeSettings, tool: string, version: string): (r: Fields)
    ensures Get(r, "tool") == Some(Str(tool))
    ensures "doc_count" !in Keys(r) && "events_blob" !in Keys(r) && "events_sha256" !in Keys(r)
    ensures "tool_image_digest" !in Keys(r)
  {
    var r := [("tenant_id", Str(s.tenantId)), ("run_id", Str(s.runId)), ("batch_id", Str(s.batchId)),
              ("tool", Str(tool)), ("tool_version", Str(version))];
    ResultsHeadKeys(r, s, tool, version);
    r
  }

  lemma ResultsHeadKeys(r: Fields, s: RuntimeSettings, tool: string, version: string)
    requires r == [("tenant_id", Str(s.tenantId)), ("run_id", Str(s.runId)), ("batch_id", Str(s.batchId)),
                   ("tool", Str(tool)), ("tool_version", Str(version))]
    ensures Get(r, "tool") == Some(Str(tool))
    ensures "doc_count" !in Keys(r) && "events_blob" !in Keys(r) && "events_sha256" !in Keys(r)
    ensures "tool_image_digest" !in Keys(r)
  {
    HeadTool(r, s, tool, version);
    HeadLacks(r, s, tool, version, "doc_count");
    HeadLacks(r, s, tool, version, "events_blob");
    HeadLacks(r, s, tool, version, "events_sha256");
    HeadLacks(r, s, tool, version, "tool_image_digest");
  }

  lemma HeadTool(r: Fields, s: RuntimeSettings, tool: string, version: string)
    requires r == [("tenant_id", Str(s.tenantId)), ("run_id", Str(s.runId)), ("batch_id", Str(s.batchId)),
                   ("tool", Str(tool)), ("tool_version", Str(version))]
    ensures Get(r, "tool") == Some(Str(tool))
  {
    GetFirst(r, 3);
  }

  /** None of the identity keys is an output key. */
  lemma HeadLacks(r: Fields, s: RuntimeSettings, tool: string, version: string, k: string)
    requires r == [("tenant_id", Str(s.tenantId)), ("run_id", Str(s.runId)), ("batch_id", Str(s.batchId)),
                   ("tool", Str(tool)), ("tool_version", Str(version))]
    requires k == "doc_count" || k == "events_blob" || k == "events_sha256" || k == "tool_image_digest"
    ensures k !in Keys(r)
  {
    assert |k| >= 9 && (k[0] == 'd' || k[0] == 'e' || k[5] == 'i');
    NotAKey(r, k);
  }

  /** The output half of the `results_ready@v1` payload. */
  function ResultsTail(s: RuntimeSettings, docCount: nat, sha: string, createdAt: string): (r: Fields)
    ensures Get(r, "doc_count") == Some(Int(docCount))
    ensures Get(r, "events_blob") == Some(Str(EventsBlob(s.ocsPrefix)))
    ensures Get(r, "events_sha256") == Some(Str(sha))
    ensures "tool_image_digest" !in Keys(r)
  {
    var r := [("doc_count", Int(docCount)), ("events_blob", Str(EventsBlob(s.ocsPrefix))),
              ("events_sha256", Str(sha)), ("created_at", Str(createdAt))];
    GetFirst(r, 1);
    GetFirst(r, 2);
    NotAKey(r, "tool_image_digest");
    r
  }

  /** The payload of `results_ready@v1` built by `_finalize_success`. */
  function ResultsPayload(s: RuntimeSettings, tool: string, version: string, docCount: nat,
                          sha: string, createdAt: string): (r: Fields)
    ensures Get(r, "doc_count") == Some(Int(docCount))
    ensures Get(r, "events_blob") == Some(Str(EventsBlob(s.ocsPrefix)))
    ensures Get(r, "events_sha256") == Some(Str(sha))
    ensures Get(r, "tool") == Some(Str(tool))
    ensures Get(r, "tool_image_digest") == if Given(s.toolImageDigest) then Some(Str(s.toolImageDigest.value)) else None
  {
    var head := ResultsHead(s, tool, version);
    var tail := ResultsTail(s, docCount, sha, createdAt);
    KeysAppend(head, tail);
    GetAppend(head, tail, "tool");
    GetAppend(head, tail, "doc_count");
    GetAppend(head, tail, "events_blob");
    GetAppend(head, tail, "events_sha256");
    WithDigestOther(head + tail, s.toolImageDigest, "tool");
    WithDigestOther(head + tail, s.toolImageDigest, "doc_count");
    WithDigestOther(head + tail, s.toolImageDigest, "events_blob");
    WithDigestOther(head + tail, s.toolImageDigest, "events_sha256");
    WithDigest(head + tail, s.toolImageDigest)
  }

  // ----- inputs -----

  /** `_load_targets(inputs_url)` over what `read_text` answered: a read
      that raises propagates. */
  function LoadTargets(inputs: Result<string>): (r: Result<seq<string>>)
    ensures r.Ok? <==> inputs.Ok?
    ensures r.Err? ==> r.error == inputs.error
    ensures r.Ok? ==> forall i :: 0 <= i < |r.value| ==> Stripped(r.value[i])
  {
    match inputs
    case Err(e) => Err(e)
    case Ok(text) => Ok(NonBlankLines(text))
  }

  /** A file written with one target per line is read back as those
      targets. */
  lemma LoadTargetsRoundTrip(targets: seq<string>)
    requires forall i :: 0 <= i < |targets| ==> Stripped(targets[i]) && NoLineBoundary(targets[i])
    ensures LoadTargets(Ok(Terminated(targets))) == Ok(targets)
  {
    NonBlankLinesTerminated(targets);
  }

  /** `_load_manifest(url)` over what `read_json` answered: without a URL,
      or when the read raises, the manifest is empty; decoding the
      document is outside the `try` and its errors propagate. */
  function LoadManifest(url: Option<string>, fetched: Result<Json>): (r: Result<BatchConfig>)
    ensures !Given(url) || fetched.Err? ==> r == Ok(EmptyConfig)
    ensures Given(url) && fetched.Ok? ==> r == FromManifestDoc(fetched.value)
  {
    var doc := if Given(url) && fetched.Ok? then fetched.value else Obj([]);
    FromManifestDoc(doc)
  }

  // ----- resources -----

  /** No answer from the environment for a resource: its download fails. */
  const Unreachable := ResourceFetch(false, "", false)

  function FetchAt(fetches: seq<ResourceFetch>, i: nat): ResourceFetch
  {
    if i < |fetches| then fetches[i] else Unreachable
  }

  /** `for resource in cfg.resources: self._prepare_resource(...)` from the
      `i`-th resource on: the first resource whose preparation raises ends
      the loop with that error. */
  function PrepareFrom(specs: seq<ResourceSpec>, fetches: seq<ResourceFetch>, i: nat): (r: Result<()>)
    requires i <= |specs|
    ensures r.Ok? <==> forall j :: i <= j < |specs| ==> PrepareResource(specs[j], FetchAt(fetches, j)).outcome.Ok?
    decreases |specs| - i
  {
    if i == |specs| then Ok(())
    else
      var p := PrepareResource(specs[i], FetchAt(fetches, i));
      if p.outcome.Err? then p.outcome else PrepareFrom(specs, fetches, i + 1)
  }

  /** The resource loop of `run`. */
  method PrepareResources(specs: seq<ResourceSpec>, fetches: seq<ResourceFetch>) returns (r: Result<()>)
    ensures r == PrepareFrom(specs, fetches, 0)
  {
    var i := 0;
    while i < |specs|
      invariant 0 <= i <= |specs|
      invariant PrepareFrom(specs, fetches, 0) == PrepareFrom(specs, fetches, i)
    {
      var p := PrepareResource(specs[i], FetchAt(fetches, i));
      if p.outcome.Err? {
        return p.outcome;
      }
      i := i + 1;
    }
    return Ok(());
  }

  /** A resource whose declared checksum does not match its download stops
      the batch, whatever follows it. */
  lemma ChecksumMismatchStops(specs: seq<ResourceSpec>, fetches: seq<ResourceFetch>, j: nat)
    requires j < |specs| && j < |fetches|
    requires FileNameFor(specs[j]).Ok? && fetches[j].downloaded
    requires !ChecksumOk(specs[j].sha256, fetches[j].digest)
    ensures PrepareFrom(specs, fetches, 0).Err?
  {
    assert PrepareResource(specs[j], FetchAt(fetches, j)).outcome.Err?;
  }

  // ----- what happens while `main` runs -----

  /** One thing that happens while `main` runs, in order: a call of the
      `emit` function the runtime hands to `main` (an event model with the
      timestamp the writer's clock gives it, or some other Python object,
      named by its type), an assignment `hb.metrics[key] = value` made by
      `main` itself (a `WrapperAdapter` records `processed_targets`, the
      `exec` phase and `last_exit_code` this way), or a wake-up of the
      heartbeat's worker at a clock reading. */
  datatype Call =
    | Emit(model: Events.Model, at: string)
    | EmitOther(typeName: string)
    | Metric(key: string, value: Json)
    | Wake(at: string)

  const NotAModel := "emit() expects an EventModel instance"

  /** `not PRODUCES or model.event_type in PRODUCES`. */
  predicate Admits(produces: seq<string>, eventType: string)
  {
    produces == [] || eventType in produces
  }

  /** Index of the first `emit` call that does not pass an event model, or
      the number of calls: `main` gets `TypeError` there. */
  function FirstForeign(calls: seq<Call>): (i: nat)
    ensures i <= |calls|
    ensures forall j :: 0 <= j < i ==> !calls[j].EmitOther?
    ensures i < |calls| ==> calls[i].EmitOther?
  {
    if calls == [] || calls[0].EmitOther? then 0 else 1 + FirstForeign(calls[1..])
  }

  /** What happens before `main` gets `TypeError`, or all of it. */
  function Driven(calls: seq<Call>): (r: seq<Call>)
    ensures r <= calls
    ensures forall j :: 0 <= j < |r| ==> !r[j].EmitOther?
    ensures |r| < |calls| ==> calls[|r|].EmitOther?
  {
    calls[..FirstForeign(calls)]
  }

  /** The model calls that get past the `PRODUCES` filter, in order. */
  function Admitted(produces: seq<string>, calls: seq<Call>): (r: seq<Call>)
    ensures |r| <= |calls|
    ensures forall i :: 0 <= i < |r| ==> r[i].Emit? && Admits(produces, r[i].model.eventType)
  {
    if calls == [] then []
    else
      var c := calls[|calls| - 1];
      var prev := Admitted(produces, calls[..|calls| - 1]);
      if c.Emit? && Admits(produces, c.model.eventType) then prev + [c] else prev
  }

  /** The envelope a call that passed the filter writes. */
  function EnvelopeOf(c: Call, context: Fields): Fields
    requires c.Emit?
  {
    EventEnvelope(c.model.eventType, c.at, Obj(c.model.payload), context)
  }

  /** The envelopes these calls write, in order. */
  function Written(produces: seq<string>, calls: seq<Call>, context: Fields): (r: seq<Fields>)
    ensures |r| == |Admitted(produces, calls)|
  {
    var a := Admitted(produces, calls);
    seq(|a|, i requires 0 <= i < |a| => EnvelopeOf(a[i], context))
  }

  /** A model that passes the filter adds its envelope; nothing else
      writes. */
  lemma WrittenStep(produces: seq<string>, calls: seq<Call>, i: nat, context: Fields)
    requires i < |calls|
    ensures Written(produces, calls[..i + 1], context) ==
              Written(produces, calls[..i], context)
              + (if calls[i].Emit? && Admits(produces, calls[i].model.eventType) then [EnvelopeOf(calls[i], context)] else [])
  {
    assert calls[..i + 1][..i] == calls[..i];
    var a := Admitted(produces, calls[..i]);
    var b := Admitted(produces, calls[..i + 1]);
    var w := Written(produces, calls[..i + 1], context);
    var v := Written(produces, calls[..i], context);
    if calls[i].Emit? && Admits(produces, calls[i].model.eventType) {
      assert b == a + [calls[i]];
      assert |w| == |v| + 1;
      forall k | 0 <= k < |v| ensures w[k] == v[k] {
        assert b[k] == a[k];
      }
      assert w == v + [EnvelopeOf(calls[i], context)];
    } else {
      assert b == a;
    }
  }

  /** When nothing is declared in `PRODUCES`, every model call is written. */
  lemma {:induction false} AdmittedAll(calls: seq<Call>)
    requires forall i :: 0 <= i < |calls| ==> calls[i].Emit?
    ensures Admitted([], calls) == calls
  {
    if calls != [] {
      AdmittedAll(calls[..|calls| - 1]);
      assert calls[..|calls| - 1] + [calls[|calls| - 1]] == calls;
    }
  }

  /** A model whose type is not declared is dropped. */
  lemma {:induction false} AdmittedNone(produces: seq<string>, calls: seq<Call>)
    requires produces != []
    requires forall i :: 0 <= i < |calls| && calls[i].Emit? ==> calls[i].model.eventType !in produces
    ensures Admitted(produces, calls) == []
  {
    if calls != [] {
      AdmittedNone(produces, calls[..|calls| - 1]);
    }
  }

  /** The heartbeat metrics once the run has set them. */
  function Metrics(phase: string, processed: int, emitted: int): (r: Fields)
    ensures UniqueKeys(r)
    ensures Get(r, "phase") == Some(Str(phase))
    ensures Get(r, "emitted_docs") == Some(Int(emitted))
    ensures Get(r, "processed_targets") == Some(Int(processed))
  {
    var r := [("phase", Str(phase)), ("processed_targets", Int(processed)), ("emitted_docs", Int(emitted))];
    GetUnique(r, 1);
    GetUnique(r, 2);
    r
  }

  /** Setting a metric the run tracks changes it in place. */
  lemma MetricsUpdates(phase: string, processed: int, emitted: int, phase': string, processed': int, emitted': int)
    ensures Put(Metrics(phase, processed, emitted), "phase", Str(phase')) == Metrics(phase', processed, emitted)
    ensures Put(Metrics(phase, processed, emitted), "processed_targets", Int(processed')) == Metrics(phase, processed', emitted)
    ensures Put(Metrics(phase, processed, emitted), "emitted_docs", Int(emitted')) == Metrics(phase, processed, emitted')
  {
    var m := Metrics(phase, processed, emitted);
    PutAt(m, 0, Str(phase'));
    PutAt(m, 1, Int(processed'));
    PutAt(m, 2, Int(emitted'));
  }

  /** The heartbeat metrics once these calls have been made on top of
      `start`: a model that passes the filter sets `emitted_docs` to the
      writer's new count, an assignment of `main`'s sets its key, and
      nothing else touches them. */
  function MetricsAfter(produces: seq<string>, calls: seq<Call>, start: Fields): Fields
    decreases |calls|
  {
    if calls == [] then start
    else
      var prev := MetricsAfter(produces, calls[..|calls| - 1], start);
      var c := calls[|calls| - 1];
      if c.Metric? then Put(prev, c.key, c.value)
      else if c.Emit? && Admits(produces, c.model.eventType) then
        Put(prev, "emitted_docs", Int(|Admitted(produces, calls)|))
      else prev
  }

  /** The value `main` last assigned to metric `k` among these calls. */
  function LastSet(calls: seq<Call>, k: string): Option<Json>
  {
    if calls == [] then None
    else
      var c := calls[|calls| - 1];
      if c.Metric? && c.key == k then Some(c.value) else LastSet(calls[..|calls| - 1], k)
  }

  /** How many times the heartbeat's worker wakes up among these calls. */
  function Wakes(calls: seq<Call>): nat
  {
    if calls == [] then 0 else Wakes(calls[..|calls| - 1]) + if calls[|calls| - 1].Wake? then 1 else 0
  }

  /** The posts the worker's wake-ups send while `main` runs: each one the
      progress payload of the metrics of that moment, none without a URL. */
  function WakePosts(url: Option<string>, base: Fields, produces: seq<string>, calls: seq<Call>, start: Fields): seq<Post>
    decreases |calls|
  {
    if calls == [] then []
    else
      var init := calls[..|calls| - 1];
      var c := calls[|calls| - 1];
      WakePosts(url, base, produces, init, start)
      + if c.Wake? then PostsTo(url, ProgressPayload(base, MetricsAfter(produces, init, start), c.at)) else []
  }

  /** The metrics keep distinct keys whatever `main` assigns. */
  lemma {:induction false} MetricsAfterUnique(produces: seq<string>, calls: seq<Call>, start: Fields)
    requires UniqueKeys(start)
    ensures UniqueKeys(MetricsAfter(produces, calls, start))
    decreases |calls|
  {
    if calls != [] {
      var prev := MetricsAfter(produces, calls[..|calls| - 1], start);
      MetricsAfterUnique(produces, calls[..|calls| - 1], start);
      var c := calls[|calls| - 1];
      if c.Metric? {
        PutUnique(prev, c.key, c.value);
      } else if c.Emit? && Admits(produces, c.model.eventType) {
        PutUnique(prev, "emitted_docs", Int(|Admitted(produces, calls)|));
      }
    }
  }

  /** Every metric but `emitted_docs` holds the value `main` last assigned
      to it, or the one it started with when `main` assigned none. */
  lemma {:induction false} MetricsAfterGet(produces: seq<string>, calls: seq<Call>, start: Fields, k: string)
    requires k != "emitted_docs"
    ensures Get(MetricsAfter(produces, calls, start), k) ==
              if LastSet(calls, k).Some? then LastSet(calls, k) else Get(start, k)
    decreases |calls|
  {
    if calls != [] {
      MetricsAfterGet(produces, calls[..|calls| - 1], start, k);
    }
  }

  /** While `main` leaves `emitted_docs` alone, it counts the envelopes
      written. */
  lemma {:induction false} EmittedDocsFollow(produces: seq<string>, calls: seq<Call>, start: Fields)
    requires Get(start, "emitted_docs") == Some(Int(0))
    requires LastSet(calls, "emitted_docs").None?
    ensures Get(MetricsAfter(produces, calls, start), "emitted_docs") == Some(Int(|Admitted(produces, calls)|))
    decreases |calls|
  {
    if calls != [] {
      var init := calls[..|calls| - 1];
      EmittedDocsFollow(produces, init, start);
      var c := calls[|calls| - 1];
      if !(c.Emit? && Admits(produces, c.model.eventType)) {
        assert Admitted(produces, calls) == Admitted(produces, init);
      }
    }
  }

  /** With a URL every wake-up sends one `progress@v1` post to it, and
      without one nothing is sent. */
  lemma {:induction false} WakePostsShape(url: Option<string>, base: Fields, produces: seq<string>, calls: seq<Call>, start: Fields)
    ensures var posts := WakePosts(url, base, produces, calls, start);
            && |posts| == (if Given(url) then Wakes(calls) else 0)
            && forall p :: p in posts ==> p.url == url.value && Get(p.payload, "kind") == Some(Str("progress@v1"))
    decreases |calls|
  {
    if calls != [] {
      WakePostsShape(url, base, produces, calls[..|calls| - 1], start);
    }
  }

  /** The three facts one more call adds, unfolded. */
  lemma MetricsStep(produces: seq<string>, calls: seq<Call>, i: nat, start: Fields)
    requires i < |calls|
    ensures var c := calls[i];
            var prev := MetricsAfter(produces, calls[..i], start);
            MetricsAfter(produces, calls[..i + 1], start) ==
              if c.Metric? then Put(prev, c.key, c.value)
              else if c.Emit? && Admits(produces, c.model.eventType) then
                Put(prev, "emitted_docs", Int(|Admitted(produces, calls[..i + 1])|))
              else prev
  {
    assert calls[..i + 1][..i] == calls[..i];
  }

  lemma WakeStep(url: Option<string>, base: Fields, produces: seq<string>, calls: seq<Call>, i: nat, start: Fields)
    requires i < |calls|
    ensures WakePosts(url, base, produces, calls[..i + 1], start) ==
              WakePosts(url, base, produces, calls[..i], start)
              + if calls[i].Wake? then PostsTo(url, ProgressPayload(base, MetricsAfter(produces, calls[..i], start), calls[i].at)) else []
  {
    assert calls[..i + 1][..i] == calls[..i];
  }

  /** One thing that happens during `main`, on the writer and the
      heartbeat: the `emit` function of `_build_emitter` writes a model of
      a declared type and sets `emitted_docs` to the writer's count, and
      drops any other; `main` sets a metric; or the worker wakes up and
      sends the metrics as they are. */
  method DriveOne(produces: seq<string>, calls: seq<Call>, i: nat, writer: EventWriter, hb: Heartbeat,
                  ghost start: Fields, ghost p0: seq<Post>)
    requires i < |calls| && !calls[i].EmitOther?
    requires writer.Valid() && !writer.closed && hb.Valid() && hb.started == Given(hb.url) && !hb.stopped
    requires writer.envelopes == Written(produces, calls[..i], writer.context)
    requires hb.metrics == MetricsAfter(produces, calls[..i], start)
    requires hb.outbox.posts == p0 + WakePosts(hb.url, hb.basePayload, produces, calls[..i], start)
    modifies writer, hb, hb.outbox
    ensures writer.Valid() && !writer.closed && hb.Valid() && hb.started == old(hb.started) && !hb.stopped
    ensures writer.envelopes == Written(produces, calls[..i + 1], writer.context)
    ensures hb.metrics == MetricsAfter(produces, calls[..i + 1], start)
    ensures hb.outbox.posts == p0 + WakePosts(hb.url, hb.basePayload, produces, calls[..i + 1], start)
  {
    WrittenStep(produces, calls, i, writer.context);
    MetricsStep(produces, calls, i, start);
    WakeStep(hb.url, hb.basePayload, produces, calls, i, start);
    ghost var w0 := WakePosts(hb.url, hb.basePayload, produces, calls[..i], start);
    match calls[i]
    case Emit(model, at) =>
      if Admits(produces, model.eventType) {
        writer.Emit(model.eventType, Obj(model.payload), at);
        hb.SetMetric("emitted_docs", Int(writer.count));
      }
    case Metric(k, v) =>
      hb.SetMetric(k, v);
    case Wake(at) =>
      hb.Tick(at);
      AppendAssoc(p0, w0, PostsTo(hb.url, ProgressPayload(hb.basePayload, hb.metrics, at)));
  }

  /** `main` as the runtime sees it: everything up to the first `emit` call
      that does not pass a model, which raises `TypeError`. */
  method DriveMain(produces: seq<string>, calls: seq<Call>, writer: EventWriter, hb: Heartbeat, ghost start: Fields)
    returns (foreign: bool)
    requires writer.Valid() && !writer.closed && writer.envelopes == [] && hb.Valid()
    requires hb.metrics == start && hb.started == Given(hb.url) && !hb.stopped
    modifies writer, hb, hb.outbox
    ensures writer.Valid() && !writer.closed && hb.Valid()
    ensures writer.envelopes == Written(produces, Driven(calls), writer.context)
    ensures hb.metrics == MetricsAfter(produces, Driven(calls), start)
    ensures hb.outbox.posts == old(hb.outbox.posts) + WakePosts(hb.url, hb.basePayload, produces, Driven(calls), start)
    ensures foreign <==> |Driven(calls)| < |calls|
  {
    ghost var p0 := hb.outbox.posts;
    var i := 0;
    assert calls[..0] == [];
    while i < |calls| && !calls[i].EmitOther?
      invariant 0 <= i <= FirstForeign(calls)
      invariant writer.Valid() && !writer.closed && hb.Valid() && hb.started == Given(hb.url) && !hb.stopped
      invariant writer.envelopes == Written(produces, calls[..i], writer.context)
      invariant hb.metrics == MetricsAfter(produces, calls[..i], start)
      invariant hb.outbox.posts == p0 + WakePosts(hb.url, hb.basePayload, produces, calls[..i], start)
    {
      DriveOne(produces, calls, i, writer, hb, start, p0);
      i := i + 1;
    }
    assert i == FirstForeign(calls);
    foreign := i < |calls|;
  }

  // ----- the run -----

  /** The class attributes `TOOL`, `TOOL_VERSION` and `PRODUCES`. */
  datatype Adapter = Adapter(tool: string, toolVersion: string, produces: seq<string>)

  /** How `main` ends once its calls are made: it returns, raises an
      exception, or raises `SystemExit` (as the SIGTERM handler does). */
  datatype MainEnd = Returns | Raises(error: string) | Exits

  /** Everything the run would learn from outside. */
  datatype Oracles = Oracles(
    inputs: Result<string>,
    manifest: Result<Json>,
    fetches: seq<ResourceFetch>,
    calls: seq<Call>,
    mainEnd: MainEnd,
    eventsDigest: string,
    upload: Result<()>,
    now: string)

  /** How the `try` block ends. */
  datatype BodyEnd = Done | Failed(error: string) | Exited

  /** How `main` ends: `TypeError` at a call that passes no model,
      otherwise as it ends by itself. */
  function MainEnding(foreign: bool, mainEnd: MainEnd): (end: BodyEnd)
    ensures end.Done? <==> !foreign && mainEnd.Returns?
    ensures end.Exited? <==> !foreign && mainEnd.Exits?
  {
    if foreign then Failed(NotAModel)
    else match mainEnd
      case Returns => Done
      case Raises(e) => Failed(e)
      case Exits => Exited
  }

  /** The state the `try` block leaves behind: how it ended, the heartbeat
      metrics, whether the events writer was created and what it holds, the
      heartbeats sent while `main` ran, and the resolved tool name and
      version. */
  datatype Body = Body(end: BodyEnd, metrics: Fields, writerOpen: bool, written: seq<Fields>, beats: seq<Post>,
                       tool: string, version: string)

  /** The `try` block from the events writer on: `main` with the run's
      `emit` and heartbeat, after which the phase is `finalize` if it
      returned. The phase the final heartbeat reports is otherwise the one
      `main` last set (a wrapper's `exec`), or `main`; `emitted_docs`
      counts the envelopes unless `main` assigned it itself; and every
      wake-up sent one heartbeat. */
  function MainBody(a: Adapter, s: RuntimeSettings, o: Oracles, n: nat, tool: string, version: string): (b: Body)
    ensures b.writerOpen && b.tool == tool && b.version == version
    ensures b.end.Done? <==> FirstForeign(o.calls) == |o.calls| && o.mainEnd.Returns?
    ensures UniqueKeys(b.metrics)
    ensures Get(b.metrics, "phase") ==
              if b.end.Done? then Some(Str("finalize"))
              else if LastSet(Driven(o.calls), "phase").Some? then LastSet(Driven(o.calls), "phase")
              else Some(Str("main"))
    ensures LastSet(Driven(o.calls), "emitted_docs").None? ==> Get(b.metrics, "emitted_docs") == Some(Int(|b.written|))
    ensures |b.beats| == if Given(s.signalUrl) then Wakes(Driven(o.calls)) else 0
  {
    var driven := Driven(o.calls);
    var start := Metrics("main", n, 0);
    var written := Written(a.produces, driven, EventContext(s, tool, version));
    var metrics := MetricsAfter(a.produces, driven, start);
    var beats := WakePosts(s.signalUrl, SignalPayload(s), a.produces, driven, start);
    MetricsAfterUnique(a.produces, driven, start);
    MetricsAfterGet(a.produces, driven, start, "phase");
    assert LastSet(driven, "emitted_docs").None? ==>
             Get(metrics, "emitted_docs") == Some(Int(|Admitted(a.produces, driven)|)) by {
      if LastSet(driven, "emitted_docs").None? { EmittedDocsFollow(a.produces, driven, start); }
    }
    WakePostsShape(s.signalUrl, SignalPayload(s), a.produces, driven, start);
    var end := MainEnding(|driven| < |o.calls|, o.mainEnd);
    if end.Done? then
      PutUnique(metrics, "phase", Str("finalize"));
      Body(end, Put(metrics, "phase", Str("finalize")), true, written, beats, tool, version)
    else
      Body(end, metrics, true, written, beats, tool, version)
  }

  /** `MainBody`, piece by piece. */
  lemma MainBodyParts(a: Adapter, s: RuntimeSettings, o: Oracles, n: nat, tool: string, version: string)
    ensures var driven := Driven(o.calls);
            var start := Metrics("main", n, 0);
            var b := MainBody(a, s, o, n, tool, version);
            var metrics := MetricsAfter(a.produces, driven, start);
            && b.end == MainEnding(|driven| < |o.calls|, o.mainEnd)
            && b.written == Written(a.produces, driven, EventContext(s, tool, version))
            && b.beats == WakePosts(s.signalUrl, SignalPayload(s), a.produces, driven, start)
            && b.metrics == if b.end.Done? then Put(metrics, "phase", Str("finalize")) else metrics
  {
  }

  /** The `try` block of `run`: the inputs, the manifest and the resources,
      any of which can fail before the writer exists, then `main`. */
  function BodyOf(a: Adapter, s: RuntimeSettings, o: Oracles): (b: Body)
    ensures b.end.Done? ==> b.writerOpen
    ensures !b.writerOpen ==> b.end.Failed? && b.metrics == InitialMetrics && b.written == [] && b.beats == []
  {
    match LoadTargets(o.inputs)
    case Err(e) => Body(Failed(e), InitialMetrics, false, [], [], s.tool, s.toolVersion)
    case Ok(targets) =>
      match LoadManifest(s.resourcesManifestUrl, o.manifest)
      case Err(e) => Body(Failed(e), InitialMetrics, false, [], [], s.tool, s.toolVersion)
      case Ok(cfg) =>
        var tool := Coalesce(Some(cfg.tool), s.tool);
        var version := Coalesce(Some(cfg.toolVersion), s.toolVersion);
        match PrepareFrom(cfg.resources, o.fetches, 0)
        case Err(e) => Body(Failed(e), InitialMetrics, false, [], [], tool, version)
        case Ok(_) => MainBody(a, s, o, |targets|, tool, version)
  }

  /** What the process does to its surroundings, in order. */
  datatype Step = MakeWorkdir | InstallHandler | StopHeartbeat | CloseWriter | RestoreHandler | Upload(url: string) | RemoveWorkdir

  /** `run` returns an exit code, or an exception leaves it. */
  datatype Outcome = Exit(code: int) | Escapes(error: string)

  const SystemExitError := "SystemExit"

  datatype Trace = Trace(outcome: Outcome, steps: seq<Step>, posts: seq<Post>)

  /** `settings or RuntimeSettings.from_env(TOOL, TOOL_VERSION)`. */
  function SettingsFor(a: Adapter, env: Env, given: Option<RuntimeSettings>): Result<RuntimeSettings>
  {
    if given.Some? then Ok(given.value) else FromEnv(env, a.tool, a.toolVersion)
  }

  /** Whether the `finally` block removes the workdir. */
  predicate Removes(s: RuntimeSettings, env: Env)
  {
    !(s.preserveWorkdir || ShouldPreserveWorkdir(env))
  }

  /** The `finally` block up to restoring the signal handler. */
  function ClosingSteps(writerOpen: bool): seq<Step>
  {
    [StopHeartbeat] + (if writerOpen then [CloseWriter] else []) + [RestoreHandler]
  }

  function CleanupSteps(s: RuntimeSettings, env: Env): seq<Step>
  {
    if Removes(s, env) then [RemoveWorkdir] else []
  }

  function UploadSteps(s: RuntimeSettings): seq<Step>
  {
    if Given(s.outputUrl) then [Upload(s.outputUrl.value)] else []
  }

  /** The `progress@v1` error signal of the `except Exception` branch. */
  function ErrorPosts(s: RuntimeSettings, base: Fields, b: Body, now: string): seq<Post>
  {
    if b.end.Failed? then PostsTo(s.signalUrl, ErrorPayload(base, b.end.error, now)) else []
  }

  /** The final heartbeat `stop()` sends. */
  function StopPosts(s: RuntimeSettings, base: Fields, b: Body, now: string): seq<Post>
  {
    PostsTo(s.signalUrl, ProgressPayload(base, b.metrics, now))
  }

  /** The `results_ready@v1` signal of `_finalize_success`. */
  function ResultsPosts(s: RuntimeSettings, b: Body, o: Oracles): seq<Post>
  {
    PostsTo(s.signalUrl, ResultsReadyPayload(ResultsPayload(s, b.tool, b.version, |b.written|, o.eventsDigest, o.now)))
  }

  /** What `run` does once the `try` block has ended as `b`: the error
      signal, the `finally` block with its final heartbeat, and
      `_finalize_success` on success. */
  function Finish(s: RuntimeSettings, env: Env, b: Body, o: Oracles): (t: Trace)
  {
    var closing := ClosingSteps(b.writerOpen);
    var base := SignalPayload(s);
    if !b.end.Done? then
      Trace(if b.end.Exited? then Escapes(SystemExitError) else Exit(1),
            closing + CleanupSteps(s, env), ErrorPosts(s, base, b, o.now) + StopPosts(s, base, b, o.now))
    else if Given(s.outputUrl) && o.upload.Err? then
      Trace(Escapes(o.upload.error), closing + UploadSteps(s), StopPosts(s, base, b, o.now))
    else
      Trace(Exit(0), closing + UploadSteps(s) + CleanupSteps(s, env), StopPosts(s, base, b, o.now) + ResultsPosts(s, b, o))
  }

  /** The whole of `run`: the settings, the workdir and the signal handler,
      the `try` block with the heartbeats sent while it runs, and what
      follows it. */
  function Expected(a: Adapter, env: Env, given: Option<RuntimeSettings>, o: Oracles): (t: Trace)
  {
    match SettingsFor(a, env, given)
    case Err(_) => Trace(Exit(2), [], [])
    case Ok(s) =>
      var b := BodyOf(a, s, o);
      var f := Finish(s, env, b, o);
      Trace(f.outcome, [MakeWorkdir, InstallHandler] + f.steps, b.beats + f.posts)
  }

  /** The steps the process takes, in order. */
  class Host {
    var steps: seq<Step>

    constructor()
      ensures steps == []
    {
      steps := [];
    }

    method Do(step: Step)
      modifies this
      ensures steps == old(steps) + [step]
    {
      steps := steps + [step];
    }
  }

  /** The metrics and the heartbeat worker as `main` starts:
      `metrics.update` with a three-key literal, which assigns the keys in
      order, `start()`, and the phase `main`. */
  method StartMain(hb: Heartbeat, n: nat)
    requires hb.Valid() && hb.metrics == InitialMetrics && !hb.started && !hb.stopped
    modifies hb
    ensures hb.Valid() && hb.metrics == Metrics("main", n, 0)
    ensures hb.started == Given(hb.url) && !hb.stopped
  {
    assert InitialMetrics == Metrics("init", 0, 0);
    MetricsUpdates("init", 0, 0, "start", n, 0);
    hb.SetMetric("phase", Str("start"));
    hb.SetMetric("processed_targets", Int(n));
    hb.SetMetric("emitted_docs", Int(0));
    hb.Start();
    MetricsUpdates("start", n, 0, "main", n, 0);
    hb.SetMetric("phase", Str("main"));
  }

  /** The `try` block from the events writer on. */
  method RunMain(a: Adapter, s: RuntimeSettings, o: Oracles, n: nat, tool: string, version: string, hb: Heartbeat)
    returns (end: BodyEnd, writer: EventWriter)
    requires hb.Valid() && hb.metrics == InitialMetrics && !hb.started && !hb.stopped
    requires hb.url == s.signalUrl && hb.basePayload == SignalPayload(s)
    modifies hb, hb.outbox
    ensures hb.Valid()
    ensures var b := MainBody(a, s, o, n, tool, version);
            && end == b.end && hb.metrics == b.metrics && hb.outbox.posts == old(hb.outbox.posts) + b.beats
            && fresh(writer) && writer.Valid() && !writer.closed && writer.envelopes == b.written
  {
    MainBodyParts(a, s, o, n, tool, version);
    writer := new EventWriter(EventContext(s, tool, version));
    StartMain(hb, n);
    var foreign := DriveMain(a.produces, o.calls, writer, hb, Metrics("main", n, 0));
    end := MainEnding(foreign, o.mainEnd);
    if end.Done? {
      hb.SetMetric("phase", Str("finalize"));
    }
  }

  /** The `try` block of `run`, on the heartbeat `run` created. */
  method RunBody(a: Adapter, s: RuntimeSettings, o: Oracles, hb: Heartbeat)
    returns (end: BodyEnd, writer: EventWriter?, tool: string, version: string)
    requires hb.Valid() && hb.metrics == InitialMetrics && !hb.started && !hb.stopped
    requires hb.url == s.signalUrl && hb.basePayload == SignalPayload(s)
    modifies hb, hb.outbox
    ensures hb.Valid()
    ensures var b := BodyOf(a, s, o);
            && end == b.end && hb.metrics == b.metrics && tool == b.tool && version == b.version
            && hb.outbox.posts == old(hb.outbox.posts) + b.beats
            && (writer != null <==> b.writerOpen)
            && (writer != null ==> fresh(writer) && writer.Valid() && !writer.closed && writer.envelopes == b.written)
  {
    var targets := LoadTargets(o.inputs);
    if targets.Err? {
      return Failed(targets.error), null, s.tool, s.toolVersion;
    }
    var cfg := LoadManifest(s.resourcesManifestUrl, o.manifest);
    if cfg.Err? {
      return Failed(cfg.error), null, s.tool, s.toolVersion;
    }
    tool := Coalesce(Some(cfg.value.tool), s.tool);
    version := Coalesce(Some(cfg.value.toolVersion), s.toolVersion);
    var prepared := PrepareResources(cfg.value.resources, o.fetches);
    if prepared.Err? {
      return Failed(prepared.error), null, tool, version;
    }
    end, writer := RunMain(a, s, o, |targets.value|, tool, version, hb);
  }

  /** The `finally` block up to restoring the signal handler. */
  method Close(hb: Heartbeat, writer: EventWriter?, host: Host, outbox: Outbox, now: string)
    requires hb.outbox == outbox
    requires writer != null ==> writer.Valid()
    modifies hb, writer, host, outbox
    ensures host.steps == old(host.steps) + ClosingSteps(writer != null)
    ensures outbox.posts == old(outbox.posts) + PostsTo(hb.url, ProgressPayload(hb.basePayload, old(hb.metrics), now))
    ensures writer != null ==> writer.Valid() && writer.closed && writer.count == old(writer.count)
  {
    StopBeat(hb, host, outbox, now);
    if writer != null {
      writer.Close();
      host.Do(CloseWriter);
    }
    host.Do(RestoreHandler);
  }

  /** `hb.stop()`, the first step of the `finally` block. */
  method StopBeat(hb: Heartbeat, host: Host, outbox: Outbox, now: string)
    requires hb.outbox == outbox
    modifies hb, host, outbox
    ensures host.steps == old(host.steps) + [StopHeartbeat]
    ensures outbox.posts == old(outbox.posts) + PostsTo(hb.url, ProgressPayload(hb.basePayload, old(hb.metrics), now))
  {
    host.Do(StopHeartbeat);
    hb.Stop(now);
  }

  /** The `except` and `finally` blocks after a `try` block that did not
      finish. */
  method ConcludeFailed(s: RuntimeSettings, env: Env, o: Oracles, ghost b: Body, end: BodyEnd, base: Fields,
                        hb: Heartbeat, writer: EventWriter?, host: Host, outbox: Outbox)
    returns (outcome: Outcome)
    requires !b.end.Done? && end == b.end
    requires hb.outbox == outbox && hb.url == s.signalUrl && hb.basePayload == base
    requires hb.metrics == b.metrics && (writer != null <==> b.writerOpen)
    requires writer != null ==> writer.Valid()
    modifies hb, writer, host, outbox
    ensures outcome == if b.end.Exited? then Escapes(SystemExitError) else Exit(1)
    ensures host.steps == old(host.steps) + (ClosingSteps(b.writerOpen) + CleanupSteps(s, env))
    ensures outbox.posts == old(outbox.posts) + (ErrorPosts(s, base, b, o.now) + StopPosts(s, base, b, o.now))
  {
    ghost var p0, e, stop := outbox.posts, ErrorPosts(s, base, b, o.now), StopPosts(s, base, b, o.now);
    SignalError(s, base, b, end, o.now, outbox);
    Close(hb, writer, host, outbox, o.now);
    AppendAssoc(p0, e, stop);
    RemoveWorkdirUnlessPreserved(s, env, host);
    AppendAssoc(old(host.steps), ClosingSteps(b.writerOpen), CleanupSteps(s, env));
    outcome := if end.Exited? then Escapes(SystemExitError) else Exit(1);
  }

  /** `emit_error` in the `except Exception` branch. */
  method SignalError(s: RuntimeSettings, base: Fields, ghost b: Body, end: BodyEnd, now: string, outbox: Outbox)
    requires end == b.end
    modifies outbox
    ensures outbox.posts == old(outbox.posts) + ErrorPosts(s, base, b, now)
  {
    if end.Failed? {
      EmitError(outbox, s.signalUrl, base, end.error, now);
    }
  }

  /** The upload of `events.jsonl.gz` when there is an output URL. */
  method UploadEvents(s: RuntimeSettings, host: Host)
    modifies host
    ensures host.steps == old(host.steps) + UploadSteps(s)
  {
    if Given(s.outputUrl) {
      host.Do(Upload(s.outputUrl.value));
    }
  }

  /** `shutil.rmtree(workdir)` unless the workdir is to be preserved. */
  method RemoveWorkdirUnlessPreserved(s: RuntimeSettings, env: Env, host: Host)
    modifies host
    ensures host.steps == old(host.steps) + CleanupSteps(s, env)
  {
    if Removes(s, env) {
      host.Do(RemoveWorkdir);
    }
  }

  /** The signal at the end of `_finalize_success`. */
  method EmitResults(s: RuntimeSettings, o: Oracles, ghost b: Body, tool: string, version: string, count: nat,
                     outbox: Outbox)
    requires tool == b.tool && version == b.version && count == |b.written|
    modifies outbox
    ensures outbox.posts == old(outbox.posts) + ResultsPosts(s, b, o)
  {
    EmitResultsReady(outbox, s.signalUrl, ResultsPayload(s, tool, version, count, o.eventsDigest, o.now));
  }

  /** The `finally` block and `_finalize_success` after a `try` block that
      finished. */
  method ConcludeDone(s: RuntimeSettings, env: Env, o: Oracles, ghost b: Body, base: Fields, hb: Heartbeat,
                      writer: EventWriter, tool: string, version: string, host: Host, outbox: Outbox)
    returns (outcome: Outcome)
    requires b.end.Done? && b.writerOpen && tool == b.tool && version == b.version
    requires hb.outbox == outbox && hb.url == s.signalUrl && hb.basePayload == base
    requires hb.metrics == b.metrics && writer.Valid() && writer.count == |b.written|
    modifies hb, writer, host, outbox
    ensures Given(s.outputUrl) && o.upload.Err? ==>
              && outcome == Escapes(o.upload.error)
              && host.steps == old(host.steps) + (ClosingSteps(true) + UploadSteps(s))
              && outbox.posts == old(outbox.posts) + StopPosts(s, base, b, o.now)
    ensures !(Given(s.outputUrl) && o.upload.Err?) ==>
              && outcome == Exit(0)
              && host.steps == old(host.steps) + (ClosingSteps(true) + UploadSteps(s) + CleanupSteps(s, env))
              && outbox.posts == old(outbox.posts) + (StopPosts(s, base, b, o.now) + ResultsPosts(s, b, o))
  {
    ghost var h0, p0 := host.steps, outbox.posts;
    ghost var stop := StopPosts(s, base, b, o.now);
    Close(hb, writer, host, outbox, o.now);
    var count := writer.count;
    UploadEvents(s, host);
    AppendAssoc(h0, ClosingSteps(true), UploadSteps(s));
    if Given(s.outputUrl) && o.upload.Err? {
      return Escapes(o.upload.error);
    }
    EmitResults(s, o, b, tool, version, count, outbox);
    AppendAssoc(p0, stop, ResultsPosts(s, b, o));
    RemoveWorkdirUnlessPreserved(s, env, host);
    AppendAssoc(h0, ClosingSteps(true) + UploadSteps(s), CleanupSteps(s, env));
    outcome := Exit(0);
  }

  /** Everything `run` does after the `try` block, on the state it left. */
  method Conclude(s: RuntimeSettings, env: Env, o: Oracles, ghost b: Body, end: BodyEnd, hb: Heartbeat,
                  writer: EventWriter?, tool: string, version: string, host: Host, outbox: Outbox)
    returns (outcome: Outcome)
    requires hb.outbox == outbox && hb.url == s.signalUrl && hb.basePayload == SignalPayload(s)
    requires end == b.end && hb.metrics == b.metrics && tool == b.tool && version == b.version
    requires (writer != null <==> b.writerOpen) && (b.end.Done? ==> b.writerOpen)
    requires writer != null ==> writer.Valid() && writer.count == |b.written|
    modifies hb, writer, host, outbox
    ensures var t := Finish(s, env, b, o);
            && outcome == t.outcome
            && host.steps == old(host.steps) + t.steps
            && outbox.posts == old(outbox.posts) + t.posts
  {
    if end.Done? {
      outcome := ConcludeDone(s, env, o, b, SignalPayload(s), hb, writer, tool, version, host, outbox);
    } else {
      outcome := ConcludeFailed(s, env, o, b, end, SignalPayload(s), hb, writer, host, outbox);
    }
  }

  /** `run` once the settings are loaded. */
  method RunWith(a: Adapter, s: RuntimeSettings, env: Env, o: Oracles, host: Host, outbox: Outbox)
    returns (outcome: Outcome)
    modifies host, outbox
    ensures var b := BodyOf(a, s, o);
            var f := Finish(s, env, b, o);
            && outcome == f.outcome
            && host.steps == old(host.steps) + ([MakeWorkdir, InstallHandler] + f.steps)
            && outbox.posts == old(outbox.posts) + (b.beats + f.posts)
  {
    host.Do(MakeWorkdir);
    host.Do(InstallHandler);
    ghost var opening := [MakeWorkdir, InstallHandler];
    assert host.steps == old(host.steps) + opening;
    var hb := new Heartbeat(s.signalUrl, SignalPayload(s), s.heartbeatSeconds, outbox);
    var end, writer, tool, version := RunBody(a, s, o, hb);
    ghost var b := BodyOf(a, s, o);
    ghost var p1 := outbox.posts;
    outcome := Conclude(s, env, o, b, end, hb, writer, tool, version, host, outbox);
    AppendAssoc(old(host.steps), opening, Finish(s, env, b, o).steps);
    AppendAssoc(old(outbox.posts), b.beats, Finish(s, env, b, o).posts);
  }

  /** `BaseAdapter.run`. */
  method Run(a: Adapter, env: Env, given: Option<RuntimeSettings>, o: Oracles, host: Host, outbox: Outbox)
    returns (outcome: Outcome)
    modifies host, outbox
    ensures var t := Expected(a, env, given, o);
            && outcome == t.outcome
            && host.steps == old(host.steps) + t.steps
            && outbox.posts == old(outbox.posts) + t.posts
  {
    var settings := SettingsFor(a, env, given);
    if settings.Err? {
      return Exit(2);
    }
    outcome := RunWith(a, settings.value, env, o, host, outbox);
  }
}
