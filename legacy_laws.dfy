/** What the legacy `BaseAdapter.run` promises about every batch, stated
    over the trace `LegacyRun.LegacyExpected` describes (and which
    `LegacyRun.LegacyRun` is proved to produce): the exit codes, the order
    of the inner `finally` block, when the workdir goes, and which signals
    are sent. Where the packaged runtime differs, the lemma says how. */
module LegacyLaws {
  import opened Common
  import opened Text
  import opened Jsons
  import opened Io
  import opened Utils
  import opened Envelope
  import opened LegacyRuntime
  import opened LegacyRun
  import Runtime
  import RunLaws

  /** Without a non-empty `INPUTS_URL`, `run` returns 2 before it creates a
      workdir or sends anything. */
  lemma LegacyMissingInputs(a: LegacyAdapter, env: Env, o: LegacyOracles)
    requires "INPUTS_URL" !in env || env["INPUTS_URL"] == ""
    ensures LegacyExpected(a, env, o) == Runtime.Trace(Runtime.Exit(2), [], [])
  {
  }

  function Loaded(a: LegacyAdapter, env: Env): LegacySettings
    requires LegacyFromEnv(a, env).Ok?
  {
    LegacyFromEnv(a, env).value
  }

  /** The upload of a finished run fails only when there is an output URL
      to upload to. */
  predicate UploadFails(s: LegacySettings, o: LegacyOracles)
  {
    Runtime.Given(s.outputUrl) && o.upload.Err?
  }

  /** How the outer `try` block ends, case by case: a failed read of the
      inputs and a failed resource end it before the writer exists. */
  lemma BodyCases(a: LegacyAdapter, s: LegacySettings, o: LegacyOracles)
    ensures var b := LegacyBodyOf(a, s, o);
            var cfg := ResolvedConfig(s.manifestUrl, o.manifest, s.tool, s.toolVersion);
            && (o.inputs.Err? ==> !b.started && b.end == Failed(o.inputs.error))
            && (o.inputs.Ok? && LegacyPrepareFrom(cfg.resources, o.fetches, 0).Err? ==>
                  !b.started && b.cfg == cfg && b.end == Failed(LegacyPrepareFrom(cfg.resources, o.fetches, 0).error))
            && (o.inputs.Ok? && LegacyPrepareFrom(cfg.resources, o.fetches, 0).Ok? ==>
                  b == StartedBody(a, s, o, |Runtime.LoadTargets(o.inputs).value|, cfg))
  {
  }

  /** Once the writer exists, the work decides how the block ends. */
  lemma StartedEnd(a: LegacyAdapter, s: LegacySettings, o: LegacyOracles)
    requires LegacyBodyOf(a, s, o).started
    ensures var b := LegacyBodyOf(a, s, o);
            && o.inputs.Ok?
            && b.end == WorkOf(a, o, |Runtime.LoadTargets(o.inputs).value|, ContextOf(s, b.cfg)).0
  {
    BodyCases(a, s, o);
  }

  /** A run whose settings load makes the workdir and then ends as the
      outer `try` block's conclusion does. */
  lemma LoadedTrace(a: LegacyAdapter, env: Env, o: LegacyOracles)
    requires LegacyFromEnv(a, env).Ok?
    ensures var f := LegacyFinish(Loaded(a, env), env, LegacyBodyOf(a, Loaded(a, env), o), o);
            LegacyExpected(a, env, o) == Runtime.Trace(f.outcome, [Runtime.MakeWorkdir] + f.steps, f.posts)
  {
  }

  lemma FinishOutcome(s: LegacySettings, env: Env, b: LegacyBody, o: LegacyOracles)
    ensures var t := LegacyFinish(s, env, b, o);
            && (t.outcome.Escapes? <==> b.end.Exited?)
            && (b.end.Exited? ==> t.outcome == Runtime.Escapes(Runtime.SystemExitError))
            && (b.end.Failed? || (b.end.Finished? && UploadFails(s, o)) ==> t.outcome == Runtime.Exit(1))
            && (b.end.Finished? && !UploadFails(s, o) ==> t.outcome == Runtime.Exit(b.end.code))
  {
  }

  /** `run` lets no `Exception` out: it returns 1 when the outer `try`
      block raised one or the upload failed, and otherwise the command's
      return code (`None` read as 0) or, in generate mode, 0: the
      `writer.count >= before` comparison cannot fail. A `SystemExit` from
      `build_cmd`, from a `parse_tool_output` call or from `generate`
      passes both `except Exception` clauses and escapes `run`. */
  lemma LegacyExitCodes(a: LegacyAdapter, env: Env, o: LegacyOracles)
    requires LegacyFromEnv(a, env).Ok?
    ensures var s := Loaded(a, env);
            var b := LegacyBodyOf(a, s, o);
            var t := LegacyExpected(a, env, o);
            && (t.outcome.Escapes? <==> b.end.Exited?)
            && (b.end.Exited? ==> t.outcome == Runtime.Escapes(Runtime.SystemExitError))
            && (b.end.Exited? <==>
                  b.started
                  && (o.buildEnd.Exits? || (CommandMode(o) && o.spawns && LinesExit(o.lines))
                      || (o.buildEnd.Returns? && !CommandMode(o) && o.generateEnd.Exits?)))
            && (b.end.Failed? || (b.end.Finished? && UploadFails(s, o)) ==> t.outcome == Runtime.Exit(1))
            && (b.end.Finished? && !UploadFails(s, o) ==>
                  t.outcome == Runtime.Exit(if CommandMode(o) then ReturnCode(o.returnCode) else 0))
  {
    var s := Loaded(a, env);
    var b := LegacyBodyOf(a, s, o);
    LoadedTrace(a, env, o);
    FinishOutcome(s, env, b, o);
    if b.started {
      StartedEnd(a, s, o);
    }
  }

  /** A generate-mode run whose `generate` returns, and whose upload does
      not fail, exits 0. */
  lemma LegacyGenerateExitsZero(a: LegacyAdapter, env: Env, o: LegacyOracles)
    requires LegacyFromEnv(a, env).Ok?
    requires LegacyBodyOf(a, Loaded(a, env), o).started
    requires o.buildEnd.Returns? && !CommandMode(o) && o.generateEnd.Returns?
    requires !UploadFails(Loaded(a, env), o)
    ensures LegacyExpected(a, env, o).outcome == Runtime.Exit(0)
  {
    StartedEnd(a, Loaded(a, env), o);
    LegacyExitCodes(a, env, o);
  }

  /** A resource whose declared checksum does not match its download stops
      the resource loop, whatever follows it. */
  lemma LegacyChecksumMismatchStops(specs: seq<ResourceSpec>, fetches: seq<ResourceFetch>, j: nat)
    requires j < |specs| && j < |fetches|
    requires FileNameFor(specs[j]).Ok? && fetches[j].downloaded
    requires !ChecksumOk(specs[j].sha256, fetches[j].digest)
    ensures LegacyPrepareFrom(specs, fetches, 0).Err?
  {
    assert LegacyPrepareResource(specs[j], Runtime.FetchAt(fetches, j)).outcome.Err?;
  }

  /** A resource that fails, a checksum mismatch among them, ends the run
      before the writer and the heartbeat exist: exit code 1, no writer to
      close, no heartbeat at all, no upload, and the error signal alone. */
  lemma LegacyChecksumMismatchFails(a: LegacyAdapter, env: Env, o: LegacyOracles, j: nat)
    requires LegacyFromEnv(a, env).Ok? && o.inputs.Ok?
    requires var s := Loaded(a, env);
             var specs := ResolvedConfig(s.manifestUrl, o.manifest, s.tool, s.toolVersion).resources;
             && j < |specs| && j < |o.fetches|
             && FileNameFor(specs[j]).Ok? && o.fetches[j].downloaded
             && !ChecksumOk(specs[j].sha256, o.fetches[j].digest)
    ensures var s := Loaded(a, env);
            var t := LegacyExpected(a, env, o);
            && t.outcome == Runtime.Exit(1)
            && t.steps == [Runtime.MakeWorkdir] + CleanupSteps(env)
            && t.posts == ErrorPosts(s, LegacyBodyOf(a, s, o).end.error, o.now)
  {
    var s := Loaded(a, env);
    var cfg := ResolvedConfig(s.manifestUrl, o.manifest, s.tool, s.toolVersion);
    LegacyChecksumMismatchStops(cfg.resources, o.fetches, j);
    BodyCases(a, s, o);
    LoadedTrace(a, env, o);
    NotStartedFinish(s, env, LegacyBodyOf(a, s, o), o);
  }

  /** The steps after the outer `try` block: the writer's close before the
      heartbeat's stop, once they exist; the upload, only when the work
      finished; the removal of the workdir, last, even after a
      `SystemExit`. */
  lemma FinishSteps(s: LegacySettings, env: Env, b: LegacyBody, o: LegacyOracles)
    ensures LegacyFinish(s, env, b, o).steps ==
              ClosingSteps(b) + (if b.end.Finished? then UploadSteps(s) else []) + CleanupSteps(env)
  {
    var t := Tail(s, env, b, o);
    if !b.end.Finished? {
      assert t.steps == [] + CleanupSteps(env);
    }
    AppendAssoc(ClosingSteps(b), if b.end.Finished? then UploadSteps(s) else [], CleanupSteps(env));
  }

  lemma StepsFacts(s: LegacySettings, env: Env, b: LegacyBody, url: string, steps: seq<Runtime.Step>)
    requires steps == [Runtime.MakeWorkdir] + (ClosingSteps(b) + (if b.end.Finished? then UploadSteps(s) else []) + CleanupSteps(env))
    ensures && steps != [] && steps[0] == Runtime.MakeWorkdir
            && (Runtime.RemoveWorkdir in steps <==> !LegacyPreserves(env))
            && (!LegacyPreserves(env) ==> steps[|steps| - 1] == Runtime.RemoveWorkdir)
            && (Runtime.CloseWriter in steps <==> b.started)
            && (b.started ==> steps[1] == Runtime.CloseWriter && steps[2] == Runtime.StopHeartbeat)
            && (Runtime.Upload(url) in steps <==> b.end.Finished? && Runtime.Given(s.outputUrl) && url == s.outputUrl.value)
  {
    var upload := if b.end.Finished? then UploadSteps(s) else [];
    assert steps == [Runtime.MakeWorkdir] + ClosingSteps(b) + upload + CleanupSteps(env);
    assert Runtime.RemoveWorkdir in steps <==> Runtime.RemoveWorkdir in CleanupSteps(env);
    assert Runtime.CloseWriter in steps <==> Runtime.CloseWriter in ClosingSteps(b);
    assert Runtime.Upload(url) in steps <==> Runtime.Upload(url) in upload;
  }

  /** The workdir is made first and removed last, unless
      `ADAPTER_PRESERVE_WORKDIR` keeps it; the writer is closed exactly
      when it was created, before the heartbeat stops (the packaged
      runtime stops the heartbeat first); the events go up exactly when
      the work finished, without an exception or `SystemExit`, and there
      is an output URL. */
  lemma LegacyStepFacts(a: LegacyAdapter, env: Env, o: LegacyOracles, url: string)
    requires LegacyFromEnv(a, env).Ok?
    ensures var s := Loaded(a, env);
            var b := LegacyBodyOf(a, s, o);
            var steps := LegacyExpected(a, env, o).steps;
            && steps != [] && steps[0] == Runtime.MakeWorkdir
            && (Runtime.RemoveWorkdir in steps <==> !LegacyPreserves(env))
            && (!LegacyPreserves(env) ==> steps[|steps| - 1] == Runtime.RemoveWorkdir)
            && (Runtime.CloseWriter in steps <==> b.started)
            && (b.started ==> steps[1] == Runtime.CloseWriter && steps[2] == Runtime.StopHeartbeat)
            && (Runtime.Upload(url) in steps <==> b.end.Finished? && Runtime.Given(s.outputUrl) && url == s.outputUrl.value)
  {
    var s := Loaded(a, env);
    var b := LegacyBodyOf(a, s, o);
    LoadedTrace(a, env, o);
    FinishSteps(s, env, b, o);
    StepsFacts(s, env, b, url, LegacyExpected(a, env, o).steps);
  }

  /** `ADAPTER_PRESERVE_WORKDIR` as the legacy runtime reads it keeps the
      workdir only when the packaged runtime would keep it too. */
  lemma PreserveGenerations(env: Env)
    requires LegacyPreserves(env)
    ensures ShouldPreserveWorkdir(env)
  {
    var v := env[PreserveWorkdirVar];
    var l := Lower(v);
    assert l == "1" || l == "true" || l == "yes";
    assert l[0] == '1' || l[0] == 't' || l[0] == 'y';
    assert l[|l| - 1] == '1' || l[|l| - 1] == 'e' || l[|l| - 1] == 's';
    assert LowerChar(v[0]) == l[0] && LowerChar(v[|v| - 1]) == l[|l| - 1];
    assert Stripped(v);
    StrippedIsFixpoint(v);
  }

  /** The converse fails: the packaged runtime also accepts `on`, which the
      legacy runtime reads as "remove". */
  lemma PreserveOnOnlyPackaged()
    ensures var env := map[PreserveWorkdirVar := "on"]; ShouldPreserveWorkdir(env) && !LegacyPreserves(env)
  {
    StrippedIsFixpoint("on");
    assert Lower("on") == "on";
  }

  /** The legacy runtime does not strip the value: one that starts with
      whitespace never keeps the workdir. */
  lemma LegacyRejectsPadding(v: string)
    requires v != [] && IsSpace(v[0])
    ensures !LegacyPreserves(map[PreserveWorkdirVar := v])
  {
    var l := Lower(v);
    assert l[0] == v[0];
    assert l[0] != '1' && l[0] != 't' && l[0] != 'y';
  }

  /** The packaged runtime strips it: `yes` after blanks keeps the
      workdir. */
  lemma PackagedAcceptsPadding(pad: string)
    requires IsBlank(pad)
    ensures ShouldPreserveWorkdir(map[PreserveWorkdirVar := pad + "yes"])
  {
    var yes := "yes";
    EnvFlagPadded(map[], PreserveWorkdirVar, false, pad, yes, "");
    assert pad + yes + "" == pad + yes;
    PackagedAcceptsYes(map[][PreserveWorkdirVar := yes]);
  }

  lemma PackagedAcceptsYes(env: Env)
    requires env == map[PreserveWorkdirVar := "yes"]
    ensures ShouldPreserveWorkdir(env)
  {
    StrippedIsFixpoint("yes");
    assert Lower("yes") == "yes";
  }

  /** So the two generations disagree on `yes` after blanks. */
  lemma PreservePaddedOnlyPackaged(pad: string)
    requires pad != [] && IsBlank(pad)
    ensures var env := map[PreserveWorkdirVar := pad + "yes"]; ShouldPreserveWorkdir(env) && !LegacyPreserves(env)
  {
    PackagedAcceptsPadding(pad);
    assert (pad + "yes")[0] == pad[0];
    LegacyRejectsPadding(pad + "yes");
  }

  // ----- signals -----

  predicate LeavesEmittedDocs(acts: seq<Action>)
  {
    forall i :: 0 <= i < |acts| && acts[i].Metric? ==> acts[i].key != "emitted_docs"
  }

  /** Metrics in which `emitted_docs` counts the envelopes written. */
  predicate InSync(t: Tally)
  {
    UniqueKeys(t.metrics) && Get(t.metrics, "emitted_docs") == Some(Int(|t.written|))
  }

  lemma InitialMetricsFacts()
    ensures UniqueKeys(LegacyInitialMetrics)
    ensures Get(LegacyInitialMetrics, "emitted_docs") == Some(Int(0))
    ensures Get(LegacyInitialMetrics, "phase") == Some(Str("start"))
  {
    var m := LegacyInitialMetrics;
    forall i, j | 0 <= i < j < |m| ensures m[i].0 != m[j].0 {
      assert |m[i].0| != |m[j].0|;
    }
    GetUnique(m, 1);
    GetUnique(m, 2);
  }

  /** `metrics.update(u)` with an update that leaves `emitted_docs` alone
      keeps an empty events file in sync. */
  lemma UpdateInSync(u: Fields)
    requires forall j :: 0 <= j < |u| ==> |u[j].0| != 12
    ensures InSync(Tally(Merge(LegacyInitialMetrics, u), []))
  {
    InitialMetricsFacts();
    MergeUnique(LegacyInitialMetrics, u);
    NotAKey(u, "emitted_docs");
    GetMergeOther(LegacyInitialMetrics, u, "emitted_docs");
  }

  /** The actions of the lines parsed before a `SystemExit` are among
      those of all the lines. */
  lemma {:induction false} LineActionsPrefix(lines: seq<LineOutcome>, k: nat)
    requires k <= |lines| && LeavesEmittedDocs(LineActions(lines))
    ensures LeavesEmittedDocs(LineActions(lines[..k]))
    decreases |lines|
  {
    if k < |lines| {
      var init := lines[..|lines| - 1];
      var pre := LineActions(init);
      assert LineActions(lines) == pre + lines[|lines| - 1].actions;
      assert forall i :: 0 <= i < |pre| ==> pre[i] == LineActions(lines)[i];
      assert init[..k] == lines[..k];
      LineActionsPrefix(init, k);
    } else {
      assert lines[..k] == lines;
    }
  }

  /** The work leaves the heartbeat's metrics in sync with the events
      file, while the adapter's code does not set `emitted_docs` itself. */
  lemma WorkInSync(a: LegacyAdapter, o: LegacyOracles, n: nat, ctx: LegacyContext)
    requires LeavesEmittedDocs(LineActions(o.lines)) && LeavesEmittedDocs(o.generated)
    ensures InSync(WorkOf(a, o, n, ctx).1)
  {
    InitialMetricsFacts();
    if o.buildEnd.Returns? {
      var upd := if CommandMode(o) then ExecUpdate else GenerateUpdate(n);
      var acts := if CommandMode(o) then LineActions(o.lines[..ParsedCount(o.lines)]) else o.generated;
      UpdateInSync(upd);
      if CommandMode(o) {
        LineActionsPrefix(o.lines, ParsedCount(o.lines));
      }
      if !CommandMode(o) || o.spawns {
        EmittedDocsInSync(a.produces, ctx, Tally(Merge(LegacyInitialMetrics, upd), []), acts);
      }
    }
  }

  /** The metrics the final heartbeat sends: the phase `finalize`, and
      `emitted_docs` equal to the number of envelopes written. */
  lemma StartedTally(a: LegacyAdapter, s: LegacySettings, o: LegacyOracles)
    requires LegacyBodyOf(a, s, o).started
    requires LeavesEmittedDocs(LineActions(o.lines)) && LeavesEmittedDocs(o.generated)
    ensures var t := LegacyBodyOf(a, s, o).tally;
            InSync(t) && Get(t.metrics, "phase") == Some(Str("finalize"))
  {
    BodyCases(a, s, o);
    var b := LegacyBodyOf(a, s, o);
    var w := WorkOf(a, o, |Runtime.LoadTargets(o.inputs).value|, ContextOf(s, b.cfg));
    WorkInSync(a, o, |Runtime.LoadTargets(o.inputs).value|, ContextOf(s, b.cfg));
    PutUnique(w.1.metrics, "phase", Str("finalize"));
  }

  lemma ErrorPayloadGet(s: LegacySettings, error: string, at: string)
    ensures var p := LegacyErrorPayload(s, error, at);
            && Get(p, "kind") == Some(Str("progress@v1"))
            && Get(p, "phase") == Some(Str("error"))
            && Get(p, "error") == Some(Str(error))
  {
    var p := LegacyErrorPayload(s, error, at);
    forall j | 0 <= j < 6 ensures p[j].0 != "phase" && p[j].0 != "error" {
      assert |p[j].0| != 5;
    }
    assert p[6].0 != "error" by { assert p[6].0[0] != 'e'; }
    GetFirst(p, 6);
    GetFirst(p, 7);
  }

  lemma ResultsPayloadGet(s: LegacySettings, cfg: LegacyConfig, count: nat, sha: string, createdAt: string)
    ensures var p := LegacyResultsPayload(s, cfg, count, sha, createdAt);
            && Get(p, "kind") == Some(Str("results_ready@v1"))
            && Get(p, "doc_count") == Some(Int(count))
  {
    var p := LegacyResultsPayload(s, cfg, count, sha, createdAt);
    forall j | 0 <= j < 6 ensures p[j].0 != "doc_count" {
      if j == 1 {
        assert p[j].0[0] != 'd';
      } else {
        assert |p[j].0| != 9;
      }
    }
    GetFirst(p, 6);
  }

  /** The payload of the signal that ends a run whose writer was created,
      when no `SystemExit` left the work. */
  function LastPayload(s: LegacySettings, b: LegacyBody, o: LegacyOracles): Fields
    requires !b.end.Exited?
  {
    if b.end.Failed? then LegacyErrorPayload(s, b.end.error, o.now)
    else if UploadFails(s, o) then LegacyErrorPayload(s, o.upload.error, o.now)
    else LegacyResultsPayload(s, b.cfg, |b.tally.written|, o.eventsDigest, o.now)
  }

  lemma FinishStartedPostsAre(s: LegacySettings, env: Env, b: LegacyBody, o: LegacyOracles)
    requires b.started && Runtime.Given(s.signalUrl)
    ensures var url := s.signalUrl.value;
            var base := HeartbeatBase(s, b.cfg);
            LegacyFinish(s, env, b, o).posts ==
              [Post(url, LegacyProgressPayload(base, LegacyInitialMetrics, o.now)),
               Post(url, LegacyProgressPayload(base, b.tally.metrics, o.now))]
              + Tail(s, env, b, o).posts
  {
    var url := s.signalUrl.value;
    var base := HeartbeatBase(s, b.cfg);
    var first := StartPosts(s, b, o.now);
    var stop := StopPosts(s, b, o.now);
    var tail := Tail(s, env, b, o).posts;
    assert LegacyFinish(s, env, b, o).posts == first + stop + tail;
    assert first == [Post(url, LegacyProgressPayload(base, LegacyInitialMetrics, o.now))];
    assert stop == [Post(url, LegacyProgressPayload(base, b.tally.metrics, o.now))];
    TwoThen(first[0], stop[0], tail);
  }

  lemma TwoThen<T>(x: T, y: T, rest: seq<T>)
    ensures [x] + [y] + rest == [x, y] + rest
  {
  }

  lemma TailPosts(s: LegacySettings, env: Env, b: LegacyBody, o: LegacyOracles)
    requires Runtime.Given(s.signalUrl)
    ensures b.end.Exited? ==> Tail(s, env, b, o).posts == []
    ensures !b.end.Exited? ==> Tail(s, env, b, o).posts == [Post(s.signalUrl.value, LastPayload(s, b, o))]
  {
    if b.end.Exited? {
    } else if b.end.Failed? {
      assert Tail(s, env, b, o).posts == ErrorPosts(s, b.end.error, o.now);
    } else if UploadFails(s, o) {
      assert Tail(s, env, b, o).posts == ErrorPosts(s, o.upload.error, o.now);
    } else {
      assert Tail(s, env, b, o).posts == ResultsPosts(s, b, o);
    }
  }

  lemma LastPayloadFacts(s: LegacySettings, b: LegacyBody, o: LegacyOracles)
    requires !b.end.Exited?
    ensures var p := LastPayload(s, b, o);
            && (b.end.Failed? ==>
                  Get(p, "kind") == Some(Str("progress@v1"))
                  && Get(p, "phase") == Some(Str("error"))
                  && Get(p, "error") == Some(Str(b.end.error)))
            && (b.end.Finished? && UploadFails(s, o) ==> Get(p, "error") == Some(Str(o.upload.error)))
            && (b.end.Finished? && !UploadFails(s, o) ==>
                  Get(p, "kind") == Some(Str("results_ready@v1"))
                  && Get(p, "doc_count") == Some(Int(|b.tally.written|)))
  {
    if b.end.Failed? {
      ErrorPayloadGet(s, b.end.error, o.now);
    } else if UploadFails(s, o) {
      ErrorPayloadGet(s, o.upload.error, o.now);
    } else {
      ResultsPayloadGet(s, b.cfg, |b.tally.written|, o.eventsDigest, o.now);
    }
  }

  lemma HeartbeatPayloadFacts(base: Fields, metrics: Fields, at: string, k: string)
    requires UniqueKeys(metrics) && Get(metrics, k).Some? && k != "at"
    ensures Get(LegacyProgressPayload(base, metrics, at), k) == Get(metrics, k)
  {
    LegacyProgressPayloadGet(base, metrics, at, k);
    KeysOfGet(metrics, k);
  }

  lemma StartedPostsShape(s: LegacySettings, env: Env, b: LegacyBody, o: LegacyOracles)
    requires b.started && Runtime.Given(s.signalUrl)
    ensures var url := s.signalUrl.value;
            var base := HeartbeatBase(s, b.cfg);
            var posts := LegacyFinish(s, env, b, o).posts;
            && |posts| == (if b.end.Exited? then 2 else 3)
            && posts[0] == Post(url, LegacyProgressPayload(base, LegacyInitialMetrics, o.now))
            && posts[1] == Post(url, LegacyProgressPayload(base, b.tally.metrics, o.now))
            && (!b.end.Exited? ==> posts[2] == Post(url, LastPayload(s, b, o)))
  {
    FinishStartedPostsAre(s, env, b, o);
    TailPosts(s, env, b, o);
  }

  /** The signals after the outer `try` block of a run whose writer was
      created, with a signal URL. */
  lemma FinishStartedPosts(s: LegacySettings, env: Env, b: LegacyBody, o: LegacyOracles)
    requires b.started && Runtime.Given(s.signalUrl)
    requires InSync(b.tally) && Get(b.tally.metrics, "phase") == Some(Str("finalize"))
    ensures var posts := LegacyFinish(s, env, b, o).posts;
            && |posts| == (if b.end.Exited? then 2 else 3)
            && Get(posts[0].payload, "phase") == Some(Str("start"))
            && Get(posts[1].payload, "phase") == Some(Str("finalize"))
            && Get(posts[1].payload, "emitted_docs") == Some(Int(|b.tally.written|))
            && (!b.end.Exited? ==> posts[2].payload == LastPayload(s, b, o))
  {
    var base := HeartbeatBase(s, b.cfg);
    StartedPostsShape(s, env, b, o);
    InitialMetricsFacts();
    HeartbeatPayloadFacts(base, LegacyInitialMetrics, o.now, "phase");
    HeartbeatPayloadFacts(base, b.tally.metrics, o.now, "phase");
    HeartbeatPayloadFacts(base, b.tally.metrics, o.now, "emitted_docs");
  }

  lemma KeysOfGet(fs: Fields, k: string)
    requires Get(fs, k).Some?
    ensures k in Keys(fs)
  {
  }

  /** The legacy signals of a run whose writer was created, with a signal
      URL: the first heartbeat with the phase `start`, the final heartbeat
      with the phase `finalize` (even when the work failed) and as many
      `emitted_docs` as envelopes were written, and last either the error
      signal or `results_ready@v1` with that same count; after a
      `SystemExit`, neither. The packaged runtime sends its error signal
      before the final heartbeat. */
  lemma LegacyStartedSignals(a: LegacyAdapter, env: Env, o: LegacyOracles)
    requires LegacyFromEnv(a, env).Ok?
    requires LegacyBodyOf(a, Loaded(a, env), o).started && Runtime.Given(Loaded(a, env).signalUrl)
    requires LeavesEmittedDocs(LineActions(o.lines)) && LeavesEmittedDocs(o.generated)
    ensures var s := Loaded(a, env);
            var b := LegacyBodyOf(a, s, o);
            var posts := LegacyExpected(a, env, o).posts;
            && |posts| == (if b.end.Exited? then 2 else 3)
            && Get(posts[0].payload, "phase") == Some(Str("start"))
            && Get(posts[1].payload, "phase") == Some(Str("finalize"))
            && Get(posts[1].payload, "emitted_docs") == Some(Int(|b.tally.written|))
            && (b.end.Failed? ==>
                  RunLaws.Kind(posts[2]) == Some(Str("progress@v1"))
                  && Get(posts[2].payload, "phase") == Some(Str("error"))
                  && Get(posts[2].payload, "error") == Some(Str(b.end.error)))
            && (b.end.Finished? && UploadFails(s, o) ==>
                  Get(posts[2].payload, "error") == Some(Str(o.upload.error)))
            && (b.end.Finished? && !UploadFails(s, o) ==>
                  RunLaws.Kind(posts[2]) == Some(Str("results_ready@v1"))
                  && Get(posts[2].payload, "doc_count") == Some(Int(|b.tally.written|)))
  {
    var s := Loaded(a, env);
    var b := LegacyBodyOf(a, s, o);
    StartedTally(a, s, o);
    LoadedTrace(a, env, o);
    FinishStartedPosts(s, env, b, o);
    if !b.end.Exited? {
      LastPayloadFacts(s, b, o);
    }
  }

  /** A `SystemExit` from the adapter's code escapes `run`. The inner
      `finally` still closes the writer and sends the final heartbeat, and
      the outer `finally` still removes the workdir, but nothing is
      uploaded and neither the error signal nor `results_ready@v1` is
      sent. */
  lemma LegacySystemExitEscapes(a: LegacyAdapter, env: Env, o: LegacyOracles)
    requires LegacyFromEnv(a, env).Ok?
    requires LegacyBodyOf(a, Loaded(a, env), o).end.Exited?
    ensures var s := Loaded(a, env);
            var b := LegacyBodyOf(a, s, o);
            var t := LegacyExpected(a, env, o);
            && t.outcome == Runtime.Escapes(Runtime.SystemExitError)
            && t.steps == [Runtime.MakeWorkdir, Runtime.CloseWriter, Runtime.StopHeartbeat] + CleanupSteps(env)
            && t.posts == StartPosts(s, b, o.now) + StopPosts(s, b, o.now)
  {
    var s := Loaded(a, env);
    var b := LegacyBodyOf(a, s, o);
    ExitedFinish(s, env, b, o);
    LoadedTrace(a, env, o);
    WorkdirFirst(CleanupSteps(env));
  }

  lemma WorkdirFirst(cleanup: seq<Runtime.Step>)
    ensures [Runtime.MakeWorkdir] + ([Runtime.CloseWriter, Runtime.StopHeartbeat] + cleanup)
            == [Runtime.MakeWorkdir, Runtime.CloseWriter, Runtime.StopHeartbeat] + cleanup
  {
  }

  lemma ExitedFinish(s: LegacySettings, env: Env, b: LegacyBody, o: LegacyOracles)
    requires b.end.Exited? && (!b.started ==> b.end.Failed?)
    ensures LegacyFinish(s, env, b, o) ==
              Runtime.Trace(Runtime.Escapes(Runtime.SystemExitError),
                            [Runtime.CloseWriter, Runtime.StopHeartbeat] + CleanupSteps(env),
                            StartPosts(s, b, o.now) + StopPosts(s, b, o.now))
  {
    assert Tail(s, env, b, o) == Runtime.Trace(Runtime.Escapes(Runtime.SystemExitError), CleanupSteps(env), []);
    assert StartPosts(s, b, o.now) + StopPosts(s, b, o.now) + [] == StartPosts(s, b, o.now) + StopPosts(s, b, o.now);
  }

  /** Without a writer there is no heartbeat: a run that fails on its
      inputs or a resource sends the error signal and nothing else. */
  lemma LegacyUnstartedSignals(a: LegacyAdapter, env: Env, o: LegacyOracles)
    requires LegacyFromEnv(a, env).Ok?
    requires !LegacyBodyOf(a, Loaded(a, env), o).started && Runtime.Given(Loaded(a, env).signalUrl)
    ensures var s := Loaded(a, env);
            var b := LegacyBodyOf(a, s, o);
            var posts := LegacyExpected(a, env, o).posts;
            && |posts| == 1
            && RunLaws.Kind(posts[0]) == Some(Str("progress@v1"))
            && Get(posts[0].payload, "phase") == Some(Str("error"))
            && Get(posts[0].payload, "error") == Some(Str(b.end.error))
  {
    var s := Loaded(a, env);
    var b := LegacyBodyOf(a, s, o);
    LoadedTrace(a, env, o);
    NotStartedFinish(s, env, b, o);
    ErrorPayloadGet(s, b.end.error, o.now);
  }
}
