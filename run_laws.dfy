/** What `BaseAdapter.run` promises about every batch, stated over the
    trace `Runtime.Expected` describes (and which `Runtime.Run` is proved
    to produce): the exit codes, the order of the `finally` block, when the
    workdir goes, and which signals are sent. */
module RunLaws {
  import opened Common
  import opened Jsons
  import opened Io
  import opened Envelope
  import opened Signals
  import opened Utils
  import opened Runtime
  import Streaming

  /** Without a non-empty `INPUTS_URL` the settings do not load: `run`
      returns 2 before it creates a workdir or sends anything. */
  lemma MissingInputsExitsTwo(a: Adapter, env: Env, o: Oracles)
    requires "INPUTS_URL" !in env || env["INPUTS_URL"] == ""
    ensures Expected(a, env, None, o) == Trace(Exit(2), [], [])
  {
  }

  /** The settings given to the run, when they load. */
  function Loaded(a: Adapter, env: Env, given: Option<RuntimeSettings>): RuntimeSettings
    requires SettingsFor(a, env, given).Ok?
  {
    SettingsFor(a, env, given).value
  }

  /** The upload of a successful run fails only when there is an output
      URL to upload to. */
  predicate UploadFails(s: RuntimeSettings, o: Oracles)
  {
    Given(s.outputUrl) && o.upload.Err?
  }

  /** `run` returns 0 exactly when the `try` block completed and the upload
      did not raise, 1 exactly when the `try` block raised an ordinary
      exception, and lets an exception out only for `SystemExit` (the
      SIGTERM handler) or a failed upload. */
  lemma ExitCodes(a: Adapter, env: Env, given: Option<RuntimeSettings>, o: Oracles)
    requires SettingsFor(a, env, given).Ok?
    ensures var s := Loaded(a, env, given);
            var b := BodyOf(a, s, o);
            var t := Expected(a, env, given, o);
            && (t.outcome == Exit(0) <==> b.end.Done? && !UploadFails(s, o))
            && (t.outcome == Exit(1) <==> b.end.Failed?)
            && (t.outcome == Escapes(SystemExitError) <==> b.end.Exited? || (b.end.Done? && UploadFails(s, o) && o.upload.error == SystemExitError))
            && (t.outcome.Escapes? <==> b.end.Exited? || (b.end.Done? && UploadFails(s, o)))
            && (t.outcome.Escapes? && !b.end.Exited? ==> t.outcome.error == o.upload.error)
  {
    ExpectedLoaded(a, env, given, o);
    FinishOutcomes(Loaded(a, env, given), env, BodyOf(a, Loaded(a, env, given), o), o);
  }

  /** The outcome of what follows the `try` block, case by case. */
  lemma FinishOutcomes(s: RuntimeSettings, env: Env, b: Body, o: Oracles)
    ensures var t := Finish(s, env, b, o);
            && (t.outcome == Exit(0) <==> b.end.Done? && !UploadFails(s, o))
            && (t.outcome == Exit(1) <==> b.end.Failed?)
            && (t.outcome == Escapes(SystemExitError) <==> b.end.Exited? || (b.end.Done? && UploadFails(s, o) && o.upload.error == SystemExitError))
            && (t.outcome.Escapes? <==> b.end.Exited? || (b.end.Done? && UploadFails(s, o)))
            && (t.outcome.Escapes? && !b.end.Exited? ==> t.outcome.error == o.upload.error)
  {
  }

  /** The `try` block completes exactly when the inputs, the manifest and
      every resource were read, every `emit` call got an event model, and
      `main` returned. */
  lemma DoneWhen(a: Adapter, s: RuntimeSettings, o: Oracles)
    ensures BodyOf(a, s, o).end.Done? <==>
              && o.inputs.Ok?
              && LoadManifest(s.resourcesManifestUrl, o.manifest).Ok?
              && PrepareFrom(LoadManifest(s.resourcesManifestUrl, o.manifest).value.resources, o.fetches, 0).Ok?
              && FirstForeign(o.calls) == |o.calls|
              && o.mainEnd.Returns?
  {
  }

  /** Once the settings load, `run` makes the workdir and installs the
      handler, and the rest is what follows the `try` block. */
  lemma ExpectedLoaded(a: Adapter, env: Env, given: Option<RuntimeSettings>, o: Oracles)
    requires SettingsFor(a, env, given).Ok?
    ensures var b := BodyOf(a, Loaded(a, env, given), o);
            var f := Finish(Loaded(a, env, given), env, b, o);
            Expected(a, env, given, o) == Trace(f.outcome, [MakeWorkdir, InstallHandler] + f.steps, b.beats + f.posts)
  {
  }

  /** The steps after the `try` block, in one expression. */
  function AfterSteps(s: RuntimeSettings, env: Env, b: Body, o: Oracles): seq<Step>
  {
    ClosingSteps(b.writerOpen)
    + (if b.end.Done? then UploadSteps(s) else [])
    + (if b.end.Done? && UploadFails(s, o) then [] else CleanupSteps(s, env))
  }

  lemma FinishStepsAre(s: RuntimeSettings, env: Env, b: Body, o: Oracles)
    ensures Finish(s, env, b, o).steps == AfterSteps(s, env, b, o)
  {
    var closing := ClosingSteps(b.writerOpen);
    if !b.end.Done? {
      assert closing + [] + CleanupSteps(s, env) == closing + CleanupSteps(s, env);
    } else if UploadFails(s, o) {
      assert closing + UploadSteps(s) + [] == closing + UploadSteps(s);
    }
  }

  /** The steps after the `try` block: the heartbeat stops first, the
      handler is restored within the `finally` block, the writer is closed
      exactly when it exists, the events go up only after a completed
      `try` block, and the workdir goes unless it is preserved or the
      upload failed. */
  lemma AfterStepsFacts(s: RuntimeSettings, env: Env, b: Body, o: Oracles, url: string)
    ensures var steps := AfterSteps(s, env, b, o);
            && |steps| >= 2 && steps[0] == StopHeartbeat
            && RestoreHandler in steps[1..]
            && (CloseWriter in steps <==> b.writerOpen)
            && (RemoveWorkdir in steps <==> Removes(s, env) && !(b.end.Done? && UploadFails(s, o)))
            && (Upload(url) in steps <==> b.end.Done? && Given(s.outputUrl) && url == s.outputUrl.value)
  {
    var closing := ClosingSteps(b.writerOpen);
    var upload := if b.end.Done? then UploadSteps(s) else [];
    var cleanup := if b.end.Done? && UploadFails(s, o) then [] else CleanupSteps(s, env);
    var steps := closing + upload + cleanup;
    assert steps == AfterSteps(s, env, b, o);
    assert steps[|closing| - 1] == RestoreHandler;
    assert CloseWriter in steps <==> CloseWriter in closing;
    assert b.writerOpen ==> closing[1] == CloseWriter;
    assert RemoveWorkdir in steps <==> RemoveWorkdir in cleanup;
    assert Upload(url) in steps <==> Upload(url) in upload;
  }

  /** What follows the `try` block, for any way it ended: the heartbeat
      stops first, the handler is restored within the `finally` block, the
      writer is closed exactly when it exists, the events go up only after a
      completed `try` block, and the workdir goes unless it is preserved or
      the upload failed. */
  lemma FinishSteps(s: RuntimeSettings, env: Env, b: Body, o: Oracles, url: string)
    ensures var steps := Finish(s, env, b, o).steps;
            && |steps| >= 2 && steps[0] == StopHeartbeat
            && RestoreHandler in steps[1..]
            && (CloseWriter in steps <==> b.writerOpen)
            && (RemoveWorkdir in steps <==> Removes(s, env) && !(b.end.Done? && UploadFails(s, o)))
            && (Upload(url) in steps <==> b.end.Done? && Given(s.outputUrl) && url == s.outputUrl.value)
  {
    FinishStepsAre(s, env, b, o);
    AfterStepsFacts(s, env, b, o, url);
  }

  /** The steps of a run whose settings load: the workdir and the handler,
      then the steps after the `try` block. */
  lemma LoadedSteps(a: Adapter, env: Env, given: Option<RuntimeSettings>, o: Oracles)
    requires SettingsFor(a, env, given).Ok?
    ensures Expected(a, env, given, o).steps
            == [MakeWorkdir, InstallHandler] + Finish(Loaded(a, env, given), env, BodyOf(a, Loaded(a, env, given), o), o).steps
  {
    ExpectedLoaded(a, env, given, o);
  }

  /** The opening steps put in front of the steps after the `try` block
      change none of the facts about them. */
  lemma OpeningSteps(fs: seq<Step>, url: string)
    requires |fs| >= 2 && fs[0] == StopHeartbeat && RestoreHandler in fs[1..]
    ensures var steps := [MakeWorkdir, InstallHandler] + fs;
            && |steps| >= 4
            && steps[..3] == [MakeWorkdir, InstallHandler, StopHeartbeat]
            && RestoreHandler in steps[3..]
            && (CloseWriter in steps <==> CloseWriter in fs)
            && (RemoveWorkdir in steps <==> RemoveWorkdir in fs)
            && (Upload(url) in steps <==> Upload(url) in fs)
  {
    var steps := [MakeWorkdir, InstallHandler] + fs;
    assert steps[3..] == fs[1..];
  }

  /** Whatever happens once the settings load, the workdir is made and the
      handler installed first, and the heartbeat is stopped and the previous
      SIGTERM handler restored afterwards; the writer is closed exactly
      when it was created. */
  lemma HandlerRestored(a: Adapter, env: Env, given: Option<RuntimeSettings>, o: Oracles)
    requires SettingsFor(a, env, given).Ok?
    ensures var b := BodyOf(a, Loaded(a, env, given), o);
            var steps := Expected(a, env, given, o).steps;
            && |steps| >= 4
            && steps[..3] == [MakeWorkdir, InstallHandler, StopHeartbeat]
            && RestoreHandler in steps[3..]
            && (CloseWriter in steps <==> b.writerOpen)
  {
    var s := Loaded(a, env, given);
    var b := BodyOf(a, s, o);
    var fs := Finish(s, env, b, o).steps;
    LoadedSteps(a, env, given, o);
    FinishSteps(s, env, b, o, "");
    OpeningSteps(fs, "");
  }

  /** The workdir is removed unless preservation is asked for, and a failed
      upload, which leaves `run` before the removal, keeps it too. */
  lemma WorkdirRemoval(a: Adapter, env: Env, given: Option<RuntimeSettings>, o: Oracles)
    requires SettingsFor(a, env, given).Ok?
    ensures var s := Loaded(a, env, given);
            var b := BodyOf(a, s, o);
            RemoveWorkdir in Expected(a, env, given, o).steps <==> Removes(s, env) && !(b.end.Done? && UploadFails(s, o))
  {
    var s := Loaded(a, env, given);
    var b := BodyOf(a, s, o);
    var fs := Finish(s, env, b, o).steps;
    LoadedSteps(a, env, given, o);
    FinishSteps(s, env, b, o, "");
    OpeningSteps(fs, "");
  }

  /** The events are uploaded only after a completed `try` block, and
      then exactly when there is an output URL. */
  lemma UploadWhen(a: Adapter, env: Env, given: Option<RuntimeSettings>, o: Oracles, url: string)
    requires SettingsFor(a, env, given).Ok?
    ensures var s := Loaded(a, env, given);
            Upload(url) in Expected(a, env, given, o).steps <==>
              BodyOf(a, s, o).end.Done? && Given(s.outputUrl) && url == s.outputUrl.value
  {
    var s := Loaded(a, env, given);
    var b := BodyOf(a, s, o);
    var fs := Finish(s, env, b, o).steps;
    LoadedSteps(a, env, given, o);
    FinishSteps(s, env, b, o, url);
    OpeningSteps(fs, url);
  }

  /** The phase the final heartbeat reports: `init` when the run failed
      before its writer existed, `finalize` when the `try` block completed,
      and otherwise the phase `main` last set itself (a wrapper's `exec`),
      or `main` when it set none. */
  function StopPhase(b: Body, calls: seq<Call>): Json
  {
    if b.end.Done? then Str("finalize")
    else if !b.writerOpen then Str("init")
    else if LastSet(Driven(calls), "phase").Some? then LastSet(Driven(calls), "phase").value
    else Str("main")
  }

  /** The metrics the `try` block leaves: the phase above, `emitted_docs`
      equal to the number of envelopes written unless `main` assigned it
      itself, and one heartbeat per wake-up of the worker while `main` ran
      when there is a signal URL. */
  lemma BodyMetrics(a: Adapter, s: RuntimeSettings, o: Oracles)
    ensures var b := BodyOf(a, s, o);
            && Get(b.metrics, "phase") == Some(StopPhase(b, o.calls)) && UniqueKeys(b.metrics)
            && (LastSet(Driven(o.calls), "emitted_docs").None? ==> Get(b.metrics, "emitted_docs") == Some(Int(|b.written|)))
            && |b.beats| == if b.writerOpen && Given(s.signalUrl) then Wakes(Driven(o.calls)) else 0
  {
    var b := BodyOf(a, s, o);
    if !b.writerOpen {
      assert InitialMetrics == Metrics("init", 0, 0);
    }
  }

  /** The heartbeats sent while `main` ran are `progress@v1` posts to the
      signal URL. */
  lemma BeatsProgress(a: Adapter, s: RuntimeSettings, o: Oracles)
    ensures forall p :: p in BodyOf(a, s, o).beats ==> Kind(p) == Some(Str("progress@v1")) && p.url == s.signalUrl.value
  {
    match LoadTargets(o.inputs)
    case Err(_) =>
    case Ok(targets) =>
      match LoadManifest(s.resourcesManifestUrl, o.manifest)
      case Err(_) =>
      case Ok(cfg) =>
        var tool := Coalesce(Some(cfg.tool), s.tool);
        var version := Coalesce(Some(cfg.toolVersion), s.toolVersion);
        if PrepareFrom(cfg.resources, o.fetches, 0).Ok? {
          MainBodyParts(a, s, o, |targets|, tool, version);
          WakePostsShape(s.signalUrl, SignalPayload(s), a.produces, Driven(o.calls), Metrics("main", |targets|, 0));
        }
  }

  /** The kind of a post's payload. */
  function Kind(p: Post): Option<Json>
  {
    Get(p.payload, "kind")
  }

  /** A run whose settings load sends the heartbeats of `main` and then
      ends as the `try` block's conclusion does. */
  lemma LoadedTrace(a: Adapter, env: Env, given: Option<RuntimeSettings>, o: Oracles)
    requires SettingsFor(a, env, given).Ok?
    ensures var b := BodyOf(a, Loaded(a, env, given), o);
            var f := Finish(Loaded(a, env, given), env, b, o);
            && Expected(a, env, given, o).posts == b.beats + f.posts
            && Expected(a, env, given, o).outcome == f.outcome
  {
    ExpectedLoaded(a, env, given, o);
  }

  /** A `try` block that raised leaves the error signal and the final heartbeat. */
  lemma FailureFinishPosts(s: RuntimeSettings, env: Env, b: Body, o: Oracles)
    requires b.end.Failed?
    ensures Finish(s, env, b, o).posts == ErrorPosts(s, SignalPayload(s), b, o.now) + StopPosts(s, SignalPayload(s), b, o.now)
  {
  }

  /** With a signal URL, those are one post each, in that order. */
  lemma FailurePostsList(s: RuntimeSettings, b: Body, base: Fields, now: string)
    requires b.end.Failed? && Given(s.signalUrl)
    ensures ErrorPosts(s, base, b, now) + StopPosts(s, base, b, now)
         == [Post(s.signalUrl.value, ErrorPayload(base, b.end.error, now)), Post(s.signalUrl.value, ProgressPayload(base, b.metrics, now))]
  {
  }

  /** After a `try` block that raised, with a signal URL: the error signal,
      then the final heartbeat carrying the metrics' phase. */
  lemma FinishFailurePosts(s: RuntimeSettings, env: Env, b: Body, o: Oracles)
    requires b.end.Failed? && Given(s.signalUrl) && UniqueKeys(b.metrics) && Get(b.metrics, "phase").Some?
    ensures var posts := Finish(s, env, b, o).posts;
            && |posts| == 2
            && Kind(posts[0]) == Some(Str("progress@v1"))
            && Get(posts[0].payload, "phase") == Some(Str("error"))
            && Get(posts[0].payload, "error") == Some(Str(b.end.error))
            && Kind(posts[1]) == Some(Str("progress@v1"))
            && Get(posts[1].payload, "phase") == Get(b.metrics, "phase")
  {
    var base := SignalPayload(s);
    FailureFinishPosts(s, env, b, o);
    FailurePostsList(s, b, base, o.now);
    ProgressPayloadGet(base, b.metrics, o.now, "kind");
    ProgressPayloadGet(base, b.metrics, o.now, "phase");
  }

  /** When the `try` block raised, a run with a signal URL sends, after the
      heartbeats of `main`, the error signal with the exception's text and
      then the final heartbeat, whose phase says how far the run got; all
      of them are `progress@v1`. */
  lemma FailureSignals(a: Adapter, env: Env, given: Option<RuntimeSettings>, o: Oracles)
    requires SettingsFor(a, env, given).Ok?
    requires BodyOf(a, Loaded(a, env, given), o).end.Failed?
    requires Given(Loaded(a, env, given).signalUrl)
    ensures var b := BodyOf(a, Loaded(a, env, given), o);
            var posts := Expected(a, env, given, o).posts;
            var n := |posts|;
            && n == |b.beats| + 2 && posts[..n - 2] == b.beats
            && (forall j :: 0 <= j < n ==> Kind(posts[j]) == Some(Str("progress@v1")))
            && Get(posts[n - 2].payload, "phase") == Some(Str("error"))
            && Get(posts[n - 2].payload, "error") == Some(Str(b.end.error))
            && Get(posts[n - 1].payload, "phase") == Some(StopPhase(b, o.calls))
  {
    var s := Loaded(a, env, given);
    var b := BodyOf(a, s, o);
    BodyMetrics(a, s, o);
    BeatsProgress(a, s, o);
    LoadedTrace(a, env, given, o);
    FinishFailurePosts(s, env, b, o);
    FailureShape(Expected(a, env, given, o).posts, b.beats, Finish(s, env, b, o).posts);
  }

  /** Heartbeats followed by two more `progress@v1` posts. */
  lemma FailureShape(posts: seq<Post>, xs: seq<Post>, ys: seq<Post>)
    requires posts == xs + ys && |ys| == 2
    requires forall p :: p in xs ==> Kind(p) == Some(Str("progress@v1"))
    requires Kind(ys[0]) == Some(Str("progress@v1")) && Kind(ys[1]) == Some(Str("progress@v1"))
    ensures var n := |posts|;
            && n == |xs| + 2 && posts[..n - 2] == xs && posts[n - 2] == ys[0] && posts[n - 1] == ys[1]
            && (forall j :: 0 <= j < n ==> Kind(posts[j]) == Some(Str("progress@v1")))
  {
    assert posts[..|xs|] == xs && posts[|xs|] == ys[0] && posts[|xs| + 1] == ys[1];
    forall j | 0 <= j < |xs| ensures Kind(posts[j]) == Some(Str("progress@v1")) {
      assert posts[j] == xs[j] && xs[j] in xs;
    }
  }

  /** Heartbeats followed by at most one more `progress@v1` post. */
  lemma StoppedShape(posts: seq<Post>, xs: seq<Post>, ys: seq<Post>)
    requires posts == xs + ys && |ys| <= 1
    requires forall p :: p in xs ==> Kind(p) == Some(Str("progress@v1"))
    requires forall p :: p in ys ==> Kind(p) == Some(Str("progress@v1"))
    ensures && |xs| <= |posts| <= |xs| + 1 && posts[..|xs|] == xs
            && (|posts| > |xs| ==> posts[|posts| - 1] == ys[0])
            && (forall j :: 0 <= j < |posts| ==> Kind(posts[j]) == Some(Str("progress@v1")))
  {
    assert posts[..|xs|] == xs;
    forall j | 0 <= j < |posts| ensures Kind(posts[j]) == Some(Str("progress@v1")) {
      if j < |xs| {
        assert posts[j] == xs[j] && xs[j] in xs;
      } else {
        assert posts[j] == ys[j - |xs|] && ys[j - |xs|] in ys;
      }
    }
  }

  /** Heartbeats, the final heartbeat, then `results_ready@v1`. */
  lemma SuccessShape(posts: seq<Post>, xs: seq<Post>, ys: seq<Post>)
    requires posts == xs + ys && |ys| == 2
    requires forall p :: p in xs ==> Kind(p) == Some(Str("progress@v1"))
    requires Kind(ys[0]) == Some(Str("progress@v1"))
    ensures var n := |posts|;
            && n == |xs| + 2 && posts[..n - 2] == xs && posts[n - 2] == ys[0] && posts[n - 1] == ys[1]
            && (forall j :: 0 <= j < n - 1 ==> Kind(posts[j]) == Some(Str("progress@v1")))
  {
    assert posts[..|xs|] == xs && posts[|xs|] == ys[0] && posts[|xs| + 1] == ys[1];
    forall j | 0 <= j < |xs| ensures Kind(posts[j]) == Some(Str("progress@v1")) {
      assert posts[j] == xs[j] && xs[j] in xs;
    }
  }

  /** After a `try` block stopped by SIGTERM: at most the final heartbeat. */
  lemma FinishStoppedPosts(s: RuntimeSettings, env: Env, b: Body, o: Oracles)
    requires b.end.Exited? && UniqueKeys(b.metrics) && Get(b.metrics, "phase").Some?
    ensures var posts := Finish(s, env, b, o).posts;
            && |posts| <= 1
            && (posts != [] ==> Get(posts[0].payload, "phase") == Get(b.metrics, "phase"))
  {
    var base := SignalPayload(s);
    assert Finish(s, env, b, o).posts == StopPosts(s, base, b, o.now);
    ProgressPayloadGet(base, b.metrics, o.now, "phase");
  }

  /** A run stopped by SIGTERM sends, after the heartbeats of `main`, its
      final heartbeat and nothing else: no error signal. The final phase is
      the one `main` last set, or `main`. */
  lemma StoppedSignals(a: Adapter, env: Env, given: Option<RuntimeSettings>, o: Oracles)
    requires SettingsFor(a, env, given).Ok?
    requires BodyOf(a, Loaded(a, env, given), o).end.Exited?
    ensures var b := BodyOf(a, Loaded(a, env, given), o);
            var posts := Expected(a, env, given, o).posts;
            && |b.beats| <= |posts| <= |b.beats| + 1 && posts[..|b.beats|] == b.beats
            && (forall j :: 0 <= j < |posts| ==> Kind(posts[j]) == Some(Str("progress@v1")))
            && (|posts| > |b.beats| ==> Get(posts[|posts| - 1].payload, "phase") == Some(StopPhase(b, o.calls)))
  {
    var s := Loaded(a, env, given);
    var b := BodyOf(a, s, o);
    BodyMetrics(a, s, o);
    BeatsProgress(a, s, o);
    LoadedTrace(a, env, given, o);
    FinishStoppedPosts(s, env, b, o);
    var ys := Finish(s, env, b, o).posts;
    assert ys == StopPosts(s, SignalPayload(s), b, o.now);
    StopPayloadKind(s, SignalPayload(s), b, o);
    StoppedShape(Expected(a, env, given, o).posts, b.beats, ys);
  }

  /** After the `try` block: `results_ready@v1` is among the posts only when
      the run returns 0. */
  lemma FinishResultsOnlyOnSuccess(s: RuntimeSettings, env: Env, b: Body, o: Oracles)
    ensures var f := Finish(s, env, b, o);
            (exists j :: 0 <= j < |f.posts| && Kind(f.posts[j]) == Some(Str("results_ready@v1"))) ==>
              f.outcome == Exit(0)
  {
    var f := Finish(s, env, b, o);
    if f.outcome != Exit(0) {
      UnsuccessfulPostsProgress(s, env, b, o);
      forall j | 0 <= j < |f.posts|
        ensures Kind(f.posts[j]) == Some(Str("progress@v1"))
      {
        assert f.posts[j] in f.posts;
      }
    }
  }

  /** When `run` does not return 0, every post after the `try` block is
      `progress@v1`. */
  lemma UnsuccessfulPostsProgress(s: RuntimeSettings, env: Env, b: Body, o: Oracles)
    requires Finish(s, env, b, o).outcome != Exit(0)
    ensures forall p :: p in Finish(s, env, b, o).posts ==> Kind(p) == Some(Str("progress@v1"))
  {
    if b.end.Done? {
      assert Finish(s, env, b, o).posts == StopPosts(s, SignalPayload(s), b, o.now);
      StopPayloadKind(s, SignalPayload(s), b, o);
    } else {
      FailedPostsProgress(s, env, b, o);
    }
  }

  /** After a completed `try` block whose upload did not raise: the final
      heartbeat and then `results_ready@v1`. */
  lemma FinishDonePosts(s: RuntimeSettings, env: Env, b: Body, o: Oracles)
    requires b.end.Done? && !UploadFails(s, o)
    ensures Finish(s, env, b, o).posts == StopPosts(s, SignalPayload(s), b, o.now) + ResultsPosts(s, b, o)
  {
  }

  /** With a signal URL, the posts of a successful run: the final heartbeat
      in phase `finalize` and then `results_ready@v1` with the count of
      envelopes written and the digest of the events file. */
  lemma SuccessPosts(s: RuntimeSettings, base: Fields, b: Body, o: Oracles)
    requires UniqueKeys(b.metrics) && Get(b.metrics, "phase") == Some(Str("finalize"))
    requires Given(s.signalUrl)
    ensures var posts := StopPosts(s, base, b, o.now) + ResultsPosts(s, b, o);
            && |posts| == 2
            && Kind(posts[0]) == Some(Str("progress@v1"))
            && Get(posts[0].payload, "phase") == Some(Str("finalize"))
            && Kind(posts[1]) == Some(Str("results_ready@v1"))
            && Get(posts[1].payload, "doc_count") == Some(Int(|b.written|))
            && Get(posts[1].payload, "events_sha256") == Some(Str(o.eventsDigest))
  {
    StopPostOne(s, base, b, o);
    ResultsPostOne(s, b, o);
  }

  /** With a signal URL the final heartbeat is one `progress@v1` post
      carrying the metrics' phase. */
  lemma StopPostOne(s: RuntimeSettings, base: Fields, b: Body, o: Oracles)
    requires Given(s.signalUrl) && UniqueKeys(b.metrics) && Get(b.metrics, "phase").Some?
    ensures var stop := StopPosts(s, base, b, o.now);
            && |stop| == 1
            && Kind(stop[0]) == Some(Str("progress@v1"))
            && Get(stop[0].payload, "phase") == Get(b.metrics, "phase")
  {
    ProgressPayloadGet(base, b.metrics, o.now, "phase");
  }

  /** With a signal URL `results_ready@v1` is one post carrying the count
      and the digest. */
  lemma ResultsPostOne(s: RuntimeSettings, b: Body, o: Oracles)
    requires Given(s.signalUrl)
    ensures var results := ResultsPosts(s, b, o);
            && |results| == 1
            && Kind(results[0]) == Some(Str("results_ready@v1"))
            && Get(results[0].payload, "doc_count") == Some(Int(|b.written|))
            && Get(results[0].payload, "events_sha256") == Some(Str(o.eventsDigest))
  {
  }

  lemma StopPayloadKind(s: RuntimeSettings, base: Fields, b: Body, o: Oracles)
    ensures forall p :: p in StopPosts(s, base, b, o.now) ==> Kind(p) == Some(Str("progress@v1"))
  {
  }

  lemma ErrorPayloadKind(s: RuntimeSettings, base: Fields, b: Body, o: Oracles)
    ensures forall p :: p in ErrorPosts(s, base, b, o.now) ==> Kind(p) == Some(Str("progress@v1"))
  {
  }

  /** A completed `try` block wrote one envelope per event model that got
      past `PRODUCES`. */
  lemma DoneWritten(a: Adapter, s: RuntimeSettings, o: Oracles)
    requires BodyOf(a, s, o).end.Done?
    ensures |BodyOf(a, s, o).written| == |Admitted(a.produces, o.calls)|
  {
    assert o.calls[..FirstForeign(o.calls)] == o.calls;
  }

  /** `results_ready@v1` is sent only by a run that returns 0. */
  lemma ResultsOnlyOnSuccess(a: Adapter, env: Env, given: Option<RuntimeSettings>, o: Oracles)
    requires SettingsFor(a, env, given).Ok?
    ensures var t := Expected(a, env, given, o);
            (exists j :: 0 <= j < |t.posts| && Kind(t.posts[j]) == Some(Str("results_ready@v1"))) ==>
              t.outcome == Exit(0)
  {
    var s := Loaded(a, env, given);
    var b := BodyOf(a, s, o);
    LoadedTrace(a, env, given, o);
    BeatsProgress(a, s, o);
    FinishResultsOnlyOnSuccess(s, env, b, o);
    ResultsAfterBeats(Expected(a, env, given, o).posts, b.beats, Finish(s, env, b, o).posts);
  }

  /** A `results_ready@v1` post after `progress@v1` heartbeats is one of the
      posts that follow them. */
  lemma ResultsAfterBeats(posts: seq<Post>, xs: seq<Post>, ys: seq<Post>)
    requires posts == xs + ys
    requires forall p :: p in xs ==> Kind(p) == Some(Str("progress@v1"))
    ensures (exists j :: 0 <= j < |posts| && Kind(posts[j]) == Some(Str("results_ready@v1"))) ==>
              exists i :: 0 <= i < |ys| && Kind(ys[i]) == Some(Str("results_ready@v1"))
  {
    forall j | 0 <= j < |xs| ensures Kind(posts[j]) == Some(Str("progress@v1")) {
      assert posts[j] == xs[j] && xs[j] in xs;
    }
    forall j | 0 <= j < |posts| && Kind(posts[j]) == Some(Str("results_ready@v1"))
      ensures exists i :: 0 <= i < |ys| && Kind(ys[i]) == Some(Str("results_ready@v1"))
    {
      assert posts[j] == ys[j - |xs|];
    }
  }

  /** With a signal URL a run that returns 0 sends the final heartbeat in
      phase `finalize` and then `results_ready@v1`, which counts every
      event model that got past `PRODUCES` and carries the events file's
      digest. */
  lemma ResultsOnSuccess(a: Adapter, env: Env, given: Option<RuntimeSettings>, o: Oracles)
    requires SettingsFor(a, env, given).Ok?
    requires Expected(a, env, given, o).outcome == Exit(0) && Given(Loaded(a, env, given).signalUrl)
    ensures var b := BodyOf(a, Loaded(a, env, given), o);
            var posts := Expected(a, env, given, o).posts;
            var n := |posts|;
            && n == |b.beats| + 2 && posts[..n - 2] == b.beats
            && (forall j :: 0 <= j < n - 1 ==> Kind(posts[j]) == Some(Str("progress@v1")))
            && Get(posts[n - 2].payload, "phase") == Some(Str("finalize"))
            && Kind(posts[n - 1]) == Some(Str("results_ready@v1"))
            && Get(posts[n - 1].payload, "doc_count") == Some(Int(|Admitted(a.produces, o.calls)|))
            && Get(posts[n - 1].payload, "events_sha256") == Some(Str(o.eventsDigest))
  {
    var s := Loaded(a, env, given);
    var b := BodyOf(a, s, o);
    BodyMetrics(a, s, o);
    BeatsProgress(a, s, o);
    LoadedTrace(a, env, given, o);
    FinishOutcomes(s, env, b, o);
    DoneWritten(a, s, o);
    FinishDonePosts(s, env, b, o);
    SuccessPosts(s, SignalPayload(s), b, o);
    SuccessShape(Expected(a, env, given, o).posts, b.beats, Finish(s, env, b, o).posts);
  }

  /** A resource whose checksum does not match fails the batch before the
      writer exists: exit code 1, no writer to close, no upload and no
      `results_ready@v1`. */
  lemma ChecksumMismatchFails(a: Adapter, env: Env, s: RuntimeSettings, o: Oracles, j: nat)
    requires o.inputs.Ok?
    requires LoadManifest(s.resourcesManifestUrl, o.manifest).Ok?
    requires var specs := LoadManifest(s.resourcesManifestUrl, o.manifest).value.resources;
             && j < |specs| && j < |o.fetches|
             && FileNameFor(specs[j]).Ok? && o.fetches[j].downloaded
             && !ChecksumOk(specs[j].sha256, o.fetches[j].digest)
    ensures var t := Expected(a, env, Some(s), o);
            && t.outcome == Exit(1)
            && CloseWriter !in t.steps
            && (forall url :: Upload(url) !in t.steps)
            && (forall p :: p in t.posts ==> Kind(p) == Some(Str("progress@v1")))
  {
    ChecksumMismatchBody(a, s, o, j);
    assert Loaded(a, env, Some(s)) == s;
    EarlyFailure(a, env, Some(s), o);
  }

  /** A run whose `try` block fails before the writer exists exits 1
      without closing a writer, uploading or sending anything but
      `progress@v1` posts. */
  lemma EarlyFailure(a: Adapter, env: Env, given: Option<RuntimeSettings>, o: Oracles)
    requires SettingsFor(a, env, given).Ok?
    requires !BodyOf(a, Loaded(a, env, given), o).writerOpen
    ensures var t := Expected(a, env, given, o);
            && t.outcome == Exit(1)
            && CloseWriter !in t.steps
            && (forall url :: Upload(url) !in t.steps)
            && (forall p :: p in t.posts ==> Kind(p) == Some(Str("progress@v1")))
  {
    HandlerRestored(a, env, given, o);
    forall url ensures Upload(url) !in Expected(a, env, given, o).steps {
      UploadWhen(a, env, given, o, url);
    }
    EarlyFailurePosts(a, env, given, o);
  }

  /** Its exit code and its posts: those of `Finish`, as no heartbeat was
      sent before. */
  lemma EarlyFailurePosts(a: Adapter, env: Env, given: Option<RuntimeSettings>, o: Oracles)
    requires SettingsFor(a, env, given).Ok?
    requires !BodyOf(a, Loaded(a, env, given), o).writerOpen
    ensures var t := Expected(a, env, given, o);
            && t.outcome == Exit(1)
            && (forall p :: p in t.posts ==> Kind(p) == Some(Str("progress@v1")))
  {
    var s := Loaded(a, env, given);
    var b := BodyOf(a, s, o);
    LoadedTrace(a, env, given, o);
    FailedPostsProgress(s, env, b, o);
    assert Expected(a, env, given, o).posts == Finish(s, env, b, o).posts;
  }

  /** The `try` block of that batch raises before the writer exists. */
  lemma ChecksumMismatchBody(a: Adapter, s: RuntimeSettings, o: Oracles, j: nat)
    requires o.inputs.Ok?
    requires LoadManifest(s.resourcesManifestUrl, o.manifest).Ok?
    requires var specs := LoadManifest(s.resourcesManifestUrl, o.manifest).value.resources;
             && j < |specs| && j < |o.fetches|
             && FileNameFor(specs[j]).Ok? && o.fetches[j].downloaded
             && !ChecksumOk(specs[j].sha256, o.fetches[j].digest)
    ensures var b := BodyOf(a, s, o); b.end.Failed? && !b.writerOpen && b.beats == []
  {
    var cfg := LoadManifest(s.resourcesManifestUrl, o.manifest).value;
    ChecksumMismatchStops(cfg.resources, o.fetches, j);
  }

  /** After a `try` block that did not complete, every post is `progress@v1`. */
  lemma FailedPostsProgress(s: RuntimeSettings, env: Env, b: Body, o: Oracles)
    requires !b.end.Done?
    ensures forall p :: p in Finish(s, env, b, o).posts ==> Kind(p) == Some(Str("progress@v1"))
  {
    var base := SignalPayload(s);
    var errors, stop := ErrorPosts(s, base, b, o.now), StopPosts(s, base, b, o.now);
    ErrorPayloadKind(s, base, b, o);
    StopPayloadKind(s, base, b, o);
    assert Finish(s, env, b, o).posts == errors + stop || Finish(s, env, b, o).posts == stop;
  }
}
