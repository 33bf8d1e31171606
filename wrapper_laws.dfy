/** What `WrapperAdapter.main` does to the heartbeat's metrics while
    `BaseAdapter.run` drives it: the calls it makes, stated as
    `Runtime.Call`s, agree with `Streaming.WrapperMetrics`, and a wrapper
    whose command ran and whose `main` then raised reports phase `exec` in
    its final heartbeat. */
module WrapperLaws {
  import opened Common
  import opened Jsons
  import opened Utils
  import opened Runtime
  import RunLaws
  import Streaming

  /** None of these calls assigns metric `k`. */
  predicate Untouched(calls: seq<Call>, k: string)
  {
    forall i :: 0 <= i < |calls| && calls[i].Metric? ==> calls[i].key != k
  }

  /** None of these calls assigns a metric: a wrapper's `stream` and
      `postprocess_files` only emit. */
  predicate NoMetrics(calls: seq<Call>)
  {
    forall i :: 0 <= i < |calls| ==> !calls[i].Metric?
  }

  /** The calls of `WrapperAdapter.main`: it sets `processed_targets`; when
      the wrapper built a command, `spawn_and_stream` sets phase `exec`, the
      command's lines cause `streamed`, and `main` sets `last_exit_code`;
      then `postprocess_files` causes `post`. */
  function WrapperCalls(n: nat, cmd: Streaming.Command, streamed: seq<Call>, post: seq<Call>): seq<Call>
  {
    [Metric("processed_targets", Int(n))]
    + (if cmd.argv != [] then [Metric("phase", Str("exec"))] + streamed + [Metric("last_exit_code", Int(cmd.returncode))] else [])
    + post
  }

  /** The last assignment among `xs + ys` is the last one in `ys`, or else
      the last one in `xs`. */
  lemma {:induction false} LastSetAppend(xs: seq<Call>, ys: seq<Call>, k: string)
    ensures LastSet(xs + ys, k) == if LastSet(ys, k).Some? then LastSet(ys, k) else LastSet(xs, k)
    decreases |ys|
  {
    if ys == [] {
      assert xs + ys == xs;
    } else {
      assert (xs + ys)[..|xs + ys| - 1] == xs + ys[..|ys| - 1];
      LastSetAppend(xs, ys[..|ys| - 1], k);
    }
  }

  /** Calls that never assign `k` leave no last value for it. */
  lemma {:induction false} LastSetUntouched(calls: seq<Call>, k: string)
    requires Untouched(calls, k)
    ensures LastSet(calls, k) == None
    decreases |calls|
  {
    if calls != [] {
      var init := calls[..|calls| - 1];
      assert Untouched(init, k) by {
        forall i | 0 <= i < |init| && init[i].Metric? ensures init[i].key != k {
          assert init[i] == calls[i];
        }
      }
      LastSetUntouched(init, k);
    }
  }

  /** The last value `WrapperAdapter.main` assigns to each metric. */
  lemma WrapperLastSet(n: nat, cmd: Streaming.Command, streamed: seq<Call>, post: seq<Call>, k: string)
    requires NoMetrics(streamed) && NoMetrics(post)
    ensures LastSet(WrapperCalls(n, cmd, streamed, post), k) ==
              if k == "processed_targets" then Some(Int(n))
              else if cmd.argv != [] && k == "last_exit_code" then Some(Int(cmd.returncode))
              else if cmd.argv != [] && k == "phase" then Some(Str("exec"))
              else None
  {
    var head: seq<Call> := [Metric("processed_targets", Int(n))];
    LastSetUntouched(streamed, k);
    LastSetUntouched(post, k);
    if cmd.argv != [] {
      var running: seq<Call> := [Metric("phase", Str("exec"))];
      var closing: seq<Call> := [Metric("last_exit_code", Int(cmd.returncode))];
      LastSetAppend(running, streamed, k);
      LastSetAppend(running + streamed, closing, k);
      LastSetAppend(head, running + streamed + closing, k);
      LastSetAppend(head + (running + streamed + closing), post, k);
    } else {
      assert WrapperCalls(n, cmd, streamed, post) == head + post;
      LastSetAppend(head, post, k);
    }
  }

  /** Every metric but `emitted_docs` ends `main` as
      `Streaming.WrapperMetrics` computes it from the metrics `main` found,
      whatever the command's lines emit. */
  lemma WrapperMetricsAgree(produces: seq<string>, n: nat, cmd: Streaming.Command, streamed: seq<Call>, post: seq<Call>, start: Fields, k: string)
    requires NoMetrics(streamed) && NoMetrics(post) && k != "emitted_docs"
    ensures Get(MetricsAfter(produces, WrapperCalls(n, cmd, streamed, post), start), k) ==
              Get(Streaming.WrapperMetrics(start, n, cmd), k)
  {
    MetricsAfterGet(produces, WrapperCalls(n, cmd, streamed, post), start, k);
    WrapperLastSet(n, cmd, streamed, post, k);
  }

  /** However early an unknown object cuts `main` short, `spawn_and_stream`
      has already set phase `exec` when the wrapper built a command. */
  lemma WrapperExecPhase(n: nat, cmd: Streaming.Command, streamed: seq<Call>, post: seq<Call>)
    requires cmd.argv != [] && NoMetrics(streamed) && NoMetrics(post)
    ensures LastSet(Driven(WrapperCalls(n, cmd, streamed, post)), "phase") == Some(Str("exec"))
  {
    var calls := WrapperCalls(n, cmd, streamed, post);
    var head: seq<Call> := [Metric("processed_targets", Int(n)), Metric("phase", Str("exec"))];
    var rest := streamed + [Metric("last_exit_code", Int(cmd.returncode))] + post;
    assert calls == head + rest;
    var d := Driven(calls);
    assert |d| >= 2 by {
      assert !calls[0].EmitOther? && !calls[1].EmitOther?;
    }
    var tail := rest[..|d| - 2];
    assert d == head + tail;
    assert Untouched(rest, "phase") by {
      forall i | 0 <= i < |rest| ensures !rest[i].Metric? || rest[i].key == "last_exit_code" {
        assert rest[i] == if i < |streamed| then streamed[i]
                          else if i == |streamed| then Metric("last_exit_code", Int(cmd.returncode))
                          else post[i - |streamed| - 1];
      }
    }
    assert Untouched(tail, "phase") by {
      forall i | 0 <= i < |tail| && tail[i].Metric? ensures tail[i].key != "phase" {
        assert tail[i] == rest[i];
      }
    }
    LastSetUntouched(tail, "phase");
    LastSetAppend(head, tail, "phase");
  }

  /** A wrapper whose command ran and whose `main` then raised, with a
      signal URL, ends with the error signal and a final heartbeat in phase
      `exec`, the phase `spawn_and_stream` set. */
  lemma WrapperFailureHeartbeat(a: Adapter, env: Env, given: Option<RuntimeSettings>, o: Oracles,
                                n: nat, cmd: Streaming.Command, streamed: seq<Call>, post: seq<Call>)
    requires SettingsFor(a, env, given).Ok?
    requires var b := BodyOf(a, RunLaws.Loaded(a, env, given), o); b.end.Failed? && b.writerOpen
    requires Given(RunLaws.Loaded(a, env, given).signalUrl)
    requires o.calls == WrapperCalls(n, cmd, streamed, post)
    requires cmd.argv != [] && NoMetrics(streamed) && NoMetrics(post)
    ensures var posts := Expected(a, env, given, o).posts;
            && |posts| >= 2
            && Get(posts[|posts| - 2].payload, "phase") == Some(Str("error"))
            && Get(posts[|posts| - 1].payload, "phase") == Some(Str("exec"))
  {
    RunLaws.FailureSignals(a, env, given, o);
    WrapperExecPhase(n, cmd, streamed, post);
  }
}
