/** Progress and result signals of the packaged runtime: the `Heartbeat`
    that reports `progress@v1` while a batch runs, and the one-shot
    `results_ready@v1` and error signals.

    The heartbeat's background thread is replaced by explicit calls: `Tick`
    is one wake-up of the worker after a full interval. Each timestamp is
    the clock reading the caller passes in. */
module Signals {
  import opened Common
  import opened Jsons
  import opened Io

  /** `max(5, int(interval_s or 30))`. */
  function IntervalFor(intervalS: int): (r: int)
    ensures r >= 5
    ensures intervalS == 0 ==> r == 30
    ensures intervalS >= 5 ==> r == intervalS
    ensures intervalS != 0 && intervalS < 5 ==> r == 5
  {
    var v := if intervalS == 0 then 30 else intervalS;
    if v < 5 then 5 else v
  }

  const InitialMetrics: Fields := [("phase", Str("init")), ("processed_targets", Int(0)), ("emitted_docs", Int(0))]

  /** `{**base, **metrics, "kind": "progress@v1", "at": at}`. */
  function ProgressPayload(base: Fields, metrics: Fields, at: string): Fields
  {
    Put(Put(Merge(base, metrics), "kind", Str("progress@v1")), "at", Str(at))
  }

  /** A progress payload holds the base and the metrics, the metrics win over
      the base, and `kind` and `at` win over both. */
  lemma ProgressPayloadGet(base: Fields, metrics: Fields, at: string, k: string)
    requires UniqueKeys(metrics)
    ensures Get(ProgressPayload(base, metrics, at), k) ==
              if k == "at" then Some(Str(at))
              else if k == "kind" then Some(Str("progress@v1"))
              else if k in Keys(metrics) then Get(metrics, k)
              else Get(base, k)
  {
    GetMerge(base, metrics, k);
  }

  /** `{**payload, "kind": "results_ready@v1"}`. */
  function ResultsReadyPayload(payload: Fields): (r: Fields)
    ensures Get(r, "kind") == Some(Str("results_ready@v1"))
    ensures forall k :: k != "kind" ==> Get(r, k) == Get(payload, k)
    ensures Keys(payload) <= Keys(r)
  {
    Put(payload, "kind", Str("results_ready@v1"))
  }

  /** `{**base, "kind": "progress@v1", "phase": "error", "error": error, "at": at}`. */
  function ErrorPayload(base: Fields, error: string, at: string): (r: Fields)
    ensures Get(r, "kind") == Some(Str("progress@v1"))
    ensures Get(r, "phase") == Some(Str("error"))
    ensures Get(r, "error") == Some(Str(error))
    ensures Get(r, "at") == Some(Str(at))
    ensures forall k :: k != "kind" && k != "phase" && k != "error" && k != "at" ==> Get(r, k) == Get(base, k)
  {
    var withKind := Put(base, "kind", Str("progress@v1"));
    var withPhase := Put(withKind, "phase", Str("error"));
    var withError := Put(withPhase, "error", Str(error));
    var r := Put(withError, "at", Str(at));
    assert Get(withError, "kind") == Get(withKind, "kind");
    assert Get(r, "kind") == Get(withError, "kind");
    assert Get(r, "phase") == Get(withPhase, "phase");
    r
  }

  /** `emit_results_ready(signal_url, payload)`. */
  method EmitResultsReady(outbox: Outbox, url: Option<string>, payload: Fields)
    modifies outbox
    ensures outbox.posts == old(outbox.posts) + PostsTo(url, ResultsReadyPayload(payload))
  {
    outbox.PostJson(url, ResultsReadyPayload(payload));
  }

  /** `emit_error(signal_url, base, error)`: nothing without a URL. */
  method EmitError(outbox: Outbox, url: Option<string>, base: Fields, error: string, at: string)
    modifies outbox
    ensures outbox.posts == old(outbox.posts) + PostsTo(url, ErrorPayload(base, error, at))
  {
    if url.None? || url.value == "" {
      return;
    }
    outbox.PostJson(url, ErrorPayload(base, error, at));
  }

  /** `Heartbeat`: `started` stands for the worker thread existing and
      `stopped` for the stop event being set. */
  class Heartbeat {
    const url: Option<string>
    const basePayload: Fields
    const intervalS: int
    const outbox: Outbox
    var metrics: Fields
    var started: bool
    var stopped: bool

    predicate Valid()
      reads this
    {
      UniqueKeys(metrics)
    }

    /** The payload a send at time `at` would post now. */
    function Progress(at: string): Fields
      reads this
    {
      ProgressPayload(basePayload, metrics, at)
    }

    constructor(url: Option<string>, basePayload: Fields, intervalS: int, outbox: Outbox)
      ensures Valid()
      ensures this.url == url && this.basePayload == basePayload && this.outbox == outbox
      ensures this.intervalS == IntervalFor(intervalS)
      ensures metrics == InitialMetrics && !started && !stopped
    {
      this.url := url;
      this.basePayload := basePayload;
      this.intervalS := IntervalFor(intervalS);
      this.outbox := outbox;
      metrics := InitialMetrics;
      started := false;
      stopped := false;
    }

    /** `start()`: starts the worker only when there is a URL and no worker
        yet. Nothing is sent at start: the worker first waits an interval. */
    method Start()
      modifies this
      ensures started == (old(started) || (url.Some? && url.value != ""))
      ensures metrics == old(metrics) && stopped == old(stopped)
    {
      if url.None? || url.value == "" || started {
        return;
      }
      started := true;
    }

    /** `send()`. */
    method Send(at: string)
      modifies outbox
      ensures outbox.posts == old(outbox.posts) + PostsTo(url, Progress(at))
    {
      if url.None? || url.value == "" {
        return;
      }
      outbox.PostJson(url, Progress(at));
    }

    /** One wake-up of the worker after a full interval: it sends only while
        it runs and the stop event is not set. */
    method Tick(at: string)
      modifies outbox
      ensures started && !stopped ==> outbox.posts == old(outbox.posts) + PostsTo(url, Progress(at))
      ensures !(started && !stopped) ==> outbox.posts == old(outbox.posts)
    {
      if started && !stopped {
        Send(at);
      }
    }

    /** `stop()`: sets the stop event and sends one final heartbeat when there
        is a URL. */
    method Stop(at: string)
      modifies this, outbox
      ensures stopped
      ensures started == old(started) && metrics == old(metrics)
      ensures outbox.posts == old(outbox.posts) + PostsTo(url, old(Progress(at)))
    {
      stopped := true;
      if url.Some? && url.value != "" {
        Send(at);
      }
    }

    /** `hb.metrics[k] = v`. */
    method SetMetric(k: string, v: Json)
      requires Valid()
      modifies this
      ensures Valid()
      ensures metrics == Put(old(metrics), k, v)
      ensures started == old(started) && stopped == old(stopped)
    {
      PutUnique(metrics, k, v);
      metrics := Put(metrics, k, v);
    }

    /** `hb.metrics.update(gs)`. */
    method UpdateMetrics(gs: Fields)
      requires Valid()
      modifies this
      ensures Valid()
      ensures metrics == Merge(old(metrics), gs)
      ensures started == old(started) && stopped == old(stopped)
    {
      MergeUnique(metrics, gs);
      metrics := Merge(metrics, gs);
    }
  }
}
