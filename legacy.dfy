/** The legacy single-file runtime (`adapter_runtime/base.py` of the runtime
    tree): its manifest decoding, its events writer and its heartbeat. The
    batch lifecycle built on them is `LegacyRun`.

    As in `Signals`, the heartbeat's thread is replaced by explicit calls:
    `Start` stands for the worker's first pass, which sends at once, and
    `Tick` for each later pass after an interval. */
module LegacyRuntime {
  import opened Common
  import opened Jsons
  import opened Io
  import opened Envelope
  import Signals
  import Runtime

  // ----- manifest -----

  /** The legacy `BatchConfig`: `tool` is kept as the manifest gives it,
      which need not be a string. */
  datatype LegacyConfig = LegacyConfig(tool: Json, toolVersion: string, parameters: Json, resources: seq<ResourceSpec>)

  /** One manifest item: every key is read with `.get`, so a missing `name`
      or `url` is `None` rather than "". */
  function LegacyResourceOf(item: Fields): (r: ResourceSpec)
    ensures "name" !in Keys(item) ==> r.name == Null
    ensures "url" !in Keys(item) ==> r.url == Null
    ensures "sha256" !in Keys(item) ==> r.sha256 == Null
    ensures "filename" !in Keys(item) ==> r.filename == Null
    ensures "extract" !in Keys(item) ==> !r.extract
  {
    ResourceSpec(GetJ(item, "name"), GetJ(item, "url"), GetJ(item, "sha256"), GetJ(item, "filename"),
                 Truthy(GetDefault(item, "extract", Bool(false))))
  }

  /** The two generations read an item alike when it names both `name` and
      `url`; when it lacks `name` the legacy spec holds `None` where the
      packaged one holds "". */
  lemma ResourceOfGenerations(item: Fields)
    ensures "name" in Keys(item) && "url" in Keys(item) ==> LegacyResourceOf(item) == ResourceOf(item)
    ensures "name" !in Keys(item) ==> LegacyResourceOf(item).name == Null && ResourceOf(item).name == Str("")
  {
    assert Truthy(GetDefault(item, "extract", Bool(false))) == Truthy(GetJ(item, "extract"));
  }

  const NoGet := "object has no attribute 'get'"
  const NotIterable := "resources is not iterable as a list of objects"

  predicate AllObjects(items: seq<Json>)
  {
    forall i :: 0 <= i < |items| ==> items[i].Obj?
  }

  /** One spec per item, in order. */
  function Specs(items: seq<Json>): (r: seq<ResourceSpec>)
    requires AllObjects(items)
    ensures |r| == |items|
    ensures forall i :: 0 <= i < |items| ==> r[i] == LegacyResourceOf(items[i].fields)
  {
    seq(|items|, i requires 0 <= i < |items| => LegacyResourceOf(items[i].fields))
  }

  /** The items of `doc.get("resources", []) or []`, or `None` when that
      is not a list. */
  function ResourceItems(fields: Fields): (r: Option<seq<Json>>)
    ensures "resources" !in Keys(fields) ==> r == Some([])
    ensures forall items :: Get(fields, "resources") == Some(Arr(items)) ==> r == Some(items)
  {
    var rs := Or(GetDefault(fields, "resources", Arr([])), Arr([]));
    if rs.Arr? then Some(rs.items) else None
  }

  /** `BatchConfig.from_manifest_doc(doc)` of the legacy runtime. A falsy
      document counts as `{}`; a truthy document that is not an object, a
      truthy `resources` that is not a list, or an item that is not an
      object makes it raise. `tool` is read as it stands and only
      `tool_version` goes through `str`, so a null version becomes "None". */
  function LegacyFromManifestDoc(doc: Json): (r: Result<LegacyConfig>)
    ensures !Truthy(doc) ==> r == Ok(LegacyConfig(Str(""), "", Obj([]), []))
    ensures Truthy(doc) && !doc.Obj? ==> r.Err?
    ensures doc.Obj? ==> (r.Ok? <==> ResourceItems(doc.fields).Some? && AllObjects(ResourceItems(doc.fields).value))
    ensures r.Ok? && doc.Obj? ==> r.value.tool == GetDefault(doc.fields, "tool", Str(""))
    ensures r.Ok? && doc.Obj? ==> r.value.toolVersion == PyStr(GetDefault(doc.fields, "tool_version", Str("")))
    ensures r.Ok? && doc.Obj? ==> r.value.parameters == Or(GetJ(doc.fields, "parameters"), Obj([]))
    ensures r.Ok? && doc.Obj? ==> r.value.resources == Specs(ResourceItems(doc.fields).value)
  {
    var d := Or(doc, Obj([]));
    assert !Truthy(doc) ==> d.fields == [];
    if !d.Obj? then Err(NoGet)
    else
      match ResourceItems(d.fields)
      case None => Err(NotIterable)
      case Some(items) =>
        if !AllObjects(items) then Err(NoGet)
        else
          Ok(LegacyConfig(GetDefault(d.fields, "tool", Str("")),
                          PyStr(GetDefault(d.fields, "tool_version", Str(""))),
                          Or(GetJ(d.fields, "parameters"), Obj([])),
                          Specs(items)))
  }

  /** `for r in (doc or {}).get("resources", []) or []: res.append(...)`,
      the loop of `from_manifest_doc`. */
  method DecodeManifest(doc: Json) returns (r: Result<LegacyConfig>)
    ensures r == LegacyFromManifestDoc(doc)
  {
    var d := Or(doc, Obj([]));
    if !d.Obj? {
      return Err(NoGet);
    }
    var params := Or(GetJ(d.fields, "parameters"), Obj([]));
    var rs := ResourceItems(d.fields);
    if rs.None? {
      return Err(NotIterable);
    }
    var items := rs.value;
    var res: seq<ResourceSpec> := [];
    var i := 0;
    while i < |items|
      invariant 0 <= i <= |items|
      invariant AllObjects(items[..i])
      invariant res == Specs(items[..i])
    {
      if !items[i].Obj? {
        return Err(NoGet);
      }
      assert items[..i + 1] == items[..i] + [items[i]];
      res := res + [LegacyResourceOf(items[i].fields)];
      i := i + 1;
    }
    assert items[..i] == items;
    return Ok(LegacyConfig(GetDefault(d.fields, "tool", Str("")), PyStr(GetDefault(d.fields, "tool_version", Str(""))),
                           params, res));
  }

  /** Each manifest item becomes exactly one spec, in manifest order, and
      an item that is not an object makes the decoding raise. */
  lemma LegacyManifestResources(fields: Fields, items: seq<Json>)
    requires Get(fields, "resources") == Some(Arr(items))
    ensures LegacyFromManifestDoc(Obj(fields)).Ok? <==> forall i :: 0 <= i < |items| ==> items[i].Obj?
    ensures LegacyFromManifestDoc(Obj(fields)).Ok? ==>
              |LegacyFromManifestDoc(Obj(fields)).value.resources| == |items|
              && forall i :: 0 <= i < |items| ==>
                   LegacyFromManifestDoc(Obj(fields)).value.resources[i] == LegacyResourceOf(items[i].fields)
  {
    assert ResourceItems(fields) == Some(items);
  }

  /** The configuration before the fallback: the manifest's when a manifest
      URL is set and the document reads and decodes; otherwise, the failure
      being printed as a warning, the one naming the adapter's tool. */
  function ManifestConfig(url: Option<string>, fetched: Result<Json>, tool: string, version: string): LegacyConfig
  {
    var fallback := LegacyConfig(Str(tool), version, Obj([]), []);
    if !Runtime.Given(url) || fetched.Err? then fallback
    else
      var decoded := LegacyFromManifestDoc(fetched.value);
      if decoded.Err? then fallback else decoded.value
  }

  /** `cfg.tool = cfg.tool or tool; cfg.tool_version = cfg.tool_version or
      tool_version` on that configuration. */
  function ResolvedConfig(url: Option<string>, fetched: Result<Json>, tool: string, version: string): (r: LegacyConfig)
    ensures !Runtime.Given(url) || fetched.Err? || LegacyFromManifestDoc(fetched.value).Err? ==>
              r == LegacyConfig(Str(tool), version, Obj([]), [])
    ensures Runtime.Given(url) && fetched.Ok? && LegacyFromManifestDoc(fetched.value).Ok? ==>
              var d := LegacyFromManifestDoc(fetched.value).value;
              && r.resources == d.resources && r.parameters == d.parameters
              && r.tool == (if Truthy(d.tool) then d.tool else Str(tool))
              && r.toolVersion == (if d.toolVersion != "" then d.toolVersion else version)
    ensures !Truthy(r.tool) ==> r.tool == Str(tool)
    ensures r.toolVersion == "" ==> version == ""
  {
    var cfg := ManifestConfig(url, fetched, tool, version);
    LegacyConfig(Or(cfg.tool, Str(tool)), if cfg.toolVersion != "" then cfg.toolVersion else version,
                 cfg.parameters, cfg.resources)
  }

  /** A manifest whose `tool_version` is null gives the version "None",
      which is truthy and so keeps the adapter's own version out; the
      packaged runtime reads the same manifest as version "". */
  lemma NullVersionGenerations(url: Option<string>, fields: Fields, tool: string, version: string)
    requires Runtime.Given(url)
    requires Get(fields, "tool_version") == Some(Null) && "resources" !in Keys(fields)
    ensures ResolvedConfig(url, Ok(Obj(fields)), tool, version).toolVersion == "None"
    ensures FromManifestDoc(Obj(fields)).Ok? && FromManifestDoc(Obj(fields)).value.toolVersion == ""
  {
    assert fields != [] by { assert Get(fields, "tool_version").Some?; }
    assert Or(Obj(fields), Obj([])) == Obj(fields);
    assert Or(GetDefault(fields, "resources", Arr([])), Arr([])) == Arr([]);
    assert LegacyFromManifestDoc(Obj(fields)).Ok?;
  }

  // ----- events file -----

  /** The writer's `ctx`. */
  datatype LegacyContext = LegacyContext(tool: Json, toolVersion: string, runId: string, batchId: string, digest: Option<string>)

  const LegacyEnvelopeKeys: seq<string> := ["tool", "tool_version", "run_id", "batch_id", "event_type", "timestamp", "payload"]

  /** The envelope `emit` writes: the context first, then the event, then
      `tool_image_digest` when it is set. */
  function LegacyEnvelope(c: LegacyContext, eventType: string, timestamp: string, payload: Json): (r: Fields)
    ensures Keys(r) == LegacyEnvelopeKeys + if Runtime.Given(c.digest) then ["tool_image_digest"] else []
    ensures Get(r, "tool") == Some(c.tool) && Get(r, "tool_version") == Some(Str(c.toolVersion))
    ensures Get(r, "event_type") == Some(Str(eventType)) && Get(r, "payload") == Some(payload)
    ensures Get(r, "tool_image_digest") == if Runtime.Given(c.digest) then Some(Str(c.digest.value)) else None
  {
    var head := LegacyHead(c, eventType, timestamp, payload);
    var tail := if Runtime.Given(c.digest) then [("tool_image_digest", Str(c.digest.value))] else [];
    KeysAppend(head, tail);
    LegacyHeadFields(c, eventType, timestamp, payload);
    DigestNotEnvelopeKey();
    GetAppend(head, tail, "tool");
    GetAppend(head, tail, "tool_version");
    GetAppend(head, tail, "event_type");
    GetAppend(head, tail, "payload");
    GetAppend(head, tail, "tool_image_digest");
    assert Get(tail, "tool_image_digest") == if Runtime.Given(c.digest) then Some(Str(c.digest.value)) else None;
    head + tail
  }

  /** The fields every legacy envelope has, in order. */
  function LegacyHead(c: LegacyContext, eventType: string, timestamp: string, payload: Json): Fields
  {
    [("tool", c.tool), ("tool_version", Str(c.toolVersion)), ("run_id", Str(c.runId)),
     ("batch_id", Str(c.batchId)), ("event_type", Str(eventType)), ("timestamp", Str(timestamp)),
     ("payload", payload)]
  }

  lemma LegacyHeadFields(c: LegacyContext, eventType: string, timestamp: string, payload: Json)
    ensures var h := LegacyHead(c, eventType, timestamp, payload);
            && Keys(h) == LegacyEnvelopeKeys
            && Get(h, "tool") == Some(c.tool) && Get(h, "tool_version") == Some(Str(c.toolVersion))
            && Get(h, "event_type") == Some(Str(eventType)) && Get(h, "payload") == Some(payload)
  {
    var h := LegacyHead(c, eventType, timestamp, payload);
    assert Keys(h) == LegacyEnvelopeKeys;
    HeadEventType(h);
    HeadPayload(h);
  }

  lemma HeadEventType(h: Fields)
    requires |h| == 7 && Keys(h) == LegacyEnvelopeKeys
    ensures Get(h, "event_type") == Some(h[4].1)
  {
    GetFirst(h, 4);
  }

  lemma HeadPayload(h: Fields)
    requires |h| == 7 && Keys(h) == LegacyEnvelopeKeys
    ensures Get(h, "payload") == Some(h[6].1)
  {
    GetFirst(h, 6);
  }

  lemma DigestNotEnvelopeKey()
    ensures "tool_image_digest" !in LegacyEnvelopeKeys
  {
    forall j | 0 <= j < |LegacyEnvelopeKeys| ensures |LegacyEnvelopeKeys[j]| < 17 { }
  }

  /** `EventWriter` of the legacy runtime: each `emit` appends one envelope
      line and counts it. */
  class LegacyEventWriter {
    const context: LegacyContext
    var count: nat
    var envelopes: seq<Fields>
    var closed: bool

    predicate Valid()
      reads this
    {
      count == |envelopes|
    }

    /** The text written so far, before compression. */
    function Content(): string
      reads this
    {
      Serialize(envelopes)
    }

    constructor(context: LegacyContext)
      ensures Valid() && !closed
      ensures this.context == context && count == 0 && envelopes == []
    {
      this.context := context;
      count := 0;
      envelopes := [];
      closed := false;
    }

    /** `emit(event_type, payload)`, at the time the clock gives. */
    method Emit(eventType: string, payload: Json, timestamp: string)
      requires Valid() && !closed
      modifies this
      ensures Valid() && !closed
      ensures count == old(count) + 1
      ensures envelopes == old(envelopes) + [LegacyEnvelope(context, eventType, timestamp, payload)]
      ensures Content() == old(Content()) + Line(LegacyEnvelope(context, eventType, timestamp, payload))
    {
      var envelope := LegacyEnvelope(context, eventType, timestamp, payload);
      SerializeAppend(envelopes, envelope);
      envelopes := envelopes + [envelope];
      count := count + 1;
    }

    method Close()
      requires Valid()
      modifies this
      ensures Valid() && closed
      ensures count == old(count) && envelopes == old(envelopes)
    {
      closed := true;
    }
  }

  // ----- heartbeat -----

  /** `max(5, interval_s)`. */
  function LegacyInterval(intervalS: int): (r: int)
    ensures r >= 5 && r >= intervalS
    ensures r == 5 || r == intervalS
  {
    if intervalS < 5 then 5 else intervalS
  }

  /** The two generations agree on every interval but 0, which the legacy
      runtime raises to 5 and the packaged one reads as "unset", 30. */
  lemma IntervalGenerations(intervalS: int)
    ensures intervalS != 0 ==> LegacyInterval(intervalS) == Signals.IntervalFor(intervalS)
    ensures LegacyInterval(0) == 5 && Signals.IntervalFor(0) == 30
  {
  }

  const LegacyInitialMetrics: Fields := [("processed_targets", Int(0)), ("emitted_docs", Int(0)), ("phase", Str("start"))]

  /** `p = dict(base); p.update({"kind": "progress@v1", **metrics, "at": at})`. */
  function LegacyProgressPayload(base: Fields, metrics: Fields, at: string): Fields
  {
    Merge(base, Put(Merge([("kind", Str("progress@v1"))], metrics), "at", Str(at)))
  }

  /** A legacy progress payload holds the base and the metrics; `at` wins
      over everything, the metrics win over `kind`, and `kind` and the
      metrics win over the base. */
  lemma LegacyProgressPayloadGet(base: Fields, metrics: Fields, at: string, k: string)
    requires UniqueKeys(metrics)
    ensures Get(LegacyProgressPayload(base, metrics, at), k) ==
              if k == "at" then Some(Str(at))
              else if k in Keys(metrics) then Get(metrics, k)
              else if k == "kind" then Some(Str("progress@v1"))
              else Get(base, k)
  {
    var kind: Fields := [("kind", Str("progress@v1"))];
    var m := Merge(kind, metrics);
    var u := Put(m, "at", Str(at));
    MergeUnique(kind, metrics);
    PutUnique(m, "at", Str(at));
    GetMerge(base, u, k);
    GetMerge(kind, metrics, k);
    KeysMerge(kind, metrics, k);
    assert k in Keys(u) <==> k == "at" || k in Keys(m) by {
      assert Get(u, k).Some? <==> k in Keys(u);
    }
  }

  /** Metrics that carry their own `kind` override it in a legacy heartbeat,
      while the packaged heartbeat always says `progress@v1`. */
  lemma KindGenerations(base: Fields, metrics: Fields, at: string, kind: Json)
    requires UniqueKeys(metrics) && Get(metrics, "kind") == Some(kind)
    ensures Get(LegacyProgressPayload(base, metrics, at), "kind") == Some(kind)
    ensures Get(Signals.ProgressPayload(base, metrics, at), "kind") == Some(Str("progress@v1"))
  {
    LegacyProgressPayloadGet(base, metrics, at, "kind");
    Signals.ProgressPayloadGet(base, metrics, at, "kind");
  }

  /** `Heartbeat` of the legacy runtime. `workers` counts the threads
      `start()` has started, and `stopped` is the stop event. */
  class LegacyHeartbeat {
    const url: Option<string>
    const basePayload: Fields
    const intervalS: int
    const outbox: Outbox
    var metrics: Fields
    var workers: nat
    var stopped: bool

    predicate Valid()
      reads this
    {
      UniqueKeys(metrics)
    }

    /** The payload a send at time `at` would post now. */
    function Progress(at: string): Fields
      reads this
    {
      LegacyProgressPayload(basePayload, metrics, at)
    }

    constructor(url: Option<string>, basePayload: Fields, intervalS: int, outbox: Outbox)
      ensures Valid()
      ensures this.url == url && this.basePayload == basePayload && this.outbox == outbox
      ensures this.intervalS == LegacyInterval(intervalS)
      ensures metrics == LegacyInitialMetrics && workers == 0 && !stopped
    {
      this.url := url;
      this.basePayload := basePayload;
      this.intervalS := LegacyInterval(intervalS);
      this.outbox := outbox;
      metrics := LegacyInitialMetrics;
      workers := 0;
      stopped := false;
    }

    /** `start()`: a new worker, with or without a URL and whether or not
        one runs already. Its first pass sends before it waits, unless the
        stop event is already set. */
    method Start(at: string)
      modifies this, outbox
      ensures workers == old(workers) + 1 && metrics == old(metrics) && stopped == old(stopped)
      ensures outbox.posts == old(outbox.posts) + if stopped then [] else PostsTo(url, old(Progress(at)))
    {
      workers := workers + 1;
      if !stopped {
        Send(at);
      }
    }

    /** `_send()`: `_post` does nothing without a URL. */
    method Send(at: string)
      modifies outbox
      ensures outbox.posts == old(outbox.posts) + PostsTo(url, Progress(at))
    {
      outbox.PostJson(url, Progress(at));
    }

    /** A later pass of a worker, after its wait: it sends while the stop
        event is not set. */
    method Tick(at: string)
      modifies outbox
      ensures workers > 0 && !stopped ==> outbox.posts == old(outbox.posts) + PostsTo(url, Progress(at))
      ensures !(workers > 0 && !stopped) ==> outbox.posts == old(outbox.posts)
    {
      if workers > 0 && !stopped {
        Send(at);
      }
    }

    /** `stop()`: sets the stop event and sends once more, which posts
        only when there is a URL. */
    method Stop(at: string)
      modifies this, outbox
      ensures stopped && workers == old(workers) && metrics == old(metrics)
      ensures outbox.posts == old(outbox.posts) + PostsTo(url, old(Progress(at)))
    {
      stopped := true;
      Send(at);
    }

    /** `hb.metrics[k] = v`. */
    method SetMetric(k: string, v: Json)
      requires Valid()
      modifies this
      ensures Valid()
      ensures metrics == Put(old(metrics), k, v)
      ensures workers == old(workers) && stopped == old(stopped)
    {
      PutUnique(metrics, k, v);
      metrics := Put(metrics, k, v);
    }

    /** `hb.metrics.update(gs)`. */
    method UpdateMetrics(gs: Fields)
      requires Valid()
      modifies this
      ensures Valid()
      ensures metrics == Merge(old(metrics), gs)
      ensures workers == old(workers) && stopped == old(stopped)
    {
      MergeUnique(metrics, gs);
      metrics := Merge(metrics, gs);
    }
  }
}
