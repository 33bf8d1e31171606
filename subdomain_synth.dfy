/** The first-generation subdomain synthesiser: a stand-alone batch job
    that reads root domains, writes one `dns.domain` envelope per root and
    prefix into its events blob, reports progress every 500 roots,
    uploads the blob and announces the results.

    What the job learns from outside is a `World`: the outcome of the
    inputs download, what `json.loads` makes of the prefixes text, the
    outcome of the upload, the SHA-256 digest of the compressed blob and
    the clock reading. The blob is kept as the lines written into the
    gzip stream, before compression. */
module SubdomainSynth {
  import opened Common
  import opened Text
  import opened Jsons
  import opened Io
  import opened Utils

  const Tool := "subdomain-synth"
  const ToolVersion := "0.1.0"
  /** A progress signal follows every root whose 1-based position is a
      multiple of this, and the last root. */
  const ProgressEvery := 500
  const DefaultPrefixes: seq<Json> := [Str("test1"), Str("test2"), Str("test")]

  /** The module-level settings: `os.getenv(name) or ""` for the four
      identifiers, `os.getenv(name)` for the three URLs. */
  datatype Settings = Settings(tenantId: string, runId: string, batchId: string, ocsPrefix: string,
                               inputsUrl: Option<string>, signalUrl: Option<string>, outputUrl: Option<string>)

  function Getenv(env: Env, name: string): Option<string>
  {
    EnvStr(env, name, None)
  }

  function SettingsOf(env: Env): Settings
  {
    Settings(Coalesce(Getenv(env, "TENANT_ID"), ""), Coalesce(Getenv(env, "RUN_ID"), ""),
             Coalesce(Getenv(env, "BATCH_ID"), ""), Coalesce(Getenv(env, "OCS_PREFIX"), ""),
             Getenv(env, "INPUTS_URL"), Getenv(env, "SIGNAL_URL"), Getenv(env, "OUTPUT_URL"))
  }

  /** The answers of the outside world to one run. */
  datatype World = World(
    inputs: Result<string>,      // `requests.get(INPUTS_URL)` after `raise_for_status()`
    parses: map<string, Json>,   // `json.loads` of the texts it accepts
    upload: Result<()>,          // `requests.put(OUTPUT_URL, ...)` after `raise_for_status()`
    sha: string,                 // `hashlib.sha256(blob).hexdigest()`
    now: string)                 // `iso_now()`

  /** A text is unset or empty: Python's `not text`. */
  predicate Unset(text: Option<string>)
  {
    text.None? || text.value == ""
  }

  /** The inputs text: a missing or empty `INPUTS_URL` makes `requests.get`
      raise; otherwise the download's own outcome. */
  function Download(s: Settings, world: World): (r: Result<string>)
    ensures Unset(s.inputsUrl) ==> r.Err?
    ensures !Unset(s.inputsUrl) ==> r == world.inputs
  {
    if Unset(s.inputsUrl) then Err("Invalid URL: no scheme supplied") else world.inputs
  }

  // ----- prefixes -----

  /** The prefixes: the list `PREFIXES_JSON` parses to when it is a
      non-empty list; the default for an unset or empty variable, for text
      that does not parse, for any other value and for an empty list. */
  function Prefixes(text: Option<string>, parses: map<string, Json>): (r: seq<Json>)
    ensures r != []
    ensures !Unset(text) && text.value in parses && parses[text.value].Arr? && parses[text.value].items != []
            ==> r == parses[text.value].items
    ensures Unset(text) || text.value !in parses || !parses[text.value].Arr? || parses[text.value].items == []
            ==> r == DefaultPrefixes
  {
    if Unset(text) || text.value !in parses then DefaultPrefixes
    else
      var v := parses[text.value];
      if v.Arr? && v.items != [] then v.items else DefaultPrefixes
  }

  // ----- signals -----

  /** The `progress@v1` payload after `processed` roots and `emitted`
      envelopes. */
  function ProgressSignal(s: Settings, processed: nat, emitted: nat, phase: string, at: string): Fields
  {
    [("kind", Str("progress@v1")),
     ("tenant_id", Str(s.tenantId)), ("run_id", Str(s.runId)), ("batch_id", Str(s.batchId)),
     ("tool", Str(Tool)), ("tool_version", Str(ToolVersion)),
     ("processed_targets", Int(processed)), ("emitted_docs", Int(emitted)),
     ("phase", Str(phase)), ("at", Str(at))]
  }

  /** The blob's name under the run's object prefix. */
  function EventsBlob(s: Settings): string
  {
    s.ocsPrefix + "events.jsonl.gz"
  }

  /** The `results_ready@v1` payload for `docCount` envelopes. */
  function ResultsSignal(s: Settings, docCount: nat, sha: string, at: string): Fields
  {
    [("kind", Str("results_ready@v1")),
     ("tenant_id", Str(s.tenantId)), ("run_id", Str(s.runId)), ("batch_id", Str(s.batchId)),
     ("tool", Str(Tool)), ("tool_version", Str(ToolVersion)),
     ("doc_count", Int(docCount)), ("events_blob", Str(EventsBlob(s))),
     ("events_sha256", Str(sha)), ("created_at", Str(at))]
  }

  /** `post_signal(payload)`: nothing without `SIGNAL_URL`; otherwise one
      attempt whose failure is swallowed. */
  method PostSignal(outbox: Outbox, s: Settings, payload: Fields)
    modifies outbox
    ensures outbox.posts == old(outbox.posts) + PostsTo(s.signalUrl, payload)
  {
    if Unset(s.signalUrl) {
      return;
    }
    outbox.PostJson(s.signalUrl, payload);
  }

  /** The progress posts after the first `i` roots of `total`. */
  function ProgressPosts(s: Settings, i: nat, total: nat, prefixCount: nat, at: string): (r: seq<Post>)
    decreases i
  {
    if i == 0 then []
    else
      ProgressPosts(s, i - 1, total, prefixCount, at)
      + (if i % ProgressEvery == 0 || i == total
         then PostsTo(s.signalUrl, ProgressSignal(s, i, i * prefixCount, "generate", at))
         else [])
  }

  // ----- envelopes -----

  /** The payload of one synthesised name. */
  function DomainPayload(prefix: Json, root: string): Fields
  {
    [("name", Str(Lower(PyStr(prefix) + "." + root))),
     ("root", Str(Lower(root))),
     ("kind", Str("subdomain")),
     ("parent", Str(Lower(root)))]
  }

  /** The `envelope@v1` document around a `dns.domain` payload. */
  function Envelope(s: Settings, payload: Fields, at: string): Fields
  {
    [("tool", Str(Tool)), ("tool_version", Str(ToolVersion)),
     ("run_id", Str(s.runId)), ("batch_id", Str(s.batchId)),
     ("event_type", Str("dns.domain")), ("timestamp", Str(at)),
     ("payload", Obj(payload))]
  }

  /** `json.dumps(envelope) + "\n"`. */
  function EnvelopeLine(s: Settings, prefix: Json, root: string, at: string): string
  {
    Dumps(Obj(Envelope(s, DomainPayload(prefix, root), at)), Spaced) + "\n"
  }

  /** The lines of one root, one per prefix, in prefix order. */
  function RootLines(s: Settings, prefixes: seq<Json>, root: string, at: string): (r: seq<string>)
    ensures |r| == |prefixes|
    ensures forall j :: 0 <= j < |r| ==> r[j] == EnvelopeLine(s, prefixes[j], root, at)
  {
    seq(|prefixes|, j requires 0 <= j < |prefixes| => EnvelopeLine(s, prefixes[j], root, at))
  }

  /** The lines of the blob: root by root, each root's lines in prefix order. */
  function Lines(s: Settings, roots: seq<string>, prefixes: seq<Json>, at: string): (r: seq<string>)
    ensures |r| == |roots| * |prefixes|
    decreases |roots|
  {
    if roots == [] then []
    else
      var init := roots[..|roots| - 1];
      var r := Lines(s, init, prefixes, at) + RootLines(s, prefixes, roots[|roots| - 1], at);
      assert |r| == |init| * |prefixes| + |prefixes| == (|init| + 1) * |prefixes|;
      r
  }

  // ----- the run -----

  /** What a run ends with: its exit (an exception or the return code of
      `main`), the lines written into the blob, and the posts it
      attempted. */
  datatype Outcome = Outcome(exit: Result<int>, blob: seq<string>, posts: seq<Post>)

  /** The run as the job defines it. */
  function Expected(env: Env, world: World): Outcome
  {
    var s := SettingsOf(env);
    var text := Download(s, world);
    if text.Err? then Outcome(Err(text.error), [], [])
    else
      var roots := NonBlankLines(text.value);
      var prefixes := Prefixes(Getenv(env, "PREFIXES_JSON"), world.parses);
      var generated := Generated(s, roots, prefixes, world.now);
      if !Unset(s.outputUrl) && world.upload.Err? then Outcome(Err(world.upload.error), generated.blob, generated.posts)
      else
        Outcome(Ok(0), generated.blob,
                generated.posts + PostsTo(s.signalUrl, ResultsSignal(s, |roots| * |prefixes|, world.sha, world.now)))
  }

  /** The start signal, the blob and the progress signals of the
      generation step. */
  function Generated(s: Settings, roots: seq<string>, prefixes: seq<Json>, at: string): Outcome
  {
    Outcome(Ok(0), Lines(s, roots, prefixes, at),
            PostsTo(s.signalUrl, ProgressSignal(s, 0, 0, "start", at))
            + ProgressPosts(s, |roots|, |roots|, |prefixes|, at))
  }

  /** `main()`. */
  method Run(env: Env, world: World, outbox: Outbox) returns (exit: Result<int>, blob: seq<string>)
    modifies outbox
    ensures var e := Expected(env, world);
            exit == e.exit && blob == e.blob && outbox.posts == old(outbox.posts) + e.posts
  {
    var s := SettingsOf(env);
    var text := Download(s, world);
    if text.Err? {
      return Err(text.error), [];
    }
    var roots := NonBlankLines(text.value);
    var prefixes := Prefixes(Getenv(env, "PREFIXES_JSON"), world.parses);
    var emitted;
    blob, emitted := Generate(outbox, s, roots, prefixes, world.now);
    if !Unset(s.outputUrl) && world.upload.Err? {
      return Err(world.upload.error), blob;
    }
    PostSignal(outbox, s, ResultsSignal(s, emitted, world.sha, world.now));
    exit := Ok(0);
  }

  /** The start signal and the generation loop of `main`. */
  method Generate(outbox: Outbox, s: Settings, roots: seq<string>, prefixes: seq<Json>, now: string)
    returns (blob: seq<string>, emitted: nat)
    modifies outbox
    ensures var g := Generated(s, roots, prefixes, now);
            blob == g.blob && outbox.posts == old(outbox.posts) + g.posts
    ensures emitted == |roots| * |prefixes|
  {
    PostSignal(outbox, s, ProgressSignal(s, 0, 0, "start", now));
    blob, emitted := GenerateRoots(outbox, s, roots, prefixes, now, outbox.posts);
    AppendAssoc(old(outbox.posts), PostsTo(s.signalUrl, ProgressSignal(s, 0, 0, "start", now)),
                ProgressPosts(s, |roots|, |roots|, |prefixes|, now));
  }

  /** `for i, root in enumerate(roots, 1)`: each root's lines, then the
      progress check. */
  method GenerateRoots(outbox: Outbox, s: Settings, roots: seq<string>, prefixes: seq<Json>, now: string,
                       ghost earlier: seq<Post>)
    returns (blob: seq<string>, emitted: nat)
    requires outbox.posts == earlier
    modifies outbox
    ensures blob == Lines(s, roots, prefixes, now) && emitted == |blob|
    ensures outbox.posts == earlier + ProgressPosts(s, |roots|, |roots|, |prefixes|, now)
  {
    var total := |roots|;
    blob := [];
    emitted := 0;
    var i := 0;
    while i < total
      invariant 0 <= i <= total
      invariant blob == Lines(s, roots[..i], prefixes, now)
      invariant emitted == |blob|
      invariant outbox.posts == earlier + ProgressPosts(s, i, total, |prefixes|, now)
    {
      var written, count := EmitRoot(s, prefixes, roots[i], now);
      LinesStep(s, roots, i, prefixes, now);
      blob := blob + written;
      emitted := emitted + count;
      i := i + 1;
      ReportProgress(outbox, s, i, total, |prefixes|, emitted, now, earlier);
    }
    assert roots[..i] == roots;
  }

  /** The progress check after root `i`: a signal when `i` is a multiple
      of 500 or the last position. */
  method ReportProgress(outbox: Outbox, s: Settings, i: nat, total: nat, prefixCount: nat, emitted: nat, now: string,
                        ghost earlier: seq<Post>)
    requires 0 < i && emitted == i * prefixCount
    requires outbox.posts == earlier + ProgressPosts(s, i - 1, total, prefixCount, now)
    modifies outbox
    ensures outbox.posts == earlier + ProgressPosts(s, i, total, prefixCount, now)
  {
    if i % ProgressEvery == 0 || i == total {
      PostSignal(outbox, s, ProgressSignal(s, i, emitted, "generate", now));
      AppendAssoc(earlier, ProgressPosts(s, i - 1, total, prefixCount, now),
                  PostsTo(s.signalUrl, ProgressSignal(s, i, emitted, "generate", now)));
    } else {
      assert ProgressPosts(s, i, total, prefixCount, now) == ProgressPosts(s, i - 1, total, prefixCount, now) + [];
    }
  }

  /** The inner loop of `main` for one root: one line per prefix. */
  method EmitRoot(s: Settings, prefixes: seq<Json>, root: string, now: string) returns (written: seq<string>, count: nat)
    ensures written == RootLines(s, prefixes, root, now)
    ensures count == |prefixes|
  {
    written := [];
    count := 0;
    var j := 0;
    while j < |prefixes|
      invariant 0 <= j <= |prefixes|
      invariant written == RootLines(s, prefixes[..j], root, now)
      invariant count == j
    {
      written := written + [EnvelopeLine(s, prefixes[j], root, now)];
      count := count + 1;
      assert prefixes[..j + 1][..j] == prefixes[..j];
      j := j + 1;
    }
    assert prefixes[..j] == prefixes;
  }

  lemma LinesStep(s: Settings, roots: seq<string>, i: nat, prefixes: seq<Json>, at: string)
    requires i < |roots|
    ensures Lines(s, roots[..i + 1], prefixes, at) == Lines(s, roots[..i], prefixes, at) + RootLines(s, prefixes, roots[i], at)
  {
    assert roots[..i + 1][..i] == roots[..i];
  }

  // ----- what the blob holds -----

  lemma {:induction false} LinesAppend(s: Settings, a: seq<string>, b: seq<string>, prefixes: seq<Json>, at: string)
    ensures Lines(s, a + b, prefixes, at) == Lines(s, a, prefixes, at) + Lines(s, b, prefixes, at)
    decreases |b|
  {
    if b == [] {
      assert a + b == a;
    } else {
      var init := b[..|b| - 1];
      assert (a + b)[..|a + b| - 1] == a + init;
      LinesAppend(s, a, init, prefixes, at);
      AppendAssoc(Lines(s, a, prefixes, at), Lines(s, init, prefixes, at), RootLines(s, prefixes, b[|b| - 1], at));
    }
  }

  /** The blob runs root by root: the `i`-th root's lines, in prefix
      order, come after the `i * |prefixes|` lines of the roots before it
      and before those of the roots after it. */
  lemma LinesOrder(s: Settings, roots: seq<string>, prefixes: seq<Json>, at: string, i: nat)
    requires i < |roots|
    ensures Lines(s, roots, prefixes, at)
            == Lines(s, roots[..i], prefixes, at) + RootLines(s, prefixes, roots[i], at) + Lines(s, roots[i + 1..], prefixes, at)
    ensures |Lines(s, roots[..i], prefixes, at)| == i * |prefixes|
  {
    assert roots == roots[..i] + [roots[i]] + roots[i + 1..];
    LinesAppend(s, roots[..i] + [roots[i]], roots[i + 1..], prefixes, at);
    LinesAppend(s, roots[..i], [roots[i]], prefixes, at);
    assert [roots[i]][..0] == [];
  }

  /** The synthesised name is the lower-cased prefix, a dot and the
      parent; root and parent are the lower-cased root. */
  lemma DomainPayloadFields(prefix: Json, root: string)
    ensures var fs := DomainPayload(prefix, root);
            && Get(fs, "name") == Some(Str(Lower(PyStr(prefix)) + "." + Lower(root)))
            && Get(fs, "root") == Some(Str(Lower(root)))
            && Get(fs, "kind") == Some(Str("subdomain"))
            && Get(fs, "parent") == Some(Str(Lower(root)))
  {
    var fs := DomainPayload(prefix, root);
    LowerAppend(PyStr(prefix) + ".", root);
    LowerAppend(PyStr(prefix), ".");
    assert Lower(".") == ".";
    assert fs[1].0 != fs[0].0 by { assert fs[1].0[0] != fs[0].0[0]; }
    forall j | 0 <= j < 2 ensures fs[j].0 != fs[2].0 {
      assert fs[j].0[0] != 'k';
    }
    forall j | 0 <= j < 3 ensures fs[j].0 != fs[3].0 {
      assert |fs[j].0| != 6;
    }
    GetFirst(fs, 1);
    GetFirst(fs, 2);
    GetFirst(fs, 3);
  }

  /** Every envelope is a `dns.domain` event of this tool, stamped with
      the run and the batch, around its payload. */
  lemma EnvelopeFields(s: Settings, payload: Fields, at: string)
    ensures var fs := Envelope(s, payload, at);
            && Get(fs, "tool") == Some(Str(Tool)) && Get(fs, "tool_version") == Some(Str(ToolVersion))
            && Get(fs, "run_id") == Some(Str(s.runId)) && Get(fs, "batch_id") == Some(Str(s.batchId))
            && Get(fs, "event_type") == Some(Str("dns.domain")) && Get(fs, "timestamp") == Some(Str(at))
            && Get(fs, "payload") == Some(Obj(payload))
  {
    var fs := Envelope(s, payload, at);
    forall j | 0 <= j < 1 ensures fs[j].0 != fs[1].0 { assert |fs[j].0| != 12; }
    forall j | 0 <= j < 2 ensures fs[j].0 != fs[2].0 { assert |fs[j].0| != 6; }
    forall j | 0 <= j < 3 ensures fs[j].0 != fs[3].0 { assert |fs[j].0| != 8; }
    forall j | 0 <= j < 4 ensures fs[j].0 != fs[4].0 { assert |fs[j].0| != 10; }
    forall j | 0 <= j < 5 ensures fs[j].0 != fs[5].0 { assert |fs[j].0| != 9; }
    forall j | 0 <= j < 6 ensures fs[j].0 != fs[6].0 { assert |fs[j].0| != 7; }
    GetFirst(fs, 1);
    GetFirst(fs, 2);
    GetFirst(fs, 3);
    GetFirst(fs, 4);
    GetFirst(fs, 5);
    GetFirst(fs, 6);
  }

  // ----- signals -----

  /** The start signal reports phase "start" with nothing processed. */
  lemma StartSignalFields(s: Settings, at: string)
    ensures var fs := ProgressSignal(s, 0, 0, "start", at);
            && Get(fs, "kind") == Some(Str("progress@v1")) && Get(fs, "phase") == Some(Str("start"))
            && Get(fs, "processed_targets") == Some(Int(0)) && Get(fs, "emitted_docs") == Some(Int(0))
  {
    ProgressSignalFields(s, 0, 0, "start", at);
  }

  lemma ProgressSignalFields(s: Settings, processed: nat, emitted: nat, phase: string, at: string)
    ensures var fs := ProgressSignal(s, processed, emitted, phase, at);
            && Get(fs, "kind") == Some(Str("progress@v1")) && Get(fs, "phase") == Some(Str(phase))
            && Get(fs, "processed_targets") == Some(Int(processed)) && Get(fs, "emitted_docs") == Some(Int(emitted))
  {
    var fs := ProgressSignal(s, processed, emitted, phase, at);
    forall j | 0 <= j < 6 ensures fs[j].0 != fs[6].0 {
      assert |fs[j].0| != 17;
    }
    forall j | 0 <= j < 7 ensures fs[j].0 != fs[7].0 {
      assert |fs[j].0| != 12 || fs[j].0[0] != 'e';
    }
    forall j | 0 <= j < 8 ensures fs[j].0 != fs[8].0 {
      assert |fs[j].0| != 5;
    }
    GetFirst(fs, 6);
    GetFirst(fs, 7);
    GetFirst(fs, 8);
  }

  /** `results_ready` counts the envelopes and names the blob under the
      run's object prefix. */
  lemma ResultsSignalFields(s: Settings, docCount: nat, sha: string, at: string)
    ensures var fs := ResultsSignal(s, docCount, sha, at);
            && Get(fs, "kind") == Some(Str("results_ready@v1"))
            && Get(fs, "doc_count") == Some(Int(docCount))
            && Get(fs, "events_blob") == Some(Str(s.ocsPrefix + "events.jsonl.gz"))
            && Get(fs, "events_sha256") == Some(Str(sha))
  {
    var fs := ResultsSignal(s, docCount, sha, at);
    forall j | 0 <= j < 6 ensures fs[j].0 != fs[6].0 {
      assert |fs[j].0| != 9 || fs[j].0[0] != 'd';
    }
    forall j | 0 <= j < 7 ensures fs[j].0 != fs[7].0 {
      assert |fs[j].0| != 11;
    }
    forall j | 0 <= j < 8 ensures fs[j].0 != fs[8].0 {
      assert |fs[j].0| != 13;
    }
    GetFirst(fs, 6);
    GetFirst(fs, 7);
    GetFirst(fs, 8);
  }

  /** Up to the last root, one progress signal per 500 roots; the last
      root adds one more unless its position is itself a multiple of 500. */
  lemma {:induction false} ProgressCount(s: Settings, i: nat, total: nat, prefixCount: nat, at: string)
    requires !Unset(s.signalUrl) && i <= total
    ensures |ProgressPosts(s, i, total, prefixCount, at)|
            == i / ProgressEvery + (if i == total && i % ProgressEvery != 0 then 1 else 0)
    decreases i
  {
    if i > 0 {
      ProgressCount(s, i - 1, total, prefixCount, at);
      assert i / ProgressEvery == (i - 1) / ProgressEvery + (if i % ProgressEvery == 0 then 1 else 0);
    }
  }

  /** After the last root a progress signal reports every root processed
      and every envelope emitted. */
  lemma LastProgress(s: Settings, total: nat, prefixCount: nat, at: string)
    requires !Unset(s.signalUrl) && total > 0
    ensures var ps := ProgressPosts(s, total, total, prefixCount, at);
            ps != [] && ps[|ps| - 1] == Post(s.signalUrl.value, ProgressSignal(s, total, total * prefixCount, "generate", at))
  {
  }

  /** Every progress post is a `progress@v1` signal. */
  lemma {:induction false} ProgressPostsKind(s: Settings, i: nat, total: nat, prefixCount: nat, at: string)
    ensures forall m :: 0 <= m < |ProgressPosts(s, i, total, prefixCount, at)| ==>
              Get(ProgressPosts(s, i, total, prefixCount, at)[m].payload, "kind") == Some(Str("progress@v1"))
    decreases i
  {
    if i > 0 {
      ProgressPostsKind(s, i - 1, total, prefixCount, at);
    }
  }

  /** Without `SIGNAL_URL` no progress signal is attempted. */
  lemma {:induction false} ProgressPostsSilent(s: Settings, i: nat, total: nat, prefixCount: nat, at: string)
    requires Unset(s.signalUrl)
    ensures ProgressPosts(s, i, total, prefixCount, at) == []
    decreases i
  {
    if i > 0 {
      ProgressPostsSilent(s, i - 1, total, prefixCount, at);
    }
  }

  // ----- runs -----

  /** A missing, empty or failing inputs download raises before anything
      is signalled or written. */
  lemma DownloadFails(env: Env, world: World)
    requires Download(SettingsOf(env), world).Err?
    ensures var e := Expected(env, world);
            e.exit.Err? && e.blob == [] && e.posts == []
  {
  }

  /** Without `SIGNAL_URL` the run posts nothing at all. */
  lemma Silent(env: Env, world: World)
    requires Unset(SettingsOf(env).signalUrl)
    ensures Expected(env, world).posts == []
  {
    var s := SettingsOf(env);
    var text := Download(s, world);
    if text.Ok? {
      var roots := NonBlankLines(text.value);
      ProgressPostsSilent(s, |roots|, |roots|, |Prefixes(Getenv(env, "PREFIXES_JSON"), world.parses)|, world.now);
    }
  }

  /** A run that downloads its inputs and has no `OUTPUT_URL`, or uploads
      successfully, returns 0 after announcing the results: the first
      post is the start signal, the last is `results_ready` counting every
      line of the blob, one per root and prefix. */
  lemma Completed(env: Env, world: World)
    requires Download(SettingsOf(env), world).Ok?
    requires Unset(SettingsOf(env).outputUrl) || world.upload.Ok?
    requires !Unset(SettingsOf(env).signalUrl)
    ensures var s := SettingsOf(env);
            var e := Expected(env, world);
            var roots := NonBlankLines(Download(s, world).value);
            var prefixes := Prefixes(Getenv(env, "PREFIXES_JSON"), world.parses);
            && e.exit == Ok(0)
            && |e.blob| == |roots| * |prefixes|
            && |e.posts| >= 2
            && e.posts[0] == Post(s.signalUrl.value, ProgressSignal(s, 0, 0, "start", world.now))
            && e.posts[|e.posts| - 1] == Post(s.signalUrl.value, ResultsSignal(s, |e.blob|, world.sha, world.now))
  {
  }

  /** A failed upload raises after the progress signals: the run never
      announces results. */
  lemma UploadFails(env: Env, world: World)
    requires Download(SettingsOf(env), world).Ok?
    requires !Unset(SettingsOf(env).outputUrl) && world.upload.Err?
    ensures var e := Expected(env, world);
            && e.exit.Err?
            && forall m :: 0 <= m < |e.posts| ==> Get(e.posts[m].payload, "kind") == Some(Str("progress@v1"))
  {
    var s := SettingsOf(env);
    var roots := NonBlankLines(Download(s, world).value);
    var prefixes := Prefixes(Getenv(env, "PREFIXES_JSON"), world.parses);
    var start := PostsTo(s.signalUrl, ProgressSignal(s, 0, 0, "start", world.now));
    var progress := ProgressPosts(s, |roots|, |roots|, |prefixes|, world.now);
    var posts := Expected(env, world).posts;
    assert posts == start + progress;
    forall m | 0 <= m < |posts|
      ensures Get(posts[m].payload, "kind") == Some(Str("progress@v1"))
    {
      if m < |start| {
        assert posts[m] == start[m] && start[m].payload == ProgressSignal(s, 0, 0, "start", world.now);
        ProgressSignalFields(s, 0, 0, "start", world.now);
      } else {
        assert posts[m] == progress[m - |start|];
        ProgressPostsKind(s, |roots|, |roots|, |prefixes|, world.now);
      }
    }
  }
}
