/** The adapter of `tools/tools/altdns`, on the legacy runtime: an httpx
    run that also follows redirect chains and counts distinct URLs.

    Two members model the code as it is written and show where it fails:
    `emit_event` is called with its arguments swapped, so every response
    raises `TypeError` before anything is emitted; and the fallback key
    reads `model.path`, which `HttpResponse` does not have. The rest of the
    model, the adapter class included, follows the evident intent: the
    model emitted, and a key without a path part. The responses are
    those of `Http`, which models `HttpResponse` with the class statement
    corrected so that the module imports.

    `json.loads` is not computed: the texts that parse are given as a map
    from text to the value it parses to. The clock reading the `emit`
    closure takes is the parameter `now`, one per line. */
module Altdns {
  import opened Common
  import opened Text
  import opened Jsons
  import opened Workdirs
  import opened LegacyRuntime
  import opened LegacyRun
  import Http
  import HttpxPlugin

  // ----- build_cmd -----

  /** `"\n".join(targets)`: no newline after the last target. */
  function TargetFileText(targets: seq<string>): string
  {
    Join("\n", targets)
  }

  /** A line without boundary characters is one line. */
  lemma SplitLinesOne(t: string)
    requires t != [] && NoLineBoundary(t)
    ensures SplitLines(t) == [t]
  {
  }

  /** What httpx reads back with `-l` is the target list itself, as long as
      no target is empty (an empty last target would vanish). */
  lemma {:induction false} TargetFileRoundTrip(targets: seq<string>)
    requires forall i :: 0 <= i < |targets| ==> targets[i] != [] && NoLineBoundary(targets[i])
    ensures SplitLines(TargetFileText(targets)) == targets
    decreases |targets|
  {
    if |targets| == 1 {
      SplitLinesOne(targets[0]);
    } else if |targets| > 1 {
      SplitLinesLine(targets[0], Join("\n", targets[1..]));
      TargetFileRoundTrip(targets[1..]);
    }
  }

  /** Example (one input): an empty last target is lost, since the file of
      `["a", ""]` reads back as one target. */
  lemma EmptyLastTargetLost()
    ensures SplitLines(TargetFileText(["a", ""])) == ["a"]
  {
    assert TargetFileText(["a", ""]) == "a" + "\n" + "";
    SplitLinesLine("a", "");
  }

  /** `cfg.parameters.get`: parameters that are not an object have no
      `get`, and `build_cmd` raises. */
  function Parameters(parameters: Json): (r: Result<Fields>)
    ensures r.Ok? <==> parameters.Obj?
    ensures r.Ok? ==> r.value == parameters.fields
  {
    if parameters.Obj? then Ok(parameters.fields) else Err("parameters has no attribute 'get'")
  }

  /** `str(get("threads", 50))`. */
  function Threads(params: Fields): string
  {
    PyStr(GetDefault(params, "threads", Int(50)))
  }

  /** `-include-response` unless `include_response` is given and falsy. */
  function ResponseArgs(params: Fields): seq<string>
  {
    if Truthy(GetDefault(params, "include_response", Bool(true))) then ["-include-response"] else []
  }

  /** `-include-chain` only when `include_chain` is truthy. */
  function ChainArgs(params: Fields): seq<string>
  {
    if Truthy(GetDefault(params, "include_chain", Bool(false))) then ["-include-chain"] else []
  }

  function HeadArgs(targetFile: string, threads: string): seq<string>
  {
    ["httpx", "-l", targetFile, "-json", "-silent", "-threads", threads]
  }

  function Argv(targetFile: string, params: Fields): seq<string>
  {
    HeadArgs(targetFile, Threads(params)) + ResponseArgs(params) + ChainArgs(params)
  }

  /** What `build_cmd` returns or raises. */
  function Command(parameters: Json, targetFile: string): (r: Result<Option<seq<string>>>)
    ensures r.Ok? <==> parameters.Obj?
    ensures r.Ok? ==> r.value.Some?
  {
    var p := Parameters(parameters);
    if p.Err? then Err(p.error) else Ok(Some(Argv(targetFile, p.value)))
  }

  lemma HeadArgsShape(targetFile: string, threads: string, options: seq<string>)
    ensures var r := HeadArgs(targetFile, threads) + options;
            && |r| == 7 + |options|
            && r[0] == "httpx" && r[1] == "-l" && r[2] == targetFile && r[3] == "-json"
            && r[4] == "-silent" && r[5] == "-threads" && r[6] == threads && r[7..] == options
  {
    var r := HeadArgs(targetFile, threads) + options;
    assert r[7..] == options;
  }

  /** Every command runs httpx on the target file with JSON output and the
      thread count; at most the two include flags follow, response before
      chain. */
  lemma ArgvShape(targetFile: string, params: Fields)
    ensures var r := Argv(targetFile, params);
            && |r| >= 7
            && r[0] == "httpx" && r[1] == "-l" && r[2] == targetFile && r[3] == "-json"
            && r[4] == "-silent" && r[5] == "-threads" && r[6] == Threads(params)
            && r[7..] == ResponseArgs(params) + ChainArgs(params)
  {
    AppendAssoc(HeadArgs(targetFile, Threads(params)), ResponseArgs(params), ChainArgs(params));
    HeadArgsShape(targetFile, Threads(params), ResponseArgs(params) + ChainArgs(params));
  }

  /** With none of the three parameters, 50 threads and responses
      included, chains not. */
  lemma DefaultOptions(params: Fields)
    requires "threads" !in Keys(params) && "include_response" !in Keys(params) && "include_chain" !in Keys(params)
    ensures Threads(params) == "50"
    ensures ResponseArgs(params) + ChainArgs(params) == ["-include-response"]
  {
    DefaultThreads(params);
    DefaultFlags(params);
  }

  lemma DefaultThreads(params: Fields)
    requires "threads" !in Keys(params)
    ensures Threads(params) == "50"
  {
    assert Get(params, "threads") == None;
    FiftyText();
  }

  lemma DefaultFlags(params: Fields)
    requires "include_response" !in Keys(params) && "include_chain" !in Keys(params)
    ensures ResponseArgs(params) == ["-include-response"] && ChainArgs(params) == []
  {
    assert Get(params, "include_response") == None;
    assert Get(params, "include_chain") == None;
  }

  lemma FiftyText()
    ensures PyStr(Int(50)) == "50"
  {
    assert NatToString(5) == "5";
    assert NatToString(50) == NatToString(5) + [DigitChar(0)];
  }

  /** Responses are left out only when `include_response` is falsy, and
      chains are asked for only when `include_chain` is truthy. */
  lemma IncludeFlags(params: Fields)
    ensures ResponseArgs(params) == [] <==> "include_response" in Keys(params) && !Truthy(GetJ(params, "include_response"))
    ensures ChainArgs(params) != [] <==> Truthy(GetJ(params, "include_chain"))
  {
  }

  // ----- the key of a response -----

  /** The key of `_bump_unique` as written: the URL, else a fallback that
      reads `model.path` and raises `AttributeError`. */
  function AsWrittenKey(h: Http.HttpResponse): (r: Result<string>)
    ensures r.Ok? <==> h.url != ""
    ensures r.Ok? ==> r.value == UniqueKey(h)
  {
    if h.url != "" then Ok(h.url) else Err("'HttpResponse' object has no attribute 'path'")
  }

  /** The key as intended: the URL, else `host:port` with port 80 for a
      missing port and an empty path. Never empty, so every response is
      counted. */
  function UniqueKey(h: Http.HttpResponse): (r: string)
    ensures r != ""
    ensures h.url != "" ==> r == h.url
    ensures h.url == "" ==> r == PyStr(h.host) + ":" + PyStr(Or(h.port, Int(80)))
  {
    if h.url != "" then h.url else PyStr(h.host) + ":" + PyStr(Or(h.port, Int(80)))
  }

  /** A response without a URL raises as written, where the intended key
      is its host and port. */
  lemma MissingPathFinding(h: Http.HttpResponse)
    requires h.url == ""
    ensures AsWrittenKey(h).Err?
    ensures UniqueKey(h) == PyStr(h.host) + ":" + PyStr(Or(h.port, Int(80)))
  {
  }

  /** Where the written key does not raise, it is the intended one. */
  lemma KeysAgree(h: Http.HttpResponse)
    requires AsWrittenKey(h).Ok?
    ensures AsWrittenKey(h).value == UniqueKey(h)
  {
  }

  /** Example (one input): a document `from_httpx_json` accepts with an
      empty URL, having no `final_url`, `url` or `input`, so the written key
      raises for it. */
  lemma UrlLessDocument()
    ensures Http.FromHttpxJson(Obj([("host", Str("a.example"))])).Ok?
    ensures Http.FromHttpxJson(Obj([("host", Str("a.example"))])).value.url == ""
  {
    var fs := [("host", Str("a.example"))];
    assert Http.FinalUrl(fs) == Str("");
  }

  // ----- what a line does -----

  /** The state of one `parse_tool_output` call: what it did so far, the
      keys seen, and whether it raised. */
  datatype Walk = Walk(actions: seq<Action>, seen: set<string>, raised: bool)

  /** `_bump_unique(model, hb)`: a new key is added and the number of
      distinct keys becomes `processed_targets`; a known key changes
      nothing. */
  function Bump(seen: set<string>, h: Http.HttpResponse): (r: (seq<Action>, set<string>))
    ensures r.1 == seen + {UniqueKey(h)}
    ensures UniqueKey(h) in seen <==> r.0 == []
    ensures UniqueKey(h) !in seen ==> r.0 == [Metric("processed_targets", Int(|r.1|))] && |r.1| == |seen| + 1
  {
    var key := UniqueKey(h);
    if key in seen then ([], seen)
    else
      var grown := seen + {key};
      assert |grown| == |seen| + 1;
      ([Metric("processed_targets", Int(|grown|))], grown)
  }

  /** One response emitted, then counted. */
  function Respond(w: Walk, h: Http.HttpResponse, now: string): (r: Walk)
    ensures !r.raised && r.seen == w.seen + {UniqueKey(h)}
    ensures r.actions == w.actions + [HttpxPlugin.ResponseEvent(h, now)] + Bump(w.seen, h).0
  {
    var b := Bump(w.seen, h);
    Walk(w.actions + [HttpxPlugin.ResponseEvent(h, now)] + b.0, b.1, false)
  }

  /** One hop of the chain: a hop `from_httpx_json` rejects raises. */
  function HopStep(w: Walk, hop: Json, now: string): (r: Walk)
    ensures w.raised ==> r == w
    ensures w.actions <= r.actions && w.seen <= r.seen
  {
    if w.raised then w
    else
      var h := Http.FromHttpxJson(hop);
      if h.Err? then w.(raised := true) else Respond(w, h.value, now)
  }

  /** The `for hop in chain` loop, up to its end or its exception. */
  function HopsWalk(w: Walk, hops: seq<Json>, now: string): (r: Walk)
    ensures w.actions <= r.actions && w.seen <= r.seen
    ensures w.raised ==> r == w
    decreases |hops|
  {
    if hops == [] then w
    else HopStep(HopsWalk(w, hops[..|hops| - 1], now), hops[|hops| - 1], now)
  }

  /** `parse_tool_output(line, emit, hb)` as intended: nothing for a blank
      or non-JSON line; the main response, then every hop of a list
      `chain`, each emitted and then counted; a rejected document or hop,
      or a truthy `chain` that is not a list, raises. */
  function LineWalk(seen: set<string>, line: string, parses: map<string, Json>, now: string): (r: Walk)
    ensures HttpxPlugin.LineDocument(line, parses).None? ==> r == Walk([], seen, false)
    ensures seen <= r.seen
  {
    var doc := HttpxPlugin.LineDocument(line, parses);
    if doc.None? then Walk([], seen, false)
    else
      var main := Http.FromHttpxJson(doc.value);
      if main.Err? then Walk([], seen, true)
      else
        var w := Respond(Walk([], seen, false), main.value, now);
        var chain := Or(GetJ(doc.value.fields, "chain"), Arr([]));
        if chain.Arr? then HopsWalk(w, chain.items, now) else w.(raised := true)
  }

  /** `parse_tool_output` as written: `emit_event(emit, main)` hands the
      closure where the model belongs, so any line that carries a document
      raises, before or at that call, with nothing emitted or counted. */
  function AsWrittenLineWalk(seen: set<string>, line: string, parses: map<string, Json>, now: string): (r: Walk)
    ensures r.actions == [] && r.seen == seen
  {
    var doc := HttpxPlugin.LineDocument(line, parses);
    if doc.None? then Walk([], seen, false) else Walk([], seen, true)
  }

  /** A line with an accepted document raises, emitting nothing, as
      written; as intended it emits the response first. */
  lemma SwappedArgumentsFinding(seen: set<string>, line: string, parses: map<string, Json>, now: string)
    requires HttpxPlugin.LineDocument(line, parses).Some?
    requires Http.FromHttpxJson(HttpxPlugin.LineDocument(line, parses).value).Ok?
    ensures AsWrittenLineWalk(seen, line, parses, now) == Walk([], seen, true)
    ensures var w := LineWalk(seen, line, parses, now);
            w.actions != [] && w.actions[0] == HttpxPlugin.ResponseEvent(Http.FromHttpxJson(HttpxPlugin.LineDocument(line, parses).value).value, now)
  {
    var doc := HttpxPlugin.LineDocument(line, parses).value;
    var main := Http.FromHttpxJson(doc).value;
    LineWalkAccepted(seen, line, parses, now, doc, main);
    var w := Respond(Walk([], seen, false), main, now);
    assert w.actions[0] == HttpxPlugin.ResponseEvent(main, now);
    assert w.actions <= LineWalk(seen, line, parses, now).actions;
  }

  /** The walk of a line whose document `from_httpx_json` accepts: the
      main response, then the chain. */
  lemma LineWalkAccepted(seen: set<string>, line: string, parses: map<string, Json>, now: string, doc: Json, main: Http.HttpResponse)
    requires HttpxPlugin.LineDocument(line, parses) == Some(doc)
    requires Http.FromHttpxJson(doc) == Ok(main)
    ensures doc.Obj?
    ensures var w := Respond(Walk([], seen, false), main, now);
            var chain := Or(GetJ(doc.fields, "chain"), Arr([]));
            LineWalk(seen, line, parses, now) == if chain.Arr? then HopsWalk(w, chain.items, now) else w.(raised := true)
  {
  }

  // ----- what a walk emits and counts -----

  /** The metric assignments among `acts`, in order. */
  function Metrics(acts: seq<Action>): (r: seq<Action>)
    ensures |r| <= |acts|
    ensures forall k :: 0 <= k < |r| ==> r[k].Metric?
    decreases |acts|
  {
    if acts == [] then []
    else
      var last := acts[|acts| - 1];
      Metrics(acts[..|acts| - 1]) + (if last.Metric? then [last] else [])
  }

  /** The events among `acts`, in order. */
  function Events(acts: seq<Action>): (r: seq<Action>)
    ensures |r| <= |acts|
    ensures forall k :: 0 <= k < |r| ==> r[k].Emitted?
    decreases |acts|
  {
    if acts == [] then []
    else
      var last := acts[|acts| - 1];
      Events(acts[..|acts| - 1]) + (if last.Emitted? then [last] else [])
  }

  lemma {:induction false} MetricsAppend(a: seq<Action>, b: seq<Action>)
    ensures Metrics(a + b) == Metrics(a) + Metrics(b)
    decreases |b|
  {
    if b == [] {
      assert a + b == a;
    } else {
      var init := b[..|b| - 1];
      assert (a + b)[..|a + b| - 1] == a + init;
      MetricsAppend(a, init);
    }
  }

  lemma {:induction false} EventsAppend(a: seq<Action>, b: seq<Action>)
    ensures Events(a + b) == Events(a) + Events(b)
    decreases |b|
  {
    if b == [] {
      assert a + b == a;
    } else {
      var init := b[..|b| - 1];
      assert (a + b)[..|a + b| - 1] == a + init;
      EventsAppend(a, init);
    }
  }

  /** `processed_targets` set to `lo + 1`, `lo + 2`, ..., `hi`. */
  function Counting(lo: nat, hi: nat): (r: seq<Action>)
    requires lo <= hi
    ensures |r| == hi - lo
    ensures forall k :: 0 <= k < |r| ==> r[k] == Metric("processed_targets", Int(lo + k + 1))
    decreases hi
  {
    if lo == hi then [] else Counting(lo, hi - 1) + [Metric("processed_targets", Int(hi))]
  }

  /** The events of hops that `from_httpx_json` all accepts, in order. */
  predicate AllAccepted(hops: seq<Json>)
  {
    forall k :: 0 <= k < |hops| ==> Http.FromHttpxJson(hops[k]).Ok?
  }

  lemma AllAcceptedInit(hops: seq<Json>)
    requires hops != [] && AllAccepted(hops)
    ensures AllAccepted(hops[..|hops| - 1])
  {
    var init := hops[..|hops| - 1];
    forall k | 0 <= k < |init| ensures Http.FromHttpxJson(init[k]).Ok? {
      assert init[k] == hops[k];
    }
  }

  function HopEvents(hops: seq<Json>, now: string): (r: seq<Action>)
    requires AllAccepted(hops)
    ensures |r| == |hops|
    decreases |hops|
  {
    if hops == [] then []
    else
      var init := hops[..|hops| - 1];
      AllAcceptedInit(hops);
      HopEvents(init, now) + [HttpxPlugin.ResponseEvent(Http.FromHttpxJson(hops[|hops| - 1]).value, now)]
  }

  /** One response adds its event, and counts up by one exactly when its
      key is new. */
  lemma RespondCounts(w: Walk, h: Http.HttpResponse, now: string)
    ensures var r := Respond(w, h, now);
            && Events(r.actions) == Events(w.actions) + [HttpxPlugin.ResponseEvent(h, now)]
            && |w.seen| <= |r.seen|
            && Metrics(r.actions) == Metrics(w.actions) + Counting(|w.seen|, |r.seen|)
  {
    var r := Respond(w, h, now);
    var ev := HttpxPlugin.ResponseEvent(h, now);
    var b := Bump(w.seen, h);
    EventsAppend(w.actions + [ev], b.0);
    EventsAppend(w.actions, [ev]);
    MetricsAppend(w.actions + [ev], b.0);
    MetricsAppend(w.actions, [ev]);
    assert Events([ev]) == [ev] && Metrics([ev]) == [];
    if UniqueKey(h) in w.seen {
      assert r.seen == w.seen;
    } else {
      var m := Metric("processed_targets", Int(|r.seen|));
      assert Events([m]) == [] && Metrics([m]) == [m];
    }
  }

  /** Along the chain, `processed_targets` counts every new key once, in
      step with the keys seen, and never for a key seen before. */
  lemma {:induction false} HopsCount(w: Walk, hops: seq<Json>, now: string)
    ensures var r := HopsWalk(w, hops, now);
            |w.seen| <= |r.seen| && Metrics(r.actions) == Metrics(w.actions) + Counting(|w.seen|, |r.seen|)
    decreases |hops|
  {
    if hops != [] {
      var init := hops[..|hops| - 1];
      var cur := HopsWalk(w, init, now);
      HopsCount(w, init, now);
      var r := HopStep(cur, hops[|hops| - 1], now);
      assert r == HopsWalk(w, hops, now);
      HopCounts(cur, hops[|hops| - 1], now);
      CountingAppend(|w.seen|, |cur.seen|, |r.seen|);
      AppendAssoc(Metrics(w.actions), Counting(|w.seen|, |cur.seen|), Counting(|cur.seen|, |r.seen|));
    }
  }

  /** One hop counts every new key once. */
  lemma HopCounts(w: Walk, hop: Json, now: string)
    ensures var r := HopStep(w, hop, now);
            |w.seen| <= |r.seen| && Metrics(r.actions) == Metrics(w.actions) + Counting(|w.seen|, |r.seen|)
  {
    var h := Http.FromHttpxJson(hop);
    if !w.raised && h.Ok? {
      RespondCounts(w, h.value, now);
    } else {
      assert Counting(|w.seen|, |w.seen|) == [];
    }
  }

  lemma {:induction false} CountingAppend(a: nat, b: nat, c: nat)
    requires a <= b <= c
    ensures Counting(a, b) + Counting(b, c) == Counting(a, c)
    decreases c - b
  {
    if b < c {
      CountingAppend(a, b, c - 1);
    }
  }

  /** A chain whose hops are all accepted emits one event per hop, in
      the chain's order, and does not raise. */
  lemma {:induction false} HopsInOrder(w: Walk, hops: seq<Json>, now: string)
    requires !w.raised && AllAccepted(hops)
    ensures var r := HopsWalk(w, hops, now);
            !r.raised && Events(r.actions) == Events(w.actions) + HopEvents(hops, now)
    decreases |hops|
  {
    if hops != [] {
      var init := hops[..|hops| - 1];
      AllAcceptedInit(hops);
      HopsInOrder(w, init, now);
      var cur := HopsWalk(w, init, now);
      var h := Http.FromHttpxJson(hops[|hops| - 1]).value;
      var ev := HttpxPlugin.ResponseEvent(h, now);
      HopsLast(w, hops, now);
      RespondCounts(cur, h, now);
      var r := HopsWalk(w, hops, now);
      assert Events(r.actions) == Events(cur.actions) + [ev];
      assert Events(cur.actions) == Events(w.actions) + HopEvents(init, now);
      AppendAssoc(Events(w.actions), HopEvents(init, now), [ev]);
    }
  }

  /** The last of a chain of accepted hops, after a walk that has not
      raised: its response is emitted and counted. */
  lemma HopsLast(w: Walk, hops: seq<Json>, now: string)
    requires hops != [] && AllAccepted(hops)
    requires !HopsWalk(w, hops[..|hops| - 1], now).raised
    ensures var h := Http.FromHttpxJson(hops[|hops| - 1]).value;
            && HopsWalk(w, hops, now) == Respond(HopsWalk(w, hops[..|hops| - 1], now), h, now)
            && HopEvents(hops, now) == HopEvents(hops[..|hops| - 1], now) + [HttpxPlugin.ResponseEvent(h, now)]
  {
  }

  /** A hop `from_httpx_json` rejects ends the line with an exception. */
  lemma {:induction false} RejectedHopRaises(w: Walk, hops: seq<Json>, now: string, k: nat)
    requires k < |hops| && Http.FromHttpxJson(hops[k]).Err?
    ensures HopsWalk(w, hops, now).raised
    decreases |hops|
  {
    var init := hops[..|hops| - 1];
    if k < |hops| - 1 {
      assert init[k] == hops[k];
      RejectedHopRaises(w, init, now, k);
    }
  }

  /** Over one line, `processed_targets` goes up by one for each new
      key, so after the line its last value is the number of distinct
      keys seen; a line whose keys were all seen before leaves it alone. */
  lemma LineCounts(seen: set<string>, line: string, parses: map<string, Json>, now: string)
    ensures var r := LineWalk(seen, line, parses, now);
            |seen| <= |r.seen| && Metrics(r.actions) == Counting(|seen|, |r.seen|)
  {
    var doc := HttpxPlugin.LineDocument(line, parses);
    if doc.Some? && Http.FromHttpxJson(doc.value).Ok? {
      var main := Http.FromHttpxJson(doc.value).value;
      LineWalkAccepted(seen, line, parses, now, doc.value, main);
      var w := Respond(Walk([], seen, false), main, now);
      RespondCounts(Walk([], seen, false), main, now);
      var chain := Or(GetJ(doc.value.fields, "chain"), Arr([]));
      if chain.Arr? {
        HopsCount(w, chain.items, now);
        CountingAppend(|seen|, |w.seen|, |LineWalk(seen, line, parses, now).seen|);
      }
    }
  }

  /** A line whose document and chain hops are all accepted emits the
      main response first, then one event per hop in order, and returns. */
  lemma LineInOrder(seen: set<string>, line: string, parses: map<string, Json>, now: string)
    requires HttpxPlugin.LineDocument(line, parses).Some?
    requires var doc := HttpxPlugin.LineDocument(line, parses).value;
             Http.FromHttpxJson(doc).Ok? && doc.Obj?
             && Or(GetJ(doc.fields, "chain"), Arr([])).Arr?
             && AllAccepted(Or(GetJ(doc.fields, "chain"), Arr([])).items)
    ensures var doc := HttpxPlugin.LineDocument(line, parses).value;
            var r := LineWalk(seen, line, parses, now);
            !r.raised
            && Events(r.actions) == [HttpxPlugin.ResponseEvent(Http.FromHttpxJson(doc).value, now)]
                                    + HopEvents(Or(GetJ(doc.fields, "chain"), Arr([])).items, now)
  {
    var doc := HttpxPlugin.LineDocument(line, parses).value;
    var main := Http.FromHttpxJson(doc).value;
    LineWalkAccepted(seen, line, parses, now, doc, main);
    var w := Respond(Walk([], seen, false), main, now);
    RespondCounts(Walk([], seen, false), main, now);
    HopsInOrder(w, Or(GetJ(doc.fields, "chain"), Arr([])).items, now);
  }

  // ----- the adapter -----

  /** The adapter class of `tools/tools/altdns/altdns_adapter.py`, which
      the source names `HttpxAdapter`, the same name as the httpx
      adapter's class. */
  class AltdnsAdapter {
    /** `self._seen_urls`. */
    var seenUrls: set<string>

    constructor()
      ensures seenUrls == {}
    {
      seenUrls := {};
    }

    /** `build_cmd(targets, cfg, workdir)`: the target file is written
        first, whatever follows. */
    method BuildCmd(targets: seq<string>, cfg: LegacyConfig, workdir: Workdir) returns (r: Result<Option<seq<string>>>)
      modifies workdir
      ensures workdir.files == old(workdir.files)[PathOf(workdir.path, "targets.txt") := Join("\n", targets)]
      ensures r == Command(cfg.parameters, PathOf(workdir.path, "targets.txt"))
    {
      var targetFile := workdir.WriteText("targets.txt", TargetFileText(targets));
      if !cfg.parameters.Obj? {
        return Err("parameters has no attribute 'get'");
      }
      var params := cfg.parameters.fields;
      var argv := HeadArgs(targetFile, Threads(params));
      if Truthy(GetDefault(params, "include_response", Bool(true))) {
        argv := argv + ["-include-response"];
      }
      assert argv == HeadArgs(targetFile, Threads(params)) + ResponseArgs(params);
      if Truthy(GetDefault(params, "include_chain", Bool(false))) {
        argv := argv + ["-include-chain"];
      }
      assert argv == Argv(targetFile, params);
      r := Ok(Some(argv));
    }

    /** `_bump_unique(model, hb)`: the metric assignments it makes. */
    method BumpUnique(h: Http.HttpResponse) returns (acts: seq<Action>)
      modifies this
      ensures (acts, seenUrls) == Bump(old(seenUrls), h)
    {
      var key := UniqueKey(h);
      if key in seenUrls {
        return [];
      }
      seenUrls := seenUrls + {key};
      acts := [Metric("processed_targets", Int(|seenUrls|))];
    }

    /** `parse_tool_output(line, emit, hb)`, with the evident argument
        order of `emit_event`. */
    method ParseToolOutput(line: string, parses: map<string, Json>, now: string) returns (out: LineOutcome)
      modifies this
      ensures var w := LineWalk(old(seenUrls), line, parses, now);
              out == LineOutcome(w.actions, w.raised) && seenUrls == w.seen
    {
      var s := Strip(line);
      if s == "" || s !in parses {
        return LineOutcome([], false);
      }
      var obj := parses[s];
      assert HttpxPlugin.LineDocument(line, parses) == Some(obj);
      var main := Http.FromHttpxJson(obj);
      if main.Err? {
        return LineOutcome([], true);
      }
      LineWalkAccepted(old(seenUrls), line, parses, now, obj, main.value);
      ghost var w := Respond(Walk([], seenUrls, false), main.value, now);
      ghost var b := Bump(seenUrls, main.value);
      var counted := BumpUnique(main.value);
      assert counted == b.0 && seenUrls == b.1;
      var ev := HttpxPlugin.ResponseEvent(main.value, now);
      var acts := [ev] + counted;
      assert [] + [ev] == [ev];
      assert acts == w.actions;
      var chain := Or(GetJ(obj.fields, "chain"), Arr([]));
      if !chain.Arr? {
        return LineOutcome(acts, true);
      }
      var raised;
      acts, raised := WalkHops(acts, chain.items, now);
      out := LineOutcome(acts, raised);
    }

    /** The `for hop in chain` loop, after the main response has done
        `acts`: each hop is emitted and counted until one raises. */
    method WalkHops(acts0: seq<Action>, hops: seq<Json>, now: string) returns (acts: seq<Action>, raised: bool)
      modifies this
      ensures var w := HopsWalk(Walk(acts0, old(seenUrls), false), hops, now);
              acts == w.actions && raised == w.raised && seenUrls == w.seen
    {
      ghost var start := Walk(acts0, seenUrls, false);
      acts := acts0;
      var i := 0;
      raised := false;
      while i < |hops| && !raised
        invariant 0 <= i <= |hops|
        invariant var w := HopsWalk(start, hops[..i], now);
                  acts == w.actions && raised == w.raised && seenUrls == w.seen
      {
        acts, raised := WalkHop(acts, hops, i, now, start);
        i := i + 1;
      }
      HopsDone(start, hops, i, now);
    }

    /** One pass of that loop, for a hop the walk reaches. */
    method WalkHop(acts0: seq<Action>, hops: seq<Json>, i: nat, now: string, ghost start: Walk) returns (acts: seq<Action>, raised: bool)
      requires i < |hops|
      requires var w := HopsWalk(start, hops[..i], now);
               acts0 == w.actions && !w.raised && seenUrls == w.seen
      modifies this
      ensures var w := HopsWalk(start, hops[..i + 1], now);
              acts == w.actions && raised == w.raised && seenUrls == w.seen
    {
      HopsWalkStep(start, hops, i, now);
      ghost var cur := HopsWalk(start, hops[..i], now);
      var hop := Http.FromHttpxJson(hops[i]);
      if hop.Err? {
        return acts0, true;
      }
      var counted := BumpUnique(hop.value);
      acts := acts0 + [HttpxPlugin.ResponseEvent(hop.value, now)] + counted;
      raised := false;
      assert Respond(cur, hop.value, now).actions == acts;
    }
  }

  /** The walk over one more hop. */
  lemma HopsWalkStep(w: Walk, hops: seq<Json>, i: nat, now: string)
    requires i < |hops|
    ensures HopsWalk(w, hops[..i + 1], now) == HopStep(HopsWalk(w, hops[..i], now), hops[i], now)
  {
    assert hops[..i + 1][..i] == hops[..i];
  }

  /** A prefix that covers the chain or ends in an exception gives the
      walk over the whole chain. */
  lemma {:induction false} HopsDone(w: Walk, hops: seq<Json>, i: nat, now: string)
    requires i <= |hops| && (i == |hops| || HopsWalk(w, hops[..i], now).raised)
    ensures HopsWalk(w, hops, now) == HopsWalk(w, hops[..i], now)
    decreases |hops|
  {
    if i == |hops| {
      assert hops[..i] == hops;
    } else {
      var init := hops[..|hops| - 1];
      assert init[..i] == hops[..i];
      HopsDone(w, init, i, now);
    }
  }
}
