/** `HttpxAdapter`, on the legacy runtime: the command line it builds from
    the manifest parameters, and what each line of httpx's JSON output
    does to the run (one `http.response` event and a running count).
    The responses are those of `Http`, which models `HttpResponse` with
    the class statement corrected so that the module imports.

    `json.loads` is not computed: the texts that parse are given as a map
    from text to the value it parses to. The clock reading the `emit`
    closure takes is the parameter `now`. */
module HttpxPlugin {
  import opened Common
  import opened Text
  import opened Jsons
  import opened Workdirs
  import opened LegacyRuntime
  import opened LegacyRun
  import Http
  import TypedEvents

  /** `binary_path`. */
  const BinaryPath := "/usr/local/bin/httpx"

  // ----- build_cmd -----

  /** The target file: the targets one per line, each line terminated, and
      nothing at all for no targets. */
  function TargetFileText(targets: seq<string>): (r: string)
    ensures r == Terminated(targets)
  {
    if targets == [] then ""
    else
      JoinTerminated(targets);
      Join("\n", targets) + "\n"
  }

  /** What httpx reads back with `-l` is the target list itself. */
  lemma TargetFileRoundTrip(targets: seq<string>)
    requires forall i :: 0 <= i < |targets| ==> NoLineBoundary(targets[i])
    ensures SplitLines(TargetFileText(targets)) == targets
  {
    SplitLinesTerminated(targets);
  }

  /** `cfg.parameters or {}`, read with `.get`: a truthy value that is not
      an object has no `get`, and `build_cmd` raises. */
  function Parameters(parameters: Json): (r: Result<Fields>)
    ensures r.Err? <==> Truthy(parameters) && !parameters.Obj?
    ensures parameters.Obj? ==> r == Ok(parameters.fields)
    ensures !Truthy(parameters) ==> r == Ok([])
  {
    var p := Or(parameters, Obj([]));
    if p.Obj? then Ok(p.fields) else Err("parameters has no attribute 'get'")
  }

  /** `args`, else `extra_args`: a list item by item as `str`, a string as
      one argument as it stands; anything else adds nothing. */
  function ExtraArgs(params: Fields): seq<string>
  {
    var v := Or(GetJ(params, "args"), GetJ(params, "extra_args"));
    if v.Arr? then Strs(v.items) else if v.Str? then [v.s] else []
  }

  /** `flag str(value)` for a truthy parameter, nothing otherwise. */
  function ValueArgs(params: Fields, key: string, flag: string): (r: seq<string>)
    ensures r == [] <==> !Truthy(GetJ(params, key))
  {
    var v := GetJ(params, key);
    if Truthy(v) then [flag, PyStr(v)] else []
  }

  /** The six arguments every command starts with. */
  function HeadArgs(targetFile: string): seq<string>
  {
    [BinaryPath, "-json", "-no-color", "-silent", "-l", targetFile]
  }

  /** The options after them, in the order they are added. */
  function Options(params: Fields): seq<string>
  {
    ExtraArgs(params) + ValueArgs(params, "timeout", "-timeout") + ValueArgs(params, "rate", "-rate")
  }

  function Argv(targetFile: string, params: Fields): seq<string>
  {
    HeadArgs(targetFile) + Options(params)
  }

  /** What `build_cmd` returns or raises for the manifest's parameters. */
  function Command(parameters: Json, targetFile: string): (r: Result<Option<seq<string>>>)
    ensures r.Err? <==> Parameters(parameters).Err?
    ensures r.Ok? ==> r.value.Some?
  {
    var p := Parameters(parameters);
    if p.Err? then Err(p.error) else Ok(Some(Argv(targetFile, p.value)))
  }

  lemma HeadArgsShape(targetFile: string, options: seq<string>)
    ensures var r := HeadArgs(targetFile) + options;
            && |r| == 6 + |options|
            && r[0] == BinaryPath && r[1] == "-json" && r[2] == "-no-color" && r[3] == "-silent"
            && r[4] == "-l" && r[5] == targetFile && r[6..] == options
  {
    var r := HeadArgs(targetFile) + options;
    assert r[6..] == options;
  }

  /** Every command runs the httpx binary with JSON output, no colour and
      no banner, reading the targets from the target file; the options
      follow. */
  lemma ArgvShape(targetFile: string, params: Fields)
    ensures var r := Argv(targetFile, params);
            && |r| >= 6
            && r[0] == "/usr/local/bin/httpx" && r[1] == "-json" && r[2] == "-no-color" && r[3] == "-silent"
            && r[4] == "-l" && r[5] == targetFile && r[6..] == Options(params)
  {
    HeadArgsShape(targetFile, Options(params));
  }

  /** A truthy `args` wins over `extra_args`: a list is passed item by
      item. */
  lemma ArgsListFirst(params: Fields, items: seq<Json>)
    requires GetJ(params, "args") == Arr(items) && items != []
    ensures ExtraArgs(params) == Strs(items)
  {
  }

  /** Without a truthy `args`, a string `extra_args` is passed as one
      argument exactly as given, not stripped, not split, and even when
      blank. */
  lemma ExtraStringVerbatim(params: Fields, s: string)
    requires !Truthy(GetJ(params, "args")) && GetJ(params, "extra_args") == Str(s)
    ensures ExtraArgs(params) == [s]
  {
  }

  /** A number, an object or a boolean under `args`/`extra_args` adds no
      argument. */
  lemma OtherExtraIgnored(params: Fields)
    requires var v := Or(GetJ(params, "args"), GetJ(params, "extra_args")); !v.Arr? && !v.Str?
    ensures ExtraArgs(params) == []
  {
  }

  /** With both given, the timeout comes before the rate, at the end. */
  lemma TimeoutThenRate(params: Fields)
    requires Truthy(GetJ(params, "timeout")) && Truthy(GetJ(params, "rate"))
    ensures var r := Options(params);
            |r| >= 4 && r[|r| - 4..] == ["-timeout", PyStr(GetJ(params, "timeout")), "-rate", PyStr(GetJ(params, "rate"))]
  {
    var e := ExtraArgs(params);
    var t := ValueArgs(params, "timeout", "-timeout");
    var q := ValueArgs(params, "rate", "-rate");
    assert (e + t + q)[|e + t + q| - 4..] == t + q;
  }

  // ----- parse_tool_output -----

  /** The action that emits an accepted response: its type and its payload
      as the runtime model gives them, at the clock reading `now`. */
  function ResponseEvent(h: Http.HttpResponse, now: string): (r: Action)
    ensures r.Emitted? && r.eventType == "http.response" && r.at == now
  {
    var (eventType, payload) := TypedEvents.ToEvent(TypedEvents.HttpInstance(h));
    Emitted(eventType, Obj(payload), now)
  }

  /** The event of a response is an `http.response` whose payload holds
      the twenty response fields in declaration order. */
  lemma ResponseEventIs(h: Http.HttpResponse, now: string)
    ensures ResponseEvent(h, now) == Emitted("http.response", Obj(Http.ResponsePayload(h)), now)
  {
    TypedEvents.HttpEvent(h);
  }

  /** The document a line carries: none for a blank line or text that is
      not JSON. */
  function LineDocument(line: string, parses: map<string, Json>): (r: Option<Json>)
    ensures IsBlank(line) ==> r == None
    ensures r.Some? ==> Strip(line) in parses && r.value == parses[Strip(line)]
  {
    StripBlank(line);
    var data := Strip(line);
    if data == "" || data !in parses then None else Some(parses[data])
  }

  /** What one line does for a counter at `seen`, and the counter after
      it: nothing for no document; an exception, and nothing else, for a
      document `from_httpx_json` rejects; otherwise one event, then the
      counter, one higher, as `processed_targets`. */
  function LineEffect(seen: nat, line: string, parses: map<string, Json>, now: string): (r: (LineOutcome, nat))
    ensures LineDocument(line, parses).None? ==> r == (LineOutcome([], false), seen)
    ensures r.0.LineOutcome?
    ensures r.0.raised <==> LineDocument(line, parses).Some? && Http.Rejected(LineDocument(line, parses).value)
    ensures r.0.raised ==> r.0.actions == [] && r.1 == seen
    ensures r.1 == seen || r.1 == seen + 1
    ensures r.1 == seen + 1 <==> |r.0.actions| == 2
    ensures r.1 == seen + 1 ==>
              && r.0.actions[0].Emitted? && r.0.actions[0].eventType == "http.response"
              && r.0.actions[1] == Metric("processed_targets", Int(r.1))
    ensures r.1 == seen ==> r.0.actions == []
  {
    var doc := LineDocument(line, parses);
    if doc.None? then (LineOutcome([], false), seen)
    else
      var h := Http.FromHttpxJson(doc.value);
      if h.Err? then (LineOutcome([], true), seen) else Counted(seen, h.value, now)
  }

  /** An accepted response: its event, then the counter one higher. */
  function Counted(seen: nat, h: Http.HttpResponse, now: string): (r: (LineOutcome, nat))
    ensures r.1 == seen + 1 && r.0.LineOutcome? && !r.0.raised && |r.0.actions| == 2
    ensures r.0.actions[0].Emitted? && r.0.actions[0].eventType == "http.response"
    ensures r.0.actions[1] == Metric("processed_targets", Int(r.1))
  {
    var ev := ResponseEvent(h, now);
    var acts := [ev, Metric("processed_targets", Int(seen + 1))];
    assert acts[0] == ev && ev.Emitted? && ev.eventType == "http.response";
    (LineOutcome(acts, false), seen + 1)
  }

  class HttpxAdapter {
    /** `self._results_seen`. */
    var resultsSeen: nat

    constructor()
      ensures resultsSeen == 0
    {
      resultsSeen := 0;
    }

    /** `build_cmd(targets, cfg, workdir)`: the target file is written
        first, whatever follows; then the command, or the exception of
        parameters without `.get`. */
    method BuildCmd(targets: seq<string>, cfg: LegacyConfig, workdir: Workdir) returns (r: Result<Option<seq<string>>>)
      modifies workdir
      ensures workdir.files == old(workdir.files)[PathOf(workdir.path, "targets.txt") := Terminated(targets)]
      ensures r == Command(cfg.parameters, PathOf(workdir.path, "targets.txt"))
    {
      var targetFile := workdir.WriteText("targets.txt", TargetFileText(targets));
      var params := Parameters(cfg.parameters);
      if params.Err? {
        return Err(params.error);
      }
      var head := HeadArgs(targetFile);
      var extra := ExtraArgs(params.value);
      var timeout := ValueArgs(params.value, "timeout", "-timeout");
      var rate := ValueArgs(params.value, "rate", "-rate");
      var cmd := head;
      cmd := cmd + extra;
      cmd := cmd + timeout;
      cmd := cmd + rate;
      AppendAssoc(head, extra, timeout);
      AppendAssoc(head, extra + timeout, rate);
      r := Ok(Some(cmd));
    }

    /** `parse_tool_output(line, emit, hb)`: the counter moves on by one
        exactly when an event is emitted. */
    method ParseToolOutput(line: string, parses: map<string, Json>, now: string) returns (out: LineOutcome)
      modifies this
      ensures (out, resultsSeen) == LineEffect(old(resultsSeen), line, parses, now)
    {
      var data := Strip(line);
      if data == "" || data !in parses {
        return LineOutcome([], false);
      }
      var event := Http.FromHttpxJson(parses[data]);
      if event.Err? {
        return LineOutcome([], true);
      }
      var emitted := ResponseEvent(event.value, now);
      resultsSeen := resultsSeen + 1;
      out := LineOutcome([emitted, Metric("processed_targets", Int(resultsSeen))], false);
    }
  }

  // ----- a run's worth of lines -----

  /** The outcomes of consecutive lines, and the counter after the last. */
  function LinesEffect(seen: nat, lines: seq<string>, parses: map<string, Json>, now: string): (r: (seq<LineOutcome>, nat))
    ensures |r.0| == |lines| && r.1 >= seen
    decreases |lines|
  {
    if lines == [] then ([], seen)
    else
      var prev := LinesEffect(seen, lines[..|lines| - 1], parses, now);
      var last := LineEffect(prev.1, lines[|lines| - 1], parses, now);
      (prev.0 + [last.0], last.1)
  }

  /** The number of events among some outcomes. */
  function EventCount(outcomes: seq<LineOutcome>): nat
    decreases |outcomes|
  {
    if outcomes == [] then 0
    else
      var last := outcomes[|outcomes| - 1];
      EventCount(outcomes[..|outcomes| - 1]) + |set k | 0 <= k < |last.actions| && last.actions[k].Emitted?|
  }

  /** Lines that emit nothing leave no more than nothing. */
  lemma QuietLineCount(o: LineOutcome)
    requires o.actions == []
    ensures |set k | 0 <= k < |o.actions| && o.actions[k].Emitted?| == 0
  {
    assert (set k | 0 <= k < |o.actions| && o.actions[k].Emitted?) == {};
  }

  /** A line that emits holds exactly one event. */
  lemma EventLineCount(o: LineOutcome)
    requires |o.actions| == 2 && o.actions[0].Emitted? && o.actions[1].Metric?
    ensures |set k | 0 <= k < |o.actions| && o.actions[k].Emitted?| == 1
  {
    assert (set k | 0 <= k < |o.actions| && o.actions[k].Emitted?) == {0};
  }

  /** Over any lines, the counter moves on by the number of events
      emitted: `processed_targets` counts the responses, not the lines. */
  lemma {:induction false} CounterCountsEvents(seen: nat, lines: seq<string>, parses: map<string, Json>, now: string)
    ensures LinesEffect(seen, lines, parses, now).1 == seen + EventCount(LinesEffect(seen, lines, parses, now).0)
    decreases |lines|
  {
    if lines != [] {
      var init := lines[..|lines| - 1];
      var prev := LinesEffect(seen, init, parses, now);
      CounterCountsEvents(seen, init, parses, now);
      var last := LineEffect(prev.1, lines[|lines| - 1], parses, now);
      var outs := prev.0 + [last.0];
      assert outs[..|outs| - 1] == prev.0;
      if last.1 == prev.1 {
        QuietLineCount(last.0);
      } else {
        EventLineCount(last.0);
      }
    }
  }

  /** Blank lines carry no event and leave the counter alone. */
  lemma {:induction false} BlankLinesQuiet(seen: nat, lines: seq<string>, parses: map<string, Json>, now: string)
    requires forall i :: 0 <= i < |lines| ==> IsBlank(lines[i])
    ensures LinesEffect(seen, lines, parses, now).1 == seen
    decreases |lines|
  {
    if lines != [] {
      BlankLinesQuiet(seen, lines[..|lines| - 1], parses, now);
    }
  }
}
