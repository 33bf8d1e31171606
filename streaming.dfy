/** `BaseAdapter.spawn_and_stream` and `WrapperAdapter`: running a tool's
    command and handing its output, line by line, to the wrapper. The
    process is given by what it prints and the code it exits with; the
    wrapper is given by the command it builds and the lines it receives. */
module Streaming {
  import opened Common
  import opened Text
  import opened Jsons
  import opened Envelope
  import opened Signals

  // ----- reading the output in text mode -----

  /** Universal newlines, as a text-mode pipe applies them: `"\r\n"` and a
      lone `"\r"` both read as `"\n"`. */
  function Universal(s: string): (r: string)
    ensures '\r' !in r
    decreases |s|
  {
    if s == [] then []
    else if s[0] == '\r' then "\n" + Universal(if |s| > 1 && s[1] == '\n' then s[2..] else s[1..])
    else [s[0]] + Universal(s[1..])
  }

  /** Output that never uses `"\r"` reads as it was written. */
  lemma {:induction false} UniversalPlain(s: string)
    requires '\r' !in s
    ensures Universal(s) == s
    decreases |s|
  {
    if s != [] {
      assert s[0] in s;
      assert forall k :: 0 <= k < |s[1..]| ==> s[1..][k] == s[k + 1];
      UniversalPlain(s[1..]);
      assert s == [s[0]] + s[1..];
    }
  }

  /** The lines that iterating over a text file yields: each keeps its
      `"\n"`, and only the last may lack one. */
  function FileLines(t: string): (r: seq<string>)
    ensures Flatten(r) == t
    ensures forall i :: 0 <= i < |r| ==> r[i] != []
    ensures forall i, k :: 0 <= i < |r| && 0 <= k < |r[i]| - 1 ==> r[i][k] != '\n'
    ensures forall i :: 0 <= i < |r| - 1 ==> r[i][|r[i]| - 1] == '\n'
    decreases |t|
  {
    if t == [] then []
    else
      var i := IndexOf(t, '\n');
      if i == |t| then
        assert Flatten([t]) == Flatten([]) + t;
        [t]
      else
        var rest := FileLines(t[i + 1..]);
        assert t == t[..i + 1] + t[i + 1..];
        assert Flatten([t[..i + 1]]) == Flatten([]) + t[..i + 1];
        FlattenConcat([t[..i + 1]], rest);
        assert ([t[..i + 1]] + rest)[1..] == rest;
        [t[..i + 1]] + rest
  }

  /** What `on_line` receives: each raw line with its trailing `"\n"` cut. */
  function Handed(raw: seq<string>): (r: seq<string>)
    ensures |r| == |raw|
    ensures forall i :: 0 <= i < |r| ==> r[i] == RStripChar(raw[i], '\n')
  {
    seq(|raw|, i requires 0 <= i < |raw| => RStripChar(raw[i], '\n'))
  }

  /** The text split at each `"\n"`, without the empty piece that a final
      `"\n"` leaves: the independent reading of what the lines are. */
  function TextLines(t: string): (r: seq<string>)
    ensures forall i :: 0 <= i < |r| ==> '\n' !in r[i]
  {
    if t == [] then []
    else
      var parts := Split(t, '\n');
      if parts[|parts| - 1] == [] then parts[..|parts| - 1] else parts
  }

  /** A line that ends in its only `"\n"` loses exactly that `"\n"`. */
  lemma StripTerminator(x: string)
    requires '\n' !in x
    ensures RStripChar(x + "\n", '\n') == x
  {
    assert (x + "\n")[..|x|] == x;
    assert x == [] || x[|x| - 1] in x;
  }

  /** A line and its `"\n"` come first, then the lines of the rest. */
  lemma TextLinesCons(head: string, u: string)
    requires '\n' !in head
    ensures TextLines(head + "\n" + u) == [head] + TextLines(u)
  {
    var t := head + "\n" + u;
    assert t == head + ['\n'] + u;
    SplitConcat(head, '\n', u);
    SplitNoSep(head, '\n');
    var ps := Split(u, '\n');
    assert Split(t, '\n') == [head] + ps;
    if u == [] {
      SplitNoSep(u, '\n');
    } else {
      assert ([head] + ps)[|ps|] == ps[|ps| - 1];
      assert ([head] + ps)[..|ps|] == [head] + ps[..|ps| - 1];
    }
  }

  lemma HandedCons(h: string, rest: seq<string>)
    ensures Handed([h] + rest) == [RStripChar(h, '\n')] + Handed(rest)
  {
    assert forall i :: 1 <= i < |rest| + 1 ==> ([h] + rest)[i] == rest[i - 1];
  }

  /** `on_line` gets every line of the output, in order, without its
      `"\n"`, and no line after a final `"\n"`. */
  lemma {:induction false} HandedLines(t: string)
    ensures Handed(FileLines(t)) == TextLines(t)
    decreases |t|
  {
    if t != [] {
      var i := IndexOf(t, '\n');
      if i == |t| {
        LastLine(t);
      } else {
        var u := t[i + 1..];
        var head := t[..i];
        assert '\n' !in head;
        assert t[..i + 1] == head + "\n";
        assert t == head + "\n" + u;
        StripTerminator(head);
        HandedLines(u);
        HandedCons(head + "\n", FileLines(u));
        TextLinesCons(head, u);
      }
    }
  }

  /** An unterminated last line is handed over whole. */
  lemma LastLine(t: string)
    requires t != [] && IndexOf(t, '\n') == |t|
    ensures Handed(FileLines(t)) == TextLines(t) == [t]
  {
    assert '\n' !in t;
    SplitNoSep(t, '\n');
    assert RStripChar(t, '\n') == t by {
      assert t[|t| - 1] in t;
    }
  }

  /** Lines written one per line are handed over as they were written. */
  lemma HandedTerminated(lines: seq<string>)
    requires forall i :: 0 <= i < |lines| ==> '\n' !in lines[i] && '\r' !in lines[i]
    ensures '\r' !in Terminated(lines)
    ensures Handed(FileLines(Universal(Terminated(lines)))) == lines
  {
    NoCarriageReturn(lines);
    UniversalPlain(Terminated(lines));
    HandedLines(Terminated(lines));
    TextLinesTerminated(lines);
  }

  lemma {:induction false} NoCarriageReturn(lines: seq<string>)
    requires forall i :: 0 <= i < |lines| ==> '\r' !in lines[i]
    ensures '\r' !in Terminated(lines)
  {
    if lines != [] {
      NoCarriageReturn(lines[1..]);
      assert Terminated(lines) == lines[0] + "\n" + Terminated(lines[1..]);
    }
  }

  lemma {:induction false} TextLinesTerminated(lines: seq<string>)
    requires forall i :: 0 <= i < |lines| ==> '\n' !in lines[i]
    ensures TextLines(Terminated(lines)) == lines
  {
    if lines != [] {
      TextLinesTerminated(lines[1..]);
      TextLinesCons(lines[0], Terminated(lines[1..]));
      assert lines == [lines[0]] + lines[1..];
    }
  }

  // ----- spawn_and_stream -----

  /** Everything `on_line` was called with, in order. */
  class LineSink {
    var lines: seq<string>

    constructor()
      ensures lines == []
    {
      lines := [];
    }

    method Take(line: string)
      modifies this
      ensures lines == old(lines) + [line]
    {
      lines := lines + [line];
    }
  }

  /** `spawn_and_stream(argv, on_line, hb=hb)` for a process that prints
      `output` and exits with `returncode`: the phase becomes `exec` when
      there is a heartbeat, every line goes to `on_line` as it is read, and
      the exit code comes back (`returncode or 0` is `returncode` once the
      process has been waited for). */
  method SpawnAndStream(output: string, returncode: int, sink: LineSink, hb: Heartbeat?) returns (code: int)
    requires hb != null ==> hb.Valid()
    modifies sink, hb
    ensures code == returncode
    ensures sink.lines == old(sink.lines) + TextLines(Universal(output))
    ensures hb != null ==> hb.Valid() && hb.metrics == Put(old(hb.metrics), "phase", Str("exec"))
    ensures hb != null ==> hb.started == old(hb.started) && hb.stopped == old(hb.stopped)
  {
    if hb != null {
      hb.SetMetric("phase", Str("exec"));
    }
    var raw := FileLines(Universal(output));
    StreamLines(raw, sink);
    HandedLines(Universal(output));
    code := returncode;
  }

  /** `for raw_line in process.stdout: on_line(raw_line.rstrip("\n"))`. */
  method StreamLines(raw: seq<string>, sink: LineSink)
    modifies sink
    ensures sink.lines == old(sink.lines) + Handed(raw)
  {
    var handed := Handed(raw);
    var i := 0;
    while i < |raw|
      invariant i <= |raw|
      invariant sink.lines == old(sink.lines) + handed[..i]
    {
      sink.Take(RStripChar(raw[i], '\n'));
      assert handed[..i + 1] == handed[..i] + [handed[i]];
      i := i + 1;
    }
    assert handed[..i] == handed;
  }

  // ----- WrapperAdapter -----

  /** `build_parameters(cfg)`: `cfg.parameters or {}`. */
  function BuildParameters(cfg: BatchConfig): (r: Json)
    ensures Truthy(cfg.parameters) ==> r == cfg.parameters
    ensures !Truthy(cfg.parameters) ==> r == Obj([])
  {
    Or(cfg.parameters, Obj([]))
  }

  /** What the wrapper contributes to one run: the command it builds from
      the targets and parameters, and what that command prints and exits
      with. */
  datatype Command = Command(argv: seq<string>, output: string, returncode: int)

  /** The metrics after `WrapperAdapter.main`: the number of targets, and
      when a command ran, the `exec` phase and its exit code; every other
      metric as it was. */
  function WrapperMetrics(metrics: Fields, targets: nat, cmd: Command): (r: Fields)
    ensures Get(r, "processed_targets") == Some(Int(targets))
    ensures cmd.argv != [] ==>
              Get(r, "last_exit_code") == Some(Int(cmd.returncode)) && Get(r, "phase") == Some(Str("exec"))
    ensures cmd.argv == [] ==>
              Get(r, "last_exit_code") == Get(metrics, "last_exit_code") && Get(r, "phase") == Get(metrics, "phase")
    ensures forall k :: k != "processed_targets" && k != "last_exit_code" && k != "phase" ==>
              Get(r, k) == Get(metrics, k)
  {
    var counted := Put(metrics, "processed_targets", Int(targets));
    if cmd.argv == [] then counted
    else
      var running := Put(counted, "phase", Str("exec"));
      var r := Put(running, "last_exit_code", Int(cmd.returncode));
      assert Get(r, "processed_targets") == Get(running, "processed_targets") == Get(counted, "processed_targets");
      assert Get(r, "phase") == Get(running, "phase");
      r
  }

  /** `WrapperAdapter.main`: records the number of targets, runs the command
      only when the wrapper built one, streams its lines to the wrapper, and
      records the exit code. */
  method WrapperMain(targets: seq<string>, cfg: BatchConfig, cmd: Command, sink: LineSink, hb: Heartbeat)
    returns (params: Json)
    requires hb.Valid()
    modifies sink, hb
    ensures params == BuildParameters(cfg)
    ensures hb.Valid() && hb.started == old(hb.started) && hb.stopped == old(hb.stopped)
    ensures hb.metrics == WrapperMetrics(old(hb.metrics), |targets|, cmd)
    ensures sink.lines == old(sink.lines) + (if cmd.argv != [] then TextLines(Universal(cmd.output)) else [])
  {
    params := BuildParameters(cfg);
    hb.SetMetric("processed_targets", Int(|targets|));
    if cmd.argv != [] {
      var exitCode := SpawnAndStream(cmd.output, cmd.returncode, sink, hb);
      hb.SetMetric("last_exit_code", Int(exitCode));
    }
  }
}
