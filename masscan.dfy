/** `MasscanWrapper`: the command line it builds from the batch parameters,
    the `masscan.jsonl` results it turns into `network.service` events, and
    the target flattening of its `run` helper.

    The parameters are the manifest's JSON object, read with `.get`.
    `json.loads` is not computed: the texts that parse are given as a map
    from text to the value it parses to, and a text outside the map is one
    that raises `JSONDecodeError`. */
module Masscan {
  import opened Common
  import opened Text
  import opened Jsons
  import Events
  import opened Workdirs

  const DefaultPorts := "1-1024"
  const DefaultRate := "1000"

  // ----- _normalize_ports -----

  /** `_normalize_ports(value)`: a list becomes its non-blank stripped
      entries joined by ",", anything else its stripped text, and nothing
      usable gives `None`. */
  function NormalizePorts(value: Json): (r: Option<string>)
    ensures value == Null ==> r.None?
    ensures value.Arr? ==> (r.None? <==> StrippedNonBlank(Strs(value.items)) == [])
    ensures value != Null && !value.Arr? ==> (r.None? <==> IsBlank(PyStr(value)))
    ensures value != Null && !value.Arr? && r.Some? ==> r.value == Strip(PyStr(value))
    ensures r.Some? ==> Stripped(r.value)
  {
    if value == Null then None
    else if value.Arr? then JoinedPorts(StrippedNonBlank(Strs(value.items)))
    else TextPorts(PyStr(value))
  }

  /** The list case: the parts joined by ",", or `None` for no parts. */
  function JoinedPorts(parts: seq<string>): (r: Option<string>)
    requires forall i :: 0 <= i < |parts| ==> Stripped(parts[i])
    ensures r.None? <==> parts == []
    ensures r.Some? ==> Stripped(r.value)
  {
    if parts == [] then None
    else
      JoinStripped(",", parts);
      Some(Join(",", parts))
  }

  /** Any other value: its stripped text, or `None` for a blank one. */
  function TextPorts(t: string): (r: Option<string>)
    ensures r.None? <==> IsBlank(t)
    ensures r.Some? ==> r.value == Strip(t) && Stripped(r.value)
  {
    StripBlank(t);
    var text := Strip(t);
    if text == "" then None else Some(text)
  }

  /** Stripped parts joined by any separator give a stripped text: the
      result starts with the first part and ends with the last. */
  lemma {:induction false} JoinStripped(sep: string, parts: seq<string>)
    requires parts != []
    requires forall i :: 0 <= i < |parts| ==> Stripped(parts[i])
    ensures Stripped(Join(sep, parts))
  {
    if |parts| > 1 {
      JoinStripped(sep, parts[1..]);
      var rest := Join(sep, parts[1..]);
      assert Join(sep, parts) == parts[0] + sep + rest;
    }
  }

  /** The ports argument is a fixpoint: normalising what `_normalize_ports`
      produced gives it back unchanged. */
  lemma NormalizePortsIdempotent(value: Json)
    requires NormalizePorts(value).Some?
    ensures NormalizePorts(Str(NormalizePorts(value).value)) == NormalizePorts(value)
  {
    var p := NormalizePorts(value).value;
    StrippedIsFixpoint(p);
    StripBlank(p);
  }

  /** The parts of a list never hold the separator, so splitting the
      argument on "," gives back the non-blank entries, in order. */
  lemma NormalizePortsSplits(items: seq<Json>)
    requires NormalizePorts(Arr(items)).Some?
    requires forall i :: 0 <= i < |items| ==> ',' !in PyStr(items[i])
    ensures Split(NormalizePorts(Arr(items)).value, ',') == StrippedNonBlank(Strs(items))
  {
    var parts := StrippedNonBlank(Strs(items));
    StrippedNonBlankLacks(Strs(items), ',');
    SplitJoin(parts, ',');
  }

  /** A character no line holds is in no kept line. */
  lemma {:induction false} StrippedNonBlankLacks(lines: seq<string>, c: char)
    requires forall i :: 0 <= i < |lines| ==> c !in lines[i]
    ensures forall i :: 0 <= i < |StrippedNonBlank(lines)| ==> c !in StrippedNonBlank(lines)[i]
  {
    if lines != [] {
      StrippedNonBlankLacks(lines[1..], c);
      ContributionLacks(lines[0], c);
      StrippedNonBlankCons(lines);
      ConcatLacks(Contribution(lines[0]), StrippedNonBlank(lines[1..]), c);
    }
  }

  lemma ContributionLacks(line: string, c: char)
    requires c !in line
    ensures forall i :: 0 <= i < |Contribution(line)| ==> c !in Contribution(line)[i]
  {
    if c in Strip(line) {
      StripKeeps(line, c);
    }
  }

  lemma ConcatLacks(h: seq<string>, rest: seq<string>, c: char)
    requires forall i :: 0 <= i < |h| ==> c !in h[i]
    requires forall i :: 0 <= i < |rest| ==> c !in rest[i]
    ensures forall i :: 0 <= i < |h + rest| ==> c !in (h + rest)[i]
  {
    forall i | 0 <= i < |h + rest| ensures c !in (h + rest)[i] {
      if i >= |h| {
        assert (h + rest)[i] == rest[i - |h|];
      }
    }
  }

  /** `sep.join(parts).split(sep)` is `parts` when no part holds `sep`. */
  lemma {:induction false} SplitJoin(parts: seq<string>, sep: char)
    requires parts != []
    requires forall i :: 0 <= i < |parts| ==> sep !in parts[i]
    ensures Split(Join([sep], parts), sep) == parts
  {
    if |parts| == 1 {
      SplitNoSep(parts[0], sep);
    } else {
      SplitJoin(parts[1..], sep);
      SplitConcat(parts[0], sep, Join([sep], parts[1..]));
      SplitNoSep(parts[0], sep);
    }
  }

  // ----- build_cmd -----

  /** `-p`: the normalised `ports` or `masscan_ports`, else "1-1024". */
  function PortsArg(params: Fields): (r: string)
    ensures Stripped(r)
  {
    var n := NormalizePorts(Or(GetJ(params, "ports"), GetJ(params, "masscan_ports")));
    if n.Some? then n.value else DefaultPorts
  }

  /** `--rate`: `rate`, else `masscan_rate`, else "1000". */
  function RateArg(params: Fields): string
  {
    PyStr(Or(Or(GetJ(params, "rate"), GetJ(params, "masscan_rate")), Str(DefaultRate)))
  }

  /** The ten arguments every command starts with. */
  function BaseArgs(ports: string, rate: string, jsonl: string, targetFile: string): (r: seq<string>)
  {
    ["masscan", "-p", ports, "--rate", rate, "--open", "-oJ", jsonl, "-iL", targetFile]
  }

  function InterfaceArgs(params: Fields): seq<string>
  {
    var v := Or(GetJ(params, "masscan_interface"), GetJ(params, "interface"));
    if Truthy(v) then ["--interface", PyStr(v)] else []
  }

  /** The shard keys, in the order they are looked up. */
  const ShardFlags: seq<string> := ["shards", "shard", "masscan_shards", "masscan_shard"]

  /** The index of the first flag that is a key of `params`, or
      `|flags|` when none is. */
  function FirstPresent(params: Fields, flags: seq<string>): (n: nat)
    ensures n <= |flags|
    ensures forall j :: 0 <= j < n ==> flags[j] !in Keys(params)
    ensures n < |flags| ==> flags[n] in Keys(params)
    decreases |flags|
  {
    if flags == [] then 0
    else if flags[0] in Keys(params) then 0
    else 1 + FirstPresent(params, flags[1..])
  }

  /** The arguments for the value found under `flag`: a pair under a
      plural key is `--shards a b`, anything else `--shard v`. */
  function ShardArgsFor(flag: string, value: Json): (r: seq<string>)
  {
    if EndsWith(flag, "s") && value.Arr? && |value.items| == 2 then
      ["--shards", PyStr(value.items[0]), PyStr(value.items[1])]
    else ["--shard", PyStr(value)]
  }

  function ShardArgs(params: Fields): (r: seq<string>)
  {
    var n := FirstPresent(params, ShardFlags);
    if n == |ShardFlags| then [] else ShardArgsFor(ShardFlags[n], GetJ(params, ShardFlags[n]))
  }

  /** Only the first shard key present counts: no shard key gives no shard
      argument, and otherwise the arguments depend on that key's value
      alone, `--shards` only for a pair under a plural key. */
  lemma ShardRule(params: Fields, n: nat)
    requires n < |ShardFlags| && ShardFlags[n] in Keys(params)
    requires forall j :: 0 <= j < n ==> ShardFlags[j] !in Keys(params)
    ensures var v := Get(params, ShardFlags[n]).value;
            ShardArgs(params) ==
              if (n == 0 || n == 2) && v.Arr? && |v.items| == 2 then ["--shards", PyStr(v.items[0]), PyStr(v.items[1])]
              else ["--shard", PyStr(v)]
  {
    var m := FirstPresent(params, ShardFlags);
    assert m == n;
    assert EndsWith(ShardFlags[0], "s") && EndsWith(ShardFlags[2], "s");
    assert !EndsWith(ShardFlags[1], "s") && !EndsWith(ShardFlags[3], "s");
  }

  /** No shard key, no shard argument. */
  lemma NoShardKey(params: Fields)
    requires forall j :: 0 <= j < |ShardFlags| ==> ShardFlags[j] !in Keys(params)
    ensures ShardArgs(params) == []
  {
    var n := FirstPresent(params, ShardFlags);
    assert n == |ShardFlags|;
  }

  function ExcludeArgs(params: Fields): seq<string>
  {
    var v := Or(Or(GetJ(params, "exclude"), GetJ(params, "exclude_file")), GetJ(params, "masscan_exclude"));
    if Truthy(v) then ["--excludefile", PyStr(v)] else []
  }

  function BannerArgs(params: Fields): seq<string>
  {
    if Truthy(Or(GetJ(params, "banners"), GetJ(params, "masscan_banners"))) then ["--banners"] else []
  }

  /** The value of `extra_args`, else of `masscan_extra_args`. */
  function ExtraValue(params: Fields): Json
  {
    Or(GetJ(params, "extra_args"), GetJ(params, "masscan_extra_args"))
  }

  /** The extra arguments for that value: a list element by element, a
      string once, stripped, when it is not blank; nothing otherwise. */
  function ExtraArgsOf(v: Json): (r: seq<string>)
    ensures v.Arr? ==> r == Strs(v.items)
    ensures v.Str? ==> |r| <= 1 && (r != [] <==> !IsBlank(v.s))
    ensures v.Str? && r != [] ==> Stripped(r[0]) && r[0] == Strip(v.s)
    ensures !v.Arr? && !v.Str? ==> r == []
  {
    if v.Arr? then Strs(v.items)
    else if v.Str? then
      StripBlank(v.s);
      if Strip(v.s) != "" then [Strip(v.s)] else []
    else []
  }

  /** The options after the ten fixed arguments, in the order they are added. */
  function Options(params: Fields): seq<string>
  {
    InterfaceArgs(params) + ShardArgs(params) + ExcludeArgs(params) + BannerArgs(params) + ExtraArgsOf(ExtraValue(params))
  }

  /** The whole command line `build_cmd` returns for a non-empty target list. */
  function Argv(params: Fields, jsonl: string, targetFile: string): (r: seq<string>)
  {
    BaseArgs(PortsArg(params), RateArg(params), jsonl, targetFile) + Options(params)
  }

  lemma BaseArgsShape(ports: string, rate: string, jsonl: string, targetFile: string, options: seq<string>)
    ensures var r := BaseArgs(ports, rate, jsonl, targetFile) + options;
            && |r| == 10 + |options|
            && r[0] == "masscan" && r[1] == "-p" && r[2] == ports && r[3] == "--rate" && r[4] == rate
            && r[5] == "--open" && r[6] == "-oJ" && r[7] == jsonl && r[8] == "-iL" && r[9] == targetFile
            && r[10..] == options
  {
    var r := BaseArgs(ports, rate, jsonl, targetFile) + options;
    assert r[10..] == options;
  }

  /** Every command starts with the fixed arguments, scans the ports and
      at the rate the parameters give, and writes its results to the JSON
      lines file it is given; the options follow. */
  lemma ArgvShape(params: Fields, jsonl: string, targetFile: string)
    ensures var r := Argv(params, jsonl, targetFile);
            && |r| >= 10
            && r[0] == "masscan" && r[1] == "-p" && r[2] == PortsArg(params) && r[3] == "--rate" && r[4] == RateArg(params)
            && r[5] == "--open" && r[6] == "-oJ" && r[7] == jsonl && r[8] == "-iL" && r[9] == targetFile
            && r[10..] == Options(params)
  {
    BaseArgsShape(PortsArg(params), RateArg(params), jsonl, targetFile, Options(params));
  }

  /** Without `ports` and `masscan_ports`, all ports up to 1024 are scanned. */
  lemma DefaultPortsUsed(params: Fields)
    requires "ports" !in Keys(params) && "masscan_ports" !in Keys(params)
    ensures PortsArg(params) == DefaultPorts
  {
  }

  /** Without a truthy `rate` or `masscan_rate`, the rate is 1000. */
  lemma DefaultRateUsed(params: Fields)
    requires !Truthy(GetJ(params, "rate")) && !Truthy(GetJ(params, "masscan_rate"))
    ensures RateArg(params) == DefaultRate
  {
  }

  /** The target list as `build_cmd` writes it: one target per line. */
  function TargetFileText(targets: seq<string>): string
  {
    Join("\n", targets) + "\n"
  }

  /** What masscan reads back with `-iL` is the target list itself. */
  lemma TargetFileRoundTrip(targets: seq<string>)
    requires targets != []
    requires forall i :: 0 <= i < |targets| ==> NoLineBoundary(targets[i])
    ensures SplitLines(TargetFileText(targets)) == targets
  {
    JoinTerminated(targets);
    SplitLinesTerminated(targets);
  }

  // ----- results -----

  /** One `NetworkService` the wrapper emits. `ip` and `banner` are the
      JSON values the result holds; the dataclass does not check them. */
  datatype Hit = Hit(ip: Json, port: int, protocol: string, banner: Json)

  /** The events emitted, and whether the walk ended in an exception
      (which then escapes `postprocess_files`). */
  datatype Scan = Scan(hits: seq<Hit>, raised: bool)

  const NoHits := Scan([], false)

  /** `hit.to_payload()`. */
  function HitPayload(h: Hit): Fields
  {
    [("ip", h.ip), ("port", Int(h.port)), ("protocol", Str(h.protocol)), ("banner", h.banner)]
  }

  /** The event of a hit with a string address and a string or absent
      banner is the packaged `NetworkService` event with those fields. */
  lemma HitIsService(h: Hit)
    requires h.ip.Str? && (h.banner.Str? || h.banner == Null)
    ensures var s := Events.NetworkService("network.service", h.ip.s, h.port, h.protocol,
                                           if h.banner.Str? then Some(h.banner.s) else None);
            Events.ServiceModel(s) == Events.Model("network.service", HitPayload(h))
  {
  }

  /** `int(port_info.get("port", 0))`, with 0 where `int` raises. */
  function PortNumber(v: Option<Json>): (n: int)
    ensures v.None? ==> n == 0
    ensures v.Some? && v.value.Int? ==> n == v.value.i
    ensures v.Some? && v.value.Str? && ParseInt(v.value.s).Some? ==> n == ParseInt(v.value.s).value
  {
    match v
    case None => 0
    case Some(j) =>
      match j
      case Int(i) => i
      case Bool(b) => if b then 1 else 0
      case Str(s) => if ParseInt(s).Some? then ParseInt(s).value else 0
      case _ => 0
  }

  /** A port written out in decimal is read back as that port. */
  lemma PortNumberOfText(port: int)
    ensures PortNumber(Some(Str(IntToString(port)))) == port
  {
    IntToStringRoundTrip(port);
  }

  /** The service one port entry yields: none for a status other than
      "open", none for a port that is not positive; "tcp" when `proto` is
      missing, and the `service`, else the `banner`, as banner. */
  function PortHit(ip: Json, info: Fields): (r: Option<Hit>)
    ensures var status := GetJ(info, "status");
            r.Some? <==> (!Truthy(status) || status == Str("open")) && PortNumber(Get(info, "port")) > 0
    ensures r.Some? ==> r.value.ip == ip && r.value.port == PortNumber(Get(info, "port")) && r.value.port > 0
    ensures r.Some? && "proto" !in Keys(info) ==> r.value.protocol == "tcp"
    ensures r.Some? ==> r.value.banner == (if Truthy(GetJ(info, "service")) then GetJ(info, "service") else GetJ(info, "banner"))
  {
    var status := GetJ(info, "status");
    if Truthy(status) && status != Str("open") then None
    else
      var port := PortNumber(Get(info, "port"));
      if port <= 0 then None
      else Some(Hit(ip, port, PyStr(GetDefault(info, "proto", Str("tcp"))), Or(GetJ(info, "service"), GetJ(info, "banner"))))
  }

  /** One more item of a walk that has not raised: a port entry that is not
      an object raises on `.get`. */
  function PortStep(ip: Json, acc: Scan, info: Json): (r: Scan)
    ensures acc.raised ==> r == acc
    ensures acc.hits <= r.hits && |r.hits| <= |acc.hits| + 1
  {
    if acc.raised then acc
    else if !info.Obj? then Scan(acc.hits, true)
    else
      var h := PortHit(ip, info.fields);
      if h.Some? then Scan(acc.hits + [h.value], false) else acc
  }

  /** The `for port_info in ports` loop, up to its end or its exception. */
  function PortsScan(ip: Json, ports: seq<Json>): (r: Scan)
    ensures |r.hits| <= |ports|
    ensures forall k :: 0 <= k < |r.hits| ==> r.hits[k].ip == ip && r.hits[k].port > 0
    decreases |ports|
  {
    if ports == [] then NoHits
    else PortStep(ip, PortsScan(ip, ports[..|ports| - 1]), ports[|ports| - 1])
  }

  /** The port entries are taken in order: the events of a longer list
      start with those of its prefix, and an exception ends the walk. */
  lemma {:induction false} PortsScanAppend(ip: Json, xs: seq<Json>, ys: seq<Json>)
    ensures PortsScan(ip, xs).hits <= PortsScan(ip, xs + ys).hits
    ensures PortsScan(ip, xs).raised ==> PortsScan(ip, xs + ys) == PortsScan(ip, xs)
    decreases |ys|
  {
    if ys != [] {
      var ys' := ys[..|ys| - 1];
      assert (xs + ys)[..|xs + ys| - 1] == xs + ys';
      PortsScanAppend(ip, xs, ys');
    } else {
      assert xs + ys == xs;
    }
  }

  /** The document `_emit_masscan_obj` works on: a string is parsed first,
      and one that does not parse is dropped without a word. */
  function Document(parses: map<string, Json>, obj: Json): Option<Json>
  {
    if obj.Str? then (if obj.s in parses then Some(parses[obj.s]) else None) else Some(obj)
  }

  /** `_emit_masscan_obj(obj, emit)`: nothing for what is not an object or
      has no truthy `ip`; a `ports` value that is truthy but not a list
      raises when iterated. */
  function ObjScan(parses: map<string, Json>, obj: Json): (r: Scan)
    ensures var d := Document(parses, obj);
            d.None? || !d.value.Obj? || !Truthy(GetJ(d.value.fields, "ip")) ==> r == NoHits
    ensures forall k :: 0 <= k < |r.hits| ==> Truthy(r.hits[k].ip) && r.hits[k].port > 0
  {
    var d := Document(parses, obj);
    if d.None? || !d.value.Obj? then NoHits
    else
      var ip := GetJ(d.value.fields, "ip");
      if !Truthy(ip) then NoHits
      else
        var ports := Or(GetJ(d.value.fields, "ports"), Arr([]));
        if ports.Arr? then PortsScan(ip, ports.items) else Scan([], true)
  }

  /** Two walks one after the other; the second does not start once the
      first has raised. */
  function Then(a: Scan, b: Scan): (r: Scan)
    ensures a.raised ==> r == a
    ensures !a.raised ==> r.hits == a.hits + b.hits && r.raised == b.raised
  {
    if a.raised then a else Scan(a.hits + b.hits, b.raised)
  }

  /** The `for obj in data` loop over a JSON array. */
  function ItemsScan(parses: map<string, Json>, items: seq<Json>): (r: Scan)
    ensures forall k :: 0 <= k < |r.hits| ==> Truthy(r.hits[k].ip) && r.hits[k].port > 0
    decreases |items|
  {
    if items == [] then NoHits
    else Then(ItemsScan(parses, items[..|items| - 1]), ObjScan(parses, items[|items| - 1]))
  }

  /** Whether a line of a non-JSON results file is skipped: blank, or a
      comment. */
  predicate Skipped(line: string)
  {
    Strip(line) == "" || StartsWith(Strip(line), "#")
  }

  /** The line-by-line fallback for a file that is not one JSON document. */
  function LinesScan(parses: map<string, Json>, lines: seq<string>): (r: Scan)
    ensures forall k :: 0 <= k < |r.hits| ==> Truthy(r.hits[k].ip) && r.hits[k].port > 0
    decreases |lines|
  {
    if lines == [] then NoHits
    else
      var acc := LinesScan(parses, lines[..|lines| - 1]);
      var line := lines[|lines| - 1];
      if Skipped(line) then acc else Then(acc, ObjScan(parses, Str(Strip(line))))
  }

  /** `postprocess_files`: nothing without a results file or with a blank
      one; a JSON array item by item; any other JSON value nothing; text
      that is not JSON line by line. */
  function Postprocess(jsonl: Option<string>, files: map<string, string>, parses: map<string, Json>): (r: Scan)
    ensures jsonl.None? || jsonl.value !in files || IsBlank(files[jsonl.value]) ==> r == NoHits
    ensures forall k :: 0 <= k < |r.hits| ==> Truthy(r.hits[k].ip) && r.hits[k].port > 0
  {
    if jsonl.None? || jsonl.value !in files then NoHits
    else
      var text := Strip(files[jsonl.value]);
      StripBlank(files[jsonl.value]);
      if text == "" then NoHits
      else if text in parses then
        var data := parses[text];
        if data.Arr? then ItemsScan(parses, data.items) else NoHits
      else LinesScan(parses, SplitLines(text))
  }

  /** Comment and blank lines contribute nothing, wherever they are. */
  lemma SkippedLine(parses: map<string, Json>, lines: seq<string>, line: string)
    requires Skipped(line)
    ensures LinesScan(parses, lines + [line]) == LinesScan(parses, lines)
  {
    assert (lines + [line])[..|lines|] == lines;
  }

  /** An entry reading status "open", a positive port, a protocol and a
      service name gives a service with exactly those. */
  lemma OpenEntry(ip: Json, info: Fields, port: int, proto: string, service: string)
    requires Get(info, "status") == Some(Str("open")) && Get(info, "port") == Some(Int(port)) && port > 0
    requires Get(info, "proto") == Some(Str(proto)) && Get(info, "service") == Some(Str(service)) && service != ""
    ensures PortHit(ip, info) == Some(Hit(ip, port, proto, Str(service)))
  {
  }

  lemma OpenPortFields(open: Fields)
    requires open == [("port", Int(80)), ("proto", Str("tcp")), ("status", Str("open")), ("service", Str("http"))]
    ensures Get(open, "port") == Some(Int(80)) && Get(open, "proto") == Some(Str("tcp"))
    ensures Get(open, "status") == Some(Str("open")) && Get(open, "service") == Some(Str("http"))
  {
    assert |open[0].0| == 4 && |open[1].0| == 5 && |open[2].0| == 6 && |open[3].0| == 7;
    GetFirst(open, 0);
    GetFirst(open, 1);
    GetFirst(open, 2);
    GetFirst(open, 3);
  }

  /** Example, on the input of the wrapper's own test: its open port gives
      its service. */
  lemma SmokeOpenPort(ip: Json, open: Fields)
    requires open == [("port", Int(80)), ("proto", Str("tcp")), ("status", Str("open")), ("service", Str("http"))]
    ensures PortHit(ip, open) == Some(Hit(ip, 80, "tcp", Str("http")))
  {
    OpenPortFields(open);
    OpenEntry(ip, open, 80, "tcp", "http");
  }

  /** Example: the closed port of that test gives nothing. */
  lemma SmokeClosedPort(ip: Json, closed: Fields)
    requires closed == [("port", Int(22)), ("proto", Str("tcp")), ("status", Str("closed"))]
    ensures PortHit(ip, closed) == None
  {
    assert |closed[0].0| == 4 && |closed[1].0| == 5 && |closed[2].0| == 6;
    GetFirst(closed, 2);
  }

  /** Example: that open port followed by that closed one gives one
      service. */
  lemma SmokePorts(ip: Json, open: Json, closed: Json, h: Hit)
    requires open.Obj? && closed.Obj?
    requires PortHit(ip, open.fields) == Some(h) && PortHit(ip, closed.fields) == None
    ensures PortsScan(ip, [open, closed]) == Scan([h], false)
  {
    PortsScanTwo(ip, open, closed);
  }

  lemma PortsScanTwo(ip: Json, a: Json, b: Json)
    ensures PortsScan(ip, [a, b]) == PortStep(ip, PortStep(ip, NoHits, a), b)
  {
    assert [a, b][..1] == [a] && [a, b][1] == b;
    assert PortsScan(ip, [a, b]) == PortStep(ip, PortsScan(ip, [a]), b);
    assert [a][..0] == [];
    assert PortsScan(ip, [a]) == PortStep(ip, PortsScan(ip, []), a);
  }

  /** A host object with a truthy address and a list of ports: its
      services are those of its ports. */
  lemma HostEntry(parses: map<string, Json>, fs: Fields, ip: Json, ports: seq<Json>)
    requires Get(fs, "ip") == Some(ip) && Truthy(ip) && Get(fs, "ports") == Some(Arr(ports))
    ensures ObjScan(parses, Obj(fs)) == PortsScan(ip, ports)
  {
    assert Document(parses, Obj(fs)) == Some(Obj(fs));
    assert GetJ(fs, "ip") == ip;
    assert Or(GetJ(fs, "ports"), Arr([])) == Arr(ports);
  }

  /** Example: the host object of that test. */
  lemma SmokeObject(parses: map<string, Json>, ip: Json, ports: seq<Json>)
    requires ip == Str("203.0.113.10")
    ensures ObjScan(parses, Obj([("ip", ip), ("ports", Arr(ports))])) == PortsScan(ip, ports)
  {
    var fs := [("ip", ip), ("ports", Arr(ports))];
    HostFields(fs, ip, ports);
    HostEntry(parses, fs, ip, ports);
  }

  lemma HostFields(fs: Fields, ip: Json, ports: seq<Json>)
    requires fs == [("ip", ip), ("ports", Arr(ports))]
    ensures Get(fs, "ip") == Some(ip) && Get(fs, "ports") == Some(Arr(ports))
  {
    assert |fs[0].0| == 2 && |fs[1].0| == 5;
    GetFirst(fs, 0);
    GetFirst(fs, 1);
  }

  /** Example, the wrapper's own test as a whole (one input, not a law):
      its results file, one host with an open
      port 80 named "http" and a closed port 22 gives exactly one service,
      on port 80 over tcp with banner "http". */
  lemma SmokeExample(jsonl: string, files: map<string, string>, parses: map<string, Json>, text: string)
    requires jsonl in files && Strip(files[jsonl]) == text && text != ""
    requires text in parses
    requires parses[text] == Arr([Obj([("ip", Str("203.0.113.10")),
                                       ("ports", Arr([Obj([("port", Int(80)), ("proto", Str("tcp")), ("status", Str("open")), ("service", Str("http"))]),
                                                      Obj([("port", Int(22)), ("proto", Str("tcp")), ("status", Str("closed"))])]))])])
    ensures Postprocess(Some(jsonl), files, parses) == Scan([Hit(Str("203.0.113.10"), 80, "tcp", Str("http"))], false)
  {
    var ip := Str("203.0.113.10");
    var open := [("port", Int(80)), ("proto", Str("tcp")), ("status", Str("open")), ("service", Str("http"))];
    var closed := [("port", Int(22)), ("proto", Str("tcp")), ("status", Str("closed"))];
    var obj := Obj([("ip", ip), ("ports", Arr([Obj(open), Obj(closed)]))]);
    PostprocessArray(jsonl, files, parses, text, [obj]);
    ItemsScanOne(parses, obj);
    SmokeHost(parses, ip, open, closed);
  }

  /** A results file that parses to a JSON array is scanned item by item. */
  lemma PostprocessArray(jsonl: string, files: map<string, string>, parses: map<string, Json>, text: string, items: seq<Json>)
    requires jsonl in files && Strip(files[jsonl]) == text && text != ""
    requires text in parses && parses[text] == Arr(items)
    ensures Postprocess(Some(jsonl), files, parses) == ItemsScan(parses, items)
  {
  }

  lemma ItemsScanOne(parses: map<string, Json>, obj: Json)
    ensures ItemsScan(parses, [obj]) == Then(NoHits, ObjScan(parses, obj))
  {
    assert [obj][..0] == [];
  }

  /** Example: the host of that test, with its open and its closed port. */
  lemma SmokeHost(parses: map<string, Json>, ip: Json, open: Fields, closed: Fields)
    requires ip == Str("203.0.113.10")
    requires open == [("port", Int(80)), ("proto", Str("tcp")), ("status", Str("open")), ("service", Str("http"))]
    requires closed == [("port", Int(22)), ("proto", Str("tcp")), ("status", Str("closed"))]
    ensures ObjScan(parses, Obj([("ip", ip), ("ports", Arr([Obj(open), Obj(closed)]))])) == Scan([Hit(ip, 80, "tcp", Str("http"))], false)
  {
    var h := Hit(ip, 80, "tcp", Str("http"));
    SmokeOpenPort(ip, open);
    SmokeClosedPort(ip, closed);
    SmokePorts(ip, Obj(open), Obj(closed), h);
    SmokeObject(parses, ip, [Obj(open), Obj(closed)]);
  }

  /** The object that receives the events, in order. */
  class ServiceSink {
    var hits: seq<Hit>

    constructor()
      ensures hits == []
    {
      hits := [];
    }

    method Emit(h: Hit)
      modifies this
      ensures hits == old(hits) + [h]
    {
      hits := hits + [h];
    }
  }

  /** The `for port_info in ports` loop of `_emit_masscan_obj`. */
  method EmitPorts(ip: Json, items: seq<Json>, sink: ServiceSink) returns (raised: bool)
    modifies sink
    ensures sink.hits == old(sink.hits) + PortsScan(ip, items).hits
    ensures raised == PortsScan(ip, items).raised
  {
    ghost var h0 := sink.hits;
    var i := 0;
    raised := false;
    while i < |items| && !raised
      invariant 0 <= i <= |items|
      invariant sink.hits == h0 + PortsScan(ip, items[..i]).hits
      invariant raised == PortsScan(ip, items[..i]).raised
    {
      assert items[..i + 1][..i] == items[..i];
      ghost var prev := PortsScan(ip, items[..i]);
      assert PortsScan(ip, items[..i + 1]) == PortStep(ip, prev, items[i]);
      var info := items[i];
      if !info.Obj? {
        raised := true;
      } else {
        var h := PortHit(ip, info.fields);
        if h.Some? {
          sink.Emit(h.value);
          AppendAssoc(h0, prev.hits, [h.value]);
        }
      }
      i := i + 1;
    }
    if raised {
      PortsScanAppend(ip, items[..i], items[i..]);
      assert items[..i] + items[i..] == items;
    } else {
      assert items[..i] == items;
    }
  }

  /** `_emit_masscan_obj(obj, emit)`. */
  method EmitMasscanObj(parses: map<string, Json>, obj: Json, sink: ServiceSink) returns (raised: bool)
    modifies sink
    ensures sink.hits == old(sink.hits) + ObjScan(parses, obj).hits
    ensures raised == ObjScan(parses, obj).raised
  {
    var d := Document(parses, obj);
    if d.None? || !d.value.Obj? {
      return false;
    }
    var ip := GetJ(d.value.fields, "ip");
    if !Truthy(ip) {
      return false;
    }
    var ports := Or(GetJ(d.value.fields, "ports"), Arr([]));
    if !ports.Arr? {
      return true;
    }
    raised := EmitPorts(ip, ports.items, sink);
  }

  // ----- the wrapper object -----

  /** `MasscanWrapper`: `build_cmd` remembers where masscan will write its
      results, and `postprocess_files` reads them from there. */
  class MasscanWrapper {
    /** `self._jsonl`. */
    var jsonl: Option<string>

    constructor()
      ensures jsonl == None
    {
      jsonl := None;
    }

    /** `build_cmd(targets, params, workdir)`: nothing for no targets;
        otherwise the target file is written, the results path remembered,
        and the command line returned. */
    method BuildCmd(targets: seq<string>, params: Fields, workdir: Workdir) returns (cmd: Option<seq<string>>)
      modifies this, workdir
      ensures targets == [] ==> cmd == None && jsonl == old(jsonl) && workdir.files == old(workdir.files)
      ensures targets != [] ==>
                var targetFile := PathOf(workdir.path, "targets.txt");
                && workdir.files == old(workdir.files)[targetFile := TargetFileText(targets)]
                && jsonl == Some(PathOf(workdir.path, "masscan.jsonl"))
                && cmd == Some(Argv(params, jsonl.value, targetFile))
    {
      if targets == [] {
        return None;
      }
      var targetFile := workdir.WriteText("targets.txt", TargetFileText(targets));
      var results := PathOf(workdir.path, "masscan.jsonl");
      jsonl := Some(results);
      var args := CommandLine(params, results, targetFile);
      cmd := Some(args);
    }

    /** `artifacts(workdir)`: the results file, as JSON, once it exists. */
    function Artifacts(files: map<string, string>): (r: seq<(string, string)>)
      reads this
      ensures r != [] <==> jsonl.Some? && jsonl.value in files
      ensures |r| <= 1 && forall k :: 0 <= k < |r| ==> r[k].0 == jsonl.value && r[k].1 == "application/json"
    {
      if jsonl.Some? && jsonl.value in files then [(jsonl.value, "application/json")] else []
    }

    /** `postprocess_files(workdir, emit)`, with the results file read from
        `files`: the events go to `sink`, and `raised` says whether an
        exception escaped. */
    method PostprocessFiles(files: map<string, string>, parses: map<string, Json>, sink: ServiceSink) returns (raised: bool)
      modifies sink
      ensures sink.hits == old(sink.hits) + Postprocess(jsonl, files, parses).hits
      ensures raised == Postprocess(jsonl, files, parses).raised
    {
      if jsonl.None? || jsonl.value !in files {
        return false;
      }
      var text := Strip(files[jsonl.value]);
      if text == "" {
        return false;
      }
      if text in parses {
        var data := parses[text];
        if data.Arr? {
          raised := EmitItems(parses, data.items, sink);
        } else {
          raised := false;
        }
      } else {
        raised := EmitLines(parses, SplitLines(text), sink);
      }
    }
  }

  /** The list `build_cmd` assembles, argument group by argument group. */
  method CommandLine(params: Fields, jsonl: string, targetFile: string) returns (args: seq<string>)
    ensures args == Argv(params, jsonl, targetFile)
  {
    var base := BaseArgs(PortsArg(params), RateArg(params), jsonl, targetFile);
    args := base + InterfaceArgs(params);
    args := AddShardArgs(args, params);
    args := args + ExcludeArgs(params) + BannerArgs(params);
    var extra := ExtraValue(params);
    if extra.Arr? {
      args := AddAll(args, extra.items);
    } else {
      args := args + ExtraArgsOf(extra);
    }
    Grouped(base, InterfaceArgs(params), ShardArgs(params), ExcludeArgs(params), BannerArgs(params), ExtraArgsOf(extra));
  }

  lemma Grouped(a: seq<string>, b: seq<string>, c: seq<string>, d: seq<string>, e: seq<string>, f: seq<string>)
    ensures a + b + c + d + e + f == a + (b + c + d + e + f)
  {
  }

  /** The `for shard_flag in (...)` loop: the first shard key present
      adds its arguments and ends the loop. */
  method AddShardArgs(args: seq<string>, params: Fields) returns (r: seq<string>)
    ensures r == args + ShardArgs(params)
  {
    r := args;
    var i := 0;
    while i < |ShardFlags|
      invariant 0 <= i <= |ShardFlags|
      invariant forall j :: 0 <= j < i ==> ShardFlags[j] !in Keys(params)
      invariant r == args
    {
      var flag := ShardFlags[i];
      if flag in Keys(params) {
        assert FirstPresent(params, ShardFlags) == i;
        r := r + ShardArgsFor(flag, GetJ(params, flag));
        break;
      }
      i := i + 1;
    }
    if i == |ShardFlags| {
      assert FirstPresent(params, ShardFlags) == |ShardFlags|;
      assert r + [] == r;
    }
  }

  /** `cmd.extend(str(arg) for arg in extra_args)`. */
  method AddAll(args: seq<string>, items: seq<Json>) returns (r: seq<string>)
    ensures r == args + Strs(items)
  {
    r := args;
    var k := 0;
    while k < |items|
      invariant 0 <= k <= |items|
      invariant r == args + Strs(items[..k])
    {
      r := r + [PyStr(items[k])];
      k := k + 1;
      assert Strs(items[..k]) == Strs(items[..k - 1]) + [PyStr(items[k - 1])];
    }
    assert items[..k] == items;
  }

  /** The `for obj in data` loop over a results file that is a JSON array. */
  method EmitItems(parses: map<string, Json>, items: seq<Json>, sink: ServiceSink) returns (raised: bool)
    modifies sink
    ensures sink.hits == old(sink.hits) + ItemsScan(parses, items).hits
    ensures raised == ItemsScan(parses, items).raised
  {
    ghost var h0 := sink.hits;
    var i := 0;
    raised := false;
    while i < |items| && !raised
      invariant 0 <= i <= |items|
      invariant sink.hits == h0 + ItemsScan(parses, items[..i]).hits
      invariant raised == ItemsScan(parses, items[..i]).raised
    {
      raised := EmitItem(parses, items, i, sink, h0);
      i := i + 1;
    }
    ItemsScanDone(parses, items, i);
  }

  /** One pass of that loop, for an item the walk reaches. */
  method EmitItem(parses: map<string, Json>, items: seq<Json>, i: nat, sink: ServiceSink, ghost h0: seq<Hit>) returns (raised: bool)
    requires i < |items| && !ItemsScan(parses, items[..i]).raised
    requires sink.hits == h0 + ItemsScan(parses, items[..i]).hits
    modifies sink
    ensures sink.hits == h0 + ItemsScan(parses, items[..i + 1]).hits
    ensures raised == ItemsScan(parses, items[..i + 1]).raised
  {
    ItemsScanStep(parses, items, i);
    ThenHits(ItemsScan(parses, items[..i]), ObjScan(parses, items[i]), h0);
    raised := EmitMasscanObj(parses, items[i], sink);
  }

  lemma ThenHits(a: Scan, b: Scan, h0: seq<Hit>)
    requires !a.raised
    ensures h0 + a.hits + b.hits == h0 + Then(a, b).hits && Then(a, b).raised == b.raised
  {
  }

  /** The line-by-line loop over a results file that is not JSON. */
  method EmitLines(parses: map<string, Json>, lines: seq<string>, sink: ServiceSink) returns (raised: bool)
    modifies sink
    ensures sink.hits == old(sink.hits) + LinesScan(parses, lines).hits
    ensures raised == LinesScan(parses, lines).raised
  {
    ghost var h0 := sink.hits;
    var i := 0;
    raised := false;
    while i < |lines| && !raised
      invariant 0 <= i <= |lines|
      invariant sink.hits == h0 + LinesScan(parses, lines[..i]).hits
      invariant raised == LinesScan(parses, lines[..i]).raised
    {
      raised := EmitLine(parses, lines, i, sink, h0);
      i := i + 1;
    }
    LinesScanDone(parses, lines, i);
  }

  /** One pass of that loop, for a line the walk reaches: a blank or
      comment line is skipped, any other is parsed as one object. */
  method EmitLine(parses: map<string, Json>, lines: seq<string>, i: nat, sink: ServiceSink, ghost h0: seq<Hit>) returns (raised: bool)
    requires i < |lines| && !LinesScan(parses, lines[..i]).raised
    requires sink.hits == h0 + LinesScan(parses, lines[..i]).hits
    modifies sink
    ensures sink.hits == h0 + LinesScan(parses, lines[..i + 1]).hits
    ensures raised == LinesScan(parses, lines[..i + 1]).raised
  {
    LinesScanStep(parses, lines, i);
    var line := Strip(lines[i]);
    if line == "" || StartsWith(line, "#") {
      return false;
    }
    ThenHits(LinesScan(parses, lines[..i]), ObjScan(parses, Str(line)), h0);
    raised := EmitMasscanObj(parses, Str(line), sink);
  }

  lemma ItemsScanStep(parses: map<string, Json>, items: seq<Json>, i: nat)
    requires i < |items|
    ensures ItemsScan(parses, items[..i + 1]) == Then(ItemsScan(parses, items[..i]), ObjScan(parses, items[i]))
  {
    assert items[..i + 1][..i] == items[..i];
  }

  lemma LinesScanStep(parses: map<string, Json>, lines: seq<string>, i: nat)
    requires i < |lines|
    ensures LinesScan(parses, lines[..i + 1]) ==
              if Skipped(lines[i]) then LinesScan(parses, lines[..i])
              else Then(LinesScan(parses, lines[..i]), ObjScan(parses, Str(Strip(lines[i]))))
  {
    assert lines[..i + 1][..i] == lines[..i];
  }

  /** The walk over a prefix that covers the list or ends in an exception
      is the walk over the list: the later items are not looked at. */
  lemma {:induction false} ItemsScanDone(parses: map<string, Json>, items: seq<Json>, i: nat)
    requires i <= |items| && (i == |items| || ItemsScan(parses, items[..i]).raised)
    ensures ItemsScan(parses, items) == ItemsScan(parses, items[..i])
    decreases |items|
  {
    if i == |items| {
      assert items[..i] == items;
    } else {
      var init := items[..|items| - 1];
      assert init[..i] == items[..i];
      ItemsScanDone(parses, init, i);
    }
  }

  /** Likewise for the lines of a results file that is not JSON. */
  lemma {:induction false} LinesScanDone(parses: map<string, Json>, lines: seq<string>, i: nat)
    requires i <= |lines| && (i == |lines| || LinesScan(parses, lines[..i]).raised)
    ensures LinesScan(parses, lines) == LinesScan(parses, lines[..i])
    decreases |lines|
  {
    if i == |lines| {
      assert lines[..i] == lines;
    } else {
      var init := lines[..|lines| - 1];
      assert init[..i] == lines[..i];
      LinesScanDone(parses, init, i);
    }
  }

  // ----- _flatten_targets -----

  /** What `for sub in target` visits: a list's items, a dictionary's keys,
      and for anything else (a string included) the target itself. */
  function Subs(target: Json): (r: seq<Json>)
  {
    match target
    case Arr(items) => items
    case Obj(fields) => seq(|fields|, i requires 0 <= i < |fields| => Str(fields[i].0))
    case _ => [target]
  }

  /** `_append_target(collection, value)`: `None` and blank texts are
      dropped, everything else is kept as its stripped `str`. */
  function AppendTarget(collection: seq<string>, value: Json): (r: seq<string>)
    ensures collection <= r && |r| <= |collection| + 1
    ensures |r| == |collection| + 1 ==> Stripped(r[|collection|]) && r[|collection|] == Strip(PyStr(value))
    ensures |r| == |collection| + 1 <==> value != Null && !IsBlank(PyStr(value))
  {
    StripBlank(PyStr(value));
    if value == Null then collection
    else
      var text := Strip(PyStr(value));
      if text != "" then collection + [text] else collection
  }

  /** The values appended one after the other. */
  function AppendAll(collection: seq<string>, values: seq<Json>): (r: seq<string>)
    ensures collection <= r
    decreases |values|
  {
    if values == [] then collection
    else AppendTarget(AppendAll(collection, values[..|values| - 1]), values[|values| - 1])
  }

  /** `_flatten_targets(targets)`: one level of nesting opened, in order. */
  function Flattened(targets: seq<Json>): (r: seq<string>)
    decreases |targets|
  {
    if targets == [] then []
    else AppendAll(Flattened(targets[..|targets| - 1]), Subs(targets[|targets| - 1]))
  }

  /** Everything appended is a stripped, non-empty text. */
  lemma {:induction false} AppendAllStripped(collection: seq<string>, values: seq<Json>)
    requires forall i :: 0 <= i < |collection| ==> Stripped(collection[i])
    ensures forall i :: 0 <= i < |AppendAll(collection, values)| ==> Stripped(AppendAll(collection, values)[i])
    decreases |values|
  {
    if values != [] {
      var prev := values[..|values| - 1];
      AppendAllStripped(collection, prev);
      AppendTargetStripped(AppendAll(collection, prev), values[|values| - 1]);
    }
  }

  /** One append keeps every element stripped. */
  lemma AppendTargetStripped(collection: seq<string>, value: Json)
    requires forall i :: 0 <= i < |collection| ==> Stripped(collection[i])
    ensures forall i :: 0 <= i < |AppendTarget(collection, value)| ==> Stripped(AppendTarget(collection, value)[i])
  {
    ExtendStripped(collection, AppendTarget(collection, value));
  }

  /** A list of stripped texts extended by at most one stripped text. */
  lemma ExtendStripped(collection: seq<string>, r: seq<string>)
    requires forall i :: 0 <= i < |collection| ==> Stripped(collection[i])
    requires collection <= r && |r| <= |collection| + 1
    requires |r| == |collection| + 1 ==> Stripped(r[|collection|])
    ensures forall i :: 0 <= i < |r| ==> Stripped(r[i])
  {
    forall i | 0 <= i < |r| ensures Stripped(r[i]) {
      if i < |collection| {
        assert r[i] == collection[i];
      }
    }
  }

  /** The flattened list holds only stripped, non-empty targets. */
  lemma {:induction false} FlattenedStripped(targets: seq<Json>)
    ensures forall i :: 0 <= i < |Flattened(targets)| ==> Stripped(Flattened(targets)[i])
    decreases |targets|
  {
    if targets != [] {
      FlattenedStripped(targets[..|targets| - 1]);
      AppendAllStripped(Flattened(targets[..|targets| - 1]), Subs(targets[|targets| - 1]));
    }
  }

  /** Strings as JSON values. */
  function StrItems(values: seq<string>): (r: seq<Json>)
    ensures |r| == |values|
    ensures forall i :: 0 <= i < |values| ==> r[i] == Str(values[i])
  {
    if values == [] then [] else StrItems(values[..|values| - 1]) + [Str(values[|values| - 1])]
  }

  /** Appending values that are already clean strings keeps them all, in
      order. */
  lemma {:induction false} AppendAllClean(collection: seq<string>, values: seq<string>)
    requires forall i :: 0 <= i < |values| ==> Stripped(values[i])
    ensures AppendAll(collection, StrItems(values)) == collection + values
    decreases |values|
  {
    if values != [] {
      var vs := values[..|values| - 1];
      var last := values[|values| - 1];
      assert StrItems(values)[..|values| - 1] == StrItems(vs);
      AppendAllClean(collection, vs);
      AppendTargetClean(collection + vs, last);
      SplitLast(values);
      AppendAssoc(collection, vs, [last]);
    }
  }

  /** One clean text is appended as it is. */
  lemma AppendTargetClean(collection: seq<string>, value: string)
    requires Stripped(value)
    ensures AppendTarget(collection, Str(value)) == collection + [value]
  {
    StrippedIsFixpoint(value);
    StripBlank(value);
  }

  /** Clean targets given one by one are kept as they are, in order. */
  lemma {:induction false} FlattenedClean(values: seq<string>)
    requires forall i :: 0 <= i < |values| ==> Stripped(values[i])
    ensures Flattened(StrItems(values)) == values
    decreases |values|
  {
    if values != [] {
      var n := |values| - 1;
      var vs, last := values[..n], values[n];
      assert forall i :: 0 <= i < |vs| ==> vs[i] == values[i];
      FlattenedClean(vs);
      FlattenedSnoc(vs, last);
      SplitLast(values);
    }
  }

  lemma FlattenedSnoc(vs: seq<string>, last: string)
    requires Stripped(last) && Flattened(StrItems(vs)) == vs
    ensures Flattened(StrItems(vs + [last])) == vs + [last]
  {
    StrItemsSnoc(vs, last);
    FlattenedSnocTarget(StrItems(vs), Str(last));
    assert Subs(Str(last)) == StrItems([last]);
    AppendAllClean(vs, [last]);
  }

  lemma StrItemsSnoc(vs: seq<string>, last: string)
    ensures StrItems(vs + [last]) == StrItems(vs) + [Str(last)]
  {
    assert (vs + [last])[..|vs|] == vs;
  }

  lemma FlattenedSnocTarget(targets: seq<Json>, t: Json)
    ensures Flattened(targets + [t]) == AppendAll(Flattened(targets), Subs(t))
  {
    assert (targets + [t])[..|targets|] == targets;
  }

  /** A list of clean targets given as one target is opened into them. */
  lemma NestedClean(values: seq<string>)
    requires forall i :: 0 <= i < |values| ==> Stripped(values[i])
    ensures Flattened([Arr(StrItems(values))]) == values
  {
    assert [Arr(StrItems(values))][..0] == [];
    AppendAllClean([], values);
  }

  /** `_flatten_targets(targets)`, with its nested loops. */
  method FlattenTargets(targets: seq<Json>) returns (flattened: seq<string>)
    ensures flattened == Flattened(targets)
  {
    flattened := [];
    var t := 0;
    while t < |targets|
      invariant 0 <= t <= |targets|
      invariant flattened == Flattened(targets[..t])
    {
      assert targets[..t + 1][..t] == targets[..t];
      flattened := AppendEach(flattened, Subs(targets[t]));
      t := t + 1;
    }
    assert targets[..t] == targets;
  }

  /** The inner loop of `_flatten_targets`: one target's values appended
      in order. */
  method AppendEach(collection: seq<string>, subs: seq<Json>) returns (r: seq<string>)
    ensures r == AppendAll(collection, subs)
  {
    r := collection;
    var k := 0;
    while k < |subs|
      invariant 0 <= k <= |subs|
      invariant r == AppendAll(collection, subs[..k])
    {
      assert subs[..k + 1][..k] == subs[..k];
      r := AppendTarget(r, subs[k]);
      k := k + 1;
    }
    assert subs[..k] == subs;
  }

  /** The target list of `run(*targets, ip=ip)`: the flattened targets,
      then `ip` when it is truthy. */
  function RunTargets(targets: seq<Json>, ip: Json): (r: seq<string>)
    ensures Flattened(targets) <= r
  {
    WithAddress(Flattened(targets), ip)
  }

  function WithAddress(all: seq<string>, ip: Json): (r: seq<string>)
    ensures all <= r
  {
    if Truthy(ip) then AppendTarget(all, ip) else all
  }

  /** Clean targets and a clean address are scanned as given, the address
      last. */
  lemma RunTargetsClean(values: seq<string>, ip: string)
    requires forall i :: 0 <= i < |values| ==> Stripped(values[i])
    requires Stripped(ip)
    ensures RunTargets(StrItems(values), Str(ip)) == values + [ip]
  {
    FlattenedClean(values);
    AppendClean(values, ip);
  }

  lemma AppendClean(collection: seq<string>, value: string)
    requires Stripped(value)
    ensures WithAddress(collection, Str(value)) == collection + [value]
  {
    StrippedIsFixpoint(value);
    assert !IsBlank(value) by {
      assert !IsSpace(value[0]);
    }
  }
}
