/** The batch envelope of the packaged runtime: decoding the resources
    manifest into a `BatchConfig`, naming and unpacking downloaded
    resources, the checksum gate, and the writer that turns each event into
    one compact JSON line of the events file.

    Compression is not modelled: the writer's content is the text that the
    gzip stream receives. */
module Envelope {
  import opened Common
  import opened Text
  import opened Jsons

  // ----- manifest -----

  /** A resource as the manifest declares it. The values are kept as they
      come from JSON: a manifest may put `null` or a number where a string
      is expected, and what happens then depends on where it is used. */
  datatype ResourceSpec = ResourceSpec(name: Json, url: Json, sha256: Json, filename: Json, extract: bool)

  datatype BatchConfig = BatchConfig(tool: string, toolVersion: string, parameters: Json, resources: seq<ResourceSpec>)

  const EmptyConfig := BatchConfig("", "", Obj([]), [])

  /** One manifest item: `name` and `url` default to "", a missing
      `sha256` or `filename` is `None`, and `extract` is its truthiness. */
  function ResourceOf(item: Fields): (r: ResourceSpec)
    ensures "name" !in Keys(item) ==> r.name == Str("")
    ensures "url" !in Keys(item) ==> r.url == Str("")
    ensures "extract" !in Keys(item) ==> !r.extract
    ensures "sha256" !in Keys(item) ==> r.sha256 == Null
    ensures "filename" !in Keys(item) ==> r.filename == Null
  {
    ResourceSpec(
      GetDefault(item, "name", Str("")),
      GetDefault(item, "url", Str("")),
      GetJ(item, "sha256"),
      GetJ(item, "filename"),
      Truthy(GetJ(item, "extract")))
  }

  /** The loop over manifest items: one spec per item in order; an item
      that is not an object has no `.get` and the decode raises. */
  function DecodeResources(items: seq<Json>): (r: Result<seq<ResourceSpec>>)
    ensures r.Ok? <==> forall i :: 0 <= i < |items| ==> items[i].Obj?
    ensures r.Ok? ==> |r.value| == |items|
    ensures r.Ok? ==> forall i :: 0 <= i < |items| ==> r.value[i] == ResourceOf(items[i].fields)
  {
    if items == [] then Ok([])
    else if !items[0].Obj? then Err("'" + TypeName(items[0]) + "' object has no attribute 'get'")
    else
      var rest := DecodeResources(items[1..]);
      if rest.Err? then
        assert !items[1..][FirstNonObject(items[1..])].Obj?;
        Err(rest.error)
      else Ok([ResourceOf(items[0].fields)] + rest.value)
  }

  function FirstNonObject(items: seq<Json>): (i: nat)
    requires exists k :: 0 <= k < |items| && !items[k].Obj?
    ensures i < |items| && !items[i].Obj?
  {
    if !items[0].Obj? then 0
    else
      assert exists k :: 1 <= k < |items| && !items[k].Obj?;
      assert exists k :: 0 <= k < |items[1..]| && !items[1..][k].Obj? by {
        var k :| 1 <= k < |items| && !items[k].Obj?;
        assert items[1..][k - 1] == items[k];
      }
      1 + FirstNonObject(items[1..])
  }

  /** Python's name for the type a JSON value decodes to. */
  function TypeName(j: Json): string
  {
    match j
    case Null => "NoneType"
    case Bool(_) => "bool"
    case Int(_) => "int"
    case Str(_) => "str"
    case Arr(_) => "list"
    case Obj(_) => "dict"
  }

  /** `BatchConfig.from_manifest_doc(doc)` of the packaged runtime. A falsy
      document counts as `{}`; a truthy document that is not an object, a
      truthy `resources` that is not a list, or an item that is not an
      object makes it raise. `tool` and `tool_version` go through
      `str(x or "")`, so a null or missing value gives "". */
  function FromManifestDoc(doc: Json): (r: Result<BatchConfig>)
    ensures !Truthy(doc) ==> r == Ok(EmptyConfig)
    ensures Truthy(doc) && !doc.Obj? ==> r.Err?
    ensures r.Ok? && doc.Obj? ==> r.value.tool == PyStr(Or(GetJ(doc.fields, "tool"), Str("")))
    ensures r.Ok? && doc.Obj? ==> r.value.toolVersion == PyStr(Or(GetJ(doc.fields, "tool_version"), Str("")))
    ensures r.Ok? && doc.Obj? ==> r.value.parameters == Or(GetJ(doc.fields, "parameters"), Obj([]))
  {
    var d := Or(doc, Obj([]));
    if !d.Obj? then Err("'" + TypeName(d) + "' object has no attribute 'get'")
    else
      var f := d.fields;
      var params := Or(GetJ(f, "parameters"), Obj([]));
      var rs := Or(GetDefault(f, "resources", Arr([])), Arr([]));
      if !rs.Arr? then Err("resources is not a list of objects")
      else
        var specs :- DecodeResources(rs.items);
        Ok(BatchConfig(PyStr(Or(GetJ(f, "tool"), Str(""))), PyStr(Or(GetJ(f, "tool_version"), Str(""))),
                       params, specs))
  }

  /** Each manifest item becomes exactly one spec, in manifest order. */
  lemma ManifestResources(fields: Fields, items: seq<Json>)
    requires Get(fields, "resources") == Some(Arr(items))
    requires forall i :: 0 <= i < |items| ==> items[i].Obj?
    ensures FromManifestDoc(Obj(fields)).Ok?
    ensures |FromManifestDoc(Obj(fields)).value.resources| == |items|
    ensures forall i :: 0 <= i < |items| ==>
              FromManifestDoc(Obj(fields)).value.resources[i] == ResourceOf(items[i].fields)
  {
    var specs := DecodeResources(items);
    assert specs.Ok?;
    ManifestDecoded(fields, items);
  }

  /** An object whose `resources` is a list that decodes gives a config
      holding the decoded specs. */
  lemma ManifestDecoded(fields: Fields, items: seq<Json>)
    requires Get(fields, "resources") == Some(Arr(items)) && DecodeResources(items).Ok?
    ensures FromManifestDoc(Obj(fields)).Ok?
    ensures FromManifestDoc(Obj(fields)).value.resources == DecodeResources(items).value
  {
    assert fields != [] by { assert Get(fields, "resources").Some?; }
    assert Or(Obj(fields), Obj([])) == Obj(fields);
    assert Or(GetDefault(fields, "resources", Arr([])), Arr([])) == Arr(items);
  }

  /** A null or missing `tool` or `tool_version` becomes "", and a string
      passes through. */
  lemma ManifestToolNames(fields: Fields)
    requires FromManifestDoc(Obj(fields)).Ok?
    ensures var cfg := FromManifestDoc(Obj(fields)).value;
            && (GetJ(fields, "tool") == Null ==> cfg.tool == "")
            && (GetJ(fields, "tool_version") == Null ==> cfg.toolVersion == "")
            && (forall s :: GetJ(fields, "tool") == Str(s) ==> cfg.tool == s)
            && (forall s :: GetJ(fields, "tool_version") == Str(s) ==> cfg.toolVersion == s)
  {
  }

  // ----- resource files -----

  /** The file name `materialize_resource` gives a resource: `filename` when
      truthy, else the last path component of the URL before `?`, else
      `name`. A value of the wrong type raises where Python would: a URL
      that is not a string has no `.split`, and a name that is not a
      non-empty string cannot name a file in the resources directory. */
  function FileNameFor(spec: ResourceSpec): (r: Result<string>)
    ensures Truthy(spec.filename) && spec.filename.Str? ==> r == Ok(spec.filename.s)
    ensures Truthy(spec.filename) && !spec.filename.Str? ==> r.Err?
    ensures !Truthy(spec.filename) && !spec.url.Str? ==> r.Err?
    ensures !Truthy(spec.filename) && spec.url.Str? && UrlFileName(spec.url.s) != "" ==>
              r == Ok(UrlFileName(spec.url.s))
    ensures r.Ok? ==> r.value != ""
  {
    if Truthy(spec.filename) then
      if spec.filename.Str? then Ok(spec.filename.s) else Err("filename is not a string")
    else if !spec.url.Str? then Err("'" + TypeName(spec.url) + "' object has no attribute 'split'")
    else
      var fromUrl := UrlFileName(spec.url.s);
      if fromUrl != "" then Ok(fromUrl)
      else if spec.name.Str? && spec.name.s != "" then Ok(spec.name.s)
      else Err("resource has no usable file name")
  }

  /** `Path(url.split("?")[0]).name`. */
  function UrlFileName(url: string): (r: string)
    ensures '/' !in r && '?' !in r
  {
    var r := PathName(Split(url, '?')[0]);
    assert '?' !in r by { PathNameIn(Split(url, '?')[0]); }
    r
  }

  lemma PathNameIn(p: string)
    ensures forall c :: c in PathName(p) ==> c in p
  {
    var parts := PathParts(Split(p, '/'));
    if parts != [] {
      var last := parts[|parts| - 1];
      assert last in Split(p, '/');
      var ps := Split(p, '/');
      var i :| 0 <= i < |ps| && ps[i] == last;
      forall c | c in last ensures c in p {
        JoinContains(ps, i, c);
      }
    }
  }

  lemma {:induction false} JoinContains(parts: seq<string>, i: nat, c: char)
    requires i < |parts| && c in parts[i]
    ensures c in Join("/", parts)
  {
    if i == 0 {
      if |parts| > 1 {
        assert Join("/", parts) == parts[0] + "/" + Join("/", parts[1..]);
      }
    } else {
      JoinContains(parts[1..], i - 1, c);
    }
  }

  /** A URL with a plain file name as its last component names the file
      after it, whatever the query string. */
  lemma UrlFileNameOfPlainUrl(dir: string, file: string, query: string)
    requires file != "" && file != "." && '/' !in file && '?' !in file
    requires '?' !in dir
    ensures UrlFileName(dir + "/" + file + "?" + query) == file
  {
    var url := dir + "/" + file + "?" + query;
    var i := IndexOf(url, '?');
    assert url[|dir| + 1 + |file|] == '?';
    assert forall k :: 0 <= k < |dir| + 1 + |file| ==> url[k] != '?' by {
      forall k | 0 <= k < |dir| + 1 + |file| ensures url[k] != '?' {
        if k < |dir| { assert url[k] == dir[k]; }
        else if k > |dir| { assert url[k] == file[k - |dir| - 1]; }
      }
    }
    assert i == |dir| + 1 + |file|;
    assert Split(url, '?')[0] == dir + "/" + file;
    PathOfDirAndFile(dir, file);
  }

  lemma PathOfDirAndFile(dir: string, file: string)
    requires file != "" && file != "." && '/' !in file
    ensures PathName(dir + "/" + file) == file
  {
    var p := dir + "/" + file;
    var ps := Split(p, '/');
    var ds := Split(dir, '/');
    assert ps == ds + [file] by {
      SplitConcat(dir, '/', file);
      SplitNoSep(file, '/');
    }
    PathPartsAppend(ds, file);
  }

  lemma {:induction false} PathPartsAppend(ps: seq<string>, file: string)
    requires file != "" && file != "."
    ensures PathParts(ps + [file]) == PathParts(ps) + [file]
  {
    if ps == [] {
      assert [file][1..] == [];
    } else {
      assert (ps + [file])[1..] == ps[1..] + [file];
      PathPartsAppend(ps[1..], file);
    }
  }

  /** How `extract_resource` unpacks an archive. */
  datatype TarMode = Plain | Gzip | Bzip2
  datatype Archive = Zip | Tar(mode: TarMode) | NotArchive

  /** `extract_resource`'s choice by the lower-cased file name. */
  function ArchiveKind(fileName: string): (r: Archive)
    ensures var low := Lower(PathName(fileName));
            && (r == Zip <==> EndsWith(low, ".zip"))
            && (r == Tar(Gzip) <==> EndsWith(low, ".tgz") || EndsWith(low, ".tar.gz"))
            && (r == Tar(Bzip2) <==> EndsWith(low, ".tar.bz2"))
            && (r == Tar(Plain) <==> EndsWith(low, ".tar"))
  {
    var low := Lower(PathName(fileName));
    SuffixesExclusive(low);
    if EndsWith(low, ".zip") then Zip
    else if EndsWith(low, ".tar") || EndsWith(low, ".tgz") || EndsWith(low, ".tar.gz") || EndsWith(low, ".tar.bz2") then
      if EndsWith(low, ".tgz") || EndsWith(low, ".tar.gz") then Tar(Gzip)
      else if EndsWith(low, ".tar.bz2") then Tar(Bzip2)
      else Tar(Plain)
    else NotArchive
  }

  /** No name ends in two of the recognised suffixes. */
  lemma SuffixesExclusive(low: string)
    ensures EndsWith(low, ".zip") ==> !EndsWith(low, ".tar") && !EndsWith(low, ".tgz") && !EndsWith(low, ".tar.gz") && !EndsWith(low, ".tar.bz2")
    ensures EndsWith(low, ".tar") ==> !EndsWith(low, ".tgz") && !EndsWith(low, ".tar.gz") && !EndsWith(low, ".tar.bz2")
    ensures EndsWith(low, ".tar.bz2") ==> !EndsWith(low, ".tgz") && !EndsWith(low, ".tar.gz")
  {
    if EndsWith(low, ".zip") {
      assert low[|low| - 1] == 'p';
    }
    if EndsWith(low, ".tar") {
      assert low[|low| - 1] == 'r' && low[|low| - 2] == 'a';
    }
    if EndsWith(low, ".tar.bz2") {
      assert low[|low| - 1] == '2';
    }
  }

  /** The legacy runtime's choice: the same names, except that `.tar.bz2`
      is not recognised and such a file stays packed. */
  function LegacyArchiveKind(fileName: string): (r: Archive)
    ensures r != Tar(Bzip2)
  {
    var low := Lower(PathName(fileName));
    if EndsWith(low, ".zip") then Zip
    else if EndsWith(low, ".tar") || EndsWith(low, ".tgz") || EndsWith(low, ".tar.gz") then
      if EndsWith(low, ".tgz") || EndsWith(low, ".tar.gz") then Tar(Gzip) else Tar(Plain)
    else NotArchive
  }

  /** The two generations agree on every name but the `.tar.bz2` ones. */
  lemma ArchiveKindGenerations(fileName: string)
    ensures ArchiveKind(fileName) == Tar(Bzip2) ==> LegacyArchiveKind(fileName) == NotArchive
    ensures ArchiveKind(fileName) != Tar(Bzip2) ==> LegacyArchiveKind(fileName) == ArchiveKind(fileName)
  {
    SuffixesExclusive(Lower(PathName(fileName)));
  }

  /** The checksum gate: a declared `sha256` that is truthy must equal the
      digest of the downloaded file. */
  function ChecksumOk(declared: Json, digest: string): (r: bool)
    ensures !Truthy(declared) ==> r
    ensures Truthy(declared) ==> (r <==> declared == Str(digest))
  {
    !Truthy(declared) || declared == Str(digest)
  }

  /** What happened to one resource: where it went, which extractor ran, and
      whether preparation raised. */
  datatype Prepared = Prepared(fileName: Option<string>, extracted: Archive, outcome: Result<()>)

  /** What the environment answers for one resource: whether the download
      succeeded, the SHA-256 of the file, and whether unpacking succeeded. */
  datatype ResourceFetch = ResourceFetch(downloaded: bool, digest: string, unpacks: bool)

  /** `_prepare_resource` over `materialize_resource`: name, download,
      extract when asked to, and only then compare the checksum. */
  function PrepareResource(spec: ResourceSpec, fetch: ResourceFetch): (r: Prepared)
    ensures r.outcome.Ok? <==> FileNameFor(spec).Ok? && fetch.downloaded
                               && (spec.extract && ArchiveKind(FileNameFor(spec).value) != NotArchive ==> fetch.unpacks)
                               && ChecksumOk(spec.sha256, fetch.digest)
    ensures r.extracted != NotArchive ==> spec.extract && fetch.downloaded
  {
    match FileNameFor(spec)
    case Err(e) => Prepared(None, NotArchive, Err(e))
    case Ok(name) =>
      if !fetch.downloaded then Prepared(Some(name), NotArchive, Err("download failed"))
      else
        var kind := if spec.extract then ArchiveKind(name) else NotArchive;
        if kind != NotArchive && !fetch.unpacks then Prepared(Some(name), kind, Err("extraction failed"))
        else if !ChecksumOk(spec.sha256, fetch.digest) then Prepared(Some(name), kind, Err("sha256 mismatch for resource"))
        else Prepared(Some(name), kind, Ok(()))
  }

  /** The legacy loop: name, download, compare the checksum, and extract
      only a file that passed. */
  function LegacyPrepareResource(spec: ResourceSpec, fetch: ResourceFetch): (r: Prepared)
    ensures r.extracted != NotArchive ==> ChecksumOk(spec.sha256, fetch.digest)
  {
    match FileNameFor(spec)
    case Err(e) => Prepared(None, NotArchive, Err(e))
    case Ok(name) =>
      if !fetch.downloaded then Prepared(Some(name), NotArchive, Err("download failed"))
      else if !ChecksumOk(spec.sha256, fetch.digest) then Prepared(Some(name), NotArchive, Err("sha256 mismatch for resource"))
      else
        var kind := if spec.extract then LegacyArchiveKind(name) else NotArchive;
        if kind != NotArchive && !fetch.unpacks then Prepared(Some(name), kind, Err("extraction failed"))
        else Prepared(Some(name), kind, Ok(()))
  }

  /** An archive whose checksum does not match is unpacked by the packaged
      runtime before it raises, and never by the legacy one. */
  lemma MismatchedArchive(spec: ResourceSpec, fetch: ResourceFetch)
    requires FileNameFor(spec).Ok? && fetch.downloaded && fetch.unpacks && spec.extract
    requires ArchiveKind(FileNameFor(spec).value) != NotArchive
    requires !ChecksumOk(spec.sha256, fetch.digest)
    ensures PrepareResource(spec, fetch).extracted != NotArchive
    ensures PrepareResource(spec, fetch).outcome.Err?
    ensures LegacyPrepareResource(spec, fetch).extracted == NotArchive
    ensures LegacyPrepareResource(spec, fetch).outcome.Err?
  {
  }

  // ----- events file -----

  /** `{"event_type": t, "timestamp": ts, "payload": p, **context}`. */
  function EventEnvelope(eventType: string, timestamp: string, payload: Json, context: Fields): (r: Fields)
    ensures |r| >= 3 && Keys(r)[..3] == ["event_type", "timestamp", "payload"]
  {
    var head := [("event_type", Str(eventType)), ("timestamp", Str(timestamp)), ("payload", payload)];
    MergeKeepsOrder(head, context);
    assert Keys(head) == ["event_type", "timestamp", "payload"];
    Merge(head, context)
  }

  /** An envelope holds exactly the three event keys and the context keys,
      and the context wins on any key it shares with them. */
  lemma EnvelopeFields(eventType: string, timestamp: string, payload: Json, context: Fields, k: string)
    requires UniqueKeys(context)
    ensures k in Keys(EventEnvelope(eventType, timestamp, payload, context)) <==>
              k == "event_type" || k == "timestamp" || k == "payload" || k in Keys(context)
    ensures Get(EventEnvelope(eventType, timestamp, payload, context), k) ==
              if k in Keys(context) then Get(context, k)
              else if k == "event_type" then Some(Str(eventType))
              else if k == "timestamp" then Some(Str(timestamp))
              else if k == "payload" then Some(payload)
              else None
  {
    var head := [("event_type", Str(eventType)), ("timestamp", Str(timestamp)), ("payload", payload)];
    KeysMerge(head, context, k);
    GetMerge(head, context, k);
    assert Keys(head) == ["event_type", "timestamp", "payload"];
    assert head[1..][1..][1..] == [];
    assert Get(head[1..][1..], k) == if k == "payload" then Some(payload) else None;
    assert Get(head[1..], k) == if k == "timestamp" then Some(Str(timestamp)) else Get(head[1..][1..], k);
    assert Get(head, k) == if k == "event_type" then Some(Str(eventType))
                           else if k == "timestamp" then Some(Str(timestamp))
                           else if k == "payload" then Some(payload)
                           else None;
  }

  /** One line of the events file: compact JSON and a newline. */
  function Line(env: Fields): (r: string)
    ensures r != [] && r[|r| - 1] == '\n' && '\n' !in r[..|r| - 1]
  {
    var text := Dumps(Obj(env), Compact);
    DumpsOneLine(Obj(env), Compact);
    assert (text + "\n")[..|text|] == text;
    text + "\n"
  }

  /** The text of an events file holding these envelopes. */
  function Serialize(envs: seq<Fields>): string
  {
    if envs == [] then "" else Line(envs[0]) + Serialize(envs[1..])
  }

  lemma {:induction false} SerializeAppend(envs: seq<Fields>, env: Fields)
    ensures Serialize(envs + [env]) == Serialize(envs) + Line(env)
  {
    if envs == [] {
      assert [env][1..] == [];
    } else {
      assert (envs + [env])[1..] == envs[1..] + [env];
      SerializeAppend(envs[1..], env);
    }
  }

  /** The compact JSON of each envelope. */
  function Texts(envs: seq<Fields>): (r: seq<string>)
    ensures |r| == |envs|
  {
    seq(|envs|, i requires 0 <= i < |envs| => Dumps(Obj(envs[i]), Compact))
  }

  lemma SplitLinesCons(t: string, rest: string)
    requires Printable(t)
    ensures SplitLines(t + "\n" + rest) == [t] + SplitLines(rest)
  {
    assert NoLineBoundary(t) by {
      forall k | 0 <= k < |t| ensures !IsLineBoundary(t[k]) { assert ' ' <= t[k] <= '~'; }
    }
    SplitLinesLine(t, rest);
  }

  /** Reading the events file back line by line gives the JSON of each
      envelope, one per line, in the order they were written. */
  lemma {:induction false} ReadBack(envs: seq<Fields>)
    ensures SplitLines(Serialize(envs)) == Texts(envs)
  {
    if envs != [] {
      ReadBack(envs[1..]);
      var t := Dumps(Obj(envs[0]), Compact);
      assert Serialize(envs) == t + "\n" + Serialize(envs[1..]);
      assert SplitLines(Serialize(envs)) == [t] + SplitLines(Serialize(envs[1..])) by {
        DumpsPrintable(Obj(envs[0]), Compact);
        SplitLinesCons(t, Serialize(envs[1..]));
      }
      TextsCons(envs);
    }
  }

  lemma TextsCons(envs: seq<Fields>)
    requires envs != []
    ensures Texts(envs) == [Dumps(Obj(envs[0]), Compact)] + Texts(envs[1..])
  {
    var a := Texts(envs);
    var b := [Dumps(Obj(envs[0]), Compact)] + Texts(envs[1..]);
    assert |a| == |b|;
    forall i | 0 <= i < |a| ensures a[i] == b[i] {
      if i > 0 { assert envs[1..][i - 1] == envs[i]; }
    }
  }

  /** `EventWriter`: each `emit` appends one envelope line and counts it. */
  class EventWriter {
    const context: Fields
    var count: nat
    var envelopes: seq<Fields>
    var closed: bool

    predicate Valid()
      reads this
    {
      count == |envelopes|
    }

    /** The text written so far, before compression. */
    function Content(): string
      reads this
    {
      Serialize(envelopes)
    }

    constructor(context: Fields)
      ensures Valid() && !closed
      ensures this.context == context && count == 0 && envelopes == []
    {
      this.context := context;
      count := 0;
      envelopes := [];
      closed := false;
    }

    /** `emit(event_type, payload)`: the timestamp is the one the clock
        gives at that moment. Writing to a closed stream raises, so the
        writer must still be open. */
    method Emit(eventType: string, payload: Json, timestamp: string)
      requires Valid() && !closed
      modifies this
      ensures Valid() && !closed
      ensures count == old(count) + 1
      ensures envelopes == old(envelopes) + [EventEnvelope(eventType, timestamp, payload, context)]
      ensures Content() == old(Content()) + Line(EventEnvelope(eventType, timestamp, payload, context))
    {
      var envelope := EventEnvelope(eventType, timestamp, payload, context);
      SerializeAppend(envelopes, envelope);
      envelopes := envelopes + [envelope];
      count := count + 1;
    }

    method Close()
      requires Valid()
      modifies this
      ensures Valid() && closed
      ensures count == old(count) && envelopes == old(envelopes)
    {
      closed := true;
    }
  }
}
