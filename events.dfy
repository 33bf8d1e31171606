/** The packaged typed events: `EventModel.to_payload` (the dataclass fields
    without `event_type`, sanitised), `emit_event(emit_fn, model)`,
    `RelatedResource`, `NetworkService` and `Finding` with its two static
    constructors. */
module Events {
  import opened Common
  import opened Text
  import opened Jsons
  import opened Sanitizer

  /** The calls an `emit` callback receives, in order. */
  class EmitLog {
    var calls: seq<(string, Fields)>

    constructor()
      ensures calls == []
    {
      calls := [];
    }

    method Emit(eventType: string, payload: Fields)
      modifies this
      ensures calls == old(calls) + [(eventType, payload)]
    {
      calls := calls + [(eventType, payload)];
    }
  }

  /** `data.pop("event_type", None)` on an `asdict` result. */
  function WithoutEventType(fields: seq<(string, PyValue)>): (r: seq<(string, PyValue)>)
    ensures forall p :: p in r <==> p in fields && p.0 != "event_type"
  {
    if fields == [] then []
    else (if fields[0].0 == "event_type" then [] else [fields[0]]) + WithoutEventType(fields[1..])
  }

  /** `EventModel.to_payload()`: the sanitised field dictionary, where
      `fields` is what `asdict` gives for the instance. */
  function ToPayload(fields: seq<(string, PyValue)>): (r: Fields)
  {
    Sanitize(PDict(WithoutEventType(fields))).fields
  }

  /** The payload never carries the event type, and holds no empty value. */
  lemma ToPayloadShape(fields: seq<(string, PyValue)>)
    ensures "event_type" !in Keys(ToPayload(fields))
    ensures Clean(Obj(ToPayload(fields)))
  {
    NoEventType(fields);
    SanitizeClean(PDict(WithoutEventType(fields)));
  }

  lemma NoEventType(fields: seq<(string, PyValue)>)
    ensures "event_type" !in Keys(ToPayload(fields))
  {
    var entries := WithoutEventType(fields);
    var fs := seq(|entries|, i requires 0 <= i < |entries| => (entries[i].0, Sanitize(entries[i].1)));
    var r := ToPayload(fields);
    assert r == KeepFields(fs);
    forall i | 0 <= i < |r| ensures r[i].0 != "event_type" {
      assert r[i] in r;
      var n :| 0 <= n < |fs| && fs[n] == r[i];
      assert entries[n] in entries;
    }
  }

  /** An event model as `emit_event` sees it: its type and its payload. */
  datatype Model = Model(eventType: string, payload: Fields)

  lemma {:induction false} WithoutEventTypeAbsent(fields: seq<(string, PyValue)>)
    requires forall i :: 0 <= i < |fields| ==> fields[i].0 != "event_type"
    ensures WithoutEventType(fields) == fields
    decreases |fields|
  {
    if fields != [] {
      WithoutEventTypeAbsent(fields[1..]);
    }
  }

  /** `emit_event(emit_fn, model)`: exactly one call, with the type first. */
  method EmitEvent(log: EmitLog, model: Model)
    modifies log
    ensures log.calls == old(log.calls) + [(model.eventType, model.payload)]
  {
    log.Emit(model.eventType, model.payload);
  }

  /** `RelatedResource(kind, id, rel="subject")`. */
  datatype RelatedResource = RelatedResource(kind: string, id: string, rel: string)

  function NewRelatedResource(kind: string, id: string, rel: Option<string>): (r: RelatedResource)
    ensures r.kind == kind && r.id == id
    ensures rel.None? ==> r.rel == "subject"
    ensures rel.Some? ==> r.rel == rel.value
  {
    RelatedResource(kind, id, rel.GetOr("subject"))
  }

  /** `NetworkService`; `banner` is `None` when absent. */
  datatype NetworkService = NetworkService(eventType: string, ip: string, port: int, protocol: string, banner: Option<string>)

  /** `NetworkService()` with every default. */
  const DefaultService := NetworkService("network.service", "", 0, "tcp", None)

  function OptStr(s: Option<string>): Json
  {
    if s.Some? then Str(s.value) else Null
  }

  /** `NetworkService.to_payload()`: a plain dictionary, not sanitised. */
  function ServicePayload(s: NetworkService): (r: Fields)
    ensures Keys(r) == ["ip", "port", "protocol", "banner"]
  {
    [("ip", Str(s.ip)), ("port", Int(s.port)), ("protocol", Str(s.protocol)), ("banner", OptStr(s.banner))]
  }

  /** The four keys are always there, an absent banner as `null` and an
      empty ip as "": nothing is dropped, unlike the sanitised payloads. */
  lemma ServicePayloadKeepsEverything(s: NetworkService)
    ensures Get(ServicePayload(s), "ip") == Some(Str(s.ip))
    ensures Get(ServicePayload(s), "port") == Some(Int(s.port))
    ensures Get(ServicePayload(s), "protocol") == Some(Str(s.protocol))
    ensures Get(ServicePayload(s), "banner") == Some(if s.banner.None? then Null else Str(s.banner.value))
    ensures "event_type" !in Keys(ServicePayload(s))
  {
    var r := ServicePayload(s);
    assert r[1..] == [("port", Int(s.port)), ("protocol", Str(s.protocol)), ("banner", OptStr(s.banner))];
    assert r[1..][1..] == [("protocol", Str(s.protocol)), ("banner", OptStr(s.banner))];
    assert r[1..][1..][1..] == [("banner", OptStr(s.banner))];
    assert Get(r, "protocol") == Get(r[1..][1..], "protocol");
    assert Get(r, "banner") == Get(r[1..], "banner");
    assert Get(r[1..], "banner") == Get(r[1..][1..], "banner");
    assert Get(r[1..][1..], "banner") == Get(r[1..][1..][1..], "banner");
  }

  function ServiceModel(s: NetworkService): Model
  {
    Model(s.eventType, ServicePayload(s))
  }

  /** An asset dictionary of a finding. */
  type Asset = seq<(string, string)>

  /** `Finding`; its `event_type` is fixed to "finding.v1". */
  datatype Finding = Finding(title: string, severity: string, description: string,
                             categories: seq<string>, assets: seq<Asset>)

  const FindingType := "finding.v1"

  function StrList(ss: seq<string>): (v: PyValue)
  {
    PList(seq(|ss|, i requires 0 <= i < |ss| => PStr(ss[i])))
  }

  function AssetValue(a: Asset): PyValue
  {
    PDict(seq(|a|, i requires 0 <= i < |a| => (a[i].0, PStr(a[i].1))))
  }

  /** `asdict(finding)`, in field order: the inherited `event_type` first. */
  function FindingFields(f: Finding): seq<(string, PyValue)>
  {
    [("event_type", PStr(FindingType)), ("title", PStr(f.title)), ("severity", PStr(f.severity)),
     ("description", PStr(f.description)), ("categories", StrList(f.categories)),
     ("assets", AssetsValue(f.assets))]
  }

  function AssetsValue(assets: seq<Asset>): PyValue
  {
    PList(seq(|assets|, i requires 0 <= i < |assets| => AssetValue(assets[i])))
  }

  lemma AssetsValueSingle(a: Asset)
    ensures AssetsValue([a]) == PList([AssetValue(a)])
  {
    assert AssetsValue([a]).items == [AssetValue(a)];
  }

  lemma FindingFieldsWithoutEventType(f: Finding)
    ensures WithoutEventType(FindingFields(f)) == FindingFields(f)[1..]
  {
    var ff := FindingFields(f);
    WithoutEventTypeAbsent(ff[1..]);
  }

  function FindingModel(f: Finding): Model
  {
    Model(FindingType, ToPayload(FindingFields(f)))
  }

  /** `Finding.from_network_service`: one asset naming the service as
      "ip:port/protocol", with the banner only when it is non-empty. */
  function ServiceAsset(s: NetworkService): (a: Asset)
  {
    [("kind", "network.service"), ("id", s.ip + ":" + IntToString(s.port) + "/" + s.protocol)]
    + (if s.banner.Some? && s.banner.value != "" then [("banner", s.banner.value)] else [])
  }

  function FromNetworkService(s: NetworkService, title: string, severity: string, description: string): (f: Finding)
  {
    Finding(title, severity, description, [], [ServiceAsset(s)])
  }

  /** `Finding.from_dns`, given the domain's name. */
  function FromDns(domainName: string, title: string, severity: string, description: string): (f: Finding)
  {
    Finding(title, severity, description, [], [[("kind", "dns.domain"), ("id", domainName)]])
  }

  /** A field of a finding is in the payload exactly when its sanitised
      value is not empty, and then with that value. */
  lemma FindingPayloadGet(f: Finding, n: nat)
    requires 1 <= n < 6
    ensures var e := FindingFields(f)[n];
            Get(FindingModel(f).payload, e.0) == if Empty(Sanitize(e.1)) then None else Some(Sanitize(e.1))
  {
    var entries := FindingFields(f)[1..];
    FindingFieldsWithoutEventType(f);
    FindingKeysDistinct(f);
    assert entries[n - 1] == FindingFields(f)[n];
    SanitizeDictGet(entries, FindingFields(f)[n].0, FindingFields(f)[n].1);
  }

  lemma FindingKeysDistinct(f: Finding)
    ensures var entries := FindingFields(f)[1..];
            forall i, j :: 0 <= i < j < |entries| ==> entries[i].0 != entries[j].0
  {
    var entries := FindingFields(f)[1..];
    assert entries[0].0 == "title" && entries[1].0 == "severity" && entries[2].0 == "description";
    assert entries[3].0 == "categories" && entries[4].0 == "assets";
  }

  /** The sanitised payload of a finding: title, severity and description
      only when non-empty, no categories when there are none. */
  lemma FindingPayloadText(f: Finding)
    ensures var p := FindingModel(f).payload;
            && Get(p, "title") == (if f.title == "" then None else Some(Str(f.title)))
            && Get(p, "severity") == (if f.severity == "" then None else Some(Str(f.severity)))
            && Get(p, "description") == (if f.description == "" then None else Some(Str(f.description)))
            && (f.categories == [] ==> Get(p, "categories") == None)
            && "event_type" !in Keys(p)
  {
    FindingFieldsAt(f);
    FindingTextGet(f, 1, "title", f.title);
    FindingTextGet(f, 2, "severity", f.severity);
    FindingTextGet(f, 3, "description", f.description);
    if f.categories == [] {
      NoCategories(f);
    }
    NoEventType(FindingFields(f));
  }

  /** An empty category list is dropped from the payload. */
  lemma NoCategories(f: Finding)
    requires f.categories == []
    ensures Get(FindingModel(f).payload, "categories") == None
  {
    FindingPayloadGet(f, 4);
    var v := StrList(f.categories);
    assert FindingFields(f)[4] == ("categories", v);
    assert v.items == [];
    assert Sanitize(v) == Arr(KeepItems([]));
  }

  lemma FindingFieldsAt(f: Finding)
    ensures FindingFields(f)[1] == ("title", PStr(f.title))
    ensures FindingFields(f)[2] == ("severity", PStr(f.severity))
    ensures FindingFields(f)[3] == ("description", PStr(f.description))
    ensures FindingFields(f)[4] == ("categories", StrList(f.categories))
  {
  }

  /** A text field of a finding is in the payload exactly when it is not
      empty. */
  lemma FindingTextGet(f: Finding, n: nat, key: string, text: string)
    requires 1 <= n < 4 && FindingFields(f)[n] == (key, PStr(text))
    ensures Get(FindingModel(f).payload, key) == if text == "" then None else Some(Str(text))
  {
    FindingPayloadGet(f, n);
    SanitizeText(text);
  }

  /** The one asset of a finding built from a service comes through the
      sanitiser as it was built: kind, id, and the banner when there is one. */
  lemma FromNetworkServicePayload(s: NetworkService, title: string, severity: string, description: string)
    ensures var p := FindingModel(FromNetworkService(s, title, severity, description)).payload;
            Get(p, "assets") == Some(Arr([Obj(AssetJson(ServiceAsset(s)))]))
    ensures FromNetworkService(s, title, severity, description).categories == []
  {
    var f := FromNetworkService(s, title, severity, description);
    var a := ServiceAsset(s);
    assert forall i :: 0 <= i < |a| ==> a[i].1 != "" by {
      assert a[1].1 == s.ip + ":" + IntToString(s.port) + "/" + s.protocol;
      assert a[1].1[|s.ip|] == ':';
    }
    SingleAsset(f, a);
  }

  /** A finding whose only asset is non-empty and has no empty value
      carries that asset. */
  lemma SingleAsset(f: Finding, a: Asset)
    requires f.assets == [a] && a != []
    requires forall i :: 0 <= i < |a| ==> a[i].1 != ""
    ensures Get(FindingModel(f).payload, "assets") == Some(Arr([Obj(AssetJson(a))]))
  {
    FindingPayloadGet(f, 5);
    AssetsValueSingle(a);
    assert FindingFields(f)[5] == ("assets", PList([AssetValue(a)]));
    AssetSanitized(a);
    SanitizeSingleton(AssetValue(a));
    assert !Empty(Obj(AssetJson(a))) by { assert |AssetJson(a)| == |a|; }
  }

  /** The same for a finding built from a domain, whose asset keeps its id
      when the name is non-empty. */
  lemma FromDnsPayload(domainName: string, title: string, severity: string, description: string)
    requires domainName != ""
    ensures var p := FindingModel(FromDns(domainName, title, severity, description)).payload;
            Get(p, "assets") == Some(Arr([Obj([("kind", Str("dns.domain")), ("id", Str(domainName))])]))
  {
    var a: Asset := [("kind", "dns.domain"), ("id", domainName)];
    DnsAssetFilled(domainName);
    SingleAsset(FromDns(domainName, title, severity, description), a);
    DnsAssetJson(domainName);
  }

  lemma DnsAssetFilled(domainName: string)
    requires domainName != ""
    ensures var a: Asset := [("kind", "dns.domain"), ("id", domainName)];
            forall i :: 0 <= i < |a| ==> a[i].1 != ""
  {
  }

  lemma DnsAssetJson(domainName: string)
    ensures AssetJson([("kind", "dns.domain"), ("id", domainName)]) == [("kind", Str("dns.domain")), ("id", Str(domainName))]
  {
  }

  /** A one-item list keeps its item unless the item sanitises to empty. */
  lemma SanitizeSingleton(x: PyValue)
    ensures Sanitize(PList([x])) == if Empty(Sanitize(x)) then Arr([]) else Arr([Sanitize(x)])
  {
    var v := PList([x]);
    var inner := seq(|v.items|, i requires 0 <= i < |v.items| => Sanitize(v.items[i]));
    assert inner == [Sanitize(x)];
    assert KeepItems(inner) == (if Empty(Sanitize(x)) then [] else [Sanitize(x)]) + KeepItems(inner[1..]);
  }

  function AssetJson(a: Asset): Fields
  {
    seq(|a|, i requires 0 <= i < |a| => (a[i].0, Str(a[i].1)))
  }

  /** An asset whose values are all non-empty is sanitised to itself. */
  lemma AssetSanitized(a: Asset)
    requires forall i :: 0 <= i < |a| ==> a[i].1 != ""
    ensures Sanitize(AssetValue(a)) == Obj(AssetJson(a))
  {
    var entries := AssetValue(a).entries;
    assert AssetValue(a) == PDict(entries);
    SanitizeDict(entries);
    var fs := SanitizedEntries(entries);
    forall i | 0 <= i < |fs| ensures fs[i] == AssetJson(a)[i] && !Empty(fs[i].1) {
      assert entries[i] == (a[i].0, PStr(a[i].1));
      SanitizeText(a[i].1);
    }
    assert fs == AssetJson(a);
    KeepFieldsNothingToDrop(fs);
  }
}
