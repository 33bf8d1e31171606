/** The event-model base of the runtime models (`EventModel.to_payload`,
    `to_event` and `emit_event(event, emit)`), which the two copies of the
    models module define identically. Unlike the packaged models, nothing
    is sanitised: the payload is the field dictionary as it stands. */
module TypedEvents {
  import opened Common
  import opened Jsons
  import Events
  import Dns
  import Http

  /** A runtime event model as `asdict` sees it: `event_type` first, where
      the base class declares it, then the subclass's own fields. */
  datatype Instance = Instance(eventType: string, others: Fields)

  function Asdict(i: Instance): (r: Fields)
    ensures Get(r, "event_type") == Some(Str(i.eventType))
  {
    [("event_type", Str(i.eventType))] + i.others
  }

  /** `to_payload()`: `asdict(self)` without `event_type`. */
  function ToPayload(i: Instance): (r: Fields)
    ensures "event_type" !in Keys(r)
    ensures forall k :: k != "event_type" ==> Get(r, k) == Get(i.others, k)
  {
    var r := Remove(Asdict(i), "event_type");
    assert forall k :: k != "event_type" ==> Get(Asdict(i), k) == Get(i.others, k);
    r
  }

  /** A subclass that does not repeat `event_type` among its own fields
      gets exactly those fields, in order, as its payload. */
  lemma {:induction false} ToPayloadIsOthers(i: Instance)
    requires "event_type" !in Keys(i.others)
    ensures ToPayload(i) == i.others
  {
    RemoveAbsent(i.others, "event_type");
  }

  lemma {:induction false} RemoveAbsent(fs: Fields, k: string)
    requires k !in Keys(fs)
    ensures Remove(fs, k) == fs
  {
    if fs != [] {
      assert Keys(fs) == [fs[0].0] + Keys(fs[1..]);
      RemoveAbsent(fs[1..], k);
    }
  }

  /** `to_event()`: the type and the payload. */
  function ToEvent(i: Instance): (r: (string, Fields))
    ensures r.0 == i.eventType && "event_type" !in Keys(r.1)
    ensures forall k :: k != "event_type" ==> Get(r.1, k) == Get(i.others, k)
  {
    (i.eventType, ToPayload(i))
  }

  /** What `emit_event` may be handed as its first argument: an event model
      or some other Python object, named by its type. */
  datatype Arg = Model(i: Instance) | Foreign(typeName: string)

  /** `emit_event(event, emit)`: one call with the `to_event` pair for a
      model; a `TypeError`, and no call, for anything else. */
  method EmitEvent(event: Arg, emit: Events.EmitLog) returns (r: Result<()>)
    modifies emit
    ensures event.Model? ==> r.Ok? && emit.calls == old(emit.calls) + [ToEvent(event.i)]
    ensures event.Foreign? ==> r.Err? && emit.calls == old(emit.calls)
  {
    if event.Foreign? {
      return Err("emit_event expects an EventModel instance");
    }
    var (eventType, payload) := ToEvent(event.i);
    emit.Emit(eventType, payload);
    return Ok(());
  }

  /** `DnsDomain` as an event model. */
  function DnsInstance(d: Dns.DnsDomain): Instance
  {
    Instance(Dns.DnsDomainType, Dns.DomainPayload(d))
  }

  /** A domain's event is its type and its four fields. */
  lemma DnsEvent(d: Dns.DnsDomain)
    ensures ToEvent(DnsInstance(d)) == ("dns.domain", Dns.DomainPayload(d))
  {
    assert Keys(Dns.DomainPayload(d)) == ["name", "root", "kind", "parent"];
    ToPayloadIsOthers(DnsInstance(d));
  }

  /** `HttpResponse` as an event model. */
  function HttpInstance(h: Http.HttpResponse): Instance
  {
    Instance(Http.HttpResponseType, Http.ResponsePayload(h))
  }

  /** A response's event is its type and its twenty fields. */
  lemma HttpEvent(h: Http.HttpResponse)
    ensures ToEvent(HttpInstance(h)) == ("http.response", Http.ResponsePayload(h))
  {
    var ks := Keys(Http.ResponsePayload(h));
    assert forall j :: 0 <= j < |ks| ==> ks[j] != "event_type";
    ToPayloadIsOthers(HttpInstance(h));
  }
}
