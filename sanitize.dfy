/** `_json_sanitize` of the packaged event models: the recursive walk that
    turns a Python value into JSON, rendering bytes as base 64 and datetimes
    as "%Y-%m-%dT%H:%M:%SZ", and dropping every `None`, `""`, `[]` and `{}`
    it finds inside a dictionary or a sequence. */
module Sanitizer {
  import opened Common
  import opened Jsons
  import opened Utils
  import Base64

  /** A datetime `strftime` prints with a four-digit year. */
  type Instant = t: DateTime | ValidDateTime(t) witness DateTime(2000, 1, 1, 0, 0, 0)

  /** The Python values an event model can hold. A dictionary and a
      dataclass instance (seen through `asdict`) are lists of fields in
      insertion order; a set is listed in its iteration order. */
  datatype PyValue =
    | PNone
    | PBool(b: bool)
    | PInt(i: int)
    | PStr(s: string)
    | PBytes(bytes: seq<byte>)
    | PDateTime(t: Instant)
    | PList(items: seq<PyValue>)
    | PTuple(items: seq<PyValue>)
    | PSet(items: seq<PyValue>)
    | PDict(entries: seq<(string, PyValue)>)
    | PData(entries: seq<(string, PyValue)>)

  /** The values `sval in (None, "", [], {})` matches. `0` and `False` are
      not among them. */
  predicate Empty(j: Json)
  {
    j == Null || j == Str("") || j == Arr([]) || j == Obj([])
  }

  /** The `cleaned` list: the non-empty items, in order. */
  function KeepItems(js: seq<Json>): (r: seq<Json>)
    ensures |r| <= |js|
    ensures forall x :: x in r <==> x in js && !Empty(x)
  {
    if js == [] then []
    else (if Empty(js[0]) then [] else [js[0]]) + KeepItems(js[1..])
  }

  /** The `out` dictionary: the fields whose value is non-empty, in order. */
  function KeepFields(fs: Fields): (r: Fields)
    ensures |r| <= |fs|
    ensures forall p :: p in r <==> p in fs && !Empty(p.1)
  {
    if fs == [] then []
    else (if Empty(fs[0].1) then [] else [fs[0]]) + KeepFields(fs[1..])
  }

  /** `_json_sanitize(v)`. */
  function Sanitize(v: PyValue): (r: Json)
    ensures v.PDict? || v.PData? ==> r.Obj? && |r.fields| <= |v.entries|
    ensures v.PList? || v.PTuple? || v.PSet? ==> r.Arr? && |r.items| <= |v.items|
    ensures v.PNone? <==> r.Null?
    decreases v
  {
    match v
    case PNone => Null
    case PBool(b) => Bool(b)
    case PInt(i) => Int(i)
    case PStr(s) => Str(s)
    case PBytes(bs) => Str(Base64.Encode(bs))
    case PDateTime(t) => Str(IsoFormat(t))
    case PList(_) | PTuple(_) | PSet(_) =>
      Arr(KeepItems(seq(|v.items|, i requires 0 <= i < |v.items| => Sanitize(v.items[i]))))
    case PDict(_) | PData(_) =>
      Obj(KeepFields(seq(|v.entries|, i requires 0 <= i < |v.entries| =>
                                        (v.entries[i].0, Sanitize(v.entries[i].1)))))
  }

  /** What a sanitised value looks like: no empty value anywhere inside a
      list or an object. */
  predicate Clean(j: Json)
    decreases j
  {
    match j
    case Arr(items) => forall i :: 0 <= i < |items| ==> !Empty(items[i]) && Clean(items[i])
    case Obj(fields) => forall i :: 0 <= i < |fields| ==> !Empty(fields[i].1) && Clean(fields[i].1)
    case _ => true
  }

  /** The Python value a JSON value is when handed back to the sanitiser. */
  function Embed(j: Json): (v: PyValue)
    decreases j
  {
    match j
    case Null => PNone
    case Bool(b) => PBool(b)
    case Int(i) => PInt(i)
    case Str(s) => PStr(s)
    case Arr(items) => PList(seq(|items|, i requires 0 <= i < |items| => Embed(items[i])))
    case Obj(fields) =>
      PDict(seq(|fields|, i requires 0 <= i < |fields| => (fields[i].0, Embed(fields[i].1))))
  }

  /** Filtering is compositional: it keeps order across a split. */
  lemma {:induction false} KeepItemsAppend(a: seq<Json>, b: seq<Json>)
    ensures KeepItems(a + b) == KeepItems(a) + KeepItems(b)
    decreases |a|
  {
    if a == [] {
      assert a + b == b;
    } else {
      assert (a + b)[0] == a[0] && (a + b)[1..] == a[1..] + b;
      KeepItemsAppend(a[1..], b);
    }
  }

  /** A list with nothing to drop comes through unchanged. */
  lemma {:induction false} KeepItemsNothingToDrop(js: seq<Json>)
    requires forall i :: 0 <= i < |js| ==> !Empty(js[i])
    ensures KeepItems(js) == js
    decreases |js|
  {
    if js != [] {
      KeepItemsNothingToDrop(js[1..]);
    }
  }

  lemma {:induction false} KeepFieldsNothingToDrop(fs: Fields)
    requires forall i :: 0 <= i < |fs| ==> !Empty(fs[i].1)
    ensures KeepFields(fs) == fs
    decreases |fs|
  {
    if fs != [] {
      KeepFieldsNothingToDrop(fs[1..]);
    }
  }

  /** Looking a key up after the filter: the key is there exactly when it
      was there with a non-empty value, and then with that value. */
  lemma {:induction false} GetKeepFields(fs: Fields, k: string)
    requires UniqueKeys(fs)
    ensures Get(KeepFields(fs), k) ==
              if Get(fs, k).Some? && !Empty(Get(fs, k).value) then Get(fs, k) else None
    decreases |fs|
  {
    if fs != [] {
      UniqueTail(fs);
      GetKeepFields(fs[1..], k);
      var rest := KeepFields(fs[1..]);
      if fs[0].0 != k {
        assert Get(fs, k) == Get(fs[1..], k);
      } else {
        assert Get(fs[1..], k) == None;
      }
      if Empty(fs[0].1) {
        assert KeepFields(fs) == rest;
      } else {
        var r := [fs[0]] + rest;
        assert KeepFields(fs) == r;
        assert r[0] == fs[0] && r[1..] == rest;
        if fs[0].0 != k {
          assert Get(r, k) == Get(rest, k);
        }
      }
    }
  }

  /** Everything the sanitiser returns is clean. */
  lemma {:induction false} SanitizeClean(v: PyValue)
    ensures Clean(Sanitize(v))
    decreases v
  {
    match v
    case PList(_) | PTuple(_) | PSet(_) =>
      var xs := seq(|v.items|, i requires 0 <= i < |v.items| => Sanitize(v.items[i]));
      forall i | 0 <= i < |xs| ensures Clean(xs[i]) {
        SanitizeClean(v.items[i]);
      }
      var r := KeepItems(xs);
      forall i | 0 <= i < |r| ensures !Empty(r[i]) && Clean(r[i]) {
        assert r[i] in r;
      }
    case PDict(_) | PData(_) =>
      var fs := seq(|v.entries|, i requires 0 <= i < |v.entries| =>
                                   (v.entries[i].0, Sanitize(v.entries[i].1)));
      forall i | 0 <= i < |fs| ensures Clean(fs[i].1) {
        SanitizeClean(v.entries[i].1);
      }
      var r := KeepFields(fs);
      forall i | 0 <= i < |r| ensures !Empty(r[i].1) && Clean(r[i].1) {
        assert r[i] in r;
      }
    case _ =>
  }

  /** Sanitising a clean value gives it back unchanged. */
  lemma {:induction false} SanitizeCleanIsFixpoint(j: Json)
    requires Clean(j)
    ensures Sanitize(Embed(j)) == j
    decreases j
  {
    match j
    case Arr(items) =>
      var v := Embed(j);
      var xs := seq(|v.items|, i requires 0 <= i < |v.items| => Sanitize(v.items[i]));
      forall i | 0 <= i < |items| ensures xs[i] == items[i] {
        SanitizeCleanIsFixpoint(items[i]);
      }
      assert xs == items;
      KeepItemsNothingToDrop(items);
    case Obj(fields) =>
      var v := Embed(j);
      var fs := seq(|v.entries|, i requires 0 <= i < |v.entries| =>
                                   (v.entries[i].0, Sanitize(v.entries[i].1)));
      forall i | 0 <= i < |fields| ensures fs[i] == fields[i] {
        SanitizeCleanIsFixpoint(fields[i].1);
      }
      assert fs == fields;
      KeepFieldsNothingToDrop(fields);
    case _ =>
  }

  /** Sanitising twice is sanitising once. */
  lemma SanitizeIdempotent(v: PyValue)
    ensures Sanitize(Embed(Sanitize(v))) == Sanitize(v)
  {
    SanitizeClean(v);
    SanitizeCleanIsFixpoint(Sanitize(v));
  }

  /** A dictionary keeps exactly the keys whose sanitised value is not
      `None`, `""`, `[]` or `{}`, each with its sanitised value; in
      particular `0` and `False` stay. */
  lemma SanitizeDictGet(entries: seq<(string, PyValue)>, k: string, x: PyValue)
    requires (k, x) in entries
    requires forall i, j :: 0 <= i < j < |entries| ==> entries[i].0 != entries[j].0
    ensures var r := Sanitize(PDict(entries));
            r.Obj? && Get(r.fields, k) == if Empty(Sanitize(x)) then None else Some(Sanitize(x))
  {
    var fs := SanitizedEntries(entries);
    var n :| 0 <= n < |entries| && entries[n] == (k, x);
    SanitizedEntriesUnique(entries);
    GetUnique(fs, n);
    GetKeepFields(fs, k);
    SanitizeDict(entries);
  }

  /** The entries of a dictionary with their values sanitised, before
      the empty ones are dropped. */
  function SanitizedEntries(entries: seq<(string, PyValue)>): (fs: Fields)
    ensures |fs| == |entries|
    ensures forall i :: 0 <= i < |entries| ==> fs[i] == (entries[i].0, Sanitize(entries[i].1))
  {
    seq(|entries|, i requires 0 <= i < |entries| => (entries[i].0, Sanitize(entries[i].1)))
  }

  /** A string is kept as it is, and is empty only when it is `""`. */
  lemma SanitizeText(t: string)
    ensures Sanitize(PStr(t)) == Str(t)
    ensures Empty(Str(t)) <==> t == ""
  {
  }

  lemma SanitizeDict(entries: seq<(string, PyValue)>)
    ensures Sanitize(PDict(entries)) == Obj(KeepFields(SanitizedEntries(entries)))
  {
  }

  lemma SanitizedEntriesUnique(entries: seq<(string, PyValue)>)
    requires forall i, j :: 0 <= i < j < |entries| ==> entries[i].0 != entries[j].0
    ensures UniqueKeys(SanitizedEntries(entries))
  {
    var fs := SanitizedEntries(entries);
    forall i, j | 0 <= i < j < |fs| ensures fs[i].0 != fs[j].0 {
      assert fs[i].0 == entries[i].0 && fs[j].0 == entries[j].0;
    }
  }
}
