/** JSON values as Python's `json` module produces and consumes them, the
    Python dictionary operations the runtime applies to them, and
    `json.dumps` with its default `ensure_ascii=True`.

    A JSON object is an association list: Python dictionaries remember
    insertion order, and that order is the order in which `json.dumps`
    writes the keys. Assigning to an existing key keeps its position. */
module Jsons {
  import opened Common
  import opened Text

  datatype Json =
    | Null
    | Bool(b: bool)
    | Int(i: int)
    | Str(s: string)
    | Arr(items: seq<Json>)
    | Obj(fields: seq<(string, Json)>)

  type Fields = seq<(string, Json)>

  /** Python truthiness of a JSON value (`bool(v)`). */
  predicate Truthy(j: Json)
  {
    match j
    case Null => false
    case Bool(b) => b
    case Int(i) => i != 0
    case Str(s) => s != []
    case Arr(a) => a != []
    case Obj(f) => f != []
  }

  /** `a or b` on JSON values. */
  function Or(a: Json, b: Json): (r: Json)
    ensures Truthy(a) ==> r == a
    ensures !Truthy(a) ==> r == b
  {
    if Truthy(a) then a else b
  }

  // ----- dictionaries -----

  function Keys(fs: Fields): (ks: seq<string>)
    ensures |ks| == |fs|
    ensures forall i :: 0 <= i < |fs| ==> ks[i] == fs[i].0
  {
    if fs == [] then [] else [fs[0].0] + Keys(fs[1..])
  }

  /** The dictionary pairing each key with the value at its place. */
  function Pairs(ks: seq<string>, vs: seq<Json>): (r: Fields)
    requires |ks| == |vs|
    ensures Keys(r) == ks
  {
    if ks == [] then [] else [(ks[0], vs[0])] + Pairs(ks[1..], vs[1..])
  }

  predicate UniqueKeys(fs: Fields)
  {
    forall i, j :: 0 <= i < j < |fs| ==> fs[i].0 != fs[j].0
  }

  /** `d.get(k)`, with `None` for a missing key. */
  function Get(fs: Fields, k: string): (r: Option<Json>)
    ensures r.Some? <==> k in Keys(fs)
  {
    if fs == [] then None
    else if fs[0].0 == k then Some(fs[0].1)
    else
      assert k in Keys(fs) <==> k in Keys(fs[1..]) by {
        assert Keys(fs) == [fs[0].0] + Keys(fs[1..]);
      }
      Get(fs[1..], k)
  }

  /** `d.get(k)`, JSON `null` when the key is missing. */
  function GetJ(fs: Fields, k: string): Json
  {
    Get(fs, k).GetOr(Null)
  }

  /** `d.get(k, default)`. */
  function GetDefault(fs: Fields, k: string, default: Json): Json
  {
    Get(fs, k).GetOr(default)
  }

  /** `d[k] = v`: an existing key keeps its place and takes the new value, a
      new key goes to the end. */
  function Put(fs: Fields, k: string, v: Json): (r: Fields)
    ensures forall k' {:trigger Get(r, k')} :: Get(r, k') == if k' == k then Some(v) else Get(fs, k')
    ensures k in Keys(fs) ==> Keys(r) == Keys(fs)
    ensures k !in Keys(fs) ==> Keys(r) == Keys(fs) + [k]
  {
    if fs == [] then [(k, v)]
    else if fs[0].0 == k then [(k, v)] + fs[1..]
    else
      var rest := Put(fs[1..], k, v);
      assert Keys(fs) == [fs[0].0] + Keys(fs[1..]);
      assert Keys([fs[0]] + rest) == [fs[0].0] + Keys(rest);
      assert ([fs[0]] + rest)[1..] == rest;
      [fs[0]] + rest
  }

  lemma PutUnique(fs: Fields, k: string, v: Json)
    requires UniqueKeys(fs)
    ensures UniqueKeys(Put(fs, k, v))
  {
    var r := Put(fs, k, v);
    var ks := Keys(r);
    forall i, j | 0 <= i < j < |r| ensures r[i].0 != r[j].0 {
      assert ks[i] == r[i].0 && ks[j] == r[j].0;
      if k in Keys(fs) {
        assert Keys(fs)[i] == fs[i].0 && Keys(fs)[j] == fs[j].0;
      } else {
        if j < |fs| {
          assert Keys(fs)[i] == fs[i].0 && Keys(fs)[j] == fs[j].0;
        } else {
          assert ks[j] == k;
          assert ks[i] == Keys(fs)[i];
        }
      }
    }
  }

  /** The tail of a dictionary without repeated keys has none either, and
      does not hold the head's key. */
  lemma UniqueTail(fs: Fields)
    requires fs != [] && UniqueKeys(fs)
    ensures UniqueKeys(fs[1..]) && fs[0].0 !in Keys(fs[1..])
  {
    forall i, j | 0 <= i < j < |fs[1..]| ensures fs[1..][i].0 != fs[1..][j].0 {
      assert fs[1..][i] == fs[i + 1] && fs[1..][j] == fs[j + 1];
    }
    forall i | 0 <= i < |fs[1..]| ensures Keys(fs[1..])[i] != fs[0].0 {
      assert fs[1..][i] == fs[i + 1];
    }
  }

  /** In a dictionary without repeated keys, a lookup finds the field at its
      position. */
  lemma {:induction false} GetUnique(fs: Fields, n: nat)
    requires n < |fs| && UniqueKeys(fs)
    ensures Get(fs, fs[n].0) == Some(fs[n].1)
    decreases n
  {
    if n > 0 {
      assert fs[0].0 != fs[n].0;
      UniqueTail(fs);
      assert fs[1..][n - 1] == fs[n];
      GetUnique(fs[1..], n - 1);
    }
  }

  /** A lookup finds the first entry with the key. */
  lemma {:induction false} GetFirst(fs: Fields, n: nat)
    requires n < |fs| && forall j :: 0 <= j < n ==> fs[j].0 != fs[n].0
    ensures Get(fs, fs[n].0) == Some(fs[n].1)
    decreases n
  {
    if n > 0 {
      assert fs[1..][n - 1] == fs[n];
      GetFirst(fs[1..], n - 1);
    }
  }

  /** Assigning a key a dictionary holds replaces its first entry in place. */
  lemma PutAt(fs: Fields, i: nat, v: Json)
    requires i < |fs| && forall j :: 0 <= j < i ==> fs[j].0 != fs[i].0
    ensures Put(fs, fs[i].0, v) == fs[i := (fs[i].0, v)]
  {
    PutKeyAt(fs, i, fs[i].0, v);
  }

  lemma {:induction false} PutKeyAt(fs: Fields, i: nat, k: string, v: Json)
    requires i < |fs| && fs[i].0 == k && forall j :: 0 <= j < i ==> fs[j].0 != k
    ensures Put(fs, k, v) == fs[i := (k, v)]
    decreases i
  {
    if i == 0 {
      PutHead(fs, k, v);
    } else {
      TailAvoids(fs, i, k);
      PutKeyAt(fs[1..], i - 1, k, v);
      PutCons(fs, k, v);
      UpdateTail(fs, i, (k, v));
    }
  }

  lemma PutHead(fs: Fields, k: string, v: Json)
    requires fs != [] && fs[0].0 == k
    ensures Put(fs, k, v) == fs[0 := (k, v)]
  {
    assert fs[0 := (k, v)] == [(k, v)] + fs[1..];
  }

  lemma PutCons(fs: Fields, k: string, v: Json)
    requires fs != [] && fs[0].0 != k
    ensures Put(fs, k, v) == [fs[0]] + Put(fs[1..], k, v)
  {
  }

  lemma TailAvoids(fs: Fields, i: nat, k: string)
    requires 0 < i < |fs| && fs[i].0 == k && forall j :: 0 <= j < i ==> fs[j].0 != k
    ensures fs[1..][i - 1].0 == k && forall j :: 0 <= j < i - 1 ==> fs[1..][j].0 != k
  {
    assert forall j :: 0 <= j < |fs| - 1 ==> fs[1..][j] == fs[j + 1];
  }

  lemma UpdateTail(fs: Fields, i: nat, f: (string, Json))
    requires 0 < i < |fs|
    ensures fs[i := f] == [fs[0]] + fs[1..][i - 1 := f]
  {
    var a, b := fs[i := f], [fs[0]] + fs[1..][i - 1 := f];
    assert forall j :: 0 <= j < |fs| ==> a[j] == b[j];
  }
  lemma NotAKey(fs: Fields, k: string)
    requires forall j :: 0 <= j < |fs| ==> fs[j].0 != k
    ensures k !in Keys(fs)
  {
  }

  lemma {:induction false} KeysAppend(fs: Fields, gs: Fields)
    ensures Keys(fs + gs) == Keys(fs) + Keys(gs)
  {
    assert |Keys(fs + gs)| == |Keys(fs) + Keys(gs)|;
    forall i | 0 <= i < |fs + gs|
      ensures Keys(fs + gs)[i] == (Keys(fs) + Keys(gs))[i]
    {
      if i < |fs| {
        assert (fs + gs)[i] == fs[i];
      } else {
        assert (fs + gs)[i] == gs[i - |fs|];
      }
    }
  }

  /** A lookup in a concatenation answers from the first part that holds
      the key. */
  lemma {:induction false} GetAppend(fs: Fields, gs: Fields, k: string)
    ensures Get(fs + gs, k) == if k in Keys(fs) then Get(fs, k) else Get(gs, k)
    decreases |fs|
  {
    if fs != [] {
      var t := fs + gs;
      assert t[0] == fs[0] && t[1..] == fs[1..] + gs;
      assert Keys(fs) == [fs[0].0] + Keys(fs[1..]);
      if fs[0].0 == k {
        assert Get(t, k) == Some(fs[0].1);
      } else {
        assert Get(t, k) == Get(fs[1..] + gs, k);
        assert Get(fs, k) == Get(fs[1..], k);
        GetAppend(fs[1..], gs, k);
      }
    } else {
      assert fs + gs == gs;
    }
  }

  function Merge(fs: Fields, gs: Fields): (r: Fields)
    decreases |gs|
  {
    if gs == [] then fs else Merge(Put(fs, gs[0].0, gs[0].1), gs[1..])
  }

  /** A merged dictionary answers from `gs` first and from `fs` otherwise. */
  lemma {:induction false} GetMerge(fs: Fields, gs: Fields, k: string)
    requires UniqueKeys(gs)
    ensures Get(Merge(fs, gs), k) == if k in Keys(gs) then Get(gs, k) else Get(fs, k)
    decreases |gs|
  {
    if gs != [] {
      var fs' := Put(fs, gs[0].0, gs[0].1);
      assert UniqueKeys(gs[1..]);
      GetMerge(fs', gs[1..], k);
      assert Keys(gs) == [gs[0].0] + Keys(gs[1..]);
      if k == gs[0].0 {
        assert k !in Keys(gs[1..]) by {
          forall i | 0 <= i < |gs[1..]| ensures Keys(gs[1..])[i] != k {
            assert gs[1..][i] == gs[i + 1];
          }
        }
      }
    }
  }

  /** A key `gs` does not hold is answered by `fs`, repeated keys or not. */
  lemma {:induction false} GetMergeOther(fs: Fields, gs: Fields, k: string)
    requires k !in Keys(gs)
    ensures Get(Merge(fs, gs), k) == Get(fs, k)
    decreases |gs|
  {
    if gs != [] {
      assert Keys(gs) == [gs[0].0] + Keys(gs[1..]);
      GetMergeOther(Put(fs, gs[0].0, gs[0].1), gs[1..], k);
    }
  }

  /** The keys of a merged dictionary are those of both sides. */
  lemma {:induction false} KeysMerge(fs: Fields, gs: Fields, k: string)
    ensures k in Keys(Merge(fs, gs)) <==> k in Keys(fs) || k in Keys(gs)
    decreases |gs|
  {
    if gs != [] {
      var fs' := Put(fs, gs[0].0, gs[0].1);
      KeysMerge(fs', gs[1..], k);
      assert Keys(gs) == [gs[0].0] + Keys(gs[1..]);
      assert k in Keys(fs') <==> k == gs[0].0 || k in Keys(fs) by {
        assert Get(fs', k).Some? <==> k in Keys(fs');
      }
    }
  }

  /** Merging keeps the keys of `fs` first, in their order. */
  lemma {:induction false} MergeKeepsOrder(fs: Fields, gs: Fields)
    ensures Keys(fs) <= Keys(Merge(fs, gs))
    decreases |gs|
  {
    if gs != [] {
      var fs' := Put(fs, gs[0].0, gs[0].1);
      MergeKeepsOrder(fs', gs[1..]);
      assert Keys(fs) <= Keys(fs');
    }
  }

  lemma {:induction false} MergeUnique(fs: Fields, gs: Fields)
    requires UniqueKeys(fs)
    ensures UniqueKeys(Merge(fs, gs))
    decreases |gs|
  {
    if gs != [] {
      PutUnique(fs, gs[0].0, gs[0].1);
      MergeUnique(Put(fs, gs[0].0, gs[0].1), gs[1..]);
    }
  }

  /** `d.pop(k, None)`. */
  function Remove(fs: Fields, k: string): (r: Fields)
    ensures k !in Keys(r)
    ensures forall k' :: k' != k ==> Get(r, k') == Get(fs, k')
  {
    if fs == [] then []
    else if fs[0].0 == k then Remove(fs[1..], k)
    else
      var rest := Remove(fs[1..], k);
      assert ([fs[0]] + rest)[1..] == rest;
      assert Keys([fs[0]] + rest) == [fs[0].0] + Keys(rest);
      [fs[0]] + rest
  }

  // ----- str() and repr() -----

  /** `repr(s)` of a string: single quotes unless the text holds a single
      quote and no double quote. */
  function ReprString(s: string): (r: string)
    ensures |r| >= 2 && r[0] == r[|r| - 1] && (r[0] == '\'' || r[0] == '"')
  {
    var q := if '\'' in s && '"' !in s then '"' else '\'';
    [q] + ReprBody(s, q) + [q]
  }

  function ReprBody(s: string, q: char): string
  {
    if s == [] then ""
    else
      var c := s[0];
      (if c == '\\' then "\\\\"
       else if c == q then ['\\', q]
       else if c == '\n' then "\\n"
       else if c == '\r' then "\\r"
       else if c == '\t' then "\\t"
       else [c])
      + ReprBody(s[1..], q)
  }

  /** `repr(v)` of the Python value a JSON document decodes to. */
  function Repr(j: Json): string
    decreases j
  {
    match j
    case Null => "None"
    case Bool(b) => if b then "True" else "False"
    case Int(i) => IntToString(i)
    case Str(s) => ReprString(s)
    case Arr(items) =>
      "[" + Join(", ", seq(|items|, i requires 0 <= i < |items| => Repr(items[i]))) + "]"
    case Obj(fields) =>
      "{" + Join(", ", seq(|fields|, i requires 0 <= i < |fields| =>
                             ReprString(fields[i].0) + ": " + Repr(fields[i].1))) + "}"
  }

  /** `str(v)`: the text itself for a string, `repr` for everything else. */
  function PyStr(j: Json): (r: string)
    ensures j.Str? ==> r == j.s
    ensures j == Null ==> r == "None"
    ensures j.Int? ==> ParseInt(r) == Some(j.i)
  {
    if j.Str? then j.s
    else
      assert j.Int? ==> ParseInt(Repr(j)) == Some(j.i) by {
        if j.Int? { IntToStringRoundTrip(j.i); }
      }
      Repr(j)
  }

  /** `str(v)` for every item of a list. */
  function Strs(items: seq<Json>): (r: seq<string>)
    ensures |r| == |items|
    ensures forall i :: 0 <= i < |items| ==> r[i] == PyStr(items[i])
  {
    seq(|items|, i requires 0 <= i < |items| => PyStr(items[i]))
  }

  // ----- json.dumps -----

  /** The `separators` argument of `json.dumps`. */
  datatype Separators = Separators(item: string, key: string)

  /** `separators=(",", ":")`: the envelopes of the runtime. */
  const Compact := Separators(",", ":")
  /** The default of `json.dumps` when no indent is given. */
  const Spaced := Separators(", ", ": ")

  predicate Printable(s: string)
  {
    forall k :: 0 <= k < |s| ==> ' ' <= s[k] <= '~'
  }

  function HexDigit(d: nat): char
    requires d < 16
  {
    if d < 10 then ('0' as int + d) as char else ('a' as int + d - 10) as char
  }

  /** `'{0:04x}'.format(n)`. */
  function Hex4(n: nat): (r: string)
    requires n < 0x10000
    ensures |r| == 4 && Printable(r)
  {
    [HexDigit(n / 4096), HexDigit(n / 256 % 16), HexDigit(n / 16 % 16), HexDigit(n % 16)]
  }

  /** The escape `json.dumps` writes for one character of a string. */
  function EscapeChar(c: char): (r: string)
    ensures Printable(r)
  {
    if c == '"' then "\\\""
    else if c == '\\' then "\\\\"
    else if c == '\n' then "\\n"
    else if c == '\r' then "\\r"
    else if c == '\t' then "\\t"
    else if c as int == 0x08 then "\\b"
    else if c as int == 0x0c then "\\f"
    else if ' ' <= c <= '~' then [c]
    else if c as int < 0x10000 then "\\u" + Hex4(c as int)
    else
      var n := c as int - 0x10000;
      assert n < 0x100000;
      "\\u" + Hex4(0xd800 + n / 1024) + "\\u" + Hex4(0xdc00 + n % 1024)
  }

  function EscapeString(s: string): (r: string)
    ensures Printable(r)
  {
    if s == [] then "" else EscapeChar(s[0]) + EscapeString(s[1..])
  }

  function Quote(s: string): (r: string)
    ensures Printable(r)
  {
    "\"" + EscapeString(s) + "\""
  }

  /** `json.dumps(j, separators=sep)`. */
  function Dumps(j: Json, sep: Separators): string
    decreases j
  {
    match j
    case Null => "null"
    case Bool(b) => if b then "true" else "false"
    case Int(i) => IntToString(i)
    case Str(s) => Quote(s)
    case Arr(items) =>
      "[" + Join(sep.item, seq(|items|, i requires 0 <= i < |items| => Dumps(items[i], sep))) + "]"
    case Obj(fields) =>
      "{" + Join(sep.item, seq(|fields|, i requires 0 <= i < |fields| =>
                                 Quote(fields[i].0) + sep.key + Dumps(fields[i].1, sep))) + "}"
  }

  lemma {:induction false} JoinPrintable(sep: string, parts: seq<string>)
    requires Printable(sep)
    requires forall i :: 0 <= i < |parts| ==> Printable(parts[i])
    ensures Printable(Join(sep, parts))
  {
    if |parts| > 1 {
      JoinPrintable(sep, parts[1..]);
    }
  }

  /** Whatever the value, its serialisation is printable ASCII, so in
      particular it holds no line break: one value is one line. */
  lemma {:induction false} DumpsPrintable(j: Json, sep: Separators)
    requires Printable(sep.item) && Printable(sep.key)
    ensures Printable(Dumps(j, sep))
    decreases j
  {
    match j
    case Null =>
    case Bool(b) =>
    case Int(i) =>
      var r := IntToString(i);
      assert forall k :: 1 <= k < |r| ==> r[1..][k - 1] == r[k];
    case Str(s) =>
    case Arr(items) =>
      var parts := seq(|items|, i requires 0 <= i < |items| => Dumps(items[i], sep));
      forall i | 0 <= i < |items| ensures Printable(parts[i]) {
        DumpsPrintable(items[i], sep);
      }
      JoinPrintable(sep.item, parts);
    case Obj(fields) =>
      var parts := seq(|fields|, i requires 0 <= i < |fields| =>
                         Quote(fields[i].0) + sep.key + Dumps(fields[i].1, sep));
      forall i | 0 <= i < |fields| ensures Printable(parts[i]) {
        DumpsPrintable(fields[i].1, sep);
      }
      JoinPrintable(sep.item, parts);
  }

  lemma DumpsOneLine(j: Json, sep: Separators)
    requires Printable(sep.item) && Printable(sep.key)
    ensures '\n' !in Dumps(j, sep)
  {
    DumpsPrintable(j, sep);
  }
}
