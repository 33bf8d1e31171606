/** DNS name classification of the runtime models (`_infer_root_kind_parent`
    and `DnsDomain.from_name`), which the two copies of the models module
    define identically. */
module Dns {
  import opened Common
  import opened Text
  import opened Jsons

  const DnsKindValues: seq<string> := ["apex", "subdomain", "wildcard"]

  datatype Classified = Classified(root: string, kind: string, parent: Option<string>)

  /** `(name or "").strip().lstrip(".").lower()`. */
  function Normalize(name: string): string
  {
    Lower(LStripChar(Strip(name), '.'))
  }

  /** `".".join(parts[-2:])` for at least two parts. */
  function LastTwo(parts: seq<string>): (r: string)
    requires |parts| >= 2
    ensures r == parts[|parts| - 2] + "." + parts[|parts| - 1]
  {
    var t := parts[|parts| - 2..];
    assert |t| == 2 && t[0] == parts[|parts| - 2];
    assert t[1..] == [parts[|parts| - 1]];
    assert Join(".", t[1..]) == parts[|parts| - 1];
    Join(".", t)
  }

  /** A root is a suffix of the name it was taken from. */
  lemma LastTwoSuffix(s: string, parts: seq<string>)
    requires parts == Split(s, '.') && |parts| >= 2
    ensures EndsWith(s, LastTwo(parts))
  {
    var k := |parts| - 2;
    if k > 0 {
      JoinSplitAt(".", parts, k);
      assert parts[k..][1..] == [parts[k + 1]];
      assert s == Join(".", parts[..k]) + "." + LastTwo(parts);
    } else {
      assert parts[1..] == [parts[1]];
      assert s == LastTwo(parts);
    }
  }

  /** The wildcard branch, on the name after `*.`. */
  function WildcardRoot(host: string): (root: string)
    ensures EndsWith(host, root)
  {
    var parts := Split(host, '.');
    if |parts| >= 2 then
      LastTwoSuffix(host, parts);
      LastTwo(parts)
    else host
  }

  /** The other branch: an apex keeps the whole name, a subdomain the last
      two labels. */
  function PlainRoot(n: string): (r: Classified)
    ensures r.kind == "apex" || r.kind == "subdomain"
    ensures r.kind == "apex" <==> r.parent.None?
    ensures r.kind != "apex" ==> r.parent == Some(r.root)
    ensures EndsWith(n, r.root)
  {
    var parts := Split(n, '.');
    if |parts| <= 2 then Classified(n, "apex", None)
    else
      LastTwoSuffix(n, parts);
      Classified(LastTwo(parts), "subdomain", Some(LastTwo(parts)))
  }

  /** `_infer_root_kind_parent(name)`: the kind is always one of the three,
      a parent exists exactly for non-apex names and is then the root, the
      root is a suffix of the normalised name, and the wildcard kind is the
      `*.` prefix. */
  function InferRootKindParent(name: string): (r: Classified)
    ensures r.kind in DnsKindValues
    ensures r.kind == "apex" <==> r.parent.None?
    ensures r.kind != "apex" ==> r.parent == Some(r.root)
    ensures r.kind == "wildcard" <==> StartsWith(Normalize(name), "*.")
    ensures EndsWith(Normalize(name), r.root)
  {
    var n := Normalize(name);
    if StartsWith(n, "*.") then
      var root := WildcardRoot(n[2..]);
      assert n == n[..2] + n[2..];
      Classified(root, "wildcard", Some(root))
    else
      PlainRoot(n)
  }

  /** A name that normalises to two labels is an apex, and its own root. */
  lemma ApexName(name: string, a: string, b: string)
    requires '.' !in a && '.' !in b
    requires Normalize(name) == a + "." + b && !StartsWith(a + "." + b, "*.")
    ensures InferRootKindParent(name) == Classified(a + "." + b, "apex", None)
  {
    SplitConcat(a, '.', b);
    SplitNoSep(a, '.');
    SplitNoSep(b, '.');
  }

  /** The labels of a name with at least three labels end in the last two. */
  lemma SplitLastTwo(sub: string, a: string, b: string)
    requires '.' !in a && '.' !in b
    ensures var parts := Split(sub + "." + a + "." + b, '.');
            |parts| >= 3 && LastTwo(parts) == a + "." + b
  {
    SplitConcat(sub + "." + a, '.', b);
    SplitConcat(sub, '.', a);
    SplitNoSep(a, '.');
    SplitNoSep(b, '.');
    var parts := Split(sub + "." + a + "." + b, '.');
    assert parts == Split(sub, '.') + [a] + [b];
    assert parts[|parts| - 2] == a && parts[|parts| - 1] == b;
  }

  /** Below two labels, the root is the last two labels and the parent is
      that root. */
  lemma SubdomainName(name: string, sub: string, a: string, b: string)
    requires '.' !in a && '.' !in b
    requires Normalize(name) == sub + "." + a + "." + b && !StartsWith(sub + "." + a + "." + b, "*.")
    ensures InferRootKindParent(name) == Classified(a + "." + b, "subdomain", Some(a + "." + b))
  {
    SplitLastTwo(sub, a, b);
  }

  /** A wildcard's root is the last two labels after `*.`. */
  lemma WildcardName(name: string, host: string, a: string, b: string)
    requires '.' !in a && '.' !in b
    requires StartsWith(Normalize(name), "*.") && Normalize(name)[2..] == host + "." + a + "." + b
    ensures InferRootKindParent(name) == Classified(a + "." + b, "wildcard", Some(a + "." + b))
  {
    SplitLastTwo(host, a, b);
    InferWildcard(name);
  }

  lemma InferWildcard(name: string)
    requires StartsWith(Normalize(name), "*.")
    ensures var root := WildcardRoot(Normalize(name)[2..]);
            InferRootKindParent(name) == Classified(root, "wildcard", Some(root))
  {
  }

  /** A one-label wildcard is its own root. */
  lemma WildcardLabel(name: string, host: string)
    requires '.' !in host
    requires StartsWith(Normalize(name), "*.") && Normalize(name)[2..] == host
    ensures InferRootKindParent(name) == Classified(host, "wildcard", Some(host))
  {
    SplitNoSep(host, '.');
    InferWildcard(name);
  }

  /** `DnsDomain` of the runtime models. */
  datatype DnsDomain = DnsDomain(name: string, root: string, kind: string, parent: Option<string>)

  const DnsDomainType := "dns.domain"

  /** `DnsDomain.from_name(name)`: the name is kept lower-cased but not
      stripped, and the fallback to "subdomain" never applies. */
  function FromName(name: string): (d: DnsDomain)
    ensures d.name == Lower(name)
    ensures var c := InferRootKindParent(name);
            d.root == c.root && d.kind == c.kind && d.parent == c.parent
  {
    var c := InferRootKindParent(name);
    var kind := if c.kind in DnsKindValues then c.kind else "subdomain";
    DnsDomain(Lower(name), c.root, kind, c.parent)
  }

  /** `to_payload()`: every field but `event_type`, in declaration order. */
  function DomainPayload(d: DnsDomain): (r: Fields)
    ensures Keys(r) == ["name", "root", "kind", "parent"]
  {
    [("name", Str(d.name)), ("root", Str(d.root)), ("kind", Str(d.kind)),
     ("parent", if d.parent.Some? then Str(d.parent.value) else Null)]
  }
}
