/** The rule Python's `@dataclass` applies when it builds `__init__`, as far
    as the event models depend on it: fields are collected base class
    first, a field a subclass declares again keeps the base class's
    position, and among the fields that `__init__` takes, one without a
    default may not follow one with a default. */
module Dataclasses {
  import opened Common

  /** A declared field: its name, whether `__init__` takes it, and whether
      it has a default (a `default` or a `default_factory`). */
  datatype Field = Field(name: string, init: bool, hasDefault: bool)

  /** `fields[f.name] = f`: a dictionary assignment, so a name already
      there keeps its place and takes the new declaration. */
  function Declare(fs: seq<Field>, f: Field): (r: seq<Field>)
    ensures |r| == |fs| || r == fs + [f]
  {
    if fs == [] then [f]
    else if fs[0].name == f.name then [f] + fs[1..]
    else [fs[0]] + Declare(fs[1..], f)
  }

  /** A name not declared yet goes last. */
  lemma {:induction false} DeclareFresh(fs: seq<Field>, f: Field)
    requires forall j :: 0 <= j < |fs| ==> fs[j].name != f.name
    ensures Declare(fs, f) == fs + [f]
  {
    if fs != [] {
      DeclareFresh(fs[1..], f);
      assert [fs[0]] + (fs[1..] + [f]) == fs + [f];
    }
  }

  /** A name declared once already takes the new declaration in its old
      place. */
  lemma {:induction false} DeclareExisting(fs: seq<Field>, f: Field, i: nat)
    requires i < |fs| && fs[i].name == f.name
    requires forall j :: 0 <= j < i ==> fs[j].name != f.name
    ensures Declare(fs, f) == fs[i := f]
  {
    if i > 0 {
      DeclareExisting(fs[1..], f, i - 1);
      assert [fs[0]] + fs[1..][i - 1 := f] == fs[i := f];
    } else {
      assert [f] + fs[1..] == fs[0 := f];
    }
  }

  /** The fields of a class: its base class's, then its own declarations
      applied in order. */
  function Layout(base: seq<Field>, own: seq<Field>): seq<Field>
    decreases |own|
  {
    if own == [] then base else Layout(Declare(base, own[0]), own[1..])
  }

  /** The `TypeError` message. */
  function NonDefaultAfterDefault(name: string): string
  {
    "non-default argument '" + name + "' follows default argument"
  }

  /** The field-order rule `__init__` enforces, with whether a default was seen so far. */
  function CheckFrom(fs: seq<Field>, seenDefault: bool): (r: Result<()>)
  {
    if fs == [] then Ok(())
    else if !fs[0].init then CheckFrom(fs[1..], seenDefault)
    else if fs[0].hasDefault then CheckFrom(fs[1..], true)
    else if seenDefault then Err(NonDefaultAfterDefault(fs[0].name))
    else CheckFrom(fs[1..], seenDefault)
  }

  /** Building the class succeeds, or raises `TypeError`. */
  function Check(fs: seq<Field>): Result<()>
  {
    CheckFrom(fs, false)
  }

  /** The order the rule asks for: no `__init__` field without a default
      after one with a default. */
  predicate Ordered(fs: seq<Field>)
  {
    forall i, j :: 0 <= i < j < |fs| && fs[i].init && fs[i].hasDefault && fs[j].init ==> fs[j].hasDefault
  }

  predicate NoRequired(fs: seq<Field>)
  {
    forall j :: 0 <= j < |fs| && fs[j].init ==> fs[j].hasDefault
  }

  /** The class builds exactly when its fields are in that order. */
  lemma {:induction false} CheckOrdered(fs: seq<Field>)
    ensures Check(fs).Ok? <==> Ordered(fs)
  {
    CheckFromOrdered(fs, false);
  }

  lemma {:induction false} CheckFromOrdered(fs: seq<Field>, seenDefault: bool)
    ensures CheckFrom(fs, seenDefault).Ok? <==> Ordered(fs) && (seenDefault ==> NoRequired(fs))
    decreases |fs|
  {
    if fs != [] {
      var t := fs[1..];
      CheckFromOrdered(t, seenDefault || (fs[0].init && fs[0].hasDefault));
      assert forall j :: 1 <= j < |fs| ==> fs[j] == t[j - 1];
      if !fs[0].init || !fs[0].hasDefault {
        assert Ordered(fs) <==> Ordered(t) by {
          if Ordered(t) {
            forall i, j | 0 <= i < j < |fs| && fs[i].init && fs[i].hasDefault && fs[j].init
              ensures fs[j].hasDefault
            {
              assert i > 0 && t[i - 1] == fs[i] && t[j - 1] == fs[j];
            }
          }
          if Ordered(fs) {
            forall i, j | 0 <= i < j < |t| && t[i].init && t[i].hasDefault && t[j].init
              ensures t[j].hasDefault
            {
              assert fs[i + 1] == t[i] && fs[j + 1] == t[j];
            }
          }
        }
        assert NoRequired(fs) <==> (!fs[0].init || fs[0].hasDefault) && NoRequired(t) by {
          if NoRequired(t) && (!fs[0].init || fs[0].hasDefault) {
            forall j | 0 <= j < |fs| && fs[j].init ensures fs[j].hasDefault {
              if j > 0 { assert fs[j] == t[j - 1]; }
            }
          }
        }
      } else {
        assert Ordered(fs) <==> Ordered(t) && NoRequired(t) by {
          if Ordered(t) && NoRequired(t) {
            forall i, j | 0 <= i < j < |fs| && fs[i].init && fs[i].hasDefault && fs[j].init
              ensures fs[j].hasDefault
            {
              assert fs[j] == t[j - 1];
            }
          }
          if Ordered(fs) {
            forall j | 0 <= j < |t| && t[j].init ensures t[j].hasDefault {
              assert fs[j + 1] == t[j];
            }
            forall i, j | 0 <= i < j < |t| && t[i].init && t[i].hasDefault && t[j].init
              ensures t[j].hasDefault
            {
              assert fs[i + 1] == t[i] && fs[j + 1] == t[j];
            }
          }
        }
        assert NoRequired(fs) <==> NoRequired(t) by {
          if NoRequired(t) {
            forall j | 0 <= j < |fs| && fs[j].init ensures fs[j].hasDefault {
              if j > 0 { assert fs[j] == t[j - 1]; }
            }
          }
        }
      }
    }
  }

  // ----- the event models -----

  /** `event_type: str` of the runtime `EventModel`: a required argument. */
  const RuntimeBase := [Field("event_type", true, false)]

  /** `event_type: str = field(init=False, default="")` of the packaged
      `EventModel`: never an argument. */
  const PackagedBase := [Field("event_type", false, true)]

  /** The runtime `DnsDomain` as written: `event_type` comes back with a
      default but stays in the base class's first position, ahead of
      `name`, `root` and `kind`, which have none. */
  const DnsDomainOwn := [Field("name", true, false), Field("root", true, false), Field("kind", true, false),
                        Field("parent", true, true), Field("event_type", true, true)]

  /** The runtime `HttpResponse` as written: `url` has no default. */
  const HttpResponseOwn :=
    [Field("url", true, false),
      Field("host", true, true), Field("ip", true, true), Field("port", true, true),
      Field("scheme", true, true), Field("method", true, true), Field("status_code", true, true),
      Field("title", true, true), Field("content_type", true, true), Field("content_length", true, true),
      Field("webserver", true, true), Field("response_time", true, true), Field("words", true, true),
      Field("lines", true, true), Field("body_mmh3_hash", true, true), Field("headers_mmh3_hash", true, true),
      Field("favicon_mmh3_hash", true, true), Field("headers", true, true), Field("target", true, true),
      Field("raw", true, true),
      Field("event_type", true, true)]

  /** A required base-class field that a subclass declares again with a
      default, after declaring a required field of its own first: the
      redefined field keeps the first place, the subclass's field comes
      second, and the class statement raises `TypeError` naming it. */
  lemma InheritedDefaultFirst(n: string, own: seq<Field>)
    requires |own| >= 2 && own[|own| - 1] == Field(n, true, true)
    requires own[0].init && !own[0].hasDefault && own[0].name != n
    requires forall i :: 1 <= i < |own| - 1 ==> own[i].name != n && own[i].name != own[0].name
    ensures var fs := Layout([Field(n, true, false)], own);
            && |fs| >= 2 && fs[0] == Field(n, true, true) && fs[1] == own[0]
            && Check(fs) == Err(NonDefaultAfterDefault(own[0].name))
  {
    var m := InheritedPrefix(n, own);
    RedeclareFirst(m, Field(n, true, true));
    var fs := Declare(m, Field(n, true, true));
    assert fs[1] == own[0];
    RequiredAfterDefault(fs);
  }

  /** The layout before the redeclaration: the inherited field, then the
      subclass's first field, then the rest. */
  lemma InheritedPrefix(n: string, own: seq<Field>) returns (m: seq<Field>)
    requires |own| >= 2 && own[|own| - 1] == Field(n, true, true)
    requires own[0].init && !own[0].hasDefault && own[0].name != n
    requires forall i :: 1 <= i < |own| - 1 ==> own[i].name != n && own[i].name != own[0].name
    ensures |m| >= 2 && m[0] == Field(n, true, false) && m[1] == own[0]
    ensures Layout([Field(n, true, false)], own) == Declare(m, Field(n, true, true))
  {
    var g := own[0];
    var mid := own[1..|own| - 1];
    var two := [Field(n, true, false), g];
    DeclareFresh([Field(n, true, false)], g);
    assert Layout([Field(n, true, false)], own) == Layout(two, own[1..]);
    assert own[1..] == mid + [Field(n, true, true)];
    MiddleFresh(n, own);
    LayoutSplit(two, mid, Field(n, true, true));
    LayoutKeepsFirstTwo(two, mid);
    m := Layout(two, mid);
  }

  lemma MiddleFresh(n: string, own: seq<Field>)
    requires |own| >= 2
    requires forall i :: 1 <= i < |own| - 1 ==> own[i].name != n && own[i].name != own[0].name
    ensures var mid := own[1..|own| - 1];
            forall i :: 0 <= i < |mid| ==> mid[i].name != n && mid[i].name != own[0].name
  {
    var mid := own[1..|own| - 1];
    forall i | 0 <= i < |mid| ensures mid[i].name != n && mid[i].name != own[0].name {
      assert mid[i] == own[i + 1];
    }
  }

  /** A required argument right after one with a default is rejected. */
  lemma RequiredAfterDefault(fs: seq<Field>)
    requires |fs| >= 2 && fs[0].init && fs[0].hasDefault && fs[1].init && !fs[1].hasDefault
    ensures Check(fs) == Err(NonDefaultAfterDefault(fs[1].name))
  {
    assert CheckFrom(fs, false) == CheckFrom(fs[1..], true);
    assert fs[1..][0] == fs[1];
  }

  /** Declaring names other than the first two leaves the first two
      fields where they are. */
  lemma {:induction false} LayoutKeepsFirstTwo(fs: seq<Field>, own: seq<Field>)
    requires |fs| >= 2
    requires forall i :: 0 <= i < |own| ==> own[i].name != fs[0].name && own[i].name != fs[1].name
    ensures |Layout(fs, own)| >= 2 && Layout(fs, own)[..2] == fs[..2]
    decreases |own|
  {
    if own != [] {
      var next := Declare(fs, own[0]);
      DeclareKeepsFirstTwo(fs, own[0]);
      forall i | 0 <= i < |own[1..]| ensures own[1..][i].name != next[0].name && own[1..][i].name != next[1].name {
        assert own[1..][i] == own[i + 1];
      }
      LayoutKeepsFirstTwo(next, own[1..]);
    }
  }

  lemma DeclareKeepsFirstTwo(fs: seq<Field>, f: Field)
    requires |fs| >= 2 && f.name != fs[0].name && f.name != fs[1].name
    ensures |Declare(fs, f)| >= 2 && Declare(fs, f)[..2] == fs[..2]
  {
    var rest := Declare(fs[1..], f);
    assert Declare(fs, f) == [fs[0]] + rest;
    assert rest == [fs[1]] + Declare(fs[2..], f);
  }

  lemma {:induction false} LayoutSplit(base: seq<Field>, own: seq<Field>, f: Field)
    ensures Layout(base, own + [f]) == Declare(Layout(base, own), f)
    decreases |own|
  {
    if own == [] {
      assert [f][1..] == [];
    } else {
      assert (own + [f])[1..] == own[1..] + [f];
      LayoutSplit(Declare(base, own[0]), own[1..], f);
    }
  }

  /** The class statements of the runtime `DnsDomain` and `HttpResponse`
      raise `TypeError`: `name` and `url` follow the inherited `event_type`,
      which now has a default. */
  lemma RuntimeModelsRejected()
    ensures Check(Layout(RuntimeBase, DnsDomainOwn)) == Err(NonDefaultAfterDefault("name"))
    ensures Check(Layout(RuntimeBase, HttpResponseOwn)) == Err(NonDefaultAfterDefault("url"))
  {
    RuntimeDnsDomainRejected();
    RuntimeHttpResponseRejected();
  }

  lemma RuntimeDnsDomainRejected()
    ensures Check(Layout(RuntimeBase, DnsDomainOwn)) == Err(NonDefaultAfterDefault("name"))
  {
    RuntimeNamesFresh(DnsDomainOwn);
    InheritedDefaultFirst("event_type", DnsDomainOwn);
  }

  lemma RuntimeHttpResponseRejected()
    ensures Check(Layout(RuntimeBase, HttpResponseOwn)) == Err(NonDefaultAfterDefault("url"))
  {
    var own := HttpResponseOwn;
    assert own[|own| - 1] == Field("event_type", true, true) && own[0] == Field("url", true, false);
    RuntimeNamesFresh(own);
    InheritedDefaultFirst("event_type", own);
  }

  /** No field between the first and the redeclared `event_type` is named
      like either of them. */
  lemma RuntimeNamesFresh(own: seq<Field>)
    requires own == DnsDomainOwn || own == HttpResponseOwn
    ensures forall i :: 1 <= i < |own| - 1 ==> own[i].name != "event_type" && own[i].name != own[0].name
  {
    forall i | 1 <= i < |own| - 1 ensures own[i].name != "event_type" && own[i].name != own[0].name {
      assert own[i].name[0] != 'e' && own[i].name[0] != own[0].name[0];
    }
  }

  /** Fields with fresh, distinct names are appended in order. */
  lemma {:induction false} AppendNew(base: seq<Field>, own: seq<Field>)
    requires forall i, j :: 0 <= i < |own| && 0 <= j < |base| ==> own[i].name != base[j].name
    requires forall i, j :: 0 <= i < j < |own| ==> own[i].name != own[j].name
    ensures Layout(base, own) == base + own
    decreases |own|
  {
    if own != [] {
      var b := base + [own[0]];
      DeclareFresh(base, own[0]);
      forall i, j | 0 <= i < |own[1..]| && 0 <= j < |b| ensures own[1..][i].name != b[j].name {
        assert own[1..][i] == own[i + 1];
      }
      forall i, j | 0 <= i < j < |own[1..]| ensures own[1..][i].name != own[1..][j].name {
        assert own[1..][i] == own[i + 1] && own[1..][j] == own[j + 1];
      }
      AppendNew(b, own[1..]);
      assert b + own[1..] == base + own;
    }
  }

  /** A declaration of the first field's name replaces it in place. */
  lemma RedeclareFirst(fs: seq<Field>, f: Field)
    requires fs != [] && fs[0].name == f.name
    ensures Declare(fs, f) == [f] + fs[1..]
  {
  }

  /** The same runtime `DnsDomain` with `event_type` declared the way the
      packaged models declare theirs, `field(init=False, default=...)`. */
  const CorrectedDnsDomainOwn := [Field("name", true, false), Field("root", true, false), Field("kind", true, false),
                                 Field("parent", true, true), Field("event_type", false, true)]

  /** That declaration builds, and `__init__` takes `name`, `root`, `kind`
      and an optional `parent`. */
  lemma CorrectedDnsDomainAccepted()
    ensures Layout(RuntimeBase, CorrectedDnsDomainOwn) ==
              [Field("event_type", false, true), Field("name", true, false), Field("root", true, false),
               Field("kind", true, false), Field("parent", true, true)]
    ensures Check(Layout(RuntimeBase, CorrectedDnsDomainOwn)).Ok?
  {
    var own := CorrectedDnsDomainOwn;
    var first := own[..4];
    var et := Field("event_type", false, true);
    assert own == first + [et];
    LayoutSplit(RuntimeBase, first, et);
    CorrectedDnsDomainFresh();
    AppendNew(RuntimeBase, first);
    RedeclareFirst(RuntimeBase + first, et);
    assert (RuntimeBase + first)[1..] == first;
    var fs := [et] + first;
    assert CheckFrom(fs, false) == CheckFrom(fs[1..], false);
    assert CheckFrom(fs[1..], false) == CheckFrom(fs[2..], false);
    assert CheckFrom(fs[2..], false) == CheckFrom(fs[3..], false);
    assert CheckFrom(fs[3..], false) == CheckFrom(fs[4..], false);
    assert CheckFrom(fs[4..], false) == CheckFrom(fs[5..], true);
  }

  /** The runtime `HttpResponse` with only `event_type` changed, declared
      the way the packaged models declare theirs. */
  const CorrectedHttpResponseOwn := HttpResponseOwn[..|HttpResponseOwn| - 1] + [Field("event_type", false, true)]

  /** That declaration builds: `event_type` keeps the first place but is
      not an argument, `url` is the one required argument and every field
      after it has a default. */
  lemma CorrectedHttpResponseAccepted()
    ensures var fs := Layout(RuntimeBase, CorrectedHttpResponseOwn);
            && |fs| >= 2 && fs[0] == Field("event_type", false, true) && fs[1] == Field("url", true, false)
            && (forall i :: 2 <= i < |fs| ==> fs[i].hasDefault)
            && Check(fs).Ok?
  {
    var own := CorrectedHttpResponseOwn;
    var rest := HttpResponseOwn[1..|HttpResponseOwn| - 1];
    HttpResponseOptional();
    forall i | 0 <= i < |rest| ensures rest[i].hasDefault && rest[i].name != "event_type" && rest[i].name != "url" {
      assert rest[i] == HttpResponseOwn[i + 1];
    }
    assert own == [HttpResponseOwn[0]] + rest + [Field("event_type", false, true)];
    RequiredThenDefaults(RuntimeBase[0], HttpResponseOwn[0], rest, Field("event_type", false, true));
  }

  /** A base field redeclared as no argument, after one required field
      and then fields with defaults: the class builds, with the redeclared
      field first and the required one second. */
  lemma RequiredThenDefaults(first: Field, req: Field, rest: seq<Field>, again: Field)
    requires again.name == first.name && !again.init
    requires req.init && !req.hasDefault && req.name != first.name
    requires forall i :: 0 <= i < |rest| ==> rest[i].hasDefault && rest[i].name != first.name && rest[i].name != req.name
    ensures var fs := Layout([first], [req] + rest + [again]);
            && |fs| >= 2 && fs[0] == again && fs[1] == req
            && (forall i :: 2 <= i < |fs| ==> fs[i].hasDefault)
            && Check(fs).Ok?
  {
    var two := [first, req];
    RequiredFirst(first, req, rest, again);
    LayoutDefaulted(two, rest);
    var m := Layout(two, rest);
    assert m[0] == first && m[1] == req;
    RedeclareFirst(m, again);
    var fs := [again] + m[1..];
    assert forall i :: 2 <= i < |fs| ==> fs[i] == m[i];
    DefaultsAfterTwo(fs);
  }

  /** The layout before the redeclaration is the base field, the required
      one, then the rest declared in order. */
  lemma RequiredFirst(first: Field, req: Field, rest: seq<Field>, again: Field)
    requires req.name != first.name
    ensures Layout([first], [req] + rest + [again]) == Declare(Layout([first, req], rest), again)
  {
    DeclareFresh([first], req);
    assert ([req] + rest + [again])[0] == req && ([req] + rest + [again])[1..] == rest + [again];
    LayoutSplit([first, req], rest, again);
  }

  /** Fields whose first is no argument and whose third onwards all have
      defaults build a class. */
  lemma DefaultsAfterTwo(fs: seq<Field>)
    requires |fs| >= 2 && !fs[0].init
    requires forall i :: 2 <= i < |fs| ==> fs[i].hasDefault
    ensures Check(fs).Ok?
  {
    assert Ordered(fs) by {
      forall i, j | 0 <= i < j < |fs| && fs[i].init && fs[i].hasDefault && fs[j].init ensures fs[j].hasDefault {
        assert j >= 2;
      }
    }
    CheckOrdered(fs);
  }

  /** Every field of `HttpResponse` between `url` and `event_type` has a
      default. */
  lemma HttpResponseOptional()
    ensures forall i :: 1 <= i < |HttpResponseOwn| - 1 ==>
              HttpResponseOwn[i].hasDefault && HttpResponseOwn[i].name != "event_type" && HttpResponseOwn[i].name != "url"
  {
  }

  /** `Declare` puts `f` somewhere or keeps each field where it was. */
  lemma {:induction false} DeclareKeepsOrPuts(fs: seq<Field>, f: Field)
    ensures var r := Declare(fs, f);
            forall i :: 0 <= i < |r| ==> r[i] == f || (i < |fs| && r[i] == fs[i])
  {
    if fs != [] && fs[0].name != f.name {
      DeclareKeepsOrPuts(fs[1..], f);
      var r := Declare(fs, f);
      forall i | 0 <= i < |r| ensures r[i] == f || (i < |fs| && r[i] == fs[i]) {
        if i > 0 { assert r[i] == Declare(fs[1..], f)[i - 1]; }
      }
    }
  }

  /** Declaring fields with defaults, named unlike the first two, keeps the
      first two in place and a default on every field after them. */
  lemma {:induction false} LayoutDefaulted(fs: seq<Field>, own: seq<Field>)
    requires |fs| >= 2 && forall i :: 2 <= i < |fs| ==> fs[i].hasDefault
    requires forall i :: 0 <= i < |own| ==> own[i].hasDefault && own[i].name != fs[0].name && own[i].name != fs[1].name
    ensures var r := Layout(fs, own);
            && |r| >= 2 && r[..2] == fs[..2] && (forall i :: 2 <= i < |r| ==> r[i].hasDefault)
            && |r| <= |fs| + |own|
    decreases |own|
  {
    if own != [] {
      var next := Declare(fs, own[0]);
      DeclareKeepsFirstTwo(fs, own[0]);
      DeclareKeepsOrPuts(fs, own[0]);
      assert next[0] == fs[0] && next[1] == fs[1];
      forall i | 0 <= i < |own[1..]|
        ensures own[1..][i].hasDefault && own[1..][i].name != next[0].name && own[1..][i].name != next[1].name
      {
        assert own[1..][i] == own[i + 1];
      }
      LayoutDefaulted(next, own[1..]);
    }
  }

  /** The packaged `Finding`: its `event_type` is not an argument, so
      `title` and `severity` may follow it. */
  const FindingOwn := [Field("title", true, false), Field("severity", true, false), Field("description", true, true),
                      Field("categories", true, true), Field("assets", true, true), Field("event_type", false, true)]

  /** The packaged `NetworkService`: every field has a default. */
  const NetworkServiceOwn := [Field("event_type", true, true), Field("ip", true, true), Field("port", true, true),
                             Field("protocol", true, true), Field("banner", true, true)]

  /** Both packaged models build: `Finding` keeps `event_type` first and
      takes `title` and `severity` as required arguments after it. */
  lemma PackagedModelsAccepted()
    ensures Layout(PackagedBase, FindingOwn) == FindingLayout
    ensures Check(Layout(PackagedBase, FindingOwn)).Ok?
  {
    FindingLayoutIs();
    FindingLayoutAccepted();
  }

  lemma FindingLayoutIs()
    ensures Layout(PackagedBase, FindingOwn) == FindingLayout
  {
    var et := Field("event_type", false, true);
    var first := FindingOwn[..5];
    assert FindingOwn == first + [et];
    LayoutSplit(PackagedBase, first, et);
    FindingFresh();
    AppendNew(PackagedBase, first);
    RedeclareFirst(PackagedBase + first, et);
    assert (PackagedBase + first)[1..] == first;
  }

  const FindingLayout := [Field("event_type", false, true), Field("title", true, false), Field("severity", true, false),
                          Field("description", true, true), Field("categories", true, true), Field("assets", true, true)]

  /** `Finding`'s own fields before `event_type` are new names. */
  lemma FindingFresh()
    ensures var own := FindingOwn[..5];
            && (forall i, j :: 0 <= i < |own| && 0 <= j < |PackagedBase| ==> own[i].name != PackagedBase[j].name)
            && (forall i, j :: 0 <= i < j < |own| ==> own[i].name != own[j].name)
  {
    var own := FindingOwn[..5];
    forall i, j | 0 <= i < |own| && 0 <= j < |PackagedBase| ensures own[i].name != PackagedBase[j].name {
      assert own[i].name[0] != PackagedBase[j].name[0];
    }
    forall i, j | 0 <= i < j < |own| ensures own[i].name != own[j].name {
      assert own[i].name[0] != own[j].name[0];
    }
  }

  /** The corrected `DnsDomain`'s own fields before `event_type` are new
      names. */
  lemma CorrectedDnsDomainFresh()
    ensures var own := CorrectedDnsDomainOwn[..4];
            && (forall i, j :: 0 <= i < |own| && 0 <= j < |RuntimeBase| ==> own[i].name != RuntimeBase[j].name)
            && (forall i, j :: 0 <= i < j < |own| ==> own[i].name != own[j].name)
  {
    var own := CorrectedDnsDomainOwn[..4];
    forall i, j | 0 <= i < |own| && 0 <= j < |RuntimeBase| ensures own[i].name != RuntimeBase[j].name {
      assert own[i].name[0] != RuntimeBase[j].name[0];
    }
    forall i, j | 0 <= i < j < |own| ensures own[i].name != own[j].name {
      assert own[i].name[0] != own[j].name[0];
    }
  }

  lemma FindingLayoutAccepted()
    ensures Check(FindingLayout).Ok?
  {
    var fs := FindingLayout;
    assert CheckFrom(fs, false) == CheckFrom(fs[1..], false);
    assert CheckFrom(fs[1..], false) == CheckFrom(fs[2..], false);
    assert CheckFrom(fs[2..], false) == CheckFrom(fs[3..], false);
    assert CheckFrom(fs[3..], false) == CheckFrom(fs[4..], true);
    assert CheckFrom(fs[4..], true) == CheckFrom(fs[5..], true);
    assert CheckFrom(fs[5..], true) == CheckFrom(fs[6..], true);
  }

  /** `NetworkService` redeclares `event_type` with a default and gives
      every field of its own a default, so its layout is accepted. */
  lemma NetworkServiceAccepted()
    ensures Check(Layout(PackagedBase, NetworkServiceOwn)).Ok?
  {
    var ns := NetworkServiceOwn;
    RedeclareFirst(PackagedBase, ns[0]);
    AppendNew([ns[0]], ns[1..]);
    assert [ns[0]] + ns[1..] == ns;
    assert CheckFrom(ns, false) == CheckFrom(ns[1..], true);
    assert CheckFrom(ns[1..], true) == CheckFrom(ns[2..], true);
    assert CheckFrom(ns[2..], true) == CheckFrom(ns[3..], true);
    assert CheckFrom(ns[3..], true) == CheckFrom(ns[4..], true);
    assert CheckFrom(ns[4..], true) == CheckFrom(ns[5..], true);
  }
}
