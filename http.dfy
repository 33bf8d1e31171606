/** The httpx response model of the runtime models: `_derive_scheme` and
    `HttpResponse.from_httpx_json`, which maps one httpx JSON document to
    the response record, and the record's `to_payload`.

    As written, the `HttpResponse` class statement raises `TypeError`
    (`Dataclasses.RuntimeHttpResponseRejected`), so the module cannot be
    imported. This module models the class with `event_type` declared as
    the packaged models declare theirs, which builds
    (`Dataclasses.CorrectedHttpResponseAccepted`); its fields and
    `from_httpx_json` are as written. */
module Http {
  import opened Common
  import opened Text
  import opened Jsons
  import opened Io

  // ----- the scheme `urlsplit` finds -----

  predicate IsAsciiAlpha(c: char)
  {
    ('a' <= c <= 'z') || ('A' <= c <= 'Z')
  }

  /** The characters `urllib.parse.scheme_chars` lists. */
  predicate IsSchemeChar(c: char)
  {
    IsAsciiAlpha(c) || ('0' <= c <= '9') || c == '+' || c == '-' || c == '.'
  }

  /** `url.lstrip(_WHATWG_C0_CONTROL_OR_SPACE)`: leading characters up to
      and including the space go. */
  function LStripControl(s: string): (r: string)
    ensures |r| <= |s| && r == s[|s| - |r|..]
    ensures r == [] || r[0] > ' '
  {
    if s != [] && s[0] <= ' ' then LStripControl(s[1..]) else s
  }

  /** What Python 3.11 accepts as a scheme: an ASCII letter, then scheme
      characters. */
  predicate ValidScheme(s: string)
  {
    s != [] && IsAsciiAlpha(s[0]) && forall k :: 0 <= k < |s| ==> IsSchemeChar(s[k])
  }

  /** The URL `urlsplit` looks at: leading controls stripped, every tab and
      line break removed. */
  function Cleaned(url: string): string
  {
    RemoveChars(LStripControl(url), {'\t', '\r', '\n'})
  }

  /** The text before the first ':' when it is a valid scheme, lower-cased;
      otherwise "". */
  function SchemeOfCleaned(u: string): (r: string)
    ensures ':' !in r
    ensures r != [] ==> IsAsciiAlpha(r[0])
  {
    var i := IndexOf(u, ':');
    if i < |u| && ValidScheme(u[..i]) then
      SchemeCharKept(u[0]);
      Lower(u[..i])
    else ""
  }

  /** The `scheme` of `urlsplit(url)` as Python 3.11 computes it. */
  function UrlScheme(url: string): (r: string)
    ensures ':' !in r
    ensures r != [] ==> IsAsciiAlpha(r[0])
  {
    SchemeOfCleaned(Cleaned(url))
  }

  /** A URL that starts with a well-formed scheme and ':' has that scheme,
      lower-cased, whatever follows. */
  lemma UrlSchemeOf(scheme: string, rest: string)
    requires ValidScheme(scheme)
    ensures UrlScheme(scheme + ":" + rest) == Lower(scheme)
    ensures AfterScheme(Cleaned(scheme + ":" + rest)) == RemoveChars(rest, {'\t', '\r', '\n'})
  {
    var head := scheme + ":";
    var url := head + rest;
    assert url[0] == scheme[0];
    assert LStripControl(url) == url;
    SchemeHeadKept(scheme);
    RemoveCharsConcat(head, rest, {'\t', '\r', '\n'});
    var r := RemoveChars(rest, {'\t', '\r', '\n'});
    assert Cleaned(url) == head + r;
    SchemeHeadIndex(scheme);
    IndexOfConcat(head, r, ':');
    assert (head + r)[..|scheme|] == scheme;
    assert (head + r)[|scheme| + 1..] == r;
  }

  /** Scheme characters and ':' are none of the characters `urlsplit`
      removes. */
  lemma SchemeHeadKept(scheme: string)
    requires forall k :: 0 <= k < |scheme| ==> IsSchemeChar(scheme[k])
    ensures RemoveChars(scheme + ":", {'\t', '\r', '\n'}) == scheme + ":"
  {
    SchemeKept(scheme);
    ColonKept();
    RemoveCharsConcat(scheme, ":", {'\t', '\r', '\n'});
  }

  lemma SchemeKept(scheme: string)
    requires forall k :: 0 <= k < |scheme| ==> IsSchemeChar(scheme[k])
    ensures RemoveChars(scheme, {'\t', '\r', '\n'}) == scheme
  {
    forall k | 0 <= k < |scheme| ensures scheme[k] !in {'\t', '\r', '\n'} {
      SchemeCharKept(scheme[k]);
    }
  }

  lemma ColonKept()
    ensures RemoveChars(":", {'\t', '\r', '\n'}) == ":"
  {
    assert ":"[1..] == [];
  }

  lemma SchemeCharKept(c: char)
    requires IsSchemeChar(c)
    ensures c !in {'\t', '\r', '\n'} && c != ':'
  {
  }

  /** The first ':' of a scheme followed by ':' is the one after it. */
  lemma SchemeHeadIndex(scheme: string)
    requires forall k :: 0 <= k < |scheme| ==> IsSchemeChar(scheme[k])
    ensures IndexOf(scheme + ":", ':') == |scheme|
  {
    IndexOfConcat(scheme, ":", ':');
  }

  lemma {:induction false} RemoveCharsConcat(a: string, b: string, drop: set<char>)
    ensures RemoveChars(a + b, drop) == RemoveChars(a, drop) + RemoveChars(b, drop)
  {
    if a == [] {
      assert a + b == b;
    } else {
      assert (a + b)[0] == a[0] && (a + b)[1..] == a[1..] + b;
      RemoveCharsConcat(a[1..], b, drop);
    }
  }

  /** Without a ':' there is no scheme. */
  lemma NoColonNoScheme(url: string)
    requires ':' !in url
    ensures UrlScheme(url) == ""
  {
    var s := LStripControl(url);
    forall k | 0 <= k < |s| ensures s[k] != ':' {
      assert s[k] == url[|url| - |s| + k];
    }
    var u := RemoveChars(s, {'\t', '\r', '\n'});
    RemoveCharsSubset(s, {'\t', '\r', '\n'});
    assert u == Cleaned(url) && ':' !in u;
    assert IndexOf(u, ':') == |u|;
  }

  lemma {:induction false} RemoveCharsSubset(s: string, drop: set<char>)
    ensures forall c :: c in RemoveChars(s, drop) ==> c in s
  {
    if s != [] {
      RemoveCharsSubset(s[1..], drop);
      assert RemoveChars(s, drop) == (if s[0] in drop then [] else [s[0]]) + RemoveChars(s[1..], drop);
    }
  }

  // ----- the network location `urlsplit` checks -----

  /** What `urlsplit` reads after a valid scheme and its ':', or all of
      `u` when there is none. */
  function AfterScheme(u: string): (r: string)
    ensures |r| <= |u|
  {
    var i := IndexOf(u, ':');
    if i < |u| && ValidScheme(u[..i]) then u[i + 1..] else u
  }

  /** The network location `urlsplit` splits off: what follows a leading
      `//` up to the first `/`, `?` or `#`; none without the `//`. */
  function Netloc(rest: string): (r: Option<string>)
    ensures r.Some? <==> |rest| >= 2 && rest[..2] == "//"
    ensures r.Some? ==> r.value <= rest[2..] && forall c :: c in r.value ==> c != '/' && c != '?' && c != '#'
  {
    if |rest| >= 2 && rest[..2] == "//" then
      var t := rest[2..];
      var n := t[..FindAny(t, {'/', '?', '#'})];
      assert forall k :: 0 <= k < |n| ==> n[k] == t[k];
      Some(n)
    else None
  }

  /** `urlsplit(url)` raises `ValueError("Invalid IPv6 URL")`: its
      network location holds a `[` without a `]`, or a `]` without a `[`. */
  predicate InvalidIpv6(url: string)
  {
    var n := Netloc(AfterScheme(Cleaned(url)));
    n.Some? && (('[' in n.value) != (']' in n.value))
  }

  /** `_derive_scheme(url, fallback)`: the URL's scheme, lower-cased,
      else the fallback, lower-cased when it is a non-empty string; the
      `ValueError` of `urlparse` for a non-empty URL it cannot split. */
  function DeriveScheme(url: string, fallback: Json): (r: Result<Json>)
    ensures r.Err? <==> url != "" && InvalidIpv6(url)
    ensures r.Ok? && url != "" && UrlScheme(url) != "" ==> r.value == Str(Lower(UrlScheme(url)))
    ensures r.Ok? && (url == "" || UrlScheme(url) == "") && fallback.Str? && fallback.s != "" ==> r.value == Str(Lower(fallback.s))
    ensures r.Ok? && (url == "" || UrlScheme(url) == "") && !(fallback.Str? && fallback.s != "") ==> r.value == fallback
  {
    if url != "" && InvalidIpv6(url) then Err("Invalid IPv6 URL")
    else if url != "" && UrlScheme(url) != "" then Ok(Str(Lower(UrlScheme(url))))
    else if fallback.Str? && fallback.s != "" then Ok(Str(Lower(fallback.s)))
    else Ok(fallback)
  }

  // ----- the response record -----

  datatype HttpResponse = HttpResponse(
    url: string, host: Json, ip: Json, port: Json, scheme: Json, verb: string,
    statusCode: Json, title: Json, contentType: Json, contentLength: Json, webserver: Json,
    responseTime: Json, words: Json, lines: Json,
    bodyHash: Option<string>, headersHash: Option<string>, faviconHash: Option<string>,
    headers: Json, target: Json, raw: Json)

  const HttpResponseType := "http.response"

  /** `str(v) if v is not None else None`. */
  function StrUnlessNone(v: Json): (r: Option<string>)
    ensures r.None? <==> v == Null
    ensures v.Str? ==> r == Some(v.s)
  {
    if v == Null then None else Some(PyStr(v))
  }

  /** `doc.get("final_url") or doc.get("url") or doc.get("input") or ""`. */
  function FinalUrl(f: Fields): (r: Json)
    ensures Truthy(GetJ(f, "final_url")) ==> r == GetJ(f, "final_url")
    ensures !Truthy(GetJ(f, "final_url")) && Truthy(GetJ(f, "url")) ==> r == GetJ(f, "url")
    ensures !Truthy(GetJ(f, "final_url")) && !Truthy(GetJ(f, "url")) && Truthy(GetJ(f, "input")) ==> r == GetJ(f, "input")
    ensures !Truthy(GetJ(f, "final_url")) && !Truthy(GetJ(f, "url")) && !Truthy(GetJ(f, "input")) ==> r == Str("")
  {
    Or(Or(Or(GetJ(f, "final_url"), GetJ(f, "url")), GetJ(f, "input")), Str(""))
  }

  /** Why `from_httpx_json` raises, if it does: `doc.get` on a non-object,
      `.get` on a truthy non-object `hash`, `urlparse` of a truthy
      non-string URL or of one with an unbalanced bracket in its network
      location, or `.upper()` on a truthy non-string method. */
  predicate Rejected(doc: Json)
  {
    !doc.Obj?
    || !Or(GetJ(doc.fields, "hash"), Obj([])).Obj?
    || !FinalUrl(doc.fields).Str?
    || (FinalUrl(doc.fields).s != "" && InvalidIpv6(FinalUrl(doc.fields).s))
    || !Or(GetJ(doc.fields, "method"), Str("GET")).Str?
  }

  /** `HttpResponse.from_httpx_json(doc)`; `response_time` is kept as the
      document gives it. */
  function FromHttpxJson(doc: Json): (r: Result<HttpResponse>)
    ensures r.Err? <==> Rejected(doc)
    ensures r.Ok? ==> r.value.raw == doc && r.value.target == GetJ(doc.fields, "input")
    ensures r.Ok? ==> Str(r.value.url) == FinalUrl(doc.fields)
  {
    if !doc.Obj? then Err("doc has no attribute 'get'")
    else
      var f := doc.fields;
      var hashInfo := Or(GetJ(f, "hash"), Obj([]));
      if !hashInfo.Obj? then Err("hash has no attribute 'get'")
      else
        var finalUrl := FinalUrl(f);
        if !finalUrl.Str? then Err("urlparse expects a string")
        else
          var scheme := DeriveScheme(finalUrl.s, GetJ(f, "scheme"));
          if scheme.Err? then Err(scheme.error)
          else
            var methodName := Or(GetJ(f, "method"), Str("GET"));
            if !methodName.Str? then Err("method has no attribute 'upper'")
            else
              Ok(HttpResponse(
                url := finalUrl.s,
                host := GetJ(f, "host"),
                ip := GetJ(f, "ip"),
                port := GetJ(f, "port"),
                scheme := Or(scheme.value, Str("http")),
                verb := Upper(methodName.s),
                statusCode := GetJ(f, "status_code"),
                title := GetJ(f, "title"),
                contentType := GetJ(f, "content_type"),
                contentLength := GetJ(f, "content_length"),
                webserver := GetJ(f, "webserver"),
                responseTime := Or(GetJ(f, "response_time"), GetJ(f, "time")),
                words := GetJ(f, "words"),
                lines := GetJ(f, "lines"),
                bodyHash := StrUnlessNone(GetJ(hashInfo.fields, "body_mmh3")),
                headersHash := StrUnlessNone(GetJ(hashInfo.fields, "header_mmh3")),
                faviconHash := StrUnlessNone(GetJ(f, "favicon")),
                headers := Or(Or(GetJ(f, "response_headers"), GetJ(f, "header")), Obj([])),
                target := GetJ(f, "input"),
                raw := doc))
  }

  /** An `http` URL whose host opens a bracket it never closes is one
      `urlparse` refuses, so the document is rejected. */
  lemma UnclosedBracketRejected(doc: Json, host: string)
    requires doc.Obj? && FinalUrl(doc.fields) == Str("http://[" + host)
    requires ']' !in host
    ensures Rejected(doc) && FromHttpxJson(doc).Err?
  {
    UnclosedBracketInvalid(host);
  }

  lemma UnclosedBracketInvalid(host: string)
    requires ']' !in host
    ensures InvalidIpv6("http://[" + host)
  {
    var h := UnclosedBracketSplit(host);
    assert "http://[" + host == "http:" + ("//[" + host);
    UnclosedBracketNetloc(h);
  }

  /** What `urlsplit` reads after `http:` in such a URL. */
  lemma UnclosedBracketSplit(host: string) returns (h: string)
    requires ']' !in host
    ensures ']' !in h && AfterScheme(Cleaned("http:" + ("//[" + host))) == "//[" + h
  {
    var drop := {'\t', '\r', '\n'};
    HttpAfterScheme("//[" + host);
    RemoveCharsConcat("//[", host, drop);
    BracketHeadKept();
    h := RemoveChars(host, drop);
    RemoveCharsSubset(host, drop);
  }

  lemma HttpAfterScheme(rest: string)
    ensures AfterScheme(Cleaned("http:" + rest)) == RemoveChars(rest, {'\t', '\r', '\n'})
  {
    assert "http:" + rest == "http" + ":" + rest;
    assert ValidScheme("http");
    UrlSchemeOf("http", rest);
  }

  lemma BracketHeadKept()
    ensures RemoveChars("//[", {'\t', '\r', '\n'}) == "//["
  {
    assert "//["[1..] == "/[" && "/["[1..] == "[" && "["[1..] == [];
  }

  /** The network location of `//[` and a text without `]` has the `[`
      and no `]`. */
  lemma UnclosedBracketNetloc(h: string)
    requires ']' !in h
    ensures var n := Netloc("//[" + h); n.Some? && '[' in n.value && ']' !in n.value
  {
    var rest := "//[" + h;
    assert rest[..2] == "//" && rest[2..] == "[" + h;
    var n := Netloc(rest).value;
    assert FindAny("[" + h, {'/', '?', '#'}) >= 1;
    assert n[0] == '[';
    forall k | 0 <= k < |n| ensures n[k] != ']' {
      assert n[k] == ("[" + h)[k];
      if k > 0 { assert n[k] == h[k - 1] && h[k - 1] in h; }
    }
  }

  /** The scheme and the method of an accepted document, field by field. */
  lemma ResponseSchemeAndVerb(doc: Json)
    requires FromHttpxJson(doc).Ok?
    ensures DeriveScheme(FinalUrl(doc.fields).s, GetJ(doc.fields, "scheme")).Ok?
    ensures FromHttpxJson(doc).value.scheme ==
              Or(DeriveScheme(FinalUrl(doc.fields).s, GetJ(doc.fields, "scheme")).value, Str("http"))
    ensures FromHttpxJson(doc).value.verb == Upper(Or(GetJ(doc.fields, "method"), Str("GET")).s)
  {
  }

  /** Lower-casing twice is lower-casing once. */
  lemma LowerIdempotent(s: string)
    ensures Lower(Lower(s)) == Lower(s)
  {
    assert forall k :: 0 <= k < |s| ==> LowerChar(LowerChar(s[k])) == LowerChar(s[k]);
  }

  /** A final URL that carries its scheme decides the scheme, whatever the
      document's own `scheme` says. */
  lemma SchemeFromUrl(doc: Json, scheme: string, rest: string)
    requires FromHttpxJson(doc).Ok?
    requires FinalUrl(doc.fields) == Str(scheme + ":" + rest)
    requires ValidScheme(scheme)
    ensures FromHttpxJson(doc).value.scheme == Str(Lower(scheme))
  {
    ResponseSchemeAndVerb(doc);
    UrlSchemeOf(scheme, rest);
    LowerIdempotent(scheme);
    assert Lower(scheme) != "";
  }

  /** A final URL without a scheme leaves the choice to the document's
      `scheme`, lower-cased, and to "http" when that is missing or empty. */
  lemma SchemeFallback(doc: Json)
    requires FromHttpxJson(doc).Ok?
    requires ':' !in FinalUrl(doc.fields).s
    ensures var given := GetJ(doc.fields, "scheme");
            && (given.Str? && given.s != "" ==> FromHttpxJson(doc).value.scheme == Str(Lower(given.s)))
            && (!Truthy(given) ==> FromHttpxJson(doc).value.scheme == Str("http"))
  {
    ResponseSchemeAndVerb(doc);
    DeriveFallback(FinalUrl(doc.fields).s, GetJ(doc.fields, "scheme"));
  }

  lemma DeriveFallback(url: string, given: Json)
    requires ':' !in url && DeriveScheme(url, given).Ok?
    ensures given.Str? && given.s != "" ==> DeriveScheme(url, given).value == Str(Lower(given.s))
    ensures !(given.Str? && given.s != "") ==> DeriveScheme(url, given).value == given
  {
    NoColonNoScheme(url);
  }

  /** The method is the document's, upper-cased, and "GET" when missing or
      empty; either way no lower-case ASCII letter is left. */
  lemma MethodUpper(doc: Json)
    requires FromHttpxJson(doc).Ok?
    ensures var m := FromHttpxJson(doc).value.verb;
            && (forall k :: 0 <= k < |m| ==> !('a' <= m[k] <= 'z'))
            && (!Truthy(GetJ(doc.fields, "method")) ==> m == "GET")
            && (Truthy(GetJ(doc.fields, "method")) ==> m == Upper(GetJ(doc.fields, "method").s))
  {
    ResponseSchemeAndVerb(doc);
    var m := FromHttpxJson(doc).value.verb;
    forall k | 0 <= k < |m| ensures !('a' <= m[k] <= 'z') {
      UpperCharNotLower(Or(GetJ(doc.fields, "method"), Str("GET")).s[k]);
    }
    if !Truthy(GetJ(doc.fields, "method")) {
      assert Upper("GET") == "GET";
    }
  }

  lemma UpperCharNotLower(c: char)
    ensures !('a' <= UpperChar(c) <= 'z')
  {
  }

  /** Hashes are `str` of the value when present and `None` when absent or
      null; a missing `hash` object leaves the two hashes `None`. */
  lemma HashFields(doc: Json)
    requires FromHttpxJson(doc).Ok?
    ensures var h := Or(GetJ(doc.fields, "hash"), Obj([]));
            && FromHttpxJson(doc).value.bodyHash == StrUnlessNone(GetJ(h.fields, "body_mmh3"))
            && FromHttpxJson(doc).value.headersHash == StrUnlessNone(GetJ(h.fields, "header_mmh3"))
            && FromHttpxJson(doc).value.faviconHash == StrUnlessNone(GetJ(doc.fields, "favicon"))
    ensures !Truthy(GetJ(doc.fields, "hash")) ==>
              FromHttpxJson(doc).value.bodyHash.None? && FromHttpxJson(doc).value.headersHash.None?
  {
  }

  /** Headers come from `response_headers`, else `header`, else `{}`. */
  lemma HeadersFallback(doc: Json)
    requires FromHttpxJson(doc).Ok?
    ensures var rh := GetJ(doc.fields, "response_headers");
            var hd := GetJ(doc.fields, "header");
            FromHttpxJson(doc).value.headers == (if Truthy(rh) then rh else if Truthy(hd) then hd else Obj([]))
  {
  }

  function OptStr(s: Option<string>): Json
  {
    if s.Some? then Str(s.value) else Null
  }

  /** `to_payload()`: every field but `event_type`, in declaration order. */
  function ResponsePayload(h: HttpResponse): (r: Fields)
    ensures Keys(r) == ResponseKeys
  {
    Pairs(ResponseKeys,
      [Str(h.url), h.host, h.ip, h.port, h.scheme, Str(h.verb), h.statusCode, h.title,
       h.contentType, h.contentLength, h.webserver, h.responseTime, h.words, h.lines,
       OptStr(h.bodyHash), OptStr(h.headersHash), OptStr(h.faviconHash),
       h.headers, h.target, h.raw])
  }

  /** The field names of `HttpResponse` after `event_type`, in declaration order. */
  const ResponseKeys: seq<string> :=
    ["url", "host", "ip", "port", "scheme", "method", "status_code", "title",
     "content_type", "content_length", "webserver", "response_time", "words",
     "lines", "body_mmh3_hash", "headers_mmh3_hash", "favicon_mmh3_hash",
     "headers", "target", "raw"]
}
