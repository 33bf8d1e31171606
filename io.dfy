/** The transport helpers of the packaged runtime (and their twins in the
    legacy single file): recognising `file://` URLs, turning one into a
    local path, reading a file in chunks, writing the chunks of a download,
    copying a file to a `file://` destination, and fire-and-forget posts.

    The network and the disk are not modelled as such: a remote download is
    the sequence of chunks the HTTP client yields, a local file is a byte
    sequence, and a post is recorded in an `Outbox` rather than sent. */
module Io {
  import opened Common
  import opened Text
  import opened Jsons

  /** `is_file_url(url)` and the legacy `_is_file_url(url)`. */
  function IsFileUrl(url: Option<string>): (r: bool)
    ensures r <==> url.Some? && |url.value| >= 7 && url.value[..7] == "file://"
    ensures r ==> url.value != ""
  {
    url.Some? && url.value != "" && StartsWith(url.value, "file://")
  }

  // ----- urlparse, for file URLs -----

  /** Position of the first character of `s` that is in `stops`, or `|s|`. */
  function FindAny(s: string, stops: set<char>): (i: nat)
    ensures i <= |s|
    ensures i < |s| ==> s[i] in stops
    ensures forall k :: 0 <= k < i ==> s[k] !in stops
  {
    if s == [] then 0 else if s[0] in stops then 0 else 1 + FindAny(s[1..], stops)
  }

  /** `s` with every character of `drop` removed. */
  function RemoveChars(s: string, drop: set<char>): (r: string)
    ensures forall k :: 0 <= k < |r| ==> r[k] !in drop
    ensures (forall k :: 0 <= k < |s| ==> s[k] !in drop) ==> r == s
  {
    if s == [] then []
    else (if s[0] in drop then [] else [s[0]]) + RemoveChars(s[1..], drop)
  }

  /** The network location and path that `urlparse` finds in a URL. */
  datatype UrlParts = UrlParts(netloc: string, path: string)

  /** `urlparse(url)` for a URL that starts with `file://`: tabs and line
      breaks are removed first; the network location runs from after `//`
      to the first `/`, `?` or `#`, and the path from there to the first
      `?` or `#`. The `file` scheme takes no `;params`. */
  function SplitFileUrl(url: string): (r: UrlParts)
    requires IsFileUrl(Some(url))
    ensures '/' !in r.netloc && '?' !in r.netloc && '#' !in r.netloc
    ensures '?' !in r.path && '#' !in r.path
    ensures r.path == [] || r.path[0] == '/'
  {
    var u := RemoveChars(url, {'\t', '\r', '\n'});
    assert u[..7] == "file://" by {
      assert forall k :: 0 <= k < 7 ==> url[k] !in {'\t', '\r', '\n'};
      RemoveCharsKeepsPrefix(url, {'\t', '\r', '\n'}, 7);
    }
    var after := u[7..];
    var n := FindAny(after, {'/', '?', '#'});
    var rest := after[n..];
    var p := FindAny(rest, {'?', '#'});
    UrlParts(after[..n], rest[..p])
  }

  lemma {:induction false} RemoveCharsKeepsPrefix(s: string, drop: set<char>, n: nat)
    requires n <= |s|
    requires forall k :: 0 <= k < n ==> s[k] !in drop
    ensures |RemoveChars(s, drop)| >= n && RemoveChars(s, drop)[..n] == s[..n]
  {
    if n > 0 {
      RemoveCharsKeepsPrefix(s[1..], drop, n - 1);
      assert RemoveChars(s, drop) == [s[0]] + RemoveChars(s[1..], drop);
    }
  }

  /** `_file_path_from_url`: the URL's path, with `/` + netloc in front only
      when there is a network location and the path does not start with
      `/`. */
  function FilePathFromParts(parts: UrlParts): (r: string)
    ensures parts.netloc == "" || StartsWith(parts.path, "/") ==> r == parts.path
    ensures parts.netloc != "" && !StartsWith(parts.path, "/") ==> r == "/" + parts.netloc + parts.path
  {
    if parts.netloc != "" && !StartsWith(parts.path, "/") then "/" + parts.netloc + parts.path
    else parts.path
  }

  /** The local path a `file://` URL names (before `pathlib` normalises it). */
  function FilePathFromUrl(url: string): (r: string)
    requires IsFileUrl(Some(url))
    ensures r == [] || r[0] == '/'
  {
    FilePathFromParts(SplitFileUrl(url))
  }

  predicate PlainPath(p: string)
  {
    forall k :: 0 <= k < |p| ==> p[k] !in {'?', '#', '\t', '\r', '\n'}
  }

  /** `file://` followed by an absolute path gives that path back. */
  lemma FileUrlOfPath(p: string)
    requires p != [] && p[0] == '/' && PlainPath(p)
    ensures IsFileUrl(Some("file://" + p))
    ensures FilePathFromUrl("file://" + p) == p
  {
    var url := "file://" + p;
    assert url[..7] == "file://";
    assert RemoveChars(url, {'\t', '\r', '\n'}) == url;
    assert url[7..] == p;
    assert FindAny(p, {'/', '?', '#'}) == 0;
    assert FindAny(p, {'?', '#'}) == |p|;
  }

  /** A host in front of an absolute path is dropped: the path alone is the
      file (`file://localhost/tmp` names `/tmp`). */
  lemma FileUrlWithHost(host: string, p: string)
    requires host != [] && PlainPath(host) && '/' !in host
    requires p != [] && p[0] == '/' && PlainPath(p)
    ensures IsFileUrl(Some("file://" + host + p))
    ensures FilePathFromUrl("file://" + host + p) == p
  {
    HostPathSplit(host, p);
    assert StartsWith(p, "/");
  }

  /** `urlparse` splits such a URL into the host and the path. */
  lemma HostPathSplit(host: string, p: string)
    requires host != [] && PlainPath(host) && '/' !in host
    requires p != [] && p[0] == '/' && PlainPath(p)
    ensures IsFileUrl(Some("file://" + host + p))
    ensures SplitFileUrl("file://" + host + p) == UrlParts(host, p)
  {
    var url := "file://" + host + p;
    assert url[..7] == "file://";
    assert RemoveChars(url, {'\t', '\r', '\n'}) == url;
    var after := url[7..];
    assert after == host + p;
    HostEnds(host, p);
    assert after[|host|..] == p;
    assert FindAny(p, {'?', '#'}) == |p|;
  }

  /** The network location of `host + p` ends where `p` starts. */
  lemma HostEnds(host: string, p: string)
    requires PlainPath(host) && '/' !in host
    requires p != [] && p[0] == '/'
    ensures FindAny(host + p, {'/', '?', '#'}) == |host|
  {
    var after := host + p;
    assert after[|host|] == '/';
    forall k | 0 <= k < |host| ensures after[k] !in {'/', '?', '#'} {
      assert after[k] == host[k];
    }
  }

  /** A host with no path becomes a top-level directory. */
  lemma FileUrlHostOnly(host: string)
    requires host != [] && PlainPath(host) && '/' !in host
    ensures IsFileUrl(Some("file://" + host))
    ensures FilePathFromUrl("file://" + host) == "/" + host
  {
    var url := "file://" + host;
    assert url[..7] == "file://";
    assert RemoveChars(url, {'\t', '\r', '\n'}) == url;
    assert url[7..] == host;
    assert FindAny(host, {'/', '?', '#'}) == |host|;
  }

  // ----- chunked reads -----

  const ChunkSize := 0x10_0000

  /** `handle.read(n)` at position `pos`: a negative size reads to the end,
      otherwise at most `n` bytes. */
  function Read(content: seq<byte>, pos: nat, n: int): (r: seq<byte>)
    requires pos <= |content|
    ensures pos + |r| <= |content| && r == content[pos..pos + |r|]
    ensures n >= 0 ==> |r| == if pos + n <= |content| then n else |content| - pos
    ensures n < 0 ==> |r| == |content| - pos
  {
    if n < 0 || pos + n > |content| then content[pos..] else content[pos..pos + n]
  }

  /** The file branch of `stream_bytes`: read until an empty read. Every
      chunk is non-empty and, for a positive size, at most that long; in
      order they are the file. A size of 0 reads nothing at all. */
  method StreamFile(content: seq<byte>, chunkSize: int) returns (chunks: seq<seq<byte>>)
    ensures forall i :: 0 <= i < |chunks| ==> chunks[i] != []
    ensures chunkSize > 0 ==> forall i :: 0 <= i < |chunks| ==> |chunks[i]| <= chunkSize
    ensures chunkSize != 0 ==> Flatten(chunks) == content
    ensures chunkSize == 0 ==> chunks == []
    ensures chunkSize < 0 ==> chunks == if content == [] then [] else [content]
  {
    chunks := [];
    var pos := 0;
    while true
      invariant pos <= |content|
      invariant Flatten(chunks) == content[..pos]
      invariant forall i :: 0 <= i < |chunks| ==> chunks[i] != []
      invariant chunkSize > 0 ==> forall i :: 0 <= i < |chunks| ==> |chunks[i]| <= chunkSize
      invariant chunkSize == 0 ==> chunks == []
      invariant chunkSize < 0 ==> chunks == if pos == 0 then [] else [content]
      invariant chunkSize < 0 ==> pos == 0 || pos == |content|
      decreases |content| - pos
    {
      var chunk := Read(content, pos, chunkSize);
      if chunk == [] {
        break;
      }
      FlattenAppend(chunks, chunk);
      assert content[..pos] + chunk == content[..pos + |chunk|];
      chunks := chunks + [chunk];
      pos := pos + |chunk|;
    }
    assert pos == |content| || chunkSize == 0;
  }

  /** The remote branch of `stream_bytes`: the chunks the HTTP client gives,
      with the empty ones skipped. */
  method StreamRemote(received: seq<seq<byte>>) returns (chunks: seq<seq<byte>>)
    ensures forall i :: 0 <= i < |chunks| ==> chunks[i] != []
    ensures Flatten(chunks) == Flatten(received)
    ensures |chunks| <= |received|
  {
    chunks := [];
    var i := 0;
    while i < |received|
      invariant i <= |received|
      invariant forall j :: 0 <= j < |chunks| ==> chunks[j] != []
      invariant Flatten(chunks) == Flatten(received[..i])
      invariant |chunks| <= i
    {
      assert received[..i + 1] == received[..i] + [received[i]];
      FlattenAppend(received[..i], received[i]);
      if received[i] != [] {
        FlattenAppend(chunks, received[i]);
        chunks := chunks + [received[i]];
      }
      i := i + 1;
    }
    assert received[..i] == received;
  }

  /** A file opened for writing: its content so far. */
  class LocalFile {
    var data: seq<byte>

    constructor(data: seq<byte>)
      ensures this.data == data
    {
      this.data := data;
    }

    /** `handle.write(chunk)`. */
    method Write(chunk: seq<byte>)
      modifies this
      ensures data == old(data) + chunk
    {
      data := data + chunk;
    }
  }

  /** `download_to_path(url, destination)`: open for writing (which
      truncates), then write each streamed chunk in order. */
  method DownloadToPath(chunks: seq<seq<byte>>, destination: LocalFile)
    modifies destination
    ensures destination.data == Flatten(chunks)
  {
    destination.data := [];
    var i := 0;
    while i < |chunks|
      invariant i <= |chunks|
      invariant destination.data == Flatten(chunks[..i])
    {
      assert chunks[..i + 1] == chunks[..i] + [chunks[i]];
      FlattenAppend(chunks[..i], chunks[i]);
      destination.Write(chunks[i]);
      i := i + 1;
    }
    assert chunks[..i] == chunks;
  }

  /** A local download of a `file://` URL is a faithful copy of the file,
      whatever the chunk size, as long as it is not 0. */
  method DownloadFileUrl(content: seq<byte>, chunkSize: int, destination: LocalFile)
    modifies destination
    ensures chunkSize != 0 ==> destination.data == content
    ensures chunkSize == 0 ==> destination.data == []
  {
    var chunks := StreamFile(content, chunkSize);
    DownloadToPath(chunks, destination);
  }

  /** `PurePosixPath(p).parent`: the path without its last component,
      after empty and `.` components are dropped; `/` is its own parent and
      a relative path with one component has parent `.`. */
  function Parent(p: string): (r: string)
    ensures r != ""
    ensures StartsWith(p, "/") ==> r[0] == '/'
  {
    var up := UpParts(p);
    Spelled(p, up)
  }

  /** The components of `p` without its last one. */
  function UpParts(p: string): seq<string>
  {
    var parts := PathParts(Split(p, '/'));
    if parts == [] then [] else parts[..|parts| - 1]
  }

  /** The path made of these components, absolute when `p` is, `.` for
      none in a relative path. */
  function Spelled(p: string, up: seq<string>): string
  {
    if StartsWith(p, "/") then "/" + Join("/", up)
    else if up == [] then "."
    else Join("/", up)
  }

  /** `p`'s parent and every directory above it: what
      `mkdir(parents=True, exist_ok=True)` on the parent leaves in place
      (for a relative path, `.` among them). */
  function Lineage(p: string): (r: set<string>)
    ensures Parent(p) in r
    ensures forall d :: d in r ==> exists i :: 0 <= i <= |UpParts(p)| && d == Spelled(p, UpParts(p)[..i])
  {
    var up := UpParts(p);
    assert up[..|up|] == up;
    set i | 0 <= i <= |up| :: Spelled(p, up[..i])
  }

  /** The local disk, as far as `upload_file` touches it. */
  class FileSystem {
    var files: map<string, seq<byte>>
    var dirs: set<string>

    constructor(files: map<string, seq<byte>>, dirs: set<string>)
      ensures this.files == files && this.dirs == dirs
    {
      this.files := files;
      this.dirs := dirs;
    }

    /** The `file://` branch of `upload_file(url, source)`: create the
        destination's parent directory and every missing one above it,
        then copy the source byte for byte. A missing source raises before
        anything is written. */
    method UploadToFileUrl(url: string, source: string) returns (r: Result<()>)
      requires IsFileUrl(Some(url))
      modifies this
      ensures source !in old(files) ==> r.Err? && files == old(files)
      ensures source in old(files) ==> r.Ok? && files == old(files)[FilePathFromUrl(url) := old(files)[source]]
      ensures Parent(FilePathFromUrl(url)) in dirs
      ensures dirs == old(dirs) + Lineage(FilePathFromUrl(url))
    {
      var dst := FilePathFromUrl(url);
      dirs := dirs + Lineage(dst);
      if source !in files {
        return Err("No such file or directory: " + source);
      }
      files := files[dst := files[source]];
      return Ok(());
    }
  }

  // ----- fire-and-forget posts -----

  /** A JSON post that was attempted. */
  datatype Post = Post(url: string, payload: Fields)

  /** Every post the process attempted, in order. A failed post is still an
      attempt; nothing about it reaches the caller. */
  class Outbox {
    var posts: seq<Post>

    constructor()
      ensures posts == []
    {
      posts := [];
    }

    /** `post_json(url, payload)` and the legacy `_post`: nothing for a
        missing or empty URL; otherwise one attempt, whose failure is
        swallowed, so the call never raises. */
    method PostJson(url: Option<string>, payload: Fields)
      modifies this
      ensures posts == old(posts) + PostsTo(url, payload)
    {
      posts := posts + PostsTo(url, payload);
    }
  }

  /** The posts one `post_json(url, payload)` call attempts. */
  function PostsTo(url: Option<string>, payload: Fields): (r: seq<Post>)
    ensures |r| <= 1
    ensures r == [] <==> url.None? || url.value == ""
    ensures r != [] ==> r[0].url == url.value && r[0].payload == payload
  {
    if url.Some? && url.value != "" then [Post(url.value, payload)] else []
  }
}
