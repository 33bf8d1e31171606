# A verified model of the batch adapter runtime

The repository is a batch *adapter runtime*. It wraps one scanning tool (masscan, httpx, altdns) or an in-process generator, runs it over a batch of targets, and turns the tool's output into typed events. Each event is written as one compact JSON envelope line into a compressed events file. While the batch runs, the runtime posts `progress@v1` heartbeats to a control plane; at the end it uploads the events file and announces it with `results_ready@v1`.

This project models the deterministic part of that core in Dafny and proves what it promises. Network fetches, uploads, subprocesses, the clock and the heartbeat thread are given as inputs: an oracle value per run, and clock readings as parameters. In the packaged runtime, each wake-up of the heartbeat's worker while `main` runs is a `Wake` call interleaved with the calls `main` makes. Where Python's behaviour differs between releases, the model follows Python 3.11: the wording of the `TypeError` that `dataclasses` raises, and the checks `urlsplit` makes.

Modules, leaves first:

- `Common`, `Text`, `Jsons`, `Base64`: optional values and results, the Python `str` operations the runtime relies on (with Python's own whitespace and line-boundary sets), JSON values with insertion-ordered objects and compact `json.dumps`, and base 64 encoding.
- `Utils`, `Io`: environment lookups and the truthy-flag rule, the timestamp format, `file://` URLs, chunked reads, downloads, file-URL uploads and fire-and-forget posts.
- `Envelope`, `Signals`: the manifest decoded into a `BatchConfig`, resource file names and archive kinds, the checksum gate, the `EventWriter`, the `Heartbeat` class, and the results-ready and error signals of the packaged runtime.
- `Runtime`, `RunLaws`, `Streaming`, `WrapperLaws`: `RuntimeSettings.from_env` and `BaseAdapter.run` of the packaged runtime, `spawn_and_stream` and `WrapperAdapter`. `Runtime.Run` is a method proved to produce the trace that the function `Runtime.Expected` describes. `RunLaws` states what every such trace satisfies: exit codes, the order of the `finally` block, workdir removal, and which signals are sent. `WrapperLaws` runs `WrapperAdapter.main` inside `BaseAdapter.run`: the metrics it assigns and the phase its final heartbeat reports.
- `LegacyRuntime`, `LegacyRun`, `LegacyLaws`: the same for the legacy single-file runtime `tools/runtime/adapter_runtime/base.py`, including where it differs from the packaged one (first heartbeat at once, thread started without a URL, `{1,true,yes}` preserve flag, no `.tar.bz2`, `tool_version` of null becoming `"None"`).
- `Sanitizer`, `Events`, `TypedEvents`, `Dataclasses`, `Dns`, `Http`: the packaged event models (`_json_sanitize`, `to_payload`, `emit_event(emit_fn, model)`, `NetworkService`, `Finding`), the runtime models (`to_event`, `emit_event(event, emit)`), DNS name classification, httpx document mapping, and the dataclass field-order rule those models run into.
- `Workdirs`, `Masscan`, `HttpxPlugin`, `Altdns`, `SubdomainSynth`: the tool plugins. Each models its command line, its output parsing and counting, and (for the synthesiser) the whole stand-alone job.

## Model

| member | source | states |
|---|---|---|
| Utils.EnvStr | tools/adapter_runtime/src/asm_adapter_runtime/utils.py:19-23 | a set variable is returned as it is, even when empty; the default stands in only for an unset one |
| Utils.EnvFlag | tools/adapter_runtime/src/asm_adapter_runtime/utils.py:26-32 | the default for an unset variable; otherwise true exactly when the stripped, lower-cased value is one of `1`, `true`, `yes`, `on` |
| Utils.EnvFlagPadded | tools/adapter_runtime/src/asm_adapter_runtime/utils.py:32 | whitespace around the value never changes the flag |
| Utils.ShouldPreserveWorkdir | tools/adapter_runtime/src/asm_adapter_runtime/utils.py:61-62 | the `ADAPTER_PRESERVE_WORKDIR` flag, false when the variable is unset |
| Utils.Coalesce | tools/adapter_runtime/src/asm_adapter_runtime/utils.py:65-66 | the value when it is given and non-empty, the fallback otherwise; the result is empty only when the fallback is |
| Utils.IsoFormat | tools/adapter_runtime/src/asm_adapter_runtime/utils.py:10-16 | 20 characters: four, two, two, two, two and two digits separated by `-`, `-`, `T`, `:`, `:` and ending in `Z` |
| Utils.IsoFormatFields | tools/adapter_runtime/src/asm_adapter_runtime/utils.py:10-16 | year, month, day, hour, minute and second read back from the text are the ones formatted into it |
| Io.IsFileUrl | tools/adapter_runtime/src/asm_adapter_runtime/io.py:14-15 | true exactly when a URL is given and starts with `file://` |
| Io.SplitFileUrl | tools/adapter_runtime/src/asm_adapter_runtime/io.py:19-20 | the network location holds no `/`, `?` or `#`; the path holds no `?` or `#` and is empty or starts with `/` |
| Io.FilePathFromParts | tools/adapter_runtime/src/asm_adapter_runtime/io.py:21-23 | the parsed path, with `/` and the network location in front exactly when there is a network location and the path does not start with `/` |
| Io.FilePathFromUrl | tools/adapter_runtime/src/asm_adapter_runtime/io.py:18-23 | the path of a `file://` URL is empty or absolute |
| Io.FileUrlOfPath | tools/adapter_runtime/src/asm_adapter_runtime/io.py:18-23 | `file://` followed by an absolute path names that path |
| Io.FileUrlWithHost | tools/adapter_runtime/src/asm_adapter_runtime/io.py:18-23 | a host in front of an absolute path is dropped: the path alone is the file |
| Io.FileUrlHostOnly | tools/adapter_runtime/src/asm_adapter_runtime/io.py:21-22 | a host without a path becomes the top-level directory `/host` |
| Io.Read | tools/adapter_runtime/src/asm_adapter_runtime/io.py:47 | the bytes at the position, `n` of them or what is left, all that is left for a negative size |
| Io.StreamFile | tools/adapter_runtime/src/asm_adapter_runtime/io.py:44-51 | every chunk is non-empty and at most the chunk size; for a non-zero size the chunks concatenate to the file; size 0 yields nothing |
| Io.StreamRemote | tools/adapter_runtime/src/asm_adapter_runtime/io.py:52-56 | the empty chunks are skipped and the rest concatenate to what the server sent |
| Io.LocalFile.Write | tools/adapter_runtime/src/asm_adapter_runtime/io.py:62 | the chunk is appended to the file |
| Io.DownloadToPath | tools/adapter_runtime/src/asm_adapter_runtime/io.py:59-62 | the destination holds exactly the chunks, in order, whatever it held before |
| Io.DownloadFileUrl | tools/adapter_runtime/src/asm_adapter_runtime/io.py:59-62 | downloading a `file://` URL copies the file byte for byte, for any non-zero chunk size |
| Io.Parent | tools/adapter_runtime/src/asm_adapter_runtime/io.py:68 | the parent is never empty, and an absolute path has an absolute parent |
| Io.Lineage | tools/adapter_runtime/src/asm_adapter_runtime/io.py:69 | the directories `mkdir(parents=True)` leaves in place hold the parent, and each is the path cut after some of its leading components |
| Io.FileSystem.UploadToFileUrl | tools/adapter_runtime/src/asm_adapter_runtime/io.py:66-72 | the parent and every directory above it exist afterwards and no other directory is made; a missing source then raises and changes no file; otherwise the destination holds the source's bytes |
| Io.Outbox.PostJson | tools/adapter_runtime/src/asm_adapter_runtime/io.py:78-85 | the posts grow by the one attempt the call makes, if any; the call never raises |
| Io.PostsTo | tools/adapter_runtime/src/asm_adapter_runtime/io.py:78-85 | no post for a missing or empty URL, otherwise one post to that URL with that payload |
| Envelope.ResourceOf | tools/runtime/adapter_runtime/src/asm_adapter_runtime/envelope.py:39-45 | a missing `name` or `url` becomes "", a missing `sha256` or `filename` `None`, a missing `extract` false |
| Envelope.DecodeResources | tools/runtime/adapter_runtime/src/asm_adapter_runtime/envelope.py:37-46 | succeeds exactly when every item is a dict, and then gives one spec per item, in order |
| Envelope.FromManifestDoc | tools/runtime/adapter_runtime/src/asm_adapter_runtime/envelope.py:33-52 | a falsy document gives the empty config and a truthy non-dict raises; `tool` and `tool_version` are `str(value or "")` and `parameters` is the value or `{}` |
| Envelope.ManifestResources | tools/runtime/adapter_runtime/src/asm_adapter_runtime/envelope.py:37-46 | a manifest whose `resources` are all dicts loads, with each spec read from its item |
| Envelope.ManifestDecoded | tools/runtime/adapter_runtime/src/asm_adapter_runtime/envelope.py:37-51 | the config's resources are exactly the decoded items |
| Envelope.ManifestToolNames | tools/runtime/adapter_runtime/src/asm_adapter_runtime/envelope.py:48-49 | a missing `tool` or `tool_version` gives "", a string one is kept as it is |
| Envelope.FileNameFor | tools/runtime/adapter_runtime/src/asm_adapter_runtime/envelope.py:99 | `filename` when truthy, else the URL's last path component before `?` when non-empty; a value of the wrong type raises; a file name is never empty |
| Envelope.UrlFileName | tools/runtime/adapter_runtime/src/asm_adapter_runtime/envelope.py:99 | the name taken from a URL holds no `/` and no `?` |
| Envelope.UrlFileNameOfPlainUrl | tools/runtime/adapter_runtime/src/asm_adapter_runtime/envelope.py:99 | for `dir/file?query` the name is `file` |
| Envelope.ArchiveKind | tools/runtime/adapter_runtime/src/asm_adapter_runtime/envelope.py:83-95 | zip exactly for `.zip`, gzip tar for `.tgz`/`.tar.gz`, bzip2 tar for `.tar.bz2`, plain tar for `.tar`, judged on the lower-cased name |
| Envelope.SuffixesExclusive | tools/runtime/adapter_runtime/src/asm_adapter_runtime/envelope.py:85-93 | the suffixes the branches test cannot hold at once, so the order of the tests does not matter |
| Envelope.LegacyArchiveKind | tools/runtime/adapter_runtime/base.py:188-194 | the legacy runtime never picks a bzip2 tar |
| Envelope.ArchiveKindGenerations | tools/runtime/adapter_runtime/base.py:189-194 | both runtimes unpack every name alike, except `.tar.bz2`, which the legacy one leaves packed |
| Envelope.ChecksumOk | tools/adapter_runtime/src/asm_adapter_runtime/base.py:239-242 | no declared digest always passes; a declared one passes exactly when it equals the file's digest |
| Envelope.PrepareResource | tools/adapter_runtime/src/asm_adapter_runtime/base.py:237-243 | succeeds exactly when the name resolves, the download succeeds, an archive to extract unpacks, and the checksum passes; it extracts only downloaded resources that asked for it |
| Envelope.LegacyPrepareResource | tools/runtime/adapter_runtime/base.py:179-194 | the legacy loop extracts only a file whose checksum passed |
| Envelope.MismatchedArchive | tools/adapter_runtime/src/asm_adapter_runtime/base.py:237-243 | an archive with a wrong checksum is unpacked by the packaged runtime before it raises, and never by the legacy one |
| Envelope.EventEnvelope | tools/runtime/adapter_runtime/src/asm_adapter_runtime/envelope.py:66-71 | the envelope's first keys are `event_type`, `timestamp` and `payload`, in that order |
| Envelope.EnvelopeFields | tools/runtime/adapter_runtime/src/asm_adapter_runtime/envelope.py:66-71 | the envelope holds exactly the three event keys and the context keys, and the context wins on a key it shares with them |
| Envelope.Line | tools/runtime/adapter_runtime/src/asm_adapter_runtime/envelope.py:72 | one line: a newline at the end and none before it |
| Envelope.SerializeAppend | tools/runtime/adapter_runtime/src/asm_adapter_runtime/envelope.py:72-73 | emitting one more envelope appends its line to what was written |
| Envelope.ReadBack | tools/runtime/adapter_runtime/src/asm_adapter_runtime/envelope.py:65-74 | splitting the written text into lines gives back each envelope's JSON, in the order emitted |
| Envelope.EventWriter.Emit | tools/runtime/adapter_runtime/src/asm_adapter_runtime/envelope.py:65-74 | the count grows by one and the envelope of this event is appended, so the content grows by its line |
| Envelope.EventWriter.Close | tools/runtime/adapter_runtime/src/asm_adapter_runtime/envelope.py:76-80 | the writer is closed with its count and envelopes unchanged |
| Signals.IntervalFor | tools/runtime/adapter_runtime/src/asm_adapter_runtime/signals.py:16 | never below 5; 0 becomes 30, values from 5 up are kept, the others become 5 |
| Signals.ProgressPayloadGet | tools/runtime/adapter_runtime/src/asm_adapter_runtime/signals.py:39 | a progress payload answers `at` and `kind` itself, then the metrics, then the base |
| Signals.ResultsReadyPayload | tools/runtime/adapter_runtime/src/asm_adapter_runtime/signals.py:48-53 | `kind` is `results_ready@v1`, every other key keeps the payload's value, and no key is lost |
| Signals.ErrorPayload | tools/runtime/adapter_runtime/src/asm_adapter_runtime/signals.py:64 | `kind` is `progress@v1`, `phase` is `error`, `error` and `at` are the ones given; every other key is the base's |
| Signals.EmitResultsReady | tools/runtime/adapter_runtime/src/asm_adapter_runtime/signals.py:48-53 | posts the results-ready payload to the URL, or nothing without one |
| Signals.EmitError | tools/runtime/adapter_runtime/src/asm_adapter_runtime/signals.py:56-65 | posts the error payload to the URL, or nothing without one |
| Signals.Heartbeat.constructor | tools/runtime/adapter_runtime/src/asm_adapter_runtime/signals.py:13-23 | the interval is normalised, the metrics are `phase=init`, no targets, no documents, and no worker runs |
| Signals.Heartbeat.Start | tools/runtime/adapter_runtime/src/asm_adapter_runtime/signals.py:25-30 | a worker exists afterwards exactly when one existed or there is a URL; the metrics do not change |
| Signals.Heartbeat.Send | tools/runtime/adapter_runtime/src/asm_adapter_runtime/signals.py:36-40 | posts the current progress payload, or nothing without a URL |
| Signals.Heartbeat.Tick | tools/runtime/adapter_runtime/src/asm_adapter_runtime/signals.py:32-34 | a wake-up sends exactly when the worker runs and has not been stopped |
| Signals.Heartbeat.Stop | tools/runtime/adapter_runtime/src/asm_adapter_runtime/signals.py:42-45 | stops the worker and sends one final heartbeat with the metrics as they were, when there is a URL |
| Signals.Heartbeat.SetMetric | tools/adapter_runtime/src/asm_adapter_runtime/base.py:158 | `hb.metrics[k] = v`: the key takes the value in place, or is added at the end |
| Signals.Heartbeat.UpdateMetrics | tools/adapter_runtime/src/asm_adapter_runtime/base.py:153 | `hb.metrics.update(...)`: the metrics become the merge of the old ones and the update |
| Sanitizer.KeepItems | tools/adapter_runtime/src/asm_adapter_runtime/models/base.py:20-24 | keeps exactly the items that are not `None`, `""`, `[]` or `{}` |
| Sanitizer.KeepFields | tools/adapter_runtime/src/asm_adapter_runtime/models/base.py:12-17 | keeps exactly the entries whose value is not `None`, `""`, `[]` or `{}` |
| Sanitizer.Sanitize | tools/adapter_runtime/src/asm_adapter_runtime/models/base.py:7-30 | dicts and dataclasses become objects and sequences lists, never longer than the input; only `None` becomes `null` |
| Sanitizer.KeepItemsAppend | tools/adapter_runtime/src/asm_adapter_runtime/models/base.py:20-24 | the list filter works item by item, in order |
| Sanitizer.GetKeepFields | tools/adapter_runtime/src/asm_adapter_runtime/models/base.py:12-17 | a key keeps its value exactly when that value is not empty |
| Sanitizer.SanitizeClean | tools/adapter_runtime/src/asm_adapter_runtime/models/base.py:7-30 | the result holds no empty value anywhere inside a list or an object |
| Sanitizer.SanitizeCleanIsFixpoint | tools/adapter_runtime/src/asm_adapter_runtime/models/base.py:7-30 | sanitising a clean JSON value gives it back unchanged |
| Sanitizer.SanitizeIdempotent | tools/adapter_runtime/src/asm_adapter_runtime/models/base.py:7-30 | sanitising twice is sanitising once |
| Sanitizer.SanitizeDictGet | tools/adapter_runtime/src/asm_adapter_runtime/models/base.py:11-18 | each key keeps its sanitised value unless that value is empty; `0` and `False` stay |
| Events.EmitLog.Emit | tools/adapter_runtime/src/asm_adapter_runtime/models/base.py:40-41 | the callback records one more call, with that type and payload |
| Events.WithoutEventType | tools/adapter_runtime/src/asm_adapter_runtime/models/base.py:37 | keeps exactly the entries whose key is not `event_type` |
| Events.ToPayloadShape | tools/adapter_runtime/src/asm_adapter_runtime/models/base.py:35-38 | the payload never carries `event_type` and holds no empty value anywhere |
| Events.NoEventType | tools/adapter_runtime/src/asm_adapter_runtime/models/base.py:36-38 | no key of the payload is `event_type` |
| Events.EmitEvent | tools/adapter_runtime/src/asm_adapter_runtime/models/base.py:40-41 | one call to the callback, with the model's type and payload |
| Events.NewRelatedResource | tools/adapter_runtime/src/asm_adapter_runtime/models/base.py:43-56 | kind and id as given; `rel` is `subject` unless given |
| Events.ServicePayload | tools/adapter_runtime/src/asm_adapter_runtime/models/network.py:16-22 | the keys are `ip`, `port`, `protocol`, `banner`, in that order |
| Events.ServicePayloadKeepsEverything | tools/adapter_runtime/src/asm_adapter_runtime/models/network.py:16-22 | each field is there with its value, an absent banner as `null`; nothing is sanitised away and `event_type` is not there |
| Events.FindingPayloadGet | tools/adapter_runtime/src/asm_adapter_runtime/models/finding.py:12-18 | each field of a finding is in the payload exactly when its sanitised value is not empty, and then with that value |
| Events.FindingKeysDistinct | tools/adapter_runtime/src/asm_adapter_runtime/models/finding.py:12-18 | the payload fields of a finding have distinct names |
| Events.FindingPayloadText | tools/adapter_runtime/src/asm_adapter_runtime/models/finding.py:12-18 | an empty title, severity or description and an empty category list are dropped, a non-empty text is kept, and `event_type` is not there |
| Events.FindingTextGet | tools/adapter_runtime/src/asm_adapter_runtime/models/finding.py:13-15 | a text field is in the payload exactly when it is non-empty |
| Events.FromNetworkServicePayload | tools/adapter_runtime/src/asm_adapter_runtime/models/finding.py:21-25 | the payload has one asset, `network.service` with id `ip:port/protocol` and the banner only when non-empty, and no categories |
| Events.SingleAsset | tools/adapter_runtime/src/asm_adapter_runtime/models/finding.py:17 | a single asset with non-empty values appears as it is |
| Events.FromDnsPayload | tools/adapter_runtime/src/asm_adapter_runtime/models/finding.py:28-30 | the payload has one asset, `dns.domain` with the domain's name as id |
| Events.SanitizeSingleton | tools/adapter_runtime/src/asm_adapter_runtime/models/base.py:19-25 | a one-item list keeps its item exactly when the item's sanitised value is not empty |
| Events.AssetSanitized | tools/adapter_runtime/src/asm_adapter_runtime/models/base.py:11-18 | an asset whose values are all non-empty passes the sanitiser unchanged |
| TypedEvents.Asdict | tools/runtime/models/base.py:11-14 | `event_type` comes first, with the model's type |
| TypedEvents.ToPayload | tools/runtime/models/base.py:13-16 | everything but `event_type`, unsanitised |
| TypedEvents.ToPayloadIsOthers | tools/runtime/models/base.py:13-16 | a model's own fields come back exactly |
| TypedEvents.ToEvent | tools/runtime/models/base.py:18-19 | the pair of the model's type and its payload |
| TypedEvents.EmitEvent | tools/runtime/models/base.py:22-29 | a model gives one call with its `to_event` pair; anything else raises `TypeError` and makes no call |
| TypedEvents.DnsEvent | tools/runtime/models/dns.py:21-27 | a domain's event is `dns.domain` with `name`, `root`, `kind`, `parent` |
| TypedEvents.HttpEvent | tools/runtime/models/base.py:18-19 | a response's event is `http.response` with its twenty fields |
| Base64.DigitRoundTrip | tools/adapter_runtime/src/asm_adapter_runtime/models/base.py:26-27 | each base-64 digit decodes back to its value |
| Base64.Encode | tools/adapter_runtime/src/asm_adapter_runtime/models/base.py:26-27 | four characters per started group of three bytes, all from the base-64 alphabet or `=` |
| Base64.SextetsRoundTrip | tools/adapter_runtime/src/asm_adapter_runtime/models/base.py:26-27 | the four sextets of three bytes give the bytes back |
| Base64.QuadRoundTrip | tools/adapter_runtime/src/asm_adapter_runtime/models/base.py:26-27 | the four characters of three bytes decode to those bytes |
| Base64.EncodeWellFormed | tools/adapter_runtime/src/asm_adapter_runtime/models/base.py:26-27 | the encoding is well-formed base 64 |
| Base64.RoundTrip | tools/adapter_runtime/src/asm_adapter_runtime/models/base.py:26-27 | decoding the encoding gives back the bytes |
| Dns.LastTwo | tools/runtime/models/dns.py:13 | the last two labels joined by a dot |
| Dns.LastTwoSuffix | tools/runtime/models/dns.py:18 | the root taken from a name is a suffix of that name |
| Dns.WildcardRoot | tools/runtime/models/dns.py:11-13 | the wildcard's root is a suffix of the host after `*.` |
| Dns.PlainRoot | tools/runtime/models/dns.py:15-19 | apex exactly when there is no parent; a subdomain's parent is its root; the root is a suffix of the name |
| Dns.InferRootKindParent | tools/runtime/models/dns.py:8-19 | the kind is one of `apex`, `subdomain`, `wildcard`; wildcard exactly for a normalised name starting with `*.`; apex exactly when there is no parent; otherwise the parent is the root; the root is a suffix of the normalised name |
| Dns.ApexName | tools/runtime/models/dns.py:15-17 | a two-label name is its own root, kind `apex`, no parent |
| Dns.SubdomainName | tools/runtime/models/dns.py:15-19 | a name with three or more labels has its last two as root and parent, kind `subdomain` |
| Dns.WildcardName | tools/runtime/models/dns.py:10-14 | `*.` and a multi-label host gives the host's last two labels as root and parent, kind `wildcard` |
| Dns.InferWildcard | tools/runtime/models/dns.py:10-14 | a wildcard name's root is taken from the host after `*.`, and is also its parent |
| Dns.WildcardLabel | tools/runtime/models/dns.py:13 | `*.` and a single label gives that label as root and parent |
| Dns.FromName | tools/runtime/models/dns.py:29-34 | the name is lower-cased but not stripped, and root, kind and parent are the classification's; the fallback to `subdomain` never applies |
| Dns.DomainPayload | tools/runtime/models/dns.py:22-26 | the payload keys are `name`, `root`, `kind`, `parent`, in field order |
| Http.UrlScheme | tools/runtime/models/http.py:12-13 | the scheme `urlparse` finds holds no `:` and starts with a letter |
| Http.UrlSchemeOf | tools/runtime/models/http.py:12-14 | a valid scheme before the first `:` is found, lower-cased |
| Http.NoColonNoScheme | tools/runtime/models/http.py:12-13 | a URL without `:` has no scheme |
| Http.AfterScheme | tools/runtime/models/http.py:12 | what `urlsplit` reads after a valid scheme and its `:`, never longer than the URL |
| Http.Netloc | tools/runtime/models/http.py:12 | a network location exactly when the rest starts with `//`: a prefix of what follows it, holding no `/`, `?` or `#` |
| Http.DeriveScheme | tools/runtime/models/http.py:10-15 | raises `ValueError` exactly for a non-empty URL whose network location has one bracket without the other; otherwise the URL's scheme lower-cased when there is one, else a non-empty string fallback lower-cased, else the fallback as it is |
| Http.StrUnlessNone | tools/runtime/models/http.py:77-79 | `None` exactly for `null`; a string stays that string |
| Http.FinalUrl | tools/runtime/models/http.py:58 | the first truthy of `final_url`, `url`, `input`, else "" |
| Http.FromHttpxJson | tools/runtime/models/http.py:44-83 | raises exactly for a non-object document, a truthy non-object `hash`, a non-string final URL, a final URL `urlparse` refuses, or a truthy non-string method; otherwise `raw` is the document, `target` its `input` and `url` the final URL |
| Http.UnclosedBracketRejected | tools/runtime/models/http.py:12 | a final URL `http://[` followed by a host without `]` makes `from_httpx_json` raise |
| Http.ResponseSchemeAndVerb | tools/runtime/models/http.py:60-68 | the scheme is the derived one or `http`, and the method is the given one upper-cased or `GET` |
| Http.SchemeFromUrl | tools/runtime/models/http.py:60 | a final URL with a valid scheme gives that scheme lower-cased |
| Http.SchemeFallback | tools/runtime/models/http.py:15 | without a scheme in the URL, a non-empty `scheme` field is lower-cased, and a falsy one gives `http` |
| Http.DeriveFallback | tools/runtime/models/http.py:15 | for a URL without `:` that parses, a non-empty string fallback is lower-cased and any other fallback is returned as it is |
| Http.MethodUpper | tools/runtime/models/http.py:68 | the method holds no lower-case ASCII letter; `GET` when none is given |
| Http.HashFields | tools/runtime/models/http.py:46-49 | the body and header hashes come from `hash` and the favicon hash from `favicon`, each as `str` or `None`; without `hash` both are `None` |
| Http.HeadersFallback | tools/runtime/models/http.py:80 | `response_headers` when truthy, else `header` when truthy, else `{}` |
| Http.ResponsePayload | tools/runtime/models/http.py:22-41 | the payload keys are the twenty fields after `event_type`, in declaration order |
| Dataclasses.Declare | tools/runtime/models/dns.py:27 | a field declared again keeps its place (the length does not change); a new one goes to the end |
| Dataclasses.DeclareFresh | tools/runtime/models/dns.py:22-26 | a field with a new name is appended |
| Dataclasses.DeclareExisting | tools/runtime/models/dns.py:27 | a field declared again replaces the first one with that name, in place |
| Dataclasses.CheckOrdered | tools/runtime/models/base.py:7-11 | a class builds exactly when no `__init__` field without a default follows one with a default |
| Dataclasses.InheritedDefaultFirst | tools/runtime/models/dns.py:21-27 | a required base field given a default in the subclass stays first, so the subclass's first required field follows a default and the class raises `TypeError` naming it |
| Dataclasses.RequiredAfterDefault | tools/runtime/models/dns.py:21-27 | a required field right after a defaulted one is rejected with its name |
| Dataclasses.LayoutSplit | tools/runtime/models/dns.py:22-27 | the declarations are applied one after the other, in order |
| Dataclasses.RuntimeModelsRejected | tools/runtime/models/dns.py:21-27 | the runtime `DnsDomain` raises `TypeError` naming `name`, and `HttpResponse` naming `url`, when their classes are built |
| Dataclasses.RuntimeDnsDomainRejected | tools/runtime/models/dns.py:21-27 | the runtime `DnsDomain` class statement raises `TypeError` naming `name` |
| Dataclasses.RuntimeHttpResponseRejected | tools/runtime/models/http.py:18-42 | the runtime `HttpResponse` class statement raises `TypeError` naming `url` |
| Dataclasses.CorrectedHttpResponseAccepted | tools/runtime/models/http.py:22-42 | with `event_type` declared `init=False`, the layout is `event_type`, then `url`, then fields that all have defaults, and the class builds |
| Dataclasses.RequiredThenDefaults | tools/runtime/models/base.py:7-11 | a base field redeclared outside `__init__`, one required field and then defaulted fields build, in that order |
| Dataclasses.AppendNew | tools/runtime/models/dns.py:22-26 | fields with fresh, distinct names are appended in order |
| Dataclasses.RedeclareFirst | tools/runtime/models/dns.py:27 | redeclaring the first field replaces it at the front |
| Dataclasses.CorrectedDnsDomainAccepted | tools/runtime/models/dns.py:21-27 | with `event_type` declared `init=False`, the layout is `event_type`, `name`, `root`, `kind`, `parent`, and the class builds |
| Dataclasses.PackagedModelsAccepted | tools/adapter_runtime/src/asm_adapter_runtime/models/finding.py:12-18 | the packaged `Finding` keeps `event_type` first, outside `__init__`, and builds |
| Dataclasses.FindingLayoutAccepted | tools/adapter_runtime/src/asm_adapter_runtime/models/finding.py:12-18 | the packaged `Finding` layout passes the dataclass field-order rule |
| Dataclasses.NetworkServiceAccepted | tools/adapter_runtime/src/asm_adapter_runtime/models/network.py:9-14 | the packaged `NetworkService`, all defaults, builds |
| Streaming.Universal | tools/adapter_runtime/src/asm_adapter_runtime/base.py:99-107 | text mode leaves no `\r`: `\r\n` and a lone `\r` read as `\n` |
| Streaming.UniversalPlain | tools/adapter_runtime/src/asm_adapter_runtime/base.py:105 | text without `\r` reads unchanged |
| Streaming.FileLines | tools/adapter_runtime/src/asm_adapter_runtime/base.py:110 | the lines of a file object: none empty, each ends at its first `\n`, every one but the last ends in `\n`, and together they are the text |
| Streaming.Handed | tools/adapter_runtime/src/asm_adapter_runtime/base.py:111 | each line is handed over with trailing `\n` removed |
| Streaming.TextLines | tools/adapter_runtime/src/asm_adapter_runtime/base.py:110-111 | no handed line holds a `\n` |
| Streaming.HandedLines | tools/adapter_runtime/src/asm_adapter_runtime/base.py:110-111 | the lines handed over are the text cut at each `\n`, without an empty last line |
| Streaming.LastLine | tools/adapter_runtime/src/asm_adapter_runtime/base.py:110-111 | an unterminated last line is handed over as it is |
| Streaming.HandedTerminated | tools/adapter_runtime/src/asm_adapter_runtime/base.py:110-111 | lines printed one per line are handed over exactly, in order |
| Streaming.TextLinesTerminated | tools/adapter_runtime/src/asm_adapter_runtime/base.py:110-111 | cutting lines written one per line gives them back |
| Streaming.LineSink.Take | tools/adapter_runtime/src/asm_adapter_runtime/base.py:111 | the callback receives one more line |
| Streaming.SpawnAndStream | tools/adapter_runtime/src/asm_adapter_runtime/base.py:88-114 | the return value is the process's code; the callback gets every line of the output, in order; the heartbeat's phase becomes `exec` |
| Streaming.StreamLines | tools/adapter_runtime/src/asm_adapter_runtime/base.py:110-111 | the callback gets every raw line with its `\n` stripped, in order |
| Streaming.BuildParameters | tools/adapter_runtime/src/asm_adapter_runtime/base.py:287-288 | the parameters when truthy, `{}` otherwise |
| Streaming.WrapperMetrics | tools/adapter_runtime/src/asm_adapter_runtime/base.py:290-300 | `processed_targets` is the number of targets; when a command ran, `phase` is `exec` and `last_exit_code` its code; every other metric is unchanged |
| Streaming.WrapperMain | tools/adapter_runtime/src/asm_adapter_runtime/base.py:290-300 | the wrapper gets the parameters, the metrics become the wrapper metrics, and the wrapper receives the command's output lines only when a command was built |
| Runtime.EnvText | tools/adapter_runtime/src/asm_adapter_runtime/base.py:58-64 | a variable's value when it is set, `""` otherwise |
| Runtime.EnvNonEmpty | tools/adapter_runtime/src/asm_adapter_runtime/base.py:49-62 | present exactly when the variable is set to a non-empty text, and then that text |
| Runtime.HeartbeatText | tools/adapter_runtime/src/asm_adapter_runtime/base.py:65 | `HEARTBEAT_SECONDS` when set and non-empty, `"30"` otherwise |
| Runtime.FromEnv | tools/adapter_runtime/src/asm_adapter_runtime/base.py:48-67 | settings are built exactly when `INPUTS_URL` is set and non-empty and the heartbeat text parses as an integer; the adapter's own tool name and version win over `TOOL`/`TOOL_VERSION`; an empty image digest reads as none |
| Runtime.DefaultHeartbeat | tools/adapter_runtime/src/asm_adapter_runtime/base.py:65 | the default heartbeat text parses to 30 |
| Runtime.FromEnvMinimal | tools/adapter_runtime/src/asm_adapter_runtime/base.py:48-67 | with only `INPUTS_URL` set, the settings have a 30 second heartbeat, no signal or output URL, no digest, and the workdir is not preserved |
| Runtime.WithDigest | tools/adapter_runtime/src/asm_adapter_runtime/base.py:198-199 | `tool_image_digest` is added at the end exactly when the digest is truthy |
| Runtime.WithDigestOther | tools/adapter_runtime/src/asm_adapter_runtime/base.py:198-199 | adding the digest leaves every other key as it was |
| Runtime.SignalPayload | tools/adapter_runtime/src/asm_adapter_runtime/base.py:190-200 | the signal payload carries the settings' tool and version, and the digest exactly when it is truthy |
| Runtime.EventContext | tools/adapter_runtime/src/asm_adapter_runtime/base.py:202-211 | the event context carries the resolved tool and version, the digest exactly when truthy, and none of the envelope's own keys |
| Runtime.EventsBlob | tools/adapter_runtime/src/asm_adapter_runtime/base.py:264 | the events blob name is the OCS prefix followed by `events.jsonl.gz` |
| Runtime.ResultsPayload | tools/adapter_runtime/src/asm_adapter_runtime/base.py:257-269 | the results payload carries the document count, events blob, events digest, resolved tool, and the image digest exactly when truthy |
| Runtime.LoadTargets | tools/adapter_runtime/src/asm_adapter_runtime/base.py:224-226 | a read failure propagates unchanged; every target is stripped |
| Runtime.LoadTargetsRoundTrip | tools/adapter_runtime/src/asm_adapter_runtime/base.py:224-226 | stripped one-per-line targets are read back exactly |
| Runtime.LoadManifest | tools/adapter_runtime/src/asm_adapter_runtime/base.py:228-235 | no manifest URL, or a failed read, gives the empty batch config; otherwise the config built from the document |
| Runtime.PrepareFrom | tools/adapter_runtime/src/asm_adapter_runtime/base.py:148-149 | preparing succeeds exactly when every resource prepares |
| Runtime.PrepareResources | tools/adapter_runtime/src/asm_adapter_runtime/base.py:148-149 | the loop over the resources stops at the first failure and agrees with `PrepareFrom` |
| Runtime.ChecksumMismatchStops | tools/adapter_runtime/src/asm_adapter_runtime/base.py:239-242 | a downloaded resource whose digest differs from its `sha256` fails the preparation |
| Runtime.FirstForeign | tools/adapter_runtime/src/asm_adapter_runtime/base.py:215-216 | every call before the index passes a model; at the index the call does not |
| Runtime.Admitted | tools/adapter_runtime/src/asm_adapter_runtime/base.py:217-218 | only models whose event type `PRODUCES` admits are kept, never more than were emitted |
| Runtime.Written | tools/adapter_runtime/src/asm_adapter_runtime/base.py:214-220 | one envelope is written per admitted model |
| Runtime.WrittenStep | tools/adapter_runtime/src/asm_adapter_runtime/base.py:217-219 | one more `emit` appends its envelope exactly when the type is admitted |
| Runtime.AdmittedAll | tools/adapter_runtime/src/asm_adapter_runtime/base.py:217 | an empty `PRODUCES` admits every model |
| Runtime.AdmittedNone | tools/adapter_runtime/src/asm_adapter_runtime/base.py:217-218 | a non-empty `PRODUCES` naming none of the emitted types writes nothing |
| Runtime.Metrics | tools/adapter_runtime/src/asm_adapter_runtime/base.py:153 | the metrics hold one `phase`, one `processed_targets` and one `emitted_docs` |
| Runtime.MetricsUpdates | tools/adapter_runtime/src/asm_adapter_runtime/base.py:158-160 | setting one metric changes that metric only |
| Runtime.Driven | tools/adapter_runtime/src/asm_adapter_runtime/base.py:156-159 | the calls `main` gets through before `TypeError`: a prefix of its calls, none of them passing a non-model, cut exactly at the first one that does |
| Runtime.MetricsAfterUnique | tools/adapter_runtime/src/asm_adapter_runtime/base.py:153-160 | whatever `main` and `emit` assign, the metrics keep distinct keys |
| Runtime.MetricsAfterGet | tools/adapter_runtime/src/asm_adapter_runtime/base.py:97-98 | every metric but `emitted_docs` holds the value `main` last assigned to it, or its starting value when `main` assigned none |
| Runtime.EmittedDocsFollow | tools/adapter_runtime/src/asm_adapter_runtime/base.py:217-220 | while `main` leaves `emitted_docs` alone, it equals the number of envelopes written |
| Runtime.WakePostsShape | tools/runtime/adapter_runtime/src/asm_adapter_runtime/signals.py:32-40 | with a signal URL each wake-up of the worker sends one `progress@v1` post to it; without one nothing is sent |
| Runtime.DriveOne | tools/adapter_runtime/src/asm_adapter_runtime/base.py:214-220 | one call of `main`: the writer, the metrics and the posts move from their state after the calls before it to their state after it |
| Runtime.MainEnding | tools/adapter_runtime/src/asm_adapter_runtime/base.py:157-163 | the block completes exactly when no call passed a non-model and `main` returned, and stops with `SystemExit` exactly when no call did and `main` exited |
| Runtime.MainBodyParts | tools/adapter_runtime/src/asm_adapter_runtime/base.py:151-163 | the state `main` leaves is the ending, envelopes, heartbeats and metrics of its calls up to the first non-model, with phase `finalize` only after completing |
| Runtime.DriveMain | tools/adapter_runtime/src/asm_adapter_runtime/base.py:156-159 | `main`'s calls, up to the first that passes no model (which raises `TypeError`), write the admitted envelopes, leave the metrics as `main` and `emit` assigned them, and send one heartbeat per wake-up with the metrics of that moment |
| Runtime.MainBody | tools/adapter_runtime/src/asm_adapter_runtime/base.py:151-163 | once the writer is open, the block completes exactly when every call passes a model and `main` returns; the final phase is then `finalize`, otherwise the phase `main` last set (a wrapper's `exec`) or `main`; `emitted_docs` counts the envelopes unless `main` set it; one heartbeat per wake-up with a signal URL |
| Runtime.BodyOf | tools/adapter_runtime/src/asm_adapter_runtime/base.py:139-169 | completing needs the writer; a failure before the writer leaves the initial metrics and nothing written |
| Runtime.Host.Do | tools/adapter_runtime/src/asm_adapter_runtime/base.py:123-188 | each host action is recorded once, in order |
| Runtime.StartMain | tools/adapter_runtime/src/asm_adapter_runtime/base.py:153-158 | the metrics become phase `main`, the number of targets and no documents |
| Runtime.RunMain | tools/adapter_runtime/src/asm_adapter_runtime/base.py:151-160 | a fresh writer ends holding what `MainBody` says; the metrics, including those `main` assigned, and the heartbeats sent meanwhile are those of `MainBody` |
| Runtime.RunBody | tools/adapter_runtime/src/asm_adapter_runtime/base.py:139-163 | the `try` block ends as `BodyOf` says: how it ended, the metrics including `main`'s own assignments, the heartbeats sent while `main` ran, whether the writer exists and what it holds |
| Runtime.Close | tools/adapter_runtime/src/asm_adapter_runtime/base.py:170-182 | the heartbeat stops with its last progress post, an existing writer is closed, the handler is restored |
| Runtime.StopBeat | tools/adapter_runtime/src/asm_adapter_runtime/base.py:171-174 | stopping the heartbeat sends its final progress post |
| Runtime.ConcludeFailed | tools/adapter_runtime/src/asm_adapter_runtime/base.py:164-188 | a failure exits 1 after an error post and `SystemExit` escapes; either way the writer is closed, the handler restored and the workdir removed unless preserved |
| Runtime.SignalError | tools/adapter_runtime/src/asm_adapter_runtime/base.py:166-167 | only a failure (not `SystemExit`) posts an error |
| Runtime.UploadEvents | tools/adapter_runtime/src/asm_adapter_runtime/base.py:254-255 | the events are uploaded exactly when an output URL is set |
| Runtime.RemoveWorkdirUnlessPreserved | tools/adapter_runtime/src/asm_adapter_runtime/base.py:187-188 | the workdir is removed unless the settings or the environment preserve it |
| Runtime.EmitResults | tools/adapter_runtime/src/asm_adapter_runtime/base.py:257-271 | the results post is sent to the signal URL |
| Runtime.ConcludeDone | tools/adapter_runtime/src/asm_adapter_runtime/base.py:170-188 | after success an upload failure escapes with its error and skips the results post and the workdir removal; otherwise the run exits 0 after the results post |
| Runtime.Conclude | tools/adapter_runtime/src/asm_adapter_runtime/base.py:164-188 | the exit, the host actions and the posts are those of `Finish` |
| Runtime.RunWith | tools/adapter_runtime/src/asm_adapter_runtime/base.py:123-188 | with settings loaded, the workdir is made and the handler installed, then the run ends as `Finish` says |
| Runtime.Run | tools/adapter_runtime/src/asm_adapter_runtime/base.py:116-188 | the run's exit, host actions and posts, heartbeats of `main` first, are the trace `Expected` describes |
| RunLaws.MissingInputsExitsTwo | tools/adapter_runtime/src/asm_adapter_runtime/base.py:117-121 | without `INPUTS_URL` the run returns 2 and does nothing else |
| RunLaws.ExitCodes | tools/adapter_runtime/src/asm_adapter_runtime/base.py:139-188 | the run returns 0 exactly when the block completes and no upload fails, 1 exactly when it fails; `SystemExit` and an upload error escape |
| RunLaws.FinishOutcomes | tools/adapter_runtime/src/asm_adapter_runtime/base.py:162-188 | the same exit codes for any state the `try` block leaves |
| RunLaws.DoneWhen | tools/adapter_runtime/src/asm_adapter_runtime/base.py:139-163 | the block completes exactly when the inputs are read, the manifest loads, every resource prepares, every call passes a model and `main` returns |
| RunLaws.ExpectedLoaded | tools/adapter_runtime/src/asm_adapter_runtime/base.py:118-188 | with settings, the trace is the workdir, the handler, and then `Finish` |
| RunLaws.FinishSteps | tools/adapter_runtime/src/asm_adapter_runtime/base.py:170-188 | the heartbeat always stops first, the handler is always restored, the writer is closed exactly when created, the upload happens only after success with an output URL, and the workdir is removed unless preserved or the upload failed |
| RunLaws.HandlerRestored | tools/adapter_runtime/src/asm_adapter_runtime/base.py:130-182 | the handler is installed after the workdir, the heartbeat then stops, and the handler is restored afterwards; the writer is closed exactly when it was created |
| RunLaws.WorkdirRemoval | tools/adapter_runtime/src/asm_adapter_runtime/base.py:184-188 | the workdir is removed exactly when it is not preserved and no upload failed |
| RunLaws.UploadWhen | tools/adapter_runtime/src/asm_adapter_runtime/base.py:254-255 | the events are uploaded exactly after success with an output URL |
| RunLaws.BodyMetrics | tools/adapter_runtime/src/asm_adapter_runtime/base.py:153-160 | the phase of the final heartbeat is `init` before the writer, `finalize` after completing, otherwise the phase `main` last set or `main`; `emitted_docs` counts the envelopes unless `main` set it; one heartbeat per wake-up when `main` ran with a signal URL |
| RunLaws.BeatsProgress | tools/runtime/adapter_runtime/src/asm_adapter_runtime/signals.py:32-40 | every heartbeat sent while `main` ran is a `progress@v1` post to the signal URL |
| RunLaws.FailureSignals | tools/adapter_runtime/src/asm_adapter_runtime/base.py:164-174 | a failed run with a signal URL posts the heartbeats of `main`, then the error with the exception's text, then the final heartbeat in the phase the run reached; all are `progress@v1` |
| RunLaws.StoppedSignals | tools/adapter_runtime/src/asm_adapter_runtime/base.py:164-174 | on `SystemExit` no error is posted: after the heartbeats of `main` at most the final heartbeat, in the phase `main` last set or `main` |
| RunLaws.ResultsOnlyOnSuccess | tools/adapter_runtime/src/asm_adapter_runtime/base.py:184-185 | a `results_ready` post anywhere among the posts means the run returned 0 |
| RunLaws.UnsuccessfulPostsProgress | tools/adapter_runtime/src/asm_adapter_runtime/base.py:164-182 | when `run` does not return 0, every post after the `try` block is `progress@v1` |
| RunLaws.ResultsAfterBeats | tools/adapter_runtime/src/asm_adapter_runtime/base.py:184-185 | a `results_ready` post after the heartbeats is one of the posts that follow them |
| RunLaws.ResultsOnSuccess | tools/adapter_runtime/src/asm_adapter_runtime/base.py:160-185 | a run that returns 0 with a signal URL posts the heartbeats of `main`, the `finalize` heartbeat, and then `results_ready` with the number of admitted models and the events digest |
| RunLaws.ChecksumMismatchFails | tools/adapter_runtime/src/asm_adapter_runtime/base.py:148-151 | a resource checksum mismatch makes the run exit 1 before the writer exists and without an upload or a results post |
| RunLaws.EarlyFailure | tools/adapter_runtime/src/asm_adapter_runtime/base.py:139-188 | a run whose `try` block fails before the writer exists exits 1 without closing a writer or uploading, and sends only `progress@v1` posts |
| RunLaws.ChecksumMismatchBody | tools/adapter_runtime/src/asm_adapter_runtime/base.py:148-151 | the `try` block of such a batch fails before the writer exists and sends no heartbeat |
| RunLaws.FailedPostsProgress | tools/adapter_runtime/src/asm_adapter_runtime/base.py:164-174 | after a block that did not complete, every post is `progress@v1` |
| WrapperLaws.LastSetAppend | tools/adapter_runtime/src/asm_adapter_runtime/base.py:97-98 | the last assignment among two runs of calls is the second run's, or else the first's |
| WrapperLaws.LastSetUntouched | tools/adapter_runtime/src/asm_adapter_runtime/base.py:97-98 | calls that never assign a metric leave no last value for it |
| WrapperLaws.WrapperLastSet | tools/adapter_runtime/src/asm_adapter_runtime/base.py:290-300 | `WrapperAdapter.main` last sets `processed_targets` to the number of targets, and, when a command was built, `last_exit_code` to its exit code and `phase` to `exec`; nothing else |
| WrapperLaws.WrapperMetricsAgree | tools/adapter_runtime/src/asm_adapter_runtime/base.py:290-300 | every metric but `emitted_docs` ends `main` as the wrapper metrics computed from its targets and command |
| WrapperLaws.WrapperExecPhase | tools/adapter_runtime/src/asm_adapter_runtime/base.py:97-98 | however early `main` is cut short by a non-model, the phase it last set is `exec` when a command was built |
| WrapperLaws.WrapperFailureHeartbeat | tools/adapter_runtime/src/asm_adapter_runtime/base.py:164-174 | a wrapper whose command ran and whose `main` raised ends with the error signal and then a final heartbeat in phase `exec` |
| LegacyRuntime.LegacyResourceOf | tools/runtime/adapter_runtime/base.py:98-101 | every key of a manifest item is read with `.get`: a missing `name`, `url`, `sha256` or `filename` is `None`, a missing `extract` is false |
| LegacyRuntime.ResourceOfGenerations | tools/runtime/adapter_runtime/base.py:98-101 | with `name` and `url` present the legacy and packaged readings agree; without `name` the legacy one gives `None` where the packaged one gives `""` |
| LegacyRuntime.Specs | tools/runtime/adapter_runtime/base.py:97-101 | one resource per manifest item, in order |
| LegacyRuntime.ResourceItems | tools/runtime/adapter_runtime/base.py:97 | no `resources` key reads as no items; a list is taken as it is |
| LegacyRuntime.LegacyFromManifestDoc | tools/runtime/adapter_runtime/base.py:94-105 | a falsy document gives the empty config; a truthy non-object raises; an object succeeds exactly when every resource item is an object, and then `tool` is taken as it is, `tool_version` through `str`, `parameters` defaults to `{}` |
| LegacyRuntime.DecodeManifest | tools/runtime/adapter_runtime/base.py:94-105 | the loop over the resource items agrees with `LegacyFromManifestDoc` |
| LegacyRuntime.LegacyManifestResources | tools/runtime/adapter_runtime/base.py:97-101 | a resources list decodes exactly when every item is an object, one spec per item |
| LegacyRuntime.ResolvedConfig | tools/runtime/adapter_runtime/base.py:172-176 | without a manifest, or when it cannot be read or decoded, the config is the adapter's tool and version; a falsy tool or version falls back to the adapter's |
| LegacyRuntime.NullVersionGenerations | tools/runtime/adapter_runtime/base.py:103 | a manifest `tool_version` of `null` becomes the text `None` in the legacy runtime but `""` in the packaged one |
| LegacyRuntime.LegacyEnvelope | tools/runtime/adapter_runtime/base.py:112-118 | the envelope has the seven fixed keys in order, then `tool_image_digest` only when truthy; `tool`, `tool_version`, `event_type` and `payload` are those given |
| LegacyRuntime.LegacyHeadFields | tools/runtime/adapter_runtime/base.py:113-115 | the fixed part of the envelope has exactly the seven keys |
| LegacyRuntime.LegacyEventWriter.Emit | tools/runtime/adapter_runtime/base.py:112-119 | one envelope is appended as one JSON line and the count goes up by one |
| LegacyRuntime.LegacyEventWriter.Close | tools/runtime/adapter_runtime/base.py:120-122 | the writer is closed; its count and contents are unchanged |
| LegacyRuntime.LegacyInterval | tools/runtime/adapter_runtime/base.py:126 | the interval is `max(5, interval_s)` |
| LegacyRuntime.IntervalGenerations | tools/runtime/adapter_runtime/base.py:126 | a non-zero interval is read the same by both runtimes; 0 gives 5 here and 30 in the packaged runtime |
| LegacyRuntime.LegacyProgressPayloadGet | tools/runtime/adapter_runtime/base.py:135 | a progress payload key comes from `at`, else the metrics, else `kind`, else the base |
| LegacyRuntime.KindGenerations | tools/runtime/adapter_runtime/base.py:135 | a metric named `kind` overrides `progress@v1` here, but not in the packaged runtime |
| LegacyRuntime.LegacyHeartbeat.constructor | tools/runtime/adapter_runtime/base.py:125-128 | the heartbeat starts unstopped with the initial metrics `processed_targets` 0, `emitted_docs` 0, `phase` `start` |
| LegacyRuntime.LegacyHeartbeat.Start | tools/runtime/adapter_runtime/base.py:129-133 | starting adds a worker that posts progress at once unless stopped |
| LegacyRuntime.LegacyHeartbeat.Tick | tools/runtime/adapter_runtime/base.py:131-133 | a tick posts progress exactly when a worker runs and the heartbeat is not stopped |
| LegacyRuntime.LegacyHeartbeat.Stop | tools/runtime/adapter_runtime/base.py:137-138 | stopping always posts one last progress |
| LegacyRuntime.LegacyHeartbeat.SetMetric | tools/runtime/adapter_runtime/base.py:206 | one metric is set; nothing else changes |
| LegacyRuntime.LegacyHeartbeat.UpdateMetrics | tools/runtime/adapter_runtime/base.py:212 | the metrics are merged as `dict.update` does |
| LegacyRun.LegacyFromEnv | tools/runtime/adapter_runtime/base.py:158-162 | a run starts exactly when `INPUTS_URL` is non-empty; the adapter's tool and version win over `TOOL`/`TOOL_VERSION` |
| LegacyRun.Apply | tools/runtime/adapter_runtime/base.py:204-206 | an action writes at most one envelope, keeps what was written, and keeps the metrics' keys unique |
| LegacyRun.Perform | tools/runtime/adapter_runtime/base.py:204-222 | a run of actions only ever adds envelopes |
| LegacyRun.PerformAppend | tools/runtime/adapter_runtime/base.py:215-222 | performing two runs of actions is performing them one after the other |
| LegacyRun.PerformCount | tools/runtime/adapter_runtime/base.py:205-206 | the number of envelopes written is the number of admitted `emit` calls |
| LegacyRun.PerformDropsUndeclared | tools/runtime/adapter_runtime/base.py:205 | with a non-empty `PRODUCES` naming none of the emitted types nothing is written |
| LegacyRun.EmittedDocsInSync | tools/runtime/adapter_runtime/base.py:206 | `emitted_docs` stays equal to the writer's count unless the adapter sets it |
| LegacyRun.ReturnCode | tools/runtime/adapter_runtime/base.py:218 | a `None` return code reads as 0 |
| LegacyRun.WorkOf | tools/runtime/adapter_runtime/base.py:208-225 | the work fails exactly when `build_cmd` raises an `Exception`, the command does not start, or `generate` raises one; it ends in `SystemExit` exactly when `build_cmd`, a line's `parse_tool_output` or `generate` raises it; otherwise it ends with the command's code, or 0 in generate mode |
| LegacyRun.ParsedCount | tools/runtime/adapter_runtime/base.py:215-217 | the lines parsed are all of them, or those up to and including the first whose parse raises `SystemExit` |
| LegacyRun.LinesExitWhen | tools/runtime/adapter_runtime/base.py:215-217 | the line loop ends in `SystemExit` exactly when some line's parse raises it |
| LegacyRun.LegacyPrepareFrom | tools/runtime/adapter_runtime/base.py:179-194 | the resources all prepare exactly when each one does |
| LegacyRun.LegacyPrepareResources | tools/runtime/adapter_runtime/base.py:179-194 | the loop over the resources agrees with `LegacyPrepareFrom` |
| LegacyRun.StartedBody | tools/runtime/adapter_runtime/base.py:197-225 | once the writer exists, the config is kept and the heartbeat ends in phase `finalize` |
| LegacyRun.LegacyBodyOf | tools/runtime/adapter_runtime/base.py:168-225 | a block that fails before the writer exists has written nothing |
| LegacyRun.LegacyErrorPayload | tools/runtime/adapter_runtime/base.py:242-243 | the error post is a `progress@v1` payload of nine keys |
| LegacyRun.LegacyEventsBlob | tools/runtime/adapter_runtime/base.py:235 | the events blob name is the same as in the packaged runtime |
| LegacyRun.LegacyResultsPayload | tools/runtime/adapter_runtime/base.py:232-238 | the results post is `results_ready@v1` with the writer's count and the blob name, and the digest only when truthy |
| LegacyRun.LoadConfig | tools/runtime/adapter_runtime/base.py:172-176 | the config loaded is `ResolvedConfig` |
| LegacyRun.PerformActions | tools/runtime/adapter_runtime/base.py:204-206 | the writer and the metrics end as `Perform` says; the heartbeat's worker and stop state are unchanged |
| LegacyRun.ApplyAction | tools/runtime/adapter_runtime/base.py:204-206 | one action changes the writer and the metrics as `Apply` says |
| LegacyRun.ParseLines | tools/runtime/adapter_runtime/base.py:215-217 | each parsed line's actions are performed even when `parse_tool_output` raises afterwards; an `Exception` is swallowed, and the first `SystemExit` ends the loop and is reported |
| LegacyRun.RunWork | tools/runtime/adapter_runtime/base.py:208-223 | the work ends, writes and sets metrics as `WorkOf` says |
| LegacyRun.WorkAndStop | tools/runtime/adapter_runtime/base.py:208-225 | after the work the writer is closed, then the heartbeat stops with a last progress post in phase `finalize` carrying the work's metrics |
| LegacyRun.RunWriterAndHeartbeat | tools/runtime/adapter_runtime/base.py:197-225 | the heartbeat posts its initial progress and, after the work, its `finalize` progress; the work ends as `WorkOf` says |
| LegacyRun.StartHeartbeat | tools/runtime/adapter_runtime/base.py:200-202 | a fresh heartbeat starts with the initial metrics and posts its first progress |
| LegacyRun.StopHeartbeat | tools/runtime/adapter_runtime/base.py:225 | the phase becomes `finalize` and the heartbeat's last progress post carries it |
| LegacyRun.RunStarted | tools/runtime/adapter_runtime/base.py:197-240 | once the writer exists the run ends as `LegacyFinish` says |
| LegacyRun.LegacyRun | tools/runtime/adapter_runtime/base.py:157-248 | the run's exit, host actions and posts are the trace `LegacyExpected` describes |
| LegacyLaws.LegacyMissingInputs | tools/runtime/adapter_runtime/base.py:162 | without `INPUTS_URL` the run returns 2 and does nothing else |
| LegacyLaws.BodyCases | tools/runtime/adapter_runtime/base.py:168-195 | an inputs failure or a resource failure ends the block before the writer exists with that error; otherwise the work starts |
| LegacyLaws.StartedEnd | tools/runtime/adapter_runtime/base.py:208-225 | once the writer exists, the work decides how the block ends |
| LegacyLaws.LegacyExitCodes | tools/runtime/adapter_runtime/base.py:168-248 | the run never raises an `Exception`: it returns 1 on a failure or a failed upload, otherwise the command's code (`None` as 0) or 0 in generate mode; it raises `SystemExit` exactly when `build_cmd`, a line's parse or `generate` raises it |
| LegacyLaws.LegacySystemExitEscapes | tools/runtime/adapter_runtime/base.py:208-248 | after a `SystemExit` the writer is still closed, the final heartbeat still sent and the workdir still removed unless preserved, but nothing is uploaded and no error or results post is sent |
| LegacyLaws.LegacyGenerateExitsZero | tools/runtime/adapter_runtime/base.py:220-223 | a generate-mode run whose `generate` returns and whose upload succeeds exits 0 |
| LegacyLaws.LegacyChecksumMismatchStops | tools/runtime/adapter_runtime/base.py:186-187 | a resource whose digest does not match fails the preparation |
| LegacyLaws.LegacyChecksumMismatchFails | tools/runtime/adapter_runtime/base.py:186-187 | a checksum mismatch exits 1 with only the workdir's creation and removal and the error post |
| LegacyLaws.LegacyStepFacts | tools/runtime/adapter_runtime/base.py:164-248 | the workdir is made first and removed last unless preserved; the writer is closed exactly when created, before the heartbeat stops; the events go up exactly when the work finished, without an exception or `SystemExit`, and there is an output URL |
| LegacyLaws.PreserveGenerations | tools/runtime/adapter_runtime/base.py:246-247 | whenever the legacy runtime keeps the workdir the packaged one does too |
| LegacyLaws.PreservePaddedOnlyPackaged | tools/runtime/adapter_runtime/base.py:246-247 | a padded `yes` keeps the workdir only in the packaged runtime |
| LegacyLaws.PreserveOnOnlyPackaged | tools/runtime/adapter_runtime/base.py:246-247 | `on` keeps the workdir only in the packaged runtime |
| LegacyLaws.WorkInSync | tools/runtime/adapter_runtime/base.py:204-222 | unless the adapter sets `emitted_docs` itself, it ends equal to the number of envelopes |
| LegacyLaws.LegacyStartedSignals | tools/runtime/adapter_runtime/base.py:200-243 | once the heartbeat runs, the posts are its `start` progress, its `finalize` progress with the document count, then the error or the results post, or nothing more after a `SystemExit` |
| LegacyLaws.LegacyUnstartedSignals | tools/runtime/adapter_runtime/base.py:241-243 | a run that fails before the writer exists sends only the error post |
| Masscan.NormalizePorts | tools/runtime/wrappers/src/asm_tool_wrappers/masscan_wrapper.py:194-201 | `None` stays none; a list gives its non-blank stripped items joined by commas, none when there are none; anything else gives its stripped text, none when blank; a result is always stripped |
| Masscan.JoinedPorts | tools/runtime/wrappers/src/asm_tool_wrappers/masscan_wrapper.py:198-199 | joining stripped parts gives none exactly for no parts, and a stripped text otherwise |
| Masscan.TextPorts | tools/runtime/wrappers/src/asm_tool_wrappers/masscan_wrapper.py:200-201 | none exactly for blank text, otherwise the stripped text |
| Masscan.JoinStripped | tools/runtime/wrappers/src/asm_tool_wrappers/masscan_wrapper.py:199 | joining stripped parts gives a stripped text |
| Masscan.NormalizePortsIdempotent | tools/runtime/wrappers/src/asm_tool_wrappers/masscan_wrapper.py:194-201 | normalising a normalised ports text gives it back |
| Masscan.NormalizePortsSplits | tools/runtime/wrappers/src/asm_tool_wrappers/masscan_wrapper.py:198-199 | splitting the joined ports at commas gives back the non-blank items when none holds a comma |
| Masscan.SplitJoin | tools/runtime/wrappers/src/asm_tool_wrappers/masscan_wrapper.py:199 | joining with a separator no part holds and splitting again gives the parts back |
| Masscan.PortsArg | tools/runtime/wrappers/src/asm_tool_wrappers/masscan_wrapper.py:31 | the `-p` argument is always stripped |
| Masscan.DefaultPortsUsed | tools/runtime/wrappers/src/asm_tool_wrappers/masscan_wrapper.py:31 | without `ports` and `masscan_ports` the ports are `1-1024` |
| Masscan.DefaultRateUsed | tools/runtime/wrappers/src/asm_tool_wrappers/masscan_wrapper.py:32 | without a truthy `rate` or `masscan_rate` the rate is `1000` |
| Masscan.FirstPresent | tools/runtime/wrappers/src/asm_tool_wrappers/masscan_wrapper.py:52-59 | the first shard flag present in the parameters, in the order `shards`, `shard`, `masscan_shards`, `masscan_shard` |
| Masscan.ShardRule | tools/runtime/wrappers/src/asm_tool_wrappers/masscan_wrapper.py:52-59 | only the first shard key present counts: a two-item list under a key ending in `s` gives `--shards a b`, anything else `--shard value` |
| Masscan.NoShardKey | tools/runtime/wrappers/src/asm_tool_wrappers/masscan_wrapper.py:52-53 | without a shard key no shard argument is added |
| Masscan.ExtraArgsOf | tools/runtime/wrappers/src/asm_tool_wrappers/masscan_wrapper.py:68-71 | a list of extra arguments is added item by item; a string is added stripped, unless blank; anything else adds nothing |
| Masscan.ArgvShape | tools/runtime/wrappers/src/asm_tool_wrappers/masscan_wrapper.py:36-71 | every command is `masscan -p PORTS --rate RATE --open -oJ JSONL -iL TARGETS` followed by the options |
| Masscan.TargetFileRoundTrip | tools/runtime/wrappers/src/asm_tool_wrappers/masscan_wrapper.py:26-27 | the target file holds the targets one per line, and reading its lines gives them back |
| Masscan.HitIsService | tools/runtime/wrappers/src/asm_tool_wrappers/masscan_wrapper.py:225-232 | a hit with a string address is the packaged `network.service` event with those fields |
| Masscan.PortNumber | tools/runtime/wrappers/src/asm_tool_wrappers/masscan_wrapper.py:220-222 | a missing port reads as 0; an integer or a numeric string reads as its value |
| Masscan.PortNumberOfText | tools/runtime/wrappers/src/asm_tool_wrappers/masscan_wrapper.py:220 | a port written as text reads back as the same number |
| Masscan.PortHit | tools/runtime/wrappers/src/asm_tool_wrappers/masscan_wrapper.py:217-232 | a port entry is reported exactly when its status is absent or `open` and its port is positive; `proto` defaults to `tcp`; the banner is `service`, else `banner` |
| Masscan.PortStep | tools/runtime/wrappers/src/asm_tool_wrappers/masscan_wrapper.py:216-232 | one port entry adds at most one hit; after an exception nothing changes |
| Masscan.PortsScan | tools/runtime/wrappers/src/asm_tool_wrappers/masscan_wrapper.py:216-232 | every hit of a host carries its address and a positive port, at most one per entry |
| Masscan.PortsScanAppend | tools/runtime/wrappers/src/asm_tool_wrappers/masscan_wrapper.py:216 | the hits of a prefix of the port list come first; an exception ends the loop |
| Masscan.ObjScan | tools/runtime/wrappers/src/asm_tool_wrappers/masscan_wrapper.py:204-215 | text that does not parse, a non-object and an object without a truthy `ip` emit nothing |
| Masscan.Then | tools/runtime/wrappers/src/asm_tool_wrappers/masscan_wrapper.py:98-99 | scanning objects in turn concatenates their hits and stops at the first exception |
| Masscan.Postprocess | tools/runtime/wrappers/src/asm_tool_wrappers/masscan_wrapper.py:79-99 | no results file, or a blank one, emits nothing; every hit has a truthy address and a positive port |
| Masscan.SkippedLine | tools/runtime/wrappers/src/asm_tool_wrappers/masscan_wrapper.py:90-93 | a blank or `#` line emits nothing |
| Masscan.OpenEntry | tools/runtime/wrappers/src/asm_tool_wrappers/masscan_wrapper.py:217-232 | an open entry with a positive port, a protocol and a service is reported with them |
| Masscan.SmokeClosedPort | tools/runtime/wrappers/src/asm_tool_wrappers/masscan_wrapper.py:217-218 | a `closed` port is skipped |
| Masscan.SmokePorts | tools/runtime/wrappers/src/asm_tool_wrappers/masscan_wrapper.py:216-232 | an open and a closed port give the open one's hit only |
| Masscan.HostEntry | tools/runtime/wrappers/src/asm_tool_wrappers/masscan_wrapper.py:212-216 | an object with a truthy `ip` and a `ports` list is scanned port by port |
| Masscan.SmokeExample | tools/runtime/wrappers/src/asm_tool_wrappers/masscan_wrapper.py:79-99 | a results file holding one host with port 80 open emits the `http` service on port 80 over `tcp` |
| Masscan.ServiceSink.Emit | tools/runtime/wrappers/src/asm_tool_wrappers/masscan_wrapper.py:174-175 | each event is collected in order |
| Masscan.EmitPorts | tools/runtime/wrappers/src/asm_tool_wrappers/masscan_wrapper.py:216-232 | the loop emits exactly the hits `PortsScan` gives, in order, and raises when it does |
| Masscan.EmitMasscanObj | tools/runtime/wrappers/src/asm_tool_wrappers/masscan_wrapper.py:204-232 | `_emit_masscan_obj` emits exactly the hits `ObjScan` gives |
| Masscan.MasscanWrapper.constructor | tools/runtime/wrappers/src/asm_tool_wrappers/masscan_wrapper.py:19-20 | no results path is known before `build_cmd` |
| Masscan.MasscanWrapper.BuildCmd | tools/runtime/wrappers/src/asm_tool_wrappers/masscan_wrapper.py:22-73 | no targets gives no command and changes nothing; otherwise the target file is written, the results path remembered, and the command is `Argv` |
| Masscan.MasscanWrapper.Artifacts | tools/runtime/wrappers/src/asm_tool_wrappers/masscan_wrapper.py:101-104 | the results file, as `application/json`, exactly when it exists |
| Masscan.MasscanWrapper.PostprocessFiles | tools/runtime/wrappers/src/asm_tool_wrappers/masscan_wrapper.py:79-99 | the hits emitted are exactly those `Postprocess` gives, and it raises when that does |
| Masscan.CommandLine | tools/runtime/wrappers/src/asm_tool_wrappers/masscan_wrapper.py:36-71 | the command built step by step is `Argv` |
| Masscan.AddShardArgs | tools/runtime/wrappers/src/asm_tool_wrappers/masscan_wrapper.py:52-59 | the shard loop appends `ShardArgs` |
| Masscan.AddAll | tools/runtime/wrappers/src/asm_tool_wrappers/masscan_wrapper.py:68-69 | every extra argument is appended in order |
| Masscan.EmitItems | tools/runtime/wrappers/src/asm_tool_wrappers/masscan_wrapper.py:97-99 | a parsed list's objects emit exactly the hits `ItemsScan` gives |
| Masscan.EmitLines | tools/runtime/wrappers/src/asm_tool_wrappers/masscan_wrapper.py:90-95 | when the text does not parse as a whole, each line emits exactly what `LinesScan` gives |
| Masscan.EmitLine | tools/runtime/wrappers/src/asm_tool_wrappers/masscan_wrapper.py:91-94 | one line of that loop emits what `LinesScan` adds for it: nothing for a blank or comment line, else the services of its object, and raises exactly when it does |
| Masscan.AppendTarget | tools/runtime/wrappers/src/asm_tool_wrappers/masscan_wrapper.py:246-251 | `None` and blank values are skipped; anything else is appended stripped |
| Masscan.AppendAll | tools/runtime/wrappers/src/asm_tool_wrappers/masscan_wrapper.py:239-240 | appending values only extends the collection |
| Masscan.FlattenedStripped | tools/runtime/wrappers/src/asm_tool_wrappers/masscan_wrapper.py:235-243 | every flattened target is stripped |
| Masscan.AppendAllClean | tools/runtime/wrappers/src/asm_tool_wrappers/masscan_wrapper.py:246-251 | clean values are appended as they are |
| Masscan.FlattenedClean | tools/runtime/wrappers/src/asm_tool_wrappers/masscan_wrapper.py:235-243 | clean string targets flatten to themselves |
| Masscan.NestedClean | tools/runtime/wrappers/src/asm_tool_wrappers/masscan_wrapper.py:238-240 | a list of clean targets flattens to its items |
| Masscan.FlattenTargets | tools/runtime/wrappers/src/asm_tool_wrappers/masscan_wrapper.py:235-243 | the loop computes `Flattened` |
| Masscan.RunTargets | tools/runtime/wrappers/src/asm_tool_wrappers/masscan_wrapper.py:134-136 | `run`'s targets are the flattened ones, then `ip` when truthy |
| Masscan.RunTargetsClean | tools/runtime/wrappers/src/asm_tool_wrappers/masscan_wrapper.py:134-136 | clean targets and a clean address are scanned as given, the address last |
| HttpxPlugin.TargetFileText | tools/tools/httpx/httpx_adapter.py:25 | the target file is the targets one per line, each ending in a newline, and empty for no targets |
| HttpxPlugin.TargetFileRoundTrip | tools/tools/httpx/httpx_adapter.py:24-25 | reading the target file's lines gives the targets back |
| HttpxPlugin.Parameters | tools/tools/httpx/httpx_adapter.py:36 | falsy parameters read as `{}`; an object is taken as it is; any other truthy value raises at `.get` |
| HttpxPlugin.ValueArgs | tools/tools/httpx/httpx_adapter.py:43-49 | a flag is added exactly when its parameter is truthy |
| HttpxPlugin.Command | tools/tools/httpx/httpx_adapter.py:23-51 | a command is always built unless the parameters are not a mapping |
| HttpxPlugin.ArgvShape | tools/tools/httpx/httpx_adapter.py:27-51 | every command is `/usr/local/bin/httpx -json -no-color -silent -l TARGETS` followed by the options |
| HttpxPlugin.ArgsListFirst | tools/tools/httpx/httpx_adapter.py:37-39 | a truthy `args` list wins over `extra_args` and is passed item by item |
| HttpxPlugin.ExtraStringVerbatim | tools/tools/httpx/httpx_adapter.py:37-41 | without a truthy `args`, a string `extra_args` is one argument exactly as given, even blank |
| HttpxPlugin.OtherExtraIgnored | tools/tools/httpx/httpx_adapter.py:38-41 | extra arguments that are neither a list nor a string add nothing |
| HttpxPlugin.TimeoutThenRate | tools/tools/httpx/httpx_adapter.py:43-49 | with both given, `-timeout` then `-rate` end the command |
| HttpxPlugin.ResponseEvent | tools/tools/httpx/httpx_adapter.py:63-64 | an accepted document is emitted as `http.response` |
| HttpxPlugin.ResponseEventIs | tools/tools/httpx/httpx_adapter.py:63-64 | the emitted payload is the response model's payload |
| HttpxPlugin.LineDocument | tools/tools/httpx/httpx_adapter.py:54-61 | a blank line or one that is not JSON gives no document |
| HttpxPlugin.LineEffect | tools/tools/httpx/httpx_adapter.py:53-66 | a line without a document does nothing; a document the model rejects raises with nothing emitted; otherwise one `http.response` event, then the counter one higher as `processed_targets` |
| HttpxPlugin.Counted | tools/tools/httpx/httpx_adapter.py:64-66 | an accepted response emits one event and sets `processed_targets` to the new count |
| HttpxPlugin.HttpxAdapter.constructor | tools/tools/httpx/httpx_adapter.py:16-17 | the counter starts at 0 |
| HttpxPlugin.HttpxAdapter.BuildCmd | tools/tools/httpx/httpx_adapter.py:23-51 | the target file is always written; the result is `Command` |
| HttpxPlugin.HttpxAdapter.ParseToolOutput | tools/tools/httpx/httpx_adapter.py:53-66 | what a line emits and the new counter are as `LineEffect` says |
| HttpxPlugin.LinesEffect | tools/tools/httpx/httpx_adapter.py:53-66 | one outcome per line; the counter never decreases |
| HttpxPlugin.CounterCountsEvents | tools/tools/httpx/httpx_adapter.py:65-66 | the counter rises by exactly the number of events emitted |
| HttpxPlugin.BlankLinesQuiet | tools/tools/httpx/httpx_adapter.py:54-56 | blank lines leave the counter unchanged |
| Altdns.TargetFileRoundTrip | tools/tools/altdns/altdns_adapter.py:17 | targets joined by newlines, without a final one, read back as the same lines when none is empty |
| Altdns.EmptyLastTargetLost | tools/tools/altdns/altdns_adapter.py:17 | an empty last target does not come back from the target file |
| Altdns.Parameters | tools/tools/altdns/altdns_adapter.py:18-20 | `cfg.parameters.get` succeeds exactly when the parameters are an object |
| Altdns.Command | tools/tools/altdns/altdns_adapter.py:16-27 | a command is built exactly when the parameters are an object |
| Altdns.ArgvShape | tools/tools/altdns/altdns_adapter.py:22-27 | every command is `httpx -l TARGETS -json -silent -threads N` followed by the response and chain flags |
| Altdns.DefaultOptions | tools/tools/altdns/altdns_adapter.py:18-20 | with none of the three parameters: 50 threads, responses included, chains not |
| Altdns.DefaultThreads | tools/tools/altdns/altdns_adapter.py:18 | without `threads` the thread count is `50` |
| Altdns.DefaultFlags | tools/tools/altdns/altdns_adapter.py:19-20 | without `include_response` and `include_chain` only `-include-response` is added |
| Altdns.IncludeFlags | tools/tools/altdns/altdns_adapter.py:19-26 | `-include-response` is left out exactly when `include_response` is present and falsy; `-include-chain` is added exactly when `include_chain` is truthy |
| Altdns.AsWrittenKey | tools/tools/altdns/altdns_adapter.py:30 | the key as written fails exactly when the URL is empty (reading `model.path` raises); otherwise it agrees with the intended key |
| Altdns.UniqueKey | tools/tools/altdns/altdns_adapter.py:30-31 | the intended key is never empty: the URL, else `host:port` with port 80 by default |
| Altdns.MissingPathFinding | tools/tools/altdns/altdns_adapter.py:30 | a response without a URL raises as written, where the intended key is its host and port |
| Altdns.KeysAgree | tools/tools/altdns/altdns_adapter.py:30 | where the written key does not raise, it is the intended one |
| Altdns.UrlLessDocument | tools/tools/altdns/altdns_adapter.py:45 | `from_httpx_json` accepts a document with only a `host`, giving an empty URL |
| Altdns.Bump | tools/tools/altdns/altdns_adapter.py:29-33 | a new key is added and `processed_targets` becomes the number of distinct keys; a known key changes nothing |
| Altdns.Respond | tools/tools/altdns/altdns_adapter.py:46-47 | a response is emitted, then counted |
| Altdns.HopStep | tools/tools/altdns/altdns_adapter.py:51-54 | a hop `from_httpx_json` rejects raises; after an exception nothing changes |
| Altdns.HopsWalk | tools/tools/altdns/altdns_adapter.py:50-54 | the chain loop only adds events and keys, and stops at an exception |
| Altdns.LineWalk | tools/tools/altdns/altdns_adapter.py:35-54 | a blank or non-JSON line does nothing; otherwise the keys seen only grow |
| Altdns.AsWrittenLineWalk | tools/tools/altdns/altdns_adapter.py:46 | as written, every line with a document emits and counts nothing |
| Altdns.SwappedArgumentsFinding | tools/tools/altdns/altdns_adapter.py:46 | a line with an accepted document raises with nothing emitted as written, where it should emit the main response first |
| Altdns.LineWalkAccepted | tools/tools/altdns/altdns_adapter.py:45-54 | an accepted document is the main response followed by its chain; a truthy `chain` that is not a list raises |
| Altdns.MetricsAppend | tools/tools/altdns/altdns_adapter.py:33 | the metric updates of two runs of actions are those of each, in order |
| Altdns.EventsAppend | tools/tools/altdns/altdns_adapter.py:46-53 | the events of two runs of actions are those of each, in order |
| Altdns.Counting | tools/tools/altdns/altdns_adapter.py:33 | counting from one total to another sets `processed_targets` to each number in between, in order |
| Altdns.HopEvents | tools/tools/altdns/altdns_adapter.py:51-53 | one event per accepted hop |
| Altdns.RespondCounts | tools/tools/altdns/altdns_adapter.py:46-47 | a response adds its event, and counts up by one exactly when its key is new |
| Altdns.HopsCount | tools/tools/altdns/altdns_adapter.py:51-54 | along the chain every new key is counted once, in step with the keys seen |
| Altdns.HopCounts | tools/tools/altdns/altdns_adapter.py:52-54 | one hop counts its key once if it is new |
| Altdns.CountingAppend | tools/tools/altdns/altdns_adapter.py:33 | counting from a to b and then b to c is counting from a to c |
| Altdns.HopsInOrder | tools/tools/altdns/altdns_adapter.py:51-54 | a chain of accepted hops emits one event per hop, in order, and does not raise |
| Altdns.RejectedHopRaises | tools/tools/altdns/altdns_adapter.py:52 | any rejected hop makes the line raise |
| Altdns.LineCounts | tools/tools/altdns/altdns_adapter.py:35-54 | over a line `processed_targets` counts up once for each new key, ending at the number of distinct keys |
| Altdns.LineInOrder | tools/tools/altdns/altdns_adapter.py:44-54 | an accepted line emits the main response first, then one event per hop in order |
| Altdns.AltdnsAdapter.constructor | tools/tools/altdns/altdns_adapter.py:12-14 | no key has been seen |
| Altdns.AltdnsAdapter.BuildCmd | tools/tools/altdns/altdns_adapter.py:16-27 | the target file is written with the targets joined by newlines; the result is `Command` |
| Altdns.AltdnsAdapter.BumpUnique | tools/tools/altdns/altdns_adapter.py:29-33 | the keys and the metric update are those of `Bump` |
| Altdns.AltdnsAdapter.ParseToolOutput | tools/tools/altdns/altdns_adapter.py:35-54 | what a line emits and counts, whether it raises, and the keys seen afterwards are those of `LineWalk` |
| Altdns.AltdnsAdapter.WalkHops | tools/tools/altdns/altdns_adapter.py:50-54 | the chain loop does what `HopsWalk` says |
| SubdomainSynth.Download | tools_old/subdomain-synth/adapter.py:28 | an unset `INPUTS_URL` makes the request raise; otherwise the download's result |
| SubdomainSynth.Prefixes | tools_old/subdomain-synth/adapter.py:33-41 | the list `PREFIXES_JSON` parses to when it is a non-empty list; the default `test1`, `test2`, `test` when the variable is unset or empty, does not parse, is not a list or is an empty list |
| SubdomainSynth.PostSignal | tools_old/subdomain-synth/adapter.py:19-24 | a signal is posted only when `SIGNAL_URL` is set, and a failure to post is ignored |
| SubdomainSynth.RootLines | tools_old/subdomain-synth/adapter.py:56-74 | one envelope line per prefix, in prefix order |
| SubdomainSynth.Lines | tools_old/subdomain-synth/adapter.py:55-74 | the blob holds one line for every root and prefix |
| SubdomainSynth.Run | tools_old/subdomain-synth/adapter.py:26-116 | the exit, the blob and the posts are those `Expected` describes |
| SubdomainSynth.Generate | tools_old/subdomain-synth/adapter.py:43-84 | the start signal, then the lines of every root and prefix with the progress signals; one document per root and prefix |
| SubdomainSynth.GenerateRoots | tools_old/subdomain-synth/adapter.py:55-82 | the loop writes the lines root by root and posts the progress signals |
| SubdomainSynth.ReportProgress | tools_old/subdomain-synth/adapter.py:76-82 | a progress signal is posted after every 500th root and after the last |
| SubdomainSynth.EmitRoot | tools_old/subdomain-synth/adapter.py:56-74 | one root writes one line per prefix |
| SubdomainSynth.LinesStep | tools_old/subdomain-synth/adapter.py:55-74 | one more root adds its lines at the end |
| SubdomainSynth.LinesAppend | tools_old/subdomain-synth/adapter.py:55-74 | the lines of two runs of roots are those of each, in order |
| SubdomainSynth.LinesOrder | tools_old/subdomain-synth/adapter.py:55-74 | a root's lines come after those of the roots before it and before those after it |
| SubdomainSynth.DomainPayloadFields | tools_old/subdomain-synth/adapter.py:57-70 | the name is the lower-cased `prefix.root`, kind `subdomain`, root and parent the lower-cased root |
| SubdomainSynth.EnvelopeFields | tools_old/subdomain-synth/adapter.py:58-71 | the envelope carries the tool, its version, the run and batch ids, `dns.domain`, the timestamp and the payload |
| SubdomainSynth.StartSignalFields | tools_old/subdomain-synth/adapter.py:43-48 | the start signal reports phase `start` with nothing processed |
| SubdomainSynth.ProgressSignalFields | tools_old/subdomain-synth/adapter.py:77-82 | a progress signal reports its phase and counts as `progress@v1` |
| SubdomainSynth.ResultsSignalFields | tools_old/subdomain-synth/adapter.py:91-115 | the results signal is `results_ready@v1` with the document count, the blob under the OCS prefix, and the digest |
| SubdomainSynth.ProgressCount | tools_old/subdomain-synth/adapter.py:76 | the number of progress signals is one per 500 roots, plus one for a last root that is not a multiple of 500 |
| SubdomainSynth.LastProgress | tools_old/subdomain-synth/adapter.py:76-82 | the last progress signal reports every root and every document |
| SubdomainSynth.ProgressPostsKind | tools_old/subdomain-synth/adapter.py:77-82 | every progress post is `progress@v1` |
| SubdomainSynth.ProgressPostsSilent | tools_old/subdomain-synth/adapter.py:20 | without `SIGNAL_URL` no progress signal is sent |
| SubdomainSynth.DownloadFails | tools_old/subdomain-synth/adapter.py:28 | a failed download raises before anything is signalled or written |
| SubdomainSynth.Silent | tools_old/subdomain-synth/adapter.py:19-20 | without `SIGNAL_URL` the run posts nothing |
| SubdomainSynth.Completed | tools_old/subdomain-synth/adapter.py:26-116 | a run whose upload succeeds or is skipped returns 0, writes one line per root and prefix, posts the start signal first and the results signal last |
| SubdomainSynth.UploadFails | tools_old/subdomain-synth/adapter.py:102-103 | a failed upload raises after the progress signals; results are never announced |
| Workdirs.PathOf | tools/runtime/wrappers/src/asm_tool_wrappers/masscan_wrapper.py:26 | `workdir / name` is the directory, a `/`, then the name |
| Workdirs.Workdir.WriteText | tools/runtime/wrappers/src/asm_tool_wrappers/masscan_wrapper.py:27 | the file at `workdir / name` is created or replaced with the text; no other file changes |
| Text.SplitLinesTerminated | tools/adapter_runtime/src/asm_adapter_runtime/base.py:226 | `splitlines` of lines each closed by a newline gives back exactly those lines |
| Text.NonBlankLinesTerminated | tools/adapter_runtime/src/asm_adapter_runtime/base.py:224-226 | reading back newline-terminated, already stripped, non-blank lines yields the same list |
| Text.StripIdempotent | tools/adapter_runtime/src/asm_adapter_runtime/base.py:226 | stripping a stripped line changes nothing |
| Text.StripPadded | tools/adapter_runtime/src/asm_adapter_runtime/utils.py:32 | blank padding on either side never survives `strip` |
| Text.Lower | tools/adapter_runtime/src/asm_adapter_runtime/utils.py:32 | lower-casing keeps the length and maps each character on its own |

## Left out

- `json.loads` is not computed. The texts that parse are given as a map from text to value; any other text is one that raises `JSONDecodeError`.
- The clock is a value passed in. The adapters' `emit` closures take one reading per output line; each envelope and each heartbeat wake-up of the packaged runtime carries its own.
- SubdomainSynth.Run: one reading (`world.now`) serves every timestamp of the run: the start, progress and results signals and every envelope. The source reads the clock afresh at each of them (tools_old/subdomain-synth/adapter.py:47, 64, 81, 98 and 114), so the model cannot tell two timestamps of one run apart, and `SubdomainSynth.Completed` proves equal readings in the first and last signal.
- Runtime.Run: one reading (`o.now`) serves the error signal, the final heartbeat and the results' `created_at`, which the source reads separately.
- LegacyRun.LegacyRun: one reading (`o.now`) serves the first heartbeat, the final heartbeat, the error signal and the results' `created_at`.
- `str.lower()` and `str.upper()` are modelled for ASCII letters only; other characters are left as they are, while Python maps every cased Unicode character (`'é'.upper()` is `'É'`, `'ß'.upper()` is `'SS'`, `'İ'.lower()` has two characters).
- Http.FromHttpxJson: the method is upper-cased and the scheme lower-cased for ASCII letters only (see the line above); a method or `scheme` field with other cased characters keeps them where Python would change them.
- Http.ResponseSchemeAndVerb: the same ASCII-only `.upper()` of the method and `.lower()` of the scheme.
- Http.MethodUpper: "no lower-case letter" is proved for ASCII letters only; a method with other lower-case characters keeps them.
- Text.ParseInt: the digits are ASCII only, while Python's `int()` also accepts other Unicode decimal digits; a port field spelled with those is refused by `Masscan.PortNumber` where Python would take it. Single `_` between digits is accepted, as Python accepts it.
- Jsons.Json: there is no floating-point value, so a document holding a JSON number with a fraction or an exponent is outside the model, and the texts that parse (see the first line) hold no such document. Python accepts them: a manifest `tool_version` such as `1.6` (`Envelope.FromManifestDoc`), a `rate`, `timeout` or `threads` such as `1000.0` passed through `str()` (`Masscan.DefaultRateUsed`, `HttpxPlugin.ValueArgs`, `Altdns.DefaultThreads`), a float port that `int()` truncates (`Masscan.PortNumber`), a float prefix in `PREFIXES_JSON` (`SubdomainSynth.Prefixes`), and httpx or altdns lines holding a float anywhere, which the model treats as not JSON and skips.
- Jsons.ReprBody: escapes the backslash, the quote, `\n`, `\r` and `\t` only; Python's `repr` also escapes every other non-printable character (as `\xNN`, `\uNNNN` or `\UNNNNNNNN`).
- Http.FromHttpxJson: of `urlsplit`'s checks it models the unbalanced-bracket `ValueError` only; the checks of newer Python releases on a bracketed host (that it is a valid IPv6 address) and on non-ASCII network locations that NFKC-normalise to a separator are not modelled.
- Io.FilePathFromUrl: the same unbalanced-bracket `ValueError` of `urlparse` on a `file://` URL is not modelled; the path is taken as `urlparse` would split it.
- gzip compression is not modelled: the events file is the text the gzip stream receives. SHA-256 digests are oracle values compared as strings.
- Unpacking archives (zip and tar) is not modelled. Only the choice of archive kind by file name is.
- The network is not modelled. A download is the sequence of chunks the HTTP client yields, and a post is recorded in an outbox. The `requests` exception texts are oracle values.
- The subprocess in `spawn_and_stream` and the legacy `run` is given by the lines it prints and the code it exits with. Pipes, buffering and process start-up failures beyond "does not start" are not modelled.
- The heartbeat threads are replaced by explicit calls (`Start`, `Tick`, `Stop`). Races between the worker thread and the thread that updates the metrics are not modelled.
- Runtime.RunBody: the packaged worker's wake-ups are modelled only while `main` runs, as `Wake` calls among its calls. Wake-ups in the short windows before `main` starts, after it ends and during `emit_error` are not modelled, so `RunLaws.ResultsOnSuccess`, `RunLaws.FailureSignals` and `RunLaws.StoppedSignals` place the last two (or one) posts after exactly the heartbeats `main`'s wake-ups sent.
- LegacyLaws.LegacyStartedSignals: the legacy worker is modelled by its immediate first post and the final one only, with no wake-ups in between, so the three posts it counts (two after a `SystemExit`) are those of a run shorter than the heartbeat interval.
- The SIGTERM handler is modelled only as the steps that install and restore it. Delivery of the signal is not modelled.
- Temporary directories are recorded as create and remove steps; the file system behind them is not modelled beyond the workdir's text files.
- Printing to stderr is left out.
- Http.FromHttpxJson: does not convert a string `response_time` to a float; floating point is not modelled, so the value is kept as the JSON it arrives as.
- `tools/runtime/adapter_runtime/models/http.py` is not part of this model; the httpx mapping is modelled from `tools/runtime/models/http.py`.
- The masscan wrapper's `stream` method, which ignores its lines, and the parts of its `run` helper other than target flattening (the subprocess, the temporary directory, printing) are left out.
- The CLI entry points that resolve `module:Class` adapter names are left out.

## Findings

| source | as written | input that shows it | evidently intended | confidence | as-written member | corrected member |
|---|---|---|---|---|---|---|
| tools/runtime/models/dns.py:21-27 | `DnsDomain` gives the inherited `event_type` a default and then declares `name` and other fields with no default, so `@dataclass` raises `TypeError` when the class is built | importing the module: the class definition itself raises "non-default argument 'name' follows default argument" | `event_type` declared as the packaged models declare theirs, `field(init=False, default="dns.domain")`, so `__init__` takes `name`, `root`, `kind` and an optional `parent` | not executed | Dataclasses.RuntimeDnsDomainRejected | Dataclasses.CorrectedDnsDomainAccepted |
| tools/runtime/models/http.py:22-42 | `HttpResponse` gives the inherited `event_type` a default as its last field, but `event_type` keeps the first place, so the required `url` follows a field with a default and `@dataclass` raises `TypeError`; the altdns adapter's import of it (tools/tools/altdns/altdns_adapter.py:5) fails; the httpx adapter imports the name from `adapter_runtime.models` (tools/tools/httpx/httpx_adapter.py:8), whose package loads an identical `DnsDomain` first (tools/runtime/adapter_runtime/models/__init__.py:3), which fails the same way | importing the module: the class definition itself raises "non-default argument 'url' follows default argument" | `event_type` declared as the packaged models declare theirs, `field(init=False, default="http.response")`, so `__init__` takes `url` and then the optional fields | not executed | Dataclasses.RuntimeHttpResponseRejected | Dataclasses.CorrectedHttpResponseAccepted |
| tools/tools/altdns/altdns_adapter.py:46 | `emit_event(emit, main)` passes the callback first, while the helper is `emit_event(event, emit)` (tools/runtime/adapter_runtime/models/base.py:20-27) | any output line holding a JSON document: `emit_event` raises `TypeError` and nothing is emitted | `emit_event(main, emit)`, so each response and its chain hops are emitted | not executed | Altdns.AsWrittenLineWalk | Altdns.LineWalk |
| tools/tools/altdns/altdns_adapter.py:30 | the de-duplication key falls back to `model.path`, which `HttpResponse` does not have | the line `{"host":"a.example"}`: the URL is empty, so reading `model.path` raises `AttributeError` | a key of `host:port` (port 80 by default) when there is no URL | not executed | Altdns.AsWrittenKey | Altdns.UniqueKey |
