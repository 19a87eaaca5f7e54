# casper: Consul change filtering, push, and source descriptors (Dafny model)

casper renders a configuration template from merged input sources, compares
the result with a Consul key-value store, and can push the difference. This
project models the core of that pipeline and proves properties about it:

- **Change filtering** (`getChanges` in storage/consul/consul.go). The raw
  change records of the Consul diff become typed `Add`/`Update`/`Remove`
  changes. A record whose desired value is the ignore marker (default
  `_ignore`) is a directive, not data. Its key becomes an ignored path, and
  every change whose key has an ignored path as a plain string prefix is
  dropped. An optional requested key keeps only that key's changes.
- **Push** (`Storage.Push`/`push`). Changes are replayed in order against
  the store. Add and Update put the new value and Remove deletes the key. The
  first store error stops the replay and nothing is rolled back.
- **Storage construction** (`New`). It builds the client settings from the
  address and picks the effective ignore marker.
- **Source descriptors** (cmd/casper/context.go, cmd/casper/sources.go).
  `newContext` runs its functional options in order. `withSources` and
  `getMultiSourcer` classify each `-s` descriptor as a `config` or `file`
  source. `getConfigSource` and `getFileSource` build the getters, and
  `sourceFormatError` formats its message.

Modules, one per component:

| file | module | models |
|---|---|---|
| results.dfy | `Results` | Go's nil-able values, `(T, error)` returns, `errors.Wrap` messages |
| seqs.dfy | `Seqs` | `strings.HasPrefix`, `strings.Split`/`Join`, subsequence |
| changes.dfy | `Changes` | raw Consul changes, typed changes, the action switch |
| consul.dfy | `Consul` | `New`, `getChanges`, `isPathIgnored` |
| push.dfy | `ConsulPush` | `Storage.Push`, `Storage.push`, the store as a map |
| urls.dfy | `Urls` | the `url.URL` fields used, `url.Values.Get`; parsing supplied from outside |
| fail_fast.dfy | `FailFast` | the stop-at-first-error loop over descriptors |
| sources.dfy | `Sources` | sources.go |
| context.dfy | `CasperContext` | context.go: `newContext`, `withSources` |

What the model takes from outside:
- The raw change list of `consul.GetChanges`, as a `Result<seq<ConsulChange>>`.
- `url.Parse` and `url.ParseQuery`, as the function fields of `UrlParser`.
- `api.NewClient`'s failure, as a `ClientFactory`.
- Whether each store call fails, as `Replies`: the error returned by the n-th call.
- File opening and decoding, as a `FileLoader`.

Behaviour of the code worth noting:
- The ignore prefix test is a plain string prefix (`strings.HasPrefix`), not
  segment-aware. A marker on `a/b` also suppresses `a/bc`
  (`Consul.PrefixNotSegmentAware`).
- `Push` returns the store's error unchanged. It does not annotate the error
  with the offending key.
- In `getConfigSource` the `len(v) > 1` branch is a dead store: the next
  line overwrites the list with the first value. The loop is modelled as
  written (`Sources.BuildConfigBody`), and every key ends up with its first
  value whatever order the keys are visited in.

## Model

| member | source | states |
|---|---|---|
| `Consul.New` | storage/consul/consul.go:36-61 | a constructed storage's ignore marker is never empty: it is the `ignore` query parameter when that is non-empty, otherwise `_ignore` (always `_ignore` with no address); the client gets host, scheme and `token`; a parse failure and a client failure give their wrapped errors |
| `Consul.NewAsWritten` | storage/consul/consul.go:40-43 | as written, the message for an unparsable address shows `<nil>` (the shadowing `addr` is the nil `*url.URL`); otherwise it is `New` |
| `Consul.NewAsWrittenPrintsNil` | storage/consul/consul.go:41-43 | for the address `:8500` the as-written message prints `<nil>` where the corrected one names the address (the address still appears inside the `url.Parse` cause) |
| `Changes.Convert` | storage/consul/consul.go:149-156 | `ConsulAdd` gives `Add(key, newVal)`, `ConsulRemove` gives `Remove(key, val)`, `ConsulUpdate` gives `Update(key, val, newVal)`, any other action gives nothing; these observers fix the change |
| `Consul.IgnoredPaths` | storage/consul/consul.go:135-143 | a key is an ignored path iff some raw change carrying the (non-empty) marker has that key; the requested key plays no part |
| `Consul.Collected` | storage/consul/consul.go:137-158 | a typed change is collected iff it is the conversion of some raw change that is unmarked and passes the key filter |
| `Consul.CollectedCounts` | storage/consul/consul.go:137-158 | each typed change occurs in the collected list as many times as there are unmarked, key-matching raw changes that convert to it |
| `Consul.CollectedAppend` | storage/consul/consul.go:137-158 | collection preserves input order: collecting `a + b` gives the collection of `a` followed by that of `b` |
| `Consul.IsPathIgnored` | storage/consul/consul.go:172-180 | true iff some ignored path is a plain string prefix of the path; false for no ignored paths |
| `Consul.Unignored` | storage/consul/consul.go:160-169 | a change survives iff it was collected and no ignored path prefixes its key; survivors keep their relative order (subsequence) |
| `Consul.UnignoredCounts` | storage/consul/consul.go:160-169 | a change whose key is not ignored occurs in the output exactly as often as in the input; one whose key is ignored does not occur |
| `Consul.GetChanges` | storage/consul/consul.go:129-170 | an upstream error is passed through; otherwise a change occurs in the output as many times as unmarked, key-matching raw changes convert to it when no ignored path prefixes its key, and not at all otherwise; the output is an order-preserving subsequence of the collected changes |
| `Consul.CollectChanges` | storage/consul/consul.go:135-158 | the first loop's ignored paths and converted changes are exactly `IgnoredPaths` and `Collected` |
| `Consul.DropIgnored` | storage/consul/consul.go:160-169 | the second loop keeps exactly the changes `Unignored` describes |
| `Consul.ComputeChanges` | storage/consul/consul.go:129-170 | the two loops of `getChanges` compute exactly the result described by `GetChanges` |
| `Consul.MarkedKeySuppressed` | storage/consul/consul.go:138-169 | a marked change's key is recorded as ignored, and no returned change has a key it prefixes, for any requested key, including that key itself |
| `Consul.RequestedKeyOnly` | storage/consul/consul.go:145-147 | with a non-empty requested key, every returned change is for that key |
| `Consul.NoKeyKeepsAll` | storage/consul/consul.go:145-156 | with no requested key, every unmarked change with a known action whose key is not ignored is returned |
| `Consul.EmptyMarkerIgnoresNothing` | storage/consul/consul.go:140-143 | with an empty marker no path is ignored and the result is every selected change, in order |
| `Consul.PrefixNotSegmentAware` | storage/consul/consul.go:172-180 | a marker on `a/b` suppresses a change to `a/bc`, even when `a/bc` is the requested key |
| `Consul.MarkerOnNewKeySuppressesAdd` | storage/consul/consul.go:140-143 | a marker on a key the store does not hold yet produces no Add |
| `Consul.ConstructedStorageSuppressesMarked` | storage/consul/consul.go:57-79 | with a storage built by `New`, a raw change carrying its marker suppresses every change under its key |
| `ConsulPush.Apply` | storage/consul/consul.go:96-107 | one `push`: Add and Update leave the key holding the new value, Remove leaves it absent; every other key keeps its presence and value |
| `ConsulPush.ApplyAll` | storage/consul/consul.go:88-93 | no changes leave the store as it was; otherwise the last change decides whether its key is present and with which value |
| `ConsulPush.ApplyAllNewKeys` | storage/consul/consul.go:96-107 | a key the store did not hold is present after the changes only if some Add or Update put it there |
| `ConsulPush.Push` | storage/consul/consul.go:87-110 | changes are applied in order; on success the store is the fold of Put (Add/Update) and Delete (Remove) and every call succeeded; on failure at change i the error is that call's error, calls before i succeeded and exactly changes [0, i) are applied (a failed call is taken to change nothing) |
| `ConsulPush.ApplyAllAppend` | storage/consul/consul.go:88-93 | applying a concatenation is applying its halves in sequence |
| `ConsulPush.ApplyAllUntouched` | storage/consul/consul.go:96-107 | a key no change mentions keeps its presence and value |
| `ConsulPush.ApplyAllLastWriteWins` | storage/consul/consul.go:96-107 | after the last change to a key, the key holds that change's new value, or is absent after a Remove |
| `ConsulPush.PushRealisesChanges` | storage/consul/consul.go:87-107 | a successful push of changes with distinct keys leaves each key as its change says and every other key untouched |
| `ConsulPush.IgnoredKeysUntouched` | storage/consul/consul.go:160-169 | pushing the filtered changes never creates, updates or deletes a key under an ignored path |
| `FailFast.MapAll` | cmd/casper/sources.go:37-61 | one result per element in order on success; otherwise the error of the first failing element, all before it having succeeded |
| `Sources.FormatErrorMessage` | cmd/casper/sources.go:20-26 | the message is `Invalid source definition: ` + msg, followed by ` (Err:` + cause + `)` iff there is a cause |
| `Sources.Lookup` | cmd/casper/sources.go:31-34 | only `config` and `file` have a getter |
| `Sources.ConfigBodyDropsLaterValues` | cmd/casper/sources.go:71-75 | one pass of the loop for a key with several values leaves the same body as storing only the first value: the list store at line 72 is dead and the list is never kept |
| `Sources.BuildConfigBody` | cmd/casper/sources.go:69-76 | the loop as written (list store then first-value store, keys visited in any order) ends with exactly the query's keys, each holding its first value and no list, as the reference `ConfigBody` gives |
| `Sources.GetConfigSource` | cmd/casper/sources.go:68-79 | never fails; the config getter's body holds every query key with a single value, its first |
| `Sources.ComputeConfigSource` | cmd/casper/sources.go:68-79 | running the loop and wrapping the body gives exactly `GetConfigSource`'s result |
| `Seqs.Split` | cmd/casper/sources.go:83 | `strings.Split`: at least one part, no part contains the separator, joining the parts with it gives back the string, and the string is its only part iff it has no separator |
| `Sources.FileFormat` | cmd/casper/sources.go:82-84 | the format is a dot-free suffix of the path, preceded by a `.` unless it is the whole path, which it is iff the path has no `.` |
| `Sources.GetFileSource` | cmd/casper/sources.go:81-98 | succeeds iff the file opens and decodes, giving the path and format; an open error is returned as is, a decode error wrapped as `unable to create file source` |
| `Sources.MultiSourcerStep` | cmd/casper/sources.go:37-60 | a parse error is returned unwrapped; no scheme means `config` with the descriptor as query, with no `=` check; an unknown scheme gives `Sources invalid format` |
| `Sources.GetMultiSourcer` | cmd/casper/sources.go:30-63 | one getter per descriptor, in order; otherwise the first failing descriptor's error |
| `CasperContext.RunOptions` | cmd/casper/context.go:27-31 | an error from the loop is the error some option returned |
| `CasperContext.OptionsThatNeverFailSucceed` | cmd/casper/context.go:27-33 | when no option ever returns an error the loop runs to the end and yields a context |
| `CasperContext.NewContext` | cmd/casper/context.go:23-34 | with no options, the context holds only the path |
| `CasperContext.OptionsRunLeftToRight` | cmd/casper/context.go:27-31 | running options `a + b` is running `a`, then `b` on its context; if `a` fails, `b` has no effect |
| `CasperContext.FirstOptionErrorAborts` | cmd/casper/context.go:27-31 | the first failing option's error is the result, with no context, whatever options follow it |
| `CasperContext.SourceStep` | cmd/casper/context.go:43-70 | a parse error is wrapped as `parsing source <s> failed`; no scheme and no `=` gives `invalid source: <s>`; no scheme with `=` gives `config` with the whole descriptor as raw query; another scheme than `config`/`file` gives `invalid source format <scheme>` |
| `CasperContext.SourceList` | cmd/casper/context.go:42-70 | one getter per descriptor, in order; otherwise the first failing descriptor's error |
| `CasperContext.ApplySources` | cmd/casper/context.go:36-75 | on failure the context is unchanged (source still unset); on success its source is the getter list |
| `CasperContext.SourceStepStricterThanMultiSourcer` | cmd/casper/context.go:49-64 | what `withSources` accepts, `getMultiSourcer` maps to the same getter; the only descriptors it alone rejects have no scheme and no `=` |
| `CasperContext.SourceListAgreesWithMultiSourcer` | cmd/casper/context.go:42-70 | a descriptor list `withSources` accepts gives the same getters under `getMultiSourcer` |
| `CasperContext.KeyColonValRejected` | cmd/casper/main_test.go:138-140 | the descriptor `key:val` (scheme `key`) makes `newContext` fail with `invalid source format key` |
| `CasperContext.BareWordRejectedOnlyByContext` | cmd/casper/context.go:49-52 | a descriptor with no scheme and no `=` is rejected by `withSources` but accepted by `getMultiSourcer` |

## Left out

- `consul.GetChanges` and `consul.KVPairsToMap` (flattening the rendered document and diffing it against the store) are not part of this model. Their output is an input here.
- `kvPairsToString`, `Storage.String` and `Storage.Diff` are left out. They marshal to JSON/YAML and render diffs through packages that are not part of this model.
- The Consul client (`api.NewClient`, `kv.List`, `kv.Put`, `kv.Delete`) is left out. Storage is a `map<string, string>`, and call outcomes come from an oracle. A failed call is taken to leave the store unchanged, although Consul may have applied a write whose response was lost. The `List` failure wrapped by `Storage.GetChanges` is not modelled.
- `push`'s `invalid change type` error is not modelled. The typed change datatype is closed, so that branch cannot be reached.
- `url.Parse`, `url.ParseQuery` and `Hostname()` are inputs, not models of RFC 3986 parsing.
- `os.Open`, `source.NewFileSource`, `source.NewSource` and `source.NewMultiSourcer` are foreign. A file source is described by its path and format. The merged source, and the precedence of later sources over earlier ones, is not modelled. A `NewMultiSourcer` error is not modelled either.
- `withTemplate`, `withFileStorage` and `withConsulStorage` are left out. They open files or build storages outside this model. `newContext` is modelled for arbitrary options.
- cmd/casper/config.go is left out. It rebases paths with `filepath.Abs`, which depends on the working directory, and otherwise repeats the scheme dispatch of `getMultiSourcer`.
- The `fmt.Println` debug output in sources.go (lines 52 and 91) is left out.
- Go strings are byte strings; here they are `seq<char>`. The characters the source looks for (`=`, `.`, `:`) are ASCII, so nothing depends on the difference.

## Findings

| source | as written | input that shows it | evidently intended | confidence | as-written member | corrected member |
|---|---|---|---|---|---|---|
| storage/consul/consul.go:41-43 | `addr, err := url.Parse(addr)` declares a new `addr` that shadows the string. The error message then formats the nil `*url.URL`, which prints as `<nil>` | address `:8500` (url.Parse: missing protocol scheme) gives `parsing Consul address <nil> failed: …` | the message names the address that failed to parse | high; not executed | `Consul.NewAsWritten` (shown by `Consul.NewAsWrittenPrintsNil`) | `Consul.New` |
