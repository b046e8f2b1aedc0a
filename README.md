# Docker API proxy mungers: bind-path rewriting for `POST /containers/create`

This project models the request-munging step of the WSL helper's Docker
Engine API proxy. A Windows Docker client sends `POST /containers/create`
with bind mounts such as `C:\Users\foo:/data`, and the daemon runs inside
WSL. The munger rewrites the host side of every path bind to the WSL path,
for example `/mnt/c/Users/foo:/data`. Two pieces are modelled.

- **The replayable body reader** (`readRequestBodyJSON` and
  `readResponseBodyJSON`). It reads the whole body, tries to decode it as
  JSON, and puts the same bytes back as the body whatever the decode
  outcome. The two Go functions differ only in the message they touch and
  the word in their error text. One method `Helpers.ReadBodyJSON` models
  both, with a `Role` parameter. It is specified by the function
  `Helpers.ReadBody`.
- **The bind rewriter** (`mungeContainersCreate`). It decodes the body,
  walks `HostConfig.Binds` in order, translates the host of each path bind,
  and rebuilds each entry in place. It stops at the first failed
  translation. Only if some path was translated does it re-encode the body
  and replace the body, the declared length and the `Content-Length` field.
  `ContainersCreate.MungeContainersCreate` is the imperative model. Its
  bind loop is the method `ContainersCreate.RewriteBindsInPlace`, which
  overwrites entry i at step i and returns early on the first failed
  translation. The loop is proved equal to the function `RewriteBinds`.
  The munger's postcondition equates everything it leaves observable with
  the function `ContainersCreate.Munge`. The lemmas are stated about
  `Munge` and about `RewriteBinds`.

The collaborators whose code is not part of this model are parameters:

- `ParseBindString` and `TranslatePathFromClient` are the function values of
  a `Platform`;
- `json.Unmarshal` and `json.Marshal` are the function values of a `Codec`;
- the body stream is an `Http.Stream` object whose read may fail.

The body schema keeps only `HostConfig.Binds`. The other fields are
`Opaque` decoded values that the munger never examines. The model promises
only that these decoded values are handed to the encoder unchanged. The
Go code decodes them into typed structs, so decoding and encoding can drop
unknown fields or change formatting. Any such byte-level change is the
`Codec`'s, and is not modelled. The translation calls and the encoded
body are returned as ghost outputs, so that the lemmas can say which paths
were translated and whether anything was re-encoded.

Files:

- `outcomes.dfy`: results, bytes, roles and the four wrapped errors.
- `http.dfy`: the stream and message classes, and the decimal form of
  `Content-Length`.
- `helpers.dfy`: the reader.
- `bind_string.dfy`: the parsed form of a bind, how an entry is written
  back, and a split at every colon used to read back written entries.
- `containers_create.dfy`: the munger, its specification and its lemmas.

Points of the Go code worth knowing:

- **A path-translation error names the host path only**
  (containers_create_windows.go:39), not the index of the bind.
- **On a decode failure the body is still replaced.** helpers.go:21 sets a
  new body before helpers.go:22 checks the decode error. A decode failure
  therefore still leaves a new stream over the same bytes.
- **Registration keeps only its key.** The munger is registered under
  `POST /containers/create` (containers_create_windows.go:66). The model
  keeps this key as the constants `ContainersCreate.Method` and
  `ContainersCreate.Path`.

## Model

| member | source | states |
|---|---|---|
| `Http.Stream.ReadAll` | src/go/wsl-helper/pkg/dockerproxy/mungers/helpers.go:15 | reading to the end gives every remaining byte, or the stream's error; either way the stream is consumed |
| `Http.Stream.constructor` | src/go/wsl-helper/pkg/dockerproxy/mungers/helpers.go:21 | a new in-memory body holds exactly the given bytes and never fails |
| `Http.Message.constructor` | src/go/wsl-helper/pkg/dockerproxy/mungers/containers_create_windows.go:58-60 | a message holds the given body stream, declared length and header: the `Body`, `ContentLength` and `Header` fields the readers and the munger read and replace |
| `Http.Decimal` | src/go/wsl-helper/pkg/dockerproxy/mungers/containers_create_windows.go:60 | `%d` of a length is a non-empty string of digits with no leading zero (the `1*DIGIT` form of section 8.6 of RFC 9110) |
| `Http.ParseDecimalOfDecimal` | src/go/wsl-helper/pkg/dockerproxy/mungers/containers_create_windows.go:59-60 | the `Content-Length` field read back as a number is the length it was written from |
| `Helpers.ReadBody` | src/go/wsl-helper/pkg/dockerproxy/mungers/helpers.go:14-27 | a failed read gives "could not read body" whatever the decoder would say; after a successful read the body holds exactly the bytes read, whether or not decoding succeeds; the decoder sees exactly those bytes; a decode failure gives "could not unmarshal body"; success exactly when both the read and the decode succeed. The response reader at lines 33-46 is the same with `Role.Response` |
| `Helpers.ReadBodyReplays` | src/go/wsl-helper/pkg/dockerproxy/mungers/helpers.go:20-21 | the restored body can be read again, with the same outcome and the same bytes left behind |
| `Helpers.ReadBodyJSON` | src/go/wsl-helper/pkg/dockerproxy/mungers/helpers.go:14-46 | the message's result and body are those of `ReadBody`; after a successful read the body is a fresh stream; after a failed one it is the old, consumed stream; the length and header are untouched (covers both readers) |
| `BindString.FormatSplitsBack` | src/go/wsl-helper/pkg/dockerproxy/mungers/containers_create_windows.go:44-48 | an entry written back from colon-free fields splits into `[host, container]` when the options are empty, else into `[host, container, options]` |
| `BindString.Format` | src/go/wsl-helper/pkg/dockerproxy/mungers/containers_create_windows.go:44-48 | definition: `host:container` when the options are empty, else `host:container:options` |
| `BindString.FormatLayout` | src/go/wsl-helper/pkg/dockerproxy/mungers/containers_create_windows.go:44-48 | a written-back entry starts with its host and a colon, and non-empty options come last, after a colon |
| `BindString.TrailingEmptyOptionsDropped` | src/go/wsl-helper/pkg/dockerproxy/mungers/containers_create_windows.go:44-45 | `host:container:` has three fields, but once parsed into empty options it is written back as `host:container`, with two |
| `ContainersCreate.PrefixFailure` | src/go/wsl-helper/pkg/dockerproxy/mungers/containers_create_windows.go:38-40 | after a failed translation the binds that follow change neither the outcome nor the translation calls |
| `ContainersCreate.TranslationFails` | src/go/wsl-helper/pkg/dockerproxy/mungers/containers_create_windows.go:35-38 | definition: the parsed bind is a path bind and translating its host fails |
| `ContainersCreate.TranslationError` | src/go/wsl-helper/pkg/dockerproxy/mungers/containers_create_windows.go:37-39 | the error is a mount-path translation error that names the parsed host and wraps the translator's own error |
| `ContainersCreate.Rebuilt` | src/go/wsl-helper/pkg/dockerproxy/mungers/containers_create_windows.go:35-48 | definition: the entry written back for a bind: `Format` of the translated host for a path bind, of the parsed host otherwise, with the parsed container and options |
| `ContainersCreate.RebuiltLayout` | src/go/wsl-helper/pkg/dockerproxy/mungers/containers_create_windows.go:35-48 | a rebuilt entry starts with its host, translated for a path bind and as parsed otherwise, followed by a colon; non-empty parsed options come last, after a colon |
| `ContainersCreate.RewriteBinds` | src/go/wsl-helper/pkg/dockerproxy/mungers/containers_create_windows.go:32-49 | the list rewrite, bind by bind in order, stopping at the first failed translation; a success has one entry per bind, and the only failure is a path-translation error |
| `ContainersCreate.TranslateCalls` | src/go/wsl-helper/pkg/dockerproxy/mungers/containers_create_windows.go:36-37 | the hosts handed to the translator are a prefix of the path binds' hosts in index order (`PathHosts`), and all of them when the rewrite succeeds |
| `ContainersCreate.RewriteStep` | src/go/wsl-helper/pkg/dockerproxy/mungers/containers_create_windows.go:33-48 | one loop step after a rewritten prefix: bind i either fails the whole rewrite with its error, or extends the prefix with its rebuilt entry; it adds its host to the translation calls exactly when it is a path bind |
| `ContainersCreate.RewriteBindsSucceeds` | src/go/wsl-helper/pkg/dockerproxy/mungers/containers_create_windows.go:32-49 | if every path translates, the list keeps its length and order; entry i is bind i rebuilt (translated host for a path bind, parsed host otherwise, options only when non-empty); `modified` holds exactly when some bind is a path bind; exactly the path binds' hosts are translated, in index order |
| `ContainersCreate.RewriteBindsEntries` | src/go/wsl-helper/pkg/dockerproxy/mungers/containers_create_windows.go:33-48 | if every path translates, the rewrite succeeds, keeps the list's length, and entry i is bind i rebuilt |
| `ContainersCreate.RewriteBindsModified` | src/go/wsl-helper/pkg/dockerproxy/mungers/containers_create_windows.go:32-42 | if every path translates, `modified` holds exactly when some bind is a path bind, that is, when the translator was asked at least once |
| `ContainersCreate.FirstFailureExists` | src/go/wsl-helper/pkg/dockerproxy/mungers/containers_create_windows.go:33-40 | a bind list with an untranslatable path has a first one, the one the loop stops at |
| `ContainersCreate.RewriteBindsFailsAtFirst` | src/go/wsl-helper/pkg/dockerproxy/mungers/containers_create_windows.go:36-40 | the first untranslatable path fails the rewrite with an error naming that host path; the translator has been asked for the path binds up to it and for none after |
| `ContainersCreate.RewriteBindsFailsIff` | src/go/wsl-helper/pkg/dockerproxy/mungers/containers_create_windows.go:33-40 | the rewrite fails if and only if some path bind cannot be translated |
| `ContainersCreate.MungeStopsOnUnreadableBody` | src/go/wsl-helper/pkg/dockerproxy/mungers/containers_create_windows.go:25-29 | a read or decode failure is returned as the reader's error; no bind is translated, nothing is encoded, the length and header stay, and after a decode failure the body holds the original bytes |
| `ContainersCreate.Munge` | src/go/wsl-helper/pkg/dockerproxy/mungers/containers_create_windows.go:24-63 | one whole run as observed from outside; the body is replaced only after a successful encode, and then the declared length and the `Content-Length` field give its length; otherwise length and header stay and a body that was read is given back; nothing is translated unless the body decoded |
| `ContainersCreate.MungeWithoutPathBindsIsNoOp` | src/go/wsl-helper/pkg/dockerproxy/mungers/containers_create_windows.go:32-52 | with no path bind, the run returns nil, translates and encodes nothing, and leaves the body bytes, the length and the header as they were |
| `ContainersCreate.MungeTranslationFailureIsAtomic` | src/go/wsl-helper/pkg/dockerproxy/mungers/containers_create_windows.go:36-40 | an untranslatable path aborts with an error naming the first such path; the request keeps its bytes, length and header; nothing is encoded; no later bind is translated |
| `ContainersCreate.MungeRewritesPathBinds` | src/go/wsl-helper/pkg/dockerproxy/mungers/containers_create_windows.go:41-60 | when every path translates and one exists, the encoded body is the decoded one with each bind rebuilt in place and all other fields unchanged; if encoding succeeds, the body is exactly the new bytes, the declared length is their count, and the `Content-Length` field is that count in decimal; if it fails, the run returns the re-marshal error and the request is unchanged |
| `ContainersCreate.MungeKeepsLengthConsistent` | src/go/wsl-helper/pkg/dockerproxy/mungers/containers_create_windows.go:50-60 | on every input, body, length and header change only together, only after a successful re-encode, and then agree; otherwise a body that was read is given back byte for byte |
| `ContainersCreate.MungeEncodesIffTranslated` | src/go/wsl-helper/pkg/dockerproxy/mungers/containers_create_windows.go:32-54 | the body is re-encoded exactly when it decodes, every path translates and at least one bind is a path bind |
| `ContainersCreate.TranslatesWindowsPathBind` | src/go/wsl-helper/pkg/dockerproxy/mungers/containers_create_windows.go:41-45 | `C:\Users\foo:/data`, translated to `/mnt/c/Users/foo`, is rewritten to `/mnt/c/Users/foo:/data` and marks the body modified |
| `ContainersCreate.SecondBindUntranslatable` | src/go/wsl-helper/pkg/dockerproxy/mungers/containers_create_windows.go:33-40 | with a translatable path bind followed by an untranslatable one, the run fails naming the second host, after both translations were asked for |
| `ContainersCreate.MungeContainersCreate` | src/go/wsl-helper/pkg/dockerproxy/mungers/containers_create_windows.go:24-63 | the returned error, body bytes, declared length, header, translation calls and encoded body are those `Munge` gives for the request's old state; a body that was read is a fresh stream afterwards; after a failed read the body is still the old stream with its error |
| `ContainersCreate.RewriteBindsInPlace` | src/go/wsl-helper/pkg/dockerproxy/mungers/containers_create_windows.go:32-49 | the loop's result is `RewriteBinds` of the decoded list and its translation calls are `TranslateCalls`: entry i is overwritten only at step i, and the loop stops at the first failed translation |

## Left out

- Logging of the decoded body and of each bind (containers_create_windows.go:30, 34) has no effect on behaviour.
- The registration with `dockerproxy.RegisterRequestMunger` in `init` (containers_create_windows.go:65-67) is kept only as the constants `Method` and `Path`. The registry is not part of this model.
- The bind loop of `mungeContainersCreate` is its own method, `RewriteBindsInPlace`. It works on a copy of the list held as a value and returns the rewritten list. In Go the loop writes into the decoded body's slice, and on an early return that partly rewritten body is simply discarded.
- The `contextValue` and `templates` parameters of `mungeContainersCreate` are never used by it, so the model has no such parameters.
- `platform.ParseBindString` and `platform.TranslatePathFromClient` are not part of this model. They are arbitrary functions supplied in a `Platform`. Whether `Format` of a parsed entry gives back the original string depends on that parser, so it is not claimed. `BindString.FormatSplitsBack` states the round trip only for the split at every colon, which reads back only entries whose fields hold no colon. A Windows host such as `C:\Users\foo` is not one of them: that split would give three fields.
- `encoding/json` and the Docker `models` schemas are not part of this model. Decoding and encoding are arbitrary functions supplied in a `Codec`. A partial fill of the target on a decode error is not modelled: the munger never uses the value then.
- Http.Stream.ReadAll: the bytes that `io.ReadAll` returns together with an error are not modelled; a failed read leaves the stream consumed and returns only the error.
- Closing the old body stream is not modelled. The Go code does not close it either.
- Errors are constructors that keep their wrapped cause. The exact text of `fmt.Errorf` messages is not modelled.
- `req.ContentLength` is an `int64` and is modelled as an unbounded integer. It is set from a slice length, so it cannot wrap.
- `Header.Set` canonicalises the field name. `Content-Length` is already canonical, so the model writes that key directly.
