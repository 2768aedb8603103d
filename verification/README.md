# Message-queue trigger startup, modelled in Dafny

This project models how Fission's message-queue trigger starts
(`cmd/fission-bundle/mqtrigger/mqtrigger.go`). Startup has three parts:

- **Secret loading** (`readSecrets`). Every entry of the secrets directory that is not a
  directory and whose name does not start with `.` becomes one entry of a map from file
  name to file bytes. Loading is all or nothing: a missing path, a listing failure or the
  first unreadable file gives an error and no map.
- **Backend dispatch** (`newMessageQueue`). The configured message-queue type is matched
  exactly against the NATS streaming, Azure storage queue and Kafka type names. The match
  invokes that backend's constructor with the router URL and the configuration unchanged.
  Any other type is rejected with an error that names it.
- **Startup sequencing** (`Start`). The steps run in a fixed order: make the control-plane
  client, wait for the custom resource definitions, read the environment, load secrets
  when the trimmed secrets path is not empty, construct the backend, then run the trigger
  manager. A failure stops every later step. Client, CRD-wait and secret failures are
  returned to the caller. A failed backend construction ends the process (`logger.Fatal`).

Files and modules:

- `wrappers.dfy` (`Wrappers`): `Option` and `Result`.
- `errors.dfy` (`Errors`): the Go error values. These are opaque foreign errors,
  `errors.Wrap` and `errors.Errorf`.
- `secrets.dfy` (`Secrets`): the secrets directory as data.
  - `SecretsOf` and `LoadEntries` specify the loader.
  - The method `ReadSecrets` (with its loop in `ReadEntries`) is proved against them.
  - Lemmas give the spec its meaning: keys, values, first failure, skipped entries.
- `message_queue.dfy` (`MessageQueue`): the backend kinds, their type names,
  `NewMessageQueue` and the unsupported-type error.
- `startup.dfy` (`Startup`): `strings.TrimSpace` and the method `Start`.

The file system, the control plane and the backend constructors are inputs:

- A secrets directory is given as three outcomes: what `os.Stat` reports, what
  `ioutil.ReadDir` lists, and for each entry what `ioutil.ReadFile` would return.
- The control plane is given as the outcomes of `MakeFissionClient` and `WaitForCRDs`.
- The environment is the three strings `os.Getenv` returns.
- The file system at large is a function from path to secrets directory.
- The backend constructors are one function giving success or an error for a kind, a
  router URL and a configuration.

`ReadSecrets` also returns `readLog`: the listing positions handed to `ReadFile`, in call
order. `Start` also returns the list of steps it took. These two lists are how the model
states what was read and what was attempted.

Behaviour of the code that the model follows:

- Only a "does not exist" result from `os.Stat` stops the loader early. Any other stat
  error falls through to `ioutil.ReadDir` (`StatFailed`), and that call decides.
- Loader errors reach the caller of `Start` verbatim, without extra context. Client and
  CRD-wait errors are wrapped with `errors.Wrap` (`Wrapped`).
- An unsupported message-queue type is fatal, not returned. `newMessageQueue` returns an
  error for it, and `Start` passes every error from `newMessageQueue` to `logger.Fatal`.
- When no secrets path is set, the configuration carries a nil secrets map (`None`). A
  loaded map, even an empty one, is `Some`.
- When a listing repeats a name, the later entry's bytes win, as the map assignment
  `secrets[fileName] = secret` does. A real directory never repeats a name.

## Model

| member | source | states |
|---|---|---|
| `Secrets.ReadSecrets` | cmd/fission-bundle/mqtrigger/mqtrigger.go:97-128 | The result is `SecretsOf(dir)`. No file is read when the path does not exist or cannot be listed. Only non-directory, non-hidden entries are read, each at most once and in listing order. Every read except the last succeeded. On success every secret file was read. On failure the last read is the failing file and no secret file after it is read |
| `Secrets.ReadEntries` | cmd/fission-bundle/mqtrigger/mqtrigger.go:108-127 | The loop over the listing returns `LoadEntries(entries)` and performs exactly the reads described for `ReadSecrets` |
| `Secrets.FailureIsFinal` | cmd/fission-bundle/mqtrigger/mqtrigger.go:118-121 | Once a prefix of the listing has failed, no later entry changes the result |
| `Secrets.LoadFailsOnFirstUnreadable` | cmd/fission-bundle/mqtrigger/mqtrigger.go:117-121 | Loading fails if and only if some secret file cannot be read. The error is that of the first such file in listing order, and a failure carries no map, even when earlier files were read |
| `Secrets.LoadKeysAreSecretNames` | cmd/fission-bundle/mqtrigger/mqtrigger.go:108-125 | On success the map's key set is exactly the set of names of entries that are not directories and do not start with `.` |
| `Secrets.LoadValuesAreContents` | cmd/fission-bundle/mqtrigger/mqtrigger.go:117-123 | On success each secret file's name maps to exactly the bytes read from that file. With a repeated name, the last entry wins |
| `Secrets.SkippedEntryIsIgnored` | cmd/fission-bundle/mqtrigger/mqtrigger.go:111-114 | Inserting a directory or a `.`-prefixed entry anywhere in the listing leaves the result unchanged, whatever reading that entry would give |
| `Secrets.StagingDirectoryIsIgnored` | cmd/fission-bundle/mqtrigger/mqtrigger.go:108-125 | Files `pass` and `user` beside a hidden `.staging` directory load as exactly `{user, pass}` with their bytes |
| `MessageQueue.KindOf` | cmd/fission-bundle/mqtrigger/mqtrigger.go:84-91 | The kind selected by a type string has exactly that string as its type name. A string that selects no kind is the type name of no kind |
| `MessageQueue.KindOfTypeName` | cmd/fission-bundle/mqtrigger/mqtrigger.go:84-90 | Each kind's type name selects that kind, so the three type names are pairwise distinct and the switch has no overlapping cases |
| `MessageQueue.NewMessageQueue` | cmd/fission-bundle/mqtrigger/mqtrigger.go:83-95 | The type is rejected if and only if it equals none of the three type names, and the rejection carries the offending string. Otherwise the constructor of the kind whose name equals the type is the one invoked. It receives the router URL and the configuration unchanged, and its success or error is passed through. The error is nil exactly when a backend was constructed |
| `MessageQueue.DispatchIgnoresUrlAndSecrets` | cmd/fission-bundle/mqtrigger/mqtrigger.go:84-90 | Two configurations with the same type string invoke the same constructor, or are both rejected, whatever their URLs and secrets |
| `MessageQueue.UnsupportedTypeError` | cmd/fission-bundle/mqtrigger/mqtrigger.go:91-92 | The unsupported-type error is a formatted error whose message ends with the offending type string in quotes |
| `Startup.TrimLeftDropsLeadingSpace` | cmd/fission-bundle/mqtrigger/mqtrigger.go:54 | Trimming on the left keeps a suffix of the input and drops only white space. The result does not start with white space |
| `Startup.TrimRightDropsTrailingSpace` | cmd/fission-bundle/mqtrigger/mqtrigger.go:54 | Trimming on the right keeps a prefix of the input and drops only white space. The result does not end with white space |
| `Startup.TrimSpaceEmpty` | cmd/fission-bundle/mqtrigger/mqtrigger.go:54-57 | A secrets path trims to the empty string if and only if it is empty or all white space |
| `Startup.Start` | cmd/fission-bundle/mqtrigger/mqtrigger.go:38-81 | The steps taken are a prefix of the planned order: client, CRD wait, secrets (only for a non-blank trimmed path), backend, run. All steps are taken exactly when the outcome is `Running`. A client failure is returned wrapped after the client step alone. A CRD-wait failure is returned wrapped after the first two steps. Secrets are read if and only if both control-plane steps succeeded and the trimmed path is non-empty, and a loader failure is returned verbatim as the last step. The backend is built from the environment's type and URL and the loaded secrets (nil for a blank path). A construction failure is `Fatal` with that error, and success hands exactly that backend to the manager |
| `Startup.BlankSecretsPathSkipsLoading` | cmd/fission-bundle/mqtrigger/mqtrigger.go:54-63 | For an empty or all-white-space secrets path the file system plays no part: the secrets are nil, whatever the file system holds |

## Left out

- The real I/O is not modelled; each call is an input outcome. This covers
  `crd.MakeFissionClient`, `WaitForCRDs`, `os.Getenv`, `os.Stat`, `ioutil.ReadDir` and
  `ioutil.ReadFile`. Any retry inside the CRD wait belongs to the client and is not modelled.
- `path.Join` is not modelled. A file is identified by its position in the listing, and
  `readLog` records positions, not joined paths.
- The order of `ioutil.ReadDir` (sorted by name) is not modelled. The listing is taken in
  whatever order it is given, and every property holds for every order.
- The backend constructors `nats.New`, `azurequeuestorage.New` and `kafka.New` are not
  modelled. Their source is not part of this model, and only their success or error is
  represented.
- The trigger manager (`MakeMessageQueueTriggerManager` and its blocking `Run`) is one final
  step, and the outcome `Running` carries the backend handed to it. The control-plane
  handle passed beside the backend is not represented. The manager's event loop is not
  modelled, and neither is `Start` returning nil after `Run` returns.
- zap logging is not modelled. That covers the informational line per secret file and
  the text of the fatal log line. The process exit of `logger.Fatal` is the distinct
  outcome `Fatal`.
- The string values of the three type constants live in `pkg/apis/core/v1`, which is not
  part of this model. The model uses Fission's values. Every proof relies only on the
  three being distinct.
- `MessageQueue.UnsupportedTypeError`: models `%q` as plain double quotes. Go's escaping of
  quotes, backslashes and non-printable characters is not modelled, so the "ends with the
  quoted type" property is exact only for types that need no escaping.
- `Startup.TrimSpace` works on Unicode characters. Its white-space set is Unicode's
  White_Space property, the set Go's `unicode.IsSpace` uses. Go trims bytes of a UTF-8
  string, and invalid UTF-8 is not modelled.
- `examples/jvm/java/src/main/java/io/fission/EchoRawBody.java` is a framework one-liner
  with no logic of its own and is not part of this model.
