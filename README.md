# MSSQL connector test harness: credential handling and request data flow

This project models the core of the MSSQL (TDS) connector test harness of the
Secretless broker, `test/connector/tcp/mssql/mssql_client_request.go`. The
harness runs a database client against a short-lived in-process proxy service
that injects credentials. It can also aim that proxy at a mock target that
captures the handshake. The model covers the parts of the harness that are
not network or concurrency plumbing:

- `cloneCredentials`: the deep copy of a credential map (`map[string][]byte`).
  Every value is copied into a freshly allocated buffer, so a consumer that
  zeroes one map's buffers never changes the other's.
- The "gather credentials" merge of `proxyToCreatedMock` and `proxyToMock`.
  It sets `host` and `port` to the mock's address and then assigns every
  caller entry over them. Caller entries win, including a caller's own `host`
  or `port`. Caller buffers are shared with the merged map, not copied.
- `proxyRequest`: the `dbClientConfig` it hands to the client and the
  `(out, port, err)` triple it returns, including the early `("", "", err)`
  return when the proxy service cannot be built.
- The data flow of `proxyToCreatedMock` and `proxyToMock`: the mock's capture
  and error come back, together with the proxy's port. The client's own
  output and error are discarded.

Modules, one per concern:

- `GoBuiltins` (`go_builtins.dfy`) holds the Go built-ins the core relies on.
  `Utf8Encode` is the conversion `[]byte(s)`; a Go string holds the UTF-8
  bytes of its text. `CopyBytes` is the built-in `copy`. The model writes Go
  strings as Dafny text, so the conversion has to produce the UTF-8 bytes;
  `EncodeRune` and its helpers `Lead`, `Continuation`, `EncodeTwo`,
  `EncodeThree` and `EncodeFour` are scaffolding for that choice, not logic
  of the harness.
- `Credentials` (`credentials.dfy`) holds credential maps as
  `map<string, array<byte>>`, their byte contents, the clone, the merge and a
  zeroizing consumer.
- `MssqlClientRequest` (`client_request.dfy`) holds the request record
  `ClientRequest` (the `clientRequest` struct of lines 28-32: database,
  read-only intent and query, no credentials), the client configuration and
  the three entry points. `MockCredentials` is the byte map the proxy
  receives from the merge of lines 109-115 and 138-144: `MergedCredentials`
  applied to the bytes of the mock's host and port and of the caller's
  buffers.

The proxy constructor (`newInProcessProxyService`) and the client executor
(`concurrentClientExec` followed by the receive of its one result) are
function parameters. The proxy constructor sees the bytes of the credential
map it is given. The value the mock publishes on its capture channel, and the
outcome of `newMockTarget("0")`, are parameters too.

The code of the merge (lines 109-115 and 138-144) assigns the mock's address first and the caller's
entries after it, so a caller-supplied `host` or `port` wins. The model
mirrors the code, and `MergedCredentials` states that precedence.

## Model

| member | source | states |
|---|---|---|
| `GoBuiltins.Utf8Encode` | test/connector/tcp/mssql/mssql_client_request.go:110-111 | `[]byte(s)` yields between one and four bytes per character, and none exactly for the empty string |
| `GoBuiltins.AsciiEncodesBytewise` | test/connector/tcp/mssql/mssql_client_request.go:139-140 | an ASCII host or port string converts to exactly one byte per character, each equal to that character's code |
| `GoBuiltins.CopyBytes` | test/connector/tcp/mssql/mssql_client_request.go:43 | `copy(dst, src)` copies `min(len(dst), len(src))` bytes, returns that count and leaves the rest of `dst` unchanged, even when `dst` and `src` are the same buffer |
| `Credentials.CloneCredentials` | test/connector/tcp/mssql/mssql_client_request.go:37-50 | the clone has exactly the original's names; every value is a freshly allocated buffer of the same length holding the same bytes; no two names of the clone share a buffer, and no clone buffer is an original buffer (so an empty map clones to an empty map and an empty value to a fresh empty buffer) |
| `Credentials.Zeroize` | test/connector/tcp/mssql/mssql_client_request.go:36 | the zeroizing consumer the clone guards against: afterwards every buffer of the map it was given is all zeros, and it writes nothing else |
| `Credentials.ZeroizedCloneKeepsOriginal` | test/connector/tcp/mssql/mssql_client_request.go:34-36 | cloning and then zeroing the clone leaves every byte of the original as it was |
| `Credentials.ZeroizedOriginalKeepsClone` | test/connector/tcp/mssql/mssql_client_request.go:34-35 | cloning and then zeroing the original leaves the clone holding the original's former bytes (the reverse direction of independence) |
| `Credentials.Overlay` | test/connector/tcp/mssql/mssql_client_request.go:142-144 | assigning every entry of one map into another yields the names of both, the assigned value wherever one was assigned, and the base value elsewhere |
| `Credentials.PutAll` | test/connector/tcp/mssql/mssql_client_request.go:113-115 | the `for key, value := range credentials` loop, taking keys in any order, ends with exactly that overlay |
| `Credentials.MergedCredentials` | test/connector/tcp/mssql/mssql_client_request.go:109-115 | the merged names are the caller's names plus `host` and `port`; every caller entry, `host` and `port` included, keeps the caller's value; `host`/`port` hold the mock's address only where the caller has none |
| `Credentials.GatherCredentials` | test/connector/tcp/mssql/mssql_client_request.go:138-144 | the merge over real buffers: the caller's names plus `host` and `port`, caller buffers shared by reference, fresh buffers for the mock's `host`/`port` when the caller has none, and byte contents equal to the merge of the mock address's bytes with the caller's bytes |
| `MssqlClientRequest.ClientConfig` | test/connector/tcp/mssql/mssql_client_request.go:74-81 | the client dials the proxy service's host and port, sends only the placeholder user name and password `"dummy"`, and takes database and read-only intent from the request |
| `MssqlClientRequest.ProxyRequest` | test/connector/tcp/mssql/mssql_client_request.go:56-87 | a failed proxy construction returns `("", "", err)` without running the client; otherwise the client's output and error come back with the proxy's own port; a nil error implies the proxy was built |
| `MssqlClientRequest.AimedAtMock` | test/connector/tcp/mssql/mssql_client_request.go:109-111 | when the caller supplies neither `host` nor `port`, the proxy's `host` and `port` credentials are the mock's ASCII address byte for byte |
| `MssqlClientRequest.ProxyToMock` | test/connector/tcp/mssql/mssql_client_request.go:132-159 | assuming the mock delivers its one result, the capture and error are the mock's and the port is the port of the proxy built from the merged credentials, or empty if it could not be built; the client's output does not affect the result |
| `MssqlClientRequest.ProxyToCreatedMock` | test/connector/tcp/mssql/mssql_client_request.go:97-130 | a failed mock creation returns `(nil, "", err)`; otherwise the result is as for `ProxyToMock`, from the same merged credentials, on the created mock |

## Left out

- `ephemeralListenerOnPort` (lines 9-22): binding a TCP listener is network I/O. Its deadline code is commented out in the source.
- The proxy service lifecycle (`Start`, the deferred `Stop`, lines 66-69) and the mock's `close` (line 106): these are resource management of external components. No value in the results depends on them.
- `concurrentClientExec`, `mockTarget.accept` and the channel receives (lines 72-85, 118, 127, 147, 156): these are goroutines and rendezvous. The executor is modelled as a function that returns the single client result. The mock's single published value is a parameter.
- `newMockTarget` and `mockTargetCapture`: these are network I/O and TDS wire capture. Creating a mock is a `Result` parameter, and a capture is an opaque byte record.
- The retry behaviour of some MSSQL drivers noted at lines 94-96: this is driver behaviour, not harness logic.
- `MssqlClientRequest.ProxyRequest`: the proxy constructor is a function of the bytes the credential buffers hold when it is called. It does not model a proxy service that keeps the buffers and zeroes them later; `Credentials.Zeroize` and the two isolation methods model that consumer separately.
- `MssqlClientRequest.ProxyToMock`: the value the mock publishes on its capture channel is assumed to arrive. In the source it may never arrive when the proxy cannot be built (the early return at lines 61-64 runs no client) or when a caller-supplied `host`/`port` aims the proxy away from the mock (lines 142-144). No connection then reaches the mock, and the receive at line 156 blocks unless the mock's `accept` fails by itself (the listener deadline at lines 16-19 is commented out), so the call may wait forever. The results the model gives on those paths, such as the empty port, are what the source returns only if the mock does deliver.
- `MssqlClientRequest.ProxyToCreatedMock`: the same assumption, on the same two paths (lines 61-64, 113-115): the receive at line 127 may block forever, and the deferred `close` at line 106 runs only after that receive, so it cannot end the wait.
- `GoBuiltins.Utf8Encode`: Go strings can hold any bytes, but the model's strings are Unicode text. A host or port string that is not valid UTF-8 is not modelled.
