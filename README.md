# Retrying REST client, modelled in Dafny

The Go package `client` has one real component: `RestClient`. It is a
configurable HTTP client. `Do` retries a single logical request with
exponential backoff.

- `RestClient` holds the method, URL, headers, attempt budget
  (`maxAttempts`), base interval (`intervalSeconds`), backoff multiplier
  (`backoffRate`) and per-attempt timeout. Each `With*` setter assigns one
  field in place and returns the same client. `NewRestClient` returns a
  client with every field at its zero value.
- `call` makes one attempt. It encodes the request as JSON, builds the
  request, sends it and reads the body. Each of those four steps can fail,
  and every failure yields the sentinel status 999
  (`internalStatusRequestError`) with a nil body. A completed exchange yields
  its status and body with a nil error. The headers set with `WithHeader`
  never reach the server: `header` is written (client/rest.go:43) and read
  nowhere, and the request built at client/rest.go:148 carries no headers.
- `Do` runs up to `maxAttempts` attempts. Before each one it sleeps for the
  current wait, which is 0 before the first. It stops at the first status
  below 500. Otherwise it counts a retry and sets the next wait to
  `intervalSeconds * backoffRate^(i+1)`. After the loop, an error from the
  last attempt is returned with status 999 and nothing is decoded. Failing
  that, the last body is decoded; a decode error is also returned with
  status 999. Otherwise the last status is returned.

The model is in `rest.dfy` (module `Client`), with `Option` and `Result` in
`wrappers.dfy`. The network is an oracle: `outcomes[i]` is what attempt `i`
meets. It is one of `call`'s four failure exits (`EncodeFailed`,
`BuildFailed`, `SendFailed`, `ReadFailed`) or `Completed(status, body)`.
`call` is the pure function `Call` on that outcome. JSON decoding is the
function parameter `decode` of `Do`. Sleeping is recorded, not performed.
Besides Go's `(status, err)` and the decoded value, `Do` returns the number
of attempts, the wait requested before each attempt (whole seconds), and
`retries`. `Do` is specified by closed forms:

- `AttemptCount` is `min(maxAttempts, k)`, where `k` is the 1-based index of
  the first settling attempt, or 0 when `maxAttempts <= 0`.
- `WaitBefore` is the truncated `intervalSeconds * backoffRate^i`.
- `CountRetried` is the number of attempts with status >= 500.
- `LastResult` is the last attempt's result.

The Go field `method` is named `httpMethod`, because `method` is a Dafny
keyword.

Two behaviours of the Go code worth stating:

- A `maxAttempts` of 0 or less is accepted. No attempt is made, and the
  empty body is handed to the decoder. `encoding/json` rejects an empty
  body, so Go returns 999 with the decode error.
- When every attempt returns a real 5xx, the error is nil. The last body is
  decoded and, if it decodes, the 5xx status is returned with a nil error.
  There is no "retries exhausted" error.

## Model

| member | source | states |
|---|---|---|
| `Client.Call` | client/rest.go:137-174 | Every one of the four failure exits gives status 999, no body and the error. A completed exchange gives its own status and body with no error. A nil error always comes with a body, and every failure is in the retried range (>= 500). |
| `Client.FirstSettled` | client/rest.go:94-96 | The position of the first attempt whose status is below 500: every attempt before it is retried, and the one at it settles. |
| `Client.TruncateToWholeSeconds` | client/rest.go:89 | The float-to-Duration conversion rounds toward zero: the result is within one second of the wait, on the zero side. |
| `Client.RestClient.Do` | client/rest.go:72-135 | The number of calls is `AttemptCount` (min of budget and first settling position, none for a budget <= 0). Every call but the last was retried, and a run shorter than the budget ended on a settling attempt. One wait is requested per call: 0 first, then `intervalSeconds * backoffRate^i` truncated. `retries` counts the attempts with status >= 500: all calls, or all but the last when the last settled. A last-attempt error gives `(999, err)` whatever the decoder says. A decode failure gives `(999, decodeErr)`. Otherwise the last status is returned with a nil error and the decoded value. So an error always comes with 999. A nil error after at least one call means the last attempt completed and its own status is reported. A reported status below 500 is that of the settling attempt, with a nil error. |
| `Client.RetriesBeforeFirstSettled` | client/rest.go:94-97 | Over a run whose attempts are all retried except possibly the last, the retry count is the run's length, minus one when the last attempt settled. |
| `Client.ExhaustedBudget` | client/rest.go:87-111 | If no attempt within a budget `N >= 0` settles, exactly `N` calls are made and `retries` ends at `N`. |
| `Client.TransportFailuresExhaustBudget` | client/rest.go:87-119 | If every attempt fails in transport (status 999), all `N` attempts are made and retried, and the last attempt's error is what the code after the loop reports. |
| `Client.FirstAttemptSettles` | client/rest.go:87-97 | A first status below 500 means exactly one call and no retry. |
| `Client.SingleAttemptMakesOneCall` | client/rest.go:87 | A budget of one attempt makes exactly one call, whatever the status. |
| `Client.PowAtLeastOne` | client/rest.go:109 | With a backoff rate of at least 1, every power of it is at least 1. |
| `Client.PowMonotone` | client/rest.go:109 | With a backoff rate of at least 1, the backoff factor never shrinks as the attempt index grows. |
| `Client.WaitsNonDecreasing` | client/rest.go:86-109 | With a non-negative interval and a rate of at least 1, requested waits are non-negative and never decrease from one attempt to a later one. |
| `Client.ServerErrorScenario` | client/rest.go:86-134 | Always 503, a budget of 3, interval 1, rate 2: three calls, waits of 0, 2 and 4 seconds, three retries, and the last 503 exchange is what gets decoded. |
| `Client.SuccessScenario` | client/rest_test.go:29-69 | A client configured like the test, against a server answering 200 with `{"message": "success"}`: status 200, no error, that decoded value, one call. |
| `Client.TimeoutScenario` | client/rest_test.go:106-146 | One attempt with a 1 ms timeout that hits its deadline: status 999 and the "context deadline exceeded" error, after one call. |
| `Client.NewRestClient` | client/rest.go:177-179 | Returns a fresh client with every field at its zero value. |
| `Client.RestClient.constructor` | client/rest.go:19-27 | The zero `RestClient`: empty method, URL and headers, and a zero budget, interval, rate and timeout. |
| `Client.RestClient.WithMethod` | client/rest.go:30-33 | Sets only the method and returns the same client. |
| `Client.RestClient.WithURL` | client/rest.go:36-39 | Sets only the URL and returns the same client. |
| `Client.RestClient.WithHeader` | client/rest.go:42-45 | Sets only the header map and returns the same client. |
| `Client.RestClient.WithIntervalSeconds` | client/rest.go:48-51 | Sets only the base interval and returns the same client. |
| `Client.RestClient.WithBackoffRate` | client/rest.go:54-57 | Sets only the backoff rate and returns the same client. |
| `Client.RestClient.WithMaxAttempts` | client/rest.go:60-63 | Sets only the attempt budget and returns the same client. |
| `Client.RestClient.WithTimeout` | client/rest.go:66-69 | Sets only the timeout and returns the same client. |

## Left out

- HTTP itself (`http.Client`, `http.NewRequest`, `client.Do`, `io.ReadAll`, closing the body). It is network I/O and appears only as the `Outcome` oracle.
- The per-attempt timeout wiring (client/rest.go:81-84): a positive `timeout` becomes the HTTP client's timeout, and otherwise none is set. Its only effect is through the outcomes, such as a `SendFailed` deadline error, so it is kept as a field and not modelled further.
- `ctx` is used only for logging. Go never attaches it to the request (client/rest.go:148, 156), so cancellation has no effect on attempts and is not modelled.
- JSON encoding and decoding (`encoding/json`), a foreign library. The request value is not modelled. Encoding failure is an oracle outcome per attempt, although in Go the same request would fail to encode on every attempt. Decoding is the `decode` parameter. The value it yields is returned instead of being written through the caller's pointer, and a partial write on a decode failure is not modelled.
- `Client.RestClient.Do`: the `decode` oracle is free to accept an empty body. `encoding/json` never does, so a budget of 0 or less always gives status 999 in Go. The model states only that the empty body goes to the decoder.
- Structured logging (`slog` calls in `Do` and `call`). It is observability only.
- The blocking of `time.Sleep`. The model records the requested whole seconds instead.
- `Client.RestClient.Do`: waits are modelled in whole seconds. The model does not include the int64 nanosecond product `time.Second * d`, which wraps for waits beyond about 292 years. It also leaves out Go's behaviour for float values outside the int64 range.
- IEEE `float64` arithmetic and `math.Pow`. These are modelled as exact `real` arithmetic with a recursive power, and rounding is not modelled.
- 64-bit integers (`maxAttempts`, `retries`, the loop index, the status). These are unbounded `int`s. The counters never exceed `maxAttempts`, so they cannot wrap.
- Other files: the `Requester` interface and its identity constructor (client/requester.go) carry no logic. The command-line wiring in main.go is not part of this model.
