# Remote-write queue configuration, modelled in Dafny

This project models the configuration layer of Alloy's `prometheus.remote.queue`
component: the arguments a user writes (a TTL, serialization settings for the
file queue, and one or more `endpoint` blocks), their defaults, the validation
run before the component starts, and the conversion of each endpoint block into
the connection configuration consumed by the remote-write engine.

Modules:

- `Wrappers`: `Option` (for Go's nil pointers) and `Outcome` (for a nil-or-not `error`).
- `Durations`: `time.Duration` as an integer count of nanoseconds, with Go's unit
  constants (`Second` = 1 000 000 000).
- `Secrets`: the configuration language's secret string as a distinct wrapper type;
  `Reveal` is the Go conversion `string(secret)`.
- `NativeTypes`: the engine's `ConnectionConfig` and `BasicAuth`, limited to the
  fields the conversion writes (the `types` package is not part of this model).
- `QueueTypes`: the argument records, the defaults, `Validate` and `ToNativeType`.
- `QueueProperties`: lemmas tying these together: the order in which validation
  reports errors, the exact accept/reject boundary, and round trips through the
  conversion.

Representation choices: Go `uint` fields are `nat`; Go `int` fields
(`BatchCount`, `MaxSignalsToBatch`) stay `int`, so negative values can be
expressed, and validation rejects a negative `BatchCount`; `*BasicAuth` is `Option<BasicAuth>`;
`ExternalLabels` is a `map<string, string>`. No configured value takes part in
arithmetic, so the 64-bit width of Go's integers plays no role. The process-wide
`UserAgent` string is a parameter of `ToNativeType`.

## Model

| member | source | states |
|---|---|---|
| QueueTypes.DefaultArgs | internal/component/prometheus/remote/queue/types.go:13-21 | the default TTL is 2 hours (7.2e12 ns), batches hold 10 000 signals or are written every 5 s, there are no endpoints, and the default arguments pass validation |
| QueueTypes.SetToDefault | internal/component/prometheus/remote/queue/types.go:41-44 | resetting the arguments yields the default arguments whatever the previous value; they have no endpoints and pass validation |
| QueueTypes.DefaultEndpointConfig | internal/component/prometheus/remote/queue/types.go:46-55 | endpoint defaults: 30 s write timeout, 1 s retry backoff, unlimited (0) retry attempts, batch count 1000, 1 s flush frequency, 4 queues; label, URL, credentials and external labels empty; the default endpoint passes the endpoint checks |
| QueueTypes.SetEndpointToDefault | internal/component/prometheus/remote/queue/types.go:57-59 | resetting an endpoint block yields the default endpoint whatever the previous value, and that endpoint is valid |
| QueueTypes.CheckEndpoint | internal/component/prometheus/remote/queue/types.go:63-68 | an endpoint passes iff batch count > 0 and flush frequency >= 1 s; a non-positive batch count reports the batch_count error even when the flush frequency is also too short; the flush_frequency error is reported iff the batch count is positive and the frequency is under 1 s |
| QueueTypes.ValidateEndpoints | internal/component/prometheus/remote/queue/types.go:61-72 | the endpoint list passes iff every endpoint is valid (so the empty list passes); on failure the error is the one raised by the first invalid endpoint in list order |
| QueueTypes.Validate | internal/component/prometheus/remote/queue/types.go:61-72 | the arguments validate iff every endpoint block is valid; TTL and serialization settings are not checked; a failure carries the first invalid endpoint's error |
| QueueTypes.ValidationError.Message | internal/component/prometheus/remote/queue/types.go:64-67 | the error text is the batch_count message exactly for the batch-count rejection and the flush_frequency message exactly for the flush-frequency rejection, so the text tells a caller which check failed |
| QueueTypes.ToNativeBasicAuth | internal/component/prometheus/remote/queue/types.go:107-113 | absent credentials stay absent; present ones keep the username and carry the secret's underlying text as a plain password |
| QueueTypes.ToNativeType | internal/component/prometheus/remote/queue/types.go:95-114 | URL, timeout, retry backoff, retry attempts, batch count, flush frequency and external labels are copied unchanged; the queue count becomes the connection count; the user agent is the process-wide one; credentials map as in ToNativeBasicAuth |
| Secrets.Secret.Reveal | internal/component/prometheus/remote/queue/types.go:110 | revealing a secret gives back exactly the text it wraps |
| QueueProperties.DefaultEndpointsValidate | internal/component/prometheus/remote/queue/types.go:46-72 | any number of default endpoint blocks passes validation |
| QueueProperties.ValidationBoundary | internal/component/prometheus/remote/queue/types.go:63-68 | a flush frequency of exactly 1 s is accepted and 1 s minus 1 ns or 500 ms is rejected; batch count 0 is rejected with the batch_count error |
| QueueProperties.ValidateConcat | internal/component/prometheus/remote/queue/types.go:62-71 | validating `xs + ys` gives the result for `xs` when it fails and the result for `ys` otherwise: the loop returns on the first error |
| QueueProperties.ValidateReportsFirstInvalid | internal/component/prometheus/remote/queue/types.go:62-68 | if index k is the first invalid endpoint, validation fails with exactly that endpoint's error |
| QueueProperties.ToNativeTypeRoundTrip | internal/component/prometheus/remote/queue/types.go:95-114 | rebuilding an endpoint from its connection configuration and its label gives the original block: only the label is lost |
| QueueProperties.ToNativeTypeOnto | internal/component/prometheus/remote/queue/types.go:95-114 | every modelled connection configuration (the fields the conversion writes) is the conversion of some endpoint block under its own user agent |
| QueueProperties.ToNativeTypeInjectiveUpToName | internal/component/prometheus/remote/queue/types.go:95-114 | two blocks convert to the same connection configuration iff they differ at most in their label |
| QueueProperties.ValidateMatchesConvertedConnections | internal/component/prometheus/remote/queue/types.go:61-106 | arguments validate iff every converted connection is acceptable, i.e. would rebuild into a valid endpoint block (positive batch count, flush frequency of at least 1 s) |

## Left out

- Struct-tag driven decoding of the configuration (`alloy:"..."` tags), including which attributes are required: it lives in the configuration library. In particular the URL is not checked by `Validate`.
- The formatting of the user agent from the build's version string (`version.Version`): a foreign global, taken as the `userAgent` parameter.
- The redaction behaviour of the secret type when printed or logged: it lives in the configuration library; only the explicit conversion to text is modelled.
- `Exports.Receiver`: an ingestion interface with no logic in this file.
- The nil-versus-empty distinction of Go maps and slices: an absent endpoint list or label map is modelled as the empty one.
- The remote-write engine itself (batching, the on-disk queue, TTL filtering, sharding, retries and backoff, HTTP delivery): it is not part of this model.
- `ToNativeType`: Go shares the `ExternalLabels` map between the block and the connection config; maps are modelled as immutable values, so this aliasing is not represented.
- The exact error values: Go wraps the messages with `fmt.Errorf`; the model returns a `ValidationError` whose `Message` gives the same text.
