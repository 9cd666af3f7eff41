/** The internal connection configuration consumed by the remote-write
    engine (the `types` package). Only the fields that the endpoint
    conversion writes are modelled. */
module NativeTypes {
  import opened Wrappers
  import opened Durations

  /** Credentials as the engine sees them: the password is a plain string. */
  datatype BasicAuth = BasicAuth(username: string, password: string)

  datatype ConnectionConfig = ConnectionConfig(
    url: string,
    basicAuth: Option<BasicAuth>,
    userAgent: string,
    timeout: Duration,
    retryBackoff: Duration,
    maxRetryBackoffAttempts: nat,
    batchCount: int,
    flushFrequency: Duration,
    externalLabels: map<string, string>,
    connections: nat
  )
}
