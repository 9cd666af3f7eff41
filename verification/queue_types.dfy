/** The arguments of the durable remote-write queue component: their
    defaults, their validation, and the conversion of one endpoint block
    into the engine's connection configuration. */
module QueueTypes {
  import opened Wrappers
  import opened Durations
  import Secrets
  import NativeTypes

  /** How samples are grouped before they are written to the file queue. */
  datatype Serialization = Serialization(
    maxSignalsToBatch: int,      // batch size that triggers a write
    batchFrequency: Duration     // write anyway after this long
  )

  datatype Arguments = Arguments(
    ttl: Duration,               // how old a series may be
    serialization: Serialization,
    endpoints: seq<EndpointConfig>
  )

  datatype BasicAuth = BasicAuth(username: string, password: Secrets.Secret)

  /** One `endpoint` block; `name` is the block label. */
  datatype EndpointConfig = EndpointConfig(
    name: string,
    url: string,
    basicAuth: Option<BasicAuth>,
    timeout: Duration,
    retryBackoff: Duration,
    maxRetryBackoffAttempts: nat,
    batchCount: int,
    flushFrequency: Duration,
    queueCount: nat,
    externalLabels: map<string, string>
  )

  /** The two ways an endpoint block can be rejected. */
  datatype ValidationError = BatchCountNotPositive | FlushFrequencyTooShort {

    /** The error text the component reports. */
    function Message(): (m: string)
      ensures BatchCountNotPositive? <==> m == "batch_count must be greater than 0"
      ensures FlushFrequencyTooShort? <==>
        m == "flush_frequency must be greater or equal to 1s, the internal timers resolution is 1s"
    {
      match this
      case BatchCountNotPositive => "batch_count must be greater than 0"
      case FlushFrequencyTooShort =>
        "flush_frequency must be greater or equal to 1s, the internal timers resolution is 1s"
    }
  }

  // ---------------------------------------------------------------- defaults

  /** Top-level defaults: a two-hour TTL, batches of ten thousand signals or
      every five seconds, and no endpoints. */
  function DefaultArgs(): (a: Arguments)
    ensures a.ttl == 7_200_000_000_000
    ensures a.serialization.maxSignalsToBatch == 10_000
    ensures a.serialization.batchFrequency == 5_000_000_000
    ensures a.endpoints == []
    ensures Validate(a) == Pass
  {
    Arguments(
      ttl := 2 * Hour,
      serialization := Serialization(maxSignalsToBatch := 10_000, batchFrequency := 5 * Second),
      endpoints := []
    )
  }

  /** `Arguments.SetToDefault`: the receiver is overwritten as a whole, so the
      result is the default whatever the previous value was. */
  function SetToDefault(previous: Arguments): (a: Arguments)
    ensures a == DefaultArgs()
    ensures a.endpoints == [] && Validate(a) == Pass
  {
    DefaultArgs()
  }

  /** Per-endpoint defaults; the identifying fields stay empty. */
  function DefaultEndpointConfig(): (e: EndpointConfig)
    ensures e.timeout == 30_000_000_000
    ensures e.retryBackoff == 1_000_000_000
    ensures e.maxRetryBackoffAttempts == 0
    ensures e.batchCount == 1000
    ensures e.flushFrequency == 1_000_000_000
    ensures e.queueCount == 4
    ensures e.name == "" && e.url == "" && e.basicAuth == None && e.externalLabels == map[]
    ensures CheckEndpoint(e) == None
  {
    EndpointConfig(
      name := "",
      url := "",
      basicAuth := None,
      timeout := 30 * Second,
      retryBackoff := 1 * Second,
      maxRetryBackoffAttempts := 0,
      batchCount := 1_000,
      flushFrequency := 1 * Second,
      queueCount := 4,
      externalLabels := map[]
    )
  }

  /** `EndpointConfig.SetToDefault`: the whole block is replaced. */
  function SetEndpointToDefault(previous: EndpointConfig): (e: EndpointConfig)
    ensures e == DefaultEndpointConfig()
    ensures EndpointValid(e)
  {
    DefaultEndpointConfig()
  }

  // -------------------------------------------------------------- validation

  /** What an acceptable endpoint block is: a positive batch count and a
      flush frequency no finer than the one-second timer resolution. */
  predicate EndpointValid(e: EndpointConfig) {
    e.batchCount > 0 && e.flushFrequency >= 1_000_000_000
  }

  /** Index `k` holds the first endpoint in list order that is not valid. */
  ghost predicate FirstInvalidAt(endpoints: seq<EndpointConfig>, k: int) {
    && 0 <= k < |endpoints|
    && !EndpointValid(endpoints[k])
    && forall j :: 0 <= j < k ==> EndpointValid(endpoints[j])
  }

  /** The two checks the loop body makes on one endpoint, in order: the
      batch-count check is made first, so it wins when both fail. */
  function CheckEndpoint(e: EndpointConfig): (r: Option<ValidationError>)
    ensures r == None <==> EndpointValid(e)
    ensures r == Some(BatchCountNotPositive) <==> e.batchCount <= 0
    ensures r == Some(FlushFrequencyTooShort) <==> e.batchCount > 0 && e.flushFrequency < 1_000_000_000
  {
    if e.batchCount <= 0 then Some(BatchCountNotPositive)
    else if e.flushFrequency < 1 * Second then Some(FlushFrequencyTooShort)
    else None
  }

  /** The validation loop over the endpoint list: it stops at the first
      rejected endpoint and reports that endpoint's error. */
  function ValidateEndpoints(endpoints: seq<EndpointConfig>): (r: Outcome<ValidationError>)
    ensures r == Pass <==> forall i :: 0 <= i < |endpoints| ==> EndpointValid(endpoints[i])
    ensures r.Fail? ==> exists k :: FirstInvalidAt(endpoints, k) && CheckEndpoint(endpoints[k]) == Some(r.error)
  {
    if |endpoints| == 0 then Pass
    else
      match CheckEndpoint(endpoints[0])
      case Some(err) =>
        assert FirstInvalidAt(endpoints, 0);
        Fail(err)
      case None =>
        var rest := ValidateEndpoints(endpoints[1..]);
        if rest.Fail? then
          assert exists k :: FirstInvalidAt(endpoints, k) && CheckEndpoint(endpoints[k]) == Some(rest.error) by {
            var k :| FirstInvalidAt(endpoints[1..], k) && CheckEndpoint(endpoints[1..][k]) == Some(rest.error);
            assert FirstInvalidAt(endpoints, k + 1);
          }
          rest
        else
          assert forall i :: 1 <= i < |endpoints| ==> endpoints[i] == endpoints[1..][i - 1];
          rest
  }

  /** `Arguments.Validate`: only the endpoint blocks are checked. */
  function Validate(a: Arguments): (r: Outcome<ValidationError>)
    ensures r == Pass <==> forall i :: 0 <= i < |a.endpoints| ==> EndpointValid(a.endpoints[i])
    ensures r.Fail? ==> exists k :: FirstInvalidAt(a.endpoints, k) && CheckEndpoint(a.endpoints[k]) == Some(r.error)
  {
    ValidateEndpoints(a.endpoints)
  }

  // -------------------------------------------------------------- conversion

  /** The optional credentials block, with the secret password revealed. */
  function ToNativeBasicAuth(b: Option<BasicAuth>): (r: Option<NativeTypes.BasicAuth>)
    ensures r.None? <==> b.None?
    ensures r.Some? ==> r.value.username == b.value.username
    ensures r.Some? ==> Secrets.Secret(r.value.password) == b.value.password
  {
    match b
    case None => None
    case Some(auth) => Some(NativeTypes.BasicAuth(auth.username, auth.password.Reveal()))
  }

  /** `EndpointConfig.ToNativeType`. The process-wide user agent is passed in
      as `userAgent`; the block label `name` is not carried over. */
  function ToNativeType(e: EndpointConfig, userAgent: string): (c: NativeTypes.ConnectionConfig)
    ensures c.url == e.url && c.userAgent == userAgent
    ensures c.timeout == e.timeout && c.retryBackoff == e.retryBackoff
    ensures c.maxRetryBackoffAttempts == e.maxRetryBackoffAttempts
    ensures c.batchCount == e.batchCount && c.flushFrequency == e.flushFrequency
    ensures c.externalLabels == e.externalLabels
    ensures c.connections == e.queueCount
    ensures c.basicAuth.Some? <==> e.basicAuth.Some?
    ensures c.basicAuth.Some? ==>
      c.basicAuth.value.username == e.basicAuth.value.username
      && Secrets.Secret(c.basicAuth.value.password) == e.basicAuth.value.password
  {
    NativeTypes.ConnectionConfig(
      url := e.url,
      basicAuth := ToNativeBasicAuth(e.basicAuth),
      userAgent := userAgent,
      timeout := e.timeout,
      retryBackoff := e.retryBackoff,
      maxRetryBackoffAttempts := e.maxRetryBackoffAttempts,
      batchCount := e.batchCount,
      flushFrequency := e.flushFrequency,
      externalLabels := e.externalLabels,
      connections := e.queueCount
    )
  }
}
