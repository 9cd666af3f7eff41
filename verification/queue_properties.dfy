/** Properties relating the queue component's defaults, validation and
    endpoint conversion to one another. */
module QueueProperties {
  import opened Wrappers
  import opened Durations
  import Secrets
  import NativeTypes
  import opened QueueTypes

  // -------------------------------------------------------------- defaults

  /** Any number of default endpoint blocks passes validation. */
  lemma DefaultEndpointsValidate(n: nat)
    ensures Validate(DefaultArgs().(endpoints := seq(n, _ => DefaultEndpointConfig()))) == Pass
  {
  }

  // ------------------------------------------------------------ validation

  /** The concrete boundary of the endpoint checks: exactly one second is
      accepted, one nanosecond less is not, and a zero batch count or a
      half-second flush frequency is rejected. */
  lemma ValidationBoundary(e: EndpointConfig)
    requires e.batchCount > 0
    ensures CheckEndpoint(e.(flushFrequency := 1_000_000_000)) == None
    ensures CheckEndpoint(e.(flushFrequency := 999_999_999)) == Some(FlushFrequencyTooShort)
    ensures CheckEndpoint(e.(flushFrequency := 500 * Millisecond)) == Some(FlushFrequencyTooShort)
    ensures CheckEndpoint(e.(batchCount := 0, flushFrequency := 500 * Millisecond)) == Some(BatchCountNotPositive)
  {
  }

  /** Validating a concatenation checks the first part, and the second part
      only when the first part passes. */
  lemma {:induction false} ValidateConcat(xs: seq<EndpointConfig>, ys: seq<EndpointConfig>)
    ensures ValidateEndpoints(xs + ys)
         == if ValidateEndpoints(xs).Fail? then ValidateEndpoints(xs) else ValidateEndpoints(ys)
  {
    if |xs| == 0 {
      assert xs + ys == ys;
    } else {
      assert (xs + ys)[0] == xs[0];
      assert (xs + ys)[1..] == xs[1..] + ys;
      ValidateConcat(xs[1..], ys);
    }
  }

  /** The error reported is exactly the one raised by the first invalid
      endpoint in list order. */
  lemma ValidateReportsFirstInvalid(endpoints: seq<EndpointConfig>, k: int)
    requires FirstInvalidAt(endpoints, k)
    ensures ValidateEndpoints(endpoints) == Fail(CheckEndpoint(endpoints[k]).value)
  {
  }

  // ------------------------------------------------------------ conversion

  /** The inverse of the endpoint conversion: rebuild an endpoint block from
      a connection configuration and a block label. */
  function FromNativeType(c: NativeTypes.ConnectionConfig, name: string): EndpointConfig {
    EndpointConfig(
      name := name,
      url := c.url,
      basicAuth := match c.basicAuth
        case None => None
        case Some(auth) => Some(BasicAuth(auth.username, Secrets.Secret(auth.password))),
      timeout := c.timeout,
      retryBackoff := c.retryBackoff,
      maxRetryBackoffAttempts := c.maxRetryBackoffAttempts,
      batchCount := c.batchCount,
      flushFrequency := c.flushFrequency,
      queueCount := c.connections,
      externalLabels := c.externalLabels
    )
  }

  /** The conversion loses nothing but the block label. */
  lemma ToNativeTypeRoundTrip(e: EndpointConfig, userAgent: string)
    ensures FromNativeType(ToNativeType(e, userAgent), e.name) == e
  {
  }

  /** Every connection configuration carrying the agent's user agent is the
      conversion of some endpoint block. */
  lemma ToNativeTypeOnto(c: NativeTypes.ConnectionConfig, name: string)
    ensures ToNativeType(FromNativeType(c, name), c.userAgent) == c
  {
  }

  /** Two blocks convert to the same connection configuration exactly when
      they differ at most in their label. */
  lemma ToNativeTypeInjectiveUpToName(e: EndpointConfig, f: EndpointConfig, userAgent: string)
    ensures ToNativeType(e, userAgent) == ToNativeType(f, userAgent) <==> e.(name := f.name) == f
  {
  }

  /** Connection settings the engine can run with: those of a valid
      endpoint block, whatever its label. */
  predicate ConnectionAcceptable(c: NativeTypes.ConnectionConfig) {
    EndpointValid(FromNativeType(c, ""))
  }

  /** Validated arguments convert to acceptable connection configurations,
      and an endpoint list whose conversions are all acceptable validates. */
  lemma ValidateMatchesConvertedConnections(a: Arguments, userAgent: string)
    ensures Validate(a) == Pass
        <==> forall i :: 0 <= i < |a.endpoints| ==> ConnectionAcceptable(ToNativeType(a.endpoints[i], userAgent))
  {
  }
}
