/**
 * The original mutual-TLS client (`ApiClient`, src/index.ts). It holds a private key,
 * a client certificate and a CA bundle, resolves the missing ones lazily from the
 * secret store and the parameter store, and sends POST or GET requests through a TLS
 * agent built from them. Every transport error is turned into one of two Dutch messages.
 */
module LegacyClient {
  import opened Wrappers
  import opened Common

  const CLIENT_CERT_NAME_VAR := "MTLS_CLIENT_CERT_NAME"
  const ROOT_CA_NAME_VAR := "MTLS_ROOT_CA_NAME"
  const PRIVATE_KEY_ARN_VAR := "MTLS_PRIVATE_KEY_ARN"
  const DEFAULT_TIMEOUT := 2000
  const CONNECTION_ABORTED := "ECONNABORTED"

  /** The credential fields of an `ApiClient`, as a value. */
  datatype ApiClientFields = ApiClientFields(
    privatekey: Option<string>,
    certname: Option<string>,
    caname: Option<string>,
    cert: Option<string>,
    ca: Option<string>)

  /** What an operation that may throw leaves behind: the new fields and its result or error. */
  datatype Fetched<T> = Fetched(state: ApiClientFields, result: Result<T, Failure>)

  /** Either both parameter names are set or both certificate and CA are given. */
  predicate CertSourcesGiven(s: ApiClientFields) {
    (Filled(s.certname) && Filled(s.caname)) || (Filled(s.cert) && Filled(s.ca))
  }

  /** The secret-store id of the private key, read from the environment. */
  function PrivateKeyArn(ctx: Context): Option<string> {
    Lookup(ctx.env, PRIVATE_KEY_ARN_VAR)
  }

  /**
   * `getPrivateKey()`: a key already held is returned without any lookup. Otherwise the
   * id must be in the environment, the fetched secret becomes the key field, and an
   * absent or empty secret is an error raised after that assignment.
   */
  function GetPrivateKeyFields(s: ApiClientFields, ctx: Context): (o: Fetched<string>)
    ensures o.state == s.(privatekey := o.state.privatekey)
    ensures Filled(s.privatekey) ==> o == Fetched(s, Success(s.privatekey.value))
    ensures !Filled(s.privatekey) && !Filled(PrivateKeyArn(ctx)) ==> o == Fetched(s, Failure(NoSecretArn))
    ensures !Filled(s.privatekey) && Filled(PrivateKeyArn(ctx)) ==>
              o.state.privatekey == Lookup(ctx.secrets, PrivateKeyArn(ctx).value) &&
              (o.result.Failure? ==> o.result.error == NoSecretValue)
    ensures o.result.Success? <==>
              Filled(s.privatekey) || (Filled(PrivateKeyArn(ctx)) && Filled(Lookup(ctx.secrets, PrivateKeyArn(ctx).value)))
    ensures o.result.Success? ==> o.state.privatekey == Some(o.result.value) && o.result.value != ""
  {
    if Filled(s.privatekey) then
      Fetched(s, Success(s.privatekey.value))
    else if !Filled(PrivateKeyArn(ctx)) then
      Fetched(s, Failure(NoSecretArn))
    else
      var fetched := s.(privatekey := Lookup(ctx.secrets, PrivateKeyArn(ctx).value));
      if Filled(fetched.privatekey) then Fetched(fetched, Success(fetched.privatekey.value))
      else Fetched(fetched, Failure(NoSecretValue))
  }

  /**
   * `init()`: refuse when neither source of certificate and CA is available, then
   * resolve the private key, and, when both parameter names are set, fetch whichever
   * of certificate and CA is still unset.
   */
  function InitFields(s: ApiClientFields, ctx: Context): (o: InitOutcome<ApiClientFields>)
    ensures o.state.certname == s.certname && o.state.caname == s.caname
    ensures !CertSourcesGiven(s) ==> o == InitOutcome(s, Some(MissingCertificateSources))
    ensures o.failure.None? <==> CertSourcesGiven(s) && GetPrivateKeyFields(s, ctx).result.Success?
    ensures o.failure.Some? ==> o.state.cert == s.cert && o.state.ca == s.ca
    ensures o.failure.None? ==> Filled(o.state.privatekey)
    ensures o.failure.None? ==> o.state.privatekey == Some(GetPrivateKeyFields(s, ctx).result.value)
    ensures CertSourcesGiven(s) && GetPrivateKeyFields(s, ctx).result.Failure? ==>
              o == InitOutcome(GetPrivateKeyFields(s, ctx).state, Some(GetPrivateKeyFields(s, ctx).result.error))
    ensures Filled(s.cert) ==> o.state.cert == s.cert
    ensures Filled(s.ca) ==> o.state.ca == s.ca
    ensures !(Filled(s.certname) && Filled(s.caname)) ==> o.state.cert == s.cert && o.state.ca == s.ca
    ensures o.failure.None? && Filled(s.certname) && Filled(s.caname) && !Filled(s.cert) ==>
              o.state.cert == Lookup(ctx.parameters, s.certname.value)
    ensures o.failure.None? && Filled(s.certname) && Filled(s.caname) && !Filled(s.ca) ==>
              o.state.ca == Lookup(ctx.parameters, s.caname.value)
  {
    if !CertSourcesGiven(s) then
      InitOutcome(s, Some(MissingCertificateSources))
    else
      var key := GetPrivateKeyFields(s, ctx);
      if key.result.Failure? then
        InitOutcome(key.state, Some(key.result.error))
      else
        var keyed := key.state.(privatekey := Some(key.result.value));
        if Filled(s.certname) && Filled(s.caname) then
          var cert := if Filled(s.cert) then s.cert else Lookup(ctx.parameters, s.certname.value);
          var ca := if Filled(s.ca) then s.ca else Lookup(ctx.parameters, s.caname.value);
          InitOutcome(keyed.(cert := cert, ca := ca), None)
        else
          InitOutcome(keyed, None)
  }

  /**
   * `setupAgent()`: run `init` only when certificate or CA is missing, refuse when
   * they are still missing afterwards, and build the agent from certificate, key and CA.
   */
  function SetupAgentFields(s: ApiClientFields, ctx: Context): (o: Fetched<TlsAgent>)
    ensures o.result.Success? ==>
              Filled(o.state.cert) && Filled(o.state.ca) && Filled(o.state.privatekey) &&
              o.result.value == TlsAgent(o.state.cert.value, o.state.privatekey.value, o.state.ca.value)
    ensures Filled(s.cert) && Filled(s.ca) ==>
              var key := GetPrivateKeyFields(s, ctx);
              o.state == key.state && (o.result.Success? <==> key.result.Success?) &&
              (key.result.Failure? ==> o.result == Failure(key.result.error))
    ensures !(Filled(s.cert) && Filled(s.ca)) && InitFields(s, ctx).failure.Some? ==>
              o == Fetched(InitFields(s, ctx).state, Failure(InitFields(s, ctx).failure.value))
    ensures !(Filled(s.cert) && Filled(s.ca)) && InitFields(s, ctx).failure.None? ==>
              var t := InitFields(s, ctx).state;
              if Filled(t.cert) && Filled(t.ca) then o.state == t && o.result.Success?
              else o == Fetched(t, Failure(CertOrCaMissing))
  {
    var prepared := if !Filled(s.cert) || !Filled(s.ca) then InitFields(s, ctx) else InitOutcome(s, None);
    var t := prepared.state;
    if prepared.failure.Some? then
      Fetched(t, Failure(prepared.failure.value))
    else if !Filled(t.cert) || !Filled(t.ca) then
      Fetched(t, Failure(CertOrCaMissing))
    else
      var key := GetPrivateKeyFields(t, ctx);
      if key.result.Failure? then Fetched(key.state, Failure(key.result.error))
      else Fetched(key.state, Success(TlsAgent(t.cert.value, key.result.value, t.ca.value)))
  }

  /**
   * `handleErrors(error)`: it always throws. Only an axios error without a response
   * whose code is `ECONNABORTED` is reported as too slow; everything else, a response
   * carrying that code included, is reported as a failed fetch.
   */
  function HandleErrors(error: TransportError): (f: Failure)
    ensures f == FetchTooSlow <==>
              error.AxiosError? && !error.hasResponse && error.code == Some(CONNECTION_ABORTED)
    ensures f != FetchTooSlow ==> f == FetchFailed
  {
    if error.AxiosError? then
      if error.hasResponse then FetchFailed
      else if error.code == Some(CONNECTION_ABORTED) then FetchTooSlow
      else FetchFailed
    else
      FetchFailed
  }

  /** The HTTP method of a call, with the body a POST carries. */
  datatype Verb = Post(body: Payload) | Get

  /** One call handed to the axios instance. */
  datatype LegacyCall = LegacyCall(verb: Verb, endpoint: string, config: RequestConfig)

  /** `{ httpsAgent, headers, timeout }`: the options of every call. */
  function CallConfig(agent: TlsAgent, headers: ConfigValue, timeout: int): (c: RequestConfig)
    ensures c.Keys == {HTTPS_AGENT, HEADERS, TIMEOUT}
    ensures c[HTTPS_AGENT] == Agent(agent) && c[HEADERS] == headers && c[TIMEOUT] == Number(timeout)
  {
    map[HTTPS_AGENT := Agent(agent), HEADERS := headers, TIMEOUT := Number(timeout)]
  }

  /**
   * `postData` and `getData`: set up the agent, send one call carrying it, the caller's
   * headers and the current timeout, and return the response body or the classified error.
   */
  function Exchange(s: ApiClientFields, ctx: Context, timeout: int, verb: Verb, endpoint: string,
                    headers: ConfigValue, send: LegacyCall -> TransportOutcome): (o: Fetched<Payload>)
    ensures o.state == SetupAgentFields(s, ctx).state
    ensures SetupAgentFields(s, ctx).result.Failure? ==> o.result == Failure(SetupAgentFields(s, ctx).result.error)
    ensures SetupAgentFields(s, ctx).result.Success? ==>
              var outcome := send(LegacyCall(verb, endpoint, CallConfig(SetupAgentFields(s, ctx).result.value, headers, timeout)));
              (outcome.Response? ==> o.result == Success(outcome.data)) &&
              (outcome.Failed? ==> o.result == Failure(HandleErrors(outcome.error)))
  {
    var agent := SetupAgentFields(s, ctx);
    if agent.result.Failure? then
      Fetched(agent.state, Failure(agent.result.error))
    else
      match send(LegacyCall(verb, endpoint, CallConfig(agent.result.value, headers, timeout)))
      case Response(data) => Fetched(agent.state, Success(data))
      case Failed(e) => Fetched(agent.state, Failure(HandleErrors(e)))
  }

  /** After a key was obtained, `getPrivateKey` is a pure read: no store is consulted again. */
  lemma PrivateKeyCached(s: ApiClientFields, ctx: Context, later: Context)
    requires GetPrivateKeyFields(s, ctx).result.Success?
    ensures var o := GetPrivateKeyFields(s, ctx);
            GetPrivateKeyFields(o.state, later) == o
  {
  }

  /** Running `init` again after it succeeded changes nothing and succeeds again. */
  lemma InitIdempotent(s: ApiClientFields, ctx: Context)
    requires InitFields(s, ctx).failure.None?
    ensures InitFields(InitFields(s, ctx).state, ctx) == InitFields(s, ctx)
  {
  }

  /** The lazy initialisation happens once: after an agent was set up, the next setup
      builds the same agent from the held fields, whatever the environment and stores say. */
  lemma SetupAgentStable(s: ApiClientFields, ctx: Context, later: Context)
    requires SetupAgentFields(s, ctx).result.Success?
    ensures var o := SetupAgentFields(s, ctx);
            SetupAgentFields(o.state, later) == o
  {
    var o := SetupAgentFields(s, ctx);
    PrivateKeyCached(o.state, later, later);
  }

  /** With certificate and CA supplied, setting up the agent never reads the parameter store
      or the parameter names, and touches no field but the key. */
  lemma SuppliedCertificatesNeedNoParameters(s: ApiClientFields, ctx: Context, parameters: map<string, string>,
                                             certname: Option<string>, caname: Option<string>)
    requires Filled(s.cert) && Filled(s.ca)
    ensures var o := SetupAgentFields(s, ctx);
            var other := SetupAgentFields(s.(certname := certname, caname := caname), ctx.(parameters := parameters));
            o.result == other.result && o.state == s.(privatekey := o.state.privatekey) &&
            other.state == o.state.(certname := certname, caname := caname)
  {
  }

  /** When the agent cannot be set up, the transport is never called. */
  lemma NoCallWithoutAgent(s: ApiClientFields, ctx: Context, timeout: int, verb: Verb, endpoint: string,
                           headers: ConfigValue, send: LegacyCall -> TransportOutcome, other: LegacyCall -> TransportOutcome)
    requires SetupAgentFields(s, ctx).result.Failure?
    ensures Exchange(s, ctx, timeout, verb, endpoint, headers, send) == Exchange(s, ctx, timeout, verb, endpoint, headers, other)
  {
  }

  /** A call that reached the transport fails only with one of the two fetch messages. */
  lemma TransportFailuresAreClassified(s: ApiClientFields, ctx: Context, timeout: int, verb: Verb, endpoint: string,
                                       headers: ConfigValue, send: LegacyCall -> TransportOutcome)
    requires SetupAgentFields(s, ctx).result.Success?
    ensures var o := Exchange(s, ctx, timeout, verb, endpoint, headers, send);
            o.result.Failure? ==> o.result.error == FetchFailed || o.result.error == FetchTooSlow
  {
  }

  /**
   * An `ApiClient` object. `transport` is the axios instance chosen at construction:
   * the one passed in, or a fresh default instance.
   */
  class ApiClient {
    var privatekey: Option<string>
    var certname: Option<string>
    var caname: Option<string>
    var cert: Option<string>
    var ca: Option<string>
    var timeout: int
    const transport: LegacyCall -> TransportOutcome

    function Fields(): ApiClientFields
      reads this
    {
      ApiClientFields(privatekey, certname, caname, cert, ca)
    }

    /** Stores what it is given and reads the two parameter names from the environment once. */
    constructor (cert: Option<string>, key: Option<string>, ca: Option<string>, env: map<string, string>,
                 transport: LegacyCall -> TransportOutcome)
      ensures Fields() == ApiClientFields(key, Lookup(env, CLIENT_CERT_NAME_VAR), Lookup(env, ROOT_CA_NAME_VAR), cert, ca)
      ensures timeout == DEFAULT_TIMEOUT && this.transport == transport
    {
      this.privatekey := key;
      this.cert := cert;
      this.ca := ca;
      this.certname := Lookup(env, CLIENT_CERT_NAME_VAR);
      this.caname := Lookup(env, ROOT_CA_NAME_VAR);
      this.timeout := DEFAULT_TIMEOUT;
      this.transport := transport;
    }

    /** `setTimeout(timeout)` replaces the timeout and nothing else. */
    method SetTimeout(timeout: int)
      modifies this
      ensures this.timeout == timeout && Fields() == old(Fields())
    {
      this.timeout := timeout;
    }

    /** `getPrivateKey()` on the fields. */
    method GetPrivateKey(ctx: Context) returns (r: Result<string, Failure>)
      modifies this
      ensures Fetched(Fields(), r) == GetPrivateKeyFields(old(Fields()), ctx)
      ensures timeout == old(timeout)
    {
      if !Filled(privatekey) {
        var arn := Lookup(ctx.env, PRIVATE_KEY_ARN_VAR);
        if !Filled(arn) {
          return Failure(NoSecretArn);
        }
        privatekey := Lookup(ctx.secrets, arn.value);
        if !Filled(privatekey) {
          return Failure(NoSecretValue);
        }
      }
      r := Success(privatekey.value);
    }

    /** `init()` on the fields; a key fetched before a throw stays assigned. */
    method Init(ctx: Context) returns (failure: Option<Failure>)
      modifies this
      ensures InitOutcome(Fields(), failure) == InitFields(old(Fields()), ctx)
      ensures timeout == old(timeout)
    {
      if !(Filled(certname) && Filled(caname)) && !(Filled(cert) && Filled(ca)) {
        return Some(MissingCertificateSources);
      }
      var key := GetPrivateKey(ctx);
      if key.Failure? {
        return Some(key.error);
      }
      privatekey := Some(key.value);
      if Filled(certname) && Filled(caname) {
        cert := if Filled(cert) then cert else Lookup(ctx.parameters, certname.value);
        ca := if Filled(ca) then ca else Lookup(ctx.parameters, caname.value);
      }
      failure := None;
    }

    /** `setupAgent()` on the fields. */
    method SetupAgent(ctx: Context) returns (r: Result<TlsAgent, Failure>)
      modifies this
      ensures Fetched(Fields(), r) == SetupAgentFields(old(Fields()), ctx)
      ensures timeout == old(timeout)
    {
      if !Filled(cert) || !Filled(ca) {
        var failure := Init(ctx);
        if failure.Some? {
          return Failure(failure.value);
        }
      }
      if !Filled(cert) || !Filled(ca) {
        return Failure(CertOrCaMissing);
      }
      var key := GetPrivateKey(ctx);
      if key.Failure? {
        return Failure(key.error);
      }
      r := Success(TlsAgent(cert.value, key.value, ca.value));
    }

    /** One call through the transport with the agent just set up. */
    method Send(verb: Verb, endpoint: string, headers: ConfigValue, ctx: Context) returns (r: Result<Payload, Failure>)
      modifies this
      ensures Fetched(Fields(), r) == Exchange(old(Fields()), ctx, old(timeout), verb, endpoint, headers, transport)
      ensures timeout == old(timeout)
    {
      var agent := SetupAgent(ctx);
      if agent.Failure? {
        return Failure(agent.error);
      }
      var outcome := transport(LegacyCall(verb, endpoint, CallConfig(agent.value, headers, timeout)));
      match outcome
      case Response(data) => r := Success(data);
      case Failed(e) => r := Failure(HandleErrors(e));
    }

    /** `postData(endpoint, body, headers)`. */
    method PostData(endpoint: string, body: Payload, headers: ConfigValue, ctx: Context) returns (r: Result<Payload, Failure>)
      modifies this
      ensures Fetched(Fields(), r) == Exchange(old(Fields()), ctx, old(timeout), Post(body), endpoint, headers, transport)
      ensures timeout == old(timeout)
    {
      r := Send(Post(body), endpoint, headers, ctx);
    }

    /** `getData(endpoint, headers)`. */
    method GetData(endpoint: string, headers: ConfigValue, ctx: Context) returns (r: Result<Payload, Failure>)
      modifies this
      ensures Fetched(Fields(), r) == Exchange(old(Fields()), ctx, old(timeout), Get, endpoint, headers, transport)
      ensures timeout == old(timeout)
    {
      r := Send(Get, endpoint, headers, ctx);
    }

    /** The deprecated `requestData` is `postData`. */
    method RequestData(endpoint: string, body: Payload, headers: ConfigValue, ctx: Context) returns (r: Result<Payload, Failure>)
      modifies this
      ensures Fetched(Fields(), r) == Exchange(old(Fields()), ctx, old(timeout), Post(body), endpoint, headers, transport)
      ensures timeout == old(timeout)
    {
      r := PostData(endpoint, body, headers, ctx);
    }
  }
}
