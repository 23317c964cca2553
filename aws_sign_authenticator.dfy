/**
 * The request-signing authenticator (src/aws-sign-authenticator.ts): it resolves an
 * access key id and a secret key once and registers one signing interceptor on the
 * client; requests themselves are left as they are.
 */
module Aws4Auth {
  import opened Wrappers
  import opened Common
  import opened AwsUtility

  const ACCESS_KEY_ID_SUFFIX := "_ACCESS_KEY_ID"
  const SECRET_KEY_SUFFIX := "_SECRET_KEY"
  const DEFAULT_REGION := "eu-west-1"
  const DEFAULT_SERVICE := "execute-api"

  /** The fields of an `Aws4SignatureAuthenticator`, as a value. */
  datatype Aws4Fields = Aws4Fields(
    accessKeyId: Option<string>,
    secretKey: Option<string>,
    region: string,
    service: string)

  /** `value ?? fallback`: only an undefined value is replaced (an empty string is kept). */
  function OrDefault(value: Option<string>, fallback: string): (r: string)
    ensures value.None? ==> r == fallback
    ensures value.Some? ==> r == value.value
  {
    if value.Some? then value.value else fallback
  }

  /** The secret as `init` fetches it: by the secret id held in the environment under `prefix + suffix`. */
  function FetchedSecret(prefix: string, suffix: string, ctx: Context): Result<string, Failure> {
    GetSecretValue(ctx.secrets, Lookup(ctx.env, prefix + suffix))
  }

  /**
   * What `init(prefix)` does to the fields: fetch the access key id if it is unset,
   * then the secret key if it is unset; the first throw stops it.
   */
  function InitFields(s: Aws4Fields, prefix: string, ctx: Context): (o: InitOutcome<Aws4Fields>)
    ensures o.state.region == s.region && o.state.service == s.service
    ensures Filled(s.accessKeyId) ==> o.state.accessKeyId == s.accessKeyId
    ensures Filled(s.secretKey) ==> o.state.secretKey == s.secretKey
    ensures !Filled(s.accessKeyId) && FetchedSecret(prefix, ACCESS_KEY_ID_SUFFIX, ctx).Failure? ==>
              o == InitOutcome(s, Some(FetchedSecret(prefix, ACCESS_KEY_ID_SUFFIX, ctx).error))
    ensures o.failure.None? <==>
              (Filled(s.accessKeyId) || FetchedSecret(prefix, ACCESS_KEY_ID_SUFFIX, ctx).Success?) &&
              (Filled(s.secretKey) || FetchedSecret(prefix, SECRET_KEY_SUFFIX, ctx).Success?)
    ensures o.failure.None? ==> Filled(o.state.accessKeyId) && Filled(o.state.secretKey)
    ensures !Filled(s.accessKeyId) && FetchedSecret(prefix, ACCESS_KEY_ID_SUFFIX, ctx).Success? ==>
              o.state.accessKeyId == Some(FetchedSecret(prefix, ACCESS_KEY_ID_SUFFIX, ctx).value)
    ensures !Filled(s.secretKey) && o.failure.None? ==>
              o.state.secretKey == Some(FetchedSecret(prefix, SECRET_KEY_SUFFIX, ctx).value)
    ensures (Filled(s.accessKeyId) || FetchedSecret(prefix, ACCESS_KEY_ID_SUFFIX, ctx).Success?) &&
            !Filled(s.secretKey) && FetchedSecret(prefix, SECRET_KEY_SUFFIX, ctx).Failure? ==>
              o == InitOutcome(s.(accessKeyId := o.state.accessKeyId), Some(FetchedSecret(prefix, SECRET_KEY_SUFFIX, ctx).error))
  {
    var id := if Filled(s.accessKeyId) then Success(s.accessKeyId.value)
              else FetchedSecret(prefix, ACCESS_KEY_ID_SUFFIX, ctx);
    if id.Failure? then
      InitOutcome(s, Some(id.error))
    else
      var withId := s.(accessKeyId := Some(id.value));
      var secret := if Filled(s.secretKey) then Success(s.secretKey.value)
                    else FetchedSecret(prefix, SECRET_KEY_SUFFIX, ctx);
      if secret.Failure? then InitOutcome(withId, Some(secret.error))
      else InitOutcome(withId.(secretKey := Some(secret.value)), None)
  }

  /**
   * `configureClient` on the interceptor list: refuse while either credential is
   * unset, otherwise append exactly one signing interceptor.
   */
  function ConfigureClientFields(s: Aws4Fields, interceptors: seq<Interceptor>): (r: Result<seq<Interceptor>, Failure>)
    ensures r.Failure? <==> !Filled(s.accessKeyId) || !Filled(s.secretKey)
    ensures r.Failure? ==> r.error == Aws4NotInitialized
    ensures r.Success? ==> |r.value| == |interceptors| + 1 && r.value[..|interceptors|] == interceptors
    ensures r.Success? ==>
              r.value[|interceptors|] == SigningInterceptor(s.region, s.service, s.accessKeyId.value, s.secretKey.value)
  {
    if !Filled(s.accessKeyId) || !Filled(s.secretKey) then
      Failure(Aws4NotInitialized)
    else
      Success(interceptors + [SigningInterceptor(s.region, s.service, s.accessKeyId.value, s.secretKey.value)])
  }

  /** Supplied credentials are never looked up: neither store nor environment influences `init`. */
  lemma SuppliedCredentialsNeedNoStore(s: Aws4Fields, prefix: string, ctx: Context, other: Context)
    requires Filled(s.accessKeyId) && Filled(s.secretKey)
    ensures InitFields(s, prefix, ctx) == InitFields(s, prefix, other) == InitOutcome(s, None)
  {
  }

  /** Running `init` again after it succeeded changes nothing and succeeds again. */
  lemma InitIdempotent(s: Aws4Fields, prefix: string, ctx: Context)
    requires InitFields(s, prefix, ctx).failure.None?
    ensures InitFields(InitFields(s, prefix, ctx).state, prefix, ctx) == InitFields(s, prefix, ctx)
  {
  }

  /** A request-signing authenticator object. */
  class Aws4SignatureAuthenticator {
    var accessKeyId: Option<string>
    var secretKey: Option<string>
    var region: string
    var service: string

    function Fields(): Aws4Fields
      reads this
    {
      Aws4Fields(accessKeyId, secretKey, region, service)
    }

    /** Region and service fall back to `eu-west-1` and `execute-api` when not supplied. */
    constructor (accessKeyId: Option<string>, secretKey: Option<string>, region: Option<string>, service: Option<string>)
      ensures Fields() == Aws4Fields(accessKeyId, secretKey, OrDefault(region, DEFAULT_REGION), OrDefault(service, DEFAULT_SERVICE))
    {
      this.accessKeyId := accessKeyId;
      this.secretKey := secretKey;
      this.region := OrDefault(region, DEFAULT_REGION);
      this.service := OrDefault(service, DEFAULT_SERVICE);
    }

    /** `init(prefix)`: the access key id is assigned before the secret-key fetch may throw. */
    method Init(prefix: string, ctx: Context) returns (failure: Option<Failure>)
      modifies this
      ensures InitOutcome(Fields(), failure) == InitFields(old(Fields()), prefix, ctx)
    {
      if !Filled(accessKeyId) {
        var id := GetSecretValue(ctx.secrets, Lookup(ctx.env, prefix + ACCESS_KEY_ID_SUFFIX));
        if id.Failure? {
          return Some(id.error);
        }
        accessKeyId := Some(id.value);
      }
      if !Filled(secretKey) {
        var secret := GetSecretValue(ctx.secrets, Lookup(ctx.env, prefix + SECRET_KEY_SUFFIX));
        if secret.Failure? {
          return Some(secret.error);
        }
        secretKey := Some(secret.value);
      }
      failure := None;
    }

    /**
     * `configureClient(client)`: on success one interceptor is appended to the same
     * client, which is returned; on a throw the client is left as it was.
     */
    method ConfigureClient(client: HttpClient) returns (r: Result<HttpClient, Failure>)
      modifies client
      ensures var expected := ConfigureClientFields(Fields(), old(client.requestInterceptors));
              if expected.Failure? then r == Failure(expected.error) && client.requestInterceptors == old(client.requestInterceptors)
              else r == Success(client) && client.requestInterceptors == expected.value
    {
      if !Filled(accessKeyId) || !Filled(secretKey) {
        return Failure(Aws4NotInitialized);
      }
      var interceptor := SigningInterceptor(region, service, accessKeyId.value, secretKey.value);
      client.requestInterceptors := client.requestInterceptors + [interceptor];
      r := Success(client);
    }

    /** `configureRequest` is the identity. */
    function ConfigureRequest(config: RequestConfig): (r: RequestConfig)
      ensures r == config
    {
      config
    }
  }
}
