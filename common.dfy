/**
 * Vocabulary shared by every part of the client library: JavaScript truthiness of
 * optional strings, the collaborators (process environment, secret store, parameter
 * store), the thrown errors, request configurations, the HTTP client instance and
 * the outcome of a transport call.
 */
module Common {
  import opened Wrappers

  /** `!!x` for `x: string | undefined`: defined and not the empty string. */
  predicate Filled(o: Option<string>) {
    o.Some? && o.value != ""
  }

  /** Reading a key of a string dictionary such as `process.env`. */
  function Lookup(m: map<string, string>, key: string): Option<string> {
    if key in m then Some(m[key]) else None
  }

  /**
   * The outside world as the library sees it: the process environment, the secret
   * store (secret id to secret string) and the parameter store (name to value).
   */
  datatype Context = Context(
    env: map<string, string>,
    secrets: map<string, string>,
    parameters: map<string, string>)

  /** An error the library throws; `Message` is the text of the thrown `Error`. */
  datatype Failure =
    | NoSecretArn
    | NoSecretValueForArn(arn: string)
    | NoParameterName
    | MissingCertificateSources
    | MtlsNotInitialized
    | ApiKeyNotConfigured
    | Aws4NotInitialized
    | NoSecretValue
    | CertOrCaMissing
    | FetchFailed
    | FetchTooSlow
  {
    function Message(): string {
      match this
      case NoSecretArn => "no secret arn provided"
      case NoSecretValueForArn(arn) => "No secret value found for arn " + arn
      case NoParameterName => "no parameter name provided"
      case MissingCertificateSources => "client certificate and CA, or ssm parameter names must be provided"
      case MtlsNotInitialized => "Not initialized!"
      case ApiKeyNotConfigured => "not configured properly"
      case Aws4NotInitialized => "AWS4 signature authenticator is not initialized."
      case NoSecretValue => "No secret value found"
      case CertOrCaMissing => "Error setting cert or CA"
      case FetchFailed => "Het ophalen van gegevens is misgegaan."
      case FetchTooSlow => "Het ophalen van gegevens duurt te lang."
    }
  }

  /** What an `init` leaves behind: the new field values and the error it threw, if any. */
  datatype InitOutcome<S> = InitOutcome(state: S, failure: Option<Failure>)

  /** Request and response bodies; their structure plays no part in the library. */
  type Payload = string

  /** The options of an `https.Agent`, the TLS client-certificate configuration. */
  datatype TlsAgent = TlsAgent(cert: string, key: string, ca: string)

  /** A value stored under one property of a request configuration. */
  datatype ConfigValue =
    | Text(text: string)
    | Number(number: int)
    | HeaderMap(headers: map<string, string>)
    | Agent(agent: TlsAgent)
    | Undefined

  /**
   * An axios request configuration: the properties present on the object.
   * Object spread `{...a, ...b}` is the map union `a + b`.
   */
  type RequestConfig = map<string, ConfigValue>

  const HEADERS := "headers"
  const HTTPS_AGENT := "httpsAgent"
  const TIMEOUT := "timeout"

  /** `{...config.headers}`: the header entries of a configuration, none when it has no header object. */
  function HeadersOf(config: RequestConfig): map<string, string> {
    if HEADERS in config && config[HEADERS].HeaderMap? then config[HEADERS].headers else map[]
  }

  /** The record a request-signing interceptor is built from. */
  datatype Interceptor = SigningInterceptor(
    region: string,
    service: string,
    accessKeyId: string,
    secretAccessKey: string)

  /** An axios client instance; the only state authenticators touch is its request-interceptor list. */
  class HttpClient {
    var requestInterceptors: seq<Interceptor>

    /** `new Axios()`: a client with no interceptors. */
    constructor ()
      ensures requestInterceptors == []
    {
      requestInterceptors := [];
    }
  }

  /** The shape of an error thrown by the transport. */
  datatype TransportError =
    | AxiosError(hasResponse: bool, code: Option<string>, hasRequest: bool, message: string)
    | OtherError(message: string)

  /** What one transport call produced: the response body, or the error it threw. */
  datatype TransportOutcome = Response(data: Payload) | Failed(error: TransportError)
}
