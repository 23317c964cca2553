/**
 * The mutual-TLS authenticator (src/mlts-authenticator.ts): it resolves a private
 * key, a client certificate and a CA bundle once, and attaches a TLS agent built
 * from them to every request configuration it is given.
 */
module MtlsAuth {
  import opened Wrappers
  import opened Common
  import opened AwsUtility

  const CERT_SSM_NAME_SUFFIX := "_CERT_SSM_NAME"
  const ROOT_CERT_SSM_NAME_SUFFIX := "_ROOT_CERT_SSM_NAME"
  const PRIVATE_KEY_ARN_SUFFIX := "_PRIVATE_KEY_ARN"

  /** The fields of an `MtlsAuthenticator`, as a value. */
  datatype MtlsFields = MtlsFields(
    privatekey: Option<string>,
    certname: Option<string>,
    caname: Option<string>,
    cert: Option<string>,
    ca: Option<string>)

  /** Either both parameter names are set or both certificate and CA are given. */
  predicate CertSourcesGiven(certname: Option<string>, caname: Option<string>, s: MtlsFields) {
    (Filled(certname) && Filled(caname)) || (Filled(s.cert) && Filled(s.ca))
  }

  /** The secret-store id of the private key, read from the environment. */
  function PrivateKeyArn(prefix: string, ctx: Context): Option<string> {
    Lookup(ctx.env, prefix + PRIVATE_KEY_ARN_SUFFIX)
  }

  /**
   * What `init(prefix)` does to the fields: record the two parameter names from the
   * environment, refuse when neither source of certificate and CA is available,
   * fetch the private key if it is unset, and, when both names are set, fetch
   * whichever of certificate and CA is still unset.
   */
  function InitFields(s: MtlsFields, prefix: string, ctx: Context): (o: InitOutcome<MtlsFields>)
    ensures o.state.certname == Lookup(ctx.env, prefix + CERT_SSM_NAME_SUFFIX)
    ensures o.state.caname == Lookup(ctx.env, prefix + ROOT_CERT_SSM_NAME_SUFFIX)
    ensures Filled(s.privatekey) ==> o.state.privatekey == s.privatekey
    ensures Filled(s.cert) ==> o.state.cert == s.cert
    ensures Filled(s.ca) ==> o.state.ca == s.ca
    ensures !(Filled(o.state.certname) && Filled(o.state.caname)) ==> o.state.cert == s.cert && o.state.ca == s.ca
    ensures !CertSourcesGiven(o.state.certname, o.state.caname, s) ==>
              o == InitOutcome(s.(certname := o.state.certname, caname := o.state.caname), Some(MissingCertificateSources))
    ensures o.failure.None? <==>
              CertSourcesGiven(o.state.certname, o.state.caname, s) &&
              (Filled(s.privatekey) || GetSecretValue(ctx.secrets, PrivateKeyArn(prefix, ctx)).Success?)
    ensures o.failure.None? ==> Filled(o.state.privatekey)
    ensures !Filled(s.privatekey) && o.failure.None? ==>
              o.state.privatekey == Some(GetSecretValue(ctx.secrets, PrivateKeyArn(prefix, ctx)).value)
    ensures CertSourcesGiven(o.state.certname, o.state.caname, s) && !Filled(s.privatekey) &&
            GetSecretValue(ctx.secrets, PrivateKeyArn(prefix, ctx)).Failure? ==>
              o == InitOutcome(s.(certname := o.state.certname, caname := o.state.caname),
                               Some(GetSecretValue(ctx.secrets, PrivateKeyArn(prefix, ctx)).error))
    ensures o.failure.None? && Filled(o.state.certname) && Filled(o.state.caname) && !Filled(s.cert) ==>
              o.state.cert == Lookup(ctx.parameters, o.state.certname.value)
    ensures o.failure.None? && Filled(o.state.certname) && Filled(o.state.caname) && !Filled(s.ca) ==>
              o.state.ca == Lookup(ctx.parameters, o.state.caname.value)
  {
    var certname := Lookup(ctx.env, prefix + CERT_SSM_NAME_SUFFIX);
    var caname := Lookup(ctx.env, prefix + ROOT_CERT_SSM_NAME_SUFFIX);
    var named := s.(certname := certname, caname := caname);
    if !CertSourcesGiven(certname, caname, s) then
      InitOutcome(named, Some(MissingCertificateSources))
    else
      var key := if Filled(s.privatekey) then Success(s.privatekey.value)
                 else GetSecretValue(ctx.secrets, PrivateKeyArn(prefix, ctx));
      if key.Failure? then
        InitOutcome(named, Some(key.error))
      else
        var keyed := named.(privatekey := Some(key.value));
        if Filled(certname) && Filled(caname) then
          // a non-empty name never makes the parameter lookup throw
          var cert := if Filled(s.cert) then s.cert else GetParameterValue(ctx.parameters, certname).value;
          var ca := if Filled(s.ca) then s.ca else GetParameterValue(ctx.parameters, caname).value;
          InitOutcome(keyed.(cert := cert, ca := ca), None)
        else
          InitOutcome(keyed, None)
  }

  /** `configureRequest`: requires all three credentials, then adds or replaces only `httpsAgent`. */
  function ConfigureRequestFields(s: MtlsFields, config: RequestConfig): (r: Result<RequestConfig, Failure>)
    ensures r.Failure? <==> !(Filled(s.cert) && Filled(s.ca) && Filled(s.privatekey))
    ensures r.Failure? ==> r.error == MtlsNotInitialized
    ensures r.Success? ==> r.value.Keys == config.Keys + {HTTPS_AGENT}
    ensures r.Success? ==> r.value[HTTPS_AGENT] == Agent(TlsAgent(s.cert.value, s.privatekey.value, s.ca.value))
    ensures r.Success? ==> forall k :: k in config && k != HTTPS_AGENT ==> r.value[k] == config[k]
  {
    if !Filled(s.cert) || !Filled(s.ca) || !Filled(s.privatekey) then
      Failure(MtlsNotInitialized)
    else
      Success(config[HTTPS_AGENT := Agent(TlsAgent(s.cert.value, s.privatekey.value, s.ca.value))])
  }

  /** A key supplied up front is never looked up: the secret store does not influence `init`. */
  lemma SuppliedKeyNeedsNoSecret(s: MtlsFields, prefix: string, ctx: Context, otherSecrets: map<string, string>)
    requires Filled(s.privatekey)
    ensures InitFields(s, prefix, ctx) == InitFields(s, prefix, ctx.(secrets := otherSecrets))
  {
  }

  /** Without a source for certificate and CA, `init` throws before any store is consulted. */
  lemma GuardPrecedesLookups(s: MtlsFields, prefix: string, ctx: Context, other: Context)
    requires other.env == ctx.env
    requires !CertSourcesGiven(Lookup(ctx.env, prefix + CERT_SSM_NAME_SUFFIX), Lookup(ctx.env, prefix + ROOT_CERT_SSM_NAME_SUFFIX), s)
    ensures InitFields(s, prefix, ctx) == InitFields(s, prefix, other)
    ensures InitFields(s, prefix, ctx).failure == Some(MissingCertificateSources)
  {
  }

  /** Running `init` again after it succeeded changes nothing and succeeds again. */
  lemma InitIdempotent(s: MtlsFields, prefix: string, ctx: Context)
    requires InitFields(s, prefix, ctx).failure.None?
    ensures InitFields(InitFields(s, prefix, ctx).state, prefix, ctx) == InitFields(s, prefix, ctx)
  {
  }

  /** A successful `init` leaves the authenticator ready for requests exactly when certificate
      and CA ended up set, whether supplied or fetched. */
  lemma InitThenReady(s: MtlsFields, prefix: string, ctx: Context, config: RequestConfig)
    requires InitFields(s, prefix, ctx).failure.None?
    ensures var t := InitFields(s, prefix, ctx).state;
            ConfigureRequestFields(t, config).Success? <==> Filled(t.cert) && Filled(t.ca)
  {
  }

  /** An mTLS authenticator object; the optional fields start as given to the constructor. */
  class MtlsAuthenticator {
    var privatekey: Option<string>
    var certname: Option<string>
    var caname: Option<string>
    var cert: Option<string>
    var ca: Option<string>

    function Fields(): MtlsFields
      reads this
    {
      MtlsFields(privatekey, certname, caname, cert, ca)
    }

    /** Only stores what it is given; no lookups happen before `init`. */
    constructor (cert: Option<string>, key: Option<string>, ca: Option<string>)
      ensures Fields() == MtlsFields(key, None, None, cert, ca)
    {
      this.privatekey := key;
      this.cert := cert;
      this.ca := ca;
      this.certname := None;
      this.caname := None;
    }

    /** `init(prefix)`, field by field; the fields assigned before a throw keep their new values. */
    method Init(prefix: string, ctx: Context) returns (failure: Option<Failure>)
      modifies this
      ensures InitOutcome(Fields(), failure) == InitFields(old(Fields()), prefix, ctx)
    {
      certname := Lookup(ctx.env, prefix + CERT_SSM_NAME_SUFFIX);
      caname := Lookup(ctx.env, prefix + ROOT_CERT_SSM_NAME_SUFFIX);
      if !(Filled(certname) && Filled(caname)) && !(Filled(cert) && Filled(ca)) {
        return Some(MissingCertificateSources);
      }
      if !Filled(privatekey) {
        var key := GetSecretValue(ctx.secrets, Lookup(ctx.env, prefix + PRIVATE_KEY_ARN_SUFFIX));
        if key.Failure? {
          return Some(key.error);
        }
        privatekey := Some(key.value);
      }
      if Filled(certname) && Filled(caname) {
        if !Filled(cert) {
          var fetched := GetParameterValue(ctx.parameters, certname);
          cert := fetched.value;
        }
        if !Filled(ca) {
          var fetched := GetParameterValue(ctx.parameters, caname);
          ca := fetched.value;
        }
      }
      failure := None;
    }

    /** `configureClient` returns its argument untouched. */
    method ConfigureClient(client: HttpClient) returns (r: HttpClient)
      ensures r == client
    {
      r := client;
    }

    /** `configureRequest` on the current fields: refused until all three credentials are
        set, then only `httpsAgent` is added or replaced. */
    function ConfigureRequest(config: RequestConfig): (r: Result<RequestConfig, Failure>)
      reads this
      ensures r.Failure? <==> !(Filled(cert) && Filled(ca) && Filled(privatekey))
      ensures r.Success? ==> r.value == config[HTTPS_AGENT := Agent(TlsAgent(cert.value, privatekey.value, ca.value))]
    {
      ConfigureRequestFields(Fields(), config)
    }
  }
}
