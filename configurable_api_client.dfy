/**
 * The configurable client (src/confiruable-api-client.ts): an ordered list of
 * authenticators, a namespace prefix for their environment variables and default
 * request options. `init` initialises the authenticators in order and stops at the
 * first throw; every request builds one fresh client that each authenticator may
 * configure, folds each authenticator's request configuration over the merged
 * options, and hands the transport the caller's request.
 */
module ConfigurableClient {
  import opened Wrappers
  import opened Common
  import MtlsAuth
  import ApiKeyAuth
  import Aws4Auth

  /** The state of one authenticator, by variant: the value the folds below run over. */
  datatype AuthState =
    | MtlsState(mtls: MtlsAuth.MtlsFields)
    | ApiKeyState(apiKey: ApiKeyAuth.ApiKeyFields)
    | Aws4State(aws4: Aws4Auth.Aws4Fields)
  {
    /** `init(prefix)` of the variant: it never changes the variant, and once it went
        through, the variant's `configureClient` goes through too. */
    function Init(prefix: string, ctx: Context): (o: InitOutcome<AuthState>)
      ensures o.state.MtlsState? == MtlsState? && o.state.ApiKeyState? == ApiKeyState? && o.state.Aws4State? == Aws4State?
      ensures o.failure.None? ==> o.state.ClientReady()
    {
      match this
      case MtlsState(f) =>
        var o := MtlsAuth.InitFields(f, prefix, ctx); InitOutcome(MtlsState(o.state), o.failure)
      case ApiKeyState(f) =>
        var o := ApiKeyAuth.InitFields(f, prefix, ctx); InitOutcome(ApiKeyState(o.state), o.failure)
      case Aws4State(f) =>
        var o := Aws4Auth.InitFields(f, prefix, ctx); InitOutcome(Aws4State(o.state), o.failure)
    }

    /** Whether `configureRequest` of the variant goes through: its required credentials are set. */
    predicate RequestReady() {
      match this
      case MtlsState(f) => Filled(f.cert) && Filled(f.ca) && Filled(f.privatekey)
      case ApiKeyState(f) => Filled(f.headerName) && Filled(f.apiKey)
      case Aws4State(_) => true
    }

    /** `configureRequest(config)` of the variant; whether it throws does not depend on `config`. */
    function ConfigureRequest(config: RequestConfig): (r: Result<RequestConfig, Failure>)
      ensures r.Success? <==> RequestReady()
      ensures r.Success? ==> config.Keys <= r.value.Keys
    {
      match this
      case MtlsState(f) => MtlsAuth.ConfigureRequestFields(f, config)
      case ApiKeyState(f) => ApiKeyAuth.ConfigureRequestFields(f, config)
      case Aws4State(_) => Success(config)
    }

    /** Whether `configureClient` of the variant goes through. */
    predicate ClientReady() {
      Aws4State? ==> Filled(aws4.accessKeyId) && Filled(aws4.secretKey)
    }

    /** `configureClient` of the variant, on the client's interceptor list. */
    function ConfigureClient(interceptors: seq<Interceptor>): (r: Result<seq<Interceptor>, Failure>)
      ensures r.Success? <==> ClientReady()
      ensures r.Failure? ==> r.error == Aws4NotInitialized
    {
      match this
      case Aws4State(f) => Aws4Auth.ConfigureClientFields(f, interceptors)
      case _ => Success(interceptors)
    }

    /** The interceptors a ready variant registers: one for request signing, none otherwise. */
    function Registered(): seq<Interceptor>
      requires ClientReady()
    {
      if Aws4State? then
        [SigningInterceptor(aws4.region, aws4.service, aws4.accessKeyId.value, aws4.secretKey.value)]
      else []
    }

    /** Whether `configureRequest` of the variant writes the header `name`. */
    predicate WritesHeader(name: string) {
      ApiKeyState? && apiKey.headerName == Some(name)
    }
  }

  /** An authenticator object, tagged by its class. */
  datatype Authenticator =
    | Mtls(mtls: MtlsAuth.MtlsAuthenticator)
    | ApiKey(apiKey: ApiKeyAuth.ApiKeyAuthenticator)
    | Aws4(aws4: Aws4Auth.Aws4SignatureAuthenticator)
  {
    function Obj(): object {
      match this
      case Mtls(m) => m
      case ApiKey(k) => k
      case Aws4(s) => s
    }

    function State(): AuthState
      reads Obj()
    {
      match this
      case Mtls(m) => MtlsState(m.Fields())
      case ApiKey(k) => ApiKeyState(k.Fields())
      case Aws4(s) => Aws4State(s.Fields())
    }

    /** Dispatch of `configureRequest` to the object's class. */
    function ConfigureRequest(config: RequestConfig): (r: Result<RequestConfig, Failure>)
      reads Obj()
      ensures r == State().ConfigureRequest(config)
    {
      match this
      case Mtls(m) => m.ConfigureRequest(config)
      case ApiKey(k) => k.ConfigureRequest(config)
      case Aws4(s) => Success(s.ConfigureRequest(config))
    }
  }

  /** Dispatch of `init(prefix)` to the object's class. */
  method InitAuthenticator(a: Authenticator, prefix: string, ctx: Context) returns (failure: Option<Failure>)
    modifies a.Obj()
    ensures InitOutcome(a.State(), failure) == old(a.State()).Init(prefix, ctx)
  {
    match a
    case Mtls(m) => failure := m.Init(prefix, ctx);
    case ApiKey(k) => failure := k.Init(prefix, ctx);
    case Aws4(s) => failure := s.Init(prefix, ctx);
  }

  /** Dispatch of `configureClient(client)` to the object's class. */
  method ConfigureClientWith(a: Authenticator, client: HttpClient) returns (r: Result<HttpClient, Failure>)
    modifies client
    ensures var expected := old(a.State()).ConfigureClient(old(client.requestInterceptors));
            if expected.Failure? then r == Failure(expected.error)
            else r == Success(client) && client.requestInterceptors == expected.value
  {
    match a
    case Mtls(m) =>
      var c := m.ConfigureClient(client);
      r := Success(c);
    case ApiKey(k) =>
      var c := k.ConfigureClient(client);
      r := Success(c);
    case Aws4(s) =>
      r := s.ConfigureClient(client);
  }

  /** No object occurs twice in the list. */
  predicate Distinct(authenticators: seq<Authenticator>) {
    forall i, j :: 0 <= i < j < |authenticators| ==> authenticators[i].Obj() != authenticators[j].Obj()
  }

  /**
   * `init` over the list: each authenticator in order, stopping at the first that
   * throws; the ones after it keep their state.
   */
  function InitAll(states: seq<AuthState>, prefix: string, ctx: Context): (o: InitOutcome<seq<AuthState>>)
    ensures |o.state| == |states|
  {
    if states == [] then
      InitOutcome([], None)
    else
      var first := states[0].Init(prefix, ctx);
      if first.failure.Some? then
        InitOutcome([first.state] + states[1..], first.failure)
      else
        var rest := InitAll(states[1..], prefix, ctx);
        InitOutcome([first.state] + rest.state, rest.failure)
  }

  /** The first `k` authenticators were initialised without a throw and now hold `result[..k]`. */
  ghost predicate InitializedUpTo(states: seq<AuthState>, result: seq<AuthState>, k: int, prefix: string, ctx: Context)
    requires 0 <= k <= |states| && |result| == |states|
  {
    forall i :: 0 <= i < k ==> states[i].Init(prefix, ctx) == InitOutcome(result[i], None)
  }

  /** The inductive step of `InitAllStopsAtFirstFailure` when the first `init` succeeds and
      the `k`-th of the rest throws: the `k + 1`-th of the whole list throws. */
  lemma FailureAfterSuccess(states: seq<AuthState>, k: nat, prefix: string, ctx: Context)
    requires states != [] && states[0].Init(prefix, ctx).failure.None?
    requires var tail := states[1..]; var rest := InitAll(tail, prefix, ctx);
             k < |tail| && InitializedUpTo(tail, rest.state, k, prefix, ctx) &&
             rest == InitOutcome(rest.state[..k] + [tail[k].Init(prefix, ctx).state] + tail[k + 1..],
                                 tail[k].Init(prefix, ctx).failure)
    ensures var o := InitAll(states, prefix, ctx);
            InitializedUpTo(states, o.state, k + 1, prefix, ctx) &&
            o == InitOutcome(o.state[..k + 1] + [states[k + 1].Init(prefix, ctx).state] + states[k + 2..],
                             states[k + 1].Init(prefix, ctx).failure)
  {
    var o := InitAll(states, prefix, ctx);
    var first := states[0].Init(prefix, ctx);
    var tail := states[1..];
    var rest := InitAll(tail, prefix, ctx);
    var stuck := states[k + 1].Init(prefix, ctx);
    assert tail[k] == states[k + 1] && tail[k + 1..] == states[k + 2..];
    assert o == InitOutcome([first.state] + rest.state, rest.failure);
    var before := [first.state] + rest.state[..k];
    assert rest.state == rest.state[..k] + [stuck.state] + states[k + 2..];
    assert o.state == before + [stuck.state] + states[k + 2..];
    assert o.state[..k + 1] == before;
    forall i | 0 <= i < k + 1
      ensures states[i].Init(prefix, ctx) == InitOutcome(o.state[i], None)
    {
      if i > 0 {
        assert tail[i - 1] == states[i];
      }
    }
  }

  /** `init` runs the authenticators strictly in order: with no throw, every one is
      initialised; otherwise the `k`-th threw, all before it were initialised, its error
      propagates unchanged, and none after it was touched. */
  lemma {:induction false} InitAllStopsAtFirstFailure(states: seq<AuthState>, prefix: string, ctx: Context)
    ensures var o := InitAll(states, prefix, ctx);
            o.failure.None? ==> InitializedUpTo(states, o.state, |states|, prefix, ctx)
    ensures var o := InitAll(states, prefix, ctx);
            o.failure.Some? ==>
              exists k :: 0 <= k < |states| && InitializedUpTo(states, o.state, k, prefix, ctx) &&
                          o == InitOutcome(o.state[..k] + [states[k].Init(prefix, ctx).state] + states[k + 1..],
                                           states[k].Init(prefix, ctx).failure)
  {
    if states != [] {
      var o := InitAll(states, prefix, ctx);
      var first := states[0].Init(prefix, ctx);
      if first.failure.Some? {
        assert InitializedUpTo(states, o.state, 0, prefix, ctx);
        assert o.state[..0] + [first.state] + states[1..] == o.state;
      } else {
        var tail := states[1..];
        var rest := InitAll(tail, prefix, ctx);
        InitAllStopsAtFirstFailure(tail, prefix, ctx);
        assert o.state == [first.state] + rest.state;
        if rest.failure.None? {
          forall i | 0 <= i < |states|
            ensures states[i].Init(prefix, ctx) == InitOutcome(o.state[i], None)
          {
            if i > 0 {
              assert tail[i - 1] == states[i];
            }
          }
        } else {
          var k :| 0 <= k < |tail| && InitializedUpTo(tail, rest.state, k, prefix, ctx) &&
                   rest == InitOutcome(rest.state[..k] + [tail[k].Init(prefix, ctx).state] + tail[k + 1..],
                                       tail[k].Init(prefix, ctx).failure);
          FailureAfterSuccess(states, k, prefix, ctx);
        }
      }
    }
  }

  /** `configureClient` of every authenticator in order, over one client's interceptor list. */
  function ClientSetup(states: seq<AuthState>, interceptors: seq<Interceptor>): (r: Result<seq<Interceptor>, Failure>)
    ensures r.Success? ==> interceptors <= r.value
  {
    if states == [] then
      Success(interceptors)
    else
      match states[0].ConfigureClient(interceptors)
      case Failure(e) => Failure(e)
      case Success(next) => ClientSetup(states[1..], next)
  }

  /** The interceptors every authenticator in the list registers, in list order. */
  function AllRegistered(states: seq<AuthState>): seq<Interceptor>
    requires forall i :: 0 <= i < |states| ==> states[i].ClientReady()
  {
    if states == [] then [] else states[0].Registered() + AllRegistered(states[1..])
  }

  /** The client is configured exactly when no signing authenticator lacks credentials, and
      then it carries one signing interceptor per signing authenticator, in list order,
      after the ones it had; otherwise the signing authenticator's own error is thrown. */
  lemma {:induction false} ClientSetupRegistersInOrder(states: seq<AuthState>, interceptors: seq<Interceptor>)
    ensures ClientSetup(states, interceptors).Success? <==> forall i :: 0 <= i < |states| ==> states[i].ClientReady()
    ensures ClientSetup(states, interceptors).Failure? ==> ClientSetup(states, interceptors).error == Aws4NotInitialized
    ensures ClientSetup(states, interceptors).Success? ==>
              ClientSetup(states, interceptors).value == interceptors + AllRegistered(states)
  {
    if states != [] {
      var step := states[0].ConfigureClient(interceptors);
      if step.Success? {
        ClientSetupRegistersInOrder(states[1..], step.value);
        assert step.value == interceptors + states[0].Registered();
        assert forall i :: 1 <= i < |states| ==> states[1..][i - 1] == states[i];
      }
    }
  }

  /** `{...defaultRequestConfig, ...request}`: every property of `request`, and the
      default's properties that `request` does not have. */
  function Merge(defaults: Option<RequestConfig>, request: RequestConfig): (r: RequestConfig)
    ensures r.Keys == request.Keys + (if defaults.Some? then defaults.value.Keys else {})
    ensures forall k :: k in request ==> r[k] == request[k]
    ensures defaults.Some? ==> forall k :: k in defaults.value && k !in request ==> r[k] == defaults.value[k]
  {
    (if defaults.Some? then defaults.value else map[]) + request
  }

  /** The merge is shallow: a per-call header object replaces the default one wholesale. */
  lemma MergeReplacesHeaders(defaults: RequestConfig, request: RequestConfig)
    requires HEADERS in request
    ensures HeadersOf(Merge(Some(defaults), request)) == HeadersOf(request)
  {
  }

  /** The folded request: each authenticator's `configureRequest` applied to the output of the previous one. */
  function AuthenticatedRequest(states: seq<AuthState>, config: RequestConfig): (r: Result<RequestConfig, Failure>)
    ensures r.Success? ==> config.Keys <= r.value.Keys
  {
    if states == [] then
      Success(config)
    else
      match states[0].ConfigureRequest(config)
      case Failure(e) => Failure(e)
      case Success(next) => AuthenticatedRequest(states[1..], next)
  }

  /** The fold goes through exactly when every authenticator is ready; otherwise it throws
      the error of the first authenticator that is not. */
  lemma {:induction false} AuthenticatedRequestFailsAtFirstUnready(states: seq<AuthState>, config: RequestConfig)
    ensures AuthenticatedRequest(states, config).Success? <==> forall i :: 0 <= i < |states| ==> states[i].RequestReady()
    ensures AuthenticatedRequest(states, config).Failure? ==>
              exists k :: 0 <= k < |states| && !states[k].RequestReady() &&
                          (forall i :: 0 <= i < k ==> states[i].RequestReady()) &&
                          AuthenticatedRequest(states, config) == states[k].ConfigureRequest(config)
  {
    if states != [] {
      var step := states[0].ConfigureRequest(config);
      if step.Success? {
        AuthenticatedRequestFailsAtFirstUnready(states[1..], step.value);
        assert forall i :: 1 <= i < |states| ==> states[1..][i - 1] == states[i];
        if AuthenticatedRequest(states, config).Failure? {
          var k :| 0 <= k < |states[1..]| && !states[1..][k].RequestReady() &&
                   (forall i :: 0 <= i < k ==> states[1..][i].RequestReady()) &&
                   AuthenticatedRequest(states[1..], step.value) == states[1..][k].ConfigureRequest(step.value);
          assert states[1..][k] == states[k + 1];
          assert forall i :: 0 <= i < k + 1 ==> states[i].RequestReady();
          assert AuthenticatedRequest(states, config) == states[k + 1].ConfigureRequest(config);
        }
      }
    }
  }

  /** A header that no authenticator in the list writes keeps its value through the fold. */
  lemma {:induction false} UnwrittenHeaderKept(states: seq<AuthState>, config: RequestConfig, name: string)
    requires forall i :: 0 <= i < |states| ==> !states[i].WritesHeader(name)
    requires AuthenticatedRequest(states, config).Success?
    requires name in HeadersOf(config)
    ensures name in HeadersOf(AuthenticatedRequest(states, config).value)
    ensures HeadersOf(AuthenticatedRequest(states, config).value)[name] == HeadersOf(config)[name]
  {
    if states != [] {
      var next := states[0].ConfigureRequest(config).value;
      assert !states[0].WritesHeader(name);
      assert name in HeadersOf(next) && HeadersOf(next)[name] == HeadersOf(config)[name];
      assert forall i :: 1 <= i < |states| ==> states[1..][i - 1] == states[i];
      UnwrittenHeaderKept(states[1..], next, name);
    }
  }

  /** On a header collision the authenticator writing last wins. */
  lemma {:induction false} LastHeaderWriterWins(states: seq<AuthState>, config: RequestConfig, j: nat, name: string)
    requires j < |states| && states[j].WritesHeader(name)
    requires forall i :: j < i < |states| ==> !states[i].WritesHeader(name)
    requires AuthenticatedRequest(states, config).Success?
    ensures name in HeadersOf(AuthenticatedRequest(states, config).value)
    ensures Some(HeadersOf(AuthenticatedRequest(states, config).value)[name]) == states[j].apiKey.apiKey
  {
    var next := states[0].ConfigureRequest(config).value;
    assert forall i :: 1 <= i < |states| ==> states[1..][i - 1] == states[i];
    if j == 0 {
      UnwrittenHeaderKept(states[1..], next, name);
    } else {
      LastHeaderWriterWins(states[1..], next, j - 1, name);
    }
  }

  /** `requestData`'s handling of the transport's outcome: the response body unchanged,
      or, whatever the error's shape, the one generic failure. */
  function Delivered(outcome: TransportOutcome): (r: Result<Payload, Failure>)
    ensures r.Success? <==> outcome.Response?
    ensures outcome.Response? ==> r.value == outcome.data
    ensures outcome.Failed? ==> r.error == FetchFailed && r.error.Message() == "Het ophalen van gegevens is misgegaan."
  {
    match outcome
    case Response(data) => Success(data)
    case Failed(_) => Failure(FetchFailed)
  }

  /** The first `|done|` authenticators' `init` succeeded and left them holding `done`. */
  ghost predicate StepsSucceed(states: seq<AuthState>, done: seq<AuthState>, prefix: string, ctx: Context) {
    |done| <= |states| &&
    forall i :: 0 <= i < |done| ==> states[i].Init(prefix, ctx) == InitOutcome(done[i], None)
  }

  /** `InitAll` rebuilt from the individual `init` calls: all of them succeeded, or the
      next one threw and everything after it is untouched. */
  lemma {:induction false} InitAllAfterSteps(states: seq<AuthState>, done: seq<AuthState>, prefix: string, ctx: Context)
    requires StepsSucceed(states, done, prefix, ctx)
    ensures |done| == |states| ==> InitAll(states, prefix, ctx) == InitOutcome(done, None)
    ensures |done| < |states| && states[|done|].Init(prefix, ctx).failure.Some? ==>
              var stuck := states[|done|].Init(prefix, ctx);
              InitAll(states, prefix, ctx) == InitOutcome(done + [stuck.state] + states[|done| + 1..], stuck.failure)
  {
    if done != [] {
      var tail, doneTail := states[1..], done[1..];
      forall i | 0 <= i < |doneTail|
        ensures tail[i].Init(prefix, ctx) == InitOutcome(doneTail[i], None)
      {
        assert tail[i] == states[i + 1] && doneTail[i] == done[i + 1];
      }
      InitAllAfterSteps(tail, doneTail, prefix, ctx);
      var rest := InitAll(tail, prefix, ctx);
      assert states[0].Init(prefix, ctx) == InitOutcome(done[0], None);
      assert InitAll(states, prefix, ctx) == InitOutcome([done[0]] + rest.state, rest.failure);
      assert done == [done[0]] + doneTail;
      if |done| < |states| && states[|done|].Init(prefix, ctx).failure.Some? {
        var stuck := states[|done|].Init(prefix, ctx);
        var after := states[|done| + 1..];
        assert tail[|doneTail|] == states[|done|] && tail[|doneTail| + 1..] == after;
        assert rest == InitOutcome(doneTail + [stuck.state] + after, stuck.failure);
        assert [done[0]] + (doneTail + [stuck.state] + after) == done + [stuck.state] + after;
      }
    } else if states != [] && states[0].Init(prefix, ctx).failure.Some? {
      var stuck := states[0].Init(prefix, ctx);
      assert done + [stuck.state] + states[1..] == [stuck.state] + states[1..];
    }
  }

  /** A list that agrees with `done` up to its length, holds `s` next and `all` after that. */
  lemma SpliceStates(now: seq<AuthState>, done: seq<AuthState>, s: AuthState, all: seq<AuthState>)
    requires |now| == |all| && |done| < |all|
    requires forall j :: 0 <= j < |done| ==> now[j] == done[j]
    requires now[|done|] == s
    requires forall j :: |done| < j < |all| ==> now[j] == all[j]
    ensures now == done + [s] + all[|done| + 1..]
  {
  }

  /** One step of `ClientSetup`: the `i`-th authenticator's `configureClient`, then the rest unless it threw. */
  lemma ClientSetupStep(states: seq<AuthState>, i: nat, interceptors: seq<Interceptor>)
    requires i < |states|
    ensures var first := states[i].ConfigureClient(interceptors);
            ClientSetup(states[i..], interceptors) ==
              if first.Failure? then Failure(first.error) else ClientSetup(states[i + 1..], first.value)
  {
    assert states[i..][0] == states[i] && states[i..][1..] == states[i + 1..];
  }

  /** One step of `AuthenticatedRequest`: the `i`-th authenticator's `configureRequest`, then the rest unless it threw. */
  lemma AuthenticatedRequestStep(states: seq<AuthState>, i: nat, config: RequestConfig)
    requires i < |states|
    ensures var first := states[i].ConfigureRequest(config);
            AuthenticatedRequest(states[i..], config) ==
              if first.Failure? then Failure(first.error) else AuthenticatedRequest(states[i + 1..], first.value)
  {
    assert states[i..][0] == states[i] && states[i..][1..] == states[i + 1..];
  }

  /** A client holding its prefix, default options and authenticators; none of these is reassigned. */
  class ConfigurableApiClient {
    const envVariablePrefix: string
    const defaultRequestConfig: Option<RequestConfig>
    const authenticators: seq<Authenticator>

    /** The authenticator objects the client uses. */
    ghost const Repr: set<object> := set i | 0 <= i < |authenticators| :: authenticators[i].Obj()

    /** The current state of every authenticator, in list order. */
    ghost function States(): (r: seq<AuthState>)
      reads Repr
      ensures |r| == |authenticators|
      ensures forall i :: 0 <= i < |r| ==> r[i] == authenticators[i].State()
    {
      seq(|authenticators|, i requires 0 <= i < |authenticators| reads Repr => authenticators[i].State())
    }

    constructor (envVariablePrefix: string, defaultRequestConfig: Option<RequestConfig>, authenticators: seq<Authenticator>)
      ensures this.envVariablePrefix == envVariablePrefix
      ensures this.defaultRequestConfig == defaultRequestConfig
      ensures this.authenticators == authenticators
    {
      this.envVariablePrefix := envVariablePrefix;
      this.defaultRequestConfig := defaultRequestConfig;
      this.authenticators := authenticators;
    }

    /** `init(prefix)` of the `i`-th authenticator; the others keep their state. */
    method InitAt(i: nat, ctx: Context) returns (failure: Option<Failure>)
      requires i < |authenticators| && Distinct(authenticators)
      modifies authenticators[i].Obj()
      ensures InitOutcome(authenticators[i].State(), failure) == old(authenticators[i].State()).Init(envVariablePrefix, ctx)
      ensures forall j :: 0 <= j < |authenticators| && j != i ==>
                authenticators[j].State() == old(authenticators[j].State())
    {
      failure := InitAuthenticator(authenticators[i], envVariablePrefix, ctx);
    }

    /** `init()`: the authenticators' `init(prefix)` in list order, stopping at the first throw. */
    method Init(ctx: Context) returns (failure: Option<Failure>)
      requires Distinct(authenticators)
      modifies Repr
      ensures var o := InitAll(old(States()), envVariablePrefix, ctx);
              States() == o.state && failure == o.failure
    {
      ghost var start := States();
      ghost var done: seq<AuthState> := [];
      var i := 0;
      while i < |authenticators|
        invariant 0 <= i <= |authenticators| && |done| == i
        invariant StepsSucceed(start, done, envVariablePrefix, ctx)
        invariant forall j :: 0 <= j < i ==> authenticators[j].State() == done[j]
        invariant forall j :: i <= j < |authenticators| ==> authenticators[j].State() == start[j]
      {
        var f := InitAt(i, ctx);
        ghost var step := start[i].Init(envVariablePrefix, ctx);
        if f.Some? {
          InitAllAfterSteps(start, done, envVariablePrefix, ctx);
          SpliceStates(States(), done, step.state, start);
          return f;
        }
        done := done + [step.state];
        i := i + 1;
      }
      InitAllAfterSteps(start, done, envVariablePrefix, ctx);
      assert States() == done;
      failure := None;
    }

    /** `createClient()`: one fresh client that every authenticator configures in list order. */
    method CreateClient() returns (r: Result<HttpClient, Failure>)
      ensures r.Success? ==> fresh(r.value)
      ensures var expected := ClientSetup(States(), []);
              if expected.Failure? then r == Failure(expected.error)
              else r.Success? && r.value.requestInterceptors == expected.value
    {
      ghost var states := States();
      var client := new HttpClient();
      var i := 0;
      while i < |authenticators|
        invariant 0 <= i <= |authenticators|
        invariant ClientSetup(states, []) == ClientSetup(states[i..], client.requestInterceptors)
      {
        ghost var before := client.requestInterceptors;
        assert States() == states;
        assert authenticators[i].State() == states[i];
        var c := ConfigureClientWith(authenticators[i], client);
        ClientSetupStep(states, i, before);
        if c.Failure? {
          assert States() == states;
          return Failure(c.error);
        }
        i := i + 1;
      }
      assert States() == states;
      r := Success(client);
    }

    /**
     * `configureRequest(request)`: folds every authenticator's `configureRequest` over
     * the merged options, so a throw propagates, and then returns the caller's
     * `request` itself, not the folded value.
     */
    method ConfigureRequest(request: RequestConfig) returns (r: Result<RequestConfig, Failure>)
      ensures var folded := AuthenticatedRequest(States(), Merge(defaultRequestConfig, request));
              r == if folded.Success? then Success(request) else Failure(folded.error)
    {
      var configured := Merge(defaultRequestConfig, request);
      var i := 0;
      while i < |authenticators|
        invariant 0 <= i <= |authenticators|
        invariant AuthenticatedRequest(States(), Merge(defaultRequestConfig, request)) ==
                  AuthenticatedRequest(States()[i..], configured)
      {
        var next := authenticators[i].ConfigureRequest(configured);
        AuthenticatedRequestStep(States(), i, configured);
        if next.Failure? {
          return Failure(next.error);
        }
        configured := next.value;
        i := i + 1;
      }
      r := Success(request);
    }

    /**
     * `requestData(request)`: client setup and request configuration run outside the
     * error handling, so their errors reach the caller unchanged; the transport gets
     * the configured client's interceptors and the caller's request, and its outcome
     * goes through `Delivered`.
     */
    method RequestData(request: RequestConfig, transport: (seq<Interceptor>, RequestConfig) -> TransportOutcome)
      returns (r: Result<Payload, Failure>)
      ensures var setup := ClientSetup(States(), []);
              var folded := AuthenticatedRequest(States(), Merge(defaultRequestConfig, request));
              r == if setup.Failure? then Failure(setup.error)
                   else if folded.Failure? then Failure(folded.error)
                   else Delivered(transport(setup.value, request))
    {
      var client := CreateClient();
      assert States() == old(States());
      if client.Failure? {
        return Failure(client.error);
      }
      var authenticated := ConfigureRequest(request);
      assert States() == old(States());
      if authenticated.Failure? {
        return Failure(authenticated.error);
      }
      var outcome := transport(client.value.requestInterceptors, authenticated.value);
      r := Delivered(outcome);
    }
  }
}
