/** The invocation: the configuration gate, the fork between test mode and
    production, and the calls in the order the handler makes them. The
    settings, the client context and the replies of the remote services are
    parameters; the result is how the invocation ends and the requests it put
    on the network, in order. */
module TrapNotify {
  import opened Values
  import opened Text
  import opened Soracom
  import opened Line

  /** The environment the handler reads: an unset variable is None. TEST_LAT
      and TEST_LON are given already converted to numbers. */
  datatype Env = Env(
    soracomAuthKey: Option<string>,
    soracomAuthKeyId: Option<string>,
    lineToken: Option<string>,
    lineGroupId: Option<string>,
    testSimId: Option<string>,
    testLat: Option<JsNumber>,
    testLon: Option<JsNumber>)

  /** The invocation context: a null client context selects test mode. */
  datatype Context = Context(clientContext: Option<SoracomRequest>)

  /** What the remote services answer in this invocation. */
  datatype Replies = Replies(auth: Response<AuthBody>, sim: Response<SimBody>, push: Settlement)

  datatype Settings = Settings(authKey: string, authKeyId: string, lineToken: string, lineGroupId: string)

  /** `value ?? ""` */
  function OrEmpty(v: Option<string>): (s: string)
    ensures s == "" <==> v.None? || v == Some("")
    ensures v.Some? ==> s == v.value
  {
    match v
    case None => ""
    case Some(s) => s
  }

  /** `Number(value)` of an environment variable: unset gives NaN. */
  function EnvNumber(v: Option<JsNumber>): (n: JsNumber)
    ensures v.None? ==> n == NaN && !Truthy(n)
    ensures v.Some? ==> n == v.value
  {
    match v
    case None => NaN
    case Some(n) => n
  }

  predicate Present(v: Option<string>) {
    v.Some? && v.value != ""
  }

  /** The four settings must all be set and non-empty; an unset variable
      counts as empty. */
  function ConfigGate(env: Env): (r: Result<Settings>)
    ensures r.Success? <==>
      Present(env.soracomAuthKey) && Present(env.soracomAuthKeyId) && Present(env.lineToken) && Present(env.lineGroupId)
    ensures r.Failure? ==> r.error == EnvNotSet
    ensures r.Success? ==>
      r.value == Settings(env.soracomAuthKey.value, env.soracomAuthKeyId.value, env.lineToken.value, env.lineGroupId.value)
  {
    var authKey := OrEmpty(env.soracomAuthKey);
    var authKeyId := OrEmpty(env.soracomAuthKeyId);
    var lineToken := OrEmpty(env.lineToken);
    var lineGroupId := OrEmpty(env.lineGroupId);
    if authKey == "" || authKeyId == "" || lineGroupId == "" || lineToken == "" then
      Failure(EnvNotSet)
    else
      Success(Settings(authKey, authKeyId, lineToken, lineGroupId))
  }

  const TestImsi: string := "test_imsi"
  const TestSimName: string := "[TEST] テスト中 [TEST]"

  /** The request record synthesised in test mode. */
  function TestRequest(env: Env): (req: SoracomRequest)
    ensures req.imsi == TestImsi
    ensures req.simId == (if env.testSimId.Some? then env.testSimId.value else "")
    ensures req.location.lat == (if env.testLat.Some? then env.testLat.value else NaN)
    ensures req.location.lon == (if env.testLon.Some? then env.testLon.value else NaN)
    ensures env.testLat.None? ==> !Truthy(req.location.lat)
    ensures env.testLon.None? ==> !Truthy(req.location.lon)
  {
    SoracomRequest(OrEmpty(env.testSimId), TestImsi, Location(EnvNumber(env.testLat), EnvNumber(env.testLon)))
  }

  /** The production branch: a fresh client authenticates, then looks the
      SIM up. Each step's error is the branch's error; a failed exchange stops
      it before the lookup. */
  method LookupSim(settings: Settings, simId: string, replies: Replies) returns (r: Result<SimData>, calls: seq<Request>)
    ensures |calls| == (if replies.auth.Usable() then 2 else 1)
    ensures calls[0] == SoracomPost(BaseUri + "/auth", AuthCredentials(settings.authKey, settings.authKeyId))
    ensures replies.auth.Usable() ==> calls[1] == SoracomGet(BaseUri + "/sims/" + simId, HeadersFrom(replies.auth.body.value))
    ensures r.Success? <==> replies.auth.Usable() && SimUsable(replies.sim)
    ensures r.Success? ==> r.value == SimData(NameTag(replies.sim.body.value.tags.value))
    ensures !replies.auth.Usable() ==> r == Failure(AuthError(replies.auth).value)
    ensures replies.auth.Usable() && !SimUsable(replies.sim) ==> r == Failure(SimError(replies.sim).value)
    ensures r != Failure(NotAuthenticated)
  {
    var soracomApi := new SoracomApi(settings.authKey, settings.authKeyId);
    var posted, authResult := soracomApi.Auth(replies.auth);
    calls := [posted];
    if authResult.Fail? {
      return Failure(authResult.error), calls;
    }
    var fetched;
    fetched, r := soracomApi.GetSimData(simId, replies.sim);
    calls := calls + [fetched.value];
  }

  method Handler(env: Env, event: SoracomEvent, context: Context, replies: Replies) returns (r: Outcome, calls: seq<Request>)
    // a missing setting ends the invocation before any call
    ensures ConfigGate(env).Failure? ==> r == Fail(EnvNotSet) && calls == []
    // test mode: no call to the device API, the placeholder name, one push
    ensures ConfigGate(env).Success? && context.clientContext.None? ==>
      calls == [LinePush(env.lineToken.value, env.lineGroupId.value,
                         Compose(LineGroupMessage(SimData(TestSimName), TestRequest(env), event)))]
    // production: authentication comes first
    ensures ConfigGate(env).Success? && context.clientContext.Some? ==>
      |calls| >= 1 && calls[0] == SoracomPost(BaseUri + "/auth", AuthCredentials(env.soracomAuthKey.value, env.soracomAuthKeyId.value))
    // a failed exchange ends the invocation with the error it raised, before the lookup
    ensures ConfigGate(env).Success? && context.clientContext.Some? && !replies.auth.Usable() ==>
      |calls| == 1 && r == Fail(AuthError(replies.auth).value)
    // then the lookup, with the headers the exchange produced
    ensures ConfigGate(env).Success? && context.clientContext.Some? && replies.auth.Usable() ==>
      |calls| >= 2 &&
      calls[1] == SoracomGet(BaseUri + "/sims/" + context.clientContext.value.simId, HeadersFrom(replies.auth.body.value))
    // a failed lookup ends the invocation with the error it raised, before the push
    ensures ConfigGate(env).Success? && context.clientContext.Some? && replies.auth.Usable() && !SimUsable(replies.sim) ==>
      |calls| == 2 && r == Fail(SimError(replies.sim).value)
    // the production path never meets the "not authenticated" refusal
    ensures context.clientContext.Some? ==> r != Fail(NotAuthenticated)
    // then the push, with the name the lookup returned
    ensures ConfigGate(env).Success? && context.clientContext.Some? && replies.auth.Usable() && SimUsable(replies.sim) ==>
      |calls| == 3 &&
      calls[2] == LinePush(env.lineToken.value, env.lineGroupId.value,
                           Compose(LineGroupMessage(SimData(NameTag(replies.sim.body.value.tags.value)), context.clientContext.value, event)))
    // the push is made at most once, as the last call, and success means it was made and resolved
    ensures forall i :: 0 <= i < |calls| - 1 ==> !calls[i].LinePush?
    ensures r.Pass? <==> |calls| > 0 && calls[|calls| - 1].LinePush? && replies.push == Resolved
    ensures |calls| > 0 && calls[|calls| - 1].LinePush? && replies.push == Rejected ==> r == Fail(PushRejected)
  {
    var gate := ConfigGate(env);
    if gate.Failure? {
      return Fail(EnvNotSet), [];
    }
    var settings := gate.value;
    var requestObj: SoracomRequest;
    var simData: SimData;
    if context.clientContext.None? {
      requestObj := TestRequest(env);
      simData := SimData(TestSimName);
      calls := [];
    } else {
      requestObj := context.clientContext.value;
      var lookup;
      lookup, calls := LookupSim(settings, requestObj.simId, replies);
      if lookup.Failure? {
        return Fail(lookup.error), calls;
      }
      simData := lookup.value;
    }
    var lineApi := new LineApi(settings.lineToken);
    var pushed;
    pushed, r := lineApi.SendGroup(settings.lineGroupId, LineGroupMessage(simData, requestObj, event), replies.push);
    calls := calls + [pushed];
  }
}
