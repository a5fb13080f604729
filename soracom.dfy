/** The client of the device-management API. Its one piece of mutable state
    is `authHeaders`: unset when the client is built, set by a successful
    credential exchange, and required by the SIM lookup. Each call takes the
    reply the remote side gives and returns the request it put on the wire. */
module Soracom {
  import opened Values

  const BaseUri: string := "https://api.soracom.io/v1"

  const ApiKeyHeader: string := "X-Soracom-API-Key"
  const TokenHeader: string := "X-Soracom-Token"

  /** The headers a credential exchange yields: exactly the API key and the
      token, under their two header names. */
  function HeadersFrom(body: AuthBody): (h: AuthHeaders)
    ensures h.Keys == {ApiKeyHeader, TokenHeader}
    ensures h[ApiKeyHeader] == body.apiKey && h[TokenHeader] == body.token
  {
    map[ApiKeyHeader := body.apiKey, TokenHeader := body.token]
  }

  /** `body.tags.name`; a missing name renders as "undefined". */
  function NameTag(tags: map<string, string>): (name: string)
    ensures "name" in tags ==> name == tags["name"]
    ensures "name" !in tags ==> name == "undefined"
  {
    if "name" in tags then tags["name"] else "undefined"
  }

  /** A SIM lookup reply that yields a name: ok, readable, and carrying tags. */
  predicate SimUsable(res: Response<SimBody>) {
    res.Usable() && res.body.value.tags.Some?
  }

  /** The error a credential exchange reply raises, or None when the reply
      sets the headers. */
  function AuthError(res: Response<AuthBody>): (e: Option<Error>)
    ensures e.None? <==> res.Usable()
    ensures e != Some(NotAuthenticated)
  {
    match res
    case NetworkError => Some(NetworkFailure)
    case Response(_, body) =>
      if !res.Ok() then Some(AuthRejected)
      else if body.None? then Some(MalformedJson)
      else None
  }

  /** The error an authenticated SIM lookup reply raises, or None when it
      yields a name. */
  function SimError(res: Response<SimBody>): (e: Option<Error>)
    ensures e.None? <==> SimUsable(res)
    ensures e != Some(NotAuthenticated)
  {
    match res
    case NetworkError => Some(NetworkFailure)
    case Response(_, body) =>
      if !res.Ok() then Some(SimLookupRejected)
      else if body.None? then Some(MalformedJson)
      else if body.value.tags.None? then Some(TagsMissing)
      else None
  }

  class SoracomApi {
    const authKey: string
    const authKeyId: string
    var authHeaders: Option<AuthHeaders>

    constructor (authKey: string, authKeyId: string)
      ensures this.authKey == authKey && this.authKeyId == authKeyId
      ensures authHeaders == None
    {
      this.authKey := authKey;
      this.authKeyId := authKeyId;
      authHeaders := None;
    }

    /** POST /auth with the key and key id. Only a usable reply sets the
        headers; any failure leaves them as they were. */
    method Auth(res: Response<AuthBody>) returns (sent: Request, r: Outcome)
      modifies this
      ensures sent == SoracomPost(BaseUri + "/auth", AuthCredentials(authKey, authKeyId))
      ensures r.Pass? <==> res.Usable()
      ensures res.Usable() ==> authHeaders == Some(HeadersFrom(res.body.value))
      ensures !res.Usable() ==> authHeaders == old(authHeaders)
      ensures !res.Usable() ==> r == Fail(AuthError(res).value)
      ensures res.NetworkError? ==> r == Fail(NetworkFailure)
      ensures res.Response? && !res.Ok() ==> r == Fail(AuthRejected)
      ensures res.Ok() && res.body.None? ==> r == Fail(MalformedJson)
    {
      sent := SoracomPost(BaseUri + "/auth", AuthCredentials(authKey, authKeyId));
      match res
      case NetworkError =>
        r := Fail(NetworkFailure);
      case Response(status, body) =>
        if !res.Ok() {
          r := Fail(AuthRejected);
        } else if body.None? {
          r := Fail(MalformedJson);
        } else {
          authHeaders := Some(HeadersFrom(body.value));
          r := Pass;
        }
    }

    /** GET /sims/{simId} with the stored headers. Refused without any request
        while the client is not authenticated. */
    method GetSimData(simId: string, res: Response<SimBody>) returns (sent: Option<Request>, r: Result<SimData>)
      ensures authHeaders.None? ==> sent == None && r == Failure(NotAuthenticated)
      ensures authHeaders.Some? ==> sent == Some(SoracomGet(BaseUri + "/sims/" + simId, authHeaders.value))
      ensures r.Success? <==> authHeaders.Some? && SimUsable(res)
      ensures r.Success? ==> r.value == SimData(NameTag(res.body.value.tags.value))
      ensures authHeaders.Some? && !SimUsable(res) ==> r == Failure(SimError(res).value)
      ensures authHeaders.Some? && res.NetworkError? ==> r == Failure(NetworkFailure)
      ensures authHeaders.Some? && res.Response? && !res.Ok() ==> r == Failure(SimLookupRejected)
      ensures authHeaders.Some? && res.Ok() && res.body.None? ==> r == Failure(MalformedJson)
      ensures authHeaders.Some? && res.Usable() && res.body.value.tags.None? ==> r == Failure(TagsMissing)
    {
      if authHeaders.None? {
        return None, Failure(NotAuthenticated);
      }
      sent := Some(SoracomGet(BaseUri + "/sims/" + simId, authHeaders.value));
      match res
      case NetworkError =>
        r := Failure(NetworkFailure);
      case Response(status, body) =>
        if !res.Ok() {
          r := Failure(SimLookupRejected);
        } else if body.None? {
          r := Failure(MalformedJson);
        } else if body.value.tags.None? {
          r := Failure(TagsMissing);
        } else {
          r := Success(SimData(NameTag(body.value.tags.value)));
        }
    }
  }

  /** A client that was never authenticated refuses the lookup and sends nothing. */
  method FreshClientRefusesLookup(authKey: string, authKeyId: string, simId: string, res: Response<SimBody>)
    returns (sent: Option<Request>, r: Result<SimData>)
    ensures sent == None && r == Failure(NotAuthenticated)
  {
    var api := new SoracomApi(authKey, authKeyId);
    sent, r := api.GetSimData(simId, res);
  }

  /** On a fresh client, a failed exchange leaves it unauthenticated, so the
      lookup that follows it is refused. */
  method FailedAuthThenLookup(authKey: string, authKeyId: string, authRes: Response<AuthBody>, simId: string, simRes: Response<SimBody>)
    returns (authResult: Outcome, sent: Option<Request>, r: Result<SimData>)
    ensures !authRes.Usable() ==> authResult.Fail? && sent == None && r == Failure(NotAuthenticated)
    ensures authRes.Usable() ==> authResult.Pass? && sent == Some(SoracomGet(BaseUri + "/sims/" + simId, HeadersFrom(authRes.body.value)))
  {
    var api := new SoracomApi(authKey, authKeyId);
    var posted;
    posted, authResult := api.Auth(authRes);
    sent, r := api.GetSimData(simId, simRes);
  }
}
