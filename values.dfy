/** The values the trap-notification handler passes around: the event the
    button device reports, the request record, the replies of the two remote
    services, the messages sent to the chat group and the errors that end an
    invocation. */
module Values {

  datatype Option<+T> = None | Some(value: T)

  /** A JavaScript number as far as the handler observes it: it is only tested
      for truthiness and passed on unchanged. Negative zero is not told apart
      from zero; both are falsy. */
  datatype JsNumber = NaN | Infinity(negative: bool) | Finite(value: real)

  /** JavaScript truthiness of a number: false exactly for 0, -0 and NaN. */
  predicate Truthy(n: JsNumber): (b: bool)
    ensures b <==> n != NaN && n != Finite(0.0)
  {
    match n
    case NaN => false
    case Infinity(_) => true
    case Finite(v) => v != 0.0
  }

  datatype ClickType = Single | Double | Long

  /** The four battery levels the device reports: 0.25, 0.5, 0.75 and 1.0. */
  datatype BatteryLevel = Quarter | Half | ThreeQuarters | Full

  function Fraction(level: BatteryLevel): (f: real) {
    match level
    case Quarter => 0.25
    case Half => 0.5
    case ThreeQuarters => 0.75
    case Full => 1.0
  }

  /** `batteryLevel * 100`: every level times one hundred is a whole number,
      so the percentage is exact. */
  function Percent(level: BatteryLevel): (p: nat)
    ensures p as real == Fraction(level) * 100.0
    ensures 25 <= p <= 100 && p % 25 == 0
  {
    match level
    case Quarter => 25
    case Half => 50
    case ThreeQuarters => 75
    case Full => 100
  }

  /** The event payload handed to the handler. */
  datatype SoracomEvent = SoracomEvent(clickType: ClickType, batteryLevel: BatteryLevel, binaryParserEnabled: bool)

  datatype Location = Location(lat: JsNumber, lon: JsNumber)

  /** The request record: taken from the invocation's client context in
      production, synthesised in test mode. */
  datatype SoracomRequest = SoracomRequest(simId: string, imsi: string, location: Location)

  datatype SimData = SimData(simName: string)

  /** Body of the credential exchange: the handler keeps only apiKey and token. */
  datatype AuthBody = AuthBody(apiKey: string, operatorId: string, token: string, userName: string)

  /** Body of the SIM lookup; `tags` is absent from a malformed record. */
  datatype SimBody = SimBody(tags: Option<map<string, string>>)

  /** Request headers, by header name. */
  type AuthHeaders = map<string, string>

  datatype AuthCredentials = AuthCredentials(authKey: string, authKeyId: string)

  /** The reply a fetch settles with: a transport failure, or a status and a
      body that is None when it cannot be parsed as JSON. */
  datatype Response<T> = Response(status: int, body: Option<T>) | NetworkError {
    /** `res.ok`: the status is in the 2xx range. */
    predicate Ok() {
      Response? && 200 <= status <= 299
    }

    /** An ok reply whose JSON body could be read. */
    predicate Usable() {
      Ok() && body.Some?
    }
  }

  /** How the chat service's push call settles. */
  datatype Settlement = Resolved | Rejected

  /** One part of the message batch pushed to the group. */
  datatype Message =
    | TextMessage(text: string)
    | LocationMessage(title: string, address: string, latitude: JsNumber, longitude: JsNumber)

  /** A call the handler puts on the network, with what identifies it. */
  datatype Request =
    | SoracomPost(url: string, body: AuthCredentials)
    | SoracomGet(url: string, headers: AuthHeaders)
    | LinePush(channelAccessToken: string, to: string, messages: seq<Message>)

  /** Everything that can end an invocation with an exception. */
  datatype Error =
    | EnvNotSet
    | NetworkFailure
    | AuthRejected
    | NotAuthenticated
    | SimLookupRejected
    | MalformedJson
    | TagsMissing
    | PushRejected

  datatype Result<+T> = Success(value: T) | Failure(error: Error)

  datatype Outcome = Pass | Fail(error: Error)
}
