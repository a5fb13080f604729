/** The chat side: the message batch built from the request record, the SIM
    data and the event, and the single push of that batch to a group. */
module Line {
  import opened Values
  import opened Text

  const LocationTitle: string := "罠の所在地"
  const LocationAddress: string := "適当"

  /** What the handler hands to the sender. */
  datatype LineGroupMessage = LineGroupMessage(simData: SimData, soracomReq: SoracomRequest, soracomEvent: SoracomEvent)

  /** The message batch: the text part, then a location part only when a
      coordinate is truthy (the location lookup is billed). */
  function Compose(obj: LineGroupMessage): (messages: seq<Message>)
    ensures |messages| == (if Truthy(obj.soracomReq.location.lat) || Truthy(obj.soracomReq.location.lon) then 2 else 1)
    ensures messages[0] == TextMessage(NotificationText(obj.simData.simName, obj.soracomEvent.batteryLevel))
    ensures |messages| == 2 ==>
      messages[1] == LocationMessage(LocationTitle, LocationAddress, obj.soracomReq.location.lat, obj.soracomReq.location.lon)
  {
    var text := TextMessage(NotificationText(obj.simData.simName, obj.soracomEvent.batteryLevel));
    var loc := obj.soracomReq.location;
    if Truthy(loc.lat) || Truthy(loc.lon) then
      [text, LocationMessage(LocationTitle, LocationAddress, loc.lat, loc.lon)]
    else
      [text]
  }

  /** The batch's first part reads back as exactly the trap name and the
      battery percentage. */
  lemma ComposedTextReadsBack(obj: LineGroupMessage)
    ensures Compose(obj)[0].TextMessage?
    ensures ParseNotificationText(Compose(obj)[0].text) == Some((obj.simData.simName, Percent(obj.soracomEvent.batteryLevel)))
  {
    NotificationTextRoundTrip(obj.simData.simName, obj.soracomEvent.batteryLevel);
  }

  class LineApi {
    const token: string

    constructor (token: string)
      ensures this.token == token
    {
      this.token := token;
    }

    /** Builds the batch part by part and pushes it once to `toGroup` with
        this client's access token; a rejected push fails the call. */
    method SendGroup(toGroup: string, obj: LineGroupMessage, settlement: Settlement) returns (sent: Request, r: Outcome)
      ensures sent == LinePush(token, toGroup, Compose(obj))
      ensures r == (if settlement == Resolved then Pass else Fail(PushRejected))
    {
      var mustMessage := TextMessage(NotificationText(obj.simData.simName, obj.soracomEvent.batteryLevel));
      var messageList := [mustMessage];
      if Truthy(obj.soracomReq.location.lat) || Truthy(obj.soracomReq.location.lon) {
        var locationMessage := LocationMessage(LocationTitle, LocationAddress, obj.soracomReq.location.lat, obj.soracomReq.location.lon);
        messageList := messageList + [locationMessage];
      }
      sent := LinePush(token, toGroup, messageList);
      r := if settlement == Resolved then Pass else Fail(PushRejected);
    }
  }
}
