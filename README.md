# Trap notification bridge — Dafny model

A model of the AWS Lambda handler in `index.ts` that turns a SORACOM button
event (a trap firing) into a LINE group notification. The handler checks four
settings, then either synthesises a test request (no client context) or
authenticates against the SORACOM API and looks up the SIM's name, and finally
pushes a text message — plus a location message when a coordinate is truthy —
to one LINE group.

Every network call is an oracle: the method that makes it takes the reply
(`Response<T>`: a transport failure, or a status and a JSON body that may not
parse; for the LINE push, `Resolved` or `Rejected`) as a parameter and returns
the `Request` it put on the wire. `TrapNotify.Handler` returns how the
invocation ends and the list of requests in the order they were made, so the
call order, the single push and "no call after a failure" are stated on its
results.

Modules (one file each):

- `Values` (`values.dfy`): event, request record, replies, messages, errors;
  JavaScript numbers as `NaN | Infinity | Finite(real)` with `Truthy`; the
  battery level as a four-valued enum with its exact percentage.
- `Text` (`text.dfy`): the notification text exactly as the template lays it
  out, the decimal printing of the percentage, and a parser that recovers
  the trap name and the percentage from the text.
- `Soracom` (`soracom.dfy`): class `SoracomApi` with the mutable field
  `authHeaders`, its credential exchange and its SIM lookup.
- `Line` (`line.dfy`): `Compose`, the message batch, and class `LineApi`
  whose `SendGroup` builds the batch part by part and pushes it once.
- `TrapNotify` (`handler.dfy`): the configuration gate, the test request,
  and the handler.

Behaviours of the code that the model keeps as they are:

- The location part is added when `lat || lon` is truthy. NaN, which is what
  an unset `TEST_LAT` gives, is falsy, so it adds no location part.
- A SIM record without `tags` fails, because reading `name` of undefined
  throws. A record whose tags have no `name` does not fail: the name renders
  as `undefined`.
- The configuration gate throws one error and does not say which settings
  are missing; the values are only logged.
- The session is a field that `auth()` sets and `getSimData` checks, not a
  value passed between calls.

## Model

| member | source | states |
|---|---|---|
| Values.Truthy | index.ts:213 | a coordinate counts as present exactly when it is neither NaN nor zero (negative zero included) |
| Values.Percent | index.ts:7 | each of the four battery levels times 100 is the exact whole percentage 25, 50, 75 or 100 |
| Text.Decimal | index.ts:208 | the percentage prints as a non-empty run of decimal digits with no leading zero |
| Text.NotificationText | index.ts:206-209 | the text part opens with the name label, the SIM name and the battery label, and ends with the percent sign and the fixed advisory lines |
| Text.DecimalRoundTrip | index.ts:208 | reading the printed digits back gives the number printed |
| Text.NotificationTextRoundTrip | index.ts:206-209 | the text part can be read back into exactly the SIM name and the battery percentage, whatever the name contains |
| Text.PercentShown | index.ts:208 | the percentage digits followed by `%` stand right after the battery label |
| Text.HalfBatteryReadsFiftyPercent | index.ts:208 | a battery level of 0.5 is shown as `50%` |
| Line.Compose | index.ts:206-222 | the batch starts with the text part built from the SIM name and battery level; it has a second, location part with lat and lon unchanged if and only if lat or lon is truthy, and otherwise only the text part |
| Line.ComposedTextReadsBack | index.ts:206-210 | the batch's first part reads back as exactly the SIM name and the battery percentage |
| Line.LineApi.constructor | index.ts:197-201 | the client keeps the channel access token it was built with |
| Line.LineApi.SendGroup | index.ts:203-229 | exactly one push, to the given group with the client's token, carrying the composed batch; a rejected push fails the call |
| Soracom.HeadersFrom | index.ts:142-145 | the headers are exactly `X-Soracom-API-Key` with the reply's apiKey and `X-Soracom-Token` with its token |
| Soracom.NameTag | index.ts:176-178 | the SIM name is the `name` tag, or `undefined` when the tags have none |
| Soracom.AuthError | index.ts:132-152 | a credential exchange reply raises an error exactly when it is not ok or its body cannot be read, and never the "not authenticated" refusal |
| Soracom.SimError | index.ts:166-183 | an authenticated lookup reply raises an error exactly when it is not ok, its body cannot be read or it has no tags, and never the "not authenticated" refusal |
| Soracom.SoracomApi.constructor | index.ts:108-120 | a new client holds its key and key id and has no auth headers |
| Soracom.SoracomApi.Auth | index.ts:122-153 | posts the key and key id to `/auth`; only an ok reply with a readable body sets the headers from that body's apiKey and token; a transport failure, a non-ok status or an unreadable body fails with its own error and leaves the headers unchanged |
| Soracom.SoracomApi.GetSimData | index.ts:155-184 | without headers it fails with "not authenticated" and sends nothing; otherwise it gets `/sims/{simId}` with the stored headers and returns the `name` tag exactly when the reply is ok, readable and has tags, failing with the matching error otherwise |
| Soracom.FreshClientRefusesLookup | index.ts:155-158 | a client that never authenticated refuses the lookup without any request |
| Soracom.FailedAuthThenLookup | index.ts:132-158 | after a failed exchange the lookup is refused; after a successful one it is sent with the headers from that exchange |
| TrapNotify.OrEmpty | index.ts:21-24 | an unset variable reads as the empty string, a set one as its value |
| TrapNotify.EnvNumber | index.ts:50-51 | an unset test coordinate is NaN, which is falsy; a set one is passed on unchanged |
| TrapNotify.ConfigGate | index.ts:21-33 | the gate passes if and only if all four settings are set and non-empty, and then yields them unchanged; otherwise it fails with "environment variable is not set" |
| TrapNotify.TestRequest | index.ts:46-53 | the test request has imsi `test_imsi`, the test SIM id or the empty string, and each coordinate is its test value when set and NaN (falsy) when unset |
| TrapNotify.LookupSim | index.ts:64-66 | a fresh client posts the credentials first; only a successful exchange is followed by the lookup with its headers; the result is the SIM name, or the error of the step that failed, never the "not authenticated" refusal |
| TrapNotify.Handler | index.ts:20-82 | a failed gate makes no call; test mode makes only the push, with the placeholder name; production makes the auth call first, the SIM lookup only after a successful auth and with its headers, and the push only after a successful lookup; a failed auth or lookup ends the invocation with that step's error; the push happens at most once, last, to the configured group, and the invocation succeeds only if it was made and resolved |

## Left out

- HTTP beyond the ok / not-ok status test and JSON parsing (a body either parses or does not): replies are oracle values. A parsed credential exchange body is taken to carry both `apiKey` and `token` as strings; a body without them (which the source would turn into `"undefined"` headers) or a `null` body (which throws) is not modelled. `Headers` objects are maps from header name to value. The `Content-Type` default header is not modelled; it is not part of the authenticated request in the source either.
- The LINE SDK client: only the batch handed to `pushMessage`, the token and the group are modelled, and the push either resolves or rejects.
- Logging (`console.*`, `JSON.stringify` of event and context): observability only.
- AWS `Context` and `process.env`: the settings and the optional client context are plain inputs; the client context is taken to be a well-formed request record, as the source's cast assumes.
- Conversion of `TEST_LAT` and `TEST_LON` from strings to numbers: the environment supplies the number, and an unset variable gives NaN.
- Floating point: coordinates are passed through unchanged and only tested for truthiness; negative zero is not distinguished from zero.
- Async chaining: the awaited calls are sequential method calls.
- `clickType`, `clickTypeName` and `binaryParserEnabled`: carried in the event (without `clickTypeName`) but read nowhere.
- Errors are constructors of `Error` rather than exception objects with messages.
