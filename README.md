# Twilio ↔ OpenAI Realtime relay: a Dafny model

This project models the per-call relay of a voice gateway. An incoming call gets a TwiML
answer that points Twilio's media stream at `wss://{host}/media-stream/{session_id}`. The
websocket handler on that route opens a connection to the OpenAI Realtime API and first
sends a `session.update`. It then runs two pumps that share one variable, the Twilio
stream id:

- **inbound (Twilio → OpenAI):** a `media` frame becomes an `input_audio_buffer.append`
  while the OpenAI socket is open. A `start` frame records `streamSid`. Anything else is
  ignored.
- **outbound (OpenAI → Twilio):** a `response.audio.delta` is base64-decoded and
  re-encoded, then sent to Twilio as a `media` frame stamped with the current stream id. A
  finished call of the `get_additional_context` tool is answered with a
  `function_call_output` item followed by `response.create`.

Modules:

- `Wrappers`: `Option`.
- `JsonValue`: decoded JSON values, Python's `d[key]` (which can raise) and truthiness.
- `Base64`: Python's `b64encode` and its non-strict `b64decode`, written out as the
  `a2b_base64` state machine. The decode/encode round trip is proved here, not assumed.
- `Messages`: the dictionaries the relay writes, a parser for each (so the round trip shows
  no two messages are written alike), the `session.update` payload and the tool declaration.
- `IncomingCall`: the stream URL, how the websocket route reads it back, and the shape of
  the generated session id.
- `Relay`: how one message is routed (pure functions), the session state `Snapshot` with
  one step per kind of arrival, runs of each pump, runs of any interleaving of the two, and
  the properties of all of these.
- `CallSessions`: the class `CallSession`. Its mutable fields are updated by one method per
  arrival and by the loop methods for the two pumps. Each method is specified by the
  matching `Relay` function.

The library calls the relay depends on are parameters (`Relay.Env`):

- `loads` stands for `json.loads`; `None` means it raises.
- `lookup` stands for the knowledge client behind the tool; `None` means that client raises.
- `sessionId` is the session id taken from the websocket path.

Each exception is modelled where the code catches it:

- One raised by the inbound loop body (a `json.loads` error, KeyError or TypeError) is not
  caught there, since that pump catches only `WebSocketDisconnect`. It escapes the gathered pumps, and
  the `async with` block then closes the OpenAI socket (`Relay.TearDown`). The model ends
  the outbound pump at that moment too (see "## Left out").
- One raised in the outbound pump outside the audio `try` ends only that pump.
- One raised while re-encoding audio drops that one delta.

Behaviour of the code that a reader might not expect, which the model follows:

- Audio that arrives before any `start` frame is stamped with a null stream id. It is not
  held back (`Relay.NullStreamSidBeforeStart`).
- There is one tool, with no retries. A failing lookup ends the outbound pump.
- A malformed OpenAI event ends the outbound pump; it is not skipped. A malformed Twilio
  frame ends the whole session; it is not skipped either.
- A `response.function_call_arguments.done` event has its arguments parsed before its tool
  name is compared, so a call of an unknown tool with malformed arguments ends the pump too.

## Model

| member | source | states |
|---|---|---|
| `JsonValue.Get` | main.py:92 | the model of `d[key]`: the value of `key` when `d` is an object holding it, otherwise the KeyError or TypeError Python raises |
| `JsonValue.At` | main.py:95-99 | a chain of subscripts such as `data['media']['payload']`: no subscripts give the value itself, one is `d[key]`, two are `d[k0]` and then `[k1]` on its value, any subscript of a non-object raises, and a chain succeeds only if its first subscript does |
| `JsonValue.AtConcat` | main.py:95-99 | subscripting along `p + q` is subscripting along `p` and then along `q` from its value, failing as soon as either part fails |
| `JsonValue.GetOrNull` | main.py:116 | `d.get(key)` agrees with `d[key]` when that succeeds and is `None` otherwise, so a truthy `get` means the later `d[key]` succeeds with the same value |
| `JsonValue.Truthy` | main.py:116 | the model of `bool(v)` on a decoded JSON value: false exactly for `None`, `False`, numeric zero, the empty string, the empty list and the empty dictionary |
| `Base64.Decode` | main.py:119 | `base64.b64decode` on a delta: non-ASCII text raises, otherwise CPython's non-strict decoder runs (`Base64.A2b`) |
| `Base64.A2b` | main.py:119 | the decoder loop: characters outside the alphabet are skipped, a complete padding stops it, an incomplete final group raises |
| `Base64.Encode` | main.py:119 | `base64.b64encode`: three bytes per four characters, the last group padded with `=`; the length is a multiple of four |
| `Base64.Reencode` | main.py:119 | the composite `b64encode(b64decode(delta))` that produces the payload sent to Twilio |
| `Base64.DecodeEncode` | main.py:119 | decoding what `b64encode` wrote gives back exactly the encoded bytes, for every byte string |
| `Base64.A2bEncode` | main.py:119 | for every byte string and every following text, decoding the encoding appends exactly those bytes; after a padded group nothing further is read |
| `Base64.ReencodeCanonical` | main.py:119 | a canonical base64 delta is re-encoded to itself, so the payload sent equals the delta |
| `Base64.EncodeIsAscii` | main.py:119 | the re-encoded payload is ASCII, so `.decode('utf-8')` cannot fail |
| `Base64.EncodeAppend` | main.py:119 | after whole groups of three bytes, the rest of the bytes is encoded on its own |
| `Base64.MissingPaddingRejected` | main.py:119 | after any whole groups, a final group of two or three data characters without padding, or of two with a single `=`, makes the decoder raise |
| `Base64.LoneCharacterRejected` | main.py:119 | after any whole groups, one further data character makes the decoder raise |
| `Base64.DecodeLastOne` | main.py:119 | after any whole groups, a padded one-byte final group decodes to its byte, whatever its unused bits |
| `Base64.DecodeLastTwo` | main.py:119 | after any whole groups, a padded two-byte final group decodes to its bytes, whatever its unused bits |
| `Base64.LowBitsDropped` | main.py:119 | for every one-byte final group with non-zero unused bits, the delta decodes, but the payload sent is the canonical text and differs from the delta |
| `Base64.LowBitsDroppedTwo` | main.py:119 | the same for every two-byte final group with non-zero unused bits |
| `Base64.DataAfterPaddingIgnored` | main.py:119 | for every byte string ending in a padded group and every ASCII text after it, the text is ignored and the payload sent is the canonical text alone |
| `Messages.ToolDeclaration` | main.py:173-188 | the declaration of the `get_additional_context` tool, key for key |
| `Messages.SessionConfig` | main.py:158-192 | the session declares `g711_ulaw` for input and output audio and exactly one tool, the declared one |
| `Messages.ToolDeclarationFacts` | main.py:173-188 | the tool is a function named `get_additional_context` whose only required parameter is the string `query` |
| `Messages.ToJson` | main.py:93-96 | the dictionaries written for an audio append (93-96), a function result (136-143), `response.create` (145) and the session update (158-160) |
| `Messages.ParseToJson` | main.py:93-96 | every message the relay sends to OpenAI (audio append, function result, `response.create`, session update) is read back as itself |
| `Messages.ToJsonInjective` | main.py:136-145 | two different messages to OpenAI are never written as the same dictionary |
| `Messages.MediaJson` | main.py:120-126 | the media frame written for Twilio: event `media`, the stream id, and the payload under `media` |
| `Messages.ParseMediaJson` | main.py:120-127 | the media frame sent to Twilio is read back with its stream id and payload |
| `IncomingCall.StreamUrl` | main.py:65 | the stream URL `wss://{host}/media-stream/{session_id}` |
| `IncomingCall.MatchRoute` | main.py:69 | a path the route accepts is the route prefix followed by one non-empty segment, which is the session id |
| `IncomingCall.SplitAuthorityOf` | main.py:65 | a host without `/` followed by a path is split exactly at the path |
| `IncomingCall.StreamUrlRoundTrip` | main.py:65-69 | the stream URL is read back as its host and route path, and the route hands back the session id |
| `IncomingCall.GeneratedIdIsRouted` | main.py:59-69 | the UUID-4 session id generated for a call always reaches the websocket handler unchanged |
| `Relay.RouteTwilioFrame` | main.py:92-100 | what one decoded Twilio frame causes: an append while OpenAI is open, a new stream id, nothing, or a raise when a field it reads is missing |
| `Relay.RouteTwilio` | main.py:90-100 | the same for the frame's text, where a text `json.loads` rejects raises |
| `Relay.TearDown` | main.py:89-104 | an exception out of the inbound pump: both pumps end and the OpenAI socket is closed |
| `Relay.InboundStep` | main.py:90-100 | one pass of the inbound loop body on the session state; nothing happens once the pump has ended |
| `Relay.TwilioEnd` | main.py:101-104 | the end of Twilio's stream: the OpenAI socket is closed only on `WebSocketDisconnect` and only if still open |
| `Relay.RunInbound` | main.py:86-104 | the inbound loop over Twilio's texts, stopping for good once the pump has ended |
| `Relay.RunInboundSplit` | main.py:90-100 | running the inbound loop over two parts of the stream is running it over each in turn |
| `Relay.CrashEndsInboundRun` | main.py:89-104 | a Twilio frame that raises ends the inbound loop and tears the session down; no later frame is handled |
| `Relay.MediaFrameForwarded` | main.py:92-97 | a media frame adds exactly one audio append carrying its payload while OpenAI is open, and changes nothing once it is closed, whether or not the frame carries a payload |
| `Relay.StartFrameRecorded` | main.py:98-99 | a start frame sets the stream id to `start.streamSid`, sends nothing and changes nothing else |
| `Relay.OtherFrameIgnored` | main.py:90-100 | a frame with any other event leaves the whole session unchanged |
| `Relay.MalformedFrameEndsSession` | main.py:89-104 | an undecodable frame, or one missing the fields its event needs, ends both pumps and closes the OpenAI socket |
| `Relay.StreamSidOnlyFromStart` | main.py:85-100 | the inbound pump changes the stream id only on a start frame and never writes to Twilio |
| `Relay.ReencodeDelta` | main.py:118-129 | the payload for an audio delta; a delta that is not text or does not decode gives none |
| `Relay.RouteFunctionCall` | main.py:130-145 | a finished function call: missing fields, unparsable arguments, a missing query or a failing lookup end the pump; the declared tool is answered; any other tool is ignored |
| `Relay.RouteServerEvent` | main.py:111-145 | what one decoded OpenAI event causes: a media frame, an answer, nothing, or the end of the pump |
| `Relay.RouteOpenAI` | main.py:110-147 | the same for the event's text, where a text `json.loads` rejects ends the pump |
| `Relay.OutboundStep` | main.py:110-147 | one pass of the outbound loop body on the session state; nothing happens once the pump has ended |
| `Relay.OpenAIEnd` | main.py:110 | the OpenAI socket closes, which ends the outbound iteration |
| `Relay.RunOutbound` | main.py:106-147 | the outbound loop over OpenAI's texts, stopping for good once the pump has ended |
| `Relay.Deliver` | main.py:149 | one arrival under the interleaving of the two gathered pumps, handled by its own pump: Twilio's arrivals never write to Twilio, OpenAI's never change the stream id or the inbound pump, and each stream's end stops its pump and sends nothing |
| `Relay.Initial` | main.py:84-85 | the state after setup: the session update sent, no stream id, both pumps running |
| `Relay.RunSchedule` | main.py:86-149 | a whole call under one interleaving of the two pumps |
| `Relay.AudioDeltaForwarded` | main.py:116-127 | a non-empty delta that decodes adds exactly one Twilio media frame, stamped with the current stream id and carrying the re-encoded payload |
| `Relay.CanonicalDeltaEchoed` | main.py:116-127 | for canonical base64 that frame carries the delta unchanged |
| `Relay.DeltaWithoutAudioDropped` | main.py:116-129 | a missing, empty or undecodable delta sends nothing and the pump carries on |
| `Relay.ToolCallAnswered` | main.py:130-145 | a call of `get_additional_context` sends exactly the lookup result for its call id, then `response.create`, and nothing else |
| `Relay.OtherToolIgnored` | main.py:130-134 | a well-formed call of any other tool is left unanswered and changes nothing |
| `Relay.MalformedCallStops` | main.py:130-147 | a malformed function call or a failed lookup ends the outbound pump without sending anything |
| `Relay.FunctionCallStopsIff` | main.py:130-147 | a function call ends the pump exactly when a field is missing, the arguments do not parse, or (for the declared tool) the query is missing or the lookup fails |
| `Relay.OtherEventIgnored` | main.py:112-116 | any other event kind, including the logged ones and `session.updated`, changes nothing |
| `Relay.UntypedEventStops` | main.py:110-114 | an undecodable event or one without `type` ends the outbound pump |
| `Relay.OutboundLeavesStreamSid` | main.py:106-147 | the outbound pump never changes the stream id and sends on at most one socket per event |
| `Relay.InitialInv` | main.py:84-85 | the invariant holds right after setup |
| `Relay.AnswerKeepsInv` | main.py:144-145 | answering a call keeps function results and `response.create` strictly alternating |
| `Relay.ScheduleKeepsInv` | main.py:84-149 | under every interleaving of the pumps the session update stays first and unrepeated, the outbound pump runs only while OpenAI is open, and each function result is followed by its `response.create` |
| `Relay.SessionConfigSentFirst` | main.py:84 | whatever happens in a call, the first message OpenAI received is the session update with the configuration |
| `Relay.LogsOnlyGrow` | main.py:86-149 | what has been sent on either socket is never taken back |
| `Relay.RunOutboundSplit` | main.py:110-147 | running the outbound loop over two parts of the stream is running it over each in turn |
| `Relay.NothingHandledAfterStop` | main.py:109-147 | once an event ends the outbound pump, no later OpenAI event is handled |
| `Relay.StoppedStepSilent` | main.py:109-147 | after the outbound pump has ended, no single arrival sends to Twilio, answers a call or restarts the pump |
| `Relay.StoppedOutboundStaysSilent` | main.py:109-149 | after the outbound pump has ended, nothing more is sent to Twilio and no call is answered, whatever arrives |
| `Relay.NothingSentAfterClose` | main.py:92-104 | once the OpenAI socket is closed, it stays closed and nothing more is sent to it |
| `Relay.NullStreamSidBeforeStart` | main.py:85-122 | until a start frame arrives, the stream id stays null and every frame sent to Twilio carries the null stream id |
| `CallSessions.CallSession.constructor` | main.py:77-85 | the new session has sent only the session update, knows no stream id and has both pumps running |
| `CallSessions.CallSession.OnTwilioText` | main.py:91-100 | one inbound message updates the fields exactly as `Relay.InboundStep` says and keeps the invariant |
| `CallSessions.CallSession.OnOpenAIText` | main.py:111-145 | one outbound message updates the fields exactly as `Relay.OutboundStep` says and keeps the invariant |
| `CallSessions.CallSession.OnTwilioEnd` | main.py:101-104 | the end of Twilio's stream closes the OpenAI socket only on `WebSocketDisconnect` |
| `CallSessions.CallSession.OnOpenAIEnd` | main.py:110 | the OpenAI socket closing ends the outbound pump |
| `CallSessions.CallSession.ReceiveFromTwilio` | main.py:86-104 | the inbound loop leaves the session as the inbound run followed by the end of the stream |
| `CallSessions.CallSession.SendToTwilio` | main.py:106-147 | the outbound loop leaves the session as the outbound run, then the socket closing if the stream ran out |
| `CallSessions.CallSession.Run` | main.py:149 | any interleaving of the two pumps leaves the session as `Relay.RunSchedule` says and keeps the invariant |

## Left out

- FastAPI routing, `index_page`, the TwiML built with the Twilio library, and the pause in it (main.py:52-67): only the stream URL and the route are modelled.
- Accepting and connecting the sockets, the OpenAI URL and headers, and closing (main.py:75-83): the model starts with the OpenAI socket connected. A failed connection is not modelled.
- Relay.TearDown, Relay.OpenAIEnd, Relay.TwilioEnd: closing the OpenAI socket ends the outbound pump in the same step. In the code, `asyncio.gather` (main.py:149) does not cancel `send_to_twilio` when the inbound pump raises, and the `async for` at main.py:110 can still yield messages that had already been received. Such queued messages are not modelled: a queued audio delta still forwarded to Twilio, or a queued tool call whose lookup runs before its send fails. `Relay.NothingSentAfterClose` and the invariant's "the outbound pump runs only while the OpenAI socket is open" hold of the model, not of that window.
- The concurrency of `asyncio.gather` (main.py:149) is modelled as an arbitrary interleaving of whole loop bodies. The model does not let the inbound pump run between the two awaited sends of a function answer. The alternation property is stated on the outbound pump's own messages, which such an interleaving would not change.
- Send failures (`send` or `send_json` raising) are not modelled: every send succeeds.
- `json.loads`, and the knowledge lookup `get_additional_context` with its CustomGPT client (main.py:151-154), are the parameters `loads` and `lookup`. `json.dumps` is replaced by the dictionaries `Messages.ToJson` and `Messages.MediaJson` build.
- JSON numbers are decimals (`mantissa * 10^exponent`). The two 0.6 settings (main.py:163, 172) are `JNum(6, -1)`. No floating point is modelled.
- Logging: `LOG_EVENT_TYPES`, the `session.updated` message and every `print` (main.py:40-44, 112-115). These events are routed like any other ignored event.
- The module-level configuration (API keys, `PORT`, the missing-key check, the unused first system message) at main.py:14-49.
- Base64: `Base64.Decode` follows CPython's non-strict `a2b_base64` as of Python 3.11. Variations in older interpreters are not modelled.
- The end of Twilio's stream is the parameter `raisedDisconnect`. Whether the websocket library raises `WebSocketDisconnect` or ends the iteration quietly is outside this model.
- Barge-in, the idle watchdog, DTMF transfer, retries and the transfer store are not part of the code, so they are not modelled.
