/**
 * The per-call relay between Twilio's media stream and the OpenAI Realtime socket.
 *
 * Two pumps share one piece of mutable state, the stream id. The inbound pump turns each
 * Twilio frame into an audio append for OpenAI or records the stream id. The outbound
 * pump turns each OpenAI server event into a Twilio media frame or answers a function
 * call. This module gives the routing of one message as pure functions, the session state
 * as a value (`Snapshot`) with one step function per kind of arrival, and the properties
 * of those steps and of any sequence of them. The class in module `CallSessions` runs the
 * same steps on mutable fields.
 */
module Relay {
  import opened Wrappers
  import opened JsonValue
  import opened Messages
  import Base64

  const MEDIA_EVENT := "media"
  const START_EVENT := "start"
  const AUDIO_DELTA := "response.audio.delta"
  const FUNCTION_CALL_DONE := "response.function_call_arguments.done"

  /**
   * What the relay calls but does not define: `json.loads` (`None` when it raises), the
   * knowledge lookup behind the tool (`None` when the client raises), and the session id
   * taken from the websocket path.
   */
  datatype Env = Env(
    sessionId: string,
    loads: string -> Option<Json>,
    lookup: (Json, string) -> Option<string>)

  // ---------------------------------------------------------------------------------
  // Inbound: one Twilio frame

  /**
   * The effect of one Twilio frame: forward audio to OpenAI, record the stream id, do
   * nothing, or raise (an exception the inbound pump does not catch).
   */
  datatype InboundAction = Append(audio: Json) | StartStream(streamSid: Json) | Skip | Crash

  /** The branches of the inbound loop body, on the decoded frame. */
  function RouteTwilioFrame(data: Json, openaiOpen: bool): InboundAction {
    match Get(data, "event")
    case None => Crash
    case Some(event) =>
      if event == JStr(MEDIA_EVENT) && openaiOpen then
        match At(data, ["media", "payload"])
        case None => Crash
        case Some(payload) => Append(payload)
      else if event == JStr(START_EVENT) then
        match At(data, ["start", "streamSid"])
        case None => Crash
        case Some(sid) => StartStream(sid)
      else Skip
  }

  function RouteTwilio(env: Env, text: string, openaiOpen: bool): InboundAction {
    match env.loads(text)
    case None => Crash
    case Some(data) => RouteTwilioFrame(data, openaiOpen)
  }

  /** Whether a Twilio text decodes to a frame whose event is `start`. */
  predicate IsStartFrame(env: Env, text: string) {
    match env.loads(text)
    case None => false
    case Some(data) => Get(data, "event") == Some(JStr(START_EVENT))
  }

  // ---------------------------------------------------------------------------------
  // Outbound: one OpenAI server event

  /**
   * The effect of one OpenAI event: send one media frame to Twilio, answer a function
   * call, do nothing and go on, or end the outbound pump (an exception caught outside
   * the loop).
   */
  datatype OutboundAction = Forward(frame: TwilioMedia) | Answer(callId: Json, output: string) | Drop | Stop

  /** Decoding and re-encoding a delta; a value that is not a string makes the decoder raise. */
  function ReencodeDelta(delta: Json): Option<string> {
    match delta
    case JStr(s) => Base64.Reencode(s)
    case _ => None
  }

  /**
   * A finished function call. Name, call id and arguments are read and the arguments are
   * parsed before the name is compared, so a malformed call ends the pump whatever tool
   * it names.
   */
  function RouteFunctionCall(env: Env, resp: Json): OutboundAction {
    match (Get(resp, "name"), Get(resp, "call_id"), Get(resp, "arguments"))
    case (Some(name), Some(callId), Some(JStr(argText))) =>
      (match env.loads(argText)
       case None => Stop
       case Some(arguments) =>
         if name == JStr(TOOL_NAME) then
           match Get(arguments, "query")
           case None => Stop
           case Some(query) =>
             match env.lookup(query, env.sessionId)
             case None => Stop
             case Some(result) => Answer(callId, result)
         else Drop)
    case _ => Stop
  }

  /** The branches of the outbound loop body, on the decoded event. */
  function RouteServerEvent(env: Env, resp: Json, streamSid: Json): OutboundAction {
    match Get(resp, "type")
    case None => Stop
    case Some(kind) =>
      var delta := GetOrNull(resp.fields, "delta");
      if kind == JStr(AUDIO_DELTA) && Truthy(delta) then
        match ReencodeDelta(delta)
        case None => Drop
        case Some(payload) => Forward(TwilioMedia(streamSid, payload))
      else if kind == JStr(FUNCTION_CALL_DONE) then
        RouteFunctionCall(env, resp)
      else Drop
  }

  function RouteOpenAI(env: Env, text: string, streamSid: Json): OutboundAction {
    match env.loads(text)
    case None => Stop
    case Some(resp) => RouteServerEvent(env, resp, streamSid)
  }

  // ---------------------------------------------------------------------------------
  // Session state and its steps

  /**
   * The session: the shared stream id, whether the OpenAI socket is open, whether each
   * pump is still running, and everything sent so far on each socket.
   */
  datatype Snapshot = Snapshot(
    streamSid: Json,
    openaiOpen: bool,
    inboundLive: bool,
    outboundLive: bool,
    openaiSent: seq<ClientEvent>,
    twilioSent: seq<TwilioMedia>)

  /** The OpenAI socket is connected, the session update is sent, no stream id yet. */
  function Initial(): Snapshot {
    Snapshot(JNull, true, true, true, [SessionUpdate(SessionConfig())], [])
  }

  /**
   * An exception out of the inbound pump leaves the gathered pumps and the `async with`
   * block, which closes the OpenAI socket and with it ends the outbound pump.
   */
  function TearDown(s: Snapshot): Snapshot {
    s.(openaiOpen := false, inboundLive := false, outboundLive := false)
  }

  function InboundStep(env: Env, s: Snapshot, text: string): Snapshot {
    if !s.inboundLive then s
    else
      match RouteTwilio(env, text, s.openaiOpen)
      case Append(audio) => s.(openaiSent := s.openaiSent + [AudioAppend(audio)])
      case StartStream(sid) => s.(streamSid := sid)
      case Skip => s
      case Crash => TearDown(s)
  }

  function OutboundStep(env: Env, s: Snapshot, text: string): Snapshot {
    if !s.outboundLive then s
    else
      match RouteOpenAI(env, text, s.streamSid)
      case Forward(frame) => s.(twilioSent := s.twilioSent + [frame])
      case Answer(callId, output) =>
        s.(openaiSent := s.openaiSent + [FunctionCallOutput(callId, output), ResponseCreate])
      case Drop => s
      case Stop => s.(outboundLive := false)
  }

  /**
   * Twilio's stream ends. Only when it ends with `WebSocketDisconnect` does the inbound
   * pump close the OpenAI socket (if still open), which also ends the outbound pump.
   */
  function TwilioEnd(s: Snapshot, raisedDisconnect: bool): Snapshot {
    if !s.inboundLive then s
    else if raisedDisconnect && s.openaiOpen then s.(inboundLive := false, openaiOpen := false, outboundLive := false)
    else s.(inboundLive := false)
  }

  /** The OpenAI socket is closed by the other side: the outbound iteration ends. */
  function OpenAIEnd(s: Snapshot): Snapshot {
    s.(openaiOpen := false, outboundLive := false)
  }

  /** What can happen next in a call: the two pumps interleave arbitrarily. */
  datatype Arrival =
    | TwilioText(text: string)
    | OpenAIText(text: string)
    | TwilioClosed(raisedDisconnect: bool)
    | OpenAIClosed

  /**
   * One arrival, handled by the pump it is for: what Twilio sends or does never writes to
   * Twilio, and what OpenAI sends or does never touches the stream id or the inbound pump.
   */
  function Deliver(env: Env, s: Snapshot, a: Arrival): (r: Snapshot)
    ensures (a.TwilioText? || a.TwilioClosed?) ==> r.twilioSent == s.twilioSent
    ensures (a.OpenAIText? || a.OpenAIClosed?) ==> r.streamSid == s.streamSid && r.inboundLive == s.inboundLive
    ensures a.TwilioClosed? ==> r.openaiSent == s.openaiSent && r.streamSid == s.streamSid && !r.inboundLive
    ensures a.OpenAIClosed? ==> r.openaiSent == s.openaiSent && r.twilioSent == s.twilioSent && !r.outboundLive
  {
    match a
    case TwilioText(text) => InboundStep(env, s, text)
    case OpenAIText(text) => OutboundStep(env, s, text)
    case TwilioClosed(raised) => TwilioEnd(s, raised)
    case OpenAIClosed => OpenAIEnd(s)
  }

  /** The inbound loop over the texts Twilio sends; it stops for good once the pump has ended. */
  function RunInbound(env: Env, s: Snapshot, texts: seq<string>): Snapshot
    decreases |texts|
  {
    if texts == [] || !s.inboundLive then s
    else RunInbound(env, InboundStep(env, s, texts[0]), texts[1..])
  }

  /** The outbound loop over the texts OpenAI sends; it stops for good once the pump has ended. */
  function RunOutbound(env: Env, s: Snapshot, texts: seq<string>): Snapshot
    decreases |texts|
  {
    if texts == [] || !s.outboundLive then s
    else RunOutbound(env, OutboundStep(env, s, texts[0]), texts[1..])
  }

  /** A whole call under one interleaving of the two pumps. */
  function RunSchedule(env: Env, s: Snapshot, schedule: seq<Arrival>): Snapshot
    decreases |schedule|
  {
    if schedule == [] then s
    else RunSchedule(env, Deliver(env, s, schedule[0]), schedule[1..])
  }

  // ---------------------------------------------------------------------------------
  // The session invariant

  predicate IsReply(e: ClientEvent) {
    e.FunctionCallOutput? || e.ResponseCreate?
  }

  /** The messages the outbound pump sent to OpenAI, in order (audio and setup removed). */
  function Replies(log: seq<ClientEvent>): (r: seq<ClientEvent>)
    ensures forall i :: 0 <= i < |r| ==> IsReply(r[i])
    decreases |log|
  {
    if log == [] then []
    else
      var last := log[|log| - 1];
      Replies(log[..|log| - 1]) + (if IsReply(last) then [last] else [])
  }

  /** Function results and `response.create` alternate, starting with a result and ending with a create. */
  predicate Paired(r: seq<ClientEvent>) {
    && |r| % 2 == 0
    && forall i :: 0 <= i < |r| ==> (r[i].FunctionCallOutput? <==> i % 2 == 0)
  }

  /**
   * The session update is the first message to OpenAI and is never repeated; the
   * outbound pump runs only while the OpenAI socket is open; every function result is
   * followed by its `response.create` before anything else the outbound pump sends.
   */
  predicate Inv(s: Snapshot) {
    && |s.openaiSent| >= 1
    && s.openaiSent[0].SessionUpdate?
    && (forall i :: 1 <= i < |s.openaiSent| ==> !s.openaiSent[i].SessionUpdate?)
    && (s.outboundLive ==> s.openaiOpen)
    && Paired(Replies(s.openaiSent))
  }

  lemma RepliesAppend(log: seq<ClientEvent>, e: ClientEvent)
    ensures Replies(log + [e]) == Replies(log) + (if IsReply(e) then [e] else [])
  {
    assert (log + [e])[..|log|] == log;
  }

  /** A session that has sent only its session update satisfies the invariant. */
  lemma SetupInv(session: Json)
    ensures Inv(Snapshot(JNull, true, true, true, [SessionUpdate(session)], []))
  {
    assert [SessionUpdate(session)][..0] == [];
  }

  lemma InitialInv()
    ensures Inv(Initial())
  {
    SetupInv(SessionConfig());
  }

  /** Whatever happens during a call, the first message OpenAI received is the session configuration. */
  lemma SessionConfigSentFirst(env: Env, schedule: seq<Arrival>)
    ensures |RunSchedule(env, Initial(), schedule).openaiSent| >= 1
    ensures RunSchedule(env, Initial(), schedule).openaiSent[0] == SessionUpdate(SessionConfig())
  {
    LogsOnlyGrow(env, Initial(), schedule);
  }

  /** Forwarding caller audio keeps the invariant. */
  lemma AppendKeepsInv(s: Snapshot, audio: Json)
    requires Inv(s)
    ensures Inv(s.(openaiSent := s.openaiSent + [AudioAppend(audio)]))
  {
    RepliesAppend(s.openaiSent, AudioAppend(audio));
  }

  /** Answering a function call keeps the invariant. */
  lemma AnswerKeepsInv(s: Snapshot, callId: Json, output: string)
    requires Inv(s)
    ensures Inv(s.(openaiSent := s.openaiSent + [FunctionCallOutput(callId, output), ResponseCreate]))
  {
    var c := FunctionCallOutput(callId, output);
    assert s.openaiSent + [c, ResponseCreate] == s.openaiSent + [c] + [ResponseCreate];
    RepliesAppend(s.openaiSent, c);
    RepliesAppend(s.openaiSent + [c], ResponseCreate);
    var r := Replies(s.openaiSent);
    assert Replies(s.openaiSent + [c, ResponseCreate]) == r + [c, ResponseCreate];
  }

  lemma InboundStepKeepsInv(env: Env, s: Snapshot, text: string)
    requires Inv(s)
    ensures Inv(InboundStep(env, s, text))
  {
    if s.inboundLive {
      var act := RouteTwilio(env, text, s.openaiOpen);
      if act.Append? {
        AppendKeepsInv(s, act.audio);
      }
    }
  }

  lemma OutboundStepKeepsInv(env: Env, s: Snapshot, text: string)
    requires Inv(s)
    ensures Inv(OutboundStep(env, s, text))
  {
    if s.outboundLive {
      var act := RouteOpenAI(env, text, s.streamSid);
      if act.Answer? {
        AnswerKeepsInv(s, act.callId, act.output);
      }
    }
  }

  /** Every single arrival keeps the invariant. */
  lemma DeliverKeepsInv(env: Env, s: Snapshot, a: Arrival)
    requires Inv(s)
    ensures Inv(Deliver(env, s, a))
  {
    match a
    case TwilioText(text) => InboundStepKeepsInv(env, s, text);
    case OpenAIText(text) => OutboundStepKeepsInv(env, s, text);
    case TwilioClosed(_) =>
    case OpenAIClosed =>
  }

  /** Every interleaving of the two pumps keeps the invariant. */
  lemma {:induction false} ScheduleKeepsInv(env: Env, s: Snapshot, schedule: seq<Arrival>)
    requires Inv(s)
    ensures Inv(RunSchedule(env, s, schedule))
    decreases |schedule|
  {
    if schedule != [] {
      DeliverKeepsInv(env, s, schedule[0]);
      ScheduleKeepsInv(env, Deliver(env, s, schedule[0]), schedule[1..]);
    }
  }

  // ---------------------------------------------------------------------------------
  // One Twilio frame

  /** A media frame becomes one audio append carrying its payload, or nothing once OpenAI is closed. */
  lemma MediaFrameForwarded(env: Env, s: Snapshot, text: string, data: Json, payload: Json)
    requires s.inboundLive
    requires env.loads(text) == Some(data)
    requires Get(data, "event") == Some(JStr(MEDIA_EVENT))
    requires s.openaiOpen ==> At(data, ["media", "payload"]) == Some(payload)
    ensures InboundStep(env, s, text)
         == if s.openaiOpen then s.(openaiSent := s.openaiSent + [AudioAppend(payload)]) else s
  {
  }

  /** A start frame records its stream id and sends nothing. */
  lemma StartFrameRecorded(env: Env, s: Snapshot, text: string, data: Json, sid: Json)
    requires s.inboundLive
    requires env.loads(text) == Some(data)
    requires Get(data, "event") == Some(JStr(START_EVENT))
    requires At(data, ["start", "streamSid"]) == Some(sid)
    ensures InboundStep(env, s, text) == s.(streamSid := sid)
  {
  }

  /** Any other event leaves the whole session as it was. */
  lemma OtherFrameIgnored(env: Env, s: Snapshot, text: string, data: Json, event: Json)
    requires env.loads(text) == Some(data)
    requires Get(data, "event") == Some(event)
    requires event != JStr(MEDIA_EVENT) && event != JStr(START_EVENT)
    ensures InboundStep(env, s, text) == s
  {
  }

  /** An undecodable frame, or a frame without the fields its event needs, ends the whole session. */
  lemma MalformedFrameEndsSession(env: Env, s: Snapshot, text: string)
    requires s.inboundLive
    requires match env.loads(text)
             case None => true
             case Some(data) =>
               || Get(data, "event") == None
               || (Get(data, "event") == Some(JStr(MEDIA_EVENT)) && s.openaiOpen && At(data, ["media", "payload"]) == None)
               || (Get(data, "event") == Some(JStr(START_EVENT)) && At(data, ["start", "streamSid"]) == None)
    ensures InboundStep(env, s, text) == TearDown(s)
  {
  }

  /** The stream id changes only on a start frame, and the inbound pump never writes to Twilio. */
  lemma StreamSidOnlyFromStart(env: Env, s: Snapshot, text: string)
    ensures InboundStep(env, s, text).twilioSent == s.twilioSent
    ensures InboundStep(env, s, text).streamSid != s.streamSid ==> IsStartFrame(env, text)
  {
  }

  // ---------------------------------------------------------------------------------
  // One OpenAI event

  /** An audio delta that decodes becomes exactly one media frame stamped with the current stream id. */
  lemma AudioDeltaForwarded(env: Env, s: Snapshot, text: string, resp: Json, delta: string, payload: string)
    requires s.outboundLive
    requires env.loads(text) == Some(resp)
    requires Get(resp, "type") == Some(JStr(AUDIO_DELTA))
    requires Get(resp, "delta") == Some(JStr(delta)) && delta != ""
    requires Base64.Reencode(delta) == Some(payload)
    ensures OutboundStep(env, s, text) == s.(twilioSent := s.twilioSent + [TwilioMedia(s.streamSid, payload)])
  {
  }

  /** For canonical base64 the frame sent to Twilio carries the delta unchanged. */
  lemma CanonicalDeltaEchoed(env: Env, s: Snapshot, text: string, resp: Json, audio: seq<Base64.Byte>)
    requires s.outboundLive
    requires env.loads(text) == Some(resp)
    requires Get(resp, "type") == Some(JStr(AUDIO_DELTA))
    requires Get(resp, "delta") == Some(JStr(Base64.Encode(audio))) && audio != []
    ensures OutboundStep(env, s, text)
         == s.(twilioSent := s.twilioSent + [TwilioMedia(s.streamSid, Base64.Encode(audio))])
  {
    Base64.ReencodeCanonical(audio);
    assert Base64.Encode(audio) != "";
  }

  /** A delta that is missing, empty, or fails to decode sends nothing and the pump goes on. */
  lemma DeltaWithoutAudioDropped(env: Env, s: Snapshot, text: string, resp: Json)
    requires env.loads(text) == Some(resp)
    requires Get(resp, "type") == Some(JStr(AUDIO_DELTA))
    requires !Truthy(GetOrNull(resp.fields, "delta")) || ReencodeDelta(GetOrNull(resp.fields, "delta")) == None
    ensures OutboundStep(env, s, text) == s
  {
  }

  /**
   * A finished call of the declared tool sends exactly two messages to OpenAI: the
   * lookup result for the same call id, then `response.create`.
   */
  lemma ToolCallAnswered(
    env: Env, s: Snapshot, text: string, resp: Json,
    callId: Json, argText: string, arguments: Json, query: Json, result: string)
    requires s.outboundLive
    requires env.loads(text) == Some(resp)
    requires Get(resp, "type") == Some(JStr(FUNCTION_CALL_DONE))
    requires Get(resp, "name") == Some(JStr(TOOL_NAME))
    requires Get(resp, "call_id") == Some(callId)
    requires Get(resp, "arguments") == Some(JStr(argText)) && env.loads(argText) == Some(arguments)
    requires Get(arguments, "query") == Some(query)
    requires env.lookup(query, env.sessionId) == Some(result)
    ensures OutboundStep(env, s, text)
         == s.(openaiSent := s.openaiSent + [FunctionCallOutput(callId, result), ResponseCreate])
  {
  }

  /** A well-formed call of any other tool is left unanswered and changes nothing. */
  lemma OtherToolIgnored(env: Env, s: Snapshot, text: string, resp: Json, name: Json, argText: string)
    requires env.loads(text) == Some(resp)
    requires Get(resp, "type") == Some(JStr(FUNCTION_CALL_DONE))
    requires Get(resp, "name") == Some(name) && name != JStr(TOOL_NAME)
    requires Get(resp, "call_id").Some?
    requires Get(resp, "arguments") == Some(JStr(argText)) && env.loads(argText).Some?
    ensures OutboundStep(env, s, text) == s
  {
  }

  /**
   * A function call whose fields are missing or whose arguments do not parse, a query
   * that is missing, or a lookup that fails ends the outbound pump and sends nothing.
   */
  lemma MalformedCallStops(env: Env, s: Snapshot, text: string, resp: Json)
    requires s.outboundLive
    requires env.loads(text) == Some(resp)
    requires Get(resp, "type") == Some(JStr(FUNCTION_CALL_DONE))
    requires RouteFunctionCall(env, resp) == Stop
    ensures OutboundStep(env, s, text) == s.(outboundLive := false)
  {
  }

  /** Which function calls end the pump: exactly the malformed ones and the failed lookups. */
  lemma FunctionCallStopsIff(env: Env, resp: Json)
    ensures RouteFunctionCall(env, resp) == Stop <==>
      || Get(resp, "name") == None
      || Get(resp, "call_id") == None
      || !(Get(resp, "arguments").Some? && Get(resp, "arguments").value.JStr?)
      || env.loads(Get(resp, "arguments").value.s) == None
      || (Get(resp, "name") == Some(JStr(TOOL_NAME))
          && (|| Get(env.loads(Get(resp, "arguments").value.s).value, "query") == None
              || env.lookup(Get(env.loads(Get(resp, "arguments").value.s).value, "query").value, env.sessionId) == None))
  {
  }

  /** Every other event kind, including the logged ones, changes nothing. */
  lemma OtherEventIgnored(env: Env, s: Snapshot, text: string, resp: Json, kind: Json)
    requires env.loads(text) == Some(resp)
    requires Get(resp, "type") == Some(kind)
    requires kind != JStr(AUDIO_DELTA) && kind != JStr(FUNCTION_CALL_DONE)
    ensures OutboundStep(env, s, text) == s
  {
  }

  /** An undecodable event, or one without `type`, ends the outbound pump. */
  lemma UntypedEventStops(env: Env, s: Snapshot, text: string)
    requires s.outboundLive
    requires env.loads(text) == None || Get(env.loads(text).value, "type") == None
    ensures OutboundStep(env, s, text) == s.(outboundLive := false)
  {
  }

  /** The outbound pump never touches the stream id, and sends at most one frame or one answer. */
  lemma OutboundLeavesStreamSid(env: Env, s: Snapshot, text: string)
    ensures OutboundStep(env, s, text).streamSid == s.streamSid
    ensures OutboundStep(env, s, text).openaiSent == s.openaiSent
         || OutboundStep(env, s, text).twilioSent == s.twilioSent
  {
  }

  // ---------------------------------------------------------------------------------
  // Runs of the pumps

  /** Running the outbound loop over two parts runs it over the first, then the second. */
  lemma {:induction false} RunOutboundSplit(env: Env, s: Snapshot, a: seq<string>, b: seq<string>)
    ensures RunOutbound(env, s, a + b) == RunOutbound(env, RunOutbound(env, s, a), b)
    decreases |a|
  {
    if a == [] {
      assert a + b == b;
    } else if s.outboundLive {
      assert (a + b)[0] == a[0] && (a + b)[1..] == a[1..] + b;
      RunOutboundSplit(env, OutboundStep(env, s, a[0]), a[1..], b);
    } else {
      assert RunOutbound(env, s, a) == s;
    }
  }

  /** Once an event ends the outbound pump, no later OpenAI event is handled. */
  lemma NothingHandledAfterStop(env: Env, s: Snapshot, texts: seq<string>, i: nat)
    requires i < |texts|
    requires RunOutbound(env, s, texts[..i]).outboundLive
    requires RouteOpenAI(env, texts[i], RunOutbound(env, s, texts[..i]).streamSid) == Stop
    ensures RunOutbound(env, s, texts) == RunOutbound(env, s, texts[..i + 1])
    ensures !RunOutbound(env, s, texts).outboundLive
  {
    var before := RunOutbound(env, s, texts[..i]);
    assert texts[..i + 1] == texts[..i] + [texts[i]];
    RunOutboundSplit(env, s, texts[..i], [texts[i]]);
    assert RunOutbound(env, before, [texts[i]]) == before.(outboundLive := false);
    assert texts == texts[..i + 1] + texts[i + 1..];
    RunOutboundSplit(env, s, texts[..i + 1], texts[i + 1..]);
  }

  /** Running the inbound loop over two parts runs it over the first, then the second. */
  lemma {:induction false} RunInboundSplit(env: Env, s: Snapshot, a: seq<string>, b: seq<string>)
    ensures RunInbound(env, s, a + b) == RunInbound(env, RunInbound(env, s, a), b)
    decreases |a|
  {
    if a == [] {
      assert a + b == b;
    } else if s.inboundLive {
      assert (a + b)[0] == a[0] && (a + b)[1..] == a[1..] + b;
      RunInboundSplit(env, InboundStep(env, s, a[0]), a[1..], b);
    } else {
      assert RunInbound(env, s, a) == s;
    }
  }

  /**
   * A Twilio frame that raises ends the inbound loop and tears the session down; no later
   * frame is handled.
   */
  lemma CrashEndsInboundRun(env: Env, s: Snapshot, texts: seq<string>, i: nat)
    requires i < |texts|
    requires RunInbound(env, s, texts[..i]).inboundLive
    requires RouteTwilio(env, texts[i], RunInbound(env, s, texts[..i]).openaiOpen) == Crash
    ensures RunInbound(env, s, texts) == TearDown(RunInbound(env, s, texts[..i]))
    ensures !RunInbound(env, s, texts).inboundLive && !RunInbound(env, s, texts).openaiOpen
    ensures !RunInbound(env, s, texts).outboundLive
  {
    var before := RunInbound(env, s, texts[..i]);
    assert texts[..i + 1] == texts[..i] + [texts[i]];
    RunInboundSplit(env, s, texts[..i], [texts[i]]);
    assert RunInbound(env, before, [texts[i]]) == TearDown(before);
    assert texts == texts[..i + 1] + texts[i + 1..];
    RunInboundSplit(env, s, texts[..i + 1], texts[i + 1..]);
  }

  /** After the outbound pump has ended, one arrival sends nothing to Twilio and answers no call. */
  lemma StoppedStepSilent(env: Env, s: Snapshot, a: Arrival)
    requires !s.outboundLive
    ensures !Deliver(env, s, a).outboundLive
    ensures Deliver(env, s, a).twilioSent == s.twilioSent
    ensures Replies(Deliver(env, s, a).openaiSent) == Replies(s.openaiSent)
  {
    if a.TwilioText? && s.inboundLive {
      var act := RouteTwilio(env, a.text, s.openaiOpen);
      if act.Append? {
        RepliesAppend(s.openaiSent, AudioAppend(act.audio));
      }
    }
  }

  /** Once the outbound pump has ended, no schedule sends anything more to Twilio or answers a call. */
  lemma {:induction false} StoppedOutboundStaysSilent(env: Env, s: Snapshot, schedule: seq<Arrival>)
    requires !s.outboundLive
    ensures !RunSchedule(env, s, schedule).outboundLive
    ensures RunSchedule(env, s, schedule).twilioSent == s.twilioSent
    ensures Replies(RunSchedule(env, s, schedule).openaiSent) == Replies(s.openaiSent)
    decreases |schedule|
  {
    if schedule != [] {
      StoppedStepSilent(env, s, schedule[0]);
      StoppedOutboundStaysSilent(env, Deliver(env, s, schedule[0]), schedule[1..]);
    }
  }

  /** Once the OpenAI socket is closed it stays closed and nothing more is sent to it. */
  lemma {:induction false} NothingSentAfterClose(env: Env, s: Snapshot, schedule: seq<Arrival>)
    requires Inv(s) && !s.openaiOpen
    ensures !RunSchedule(env, s, schedule).openaiOpen
    ensures RunSchedule(env, s, schedule).openaiSent == s.openaiSent
    decreases |schedule|
  {
    if schedule != [] {
      DeliverKeepsInv(env, s, schedule[0]);
      NothingSentAfterClose(env, Deliver(env, s, schedule[0]), schedule[1..]);
    }
  }

  /** Messages once sent stay sent: both logs only grow. */
  lemma {:induction false} LogsOnlyGrow(env: Env, s: Snapshot, schedule: seq<Arrival>)
    ensures s.openaiSent <= RunSchedule(env, s, schedule).openaiSent
    ensures s.twilioSent <= RunSchedule(env, s, schedule).twilioSent
    decreases |schedule|
  {
    if schedule != [] {
      LogsOnlyGrow(env, Deliver(env, s, schedule[0]), schedule[1..]);
    }
  }

  /**
   * Until a start frame arrives, the stream id stays null and every audio frame sent to
   * Twilio is stamped with the null stream id.
   */
  lemma {:induction false} NullStreamSidBeforeStart(env: Env, s: Snapshot, schedule: seq<Arrival>)
    requires s.streamSid == JNull
    requires forall k :: 0 <= k < |schedule| && schedule[k].TwilioText? ==> !IsStartFrame(env, schedule[k].text)
    ensures RunSchedule(env, s, schedule).streamSid == JNull
    ensures forall k :: |s.twilioSent| <= k < |RunSchedule(env, s, schedule).twilioSent| ==>
              RunSchedule(env, s, schedule).twilioSent[k].streamSid == JNull
    decreases |schedule|
  {
    if schedule != [] {
      var t := Deliver(env, s, schedule[0]);
      if schedule[0].TwilioText? {
        StreamSidOnlyFromStart(env, s, schedule[0].text);
      }
      assert forall k :: 0 <= k < |schedule[1..]| && schedule[1..][k].TwilioText? ==>
        !IsStartFrame(env, schedule[1..][k].text) by {
        forall k | 0 <= k < |schedule[1..]| ensures schedule[1..][k] == schedule[k + 1] { }
      }
      NullStreamSidBeforeStart(env, t, schedule[1..]);
      LogsOnlyGrow(env, t, schedule[1..]);
    }
  }
}
