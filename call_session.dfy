/**
 * One call as the websocket handler runs it: the stream id shared by the two pumps, the
 * state of the OpenAI socket, whether each pump is still running, and what has been sent
 * on each socket. Each method performs the step that module `Relay` specifies; the loop
 * methods are the two pumps and an arbitrary interleaving of them.
 */
module CallSessions {
  import opened Wrappers
  import opened JsonValue
  import opened Messages
  import opened Relay

  class CallSession {
    const env: Env
    var streamSid: Json
    var openaiOpen: bool
    var inboundLive: bool
    var outboundLive: bool
    var openaiSent: seq<ClientEvent>
    var twilioSent: seq<TwilioMedia>

    ghost function State(): Snapshot
      reads this
    {
      Snapshot(streamSid, openaiOpen, inboundLive, outboundLive, openaiSent, twilioSent)
    }

    ghost predicate Valid()
      reads this
    {
      Inv(State())
    }

    /**
     * The OpenAI socket has been connected, the session update has been sent, and no
     * stream id is known yet.
     */
    constructor (sessionId: string, loads: string -> Option<Json>, lookup: (Json, string) -> Option<string>)
      ensures Valid()
      ensures State() == Initial()
      ensures env.sessionId == sessionId && env.loads == loads && env.lookup == lookup
    {
      env := Env(sessionId, loads, lookup);
      openaiSent := [SessionUpdate(SessionConfig())];
      twilioSent := [];
      streamSid := JNull;
      openaiOpen, inboundLive, outboundLive := true, true, true;
      new;
      InitialInv();
    }

    /** One pass of the inbound loop body. */
    method OnTwilioText(text: string)
      requires Valid()
      modifies this
      ensures Valid()
      ensures State() == InboundStep(env, old(State()), text)
    {
      InboundStepKeepsInv(env, State(), text);
      if !inboundLive {
        return;
      }
      match RouteTwilio(env, text, openaiOpen)
      case Append(audio) =>
        openaiSent := openaiSent + [AudioAppend(audio)];
      case StartStream(sid) =>
        streamSid := sid;
      case Skip =>
      case Crash =>
        openaiOpen, inboundLive, outboundLive := false, false, false;
    }

    /** One pass of the outbound loop body. */
    method OnOpenAIText(text: string)
      requires Valid()
      modifies this
      ensures Valid()
      ensures State() == OutboundStep(env, old(State()), text)
    {
      OutboundStepKeepsInv(env, State(), text);
      if !outboundLive {
        return;
      }
      match RouteOpenAI(env, text, streamSid)
      case Forward(frame) =>
        twilioSent := twilioSent + [frame];
      case Answer(callId, output) =>
        ghost var before := openaiSent;
        openaiSent := openaiSent + [FunctionCallOutput(callId, output)];
        openaiSent := openaiSent + [ResponseCreate];
        assert openaiSent == before + [FunctionCallOutput(callId, output), ResponseCreate];
      case Drop =>
      case Stop =>
        outboundLive := false;
    }

    /** Twilio's stream ends, with or without `WebSocketDisconnect`. */
    method OnTwilioEnd(raisedDisconnect: bool)
      requires Valid()
      modifies this
      ensures Valid()
      ensures State() == TwilioEnd(old(State()), raisedDisconnect)
    {
      if inboundLive {
        inboundLive := false;
        if raisedDisconnect && openaiOpen {
          openaiOpen, outboundLive := false, false;
        }
      }
    }

    /** The OpenAI socket is closed by the other side. */
    method OnOpenAIEnd()
      requires Valid()
      modifies this
      ensures Valid()
      ensures State() == OpenAIEnd(old(State()))
    {
      openaiOpen, outboundLive := false, false;
    }

    /**
     * The inbound pump: handle Twilio's texts in order until one raises, then, if the
     * stream ended rather than the pump, handle the end of the stream.
     */
    method ReceiveFromTwilio(texts: seq<string>, raisedDisconnect: bool)
      requires Valid()
      modifies this
      ensures Valid()
      ensures State() == TwilioEnd(RunInbound(env, old(State()), texts), raisedDisconnect)
    {
      var i := 0;
      while i < |texts| && inboundLive
        invariant 0 <= i <= |texts|
        invariant Valid()
        invariant RunInbound(env, State(), texts[i..]) == RunInbound(env, old(State()), texts)
      {
        assert texts[i..][0] == texts[i] && texts[i..][1..] == texts[i + 1..];
        OnTwilioText(texts[i]);
        i := i + 1;
      }
      OnTwilioEnd(raisedDisconnect);
    }

    /**
     * The outbound pump: handle OpenAI's texts in order until one ends the pump; if they
     * run out first, the OpenAI socket has closed and the iteration ends.
     */
    method SendToTwilio(texts: seq<string>)
      requires Valid()
      modifies this
      ensures Valid()
      ensures var t := RunOutbound(env, old(State()), texts);
              State() == if t.outboundLive then OpenAIEnd(t) else t
    {
      var i := 0;
      while i < |texts| && outboundLive
        invariant 0 <= i <= |texts|
        invariant Valid()
        invariant RunOutbound(env, State(), texts[i..]) == RunOutbound(env, old(State()), texts)
      {
        assert texts[i..][0] == texts[i] && texts[i..][1..] == texts[i + 1..];
        OnOpenAIText(texts[i]);
        i := i + 1;
      }
      if outboundLive {
        OnOpenAIEnd();
      }
    }

    /** The two pumps under one interleaving. */
    method Run(schedule: seq<Arrival>)
      requires Valid()
      modifies this
      ensures Valid()
      ensures State() == RunSchedule(env, old(State()), schedule)
    {
      var i := 0;
      while i < |schedule|
        invariant 0 <= i <= |schedule|
        invariant Valid()
        invariant RunSchedule(env, State(), schedule[i..]) == RunSchedule(env, old(State()), schedule)
      {
        assert schedule[i..][0] == schedule[i] && schedule[i..][1..] == schedule[i + 1..];
        match schedule[i] {
          case TwilioText(text) => OnTwilioText(text);
          case OpenAIText(text) => OnOpenAIText(text);
          case TwilioClosed(raised) => OnTwilioEnd(raised);
          case OpenAIClosed => OnOpenAIEnd();
        }
        i := i + 1;
      }
    }
  }
}
