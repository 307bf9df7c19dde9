/**
 * The JSON messages the relay writes: the client events it sends to the OpenAI Realtime
 * socket, the media frames it sends back to Twilio, and the one `session.update` it sends
 * first. Every message is a datatype value; `ToJson` builds the dictionary the relay
 * serialises and `Parse` reads such a dictionary back, so that the round-trip lemmas show
 * that no two messages are written the same way.
 */
module Messages {
  import opened Wrappers
  import opened JsonValue

  const TOOL_NAME := "get_additional_context"
  const AUDIO_FORMAT := "g711_ulaw"
  const VOICE := "alloy"

  /** The system instructions sent in the session update (`SYSTEM_MESSAGE_2` of the relay program). */
  const INSTRUCTIONS :=
    "You are a helpful AI assistant designed to answer questions using only the additional context provided. Start the conversation with 'Hello how can i help you today'"
    + "For every user query, immediately use the get_additional_context function to obtain information. "
    + "Do not use your own knowledge base to answer questions. "
    + "Always base your responses solely on the information returned by get_additional_context. "
    + "If get_additional_context returns information indicating it's unable to answer or provide details, "
    + "respond only with: 'Sorry! I can't provide an answer to your question.' "
    + "Do not elaborate or use any other information beyond what get_additional_context provides. "
    + "If get_additional_context provides relevant information, incorporate it into your response. "
    + "Be concise and directly address the user's query based only on the additional context. "
    + "Do not mention the process of using get_additional_context in your responses to the user."

  /** Events the relay sends to the OpenAI Realtime socket. */
  datatype ClientEvent =
    | SessionUpdate(session: Json)
    | AudioAppend(audio: Json)
    | FunctionCallOutput(callId: Json, output: string)
    | ResponseCreate

  /** The only frame the relay sends to Twilio: audio for the caller. */
  datatype TwilioMedia = TwilioMedia(streamSid: Json, payload: string)

  /** The declaration of the knowledge-lookup tool. */
  function ToolDeclaration(): Json {
    JObj(map[
      "type" := JStr("function"),
      "name" := JStr(TOOL_NAME),
      "description" := JStr("Get the additional context to answer user query."),
      "parameters" := JObj(map[
        "type" := JStr("object"),
        "properties" := JObj(map[
          "query" := JObj(map["type" := JStr("string"), "description" := JStr("The users query payload")])
        ]),
        "required" := JArr([JStr("query")])
      ])
    ])
  }

  /**
   * The `session` object of the session update. The two 0.6 settings (the voice-activity
   * threshold and the temperature) are the decimal numbers 6 * 10^-1.
   */
  function SessionConfig(): (j: Json)
    ensures At(j, ["input_audio_format"]) == Some(JStr(AUDIO_FORMAT))
    ensures At(j, ["output_audio_format"]) == Some(JStr(AUDIO_FORMAT))
    ensures At(j, ["tools"]) == Some(JArr([ToolDeclaration()]))
  {
    JObj(map[
      "turn_detection" := JObj(map[
        "type" := JStr("server_vad"),
        "threshold" := JNum(6, -1),
        "prefix_padding_ms" := JNum(300, 0),
        "silence_duration_ms" := JNum(500, 0)
      ]),
      "input_audio_format" := JStr(AUDIO_FORMAT),
      "output_audio_format" := JStr(AUDIO_FORMAT),
      "voice" := JStr(VOICE),
      "instructions" := JStr(INSTRUCTIONS),
      "modalities" := JArr([JStr("text"), JStr("audio")]),
      "temperature" := JNum(6, -1),
      "tools" := JArr([ToolDeclaration()])
    ])
  }

  /** The declared tool is the one the relay answers, and `query` is its only required parameter. */
  lemma ToolDeclarationFacts()
    ensures At(ToolDeclaration(), ["name"]) == Some(JStr(TOOL_NAME))
    ensures At(ToolDeclaration(), ["type"]) == Some(JStr("function"))
    ensures At(ToolDeclaration(), ["parameters", "required"]) == Some(JArr([JStr("query")]))
    ensures At(ToolDeclaration(), ["parameters", "properties", "query", "type"]) == Some(JStr("string"))
  {
  }

  /** The dictionary that is serialised for each client event. */
  function ToJson(e: ClientEvent): (j: Json)
    ensures j.JObj? && "type" in j.fields && j.fields["type"].JStr?
  {
    match e
    case SessionUpdate(session) =>
      JObj(map["type" := JStr("session.update"), "session" := session])
    case AudioAppend(audio) =>
      JObj(map["type" := JStr("input_audio_buffer.append"), "audio" := audio])
    case FunctionCallOutput(callId, output) =>
      JObj(map[
        "type" := JStr("conversation.item.create"),
        "item" := JObj(map[
          "type" := JStr("function_call_output"),
          "call_id" := callId,
          "output" := JStr(output)
        ])
      ])
    case ResponseCreate =>
      JObj(map["type" := JStr("response.create")])
  }

  /** Reads the `item` of a `conversation.item.create`: only function results are written. */
  function ParseItem(item: Json): Option<ClientEvent> {
    match (Get(item, "type"), Get(item, "call_id"), Get(item, "output"))
    case (Some(JStr("function_call_output")), Some(c), Some(JStr(r))) => Some(FunctionCallOutput(c, r))
    case _ => None
  }

  /** Reads a client event back from its dictionary, as the receiving end would. */
  function Parse(j: Json): Option<ClientEvent> {
    match Get(j, "type")
    case Some(JStr("session.update")) =>
      (match Get(j, "session")
       case Some(session) => Some(SessionUpdate(session))
       case None => None)
    case Some(JStr("input_audio_buffer.append")) =>
      (match Get(j, "audio")
       case Some(a) => Some(AudioAppend(a))
       case None => None)
    case Some(JStr("conversation.item.create")) =>
      (match Get(j, "item")
       case Some(item) => ParseItem(item)
       case None => None)
    case Some(JStr("response.create")) => Some(ResponseCreate)
    case _ => None
  }

  lemma ParseFunctionCallOutput(callId: Json, output: string)
    ensures Parse(ToJson(FunctionCallOutput(callId, output))) == Some(FunctionCallOutput(callId, output))
  {
    var item := JObj(map["type" := JStr("function_call_output"), "call_id" := callId, "output" := JStr(output)]);
    assert ParseItem(item) == Some(FunctionCallOutput(callId, output));
    var j := ToJson(FunctionCallOutput(callId, output));
    assert Get(j, "type") == Some(JStr("conversation.item.create"));
    assert Get(j, "item") == Some(item);
  }

  /** Every client event can be read back from what the relay writes. */
  lemma ParseToJson(e: ClientEvent)
    ensures Parse(ToJson(e)) == Some(e)
  {
    match e
    case SessionUpdate(_) =>
      assert Get(ToJson(e), "type") == Some(JStr("session.update"));
    case AudioAppend(a) =>
      assert Get(ToJson(e), "type") == Some(JStr("input_audio_buffer.append"));
    case FunctionCallOutput(c, r) => ParseFunctionCallOutput(c, r);
    case ResponseCreate =>
      assert Get(ToJson(e), "type") == Some(JStr("response.create"));
  }

  /** Distinct client events are written as distinct dictionaries. */
  lemma ToJsonInjective(e1: ClientEvent, e2: ClientEvent)
    requires ToJson(e1) == ToJson(e2)
    ensures e1 == e2
  {
    ParseToJson(e1);
    ParseToJson(e2);
  }

  /** The dictionary sent to Twilio for an audio frame. */
  function MediaJson(m: TwilioMedia): Json {
    JObj(map[
      "event" := JStr("media"),
      "streamSid" := m.streamSid,
      "media" := JObj(map["payload" := JStr(m.payload)])
    ])
  }

  /** Reads a media frame back, as Twilio would. */
  function ParseMedia(j: Json): Option<TwilioMedia> {
    match (Get(j, "event"), Get(j, "streamSid"), At(j, ["media", "payload"]))
    case (Some(JStr("media")), Some(sid), Some(JStr(p))) => Some(TwilioMedia(sid, p))
    case _ => None
  }

  /** A media frame is read back with its stream id and its payload. */
  lemma ParseMediaJson(m: TwilioMedia)
    ensures ParseMedia(MediaJson(m)) == Some(m)
  {
  }
}
