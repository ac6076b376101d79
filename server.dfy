/**
 * The server side of the voice agent: the single `AIVoiceAgent` instance
 * that every WebSocket connection shares, and the `message` handler that
 * turns one decoded client frame into an agent update and at most one reply.
 */
module Server {
  import opened Wrappers
  import opened Protocol

  const DefaultVoice: string := "en-US-Neural2-F"
  const SystemRole: string := "system"
  /** Fixed opening of the system prompt stored by `initializeMeeting`. */
  const ContextPrefix: string := "You are an AI assistant representing a human in a Zoom meeting. "
  /** Persona used when no (or an empty) personality is given. */
  const DefaultPersona: string :=
    "You are professional, helpful, and engage naturally in conversation. Keep responses concise and meeting-appropriate."
  const MockTranscription: string := "Hello, how can I help you today?"
  const MockResponse: string :=
    "Thank you for your question. I'm an AI assistant ready to help with this meeting."
  const RestInitMessage: string := "AI Agent initialized successfully"

  /** One entry of the language-model prompt context. */
  datatype ContextEntry = ContextEntry(role: string, content: string)

  /** What `processAudioInput` returns when it succeeds. */
  datatype AudioResult = AudioResult(transcription: string, response: string, audio: Option<seq<bv8>>)

  /** Body of the `/api/initialize-agent` response. */
  datatype InitResponse = InitResponse(success: bool, message: string, meetingId: Option<string>)

  /** The value of the agent's fields at one instant. */
  datatype AgentState = AgentState(
    isActive: bool,
    conversationContext: seq<ContextEntry>,
    currentMeetingId: Option<string>,
    participantsList: seq<string>,
    voiceSettings: map<string, Value>)

  function DefaultVoiceSettings(): map<string, Value>
  {
    map["voice" := Str(DefaultVoice), "speed" := Num(1.0), "pitch" := Num(0.0)]
  }

  /** `{ ...current, ...settings }`: every key of `settings` overrides, every other key is kept. */
  function MergeSettings(current: map<string, Value>, settings: map<string, Value>): (merged: map<string, Value>)
    ensures merged.Keys == current.Keys + settings.Keys
    ensures forall k :: k in settings ==> merged[k] == settings[k]
    ensures forall k :: k in current && k !in settings ==> merged[k] == current[k]
  {
    map k | k in current.Keys + settings.Keys :: if k in settings then settings[k] else current[k]
  }

  /** `agentPersonality || default`: an absent or empty personality falls back to the default. */
  function Persona(personality: Option<string>): (text: string)
  {
    if personality.Some? && personality.value != "" then personality.value else DefaultPersona
  }

  /** The agent after `initializeMeeting(meetingId, personality)`. */
  function AfterInit(s: AgentState, meetingId: Option<string>, personality: Option<string>): (r: AgentState)
    ensures r.currentMeetingId == meetingId && r.isActive
    ensures |r.conversationContext| == 1 && r.conversationContext[0].role == SystemRole
    ensures |ContextPrefix| <= |r.conversationContext[0].content|
    ensures r.conversationContext[0].content[..|ContextPrefix|] == ContextPrefix
    ensures personality.Some? && personality.value != "" ==>
              r.conversationContext[0].content[|ContextPrefix|..] == personality.value
    ensures personality.None? || personality.value == "" ==>
              r.conversationContext[0].content[|ContextPrefix|..] == DefaultPersona
    ensures r.voiceSettings == s.voiceSettings && r.participantsList == s.participantsList
  {
    var content := ContextPrefix + Persona(personality);
    assert content[..|ContextPrefix|] == ContextPrefix;
    assert content[|ContextPrefix|..] == Persona(personality);
    s.(currentMeetingId := meetingId, isActive := true,
       conversationContext := [ContextEntry(SystemRole, content)])
  }

  /** The agent after `updateVoiceSettings(settings)`. */
  function AfterVoiceUpdate(s: AgentState, settings: map<string, Value>): (r: AgentState)
    ensures r.voiceSettings == MergeSettings(s.voiceSettings, settings)
    ensures r.isActive == s.isActive && r.currentMeetingId == s.currentMeetingId
    ensures r.conversationContext == s.conversationContext && r.participantsList == s.participantsList
  {
    s.(voiceSettings := MergeSettings(s.voiceSettings, settings))
  }

  /** The agent after the `stop_agent` branch clears `isActive`. */
  function AfterStop(s: AgentState): (r: AgentState)
    ensures !r.isActive
    ensures r.currentMeetingId == s.currentMeetingId && r.conversationContext == s.conversationContext
    ensures r.voiceSettings == s.voiceSettings && r.participantsList == s.participantsList
  {
    s.(isActive := false)
  }

  /** `processAudioInput`: the audio is not looked at and a fixed mock result is returned. */
  function ProcessAudioInput(audio: seq<bv8>): (result: Option<AudioResult>)
    ensures result.Some? && result.value.audio.None?
    ensures result.value.transcription == MockTranscription && result.value.response == MockResponse
  {
    Some(AudioResult(MockTranscription, MockResponse, None))
  }

  /** True when `reply` is the kind of frame the server sends in answer to `msg`. */
  predicate Answers(msg: ClientMessage, reply: ServerMessage)
  {
    match msg
    case InitMeeting(_, _) => reply.MeetingInitialized?
    case AudioData(_) => reply.AiResponse?
    case UpdateVoice(_) => reply.VoiceUpdated?
    case StopAgent => reply.AgentStopped?
    case UnknownKind(_) => false
    case Malformed(_) => reply.Error?
  }

  /**
   * The `message` handler: the agent state after one frame, and the frame
   * sent back, if any. A `type` outside the switch matches no case and sends
   * nothing; a thrown error sends exactly one `error` frame.
   */
  function Handle(s: AgentState, msg: ClientMessage): (r: (AgentState, Option<ServerMessage>))
    ensures r.1.None? <==> msg.UnknownKind?
    ensures r.1.Some? ==> Answers(msg, r.1.value)
    ensures msg.AudioData? || msg.UnknownKind? || msg.Malformed? ==> r.0 == s
    ensures r.0.participantsList == s.participantsList
  {
    match msg
    case InitMeeting(meetingId, personality) =>
      (AfterInit(s, meetingId, personality), Some(MeetingInitialized(true, meetingId)))
    case AudioData(audio) =>
      var result := ProcessAudioInput(audio);
      if result.Some? then
        (s, Some(AiResponse(result.value.transcription, result.value.response, result.value.audio)))
      else
        (s, None)
    case UpdateVoice(settings) =>
      (AfterVoiceUpdate(s, settings), Some(VoiceUpdated(true)))
    case StopAgent =>
      (AfterStop(s), Some(AgentStopped(true)))
    case UnknownKind(_) =>
      (s, None)
    case Malformed(errMsg) =>
      (s, Some(Error(errMsg)))
  }

  /** The `AIVoiceAgent` object; one instance serves every connection. */
  class Agent {
    var isActive: bool
    var conversationContext: seq<ContextEntry>
    var currentMeetingId: Option<string>
    var participantsList: seq<string>
    var voiceSettings: map<string, Value>

    function State(): AgentState
      reads this
    {
      AgentState(isActive, conversationContext, currentMeetingId, participantsList, voiceSettings)
    }

    constructor ()
      ensures !isActive && conversationContext == [] && currentMeetingId == None
      ensures participantsList == []
      ensures voiceSettings == DefaultVoiceSettings()
    {
      isActive := false;
      conversationContext := [];
      currentMeetingId := None;
      participantsList := [];
      voiceSettings := DefaultVoiceSettings();
    }

    method InitializeMeeting(meetingId: Option<string>, agentPersonality: Option<string>)
      modifies this
      ensures State() == AfterInit(old(State()), meetingId, agentPersonality)
    {
      currentMeetingId := meetingId;
      isActive := true;
      conversationContext := [ContextEntry(SystemRole, ContextPrefix + Persona(agentPersonality))];
    }

    method UpdateVoiceSettings(settings: map<string, Value>)
      modifies this
      ensures State() == AfterVoiceUpdate(old(State()), settings)
    {
      voiceSettings := MergeSettings(voiceSettings, settings);
    }

    /** The WebSocket `message` handler run on the shared agent. */
    method Dispatch(msg: ClientMessage) returns (reply: Option<ServerMessage>)
      modifies this
      ensures (State(), reply) == Handle(old(State()), msg)
    {
      match msg
      case InitMeeting(meetingId, personality) =>
        InitializeMeeting(meetingId, personality);
        reply := Some(MeetingInitialized(true, meetingId));
      case AudioData(audio) =>
        var result := ProcessAudioInput(audio);
        if result.Some? {
          reply := Some(AiResponse(result.value.transcription, result.value.response, result.value.audio));
        } else {
          reply := None;
        }
      case UpdateVoice(settings) =>
        UpdateVoiceSettings(settings);
        reply := Some(VoiceUpdated(true));
      case StopAgent =>
        isActive := false;
        reply := Some(AgentStopped(true));
      case UnknownKind(_) =>
        reply := None;
      case Malformed(errMsg) =>
        reply := Some(Error(errMsg));
    }

    /** `POST /api/initialize-agent`: start a meeting, then merge the voice settings if any were given. */
    method InitializeAgentEndpoint(meetingId: Option<string>, personality: Option<string>,
                                   settings: Option<map<string, Value>>) returns (response: InitResponse)
      modifies this
      ensures settings.None? ==> State() == AfterInit(old(State()), meetingId, personality)
      ensures settings.Some? ==>
                State() == AfterVoiceUpdate(AfterInit(old(State()), meetingId, personality), settings.value)
      ensures response == InitResponse(true, RestInitMessage, meetingId)
    {
      InitializeMeeting(meetingId, personality);
      if settings.Some? {
        UpdateVoiceSettings(settings.value);
      }
      response := InitResponse(true, RestInitMessage, meetingId);
    }
  }
}
