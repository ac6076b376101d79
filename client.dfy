/**
 * The browser side of the voice agent: the React component's session state,
 * its reducer for frames from the server, and the guard that decides
 * whether an `init_meeting` frame is sent. React's state setters are field
 * assignments here; the clock is an input.
 */
module Client {
  import opened Wrappers
  import opened Protocol

  const SystemSpeaker: string := "System"
  const HumanSpeaker: string := "Human"
  const AgentSpeaker: string := "AI Agent"
  const InitializedText: string := "AI Agent initialized for meeting"
  const StoppedText: string := "AI Agent stopped"
  const ErrorPrefix: string := "Error: "
  const DefaultPersonality: string := "Professional and helpful assistant"
  const MissingIdAlert: string := "Please enter a meeting ID"

  /** One line of the on-screen conversation log. */
  datatype LogEntry = LogEntry(speaker: string, message: string, timestamp: string)

  /** The component state that server frames act on. */
  datatype ClientView = ClientView(
    isAgentActive: bool,
    currentTranscription: string,
    aiResponse: string,
    conversationLog: seq<LogEntry>)

  /** What pressing "Start AI Agent" does. */
  datatype InitOutcome =
    | Alert(text: string)          // blank meeting id: the user is alerted, nothing is sent
    | Sent(frame: ClientMessage)   // the frame written to the open socket
    | NotSent                      // no open socket: nothing happens

  /** The characters `String.prototype.trim` removes: ECMAScript WhiteSpace and LineTerminator. */
  predicate IsJsWhitespace(c: char)
  {
    c == '\t' || c == '\n' || c == '\U{B}' || c == '\U{C}' || c == '\r' || c == ' ' ||
    c == '\U{A0}' || c == '\U{1680}' || ('\U{2000}' <= c <= '\U{200A}') ||
    c == '\U{2028}' || c == '\U{2029}' || c == '\U{202F}' || c == '\U{205F}' ||
    c == '\U{3000}' || c == '\U{FEFF}'
  }

  /** Every character of `s` is whitespace (the empty string included). */
  predicate IsBlank(s: string)
  {
    forall i :: 0 <= i < |s| ==> IsJsWhitespace(s[i])
  }

  /** `s` without its leading whitespace. */
  function TrimStart(s: string): (r: string)
    ensures |r| <= |s| && r == s[|s| - |r|..]
    ensures r != [] ==> !IsJsWhitespace(r[0])
    ensures forall i :: 0 <= i < |s| - |r| ==> IsJsWhitespace(s[i])
    decreases |s|
  {
    if s != [] && IsJsWhitespace(s[0]) then TrimStart(s[1..]) else s
  }

  /** `s` without its trailing whitespace. */
  function TrimEnd(s: string): (r: string)
    ensures |r| <= |s| && r == s[..|r|]
    ensures r != [] ==> !IsJsWhitespace(r[|r| - 1])
    ensures forall i :: |r| <= i < |s| ==> IsJsWhitespace(s[i])
    decreases |s|
  {
    if s != [] && IsJsWhitespace(s[|s| - 1]) then TrimEnd(s[..|s| - 1]) else s
  }

  /** `s.trim()`: `s` without leading and trailing whitespace. */
  function Trim(s: string): (r: string)
    ensures |r| <= |s|
    ensures r != [] ==> !IsJsWhitespace(r[0]) && !IsJsWhitespace(r[|r| - 1])
    ensures r == [] <==> IsBlank(s)
  {
    TrimEnd(TrimStart(s))
  }

  /** `!s.trim()` holds exactly when `s` is empty or whitespace only. */
  lemma TrimEmptyIffBlank(s: string)
    ensures Trim(s) == "" <==> IsBlank(s)
  {
  }

  /** The entries one server frame adds to the log, oldest first. */
  function Entries(msg: ServerMessage, now: string, later: string): (es: seq<LogEntry>)
    ensures |es| <= 2
  {
    match msg
    case MeetingInitialized(_, _) => [LogEntry(SystemSpeaker, InitializedText, now)]
    case AiResponse(transcription, response, _) =>
      [LogEntry(HumanSpeaker, transcription, now), LogEntry(AgentSpeaker, response, later)]
    case AgentStopped(_) => [LogEntry(SystemSpeaker, StoppedText, now)]
    case Error(message) => [LogEntry(SystemSpeaker, ErrorPrefix + message, now)]
    case VoiceUpdated(_) => []
    case Unrecognized(_) => []
  }

  /** `addToConversationLog`: one entry at the end, every earlier entry kept. */
  function Logged(log: seq<LogEntry>, speaker: string, message: string, timestamp: string): (r: seq<LogEntry>)
    ensures |r| == |log| + 1 && r[..|log|] == log
    ensures r[|log|] == LogEntry(speaker, message, timestamp)
  {
    log + [LogEntry(speaker, message, timestamp)]
  }

  /**
   * `handleWebSocketMessage`: the component state after one server frame.
   * `now` and `later` are the clock readings of the first and second
   * `addToConversationLog` call.
   */
  function Step(v: ClientView, msg: ServerMessage, now: string, later: string): (r: ClientView)
    ensures r.conversationLog == v.conversationLog + Entries(msg, now, later)
    ensures r.isAgentActive ==
              if msg.MeetingInitialized? then true
              else if msg.AgentStopped? then false
              else v.isAgentActive
    ensures msg.AiResponse? ==>
              r.currentTranscription == msg.transcription && r.aiResponse == msg.response
    ensures !msg.AiResponse? ==>
              r.currentTranscription == v.currentTranscription && r.aiResponse == v.aiResponse
  {
    match msg
    case MeetingInitialized(_, _) =>
      v.(isAgentActive := true,
         conversationLog := Logged(v.conversationLog, SystemSpeaker, InitializedText, now))
    case AiResponse(transcription, response, _) =>
      var log := Logged(v.conversationLog, HumanSpeaker, transcription, now);
      v.(currentTranscription := transcription, aiResponse := response,
         conversationLog := Logged(log, AgentSpeaker, response, later))
    case AgentStopped(_) =>
      v.(isAgentActive := false,
         conversationLog := Logged(v.conversationLog, SystemSpeaker, StoppedText, now))
    case Error(message) =>
      v.(conversationLog := Logged(v.conversationLog, SystemSpeaker, ErrorPrefix + message, now))
    case VoiceUpdated(_) => v
    case Unrecognized(_) => v
  }

  /** The `AIVoiceAgent` component's state that the protocol touches. */
  class ClientState {
    var isAgentActive: bool
    var currentTranscription: string
    var aiResponse: string
    var conversationLog: seq<LogEntry>
    var meetingId: string
    var agentPersonality: string

    function View(): ClientView
      reads this
    {
      ClientView(isAgentActive, currentTranscription, aiResponse, conversationLog)
    }

    constructor ()
      ensures !isAgentActive && currentTranscription == "" && aiResponse == ""
      ensures conversationLog == []
      ensures meetingId == "" && agentPersonality == DefaultPersonality
    {
      isAgentActive := false;
      currentTranscription := "";
      aiResponse := "";
      conversationLog := [];
      meetingId := "";
      agentPersonality := DefaultPersonality;
    }

    /** The meeting-id input's `onChange`. */
    method SetMeetingId(id: string)
      modifies this
      ensures meetingId == id && agentPersonality == old(agentPersonality) && View() == old(View())
    {
      meetingId := id;
    }

    /** The personality input's `onChange`. */
    method SetAgentPersonality(personality: string)
      modifies this
      ensures agentPersonality == personality && meetingId == old(meetingId) && View() == old(View())
    {
      agentPersonality := personality;
    }

    method AddToConversationLog(speaker: string, message: string, timestamp: string)
      modifies this
      ensures conversationLog == Logged(old(conversationLog), speaker, message, timestamp)
      ensures isAgentActive == old(isAgentActive) && currentTranscription == old(currentTranscription)
      ensures aiResponse == old(aiResponse)
      ensures meetingId == old(meetingId) && agentPersonality == old(agentPersonality)
    {
      conversationLog := conversationLog + [LogEntry(speaker, message, timestamp)];
    }

    method HandleMessage(msg: ServerMessage, now: string, later: string)
      modifies this
      ensures View() == Step(old(View()), msg, now, later)
      ensures meetingId == old(meetingId) && agentPersonality == old(agentPersonality)
    {
      match msg
      case MeetingInitialized(_, _) =>
        isAgentActive := true;
        AddToConversationLog(SystemSpeaker, InitializedText, now);
      case AiResponse(transcription, response, _) =>
        currentTranscription := transcription;
        aiResponse := response;
        AddToConversationLog(HumanSpeaker, transcription, now);
        AddToConversationLog(AgentSpeaker, response, later);
      case AgentStopped(_) =>
        isAgentActive := false;
        AddToConversationLog(SystemSpeaker, StoppedText, now);
      case Error(message) =>
        AddToConversationLog(SystemSpeaker, ErrorPrefix + message, now);
      case VoiceUpdated(_) =>
      case Unrecognized(_) =>
    }

    /**
     * `initializeAgent`: a blank meeting id only raises an alert; otherwise an
     * `init_meeting` frame with the id and personality as typed is sent when
     * the socket is open.
     */
    method InitializeAgent(socketOpen: bool) returns (outcome: InitOutcome)
      ensures outcome.Alert? <==> IsBlank(meetingId)
      ensures outcome.Alert? ==> outcome.text == MissingIdAlert
      ensures outcome.Sent? <==> !IsBlank(meetingId) && socketOpen
      ensures outcome.Sent? ==> outcome.frame == InitMeeting(Some(meetingId), Some(agentPersonality))
    {
      TrimEmptyIffBlank(meetingId);
      if Trim(meetingId) == "" {
        return Alert(MissingIdAlert);
      }
      if socketOpen {
        outcome := Sent(InitMeeting(Some(meetingId), Some(agentPersonality)));
      } else {
        outcome := NotSent;
      }
    }
  }
}
