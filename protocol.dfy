/**
 * The messages exchanged over the voice-agent WebSocket, already decoded
 * from their JSON frames. JSON parsing and base64 are not modelled: a frame
 * whose handling fails before any agent field is assigned (`JSON.parse`, a
 * null frame, `Buffer.from` on a missing `audio`) arrives here as `Malformed`.
 */
module Protocol {
  import opened Wrappers

  /** A scalar JSON value, as stored in the voice settings object. */
  datatype Value = Null | Bool(b: bool) | Num(x: real) | Str(s: string)

  /** Frames the browser client sends to the server (`data.type` on the server). */
  datatype ClientMessage =
    | InitMeeting(meetingId: Option<string>, personality: Option<string>)  // "init_meeting"
    | AudioData(audio: seq<bv8>)                                          // "audio_data", payload decoded
    | UpdateVoice(settings: map<string, Value>)                           // "update_voice"
    | StopAgent                                                           // "stop_agent"
    | UnknownKind(kind: string)                                           // any other "type"
    | Malformed(errMsg: string)                                           // failed before any field was assigned

  /** Frames the server sends to the browser client. */
  datatype ServerMessage =
    | MeetingInitialized(success: bool, meetingId: Option<string>)        // "meeting_initialized"
    | AiResponse(transcription: string, response: string, audio: Option<seq<bv8>>)  // "ai_response"
    | VoiceUpdated(success: bool)                                         // "voice_updated"
    | AgentStopped(success: bool)                                         // "agent_stopped"
    | Error(message: string)                                              // "error"
    | Unrecognized(kind: string)                                          // any other "type"
}
