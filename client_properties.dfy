/**
 * Properties of the client's reducer, per frame kind and over any sequence
 * of frames received from the server.
 */
module ClientProperties {
  import opened Protocol
  import opened Client

  /** One frame received, with the clock readings taken while handling it. */
  datatype Delivery = Delivery(msg: ServerMessage, now: string, later: string)

  /** The component state after the deliveries `ds`, in order. */
  function Replay(v: ClientView, ds: seq<Delivery>): (r: ClientView)
    decreases |ds|
  {
    if ds == [] then v else Replay(Step(v, ds[0].msg, ds[0].now, ds[0].later), ds[1..])
  }

  /** Every log entry that the deliveries `ds` contribute, in order. */
  function AllEntries(ds: seq<Delivery>): seq<LogEntry>
    decreases |ds|
  {
    if ds == [] then [] else Entries(ds[0].msg, ds[0].now, ds[0].later) + AllEntries(ds[1..])
  }

  /** The frames of `ds`. */
  function Messages(ds: seq<Delivery>): (ms: seq<ServerMessage>)
    ensures |ms| == |ds|
    ensures forall i :: 0 <= i < |ds| ==> ms[i] == ds[i].msg
    decreases |ds|
  {
    if ds == [] then [] else [ds[0].msg] + Messages(ds[1..])
  }

  /**
   * The log only grows: after any deliveries it is the old log followed by
   * each frame's entries in arrival order, at most two per frame.
   */
  lemma {:induction false} LogOnlyGrows(v: ClientView, ds: seq<Delivery>)
    ensures Replay(v, ds).conversationLog == v.conversationLog + AllEntries(ds)
    ensures |v.conversationLog| <= |Replay(v, ds).conversationLog| <= |v.conversationLog| + 2 * |ds|
    decreases |ds|
  {
    if ds != [] {
      var d := ds[0];
      var e := Entries(d.msg, d.now, d.later);
      var w := Step(v, d.msg, d.now, d.later);
      assert w.conversationLog == v.conversationLog + e && |e| <= 2;
      LogOnlyGrows(w, ds[1..]);
      assert Replay(v, ds) == Replay(w, ds[1..]);
      assert AllEntries(ds) == e + AllEntries(ds[1..]);
      assert (v.conversationLog + e) + AllEntries(ds[1..]) == v.conversationLog + AllEntries(ds);
    }
  }

  /** `meeting_initialized` marks the agent active and logs one System line. */
  lemma MeetingInitializedActivates(v: ClientView, success: bool, meetingId: Wrappers.Option<string>,
                                    now: string, later: string)
    ensures Step(v, MeetingInitialized(success, meetingId), now, later) ==
              v.(isAgentActive := true,
                 conversationLog := v.conversationLog + [LogEntry(SystemSpeaker, InitializedText, now)])
  {
  }

  /**
   * `ai_response` shows the transcription and the response, logs the Human
   * line before the AI Agent line, and leaves `isAgentActive` alone.
   */
  lemma AiResponseLogsTurn(v: ClientView, transcription: string, response: string,
                           audio: Wrappers.Option<seq<bv8>>, now: string, later: string)
    ensures Step(v, AiResponse(transcription, response, audio), now, later) ==
              v.(currentTranscription := transcription, aiResponse := response,
                 conversationLog := v.conversationLog + [LogEntry(HumanSpeaker, transcription, now),
                                                         LogEntry(AgentSpeaker, response, later)])
  {
  }

  /** `agent_stopped` marks the agent inactive and logs "AI Agent stopped". */
  lemma AgentStoppedDeactivates(v: ClientView, success: bool, now: string, later: string)
    ensures Step(v, AgentStopped(success), now, later) ==
              v.(isAgentActive := false,
                 conversationLog := v.conversationLog + [LogEntry(SystemSpeaker, StoppedText, now)])
  {
  }

  /** `error` logs "Error: " and the message, and changes nothing else. */
  lemma ErrorIsLogged(v: ClientView, message: string, now: string, later: string)
    ensures Step(v, Error(message), now, later) ==
              v.(conversationLog := v.conversationLog + [LogEntry(SystemSpeaker, ErrorPrefix + message, now)])
  {
  }

  /** A frame the switch does not match leaves the component state as it was. */
  lemma UnmatchedFrameIgnored(v: ClientView, msg: ServerMessage, now: string, later: string)
    requires msg.VoiceUpdated? || msg.Unrecognized?
    ensures Step(v, msg, now, later) == v
  {
  }
}
