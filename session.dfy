/**
 * The two halves together: the client handling, in order, exactly the
 * frames the shared server agent sent back.
 */
module Session {
  import opened Wrappers
  import opened Protocol
  import opened Server
  import opened ServerProperties
  import opened Client
  import opened ClientProperties

  /** One frame: the client's reaction to the reply moves its flag exactly as the frame moved the agent's. */
  lemma ActivityAgreesOnReply(s: AgentState, v: ClientView, msg: ClientMessage, reply: ServerMessage,
                              now: string, later: string)
    requires v.isAgentActive == s.isActive
    requires Handle(s, msg).1 == Some(reply)
    ensures Step(v, reply, now, later).isAgentActive == Handle(s, msg).0.isActive
  {
  }

  /**
   * A client whose `isAgentActive` agrees with the agent's `isActive` still
   * agrees after the agent handles any frames and the client receives its
   * replies, whatever the clock readings.
   */
  lemma {:induction false} ActivityAgrees(s: AgentState, v: ClientView, msgs: seq<ClientMessage>, ds: seq<Delivery>)
    requires v.isAgentActive == s.isActive
    requires Messages(ds) == Run(s, msgs).1
    ensures Replay(v, ds).isAgentActive == Run(s, msgs).0.isActive
    decreases |msgs|
  {
    if msgs != [] {
      var step := Handle(s, msgs[0]);
      var rest := Run(step.0, msgs[1..]);
      assert Run(s, msgs).1 == ReplyList(step.1) + rest.1;
      if step.1.Some? {
        assert ds[0].msg == Messages(ds)[0] == step.1.value;
        var w := Step(v, ds[0].msg, ds[0].now, ds[0].later);
        ActivityAgreesOnReply(s, v, msgs[0], ds[0].msg, ds[0].now, ds[0].later);
        assert Messages(ds[1..]) == rest.1;
        ActivityAgrees(step.0, w, msgs[1..], ds[1..]);
      } else {
        ActivityAgrees(step.0, v, msgs[1..], ds);
      }
    }
  }

  /**
   * The agent is shared by every connection, and each reply goes only to the
   * connection that sent the frame. So a client that sent `init_meeting`
   * stays active after another connection's `stop_agent` has deactivated
   * the agent: it never receives the `agent_stopped` reply.
   */
  lemma OtherConnectionDesynchronises(s: AgentState, v: ClientView, t: string)
    ensures Run(s, [InitMeeting(Some("m1"), None), StopAgent]).1 ==
              [MeetingInitialized(true, Some("m1")), AgentStopped(true)]
    ensures !Run(s, [InitMeeting(Some("m1"), None), StopAgent]).0.isActive
    ensures Replay(v, [Delivery(MeetingInitialized(true, Some("m1")), t, t)]).isAgentActive
  {
    var msgs := [InitMeeting(Some("m1"), None), StopAgent];
    var s1 := AfterInit(s, Some("m1"), None);
    var s2 := AfterStop(s1);
    var initialized, stopped := MeetingInitialized(true, Some("m1")), AgentStopped(true);
    assert msgs[1..] == [StopAgent] && msgs[1..][1..] == [];
    assert ReplyList(Some(stopped)) + [] == [stopped];
    assert Run(s1, msgs[1..]) == (s2, [stopped]);
    assert ReplyList(Some(initialized)) + [stopped] == [initialized, stopped];
    var ds := [Delivery(initialized, t, t)];
    assert ds[1..] == [];
  }

  /** Every frame the agent answers, except `update_voice`, leaves at least one line in the client's log. */
  lemma AnsweredFramesAreLogged(s: AgentState, msg: ClientMessage, now: string, later: string)
    requires !msg.UnknownKind? && !msg.UpdateVoice?
    ensures Handle(s, msg).1.Some?
    ensures |Entries(Handle(s, msg).1.value, now, later)| >= 1
  {
  }

  /**
   * The session scenario init, audio, stop on the server: the replies and
   * the agent's final state.
   */
  lemma InitAudioStopReplies(s: AgentState, meetingId: string, personality: string, audio: seq<bv8>)
    ensures Run(s, [InitMeeting(Some(meetingId), Some(personality)), AudioData(audio), StopAgent]).1 ==
              [MeetingInitialized(true, Some(meetingId)), AiResponse(MockTranscription, MockResponse, None),
               AgentStopped(true)]
    ensures !Run(s, [InitMeeting(Some(meetingId), Some(personality)), AudioData(audio), StopAgent]).0.isActive
    ensures Run(s, [InitMeeting(Some(meetingId), Some(personality)), AudioData(audio), StopAgent]).0.currentMeetingId ==
              Some(meetingId)
  {
    var msgs := [InitMeeting(Some(meetingId), Some(personality)), AudioData(audio), StopAgent];
    var s1 := AfterInit(s, Some(meetingId), Some(personality));
    var s3 := AfterStop(s1);
    var tail1, tail2 := [AudioData(audio), StopAgent], [StopAgent];
    assert msgs[1..] == tail1 && tail1[1..] == tail2 && tail2[1..] == [];
    var initialized := MeetingInitialized(true, Some(meetingId));
    var stopped, answered := AgentStopped(true), AiResponse(MockTranscription, MockResponse, None);
    assert Handle(s1, StopAgent) == (s3, Some(stopped));
    assert ReplyList(Some(stopped)) + [] == [stopped];
    assert Run(s1, tail2) == (s3, [stopped]);
    assert Handle(s1, AudioData(audio)) == (s1, Some(answered));
    assert ReplyList(Some(answered)) + [stopped] == [answered, stopped];
    assert Run(s1, tail1) == (s3, [answered, stopped]);
    assert Handle(s, msgs[0]) == (s1, Some(initialized));
    assert ReplyList(Some(initialized)) + [answered, stopped] == [initialized, answered, stopped];
  }

  /** The client receiving those three replies logs System, Human, AI Agent and System lines, in order. */
  lemma InitAudioStopLog(v: ClientView, meetingId: string, t1: string, t2: string, t3: string, t4: string)
    ensures Replay(v, [Delivery(MeetingInitialized(true, Some(meetingId)), t1, t1),
                       Delivery(AiResponse(MockTranscription, MockResponse, None), t2, t3),
                       Delivery(AgentStopped(true), t4, t4)]).conversationLog ==
              v.conversationLog + [LogEntry(SystemSpeaker, InitializedText, t1),
                                   LogEntry(HumanSpeaker, MockTranscription, t2),
                                   LogEntry(AgentSpeaker, MockResponse, t3),
                                   LogEntry(SystemSpeaker, StoppedText, t4)]
  {
    var ds := [Delivery(MeetingInitialized(true, Some(meetingId)), t1, t1),
               Delivery(AiResponse(MockTranscription, MockResponse, None), t2, t3),
               Delivery(AgentStopped(true), t4, t4)];
    LogOnlyGrows(v, ds);
    assert ds[1..] == [ds[1], ds[2]] && ds[1..][1..] == [ds[2]] && ds[1..][1..][1..] == [];
    assert AllEntries(ds[1..][1..]) == [LogEntry(SystemSpeaker, StoppedText, t4)];
    assert AllEntries(ds[1..]) == [LogEntry(HumanSpeaker, MockTranscription, t2),
                                   LogEntry(AgentSpeaker, MockResponse, t3),
                                   LogEntry(SystemSpeaker, StoppedText, t4)];
  }
}
