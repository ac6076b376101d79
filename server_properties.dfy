/**
 * Properties of the server's message handler, one frame at a time and over
 * any sequence of frames arriving on the shared agent.
 */
module ServerProperties {
  import opened Wrappers
  import opened Protocol
  import opened Server

  function ReplyList(reply: Option<ServerMessage>): seq<ServerMessage>
  {
    if reply.Some? then [reply.value] else []
  }

  /** The agent state, and every frame sent back, after `msgs` are handled in arrival order. */
  function Run(s: AgentState, msgs: seq<ClientMessage>): (r: (AgentState, seq<ServerMessage>))
    decreases |msgs|
  {
    if msgs == [] then (s, [])
    else
      var step := Handle(s, msgs[0]);
      var rest := Run(step.0, msgs[1..]);
      (rest.0, ReplyList(step.1) + rest.1)
  }

  /** The frames of `msgs` that the handler answers: all but those of an unknown type. */
  function Answered(msgs: seq<ClientMessage>): seq<ClientMessage>
    decreases |msgs|
  {
    if msgs == [] then []
    else if msgs[0].UnknownKind? then Answered(msgs[1..])
    else [msgs[0]] + Answered(msgs[1..])
  }

  /** Whether some frame of `msgs` is an `init_meeting`. */
  predicate HasInit(msgs: seq<ClientMessage>)
  {
    exists i :: 0 <= i < |msgs| && msgs[i].InitMeeting?
  }

  /** Reference definition: `isActive` is set by the latest `init_meeting` or `stop_agent`, if any. */
  function ActiveAfter(active: bool, msgs: seq<ClientMessage>): bool
    decreases |msgs|
  {
    if msgs == [] then active
    else
      match msgs[|msgs| - 1]
      case InitMeeting(_, _) => true
      case StopAgent => false
      case _ => ActiveAfter(active, msgs[..|msgs| - 1])
  }

  /** Reference definition: the meeting id is the one of the latest `init_meeting`, if any. */
  function MeetingIdAfter(meetingId: Option<string>, msgs: seq<ClientMessage>): Option<string>
    decreases |msgs|
  {
    if msgs == [] then meetingId
    else
      match msgs[|msgs| - 1]
      case InitMeeting(id, _) => id
      case _ => MeetingIdAfter(meetingId, msgs[..|msgs| - 1])
  }

  /** Handling one more frame extends a run by that frame's effect and reply. */
  lemma {:induction false} RunSnoc(s: AgentState, msgs: seq<ClientMessage>, m: ClientMessage)
    ensures Run(s, msgs + [m]).0 == Handle(Run(s, msgs).0, m).0
    ensures Run(s, msgs + [m]).1 == Run(s, msgs).1 + ReplyList(Handle(Run(s, msgs).0, m).1)
    decreases |msgs|
  {
    if msgs == [] {
      assert [m][1..] == [];
    } else {
      var step := Handle(s, msgs[0]);
      assert (msgs + [m])[1..] == msgs[1..] + [m];
      RunSnoc(step.0, msgs[1..], m);
    }
  }

  /**
   * Exactly one reply per answered frame, in arrival order, each of the
   * kind that answers its frame; unknown types are skipped.
   */
  lemma {:induction false} RepliesMatchFrames(s: AgentState, msgs: seq<ClientMessage>)
    ensures |Run(s, msgs).1| == |Answered(msgs)|
    ensures forall i :: 0 <= i < |Answered(msgs)| ==> Answers(Answered(msgs)[i], Run(s, msgs).1[i])
    decreases |msgs|
  {
    if msgs != [] {
      var step := Handle(s, msgs[0]);
      var rest := Run(step.0, msgs[1..]);
      RepliesMatchFrames(step.0, msgs[1..]);
      assert Run(s, msgs).1 == ReplyList(step.1) + rest.1;
      if msgs[0].UnknownKind? {
        assert Answered(msgs) == Answered(msgs[1..]) && step.1.None?;
      } else {
        var answered := Answered(msgs);
        assert answered == [msgs[0]] + Answered(msgs[1..]);
        assert step.1.Some? && Answers(msgs[0], step.1.value);
        forall i | 0 <= i < |answered| ensures Answers(answered[i], Run(s, msgs).1[i]) {
          if i > 0 {
            assert answered[i] == Answered(msgs[1..])[i - 1];
            assert Run(s, msgs).1[i] == rest.1[i - 1];
          }
        }
      }
    }
  }

  /** `isActive` and `currentMeetingId` after any run are decided by the latest lifecycle frame. */
  lemma {:induction false} LifecycleAfterRun(s: AgentState, msgs: seq<ClientMessage>)
    ensures Run(s, msgs).0.isActive == ActiveAfter(s.isActive, msgs)
    ensures Run(s, msgs).0.currentMeetingId == MeetingIdAfter(s.currentMeetingId, msgs)
    decreases |msgs|
  {
    if msgs != [] {
      var prefix, last := msgs[..|msgs| - 1], msgs[|msgs| - 1];
      assert msgs == prefix + [last];
      RunSnoc(s, prefix, last);
      LifecycleAfterRun(s, prefix);
    }
  }

  /**
   * The prompt context is untouched until an `init_meeting` arrives and from
   * then on holds exactly one system entry: re-initialising replaces it.
   */
  lemma {:induction false} ContextAfterRun(s: AgentState, msgs: seq<ClientMessage>)
    ensures !HasInit(msgs) ==> Run(s, msgs).0.conversationContext == s.conversationContext
    ensures HasInit(msgs) ==>
              |Run(s, msgs).0.conversationContext| == 1 &&
              Run(s, msgs).0.conversationContext[0].role == SystemRole
    decreases |msgs|
  {
    if msgs != [] {
      var step := Handle(s, msgs[0]);
      ContextAfterRun(step.0, msgs[1..]);
      if HasInit(msgs[1..]) {
        var i :| 0 <= i < |msgs[1..]| && msgs[1..][i].InitMeeting?;
        assert msgs[i + 1].InitMeeting?;
      }
      if HasInit(msgs) && !msgs[0].InitMeeting? {
        var i :| 0 <= i < |msgs| && msgs[i].InitMeeting?;
        assert msgs[1..][i - 1].InitMeeting?;
      }
    }
  }

  /** No run loses a voice-settings key or touches the participants list. */
  lemma {:induction false} SettingsKeysPersist(s: AgentState, msgs: seq<ClientMessage>)
    ensures s.voiceSettings.Keys <= Run(s, msgs).0.voiceSettings.Keys
    ensures Run(s, msgs).0.participantsList == s.participantsList
    decreases |msgs|
  {
    if msgs != [] {
      var step := Handle(s, msgs[0]);
      SettingsKeysPersist(step.0, msgs[1..]);
    }
  }

  /** Merging the same settings a second time changes nothing. */
  lemma MergeIdempotent(current: map<string, Value>, settings: map<string, Value>)
    ensures MergeSettings(MergeSettings(current, settings), settings) == MergeSettings(current, settings)
  {
  }

  /** Two identical `update_voice` frames leave the settings as one does, and both are acknowledged. */
  lemma UpdateVoiceTwice(s: AgentState, settings: map<string, Value>)
    ensures Run(s, [UpdateVoice(settings), UpdateVoice(settings)]).0 == AfterVoiceUpdate(s, settings)
    ensures Run(s, [UpdateVoice(settings), UpdateVoice(settings)]).1 == [VoiceUpdated(true), VoiceUpdated(true)]
  {
    var msgs := [UpdateVoice(settings), UpdateVoice(settings)];
    var once := AfterVoiceUpdate(s, settings);
    MergeIdempotent(s.voiceSettings, settings);
    var one := [UpdateVoice(settings)];
    assert msgs[1..] == one && one[1..] == [];
    assert AfterVoiceUpdate(once, settings) == once;
    assert Handle(once, one[0]) == (once, Some(VoiceUpdated(true)));
    assert Run(once, one[1..]) == (once, []);
    assert ReplyList(Some(VoiceUpdated(true))) + [] == [VoiceUpdated(true)];
    assert Run(once, one) == (once, [VoiceUpdated(true)]);
  }

  /** `init_meeting` echoes the id with success, and the new state ignores the previous meeting. */
  lemma InitDiscardsPreviousMeeting(s: AgentState, t: AgentState, meetingId: Option<string>, personality: Option<string>)
    requires s.voiceSettings == t.voiceSettings && s.participantsList == t.participantsList
    ensures Handle(s, InitMeeting(meetingId, personality)).0 == Handle(t, InitMeeting(meetingId, personality)).0
    ensures Handle(s, InitMeeting(meetingId, personality)).1 == Some(MeetingInitialized(true, meetingId))
  {
  }

  /** `audio_data` is answered with the fixed mock result whether or not the agent is active. */
  lemma AudioIgnoresActivity(s: AgentState, audio: seq<bv8>)
    ensures Handle(s, AudioData(audio)).0 == s
    ensures Handle(s, AudioData(audio)).1 == Some(AiResponse(MockTranscription, MockResponse, None))
  {
  }

  /** Every `update_voice` is acknowledged, whatever values it carries: nothing is range-checked. */
  lemma UpdateVoiceAlwaysAcknowledged(s: AgentState, settings: map<string, Value>)
    ensures Handle(s, UpdateVoice(settings)).1 == Some(VoiceUpdated(true))
    ensures Handle(s, UpdateVoice(settings)).0.voiceSettings == MergeSettings(s.voiceSettings, settings)
  {
  }

  /** `stop_agent` only clears `isActive` and is acknowledged. */
  lemma StopKeepsMeeting(s: AgentState)
    ensures Handle(s, StopAgent).0 == s.(isActive := false)
    ensures Handle(s, StopAgent).1 == Some(AgentStopped(true))
  {
  }

  /**
   * A frame that fails before any agent field is assigned (`JSON.parse`, a
   * null frame, `Buffer.from` on a missing `audio`) sends one `error`
   * carrying its message and changes nothing.
   */
  lemma MalformedRepliesError(s: AgentState, errMsg: string)
    ensures Handle(s, Malformed(errMsg)) == (s, Some(Error(errMsg)))
  {
  }
}
