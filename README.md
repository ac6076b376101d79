# AI voice agent: session state machine

A Dafny model of the session logic of a browser-based AI voice agent for
meetings. The model has two halves that share one message protocol.

- **The server** (`backend/server.js`) keeps one `AIVoiceAgent` object that
  every WebSocket connection shares. The object has an activity flag, a
  language-model prompt context, the current meeting id, a participants list
  and a voice-settings object. The `message` handler takes one decoded frame
  (`init_meeting`, `audio_data`, `update_voice`, `stop_agent`). It updates the
  agent and sends at most one reply. A frame of any other type gets no reply.
  Any exception produces exactly one `error` reply.
- **The client** (`frontend/src/components/AIVoiceAgent.js`) is a React
  component. Its reducer `handleWebSocketMessage` updates the flag
  `isAgentActive`, the last transcription and response, and an append-only
  conversation log. `initializeAgent` decides whether an `init_meeting`
  frame is sent.

Layout:

- `wrappers.dfy`: `Option`, which stands for JavaScript's `null`/`undefined`.
- `protocol.dfy`: the decoded frames in both directions.
- `server.dfy`: the agent as a class (`Server.Agent`). Each of its operations
  is tied to a pure function of the agent's state (`AfterInit`,
  `AfterVoiceUpdate`, `AfterStop`, `Handle`).
- `server_properties.dfy`: properties of the handler, for one frame and for
  any sequence of frames (`Run`).
- `client.dfy`: the component state as a class (`Client.ClientState`), its
  reducer `Step`, and `String.prototype.trim`.
- `client_properties.dfy`: properties of the reducer, for one frame and for
  any sequence of frames (`Replay`).
- `session.dfy`: the two halves together. The client receives exactly the
  server's replies.

## Model

| member | source | states |
|---|---|---|
| Server.Agent.constructor | backend/server.js:36-46 | A fresh agent is inactive, with an empty context, no meeting id and no participants. Its voice settings are `en-US-Neural2-F`, speed 1.0 and pitch 0.0. |
| Server.AfterInit | backend/server.js:49-58 | After `initializeMeeting`, the meeting id is the given one and the agent is active. The context holds exactly one `system` entry. That entry is the fixed prefix followed by the personality, or by the default persona when the personality is absent or empty. Voice settings and participants are unchanged. |
| Server.Agent.InitializeMeeting | backend/server.js:49-58 | The agent's new state is `AfterInit` of its old state. |
| Server.MergeSettings | backend/server.js:99-101 | The merged keys are the old keys plus the new ones. A key present in `settings` takes the new value. Any other key keeps its old value. |
| Server.AfterVoiceUpdate | backend/server.js:99-101 | Only `voiceSettings` changes, and it becomes the right-biased merge. |
| Server.Agent.UpdateVoiceSettings | backend/server.js:99-101 | The agent's new state is `AfterVoiceUpdate` of its old state. |
| Server.AfterStop | backend/server.js:147-148 | `stop_agent` clears `isActive`. The meeting id, context, voice settings and participants are kept. |
| Server.Handle | backend/server.js:111-162 | A frame gets no reply exactly when its type is unknown. Every reply is of the kind that answers its frame. `audio_data`, unknown types and `Malformed` frames (failures raised before any field is assigned) leave the agent unchanged. No frame touches the participants list. |
| Server.Agent.Dispatch | backend/server.js:111-162 | The shared agent's new state and the reply are those given by `Handle`. |
| Server.Agent.InitializeAgentEndpoint | backend/server.js:170-191 | `POST /api/initialize-agent` starts the meeting. It then merges the voice settings, but only when some were given. The response is a success carrying the meeting id. |
| ServerProperties.RepliesMatchFrames | backend/server.js:111-162 | Over any sequence of frames, there is one reply per frame of a known type, in arrival order. Each reply is of the kind that answers its frame. |
| ServerProperties.LifecycleAfterRun | backend/server.js:111-153 | After any sequence, `isActive` and `currentMeetingId` are decided by the latest `init_meeting` or `stop_agent` frame. This is checked against a reference definition that scans from the end. |
| ServerProperties.ContextAfterRun | backend/server.js:52-55 | Until an `init_meeting` arrives, the context is unchanged. From then on it holds exactly one `system` entry: re-initialising replaces it and never appends. |
| ServerProperties.SettingsKeysPersist | backend/server.js:99-101 | No sequence of frames removes a voice-settings key or changes the participants list. |
| ServerProperties.MergeIdempotent | backend/server.js:99-101 | Merging the same settings twice gives the same result as merging them once. |
| ServerProperties.UpdateVoiceTwice | backend/server.js:139-145 | Two identical `update_voice` frames give the same state as one. Both are acknowledged with `voice_updated`. |
| ServerProperties.UpdateVoiceAlwaysAcknowledged | backend/server.js:139-145 | Every `update_voice` is acknowledged with success, whatever values it carries. The values are merged as they are. |
| ServerProperties.InitDiscardsPreviousMeeting | backend/server.js:116-123 | The state after `init_meeting` depends only on the frame, the voice settings and the participants. Nothing of the earlier meeting survives. The reply is `meeting_initialized` with success and the same meeting id. |
| Server.ProcessAudioInput | backend/server.js:61-76 | Whatever the input, the result is present and carries the fixed mock transcription and response, with no audio. |
| ServerProperties.AudioIgnoresActivity | backend/server.js:125-137 | In any state, active or not, `audio_data` leaves the agent unchanged. It is answered with `ai_response` carrying the fixed mock transcription and response and no audio. |
| ServerProperties.StopKeepsMeeting | backend/server.js:147-153 | `stop_agent` only clears `isActive` and is answered with `agent_stopped` and success. |
| ServerProperties.MalformedRepliesError | backend/server.js:155-161 | A frame that fails before any agent field is assigned (`JSON.parse`, a null frame, `Buffer.from` on a missing `audio`) changes nothing. It gets one `error` reply carrying the error's message. |
| Client.TrimStart | frontend/src/components/AIVoiceAgent.js:97 | The result is a suffix of the input. Everything dropped is whitespace. The result does not start with whitespace. |
| Client.TrimEnd | frontend/src/components/AIVoiceAgent.js:97 | The result is a prefix of the input. Everything dropped is whitespace. The result does not end with whitespace. |
| Client.Trim | frontend/src/components/AIVoiceAgent.js:97 | The result is no longer than the input and neither starts nor ends with whitespace. It is empty exactly when the input is empty or whitespace only. |
| Client.TrimEmptyIffBlank | frontend/src/components/AIVoiceAgent.js:97 | `s.trim()` is empty if and only if every character of `s` is whitespace. |
| Client.Logged | frontend/src/components/AIVoiceAgent.js:91-94 | Appending to the log adds exactly one entry at the end and keeps every earlier entry. |
| Client.Step | frontend/src/components/AIVoiceAgent.js:60-89 | The new log is the old log followed by the frame's entries. `isAgentActive` is set by `meeting_initialized`, cleared by `agent_stopped`, and otherwise kept. The transcription and response change only on `ai_response`, and then to the frame's values. |
| Client.ClientState.constructor | frontend/src/components/AIVoiceAgent.js:7-12 | The initial component state: inactive, empty transcription, response, log and meeting id, and the default personality. |
| Client.ClientState.SetMeetingId | frontend/src/components/AIVoiceAgent.js:334 | The meeting-id input sets `meetingId` and nothing else. |
| Client.ClientState.SetAgentPersonality | frontend/src/components/AIVoiceAgent.js:263 | The personality input sets `agentPersonality` and nothing else. |
| Client.ClientState.AddToConversationLog | frontend/src/components/AIVoiceAgent.js:91-94 | Exactly one entry is appended to the log. No other field changes. |
| Client.ClientState.HandleMessage | frontend/src/components/AIVoiceAgent.js:60-89 | The component's new state is `Step` of its old state. The meeting id and personality are unchanged. |
| Client.ClientState.InitializeAgent | frontend/src/components/AIVoiceAgent.js:96-109 | The user is alerted if and only if the meeting id is empty or whitespace only. A frame is sent if and only if the id is not blank and the socket is open. That frame is `init_meeting` carrying exactly the id and the personality as typed. |
| ClientProperties.LogOnlyGrows | frontend/src/components/AIVoiceAgent.js:60-94 | After any sequence of frames, the log is the old log followed by each frame's entries in arrival order. So it never shrinks, and it gains at most two entries per frame. |
| ClientProperties.MeetingInitializedActivates | frontend/src/components/AIVoiceAgent.js:62-65 | `meeting_initialized` sets `isAgentActive` and appends one `System` line. |
| ClientProperties.AiResponseLogsTurn | frontend/src/components/AIVoiceAgent.js:67-71 | `ai_response` sets the transcription and the response. It appends a `Human` line and then an `AI Agent` line. `isAgentActive` is unchanged. |
| ClientProperties.AgentStoppedDeactivates | frontend/src/components/AIVoiceAgent.js:79-82 | `agent_stopped` clears `isAgentActive` and appends the `System` line "AI Agent stopped". |
| ClientProperties.ErrorIsLogged | frontend/src/components/AIVoiceAgent.js:84-87 | `error` appends the `System` line "Error: " followed by the message. Nothing else changes. |
| ClientProperties.UnmatchedFrameIgnored | frontend/src/components/AIVoiceAgent.js:61-88 | A frame type the switch does not match (`voice_updated` included) leaves the component state unchanged. |
| Session.ActivityAgreesOnReply | backend/server.js:115-153 | For one frame: the client's reaction to the server's reply moves `isAgentActive` exactly as the frame moved the agent's `isActive`. |
| Session.ActivityAgrees | frontend/src/components/AIVoiceAgent.js:62-82 | With a single connection: a client whose flag agrees with the agent's still agrees after any sequence of frames, once it has received exactly the server's replies, at any clock readings. |
| Session.OtherConnectionDesynchronises | backend/server.js:105-153 | Because the agent is shared by all connections: after `init_meeting` from one client and `stop_agent` from another, the agent is inactive while the first client, which received only `meeting_initialized`, shows the agent as active. |
| Session.AnsweredFramesAreLogged | frontend/src/components/AIVoiceAgent.js:60-89 | Every server reply, except the one to `update_voice` and the missing reply to an unknown type, puts at least one line in the client's log. |
| Session.InitAudioStopReplies | backend/server.js:115-153 | For the frames init, audio, stop, from any agent state: the replies are `meeting_initialized`, `ai_response` and `agent_stopped`. The agent ends inactive with the new meeting id. |
| Session.InitAudioStopLog | frontend/src/components/AIVoiceAgent.js:60-94 | A client receiving those three replies logs System, Human, AI Agent and System lines, in that order, after its earlier log. |

## Behaviour the code does not have

- There is one global agent for all connections, not one session per connection.
- There is no lifecycle state beyond the `isActive` flag.
- `audio_data` is accepted and answered while the agent is inactive.
- Voice settings are not range-checked.
- There is no generation counter and no audio queue.
- `init_meeting` resets the language-model context. The server adds no conversation-history entry on init; only the client's log records it.

## Left out

- Transport: WebSocket setup, connect and close handlers, the client's 3-second reconnect timer, HTTP server start-up and shutdown. These are I/O and timers.
- JSON parsing and serialisation, and base64. Frames are already-decoded datatypes. `Malformed(errMsg)` stands for the failures raised before any agent field is assigned: a `JSON.parse` failure, a `null` frame, and `Buffer.from` on a missing `audio` field.
- Non-string meeting ids and personalities. These fields are `Option<string>`, where `None` is absent or null. The JavaScript falsiness of `0`, `false` or `NaN` as a personality is not modelled.
- Exceptions thrown inside `initializeMeeting` after a partial update are not modelled. An object `personality` with no usable `toString`/`valueOf` throws in the template literal at backend/server.js:54, after :50-51 have already set the meeting id and `isActive`; the agent keeps its old context and the client gets `error`. Such a `meetingId` throws at :57, after the whole initialisation, and the client gets `error` instead of `meeting_initialized`.
- Voice settings that are not objects. A settings value is a map from keys to scalar JSON values. Spreading `null` or `undefined` corresponds to the empty map. Nested objects, arrays and key order are not modelled. Speed and pitch are reals that are only stored and merged.
- Server.Agent.Dispatch: handlers run one frame at a time, and each reply is sent before the next frame is handled. The agent's state changes do happen in arrival order, but the source sends the `init_meeting` and `audio_data` replies after an `await` (backend/server.js:117, :127). A later frame's synchronous branch can therefore send its reply first, on one connection as well as across connections. The interleaving that `async`/`await` allows is not modelled.
- ServerProperties.RepliesMatchFrames: "in arrival order" holds for the model's one-frame-at-a-time handler. In the source, the reply order can differ from the frame order when frames arrive close together (see the Dispatch line above).
- Session.ActivityAgrees: covers one connection only. It assumes that the client receives the reply to every frame the shared agent handles, in the order the frames were handled. Frames from another connection change the shared agent without any reply reaching this client, which desynchronises the flags (Session.OtherConnectionDesynchronises). Also, if `agent_stopped` overtakes `meeting_initialized` (see the Dispatch line above), the client ends active while the agent is inactive.
- Console logging is not modelled (backend/server.js:57, :73, :156; frontend/src/components/AIVoiceAgent.js:85): it only writes to the console and changes no state.
- `processAudioInput` ignores its input, and its `catch` path that returns `null` cannot be reached. `Handle` still branches on the result, as the handler does.
- `generateResponse` is not modelled, because it uses `Math.random` and nothing in the handler calls it.
- `/api/process-audio`, `/api/agent-status` and `/health` are not modelled. They are file I/O, a read-only snapshot and a clock reading.
- Clock readings (`toLocaleTimeString`) are parameters of the client's reducer: one for each log append.
- Browser media is not modelled: recording, `processAudio`, playing `ai_response` audio, `stopAgent` (which also stops recording), the voice-settings form and `updateVoiceSettings`, `alert` itself, and the JSX rendering.
- Client.TrimStart: the characters are Unicode scalar values, not UTF-16 code units. Unpaired surrogates are not modelled.
