# VisionClaw core, modelled in Dafny

VisionClaw is an iOS app that streams smart-glasses video. It can stream over WebRTC to a browser peer, run an on-device vision-language model on the frames, and give a voice assistant (Gemini Live) three tools. It runs those tools through a local OpenClaw gateway. This project models the logic around those pieces. The media, model and network libraries are left abstract.

- `webrtc_session.dfy` (`WebRTCSession`): the session orchestrator, `WebRTCSessionViewModel`. `Session` is a pure snapshot of its state, with one transition function per event: start, stop, toggle mute, push frame, the eight signalling messages, signalling connected and disconnected, ICE state changes, local candidates and the created offer. `SessionViewModel` is the class. Each of its methods is proved to produce exactly the snapshot that the matching transition function gives. The peer-connection client, the signalling client and the delegate adapter are presence flags. A ghost log records every request made of the first two. Lemmas prove:
  - an invariant: an active session owns all three collaborators;
  - the frame gate;
  - stop is idempotent, and two toggles cancel;
  - a run of ICE events ends in the state of the last mapped event;
  - two concrete scenarios.

  When the signalling URL is invalid, the source leaves the newly created client and signalling channel in place and marks the session inactive. The next start then replaces them without closing the client. The model keeps this behaviour (`InvalidURLKeepsClient`).
- `webrtc_client.dfy` (`WebRTCClient`): the peer-connection wrapper. It covers tracks and their enabled flags, the peer connection as a record of what was applied to it, offer creation gated on setting the local description, remote description and candidates, mute, close, and which library callbacks reach the delegate. What the library answers is an input of each method.
- `tool_call_models.dfy` (`ToolCallModels`): parsing of `toolCall` and `toolCallCancellation` messages over an abstract JSON value. It also holds the tool result and its response value, the tool-call status and its display text, and the three tool declarations.
- `tool_call_router.dfy` (`ToolCallRouter`): mapping a tool name to a gateway request, the `toolResponse` envelope, and the `Router` class. The class holds the in-flight dictionary from call id to task and supports task creation, task completion, and cancelling by id or all at once.
- `openclaw_bridge.dfy` (`OpenClawBridge`): the request bodies and the classification of the HTTP outcome into a result and a status. `Bridge` is the class whose `lastToolCallStatus` the UI shows.
- `fastvlm_service.dfy` (`FastVLMService`): the vision-model service. It covers activation, the one-frame-per-second throttle, the re-entrancy guard and task cancellation, the cached model load, the token callback, and the end-of-task clean-up.
- `gemini_config.dfy` (`GeminiConfig`): the constants, the PCM frame size, and the websocket URL builder.
- `json.dfy`, `wrappers.dfy`: the abstract JSON value with typed field lookups, and `Option`/`Result`.

Inputs that stand for code outside the model:
- `configured` and `signalingURL` stand for `WebRTCConfig.isConfigured` and `URL(string:)` on its address.
- `urlOk` stands for the gateway `URL(string:)`.
- `parses` stands for `URL(string:)` in `websocketURL()`.
- `HttpExchange` is a transport error or a response. A response has an optional status code, an optional UTF-8 body and an optional parsed JSON value.
- `serialize` stands for `JSONSerialization.data(withJSONObject:options: .sortedKeys)` on the invoke result. Its `Err` results stand for the case in which Foundation refuses the value; the source then traps instead of returning (see "## Left out").
- `describeArgs` stands for `String(describing:)`.
- whether a frame converts to a `CIImage`.
- `LoadOutcome` and `GenerationOutcome` stand for the MLX loader and generator.
- the time `now`, in integer milliseconds.

## Model

| member | source | states |
|---|---|---|
| WebRTCSession.StartedSession | samples/CameraAccess/CameraAccess/WebRTC/WebRTCSessionViewModel.swift:27-76 | Active: nothing changes. Not configured: only errorMessage changes, to the fixed text. Otherwise a client (set up) and a signalling channel are created. A valid URL gives an active, connecting session that connects to that URL. An invalid URL gives inactive, disconnected and "Invalid signaling URL", with no connect request. |
| WebRTCSession.StoppedSession | samples/CameraAccess/CameraAccess/WebRTC/WebRTCSessionViewModel.swift:78-88 | From any state: inactive, disconnected, empty room code, unmuted, no collaborators. The client is closed and signalling disconnected only if present. errorMessage is kept. |
| WebRTCSession.MuteToggled | samples/CameraAccess/CameraAccess/WebRTC/WebRTCSessionViewModel.swift:90-93 | isMuted flips. muteAudio(new value) is issued only if a client exists. Nothing else changes. |
| WebRTCSession.FramePushed | samples/CameraAccess/CameraAccess/WebRTC/WebRTCSessionViewModel.swift:96-99 | A frame is forwarded only when active and connected (and a client exists). Nothing else changes. |
| WebRTCSession.MessageHandled | samples/CameraAccess/CameraAccess/WebRTC/WebRTCSessionViewModel.swift:103-140 | roomCreated sets the room code and waitingForPeer. peerLeft sets waitingForPeer. error sets errorMessage. peerJoined, answer and candidate only issue client requests (createOffer, remote SDP, remote candidate). roomJoined and offer change nothing. Flags and signalling requests are untouched. |
| WebRTCSession.MappedIceState | samples/CameraAccess/CameraAccess/WebRTC/WebRTCSessionViewModel.swift:144-158 | Exactly connected, completed, disconnected, failed and closed are mapped. Which state each maps to is the definition itself: connected, connected, waitingForPeer, error("Connection failed"), disconnected. Its partners are IceStateApplied and IceRunLastMapped, which state the effect on a session. |
| WebRTCSession.IceStateApplied | samples/CameraAccess/CameraAccess/WebRTC/WebRTCSessionViewModel.swift:144-158 | Only connectionState changes, to the mapped state or to itself for unmapped states, whether or not the session is active. |
| WebRTCSession.CandidateSent | samples/CameraAccess/CameraAccess/WebRTC/WebRTCSessionViewModel.swift:160-162 | The candidate is sent over signalling if a channel exists. Nothing else changes. |
| WebRTCSession.RoomRequested | samples/CameraAccess/CameraAccess/WebRTC/WebRTCSessionViewModel.swift:49-53 | On signalling connected, a room is requested if a channel exists. Nothing else changes. |
| WebRTCSession.OfferSent | samples/CameraAccess/CameraAccess/WebRTC/WebRTCSessionViewModel.swift:112-114 | The created offer is sent over signalling if a channel exists. Nothing else changes. |
| WebRTCSession.DisconnectHandled | samples/CameraAccess/CameraAccess/WebRTC/WebRTCSessionViewModel.swift:61-66 | Ignored while inactive. Otherwise the session is stopped, and errorMessage becomes "Signaling disconnected: " followed by the reason or "Unknown". |
| WebRTCSession.StepPreservesInv | samples/CameraAccess/CameraAccess/WebRTC/WebRTCSessionViewModel.swift:34-47 | Every event keeps the invariant that an active session has its client, signalling channel and adapter. |
| WebRTCSession.RunPreservesInv | samples/CameraAccess/CameraAccess/WebRTC/WebRTCSessionViewModel.swift:27-88 | The invariant holds after any sequence of events. |
| WebRTCSession.FrameForwardedIffConnected | samples/CameraAccess/CameraAccess/WebRTC/WebRTCSessionViewModel.swift:96-99 | After any event sequence from the initial state, a pushed frame is forwarded exactly when the session is active and connected. |
| WebRTCSession.StartTwice | samples/CameraAccess/CameraAccess/WebRTC/WebRTCSessionViewModel.swift:28 | Starting an already started session changes nothing and creates no second client. |
| WebRTCSession.StopIdempotent | samples/CameraAccess/CameraAccess/WebRTC/WebRTCSessionViewModel.swift:78-88 | Stopping twice gives the same state and requests as stopping once. |
| WebRTCSession.StopRepeated | samples/CameraAccess/CameraAccess/WebRTC/WebRTCSessionViewModel.swift:78-88 | Any positive number of stops equals one stop. |
| WebRTCSession.ToggleTwice | samples/CameraAccess/CameraAccess/WebRTC/WebRTCSessionViewModel.swift:90-93 | Two toggles restore isMuted and keep the connection state. They issue muteAudio(!m) then muteAudio(m) when a client exists. |
| WebRTCSession.IceRunLastMapped | samples/CameraAccess/CameraAccess/WebRTC/WebRTCSessionViewModel.swift:144-158 | After any run of ICE changes, the connection state is that of the last mapped change, or unchanged if none is mapped. All other state is untouched. |
| WebRTCSession.RunAppend | samples/CameraAccess/CameraAccess/WebRTC/WebRTCSessionViewModel.swift:27-162 | Running two event sequences one after the other equals running their concatenation. |
| WebRTCSession.IceEvents | samples/CameraAccess/CameraAccess/WebRTC/WebRTCClient.swift:135-140 | Each ICE state becomes one state-change event, in order. |
| WebRTCSession.EndToEndScenario | samples/CameraAccess/CameraAccess/WebRTC/WebRTCSessionViewModel.swift:27-158 | A worked example: start, connect, room "AB12", peer joins, offer, answer, ICE connected, frame. The session ends active and connected in room AB12, with exactly the expected signalling and client requests and one client. |
| WebRTCSession.SignalingDropScenario | samples/CameraAccess/CameraAccess/WebRTC/WebRTCSessionViewModel.swift:61-66 | A worked example: signalling dropping with "timeout" leaves the session stopped, with errorMessage "Signaling disconnected: timeout", the client closed and signalling disconnected. |
| WebRTCSession.InvalidURLKeepsClient | samples/CameraAccess/CameraAccess/WebRTC/WebRTCSessionViewModel.swift:34-75 | An invalid URL leaves the created client and channel in place while inactive. A retry creates a second client without closing the first. |
| WebRTCSession.FailedDropsFrames | samples/CameraAccess/CameraAccess/WebRTC/WebRTCSessionViewModel.swift:151-152 | After ICE fails, the state is error("Connection failed") and pushed frames are dropped. |
| WebRTCSession.SessionViewModel.StartSession | samples/CameraAccess/CameraAccess/WebRTC/WebRTCSessionViewModel.swift:27-76 | The new state is StartedSession of the old one, and the invariant is kept. |
| WebRTCSession.SessionViewModel.StopSession | samples/CameraAccess/CameraAccess/WebRTC/WebRTCSessionViewModel.swift:78-88 | The new state is StoppedSession of the old one: inactive, disconnected, empty room, unmuted, error kept. |
| WebRTCSession.SessionViewModel.ToggleMute | samples/CameraAccess/CameraAccess/WebRTC/WebRTCSessionViewModel.swift:90-93 | The new state is MuteToggled of the old one. |
| WebRTCSession.SessionViewModel.PushVideoFrame | samples/CameraAccess/CameraAccess/WebRTC/WebRTCSessionViewModel.swift:96-99 | The new state is FramePushed of the old one. A frame is logged iff the session was active and connected. |
| WebRTCSession.SessionViewModel.HandleSignalingMessage | samples/CameraAccess/CameraAccess/WebRTC/WebRTCSessionViewModel.swift:103-140 | The new state is MessageHandled of the old one. |
| WebRTCSession.SessionViewModel.HandleConnectionStateChange | samples/CameraAccess/CameraAccess/WebRTC/WebRTCSessionViewModel.swift:144-158 | The new state is IceStateApplied of the old one. |
| WebRTCSession.SessionViewModel.HandleGeneratedCandidate | samples/CameraAccess/CameraAccess/WebRTC/WebRTCSessionViewModel.swift:160-162 | The new state is CandidateSent of the old one. |
| WebRTCSession.SessionViewModel.OnSignalingConnected | samples/CameraAccess/CameraAccess/WebRTC/WebRTCSessionViewModel.swift:49-53 | The new state is RoomRequested of the old one. |
| WebRTCSession.SessionViewModel.OnOfferCreated | samples/CameraAccess/CameraAccess/WebRTC/WebRTCSessionViewModel.swift:112-114 | The new state is OfferSent of the old one. |
| WebRTCSession.SessionViewModel.OnSignalingDisconnected | samples/CameraAccess/CameraAccess/WebRTC/WebRTCSessionViewModel.swift:61-66 | The new state is DisconnectHandled of the old one. |
| WebRTCClient.Forwarded | samples/CameraAccess/CameraAccess/WebRTC/WebRTCClient.swift:128-172 | Only ICE connection changes and generated candidates are passed on, unchanged. Every other callback is dropped. |
| WebRTCClient.Client.Setup | samples/CameraAccess/CameraAccess/WebRTC/WebRTCClient.swift:32-50 | The peer connection is created with the ICE servers, unified plan, continual gathering and DTLS-SRTP key agreement. Video "video0" and audio "audio0" are created enabled and added under stream "stream0". |
| WebRTCClient.Client.SetDelegate | samples/CameraAccess/CameraAccess/WebRTC/WebRTCSessionViewModel.swift:39-41 | Setting the delegate, or losing it, decides whether forwarded events reach it. |
| WebRTCClient.Client.CreateMediaTracks | samples/CameraAccess/CameraAccess/WebRTC/WebRTCClient.swift:52-68 | Both tracks exist and are enabled, and the capturer exists. If a peer connection exists, the video track then the audio track are added to it under "stream0". |
| WebRTCClient.Client.PushVideoFrame | samples/CameraAccess/CameraAccess/WebRTC/WebRTCClient.swift:71-73 | A frame reaches the capturer, with its rotation, once the capturer exists. |
| WebRTCClient.Client.CreateOffer | samples/CameraAccess/CameraAccess/WebRTC/WebRTCClient.swift:77-99 | The completion runs iff a peer connection exists, an offer was produced and setting it as local description succeeded. The offer is then the local description. The offer asks to receive audio and not video. Without a peer connection nothing is requested. |
| WebRTCClient.Client.SetRemoteSdp | samples/CameraAccess/CameraAccess/WebRTC/WebRTCClient.swift:101-103 | Without a peer connection nothing happens and the completion never runs. Otherwise the description is applied and the completion receives the library's error or none. |
| WebRTCClient.Client.SetRemoteCandidate | samples/CameraAccess/CameraAccess/WebRTC/WebRTCClient.swift:105-107 | The same as SetRemoteSdp, for one remote candidate. |
| WebRTCClient.Client.MuteAudio | samples/CameraAccess/CameraAccess/WebRTC/WebRTCClient.swift:109-111 | The audio track's enabled flag becomes !mute. Nothing else changes. |
| WebRTCClient.Client.Close | samples/CameraAccess/CameraAccess/WebRTC/WebRTCClient.swift:113-118 | Both tracks are disabled but kept. The peer connection is closed if present and becomes absent. |
| WebRTCClient.Client.OnPeerEvent | samples/CameraAccess/CameraAccess/WebRTC/WebRTCClient.swift:128-172 | The delegate receives exactly the forwarded events, while it is set. |
| WebRTCClient.MuteThenUnmute | samples/CameraAccess/CameraAccess/WebRTC/WebRTCClient.swift:109-111 | A worked example: mute then unmute re-enables the audio track and leaves the video track as it was. |
| WebRTCClient.NegotiationAfterClose | samples/CameraAccess/CameraAccess/WebRTC/WebRTCClient.swift:85-107 | A worked example: after close, createOffer, the remote SDP and the remote candidate neither reach the library nor complete. |
| ToolCallModels.CallOf | samples/CameraAccess/CameraAccess/OpenClaw/ToolCallModels.swift:20-23 | A kept entry gives its string id and name. args is the "args" object, or empty when that is absent or not an object. |
| ToolCallModels.CompactCalls | samples/CameraAccess/CameraAccess/OpenClaw/ToolCallModels.swift:19-24 | Never more calls than entries. |
| ToolCallModels.AsObjectArray | samples/CameraAccess/CameraAccess/OpenClaw/ToolCallModels.swift:16 | The cast to an array of objects succeeds iff every element is an object, and then keeps them all in order. |
| ToolCallModels.AsStringArray | samples/CameraAccess/CameraAccess/OpenClaw/ToolCallModels.swift:35 | The cast to an array of strings succeeds iff every element is a string, and then keeps them all in order. |
| ToolCallModels.ParseToolCall | samples/CameraAccess/CameraAccess/OpenClaw/ToolCallModels.swift:14-26 | Not nil iff "toolCall" is an object whose "functionCalls" is an array of objects. The calls are then the compacted entries. |
| ToolCallModels.ParseCancellation | samples/CameraAccess/CameraAccess/OpenClaw/ToolCallModels.swift:33-39 | Not nil iff "toolCallCancellation" is an object whose "ids" is an array of strings. The ids are then exactly those strings, in order. |
| ToolCallModels.CompactCallsAppend | samples/CameraAccess/CameraAccess/OpenClaw/ToolCallModels.swift:19-24 | Compacting distributes over concatenation, so kept calls stay in their original order. |
| ToolCallModels.CompactCallsAllWellFormed | samples/CameraAccess/CameraAccess/OpenClaw/ToolCallModels.swift:19-24 | When every entry has a string id and name, all are kept, one call per entry in position. |
| ToolCallModels.CompactCallsSound | samples/CameraAccess/CameraAccess/OpenClaw/ToolCallModels.swift:19-24 | Every kept call comes from a well-formed entry. |
| ToolCallModels.CompactCallsNoneWellFormed | samples/CameraAccess/CameraAccess/OpenClaw/ToolCallModels.swift:19-24 | When no entry has both, no call is kept. |
| ToolCallModels.ResponseValue | samples/CameraAccess/CameraAccess/OpenClaw/ToolCallModels.swift:48-55 | Always one key: {"result": s} for success(s), {"error": e} for failure(e). |
| ToolCallModels.ResponseValueRoundTrip | samples/CameraAccess/CameraAccess/OpenClaw/ToolCallModels.swift:48-55 | The result can be read back from its response value. |
| ToolCallModels.DisplayText | samples/CameraAccess/CameraAccess/OpenClaw/ToolCallModels.swift:67-75 | Empty iff idle. Otherwise it starts with "Running: ", "Done: ", "Failed: " or "Cancelled: " according to the case. |
| ToolCallModels.IsActive | samples/CameraAccess/CameraAccess/OpenClaw/ToolCallModels.swift:77-80 | True iff executing. |
| ToolCallModels.DisplayTextDeterminesStatus | samples/CameraAccess/CameraAccess/OpenClaw/ToolCallModels.swift:67-75 | Two statuses that are not failed and have the same text are equal. |
| ToolCallModels.FailedDisplayTextAmbiguous | samples/CameraAccess/CameraAccess/OpenClaw/ToolCallModels.swift:72 | Two different failed statuses can render the same "Failed: n - e" text. |
| ToolCallModels.PropertiesJson | samples/CameraAccess/CameraAccess/OpenClaw/ToolCallModels.swift:96-109 | The properties object has exactly the declared property keys. |
| ToolCallModels.StringsToJson | samples/CameraAccess/CameraAccess/OpenClaw/ToolCallModels.swift:110 | A list of strings reads back as the same list. |
| ToolCallModels.DeclarationJson | samples/CameraAccess/CameraAccess/OpenClaw/ToolCallModels.swift:91-152 | A declaration object has exactly name, description and parameters, plus behavior "NON_BLOCKING" exactly when the tool is non-blocking. The description is carried verbatim. |
| ToolCallModels.AllDeclarations | samples/CameraAccess/CameraAccess/OpenClaw/ToolCallModels.swift:87-89 | Three declaration objects, each with parameters. AllDeclarationsShape gives their names, order, required fields and behaviour. |
| ToolCallModels.DeclarationJsonFields | samples/CameraAccess/CameraAccess/OpenClaw/ToolCallModels.swift:91-152 | A rendered declaration gives back its name, required list and property names. It is NON_BLOCKING iff declared so. |
| ToolCallModels.AllDeclarationsShape | samples/CameraAccess/CameraAccess/OpenClaw/ToolCallModels.swift:87-152 | delegate_task, send_message, web_search in that order. Required fields are ["task"], ["to","message"], ["query"], each among its properties. Only the first two are NON_BLOCKING. |
| ToolCallRouter.Route | samples/CameraAccess/CameraAccess/OpenClaw/ToolCallRouter.swift:27-62 | delegate_task: task defaults to "", deliver to false, channel optional, timeout 120. send_message: the fixed text with channel defaulting to "last", no delivery, timeout 30. web_search: invoke web_search/json with the query (default ""). Any other name: the generic "Execute tool '…' with args: …" task. |
| ToolCallRouter.RouteInvariants | samples/CameraAccess/CameraAccess/OpenClaw/ToolCallRouter.swift:27-62 | Invoke iff web_search. Delivery only when delegate_task has deliver true. A channel only from delegate_task's own argument. Timeout 30 iff send_message. |
| ToolCallRouter.SendMessageTaskShape | samples/CameraAccess/CameraAccess/OpenClaw/ToolCallRouter.swift:42 | The send_message task text starts with "Send a " and the channel, and ends with the message. |
| ToolCallRouter.SendMessageTask | samples/CameraAccess/CameraAccess/OpenClaw/ToolCallRouter.swift:42 | The task text is the channel, recipient and message with exactly 28 fixed characters around them. SendMessageTaskShape gives where each part sits. |
| ToolCallRouter.BuildToolResponse | samples/CameraAccess/CameraAccess/OpenClaw/ToolCallRouter.swift:104-120 | The envelope has the single key toolResponse, holding a single functionResponses array of exactly one object with keys id, name and response. BuildToolResponseRoundTrip reads the values back. |
| ToolCallRouter.BuildToolResponseRoundTrip | samples/CameraAccess/CameraAccess/OpenClaw/ToolCallRouter.swift:104-120 | The envelope holds exactly one function response, and its id, name and result read back unchanged. |
| ToolCallRouter.CancelTask | samples/CameraAccess/CameraAccess/OpenClaw/ToolCallRouter.swift:86 | Cancelling a task marks exactly that task cancelled and changes nothing else. |
| ToolCallRouter.Router.HandleToolCall | samples/CameraAccess/CameraAccess/OpenClaw/ToolCallRouter.swift:14-79 | A new uncancelled task is created. The call id now maps to it, replacing any earlier entry. No response is sent. |
| ToolCallRouter.Router.RunTask | samples/CameraAccess/CameraAccess/OpenClaw/ToolCallRouter.swift:24-76 | The task routes its call and calls that bridge operation. With a valid URL, exactly one request goes out: the hook request with DelegateBody of the routed task, deliver, channel and timeout, or the invoke request with InvokeBody of the routed tool, action and args. The bridge status goes to executing, then to the operation's final status, and the result is that operation's outcome. A cancelled task sends no response and leaves the dictionary. Otherwise exactly one toolResponse is sent and the call id is removed. |
| ToolCallRouter.Router.CancelToolCalls | samples/CameraAccess/CameraAccess/OpenClaw/ToolCallRouter.swift:82-91 | Exactly the listed ids are removed, and exactly their tasks are cancelled. The bridge status becomes cancelled(first id or "unknown"), even when nothing matched. No request is sent and no response is produced. |
| ToolCallRouter.Router.CancelAll | samples/CameraAccess/CameraAccess/OpenClaw/ToolCallRouter.swift:94-100 | Every in-flight task is cancelled, no other task is, and the dictionary ends empty. |
| OpenClawBridge.DelegateBody | samples/CameraAccess/CameraAccess/OpenClaw/OpenClawBridge.swift:35-46 | Exactly message, name "Glass Voice", sessionKey "glass:default", wakeMode "now", deliver and timeoutSeconds. A channel key is present iff a channel is given. |
| OpenClawBridge.InvokeBody | samples/CameraAccess/CameraAccess/OpenClaw/OpenClawBridge.swift:94-99 | Exactly tool, action, args and sessionKey "glass:default". |
| OpenClawBridge.DelegateOutcome | samples/CameraAccess/CameraAccess/OpenClaw/OpenClawBridge.swift:23-72 | Success iff the URL is valid and the response code is 202. The text is "Task delegated (runId: X)" or "Task delegated successfully". Invalid URL, other codes (0 when absent) and transport errors give the fixed failure texts. The status is completed or failed("delegate_task", …), never executing. |
| OpenClawBridge.InvokeOutcome | samples/CameraAccess/CameraAccess/OpenClaw/OpenClawBridge.swift:82-132 | Success only with a valid URL and a 2xx code. Codes outside 200…299 give "Tool invoke failed: HTTP code". A string "error" in the JSON object gives failure(error). A non-object body gives its text or "OK". Transport errors give "Tool invoke failed: …". The status is completed(tool) or failed(tool, …) accordingly. |
| OpenClawBridge.InvokeFailureMeansScalarResult | samples/CameraAccess/CameraAccess/OpenClaw/OpenClawBridge.swift:113-132 | If serialization refuses only values that are neither object nor array, a failed invoke on a 2xx object response without a string "error" means its "result" is present and is a scalar. That is the input on which the source traps rather than failing. |
| OpenClawBridge.InvokeOutcomeSerializesResult | samples/CameraAccess/CameraAccess/OpenClaw/OpenClawBridge.swift:113-123 | A 2xx object response without a string error yields the serialized "result", or the whole object when "result" is absent. |
| OpenClawBridge.Bridge.SetStatus | samples/CameraAccess/CameraAccess/OpenClaw/OpenClawBridge.swift:5 | The shown status is replaced and recorded. |
| OpenClawBridge.Bridge.DelegateTask | samples/CameraAccess/CameraAccess/OpenClaw/OpenClawBridge.swift:17-73 | The status goes to executing("delegate_task") first, then to the final status of DelegateOutcome. The request with the hook URL, token and DelegateBody is sent iff the URL is valid. |
| OpenClawBridge.Bridge.InvokeTool | samples/CameraAccess/CameraAccess/OpenClaw/OpenClawBridge.swift:77-133 | The status goes to executing(tool) first, then to the final status of InvokeOutcome. The request with the invoke URL, token and InvokeBody is sent iff the URL is valid. |
| FastVLMService.Label | samples/CameraAccess/CameraAccess/FastVLM/FastVLMService.swift:23-28 | Every evaluation state has a non-empty raw value. |
| FastVLMService.LabelInjective | samples/CameraAccess/CameraAccess/FastVLM/FastVLMService.swift:23-28 | Distinct states have distinct raw values. |
| FastVLMService.OnTokens | samples/CameraAccess/CameraAccess/FastVLM/FastVLMService.swift:140-165 | Stop iff cancelled or at least 240 tokens. Refresh the output iff not cancelled and the count is a multiple of 4. Report the first token iff not cancelled and not yet seen. |
| FastVLMService.TokensProducedBound | samples/CameraAccess/CameraAccess/FastVLM/FastVLMService.swift:161-164 | An uncancelled generation yields min(available, 240) tokens. |
| FastVLMService.TokensProduced | samples/CameraAccess/CameraAccess/FastVLM/FastVLMService.swift:138-165 | A generation stops somewhere between the tokens already produced and the tokens the model has. TokensProducedBound pins the count to min(available, 240). |
| FastVLMService.AcceptedFrames | samples/CameraAccess/CameraAccess/FastVLM/FastVLMService.swift:193-195 | The throttle never accepts more frames than it is offered. |
| FastVLMService.ThrottleAllows | samples/CameraAccess/CameraAccess/FastVLM/FastVLMService.swift:190-195 | The first frame always passes. After that, a frame passes iff it comes at least 1000 ms after the last accepted one. |
| FastVLMService.AcceptedFramesAbove | samples/CameraAccess/CameraAccess/FastVLM/FastVLMService.swift:193-195 | Every frame accepted after a frame at time t is at t + 1000 ms or later. |
| FastVLMService.AcceptedFramesSpaced | samples/CameraAccess/CameraAccess/FastVLM/FastVLMService.swift:190-200 | Consecutive accepted frames are at least one second apart. |
| FastVLMService.Service.LoadContainer | samples/CameraAccess/CameraAccess/FastVLM/FastVLMService.swift:61-87 | Once loaded, the cached container is returned and nothing changes. From idle the loader is asked once. Success stores the container with state idle and "Model loaded". Failure returns the error, still unloaded, in state loading. |
| FastVLMService.Service.ReportLoadProgress | samples/CameraAccess/CameraAccess/FastVLM/FastVLMService.swift:73-76 | modelInfo shows the loading percentage. |
| FastVLMService.Service.Load | samples/CameraAccess/CameraAccess/FastVLM/FastVLMService.swift:89-97 | A cached load changes nothing. Otherwise the state ends idle. A failure leaves the model unloaded and shows "Error loading model: …". |
| FastVLMService.Service.Analyze | samples/CameraAccess/CameraAccess/FastVLM/FastVLMService.swift:102-187 | A task starts iff the image converts and no analysis is running. It then sets isRunning, cancels the previous task and installs the new one, and nothing else changes. |
| FastVLMService.Service.RunAnalysis | samples/CameraAccess/CameraAccess/FastVLM/FastVLMService.swift:61-184 | Each task body runs once: it needs an unfinished task and marks it finished. The task loads through the cache. From unloaded it asks the loader once, and success stores the container and shows "Model loaded". Once loaded, loadState and modelInfo stay. A task cancelled once the model is ready returns without clean-up. Otherwise isRunning is cleared and generatingResponse becomes idle. output takes the result or "Failed: …" unless cancelled. |
| FastVLMService.Service.OnProcessingPrompt | samples/CameraAccess/CameraAccess/FastVLM/FastVLMService.swift:129-131 | The state becomes processingPrompt. |
| FastVLMService.Service.OnFirstToken | samples/CameraAccess/CameraAccess/FastVLM/FastVLMService.swift:143-152 | The state becomes generatingResponse, and the first text and the time to first token in ms are shown. |
| FastVLMService.Service.OnDisplayRefresh | samples/CameraAccess/CameraAccess/FastVLM/FastVLMService.swift:154-159 | output becomes the text so far. |
| FastVLMService.Service.AnalyzeIfReady | samples/CameraAccess/CameraAccess/FastVLM/FastVLMService.swift:190-200 | An analysis is scheduled iff active and a second has passed since the last accepted frame. lastFrameTime moves to now only then. |
| FastVLMService.Service.Cancel | samples/CameraAccess/CameraAccess/FastVLM/FastVLMService.swift:216-223 | The current task is cancelled and cleared, isRunning false, output and ttft empty, state idle. Activation and the model are kept. |
| FastVLMService.Service.Stop | samples/CameraAccess/CameraAccess/FastVLM/FastVLMService.swift:211-214 | Inactive, plus everything Cancel does. |
| FastVLMService.Service.Start | samples/CameraAccess/CameraAccess/FastVLM/FastVLMService.swift:204-209 | Active, with output and ttft cleared, then the effects of Load. From unloaded the state ends idle: success stores the container and shows "Model loaded", failure stays unloaded and shows "Error loading model: …". A cached model changes neither loadState nor modelInfo. |
| FastVLMService.AnalysesLoadOnce | samples/CameraAccess/CameraAccess/FastVLM/FastVLMService.swift:61-117 | A worked example: two distinct analysis tasks in a row, the first loading successfully, ask the loader exactly once and leave the container cached. |
| GeminiConfig.BytesPerFrame | samples/CameraAccess/CameraAccess/Gemini/GeminiConfig.swift:9-10 | 16 bits per sample over 1 channel is 2 bytes per frame. |
| GeminiConfig.FrameCount | samples/CameraAccess/CameraAccess/Gemini/AudioManager.swift:97 | Playback uses the largest frame count whose byte size fits in the buffer. |
| GeminiConfig.WebsocketURLFor | samples/CameraAccess/CameraAccess/Gemini/GeminiConfig.swift:33-36 | None for an empty key. Otherwise present iff the candidate base + "?key=" + key parses. The result starts with the base URL and yields the key back. |
| GeminiConfig.WebsocketURL | samples/CameraAccess/CameraAccess/Gemini/GeminiConfig.swift:26-36 | With the configured key, present iff the candidate parses, and then exactly base + "?key=" + key. |
| GeminiConfig.KeyOfCandidate | samples/CameraAccess/CameraAccess/Gemini/GeminiConfig.swift:35 | The key can be read back from the candidate string, which starts with the base URL. |
| GeminiConfig.WebsocketURLInjective | samples/CameraAccess/CameraAccess/Gemini/GeminiConfig.swift:33-36 | Different keys never give the same URL. |

## Left out

- Concurrency: `Task { @MainActor … }` hops, `[weak self]` captures and actor isolation are not modelled. Every callback is one serialized method call. Each async bridge call is one step. Interleavings inside an analysis or a tool task are not modelled either.
- The delegate adapter's weak references: the model does not say whether an ICE event or a candidate still reaches the session after the adapter is released. `HandleConnectionStateChange` and `HandleGeneratedCandidate` are modelled as always delivered.
- `SignalingClient` and `WebRTCConfig` are not part of this model. Whether the address is configured and whether it parses are inputs.
- Composition: the session records the requests it makes of the client and the signalling channel, but does not run `WebRTCClient.Client` itself.
- The WebRTC library: SSL, codec factories, the custom capturer and the ICE server contents are not modelled. SDP strings, candidates and frames are opaque values.
- The network and `JSONSerialization`: the HTTP exchange is an input, and byte-level JSON is the abstract `Json` datatype. Request headers other than the bearer token are not modelled. Serializing the invoke result is the `serialize` parameter.
- `Json.BoolField`: `as? Bool` is modelled as accepting only JSON booleans. Foundation's bridging of numbers 0 and 1 to `Bool` is not modelled.
- `OpenClawBridge.InvokeOutcome`: when a 2xx object response has a "result" that is a string, number, boolean or null, `JSONSerialization.data(withJSONObject:)` at OpenClawBridge.swift:119 raises an Objective-C exception. The `catch` at :128 does not catch it, so the app terminates. The model has no crash state. Its `Err` branch of `serialize` stands for this case and yields a failed status, so the model is weaker than the source here. `InvokeFailureMeansScalarResult` proves that, under Foundation's rule, this is the only way that branch is reached. The fallback text "OK" for a result that is not valid UTF-8 is not modelled either.
- `ToolCallRouter.Route`: the text of `String(describing: call.args)` is the `describeArgs` parameter.
- MLX: the model loader, tokenizer, GPU cache limit, random seeding and the prompt and image processing are not modelled. Their outcomes are inputs.
- `FastVLMService.Service.RunAnalysis`: the posted updates from inside generation are separate methods (`OnProcessingPrompt`, `OnFirstToken`, `OnDisplayRefresh`). The model does not fix when they run relative to the end of the task.
- Time: `Date` is a floating-point time interval, modelled as integer milliseconds.
- `AudioManager.swift`: only the frame-count division is modelled. The engine graph, the Float32/Int16 conversion (floating point) and the converter callback are not.
- The SwiftUI views are presentation only and are not modelled.
- Logging (`NSLog`, `print`) has no effect on state and is not modelled.
