# Mr. Robert Ducking, modelled in Dafny

Mr. Robert Ducking is a rubber-duck coding assistant. It has three parts:

- A VS Code extension. It talks to a local Python server over a WebSocket, retries messages that fail to send, and toggles voice recording.
- A Python server. It keeps chat sessions, turns each incoming frame into a prompt (with any attached files rendered as fenced code blocks), asks a local Ollama model, and answers with `error`, `ack` or `response` frames.
- A Python voice client and the installers. The client records audio, streams it to a transcription server and relays transcriptions to the extension over a small command server. The installers build a virtual environment, install the pip requirements, download and install Ollama with retries and progress bars, and check that the model is present.

This project models each of those core files as one Dafny module:

- Classes whose fields the source updates in place become Dafny `class`es with `modifies` clauses. Examples are `SessionManager`, `MessageHandler`, `WebSocketAPI`, `WebSocketManager`, the voice `Client`, `ProgressBar` and `OllamaManager`.
- Pure computations become functions with lemmas. Examples are prompt formatting, requirement filtering, error texts and the platform table.
- Loops become methods with invariants, proved against those functions.

The outside world is passed in as parameters:

- **Server side:** the language model, the JSON decoder and the stream of WebSocket receive events.
- **Installers:** pip and subprocess runs, HTTP responses (as chunk lengths) and the `ollama --version` probe.
- **Voice client:** the audio device table and freshly drawn uuids.

The modules are:

| module | file | source |
|---|---|---|
| `Wrappers` | wrappers.dfy | `Option`, `Result`, `Outcome` |
| `Text` | text.dfy | Python `strip`, `split`, `join` and friends |
| `ServerConfig` | server_config.dfy | server/modules/config/config.py |
| `Sessions` | session.dfy | server/modules/api/session.py |
| `MessageHandling` | message_handler.dfy | server/modules/api/message_handler.py |
| `WebSocketApi` | websocket_api.dfy | server/modules/api/main.py |
| `Llm` | llm.dfy | server/modules/llm/llm.py |
| `RecordingClient` | client.dfy | extension/python/client.py |
| `ExtensionSocket` | websocket_manager.dfy | extension/modules/websocket.js |
| `TranscribeCommand` | transcribe_command.dfy | extension/modules/commands/transcribeCommand.js |
| `Progress` | progress.dfy | server/modules/install/utils/progress.py |
| `InstallErrors` | install_errors.dfy | server/modules/install/exceptions.py |
| `InstallerConfig` | installer_config.dfy | server/modules/install/config.py |
| `Download` | download.dfy | server/modules/install/utils/download.py |
| `Requirements` | requirements.dfy | server/modules/install/core/requirements.py |
| `OllamaSetup` | ollama.dfy | server/modules/install/core/ollama.py |
| `InstallScript` | install_script.dfy | server/modules/install/install.py |
| `ServerInstall` | server_install.dfy | server/install.py |

## Model

| member | source | states |
|---|---|---|
| ServerConfig.LanguageForSpec | server/modules/config/config.py:23-30 | an extension gets a fence language exactly when it is in the table, and then it gets the table's value; every other extension gets an empty language |
| Sessions.NotFound | server/modules/api/session.py:46-47 | the "session not found" text is "Session ", then the id itself, then " not found." |
| Sessions.SessionManager.constructor | server/modules/api/session.py:17-19 | a new manager has no sessions |
| Sessions.SessionManager.CreateSession | server/modules/api/session.py:21-28 | the new id is the fresh uuid; exactly one empty session is added under it and no other session changes |
| Sessions.SessionManager.GetSession | server/modules/api/session.py:30-36 | a session is found if and only if its id is stored, and the stored session is the one returned |
| Sessions.SessionManager.SaveMessage | server/modules/api/session.py:38-48 | an unknown id fails with the not-found text and changes nothing; a known id gets the message appended at the end of its history, and other sessions stay the same |
| Sessions.SessionManager.CloseSession | server/modules/api/session.py:50-60 | closing removes exactly that id; it fails with the not-found text if and only if the id was unknown |
| Sessions.CloseIsFinal | server/modules/api/session.py:30-60 | after a close, the session cannot be found, saved to or closed again |
| MessageHandling.TypeTag | server/modules/api/message_handler.py:102-130 | the frame type is one of "error", "ack" or "response" |
| MessageHandling.TypeTagRoundTrip | server/modules/api/message_handler.py:102-130 | the "type" value of a sent frame identifies its kind: reading it back gives that kind, and exactly the three tags name a kind |
| MessageHandling.WireFields | server/modules/api/message_handler.py:102-130 | an outgoing frame carries exactly the keys type, message and session_id, holding the frame's own values |
| MessageHandling.ErrorFrame | server/modules/api/message_handler.py:102-115 | an error frame is typed "error" and carries the given message and session id |
| MessageHandling.AckFrame | server/modules/api/message_handler.py:117-130 | an acknowledgement is typed "ack" and carries the given message and session id |
| MessageHandling.ResponseFrame | server/modules/api/message_handler.py:92-96 | a model answer is typed "response" and carries the answer and the session id |
| MessageHandling.ExtensionSpec | server/modules/api/message_handler.py:69-69 | the extension is the text after the last dot; it holds no dot, and it is empty when the filename has no dot |
| MessageHandling.FormatPrompt | server/modules/api/message_handler.py:61-77 | the loop builds exactly the prompt specified by PromptOf: the message, then the header, then one block per well-formed file entry, in order |
| MessageHandling.FileBlocksAppend | server/modules/api/message_handler.py:66-77 | file blocks concatenate: the blocks of a+b are the blocks of a followed by those of b |
| MessageHandling.InvalidEntriesOnlyHeader | server/modules/api/message_handler.py:61-77 | a non-empty file list with no entry having both filename and content still adds the header, and nothing else |
| MessageHandling.NoValidNoBlocks | server/modules/api/message_handler.py:66-77 | entries without a filename or content produce no block |
| MessageHandling.ExtensionOfName | server/modules/api/message_handler.py:69-69 | for any stem, the extension of `stem.ext` is `ext` whenever `ext` holds no dot |
| MessageHandling.FenceOfName | server/modules/api/message_handler.py:69-77 | every file `stem.ext` renders as "File: name", a fence tagged with the table's language for `ext` (bare when `ext` is not in the table), its content and a closing fence |
| MessageHandling.BareFenceWithoutDot | server/modules/api/message_handler.py:69-77 | every file name without a dot renders with a bare fence |
| MessageHandling.PromptAppendsFiles | server/modules/api/message_handler.py:61-77 | the prompt for the file list a+b is the prompt for a followed by the blocks of b, so blocks follow the list's order |
| MessageHandling.ProcessReply | server/modules/api/message_handler.py:43-100 | every frame gets exactly one reply with the caller's session id; a frame without a message gets the "message required" error, and a frame for an unknown session gets the internal error |
| MessageHandling.MessageHandler.constructor | server/modules/api/message_handler.py:17-25 | a new handler holds the given session manager and no connections |
| MessageHandling.MessageHandler.RegisterConnection | server/modules/api/message_handler.py:27-33 | the connection is stored under the session id, replacing any earlier one |
| MessageHandling.MessageHandler.UnregisterConnection | server/modules/api/message_handler.py:35-41 | the session id is removed; an unknown id changes nothing |
| MessageHandling.MessageHandler.ProcessMessage | server/modules/api/message_handler.py:43-100 | the reply is ProcessReply's; a rejected frame changes no session and no connection; an accepted frame appends the formatted prompt to the session and registers the connection |
| WebSocketApi.RunStaysEnded | server/modules/api/main.py:91-123 | once the receive loop has ended, later events change nothing |
| WebSocketApi.EmptyFrameIgnored | server/modules/api/main.py:96-98 | an empty frame is skipped without a reply |
| WebSocketApi.MalformedFrameOneError | server/modules/api/main.py:100-107 | a frame that is not JSON gets one "invalid format" error, and the loop goes on |
| WebSocketApi.OtherFailureContinues | server/modules/api/main.py:112-123 | a receive failure ends the loop if and only if its text reports a missing close frame |
| WebSocketApi.HandleEvent | server/modules/api/main.py:91-123 | one loop step does what Step specifies, and the sessions and connections keep reflecting the frames handled so far |
| WebSocketApi.WebSocketAPI.Allocate | server/modules/api/main.py:24-32 | a freshly allocated instance is uninitialised and holds no core, handler or server |
| WebSocketApi.WebSocketAPI.Init | server/modules/api/main.py:34-58 | a second init changes nothing; a missing core is an error; otherwise the instance becomes ready with a fresh handler that has no connections, and no server yet |
| WebSocketApi.WebSocketAPI.InitializeServer | server/modules/api/main.py:60-72 | a server is started only when none exists |
| WebSocketApi.WebSocketAPI.Shutdown | server/modules/api/main.py:74-79 | an existing server is closed and kept; with no server nothing happens |
| WebSocketApi.WebSocketAPI.WebsocketHandler | server/modules/api/main.py:81-135 | the session id is the new uuid; the handler's replies are Run's; a connection that ends removes both its session and its connection; otherwise the session holds exactly the prompts of the handled frames |
| WebSocketApi.ApiClass.constructor | server/modules/api/main.py:22-22 | there is no instance before the first construction |
| WebSocketApi.ApiClass.Construct | server/modules/api/main.py:24-58 | the class keeps a single instance; a later construction returns the same instance and ignores its core |
| WebSocketApi.SecondConstructionIgnoresCore | server/modules/api/main.py:24-58 | two constructions give the same object, holding the first core |
| WebSocketApi.ShutdownIsFinal | server/modules/api/main.py:60-79 | after start and shutdown the server exists and is closed |
| Llm.AugmentedExtends | server/modules/llm/llm.py:20-23 | the file-augmented input starts with the user's input and grows by exactly the files' suffix length |
| Llm.AugmentedAppend | server/modules/llm/llm.py:20-23 | each further file appends its own " Datei: name, Code: content" text at the end |
| Llm.LLM.constructor | server/modules/llm/llm.py:8-14 | a new chat has an empty history |
| Llm.LLM.Chat | server/modules/llm/llm.py:16-35 | a file without name or content raises and leaves the history alone; otherwise the user turn is sent with the whole history; an answer is returned and both turns are kept; a model error keeps only the user turn |
| Llm.TwoTurns | server/modules/llm/llm.py:16-35 | two answered turns leave a four-message history, with the second question sent after the first answer |
| RecordingClient.StrippedTexts | extension/python/client.py:103-103 | one stripped text per segment, in order |
| RecordingClient.ReadyAnswersEverySession | extension/python/client.py:93-97 | the server-ready message is reported whatever the session |
| RecordingClient.ForeignSessionIgnored | extension/python/client.py:100-111 | a message for another session uid is dropped |
| RecordingClient.TranscribingMeansCurrentSession | extension/python/client.py:88-115 | a transcription update comes only from a segment list for the current session, and it is the stripped segment texts joined by spaces |
| RecordingClient.InputDevicesExactly | extension/python/client.py:414-424 | the device list holds exactly the devices with at least one input channel, with their names, in increasing id order |
| RecordingClient.FrameKinds | extension/python/client.py:275-340 | a frame aborts the handler or gets a fixed reply, or else it names one of the known commands |
| RecordingClient.CommandServer.constructor | extension/python/client.py:247-254 | a new command server has no clients and has broadcast nothing |
| RecordingClient.CommandServer.Dispatch | extension/python/client.py:275-340 | the reply and the recorder's new state are DispatchSpec's; a frame that raises out of the loop, a fixed reply and the device listing leave the recorder unchanged; pause, resume, device changes and refused starts and stops leave the transcription client and its command server unchanged; bad JSON and unknown commands get their fixed replies; each recorder command replies with its client method's status and message (StartReply, StopReply, PauseReply, ResumeReply, ChangeReply) and leaves the recorder in that method's new state (AfterStart, AfterStop, AfterPause, AfterResume, AfterChange); a started or stopped recording also sends the transcription frames, and a stop broadcasts the cleared text |
| RecordingClient.CommandServer.Handler | extension/python/client.py:275-340 | the replies and the recorder's final state are Serve's for the connection's frames: each frame is answered in order, on the state the earlier frames left, until one raises out of the loop; the client is removed from the set at the end, also after a raise |
| RecordingClient.Serve | extension/python/client.py:280-338 | at most one reply per frame, none for or after the first frame that raises, and the fixed reply for every frame that has one |
| RecordingClient.FixedFramesKeepState | extension/python/client.py:280-338 | a connection whose frames only get fixed replies or raise leaves the recorder's state as it was |
| RecordingClient.CommandServer.Broadcast | extension/python/client.py:264-273 | an update is delivered to the current clients, and to nobody when there are none |
| RecordingClient.TranscriptionClient.constructor | extension/python/client.py:19-33 | a new client is disconnected, not recording, and has no session or transcription |
| RecordingClient.TranscriptionClient.ProcessTranscription | extension/python/client.py:88-115 | the result is TranscriptionResult; only a transcription update changes the current text |
| RecordingClient.TranscriptionClient.OnServerMessage | extension/python/client.py:55-61 | a processed message is broadcast only while recording |
| RecordingClient.TranscriptionClient.StartNewSession | extension/python/client.py:171-209 | the session id is set and recording starts; when connected, END_OF_AUDIO and then a configure frame for the new uid are sent |
| RecordingClient.TranscriptionClient.EndSession | extension/python/client.py:211-239 | the session and recording end; when connected, END_OF_AUDIO is sent; a cleared update is broadcast |
| RecordingClient.TranscriptionClient.ClearTranscription | extension/python/client.py:72-86 | the current text is cleared and an empty transcription is broadcast |
| RecordingClient.Client.constructor | extension/python/client.py:353-397 | a new client is idle and uses the default input device |
| RecordingClient.Client.StartRecording | extension/python/client.py:462-477 | it succeeds if and only if it is not already recording and a device is chosen; the reply is StartReply and the new state AfterStart; success starts a new transcription session; failure changes nothing |
| RecordingClient.Client.StopRecording | extension/python/client.py:479-503 | it succeeds if and only if it was recording; the reply is StopReply and the new state AfterStop; success ends the transcription session, sends END_OF_AUDIO when connected and broadcasts the cleared text; a refusal changes neither the recorder, its transcription client nor the command server |
| RecordingClient.Client.PauseRecording | extension/python/client.py:505-512 | it succeeds if and only if it is recording and not paused, with one message per refusal; the reply is PauseReply and the new state AfterPause |
| RecordingClient.Client.ResumeRecording | extension/python/client.py:514-521 | it succeeds if and only if it is recording and paused, with one message per refusal; the reply is ResumeReply and the new state AfterResume |
| RecordingClient.Client.ChangeInputDevice | extension/python/client.py:426-460 | a lookup error stops recording; a device without inputs is refused; otherwise the device is switched and a running recording is restarted unpaused; the reply is ChangeReply and the new state AfterChange |
| RecordingClient.Client.ListInputDevices | extension/python/client.py:414-424 | the loop returns InputDevices over the whole device table |
| RecordingClient.PauseThenResume | extension/python/client.py:505-521 | pause followed by resume returns to recording, unpaused, on the same device |
| RecordingClient.PauseResumeRoundTrip | extension/python/client.py:505-521 | for every recorder state, pausing then resuming a running recording succeeds twice and restores the state; on a stopped recorder both are refused with "not in progress" and change nothing |
| RecordingClient.StopAfterStart | extension/python/client.py:462-503 | a second stop is refused and changes nothing; a start followed by a stop leaves the recorder stopped, unpaused and threadless on the same device; a second start is refused |
| RecordingClient.ChangeKeepsRecording | extension/python/client.py:426-460 | only a failed lookup stops a recording; a successful change selects the new device and leaves a running recording unpaused; a refused change keeps the device |
| ExtensionSocket.PendingOf | extension/modules/websocket.js:114-120 | the pending copy is a text message with the same text, and it carries a file exactly when the message had context |
| ExtensionSocket.Payload | extension/modules/websocket.js:77-88 | a sendFailed notification carries the pending message; any other notification carries its status command |
| ExtensionSocket.WebSocketManager.constructor | extension/modules/websocket.js:15-34 | a new manager has no socket, no pending message, no provider and no timers |
| ExtensionSocket.WebSocketManager.SetProvider | extension/modules/websocket.js:40-42 | only the provider changes |
| ExtensionSocket.WebSocketManager.Connect | extension/modules/websocket.js:47-58 | a new socket is opened unless one is already connecting or open |
| ExtensionSocket.WebSocketManager.Reconnect | extension/modules/websocket.js:63-69 | a reconnect timer is scheduled and nothing else changes |
| ExtensionSocket.WebSocketManager.NotifyWebview | extension/modules/websocket.js:77-88 | one payload is posted when a view exists, and none otherwise |
| ExtensionSocket.WebSocketManager.ResendMessage | extension/modules/websocket.js:93-106 | under the limit, the counter grows and a resend timer is set; at the limit, the counter resets and sendFailed is posted |
| ExtensionSocket.WebSocketManager.SendMessage | extension/modules/websocket.js:112-143 | a first attempt records the pending message; an open socket that does not throw transmits the stored pending message (not the argument), posts sendSuccess and resets the counter; anything else transmits nothing and goes to the resend path; a missing socket or message is an error |
| ExtensionSocket.WebSocketManager.HandleConnection | extension/modules/websocket.js:148-152 | the socket is open, connecting ends and wsStatus true is posted |
| ExtensionSocket.WebSocketManager.HandleDisconnection | extension/modules/websocket.js:157-162 | the socket is closed, wsStatus false is posted and a reconnect is scheduled |
| ExtensionSocket.WebSocketManager.FireReconnect | extension/modules/websocket.js:63-69 | the timer is consumed and it connects unless the socket is open |
| ExtensionSocket.WebSocketManager.FireResend | extension/modules/websocket.js:93-106 | the timer is consumed and the pending message is sent again, with SendMessage's outcomes, including what is transmitted |
| ExtensionSocket.ThreeTriesThenFailed | extension/modules/websocket.js:93-143 | on a closed socket, a message is tried three times (once plus two resends) and then reported as sendFailed, with the counter reset and nothing transmitted |
| ExtensionSocket.NewMessageDuringResend | extension/modules/websocket.js:112-135 | a message sent while a resend is pending does not replace the pending one; on an open socket the earlier pending message is transmitted and the counter resets |
| TranscribeCommand.Recorder.constructor | extension/modules/commands/transcribeCommand.js:2-2 | recording starts off |
| TranscribeCommand.Recorder.RecordingStatus | extension/modules/commands/transcribeCommand.js:35-35 | the status is the recording flag |
| TranscribeCommand.Recorder.StartRecording | extension/modules/commands/transcribeCommand.js:4-17 | it sends start_recording, sets the flag and notifies a present view; if the send throws, nothing changes |
| TranscribeCommand.Recorder.StopRecording | extension/modules/commands/transcribeCommand.js:19-33 | it sends stop_recording, clears the flag and notifies a present view; if the send throws, nothing changes |
| TranscribeCommand.Recorder.Toggle | extension/extension.js:93-97 | the command sends stop when recording and start otherwise, flipping the flag |
| TranscribeCommand.ToggleTwice | extension/extension.js:93-97 | toggling twice restores the flag after sending both commands |
| Progress.BarShape | server/modules/install/utils/progress.py:24-25 | the bar is as wide as configured: filled blocks, then dashes |
| Progress.DisplayBounds | server/modules/install/utils/progress.py:23-29 | the percentage stays within 0..100 and the filled part within the width; a complete count shows 100% and a full bar and ends the line |
| Progress.ProgressBar.constructor | server/modules/install/utils/progress.py:9-14 | a new bar is at 0 and has shown nothing |
| Progress.ProgressBar.Update | server/modules/install/utils/progress.py:16-29 | the position is the given value or one more, capped at the total; a zero total raises division by zero; otherwise one line is shown |
| Progress.ProgressBar.ExitTask | server/modules/install/utils/progress.py:31-40 | leaving a task fills the bar unless it is already full |
| Progress.TaskFillsBar | server/modules/install/utils/progress.py:31-40 | a task over a non-empty total ends on a complete 100% line of full width |
| Progress.SpinnerProgress.constructor | server/modules/install/utils/progress.py:45-48 | a new spinner is at frame 0 with no message |
| Progress.SpinnerProgress.Spin | server/modules/install/utils/progress.py:50-54 | each spin shows the next frame, cycling through the ten frames |
| Progress.SpinnerProgress.Task | server/modules/install/utils/progress.py:57-66 | a task keeps its description, passes the block's outcome through and ends with a tick or a cross |
| Progress.SpinnerCycle | server/modules/install/utils/progress.py:46-52 | for any two step counts, the spinner shows the same frame exactly when the counts agree modulo ten |
| InstallErrors.NewInstallError | server/modules/install/exceptions.py:7-10 | a base error keeps its message and details |
| InstallErrors.VenvError | server/modules/install/exceptions.py:14-18 | a venv error has the venv kind and shows no details |
| InstallErrors.RequirementsError | server/modules/install/exceptions.py:22-23 | a requirements error has the requirements kind |
| InstallErrors.OllamaError | server/modules/install/exceptions.py:27-31 | an Ollama error has the Ollama kind |
| InstallErrors.ModelError | server/modules/install/exceptions.py:35-36 | a model error has the model kind |
| InstallErrors.DownloadError | server/modules/install/exceptions.py:40-42 | a download error remembers its url |
| InstallErrors.PlatformError | server/modules/install/exceptions.py:46-47 | a platform error has the platform kind |
| InstallErrors.DetailsShownWhenNonEmpty | server/modules/install/exceptions.py:7-10 | the text is the message alone if and only if there are no details or they are empty; otherwise the details follow the separator |
| InstallErrors.SubclassTextIsMessage | server/modules/install/exceptions.py:14-47 | a subclass error's text is its formatted message |
| InstallErrors.OllamaErrorPlatform | server/modules/install/exceptions.py:27-31 | an Ollama error reads "Ollama error: " plus the message, and " on platform " plus the platform when one is given |
| InstallerConfig.SupportedPlatforms | server/modules/install/config.py:49-53 | the configuration lookup succeeds exactly for win32, darwin and linux, and fails with a platform error otherwise |
| InstallerConfig.PlatformEntries | server/modules/install/config.py:17-35 | each platform's executable, python path and installer match the table |
| Download.SumAppend | server/modules/install/utils/download.py:31-35 | the byte count grows by each chunk |
| Download.ReceiveChunks | server/modules/install/utils/download.py:22-37 | all chunk bytes are written; the bar follows the count; a zero content-length with data raises division by zero |
| Download.FirstSuccess | server/modules/install/utils/download.py:16-45 | the attempt index is the first one that succeeds, or the limit when none does |
| Download.Download | server/modules/install/utils/download.py:13-45 | it makes at most three attempts with a pause between them; it succeeds exactly when one attempt does; otherwise it reports the last attempt's error for that url |
| Download.FirstSuccessIs | server/modules/install/utils/download.py:16-45 | the first successful attempt is found exactly |
| Download.FirstSuccessNone | server/modules/install/utils/download.py:16-45 | when all attempts fail, the index is the limit |
| Download.MissingLengthAlwaysFails | server/modules/install/utils/download.py:22-35 | a server that never sends a content-length makes every attempt fail with division by zero |
| Requirements.FilterRequirementsExactly | server/modules/install/core/requirements.py:20-24 | the kept requirements are exactly the stripped lines that are neither empty nor comments, and each is non-empty and already stripped; both script installers use the same filter |
| Requirements.IndentedCommentKept | server/modules/install/core/requirements.py:21-23 | a comment is recognised only at the start of the raw line, so an indented comment is kept |
| Requirements.ModuleNameSpec | server/modules/install/install.py:38-38 | the module name is the stripped text before the first "==", ">=" or "<=", and it holds none of them |
| Requirements.PrefixKeepsAbsence | server/modules/install/install.py:38-38 | a prefix of a text has no separator the text lacks |
| Requirements.RequirementsBesideVenv | server/modules/install/core/requirements.py:17-17 | requirements.txt sits next to the venv directory |
| Requirements.ParseRequirements | server/modules/install/core/requirements.py:15-26 | a missing file is a requirements error; otherwise the result is the filtered lines |
| Requirements.FirstFailure | server/modules/install/core/requirements.py:47-58 | the index is that of the first failing package, or the count when none fails |
| Requirements.RequirementsManager.constructor | server/modules/install/core/requirements.py:12-13 | the manager keeps the python path |
| Requirements.RequirementsManager.InstallPackage | server/modules/install/core/requirements.py:28-45 | a package succeeds exactly when pip does; a failure reports pip's stderr for that package |
| Requirements.RequirementsManager.InstallAll | server/modules/install/core/requirements.py:47-58 | packages install in order up to and including the first failure, whose error is reported; full success fills the bar |
| Requirements.FirstFailureIs | server/modules/install/core/requirements.py:47-58 | the first failing package is found exactly |
| OllamaSetup.VerifyInstallationCases | server/modules/install/core/ollama.py:22-38 | Ollama counts as installed if and only if the version probe exits 0, and then the message is "Ollama " plus the stripped output; each failure has its own message |
| OllamaSetup.InstallFailuresWrapped | server/modules/install/core/ollama.py:115-137 | every failed installation is an Ollama error whose text starts with "Ollama error: Installation failed" |
| OllamaSetup.VerificationFailureWrappedTwice | server/modules/install/core/ollama.py:132-137 | a failed second check is nested inside the outer "Installation failed" error |
| OllamaSetup.CommandsStepSticks | server/modules/install/core/ollama.py:80-94 | once a command fails, running more commands does not change the outcome |
| OllamaSetup.OllamaManager.constructor | server/modules/install/core/ollama.py:17-20 | the manager keeps its platform and configuration and a fresh spinner |
| OllamaSetup.OllamaManager.InstallWindows | server/modules/install/core/ollama.py:40-65 | the outcome is the download then the installer run, and the temporary installer is removed |
| OllamaSetup.OllamaManager.InstallMac | server/modules/install/core/ollama.py:67-100 | the outcome is the download then the three commands, stopping at the first failure, and the archive is removed |
| OllamaSetup.OllamaManager.InstallLinux | server/modules/install/core/ollama.py:102-113 | the install script succeeds exactly when it exits 0, and otherwise reports its stderr |
| OllamaSetup.OllamaManager.Install | server/modules/install/core/ollama.py:115-137 | an installed Ollama is left alone; otherwise the platform installer runs and the result is checked again; the outcome is InstallResult; Windows and macOS leave no temporary file, and Linux and unsupported platforms leave the temporary-file flag as it was |
| OllamaSetup.NewOllamaManager | server/modules/install/core/ollama.py:17-20 | construction fails with a platform error exactly for platforms outside the table |
| OllamaSetup.ConstructedManagerIsSupported | server/modules/install/core/ollama.py:121-129 | a constructed manager always reaches one of the three platform branches, never "Unsupported platform" |
| InstallScript.VenvPython | server/modules/install/install.py:16-20 | the interpreter path is three parts under .venv |
| InstallScript.VenvPythonMatchesTable | server/modules/install/install.py:16-20 | the script's interpreter path agrees with the installer configuration table |
| InstallScript.FirstRaised | server/modules/install/install.py:36-65 | the index is that of the first requirement whose pip run raises |
| InstallScript.CountedOrReported | server/modules/install/install.py:47-61 | when nothing raises, each requirement is either counted or reported as failed, and the count is full if and only if all succeed |
| InstallScript.InstallRequirements | server/modules/install/install.py:22-68 | a missing file gives False; otherwise every requirement is checked in order, successes are counted and failures reported without stopping; a raising run gives False at once |
| InstallScript.InstallEach | server/modules/install/install.py:35-68 | the loop's count, failure list and checked prefix are those of the specification |
| InstallScript.FailuresStillSucceed | server/modules/install/install.py:47-61 | a failed package makes the count incomplete but does not stop the loop |
| InstallScript.ThrottleSpacing | server/modules/install/install.py:90-95 | printed percentages grow by at least five at a time, and the printed lines so far are kept |
| InstallScript.UnknownSizeNoProgress | server/modules/install/install.py:91-95 | without a content-length no progress is printed |
| InstallScript.DownloadWithProgress | server/modules/install/install.py:70-102 | a failed request gives False; otherwise the whole body is written and the throttled lines are printed |
| InstallScript.IsOllamaInstalledAgrees | server/modules/install/install.py:104-123 | the script's check agrees with the installer's version check, with its own failure messages |
| InstallScript.Untagged | server/modules/install/install.py:268-268 | each model name is cut at its first colon |
| InstallScript.ModelCheckFindsAnyTag | server/modules/install/install.py:268-286 | a listed model with any tag counts as present; a missing model is pulled and the result is the pull's |
| InstallScript.AsWrittenModelCheckAlwaysFails | server/modules/install/install.py:257-260 | as written, the model check always returns False without pulling |
| InstallScript.InstallOllama | server/modules/install/install.py:125-252 | the result is InstallOllamaResult for the model check's result, which the method takes as a parameter (InstallScript.InstallOllamaSucceedsOnlyWithModel composes it with the corrected CheckAndInstallModel, InstallScript.InstallOllamaAsWrittenFails with the check as written); only Windows and macOS download, once; the `finally` clause leaves no file at the installer path on those branches, and the other branches leave the path as it was |
| InstallScript.InstallOllamaAsWrittenFails | server/modules/install/install.py:125-252 | composed with the model check as written (every success path returns `check_and_install_model()`), `install_ollama` returns False on every platform for every input |
| InstallScript.InstallOllamaSucceedsOnlyWithModel | server/modules/install/install.py:125-252 | with the corrected check, True means Ollama answered before or after the platform's steps and the model check succeeded; an Ollama that already answers gives exactly the model check's result; an unsupported platform gives False |
| ServerInstall.FirstUnsuccessful | server/install.py:36-67 | the index is that of the first requirement that does not succeed |
| ServerInstall.InstallRequirements | server/install.py:23-70 | a missing file gives False; otherwise requirements are checked in order up to and including the first that does not succeed |
| ServerInstall.InstallUntilFailure | server/install.py:36-70 | the loop stops at the first unsuccessful requirement, as specified |
| ServerInstall.InstallersAgreeOnFullSuccess | server/install.py:59-61 | when nothing raises, the server installer succeeds exactly when the script installer counts every requirement |
| ServerInstall.DownloadWithProgress | server/install.py:72-91 | a failed request gives False; otherwise exactly the body's bytes are written |
| ServerInstall.InstallOllama | server/install.py:121-198 | the result is InstallOllamaResult; an installed Ollama gives True with no download; only Windows downloads, once; the `finally` clause leaves no file at the installer path after a download, and otherwise the path is as it was |
| ServerInstall.InstallOllamaScriptsAgree | server/install.py:121-198 | off macOS, the top-level script's install and the install package's agree whenever the package's model check succeeds, and the package's fails whenever its model check fails |
| ServerInstall.NoMacBranch | server/install.py:196-198 | this installer has no macOS branch, so darwin is unsupported |

## Left out

- Transport is left out: WebSocket framing, asyncio scheduling, threads and timers. Receive events and fired timers are inputs to the model; in the editor extension, whether the socket's `send` throws is an input too.
- WebSocketApi.Step / WebSocketApi.WebSocketAPI.WebsocketHandler: every send of the server is taken to succeed. In the source, a send that raises inside `process_message` goes to `send_error`, whose own send is not guarded and raises out to the receive loop (server/modules/api/message_handler.py:98-115); so does a failing send of the "invalid format" error. A closed connection then ends the loop, and any other error is logged and the loop goes on (server/modules/api/main.py:112-123). The model always records the reply and never ends the loop on a send.
- MessageHandling.Frame: a decoded frame is a JSON object whose "message" is a string or absent and whose file entries have string or absent "filename" and "content". Frames outside that shape are not expressible: a JSON value that is not an object (for a string or a list, `"message" in data` is a substring or element test; for a number or null it raises), a non-string "message", and a non-string "filename" or "content".
- MessageHandling.ProcessReply: because of the Frame restriction, the replies for the frames above are not modelled. In the source, a number or null frame raises and gets the internal error; a string or list frame gets the "message required" error when the test fails and the internal error when the lookup that follows raises; a numeric or null filename raises and gets the internal error; a non-string content is formatted with `str`; a non-string message with files raises when the header is added (a list message is extended instead); a `null` message without files is saved as is and sent to the backend.
- MessageHandling.MessageHandler.ProcessMessage: for the same frames, the history updates are not modelled; in particular a `null` or other non-string message without files is saved to the session as it is.
- Audio capture, resampling and the recording thread's body are left out, because they are I/O. The model keeps only the recording, paused and thread flags.
- The markdown rendering in the webview is left out because it is display only.
- InstallScript.DownloadWithProgress: the progress percentage is computed as exact integer division of `downloaded * 100` by the total. The source computes `int((downloaded / total_size) * 100)` in floating point, and its rounding is not modelled.
- The Python REPL entry points, `__main__` sequencing and `main()` functions are left out. They only call the modelled steps in order.
- The server has no event bus and no history cap. Neither is modelled, because the code has neither.
- extension/modules/websocketWhisperLive.js is not part of this model.
- File contents and HTTP bodies are left out; only chunk lengths are modelled.
- RecordingClient.Client.StopRecording: the except branch that logs a failure while joining the thread is not modelled, because joining is I/O.
- RecordingClient.Client.ChangeInputDevice takes an int device id. A non-int id in the JSON command is folded into a lookup failure.
- Send failures that the source only logs are left out. Examples are broadcast to a closed client and the transcription client's send errors.
- ServerInstall.InstallOllama: on Linux, a `Popen` that raises is not modelled. The model treats the script's exit code as the only outcome.
- tqdm and terminal output formatting are left out, except for the percentages that are printed.
- Write errors while saving a download are left out, because disk I/O is outside the model.
- InstallScript.DownloadWithProgress: a content-length that does not parse as an int is folded into a failed request.
- InstallScript.DownloadWithProgress: a read error or timeout in the middle of the body is not modelled. In the source it returns False after some chunks were written and some percentages printed; the model's response either fails before any chunk or delivers the whole body.
- ServerInstall.DownloadWithProgress: the same mid-stream failure of `iter_content` is not modelled; in the source it returns False with part of the file written.
- Requirements.RequirementsManager.InstallPackage: an `OSError` from `subprocess.run`, such as a missing virtual-environment interpreter, is not modelled. The source catches only `CalledProcessError`, so that error leaves `install_all` unwrapped; the model's pip run always ends with an exit status.
- `time.sleep` pauses are left out. Download.Download counts them instead.
- Creating the virtual environment is a side effect and is left out. Only the interpreter path is modelled.
- server/modules/install/core/venv.py and server/modules/install/core/model.py are not part of this model.

## Findings

| source | as written | input that shows it | evidently intended | confidence | as-written member | corrected member |
|---|---|---|---|---|---|---|
| server/modules/install/install.py:257-260 | the model check imports the installer's own `core.ollama` module and calls `Client` from it; that module has no `Client`, so the call raises, the handler catches it and the check returns False; since every success path of `install_ollama` returns that check's result, `install_ollama` never returns True either (InstallScript.InstallOllamaAsWrittenFails) | any model list, for example one that already holds `codellama:latest` | list the models of the `ollama` package, treat any tag of the model as present, and pull it otherwise | not executed | InstallScript.AsWrittenModelCheckAlwaysFails | InstallScript.ModelCheckFindsAnyTag |
