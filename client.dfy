/** The Python side of the editor extension: the recording controller
    (`Client`), the transcription-message filter and session bookkeeping
    (`TranscriptionClient`), and the command server the editor talks to
    (`CommandServer`). Audio capture, threads and the sockets themselves are
    outside the model; the audio device table is a parameter. */
module RecordingClient {
  import opened Wrappers
  import opened Text

  /** What the audio library reports for one device index. */
  datatype DeviceLookup =
    | Found(maxInputChannels: int, name: string)
    | LookupFailed(error: string)   // the lookup raised, by its message

  /** The audio device table: how many indices there are and what each holds. */
  datatype Devices = Devices(count: nat, lookup: int -> DeviceLookup)

  /** One entry of `list_input_devices`: `{'id': i, 'name': name}`. */
  datatype DeviceEntry = DeviceEntry(id: int, name: string)

  /** A transcription update pushed to the editor. */
  datatype Update =
    | Ready(sessionId: Option<string>)                    // {status: ready, sessionId}
    | Transcribing(sessionId: Option<string>, text: string) // {status: transcribing, sessionId, text}
    | Cleared                                             // {status: transcribing, text: ""}, no sessionId

  /** What `json.loads` made of a message from the transcription server. */
  datatype ServerMessage =
    | NotJson
    | NotAnObject                      // a list, string or number: every branch raises or misses
    | Object(message: Option<JsonText>, segments: Option<SegmentsValue>, uid: Option<UidValue>)

  /** A JSON value where only "is it this string" matters. */
  datatype JsonText = Text(s: string) | OtherValue

  /** The "segments" value. An empty string or object iterates like the
      empty list and is written `SegmentList([])`; any other non-list makes
      the join raise. */
  datatype SegmentsValue = SegmentList(items: seq<Segment>) | NotIterable

  /** One segment: its "text" when that is a string, `None` when it is
      missing or not a string (either makes the join raise). */
  datatype Segment = Segment(text: Option<string>)

  /** The "uid" value. */
  datatype UidValue = UidNull | UidText(s: string) | UidOther

  /** Python's `data["uid"] == self.current_session_id`. */
  predicate UidMatches(uid: UidValue, current: Option<string>) {
    match uid
    case UidNull => current.None?
    case UidText(s) => current == Some(s)
    case UidOther => false
  }

  predicate AllTexts(items: seq<Segment>) {
    forall k :: 0 <= k < |items| ==> items[k].text.Some?
  }

  /** The stripped texts of the segments, in order. */
  function StrippedTexts(items: seq<Segment>): (r: seq<string>)
    requires AllTexts(items)
    ensures |r| == |items|
    ensures forall k :: 0 <= k < |items| ==> r[k] == Strip(items[k].text.value)
  {
    if items == [] then [] else [Strip(items[0].text.value)] + StrippedTexts(items[1..])
  }

  const ServerReady: string := "SERVER_READY"

  /** `process_transcription` as a function of the parsed message and the
      current session id; any exception yields `None`. */
  function TranscriptionResult(msg: ServerMessage, current: Option<string>): Option<Update> {
    match msg
    case NotJson => None
    case NotAnObject => None
    case Object(message, segments, uid) =>
      if message == Some(Text(ServerReady)) then Some(Ready(current))
      else if segments.None? then None
      else if uid.None? then None
      else if !UidMatches(uid.value, current) then None
      else if segments.value.NotIterable? || !AllTexts(segments.value.items) then None
      else Some(Transcribing(current, JoinWithSpace(StrippedTexts(segments.value.items))))
  }

  /** A ready message is answered with the current session id, whatever else it holds. */
  lemma ReadyAnswersEverySession(msg: ServerMessage, current: Option<string>)
    requires msg.Object? && msg.message == Some(Text(ServerReady))
    ensures TranscriptionResult(msg, current) == Some(Ready(current))
  {
  }

  /** Segments from a session other than the current one are dropped. */
  lemma ForeignSessionIgnored(msg: ServerMessage, current: Option<string>)
    requires msg.Object? && msg.message != Some(Text(ServerReady))
    requires msg.uid.Some? && !UidMatches(msg.uid.value, current)
    ensures TranscriptionResult(msg, current) == None
  {
  }

  /** A transcribing result only comes from a segments message of the current
      session whose every segment has a text; its text is the stripped
      segment texts joined by single spaces, so one segment gives exactly its
      stripped text. */
  lemma TranscribingMeansCurrentSession(msg: ServerMessage, current: Option<string>)
    requires TranscriptionResult(msg, current).Some? && TranscriptionResult(msg, current).value.Transcribing?
    ensures msg.Object? && msg.segments.Some? && msg.segments.value.SegmentList?
    ensures msg.uid.Some? && UidMatches(msg.uid.value, current)
    ensures var items := msg.segments.value.items;
      && AllTexts(items)
      && TranscriptionResult(msg, current).value == Transcribing(current, JoinWithSpace(StrippedTexts(items)))
      && (|items| == 1 ==> TranscriptionResult(msg, current).value.text == Strip(items[0].text.value))
  {
  }

  /** `list_input_devices` as a specification: the indices below `n` whose
      lookup succeeds with at least one input channel, in index order. */
  function InputDevices(devices: Devices, n: nat): seq<DeviceEntry> {
    if n == 0 then []
    else
      var rest := InputDevices(devices, n - 1);
      match devices.lookup(n - 1)
      case Found(channels, name) => if channels > 0 then rest + [DeviceEntry(n - 1, name)] else rest
      case LookupFailed(_) => rest
  }

  /** A device is listed exactly when its index is in range and it has an
      input channel; the listed ids are strictly increasing. */
  lemma {:induction false} InputDevicesExactly(devices: Devices, n: nat)
    ensures forall e :: e in InputDevices(devices, n) <==>
              && 0 <= e.id < n
              && devices.lookup(e.id).Found?
              && devices.lookup(e.id).maxInputChannels > 0
              && devices.lookup(e.id).name == e.name
    ensures forall j, k :: 0 <= j < k < |InputDevices(devices, n)| ==>
              InputDevices(devices, n)[j].id < InputDevices(devices, n)[k].id
  {
    if n > 0 {
      InputDevicesExactly(devices, n - 1);
    }
  }

  /** Replies of the command server: `{status: success, message}`,
      `{status: success, devices}` and `{status: error, message}`. */
  datatype Reply = Success(message: string) | DeviceList(devices: seq<DeviceEntry>) | Failure(message: string)

  function ReplyOf(ok: bool, message: string): Reply {
    if ok then Success(message) else Failure(message)
  }

  /** The "args" value of a command frame. */
  datatype Args = ArgsObject(deviceId: Option<int>) | ArgsNotObject

  /** What `json.loads` made of a command frame. */
  datatype CommandFrame =
    | BadJson
    | NonObjectFrame                                  // `data.get` raises: the handler ends
    | CommandObject(command: Option<string>, args: Args)

  const UnknownCommand: string := "Unknown command"
  const DeviceIdRequired: string := "device_id is required."
  const InvalidJson: string := "Invalid JSON format"

  const CommandNames: set<string> :=
    {"list_input_devices", "change_input_device", "start_recording",
     "stop_recording", "pause_recording", "resume_recording"}

  /** The reply to a frame whose answer does not depend on any state, if it is one. */
  function FixedReply(f: CommandFrame): Option<Reply> {
    match f
    case BadJson => Some(Failure(InvalidJson))
    case NonObjectFrame => None
    case CommandObject(command, args) =>
      if command.None? || command.value !in CommandNames then Some(Failure(UnknownCommand))
      else if command.value == "change_input_device" && args.ArgsObject? && args.deviceId.None? then
        Some(Failure(DeviceIdRequired))
      else None
  }

  predicate IsCommand(f: CommandFrame, name: string) {
    f.CommandObject? && f.command == Some(name)
  }

  /** Whether handling the frame raises out of the handler's loop. */
  predicate Aborts(f: CommandFrame) {
    || f.NonObjectFrame?
    || (IsCommand(f, "change_input_device") && f.args.ArgsNotObject?)
  }

  /** A frame either aborts, gets a fixed reply, or goes to the recorder. */
  lemma FrameKinds(f: CommandFrame)
    ensures Aborts(f) ==> FixedReply(f).None?
    ensures FixedReply(f).None? && !Aborts(f) ==>
              f.CommandObject? && f.command.Some? && f.command.value in CommandNames
  {
  }

  class CommandServer {
    /** The recorder the commands drive. */
    const client: Client?
    /** The editor connections currently being served. */
    var clients: set<nat>
    /** Every broadcast made, with the connections it went to. */
    var broadcasts: seq<(set<nat>, Update)>

    constructor (client: Client?)
      ensures this.client == client && clients == {} && broadcasts == []
    {
      this.client := client;
      clients := {};
      broadcasts := [];
    }

    /** The objects a command may change: the recorder, its transcription
        client and that client's command server. */
    ghost function Drives(): set<object>
      reads this, client, if client != null then {client.transcription} - {null} else {}
    {
      if client == null then {}
      else if client.transcription == null then {client}
      else {client, client.transcription} + (if client.transcription.commandServer == null then {} else {client.transcription.commandServer})
    }

    /** The body of `handler`'s loop for one frame: the reply sent, or `None`
        when handling raised out of the loop. */
    method Dispatch(f: CommandFrame, devices: Devices, uuid: string) returns (reply: Option<Reply>)
      requires client != null
      modifies Drives()
      ensures clients == old(clients)
      ensures (reply, client.State()) == DispatchSpec(old(client.State()), f, devices)
      ensures reply.None? <==> Aborts(f)
      ensures Aborts(f) || FixedReply(f).Some? || IsCommand(f, "list_input_devices") ==> unchanged(client)
      ensures (Aborts(f) || FixedReply(f).Some? || IsCommand(f, "list_input_devices")
               || IsCommand(f, "pause_recording") || IsCommand(f, "resume_recording")
               || IsCommand(f, "change_input_device")
               || (IsCommand(f, "start_recording") && reply.value.Failure?)
               || (IsCommand(f, "stop_recording") && reply.value.Failure?))
              && client.transcription != null ==>
                unchanged(client.transcription)
                && (client.transcription.commandServer != null ==> unchanged(client.transcription.commandServer))
      ensures FixedReply(f).Some? ==> reply == FixedReply(f)
      ensures IsCommand(f, "list_input_devices") ==>
                reply == Some(DeviceList(InputDevices(devices, devices.count))) && unchanged(client)
      ensures IsCommand(f, "change_input_device") && f.args.ArgsObject? && f.args.deviceId.Some? ==>
                && reply == Some(ChangeReply(devices.lookup(f.args.deviceId.value)))
                && client.State() == AfterChange(old(client.State()), devices.lookup(f.args.deviceId.value), f.args.deviceId.value)
                && (reply.value.Success? <==>
                      devices.lookup(f.args.deviceId.value).Found? && devices.lookup(f.args.deviceId.value).maxInputChannels != 0)
      ensures IsCommand(f, "start_recording") ==>
                && reply == Some(StartReply(old(client.State()))) && client.State() == AfterStart(old(client.State()))
                && (reply.value.Success? <==> !old(client.recording) && old(client.currentDeviceId).Some?)
      ensures IsCommand(f, "start_recording") && reply.value.Success? && client.transcription != null ==>
                && client.transcription.currentSessionId == Some(uuid) && client.transcription.isRecording
                && client.transcription.sent == old(client.transcription.sent)
                     + (if old(client.transcription.connected) then [EndOfAudio, Configure(uuid)] else [])
      ensures IsCommand(f, "stop_recording") ==>
                && reply == Some(StopReply(old(client.State()))) && client.State() == AfterStop(old(client.State()))
                && (reply.value.Success? <==> old(client.recording))
      ensures IsCommand(f, "stop_recording") && reply.value.Success? && client.transcription != null ==>
                && client.transcription.currentSessionId == None && !client.transcription.isRecording
                && client.transcription.sent == old(client.transcription.sent)
                     + (if old(client.transcription.connected) then [EndOfAudio] else [])
      ensures IsCommand(f, "stop_recording") && reply.value.Success? && client.transcription != null
              && client.transcription.commandServer != null ==>
                client.transcription.commandServer.broadcasts == old(client.transcription.commandServer.broadcasts)
                  + (if old(client.transcription.commandServer.clients) == {} then []
                     else [(old(client.transcription.commandServer.clients), Cleared)])
      ensures IsCommand(f, "pause_recording") ==>
                && reply == Some(PauseReply(old(client.State()))) && client.State() == AfterPause(old(client.State()))
                && (reply.value.Success? <==> old(client.recording) && !old(client.paused))
      ensures IsCommand(f, "resume_recording") ==>
                && reply == Some(ResumeReply(old(client.State()))) && client.State() == AfterResume(old(client.State()))
                && (reply.value.Success? <==> old(client.recording) && old(client.paused))
    {
      match f {
        case BadJson =>
          return Some(Failure(InvalidJson));
        case NonObjectFrame =>
          return None;
        case CommandObject(command, args) =>
          if command == Some("list_input_devices") {
            var found := client.ListInputDevices(devices);
            return Some(DeviceList(found));
          } else if command == Some("change_input_device") {
            if args.ArgsNotObject? {
              return None;
            }
            if args.deviceId.None? {
              return Some(Failure(DeviceIdRequired));
            }
            var ok, message := client.ChangeInputDevice(args.deviceId.value, devices);
            return Some(ReplyOf(ok, message));
          } else if command == Some("start_recording") {
            var ok, message := client.StartRecording(uuid);
            return Some(ReplyOf(ok, message));
          } else if command == Some("stop_recording") {
            var ok, message := client.StopRecording();
            return Some(ReplyOf(ok, message));
          } else if command == Some("pause_recording") {
            var ok, message := client.PauseRecording();
            return Some(ReplyOf(ok, message));
          } else if command == Some("resume_recording") {
            var ok, message := client.ResumeRecording();
            return Some(ReplyOf(ok, message));
          } else {
            return Some(Failure(UnknownCommand));
          }
      }
    }

    /** `handler`: serves one editor connection. The connection is in
        `clients` while its frames are handled and is removed afterwards,
        also when a frame raises out of the loop. `uuids` supplies the fresh
        ids a `start_recording` would draw. */
    method Handler(ws: nat, frames: seq<CommandFrame>, devices: Devices, uuids: nat -> string)
      returns (replies: seq<Reply>, aborted: bool)
      requires client != null
      modifies this, Drives()
      ensures clients == old(clients) - {ws}
      ensures |replies| <= |frames|
      ensures forall k :: 0 <= k < |replies| ==> !Aborts(frames[k])
      ensures aborted <==> |replies| < |frames|
      ensures aborted ==> Aborts(frames[|replies|])
      ensures forall k :: 0 <= k < |replies| && FixedReply(frames[k]).Some? ==> replies[k] == FixedReply(frames[k]).value
      ensures (replies, client.State()) == Serve(old(client.State()), frames, devices)
    {
      clients := clients + {ws};
      replies := [];
      aborted := false;
      var i := 0;
      assert frames[0..] == frames;
      assert client.State() == old(client.State());
      ghost var whole := Serve(old(client.State()), frames, devices);
      assert replies + whole.0 == whole.0;
      while i < |frames|
        invariant 0 <= i <= |frames| && |replies| == i
        invariant clients == old(clients) + {ws}
        invariant Drives() == old(Drives())
        invariant Serve(old(client.State()), frames, devices)
                  == (replies + Serve(client.State(), frames[i..], devices).0, Serve(client.State(), frames[i..], devices).1)
      {
        ghost var before := client.State();
        ghost var rest := Serve(before, frames[i..], devices);
        var reply := Dispatch(frames[i], devices, uuids(i));
        assert frames[i..][0] == frames[i] && frames[i..][1..] == frames[i + 1..];
        if reply.None? {
          assert rest == ([], before) && client.State() == before;
          assert replies + rest.0 == replies;
          aborted := true;
          break;
        }
        ghost var later := Serve(client.State(), frames[i + 1..], devices);
        assert rest == ([reply.value] + later.0, later.1);
        assert replies + rest.0 == (replies + [reply.value]) + later.0;
        replies := replies + [reply.value];
        i := i + 1;
      }
      if !aborted {
        assert frames[i..] == [];
        assert replies + [] == replies;
      }
      assert (replies, client.State()) == Serve(old(client.State()), frames, devices);
      clients := clients - {ws};
    }

    /** `broadcast`: sends to every connected editor, and does nothing at all
        when none is connected. */
    method Broadcast(u: Update)
      modifies this
      ensures clients == old(clients)
      ensures old(clients) == {} ==> broadcasts == old(broadcasts)
      ensures old(clients) != {} ==> broadcasts == old(broadcasts) + [(old(clients), u)]
    {
      if clients != {} {
        broadcasts := broadcasts + [(clients, u)];
      }
    }
  }

  class TranscriptionClient {
    var connected: bool
    var currentSessionId: Option<string>
    var isRecording: bool
    var currentTranscription: Option<string>
    const commandServer: CommandServer?
    /** Frames sent to the transcription server, in order. */
    var sent: seq<Outgoing>

    constructor (commandServer: CommandServer?)
      ensures this.commandServer == commandServer
      ensures !connected && currentSessionId == None && !isRecording && currentTranscription == None
      ensures sent == []
    {
      this.commandServer := commandServer;
      connected := false;
      currentSessionId := None;
      isRecording := false;
      currentTranscription := None;
      sent := [];
    }

    /** `process_transcription`: the update for one server message; a
        transcribing update also becomes the current transcription. */
    method ProcessTranscription(msg: ServerMessage) returns (r: Option<Update>)
      modifies this
      ensures r == TranscriptionResult(msg, currentSessionId)
      ensures r.Some? && r.value.Transcribing? ==> currentTranscription == Some(r.value.text)
      ensures !(r.Some? && r.value.Transcribing?) ==> currentTranscription == old(currentTranscription)
      ensures connected == old(connected) && currentSessionId == old(currentSessionId)
      ensures isRecording == old(isRecording) && sent == old(sent)
    {
      r := TranscriptionResult(msg, currentSessionId);
      if r.Some? && r.value.Transcribing? {
        currentTranscription := Some(r.value.text);
      }
    }

    /** One received server message: it is forwarded to the editors only
        while recording and when there is a command server. */
    method OnServerMessage(msg: ServerMessage)
      modifies this, commandServer
      ensures var r := TranscriptionResult(msg, currentSessionId);
        commandServer != null ==>
          if r.Some? && isRecording then
            commandServer.broadcasts ==
              old(commandServer.broadcasts) + (if old(commandServer.clients) == {} then [] else [(old(commandServer.clients), r.value)])
          else commandServer.broadcasts == old(commandServer.broadcasts)
      ensures connected == old(connected) && currentSessionId == old(currentSessionId)
      ensures isRecording == old(isRecording) && sent == old(sent)
    {
      var processed := ProcessTranscription(msg);
      if processed.Some? && isRecording && commandServer != null {
        commandServer.Broadcast(processed.value);
      }
    }

    /** `start_new_session`: a fresh session id, recording on; when connected,
        the end-of-audio marker and then the new configuration are sent. */
    method StartNewSession(uuid: string)
      modifies this
      ensures currentSessionId == Some(uuid) && isRecording
      ensures sent == old(sent) + (if connected then [EndOfAudio, Configure(uuid)] else [])
      ensures connected == old(connected) && currentTranscription == old(currentTranscription)
    {
      currentSessionId := Some(uuid);
      isRecording := true;
      if connected {
        sent := sent + [EndOfAudio, Configure(uuid)];
      }
    }

    /** `end_session`: when connected the end-of-audio marker is sent; then
        recording is off, the session id cleared and the editors told to clear. */
    method EndSession()
      modifies this, commandServer
      ensures currentSessionId == None && !isRecording
      ensures sent == old(sent) + (if connected then [EndOfAudio] else [])
      ensures connected == old(connected) && currentTranscription == old(currentTranscription)
      ensures commandServer != null ==>
                && commandServer.clients == old(commandServer.clients)
                && commandServer.broadcasts ==
                     old(commandServer.broadcasts) + (if old(commandServer.clients) == {} then [] else [(old(commandServer.clients), Cleared)])
    {
      if connected {
        sent := sent + [EndOfAudio];
      }
      isRecording := false;
      currentSessionId := None;
      if commandServer != null {
        commandServer.Broadcast(Cleared);
      }
    }

    /** `clear_transcription`: forgets the current transcription and tells the
        editors to show an empty text for the current session. */
    method ClearTranscription()
      modifies this, commandServer
      ensures currentTranscription == None
      ensures connected == old(connected) && currentSessionId == old(currentSessionId)
      ensures isRecording == old(isRecording) && sent == old(sent)
      ensures commandServer != null ==>
                commandServer.broadcasts ==
                  old(commandServer.broadcasts)
                  + (if old(commandServer.clients) == {} then [] else [(old(commandServer.clients), Transcribing(currentSessionId, ""))])
    {
      currentTranscription := None;
      if commandServer != null {
        commandServer.Broadcast(Transcribing(currentSessionId, ""));
      }
    }
  }

  /** Frames the transcription client sends besides audio. */
  datatype Outgoing = EndOfAudio | Configure(uid: string)

  const AlreadyRecording: string := "Recording is already in progress."
  const NoDevice: string := "No valid input device selected."
  const RecordingStarted: string := "Recording started."
  const NotRecording: string := "Recording is not in progress."
  const RecordingStopped: string := "Recording stopped."
  const AlreadyPaused: string := "Recording is already paused."
  const RecordingPaused: string := "Recording paused."
  const NotPaused: string := "Recording is not paused."
  const RecordingResumed: string := "Recording resumed."
  const NoInputSupport: string := "Selected device does not support input."

  function ChangedDevice(name: string): string {
    "Changed input device to " + name + "."
  }

  /** The recorder's flags a command reads and changes. */
  datatype RecorderState = RecorderState(recording: bool, paused: bool, device: Option<int>, hasThread: bool)

  /** `start_recording`'s reply: refused while recording or without a device. */
  function StartReply(s: RecorderState): Reply {
    if s.recording then Failure(AlreadyRecording)
    else if s.device.None? then Failure(NoDevice)
    else Success(RecordingStarted)
  }

  /** The state after `start_recording`: a started recording runs unpaused on a thread. */
  function AfterStart(s: RecorderState): RecorderState {
    if StartReply(s).Success? then s.(recording := true, paused := false, hasThread := true) else s
  }

  function StopReply(s: RecorderState): Reply {
    if s.recording then Success(RecordingStopped) else Failure(NotRecording)
  }

  /** The state after `stop_recording`: not recording, with no thread once stopped. */
  function AfterStop(s: RecorderState): RecorderState {
    if s.recording then s.(recording := false, hasThread := false) else s
  }

  function PauseReply(s: RecorderState): Reply {
    if !s.recording then Failure(NotRecording)
    else if s.paused then Failure(AlreadyPaused)
    else Success(RecordingPaused)
  }

  function AfterPause(s: RecorderState): RecorderState {
    if s.recording then s.(paused := true) else s
  }

  function ResumeReply(s: RecorderState): Reply {
    if !s.recording then Failure(NotRecording)
    else if !s.paused then Failure(NotPaused)
    else Success(RecordingResumed)
  }

  function AfterResume(s: RecorderState): RecorderState {
    if s.recording then s.(paused := false) else s
  }

  /** `change_input_device`'s reply for what the device lookup gave. */
  function ChangeReply(lookup: DeviceLookup): Reply {
    match lookup
    case LookupFailed(e) => Failure(e)
    case Found(channels, name) => if channels == 0 then Failure(NoInputSupport) else Success(ChangedDevice(name))
  }

  /** The state after `change_input_device`: a failed lookup stops the
      recording, a device without input changes nothing, and otherwise the
      device is switched and a running recording restarts unpaused. */
  function AfterChange(s: RecorderState, lookup: DeviceLookup, deviceId: int): RecorderState {
    match lookup
    case LookupFailed(_) => s.(recording := false, hasThread := false)
    case Found(channels, _) =>
      if channels == 0 then s
      else if s.recording then s.(device := Some(deviceId), paused := false, hasThread := true)
      else s.(device := Some(deviceId))
  }

  /** Pausing then resuming a running recording gives back its state, and
      both steps succeed; on a stopped recorder both are refused and change
      nothing. */
  lemma PauseResumeRoundTrip(s: RecorderState)
    ensures s.recording && !s.paused ==>
              PauseReply(s).Success? && ResumeReply(AfterPause(s)).Success? && AfterResume(AfterPause(s)) == s
    ensures !s.recording ==>
              PauseReply(s) == ResumeReply(s) == Failure(NotRecording) && AfterPause(s) == AfterResume(s) == s
  {
  }

  /** A second stop is refused and changes nothing; a start followed by a
      stop leaves the recorder stopped, unpaused and threadless on the same
      device. */
  lemma StopAfterStart(s: RecorderState)
    ensures StopReply(AfterStop(s)) == Failure(NotRecording) && AfterStop(AfterStop(s)) == AfterStop(s)
    ensures StartReply(s).Success? ==>
              StopReply(AfterStart(s)).Success?
              && AfterStop(AfterStart(s)) == RecorderState(false, false, s.device, false)
    ensures StartReply(AfterStart(s)).Failure?
  {
  }

  /** Only a failed lookup stops a recording; a successful change leaves a
      running recording running on the new device, unpaused. */
  lemma ChangeKeepsRecording(s: RecorderState, lookup: DeviceLookup, deviceId: int)
    ensures AfterChange(s, lookup, deviceId).recording <==> s.recording && lookup.Found?
    ensures ChangeReply(lookup).Success? ==> AfterChange(s, lookup, deviceId).device == Some(deviceId)
    ensures ChangeReply(lookup).Success? && s.recording ==> !AfterChange(s, lookup, deviceId).paused
    ensures ChangeReply(lookup).Failure? ==> AfterChange(s, lookup, deviceId).device == s.device
  {
  }

  /** What the command server does with one frame, given the recorder's
      state: the reply (`None` when handling raises out of the loop) and the
      recorder's new state. */
  function DispatchSpec(s: RecorderState, f: CommandFrame, devices: Devices): (Option<Reply>, RecorderState) {
    if Aborts(f) then (None, s)
    else if FixedReply(f).Some? then (FixedReply(f), s)
    else if IsCommand(f, "list_input_devices") then (Some(DeviceList(InputDevices(devices, devices.count))), s)
    else if IsCommand(f, "change_input_device") then
      var lookup := devices.lookup(f.args.deviceId.value);
      (Some(ChangeReply(lookup)), AfterChange(s, lookup, f.args.deviceId.value))
    else if IsCommand(f, "start_recording") then (Some(StartReply(s)), AfterStart(s))
    else if IsCommand(f, "stop_recording") then (Some(StopReply(s)), AfterStop(s))
    else if IsCommand(f, "pause_recording") then (Some(PauseReply(s)), AfterPause(s))
    else (Some(ResumeReply(s)), AfterResume(s))
  }

  /** The replies to a connection's frames, in order, up to the first frame
      that raises out of the loop, and the recorder's state afterwards. */
  function Serve(s: RecorderState, frames: seq<CommandFrame>, devices: Devices): (r: (seq<Reply>, RecorderState))
    ensures |r.0| <= |frames|
    ensures forall k :: 0 <= k < |r.0| ==> !Aborts(frames[k])
    ensures |r.0| < |frames| ==> Aborts(frames[|r.0|])
    ensures forall k :: 0 <= k < |r.0| && FixedReply(frames[k]).Some? ==> r.0[k] == FixedReply(frames[k]).value
    decreases |frames|
  {
    if frames == [] then ([], s)
    else
      var (reply, t) := DispatchSpec(s, frames[0], devices);
      if reply.None? then ([], s)
      else
        var rest := Serve(t, frames[1..], devices);
        ([reply.value] + rest.0, rest.1)
  }

  /** Frames that only get fixed replies leave the recorder as it was, and a
      frame that raises ends the connection whatever follows it. */
  lemma {:induction false} FixedFramesKeepState(s: RecorderState, frames: seq<CommandFrame>, devices: Devices)
    requires forall k :: 0 <= k < |frames| ==> FixedReply(frames[k]).Some? || Aborts(frames[k])
    ensures Serve(s, frames, devices).1 == s
    decreases |frames|
  {
    if frames != [] {
      FixedFramesKeepState(s, frames[1..], devices);
    }
  }

  class Client {
    var recording: bool
    var paused: bool
    var currentDeviceId: Option<int>
    /** Whether `recording_thread` holds a thread. */
    var hasThread: bool
    const transcription: TranscriptionClient?

    function State(): RecorderState
      reads this
    {
      RecorderState(recording, paused, currentDeviceId, hasThread)
    }

    constructor (defaultDevice: Option<int>, transcription: TranscriptionClient?)
      ensures !recording && !paused && currentDeviceId == defaultDevice && !hasThread
      ensures this.transcription == transcription
    {
      recording := false;
      paused := false;
      currentDeviceId := defaultDevice;
      hasThread := false;
      this.transcription := transcription;
    }

    /** `start_recording`: refuses while recording or without a device;
        otherwise opens a transcription session and starts recording unpaused. */
    method StartRecording(uuid: string) returns (ok: bool, message: string)
      modifies this, transcription
      ensures old(recording) ==> !ok && message == AlreadyRecording
      ensures !old(recording) && old(currentDeviceId).None? ==> !ok && message == NoDevice
      ensures !ok ==> recording == old(recording) && paused == old(paused) && hasThread == old(hasThread)
                      && (transcription != null ==> unchanged(transcription))
      ensures ok <==> !old(recording) && old(currentDeviceId).Some?
      ensures ok ==> message == RecordingStarted && recording && !paused && hasThread
      ensures ok && transcription != null ==>
                transcription.currentSessionId == Some(uuid) && transcription.isRecording
                && transcription.sent == old(transcription.sent)
                     + (if old(transcription.connected) then [EndOfAudio, Configure(uuid)] else [])
      ensures currentDeviceId == old(currentDeviceId)
      ensures ReplyOf(ok, message) == StartReply(old(State())) && State() == AfterStart(old(State()))
    {
      if recording {
        return false, AlreadyRecording;
      }
      if currentDeviceId.None? {
        return false, NoDevice;
      }
      if transcription != null {
        transcription.StartNewSession(uuid);
      }
      recording := true;
      paused := false;
      hasThread := true;
      return true, RecordingStarted;
    }

    /** `stop_recording`: refuses when not recording; otherwise stops,
        drops the thread and ends the transcription session. */
    method StopRecording() returns (ok: bool, message: string)
      modifies this, transcription, if transcription != null then {transcription.commandServer} else {}
      ensures ok <==> old(recording)
      ensures !ok ==> message == NotRecording && unchanged(this)
                      && (transcription != null ==> unchanged(transcription))
      ensures ok ==> message == RecordingStopped && !recording && !hasThread && paused == old(paused)
      ensures ok && transcription != null ==>
                transcription.currentSessionId == None && !transcription.isRecording
                && transcription.sent == old(transcription.sent) + (if old(transcription.connected) then [EndOfAudio] else [])
                && transcription.connected == old(transcription.connected)
      ensures ok && transcription != null && transcription.commandServer != null ==>
                transcription.commandServer.broadcasts == old(transcription.commandServer.broadcasts)
                  + (if old(transcription.commandServer.clients) == {} then []
                     else [(old(transcription.commandServer.clients), Cleared)])
      ensures !ok && transcription != null && transcription.commandServer != null ==>
                unchanged(transcription.commandServer)
      ensures transcription != null && transcription.commandServer != null ==>
                transcription.commandServer.clients == old(transcription.commandServer.clients)
      ensures currentDeviceId == old(currentDeviceId)
      ensures ReplyOf(ok, message) == StopReply(old(State())) && State() == AfterStop(old(State()))
    {
      if !recording {
        return false, NotRecording;
      }
      recording := false;
      hasThread := false;
      if transcription != null {
        transcription.EndSession();
      }
      return true, RecordingStopped;
    }

    /** `pause_recording`: only a running, unpaused recording can pause. */
    method PauseRecording() returns (ok: bool, message: string)
      modifies this
      ensures ok <==> old(recording) && !old(paused)
      ensures !old(recording) ==> message == NotRecording
      ensures old(recording) && old(paused) ==> message == AlreadyPaused
      ensures ok ==> message == RecordingPaused && paused
      ensures !ok ==> paused == old(paused)
      ensures recording == old(recording) && currentDeviceId == old(currentDeviceId) && hasThread == old(hasThread)
      ensures ReplyOf(ok, message) == PauseReply(old(State())) && State() == AfterPause(old(State()))
    {
      if !recording {
        return false, NotRecording;
      }
      if paused {
        return false, AlreadyPaused;
      }
      paused := true;
      return true, RecordingPaused;
    }

    /** `resume_recording`: only a running, paused recording can resume. */
    method ResumeRecording() returns (ok: bool, message: string)
      modifies this
      ensures ok <==> old(recording) && old(paused)
      ensures !old(recording) ==> message == NotRecording
      ensures old(recording) && !old(paused) ==> message == NotPaused
      ensures ok ==> message == RecordingResumed && !paused
      ensures !ok ==> paused == old(paused)
      ensures recording == old(recording) && currentDeviceId == old(currentDeviceId) && hasThread == old(hasThread)
      ensures ReplyOf(ok, message) == ResumeReply(old(State())) && State() == AfterResume(old(State()))
    {
      if !recording {
        return false, NotRecording;
      }
      if !paused {
        return false, NotPaused;
      }
      paused := false;
      return true, RecordingResumed;
    }

    /** `change_input_device`: a device with no input channels is refused;
        a lookup that raises stops recording and reports the error;
        otherwise the device changes and a running recording restarts
        unpaused on it. */
    method ChangeInputDevice(deviceId: int, devices: Devices) returns (ok: bool, message: string)
      modifies this
      ensures match devices.lookup(deviceId)
        case LookupFailed(e) =>
          && !ok && message == e && !recording && !hasThread
          && currentDeviceId == old(currentDeviceId) && paused == old(paused)
        case Found(channels, name) =>
          if channels == 0 then
            (&& !ok && message == NoInputSupport
             && recording == old(recording) && paused == old(paused)
             && currentDeviceId == old(currentDeviceId) && hasThread == old(hasThread))
          else
            (&& ok && message == ChangedDevice(name)
             && currentDeviceId == Some(deviceId) && recording == old(recording)
             && (old(recording) ==> !paused && hasThread)
             && (!old(recording) ==> paused == old(paused) && hasThread == old(hasThread)))
      ensures ReplyOf(ok, message) == ChangeReply(devices.lookup(deviceId))
      ensures State() == AfterChange(old(State()), devices.lookup(deviceId), deviceId)
    {
      match devices.lookup(deviceId) {
        case LookupFailed(e) =>
          recording := false;
          hasThread := false;
          return false, e;
        case Found(channels, name) =>
          if channels == 0 {
            return false, NoInputSupport;
          }
          var wasRecording := recording;
          if wasRecording {
            recording := false;
            hasThread := false;
          }
          currentDeviceId := Some(deviceId);
          if wasRecording {
            recording := true;
            paused := false;
            hasThread := true;
          }
          return true, ChangedDevice(name);
      }
    }

    /** `list_input_devices`: walks the device indices in order, keeping
        those with an input channel and skipping lookups that raise. */
    method ListInputDevices(devices: Devices) returns (r: seq<DeviceEntry>)
      ensures r == InputDevices(devices, devices.count)
    {
      r := [];
      var i := 0;
      while i < devices.count
        invariant 0 <= i <= devices.count
        invariant r == InputDevices(devices, i)
      {
        match devices.lookup(i) {
          case Found(channels, name) =>
            if channels > 0 {
              r := r + [DeviceEntry(i, name)];
            }
          case LookupFailed(_) =>
        }
        i := i + 1;
      }
    }
  }

  /** Pausing and then resuming a running, unpaused recording restores it. */
  method PauseThenResume(c: Client)
    requires c.recording && !c.paused
    modifies c
    ensures c.recording && !c.paused && c.currentDeviceId == old(c.currentDeviceId)
  {
    var ok1, m1 := c.PauseRecording();
    var ok2, m2 := c.ResumeRecording();
    assert ok1 && ok2;
  }
}
