/** The editor command that toggles voice transcription: a module-level
    recording flag written by `startRecording`/`stopRecording`, and the
    toggle rule of the `rubberduck.transcribe` command. Sending goes to the
    transcription connection, whose `sendMessage` may throw. */
module TranscribeCommand {
  import opened ExtensionSocket

  class Recorder {
    /** `isRecording`. */
    var isRecording: bool
    /** Commands handed to the transcription connection, in order. */
    var sentCommands: seq<string>
    /** Commands posted to the webview, in order. */
    var posted: seq<string>

    constructor ()
      ensures !isRecording && sentCommands == [] && posted == []
    {
      isRecording := false;
      sentCommands := [];
      posted := [];
    }

    /** `getRecordingStatus`. */
    function RecordingStatus(): (r: bool)
      reads this
      ensures r == isRecording
    {
      isRecording
    }

    /** `startRecording`: sends the start command and only then sets the flag;
        a throwing send leaves everything as it was. The webview is told only
        when the provider has a view. */
    method StartRecording(provider: Provider, sendThrows: bool)
      modifies this
      ensures sendThrows ==> isRecording == old(isRecording) && sentCommands == old(sentCommands) && posted == old(posted)
      ensures !sendThrows ==> isRecording && sentCommands == old(sentCommands) + ["start_recording"]
      ensures !sendThrows ==>
                posted == old(posted) + (if provider.Provider? && provider.hasView then ["recordingStarted"] else [])
    {
      if sendThrows {
        return;
      }
      sentCommands := sentCommands + ["start_recording"];
      isRecording := true;
      if provider.Provider? && provider.hasView {
        posted := posted + ["recordingStarted"];
      }
    }

    /** `stopRecording`: the mirror image of `StartRecording`. */
    method StopRecording(provider: Provider, sendThrows: bool)
      modifies this
      ensures sendThrows ==> isRecording == old(isRecording) && sentCommands == old(sentCommands) && posted == old(posted)
      ensures !sendThrows ==> !isRecording && sentCommands == old(sentCommands) + ["stop_recording"]
      ensures !sendThrows ==>
                posted == old(posted) + (if provider.Provider? && provider.hasView then ["recordingStopped"] else [])
    {
      if sendThrows {
        return;
      }
      sentCommands := sentCommands + ["stop_recording"];
      isRecording := false;
      if provider.Provider? && provider.hasView {
        posted := posted + ["recordingStopped"];
      }
    }

    /** The `rubberduck.transcribe` command: start when not recording, stop
        when recording. A send that goes through flips the flag. */
    method Toggle(provider: Provider, sendThrows: bool)
      modifies this
      ensures sentCommands == old(sentCommands)
        + (if sendThrows then [] else if old(isRecording) then ["stop_recording"] else ["start_recording"])
      ensures isRecording == if sendThrows then old(isRecording) else !old(isRecording)
    {
      if !RecordingStatus() {
        StartRecording(provider, sendThrows);
      } else {
        StopRecording(provider, sendThrows);
      }
    }
  }

  /** Two toggles that both go through return the flag to where it was and
      send one start and one stop, in the order the flag dictates. */
  method ToggleTwice(r: Recorder, provider: Provider)
    modifies r
    ensures r.isRecording == old(r.isRecording)
    ensures r.sentCommands == old(r.sentCommands)
      + (if old(r.isRecording) then ["stop_recording", "start_recording"] else ["start_recording", "stop_recording"])
  {
    r.Toggle(provider, false);
    r.Toggle(provider, false);
  }
}
