/** The recording/transcription state machine of `AudioTranscriberApp`.

    `Recorder` holds the fields the application updates in place; `Host`
    stands for the parts of the operating system it touches through outside
    libraries: the file system (temporary WAV files), the clipboard and the
    global hotkey registry. Results of outside calls (the device list, the
    temporary file name, whether `keyboard.add_hotkey` raised, the outcome of
    transcription) are parameters of the methods.
 */
module Transcriber {
  import opened Wrappers
  import opened Recording
  import opened ElapsedFormat

  type Path = string

  /** A WAV file as `soundfile.write` leaves it on disk. */
  datatype WavFile = WavFile(samples: seq<Sample>, sampleRate: nat, channels: nat)

  /** What `sounddevice.query_devices()` gave: the `max_input_channels` of each
      device in order, or the text of the exception it raised. */
  datatype DeviceQuery = Devices(maxInputChannels: seq<int>) | QueryFailed(message: string)

  /** A call into the `keyboard` library's global hotkey registry. */
  datatype KeyboardCall = AddHotkey(combo: string) | RemoveHotkey(combo: string)

  /** The items of the model selector, smallest to largest. */
  const ModelSizes: seq<string> := ["tiny", "base", "small", "medium", "large"]

  const DefaultHotkey: string := "Ctrl+Shift+R"
  const DefaultModel: string := "base"

  const NoDeviceMessage: string := "No input audio device found."

  /** Operating-system state reached through outside libraries. */
  class Host {
    /** Files on disk that the application may create or remove. */
    var files: map<Path, WavFile>
    /** Text last placed on the clipboard by `pyperclip.copy`. */
    var clipboard: string
    /** Global hotkeys currently bound to the application's toggle. */
    var hotkeys: set<string>
    /** Every call made into the hotkey registry, in order. */
    var keyboardCalls: seq<KeyboardCall>

    constructor (files: map<Path, WavFile>)
      ensures this.files == files && clipboard == "" && hotkeys == {} && keyboardCalls == []
    {
      this.files := files;
      clipboard := "";
      hotkeys := {};
      keyboardCalls := [];
    }
  }

  class Recorder {
    const host: Host

    var isRecording: bool
    /** The captured blocks of the current (or last) recording. */
    var audioData: seq<seq<Sample>>
    /** Seconds counted by the status timer since the recording started. */
    var elapsedTime: nat
    var tempAudioFile: Option<Path>
    var hotkeyRegistered: Option<string>
    /** Whether the one-second status timer is running. */
    var timerActive: bool
    /** The text of the status label. */
    var status: string
    /** The text of the record button. */
    var buttonText: string
    /** The device of the open input stream; None once it is closed. */
    var stream: Option<nat>
    /** The current text of the model selector. */
    var whisperModel: string
    /** Every transcription started, as (audio path, model name), in order;
        the last one is the request of the current `transcribe_thread`. */
    var transcriptionRequests: seq<(Path, string)>

    /** The object invariant: what every transition keeps. */
    ghost predicate Valid()
      reads this, host
    {
      && (isRecording ==> stream.Some? && timerActive)
      && hotkeyRegistered != Some("")
      && host.hotkeys == (if hotkeyRegistered.Some? then {hotkeyRegistered.value} else {})
      && (tempAudioFile.Some? ==>
            && tempAudioFile.value != ""
            && transcriptionRequests != []
            && transcriptionRequests[|transcriptionRequests| - 1].0 == tempAudioFile.value)
    }

    /** `__init__`: settings loaded from the configuration (`hotkey`, `model`),
        the user interface built, then the hotkey registered. `addError` is
        what `keyboard.add_hotkey` raised, if anything. */
    constructor (host: Host, hotkey: string, model: string, addError: Option<string>)
      requires host.hotkeys == {}
      requires hotkey == "" ==> addError.Some?
      modifies host
      ensures Valid() && this.host == host
      ensures !isRecording && audioData == [] && elapsedTime == 0 && !timerActive
      ensures tempAudioFile == None && stream == None && transcriptionRequests == []
      ensures buttonText == "Record Audio"
      ensures whisperModel == if model in ModelSizes then model else ModelSizes[0]
      ensures addError.None? ==> hotkeyRegistered == Some(hotkey) && host.hotkeys == {hotkey}
                                 && status == "Hotkey '" + hotkey + "' registered."
      ensures addError.Some? ==> hotkeyRegistered == None && host.hotkeys == {}
                                 && status == "Error registering hotkey: " + addError.value
      ensures host.files == old(host.files) && host.clipboard == old(host.clipboard)
      ensures host.keyboardCalls == old(host.keyboardCalls) + [AddHotkey(hotkey)]
    {
      this.host := host;
      isRecording := false;
      audioData := [];
      elapsedTime := 0;
      tempAudioFile := None;
      hotkeyRegistered := None;
      timerActive := false;
      stream := None;
      transcriptionRequests := [];
      buttonText := "Record Audio";
      // A non-editable combo box ignores setCurrentText for a name it does
      // not list and keeps its first item selected.
      whisperModel := if model in ModelSizes then model else ModelSizes[0];
      status := "Ready to record...";
      new;
      RegisterHotkey(hotkey, addError);
    }

    /** `register_hotkey`: unbind the previous hotkey, then try to bind
        `sequence`. `addError` is the message `keyboard.add_hotkey` raised;
        the library refuses an empty combination. */
    method RegisterHotkey(sequence: string, addError: Option<string>)
      requires Valid()
      requires sequence == "" ==> addError.Some?
      modifies this, host
      ensures Valid()
      ensures host.keyboardCalls == old(host.keyboardCalls)
        + (if old(hotkeyRegistered).Some? then [RemoveHotkey(old(hotkeyRegistered).value)] else [])
        + [AddHotkey(sequence)]
      ensures addError.None? ==> hotkeyRegistered == Some(sequence) && host.hotkeys == {sequence}
                                 && status == "Hotkey '" + sequence + "' registered."
      ensures addError.Some? ==> hotkeyRegistered == None && host.hotkeys == {}
                                 && status == "Error registering hotkey: " + addError.value
      ensures isRecording == old(isRecording) && audioData == old(audioData)
      ensures elapsedTime == old(elapsedTime) && tempAudioFile == old(tempAudioFile)
      ensures timerActive == old(timerActive) && buttonText == old(buttonText)
      ensures stream == old(stream) && whisperModel == old(whisperModel)
      ensures transcriptionRequests == old(transcriptionRequests)
      ensures host.files == old(host.files) && host.clipboard == old(host.clipboard)
    {
      // Python truthiness: an empty registered string would not be removed.
      if hotkeyRegistered.Some? && hotkeyRegistered.value != "" {
        host.hotkeys := host.hotkeys - {hotkeyRegistered.value};
        host.keyboardCalls := host.keyboardCalls + [RemoveHotkey(hotkeyRegistered.value)];
      }
      host.keyboardCalls := host.keyboardCalls + [AddHotkey(sequence)];
      match addError {
        case None =>
          host.hotkeys := host.hotkeys + {sequence};
          hotkeyRegistered := Some(sequence);
          status := "Hotkey '" + sequence + "' registered.";
        case Some(e) =>
          status := "Error registering hotkey: " + e;
          hotkeyRegistered := None;
      }
    }

    /** Choosing an item of the model selector. */
    method SelectModel(name: string)
      requires Valid()
      requires name in ModelSizes
      modifies this`whisperModel
      ensures Valid()
      ensures whisperModel == name
    {
      whisperModel := name;
    }

    /** What `start_recording` leaves behind, given the device query's outcome.
        Recording state is reset and the timer started before the device
        search; a failed search resets only `isRecording`, so the timer keeps
        running and the button keeps its "Stop Recording" text. The status
        "Recording: 00:00" of a successful start is the clock for zero seconds
        (`FormatElapsedZero`). */
    twostate predicate Started(devices: DeviceQuery)
      reads this, host
    {
      && audioData == [] && elapsedTime == 0 && timerActive
      && buttonText == "Stop Recording"
      && (match devices
          case QueryFailed(message) =>
            && !isRecording && stream == old(stream)
            && status == "Error finding audio device: " + message
          case Devices(channels) =>
            if HasInputDevice(channels) then
              && isRecording && stream.Some? && IsFirstInputDevice(channels, stream.value)
              && status == "Recording: 00:00"
            else
              && !isRecording && stream == old(stream)
              && status == "Error finding audio device: " + NoDeviceMessage)
      && tempAudioFile == old(tempAudioFile) && hotkeyRegistered == old(hotkeyRegistered)
      && whisperModel == old(whisperModel) && transcriptionRequests == old(transcriptionRequests)
      && host.files == old(host.files) && host.clipboard == old(host.clipboard)
      && host.hotkeys == old(host.hotkeys) && host.keyboardCalls == old(host.keyboardCalls)
    }

    /** `start_recording`. */
    method StartRecording(devices: DeviceQuery)
      requires Valid()
      modifies this
      ensures Valid() && Started(devices)
    {
      isRecording := true;
      audioData := [];
      elapsedTime := 0;
      buttonText := "Stop Recording";
      status := "Recording: 00:00";
      timerActive := true;

      var inputDeviceId: Option<nat> := None;
      match devices {
        case QueryFailed(message) =>
          status := "Error finding audio device: " + message;
          isRecording := false;
          return;
        case Devices(channels) =>
          inputDeviceId := FindInputDevice(channels);
          if inputDeviceId.None? {
            status := "Error finding audio device: " + NoDeviceMessage;
            isRecording := false;
            return;
          }
      }
      stream := inputDeviceId;
    }

    /** The stream callback: append a copy of the captured block. */
    method AudioCallback(block: seq<Sample>)
      requires Valid()
      modifies this`audioData
      ensures Valid()
      ensures audioData == old(audioData) + [block]
      ensures Concat(audioData) == Concat(old(audioData)) + block
    {
      ConcatAppend(audioData, block);
      audioData := audioData + [block];
    }

    /** What `stop_recording` leaves behind. With captured blocks, their
        concatenation is written to the fresh file `tmp` at the fixed rate and
        channel count and one transcription of `tmp` with the selected model is
        requested; with none, nothing is written or requested. */
    twostate predicate Stopped(tmp: Path)
      reads this, host
    {
      && !isRecording && !timerActive && stream == None
      && buttonText == "Record Audio"
      && (if old(audioData) != [] then
            && host.files == old(host.files)[tmp := WavFile(Concat(old(audioData)), SampleRate, Channels)]
            && tempAudioFile == Some(tmp)
            && transcriptionRequests == old(transcriptionRequests) + [(tmp, old(whisperModel))]
            && status == "Audio saved to: " + tmp + ". Transcribing..."
          else
            && host.files == old(host.files)
            && tempAudioFile == old(tempAudioFile)
            && transcriptionRequests == old(transcriptionRequests)
            && status == "No audio recorded.")
      && audioData == old(audioData) && elapsedTime == old(elapsedTime)
      && hotkeyRegistered == old(hotkeyRegistered) && whisperModel == old(whisperModel)
      && host.clipboard == old(host.clipboard)
      && host.hotkeys == old(host.hotkeys) && host.keyboardCalls == old(host.keyboardCalls)
    }

    /** `stop_recording`; `tmp` is the name `tempfile.NamedTemporaryFile`
        chooses, which is non-empty and not an existing file. */
    method StopRecording(tmp: Path)
      requires Valid()
      requires stream.Some?
      requires tmp != "" && tmp !in host.files
      modifies this, host
      ensures Valid() && Stopped(tmp)
    {
      isRecording := false;
      timerActive := false;
      buttonText := "Record Audio";
      status := "Processing audio...";
      stream := None;

      if audioData != [] {
        var recordedAudio := Concat(audioData);
        tempAudioFile := Some(tmp);
        host.files := host.files[tmp := WavFile(recordedAudio, SampleRate, Channels)];
        status := "Audio saved to: " + tmp + ". Transcribing...";
        transcriptionRequests := transcriptionRequests + [(tmp, whisperModel)];
      } else {
        status := "No audio recorded.";
      }
    }

    /** `toggle_recording`: start when idle, stop when recording. */
    method ToggleRecording(devices: DeviceQuery, tmp: Path)
      requires Valid()
      requires isRecording ==> tmp != "" && tmp !in host.files
      modifies this, host
      ensures Valid()
      ensures !old(isRecording) ==> Started(devices)
      ensures old(isRecording) ==> Stopped(tmp)
    {
      if !isRecording {
        StartRecording(devices);
      } else {
        StopRecording(tmp);
      }
    }

    /** `update_recording_status`, run by the timer once a second. */
    method UpdateRecordingStatus()
      requires Valid()
      modifies this`elapsedTime, this`status
      ensures Valid()
      ensures elapsedTime == old(elapsedTime) + 1
      ensures status == "Recording: " + FormatElapsed(elapsedTime)
    {
      elapsedTime := elapsedTime + 1;
      var (minutes, seconds) := SplitElapsed(elapsedTime);
      status := "Recording: " + Pad2(minutes) + ":" + Pad2(seconds);
    }

    /** The clean-up both transcription outcomes share: the temporary file is
        removed and forgotten only when it still exists; otherwise neither the
        disk nor the field changes. */
    twostate predicate CleanedUp()
      reads this, host
    {
      && (if old(tempAudioFile).Some? && old(tempAudioFile).value != ""
             && old(tempAudioFile).value in old(host.files) then
            && host.files == old(host.files) - {old(tempAudioFile).value}
            && tempAudioFile == None
          else
            && host.files == old(host.files)
            && tempAudioFile == old(tempAudioFile))
      && isRecording == old(isRecording) && audioData == old(audioData)
      && elapsedTime == old(elapsedTime) && hotkeyRegistered == old(hotkeyRegistered)
      && timerActive == old(timerActive) && buttonText == old(buttonText)
      && stream == old(stream) && whisperModel == old(whisperModel)
      && transcriptionRequests == old(transcriptionRequests)
      && host.hotkeys == old(host.hotkeys) && host.keyboardCalls == old(host.keyboardCalls)
    }

    method RemoveTempFileIfPresent()
      requires Valid()
      modifies this`tempAudioFile, host`files
      ensures Valid() && CleanedUp()
    {
      if tempAudioFile.Some? && tempAudioFile.value != "" && tempAudioFile.value in host.files {
        host.files := host.files - {tempAudioFile.value};
        tempAudioFile := None;
      }
    }

    /** `on_transcription_finished`: the text goes to the clipboard. */
    method OnTranscriptionFinished(text: string)
      requires Valid()
      modifies this, host
      ensures Valid() && CleanedUp()
      ensures host.clipboard == text
      ensures status == "Transcription copied to clipboard!"
    {
      host.clipboard := text;
      status := "Transcription copied to clipboard!";
      RemoveTempFileIfPresent();
    }

    /** `on_transcription_error`: the message becomes the status. */
    method OnTranscriptionError(errorMessage: string)
      requires Valid()
      modifies this, host
      ensures Valid() && CleanedUp()
      ensures host.clipboard == old(host.clipboard)
      ensures status == "Transcription error: " + errorMessage
    {
      status := "Transcription error: " + errorMessage;
      RemoveTempFileIfPresent();
    }
  }
}
