/** Whole runs of the application, driven through `Recorder` the way the
    button, the audio subsystem, the timer and the transcription thread drive
    `AudioTranscriberApp`. Each method builds a fresh host and application and
    states what the run ends with.
 */
module Scenarios {
  import opened Wrappers
  import opened Recording
  import opened ElapsedFormat
  import opened Transcriber

  /** A device list whose second device is the only one with an input channel. */
  const OneMicrophone: DeviceQuery := Devices([0, 2])

  method NewApp(files: map<Path, WavFile>) returns (host: Host, app: Recorder)
    ensures fresh(host) && fresh(app) && app.host == host && app.Valid()
    ensures !app.isRecording && app.whisperModel == DefaultModel
    ensures host.files == files && app.transcriptionRequests == [] && app.tempAudioFile == None
    ensures app.hotkeyRegistered == Some(DefaultHotkey) && host.keyboardCalls == [AddHotkey(DefaultHotkey)]
  {
    host := new Host(files);
    assert ModelSizes[1] == DefaultModel;
    app := new Recorder(host, DefaultHotkey, DefaultModel, None);
  }

  /** Start, three one-second blocks of mono audio, stop: the WAV file holds
      the three blocks in order, 132300 samples at 44100 Hz, and one
      transcription of that file with the selected model is requested. */
  method ThreeSecondRecording(b1: seq<Sample>, b2: seq<Sample>, b3: seq<Sample>, tmp: Path)
    returns (artifact: WavFile, requests: seq<(Path, string)>)
    requires |b1| == SampleRate && |b2| == SampleRate && |b3| == SampleRate
    requires tmp != ""
    ensures artifact.samples == b1 + b2 + b3
    ensures |artifact.samples| == 132300 && artifact.sampleRate == 44100 && artifact.channels == 1
    ensures requests == [(tmp, DefaultModel)]
  {
    var host, app := NewApp(map[]);
    assert OneMicrophone.maxInputChannels[1] > 0;
    app.ToggleRecording(OneMicrophone, tmp);
    app.AudioCallback(b1);
    app.AudioCallback(b2);
    app.AudioCallback(b3);
    assert app.audioData == [b1, b2, b3];
    app.ToggleRecording(OneMicrophone, tmp);
    artifact := host.files[tmp];
    requests := app.transcriptionRequests;
    assert Concat([b1, b2, b3]) == b1 + b2 + b3 by {
      assert [b1, b2, b3][1..] == [b2, b3];
      assert [b2, b3][1..] == [b3];
    }
    UniformBlocks([b1, b2, b3], SampleRate);
    ConcatLength([b1, b2, b3]);
  }

  /** Start and stop with no block captured: "No audio recorded.", no file
      written, no transcription requested, recording and timer stopped. */
  method StopWithoutAudio(tmp: Path)
    returns (status: string, files: map<Path, WavFile>, requests: seq<(Path, string)>, recording: bool, timer: bool)
    requires tmp != ""
    ensures status == "No audio recorded."
    ensures files == map[] && requests == []
    ensures !recording && !timer
  {
    var host, app := NewApp(map[]);
    assert OneMicrophone.maxInputChannels[1] > 0;
    app.ToggleRecording(OneMicrophone, tmp);
    app.ToggleRecording(OneMicrophone, tmp);
    status, files, requests := app.status, host.files, app.transcriptionRequests;
    recording, timer := app.isRecording, app.timerActive;
  }

  /** A failed transcription: the message is shown, the WAV file is removed,
      the application is idle, and the next toggle starts a new recording. An
      unrelated file already on disk survives, and a second outcome arriving
      afterwards removes nothing. */
  method FailedTranscription(block: seq<Sample>, tmp: Path, other: Path, message: string)
    returns (status: string, fileLeft: bool, idle: bool, filesAfterError: map<Path, WavFile>,
             filesAfterRepeat: map<Path, WavFile>, recordingAgain: bool)
    requires tmp != "" && tmp != other
    ensures status == "Transcription error: " + message
    ensures !fileLeft && idle
    ensures filesAfterError == map[other := WavFile(block, SampleRate, Channels)]
    ensures filesAfterRepeat == filesAfterError
    ensures recordingAgain
  {
    var existing := map[other := WavFile(block, SampleRate, Channels)];
    var host, app := NewApp(existing);
    assert OneMicrophone.maxInputChannels[1] > 0;
    app.ToggleRecording(OneMicrophone, tmp);
    app.AudioCallback(block);
    app.ToggleRecording(OneMicrophone, tmp);
    assert tmp in host.files;
    app.OnTranscriptionError(message);
    status, fileLeft, idle := app.status, tmp in host.files, !app.isRecording;
    filesAfterError := host.files;
    assert filesAfterError == existing;
    app.OnTranscriptionFinished("");
    filesAfterRepeat := host.files;
    app.ToggleRecording(OneMicrophone, tmp);
    recordingAgain := app.isRecording;
  }

  /** No device with an input channel: recording does not start and the error
      is shown, but the timer was already started and keeps running, so one
      second later its tick replaces the error with a running clock while the
      button still reads "Stop Recording". */
  method DeviceFailureKeepsTimer() returns (afterStart: string, afterTick: string, recording: bool, timer: bool, button: string)
    ensures afterStart == "Error finding audio device: " + NoDeviceMessage
    ensures afterTick == "Recording: 00:01"
    ensures !recording && timer && button == "Stop Recording"
  {
    var host, app := NewApp(map[]);
    assert !HasInputDevice([0, 0]);
    app.ToggleRecording(Devices([0, 0]), "");
    afterStart := app.status;
    app.UpdateRecordingStatus();
    afterTick := app.status;
    recording, timer, button := app.isRecording, app.timerActive, app.buttonText;
    OneSecondClock();
  }

  lemma OneSecondClock()
    ensures "Recording: " + FormatElapsed(1) == "Recording: 00:01"
  {
    assert Decimal(0) == "0" && Decimal(1) == "1";
    assert Pad2(0) == "00" && Pad2(1) == "01";
  }

  /** One complete recording of a single block into the fresh file `tmp`. */
  method RecordOneBlock(app: Recorder, block: seq<Sample>, tmp: Path)
    requires app.Valid() && !app.isRecording
    requires tmp != "" && tmp !in app.host.files
    modifies app, app.host
    ensures app.Valid() && !app.isRecording && app.tempAudioFile == Some(tmp)
    ensures app.host.files == old(app.host.files)[tmp := WavFile(block, SampleRate, Channels)]
  {
    assert OneMicrophone.maxInputChannels[1] > 0;
    app.ToggleRecording(OneMicrophone, tmp);
    app.AudioCallback(block);
    assert app.audioData == [block];
    assert Concat([block]) == block by {
      assert [block][1..] == [];
    }
    app.ToggleRecording(OneMicrophone, tmp);
  }

  /** Two recordings stopped before the first transcription reports back:
      `temp_audio_file` names only the second file, so the first outcome
      removes the second file and the first file is never removed. */
  method OverlappingTranscriptions(block: seq<Sample>, tmp1: Path, tmp2: Path)
    returns (remaining: set<Path>)
    requires tmp1 != "" && tmp2 != "" && tmp1 != tmp2
    ensures remaining == {tmp1}
  {
    var host, app := NewApp(map[]);
    var wav := WavFile(block, SampleRate, Channels);
    RecordOneBlock(app, block, tmp1);
    RecordOneBlock(app, block, tmp2);
    assert host.files == map[tmp1 := wav, tmp2 := wav];
    app.OnTranscriptionFinished("first");
    assert host.files == map[tmp1 := wav] && app.tempAudioFile == None;
    app.OnTranscriptionFinished("second");
    remaining := host.files.Keys;
  }

  /** A failed hotkey registration leaves no hotkey bound, and the previous
      binding was removed before the new one was attempted. */
  method FailedHotkeyChange(newCombo: string, error: string)
    returns (bound: set<string>, calls: seq<KeyboardCall>, registered: Option<string>)
    ensures bound == {} && registered == None
    ensures calls == [AddHotkey(DefaultHotkey), RemoveHotkey(DefaultHotkey), AddHotkey(newCombo)]
  {
    var host, app := NewApp(map[]);
    app.RegisterHotkey(newCombo, Some(error));
    bound, calls, registered := host.hotkeys, host.keyboardCalls, app.hotkeyRegistered;
  }
}
