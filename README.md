# Audio recorder and transcriber: the recording state machine

This project models the core of a desktop utility. The user presses a button or a global
hotkey to start recording from the microphone. The next press stops the recording, writes
the audio to a temporary WAV file and hands that file to a Whisper speech-recognition
thread. The thread's outcome either puts the text on the clipboard or shows an error.
In both cases the temporary file is then removed.

The logic between the library calls lives in the fields of `AudioTranscriberApp`
(`main.py`). It is modelled as the class `Transcriber.Recorder`, with one method per
source method. A second class, `Transcriber.Host`, stands for the operating-system state
that those libraries touch:

- the files on disk (path to WAV contents);
- the clipboard text;
- the set of bound global hotkeys;
- the log of calls into the hotkey registry.

Results of outside calls are method parameters:

- the device list from `sounddevice.query_devices`, or the exception it raised;
- the file name that `tempfile` chooses;
- the exception `keyboard.add_hotkey` raised, if any;
- the transcription text or error message.

Modules:

- `Wrappers`: `Option`, standing for Python's `None`.
- `ElapsedFormat`: the `MM:SS` clock of the status line. It has a decimal reader and a clock
  parser as independent partners, and a round-trip proof.
- `Recording`: opaque samples, joining captured blocks (`np.concatenate`) and the device
  search loop.
- `Transcriber`: `Host`, and `Recorder` with its object invariant `Valid()`. Every method
  keeps `Valid()`:
  - recording implies an open stream and a running timer;
  - `Host.hotkeys` is exactly the registered hotkey (or nothing);
  - the temporary file, when set, is the path of the last transcription request.
- `Scenarios`: whole runs of the application, each ending in stated results.

Two behaviours of the code shape the model:

- On a device failure, main.py:136-139 resets only `is_recording`. The timer started at
  main.py:124 keeps running, and the button keeps the "Stop Recording" text set at
  main.py:122. One second later the timer's tick overwrites the error message
  (`Scenarios.DeviceFailureKeepsTimer`).
- The transcription handlers at main.py:185-187 and main.py:191-193 remove the temporary
  file only while `temp_audio_file` is a non-empty path that still exists. Two recordings
  stopped before the first outcome arrives leave the first file on disk
  (`Scenarios.OverlappingTranscriptions`).

## Model

| member | source | states |
|---|---|---|
| `ElapsedFormat.Decimal` | main.py:173 | the decimal numeral of n: at least one digit, no leading zero unless n is 0, and a single digit exactly when n < 10 |
| `ElapsedFormat.Pad2` | main.py:173 | `{n:02d}`: all digits, at least two of them, exactly two when n < 100, and a leading zero exactly when n < 10 |
| `ElapsedFormat.SplitElapsed` | main.py:171-172 | minutes and seconds with minutes*60 + seconds == t and seconds < 60 |
| `ElapsedFormat.DecimalRoundTrip` | main.py:173 | reading the decimal numeral of n back gives n |
| `ElapsedFormat.ParseLeadingZero` | main.py:173 | a leading zero pad does not change the value read |
| `ElapsedFormat.Pad2RoundTrip` | main.py:173 | reading the zero-padded numeral of n back gives n |
| `ElapsedFormat.ColonAfterDigits` | main.py:173 | in "digits:rest" the first colon is the one right after the digits |
| `ElapsedFormat.FormatElapsed` | main.py:171-173 | the clock text for t seconds: reading it as zero-padded minutes, a colon and two-digit seconds below 60 gives back exactly t (so different times display differently) |
| `ElapsedFormat.FormatElapsedCanonical` | main.py:171-173 | the other direction: any text the clock reader takes as t is exactly the displayed text for t |
| `ElapsedFormat.ClockRoundTrip` | main.py:173 | padded minutes, a colon and padded seconds below 60 read back as minutes*60 + seconds |
| `ElapsedFormat.ParsePositive` | main.py:173 | a numeral not starting with zero has a positive value |
| `ElapsedFormat.DecimalUnique` | main.py:173 | a numeral without leading zeros is the decimal numeral of its value |
| `ElapsedFormat.Pad2Unique` | main.py:173 | every zero-padded two-or-more-digit string is the `{n:02d}` text of its value |
| `ElapsedFormat.FormatElapsedZero` | main.py:123 | the "Recording: 00:00" text that `StartRecording` sets on a successful start is the clock for zero seconds |
| `Recording.ConcatLength` | main.py:159 | the joined recording has as many samples as the blocks together |
| `Recording.ConcatAppend` | main.py:144 | appending a block to the list appends its samples to the joined recording |
| `Recording.ConcatAt` | main.py:159 | sample j of block k is at offset (samples of blocks before k) + j of the joined recording: order kept, nothing dropped |
| `Recording.UniformBlocks` | main.py:159 | blocks of n samples each join to a recording of (number of blocks) * n samples |
| `Recording.FindInputDevice` | main.py:127-133 | returns Some exactly when some device has max_input_channels > 0, and then the least such index |
| `Recording.FirstInputDeviceUnique` | main.py:130-133 | the first input device is unique |
| `Transcriber.Recorder.constructor` | main.py:32-48 | initial idle state with nothing captured; the selector shows the configured model when it is one of the five sizes, otherwise "tiny"; then the hotkey is registered as `RegisterHotkey` states |
| `Transcriber.Recorder.RegisterHotkey` | main.py:99-110 | the previous hotkey is removed before the new one is added (call log); on success the sequence is the registered and only bound hotkey; on failure none is registered or bound; status text per outcome; nothing else changes |
| `Transcriber.Recorder.SelectModel` | main.py:87-90 | the selector's current text becomes the chosen model size |
| `Transcriber.Recorder.StartRecording` | main.py:118-139 | empties the blocks, zeroes elapsed time, starts the timer and sets the button text. With a first input device: recording on a stream bound to that device. With no device, or when the query raised: not recording, stream untouched, "Error finding audio device: …" status, and the timer still running |
| `Transcriber.Recorder.AudioCallback` | main.py:141-144 | exactly one block is appended at the end, earlier blocks unchanged, and the joined recording grows by exactly that block |
| `Transcriber.Recorder.StopRecording` | main.py:149-167 | always: not recording, timer stopped, stream closed, "Record Audio" button. With blocks: the new file holds their concatenation at 44100 Hz / 1 channel, becomes the temp file, and exactly one request (file, selected model) is logged. With none: "No audio recorded.", no file, no request, temp file unchanged |
| `Transcriber.Recorder.ToggleRecording` | main.py:112-116 | has the start outcome exactly when it was idle and the stop outcome exactly when it was recording |
| `Transcriber.Recorder.UpdateRecordingStatus` | main.py:169-173 | elapsed time grows by one and the status shows "Recording: " with its clock |
| `Transcriber.Recorder.RemoveTempFileIfPresent` | main.py:185-187 | an existing temp file is removed from disk and the field cleared; otherwise disk and field are unchanged |
| `Transcriber.Recorder.OnTranscriptionFinished` | main.py:182-187 | text on the clipboard, confirmation status, temp file cleaned up as above |
| `Transcriber.Recorder.OnTranscriptionError` | main.py:189-193 | error status with the message, clipboard untouched, temp file cleaned up as above |
| `Scenarios.ThreeSecondRecording` | main.py:112-165 | three 44100-sample blocks give a file of 132300 samples, the blocks in order, at 44100 Hz mono, and one request with the selected model |
| `Scenarios.StopWithoutAudio` | main.py:149-167 | an immediate stop reports "No audio recorded." with no file, no request, and recording and timer off |
| `Scenarios.FailedTranscription` | main.py:149-193 | after an error outcome: message shown, the recording's file gone, an unrelated file kept, idle; a repeated outcome leaves the disk unchanged; the next toggle starts recording |
| `Scenarios.DeviceFailureKeepsTimer` | main.py:118-139 | with no input device the error shows and recording is off, but the timer runs, the button reads "Stop Recording", and the next tick shows "Recording: 00:01" |
| `Scenarios.OneSecondClock` | main.py:169-173 | the status after one tick is "Recording: 00:01" |
| `Scenarios.OverlappingTranscriptions` | main.py:158-187 | two recordings stopped before any outcome leave the first file on disk after both outcomes |
| `Scenarios.FailedHotkeyChange` | main.py:99-110 | after a failed change, no hotkey is bound or registered, and the call log is add, remove old, add new |

## Left out

- Qt layout, window geometry and signal wiring (main.py:11-12, main.py:67-97,
  main.py:195-199): this is UI. Only the status label, the button text and the model
  selector's current text are kept, as fields.
- `TranscribeThread` (main.py:14-29, main.py:175-180): the thread, Whisper model loading
  and inference are concurrency and a foreign model. A started transcription is an entry
  `(path, model)` in `transcriptionRequests`. Its outcome is a later call of
  `OnTranscriptionFinished` or `OnTranscriptionError` with the text or message.
- The sounddevice stream (main.py:146-147, main.py:155-156) and the callback's
  audio-thread execution: this is foreign I/O. The open stream is reduced to the index of
  its device, and the callback is an ordinary method call. The callback's `status` flags
  and their `print` (main.py:142-143) are diagnostics.
- Sample values (numpy float arrays): samples are an opaque type, and only counts and
  order are modelled. `indata.copy()` is implicit, because sequences are values.
- WAV encoding, `tempfile` and `os.remove` (main.py:161-163, main.py:185-186): this is file
  I/O. A file is a map entry holding its samples, rate and channel count. The chosen
  temporary name is a parameter.
- `pyperclip`: the clipboard is the field `Host.clipboard`. Failures of foreign calls
  (`pyperclip.copy` at main.py:183, `sf.write` at main.py:163, `os.remove` at
  main.py:186 and 192) are not modelled. In the source such a failure skips the rest of
  the handler: the status is not set and the temporary file stays on disk. The model's
  handlers always finish.
- Threads of the global hotkey: `keyboard.add_hotkey` (main.py:105) runs
  `toggle_recording` on the keyboard library's listener thread, not on the Qt thread. The
  model treats a hotkey press as the same synchronous call as a button press. Two things
  are not modelled: races with the Qt thread (the button, the timer tick, the handlers),
  and Qt refusing to start or stop the `QTimer` (main.py:124, main.py:151) from another
  thread. In that case Qt leaves the timer as it was, whereas the model sets or clears
  `timerActive`.
- Configuration loading and saving with `configparser` (main.py:50-65): this is file I/O.
  The loaded hotkey and model are constructor parameters. Saving settings on each edit is
  not modelled.
- The one-second timer interval: the timer is a flag, and each firing is a call of
  `UpdateRecordingStatus`.
- Transcriber.Recorder.StartRecording: a failure to open or start the stream
  (main.py:146-147) is not modelled. Given a device, the stream always opens. In the source
  these lines sit outside the `try` at main.py:128-139. If they raise, `is_recording`
  stays True while no new open stream exists.
- Transcriber.Recorder.StopRecording: requires an open stream. The source fails at
  main.py:155 when `self.stream` is missing or already closed. A toggle reaches that state
  after the stream failed to open at main.py:146-147, which the model leaves out (see
  above).
- Transcriber.Recorder.RegisterHotkey: assumes `keyboard.add_hotkey` raises for an empty
  combination, as the library refuses empty key names. This keeps an empty string from ever
  being registered. An empty registered string would otherwise escape removal, because the
  source tests `if self.hotkey_registered` by truthiness.
