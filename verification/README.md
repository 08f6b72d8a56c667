# record_linux: capture session model

A Dafny model of the Linux back end of the `record` Flutter plugin
(`record_linux/linux/record_linux_plugin.cc`). The plugin captures 16-bit
stereo PCM at 44100 Hz from PulseAudio on a background thread. It either
writes the frames to a WAV file, or queues each frame for delivery to Dart on
the main loop. Callers drive it through method calls on the `record_linux`
channel: start (file or stream), stop, cancel, pause, resume, dispose, and
status queries.

The model has four parts:

- **WAV header codec** (`bytes.dfy`, `wav.dfy`). This covers the 44-byte
  RIFF/WAVE PCM header built by `init_wav_header` and the length patch done
  by `finalize_wav_header`. It also covers the little-endian byte image that
  `write_wav_header` writes, together with a decoder used only as a
  round-trip partner.
- **Session model** (`session.dfy`, `session_facts.dfy`). `State` holds
  every field the plugin object updates: the flags, the device, file and
  thread handles (as "non-null" booleans), the path, the byte count and the
  header. It also holds two external effects: the file system (path ↦
  bytes) and the ordered queue of chunks posted to the main loop. Each public
  operation is a pure transition function. So is one iteration of
  `record_thread_func`'s loop (`Step`) and a run of that loop against a
  scripted device (`RunCapture`). `Inv` is the session invariant: the
  recording flag, the thread handle and the device handle go together, and
  a file is open exactly while recording in file mode, with 44 + N bytes
  written. Every transition keeps `Inv`. The lemmas state what the
  operations promise, including whole start → capture N frames → stop runs.
- **Channel** (`channel.dfy`). This is the handler's chain of method-name
  comparisons (`Route`), the argument checks it makes, `is_encoder_supported`,
  and the response each routed command produces (`Execute`).
- **Plugin object** (`plugin.dfy`). Class `Recorder` has the plugin's fields.
  It has one method per session operation and per query, one for the loop
  body (`CaptureStep`) and one for the loop (`RecordThread`), one for the
  method-call handler, and one each for `finalize_wav_header` and
  `disconnect_from_pulse`. `SignalStopAndJoin`, `JoinThread` and
  `OpenOutputFile` are named pieces of the C++ stop and start functions.
  `connect_to_pulse` and `write_wav_header` are inlined as the `hasDevice`
  and `disk` updates, and `init_wav_header` is the function
  `Wav.InitWavHeader`. The stubs are constant answers inside
  `HandleMethodCall`; `isEncoderSupported` is answered by
  `Channel.EncoderSupported`. The methods are written step by step in the
  source's order. Each state-changing method except `DisconnectFromPulse`
  is proved to end in the state of its `Session` function and to return its
  response, so every lemma about the functions holds for the object.
  `DisconnectFromPulse` states its new state directly, and the two queries
  return the fields they read.

Stop joins the capture thread, and `JoinThread` models that join by running
the thread's next iteration through `CaptureStep`. Because the recording
flag is already clear, that iteration exits the loop. "Joined" therefore
means "the loop reached its exit state".

Behaviour of the code that the model keeps as written:

- `is_paused` is never cleared by stop or dispose. A session stopped while
  paused reports `isPaused` = true while idle (`StopKeepsPauseFlag`).
- Start in file mode stores the template header and `file_path` before
  calling `fopen`. A failed open therefore leaves `file_path` set to the
  path (`StartFileOpenFailure`).
- `file_path` survives a stop. Cancel on an idle session in file mode
  therefore deletes the last finished recording (`CancelFileRemovesFile`
  needs no "recording" precondition).
- Because `file_path` is stored before `fopen` (lines 400-401), a file start
  whose open fails, followed by `cancelRecording` in file mode, deletes
  whatever file already existed at that path, for example a read-only file
  that mode `"wb"` could not open (`FailedOpenThenCancel`).
- `start_recording_file` writes the placeholder header right after `fopen`
  succeeds (line 408), before the capture thread starts.
- A device read failure ends the thread but leaves `is_recording` set, so
  `isRecording` keeps reporting true until stop or dispose. This behaviour
  is kept as written (`StepReadFailure`).

## Model

The pure transitions `Session.StartFile`, `Session.StopFile`, `Session.Cancel`,
`Session.Step`, `Session.RunCapture` and the rest, each named in a
`Plugin.Recorder` row, carry no contract of their own, and neither do
`Channel.Route` (the chain of name comparisons at lines 153-200) and
`Channel.Execute` (each routed command's response). Their properties are
stated by the `Session.*Inv`, `SessionFacts` and `Channel` lemma rows below.

| member | source | states |
|---|---|---|
| Bytes.ToUint32 | record_linux/linux/record_linux_plugin.cc:239-241 | the `(uint32_t)` cast keeps a value below 2^32 unchanged and otherwise returns the unique 32-bit value congruent to it modulo 2^32 |
| Wav.InitWavHeader | record_linux/linux/record_linux_plugin.cc:218-235 | the template is a consistent PCM header ("RIFF"/"WAVE"/"fmt "/"data", fmt length 16, format 1): 2 channels, 44100 Hz, 16 bits, derived byte rate 176400 and block align 4, both length fields 0 |
| Wav.Finalize | record_linux/linux/record_linux_plugin.cc:237-241 | only the two length fields change, the result is still a consistent PCM header, and below 4 GiB data_size is the payload length and overall_size = data_size + 44 - 8 |
| Wav.FinalizeTruncates | record_linux/linux/record_linux_plugin.cc:239-241 | both length fields are the payload-derived values reduced modulo 2^32 |
| Wav.EncodeLayout | record_linux/linux/record_linux_plugin.cc:212-216 | the written image puts each header field at its RIFF offset, with the lengths little-endian at bytes 4..8 and 40..44 |
| Wav.DecodeEncode | record_linux/linux/record_linux_plugin.cc:212-216 | reading the written 44 bytes back gives the header that was written |
| Wav.EncodeDecode | record_linux/linux/record_linux_plugin.cc:212-216 | every 44-byte image is the image of the header it decodes to (the encoding is a bijection) |
| Wav.PlaceholderHeader | record_linux/linux/record_linux_plugin.cc:399-409 | the placeholder written at start decodes to the template, with zero in both length fields |
| Wav.FinalizedFileLengths | record_linux/linux/record_linux_plugin.cc:237-244 | a finalized header followed by its payload is a file of 44 + n bytes whose bytes 4..8 hold its length minus 8 and bytes 40..44 hold n, each as the little-endian weighted sum of the four bytes |
| Session.InitialInv | record_linux/linux/record_linux_plugin.cc:67-76 | the instance-init state satisfies the session invariant |
| Session.StartFileInv | record_linux/linux/record_linux_plugin.cc:378-421 | start_recording_file keeps the session invariant on every path |
| Session.StartStreamInv | record_linux/linux/record_linux_plugin.cc:448-481 | start_recording_stream keeps the session invariant on every path |
| Session.StepInv | record_linux/linux/record_linux_plugin.cc:287-346 | a loop iteration keeps the invariant, so the file stays 44 + total_data_bytes long |
| Session.RunCaptureInv | record_linux/linux/record_linux_plugin.cc:287-346 | any run of the loop keeps the invariant |
| Session.StopFileInv | record_linux/linux/record_linux_plugin.cc:423-446 | stop_recording_file keeps the invariant |
| Session.StopStreamInv | record_linux/linux/record_linux_plugin.cc:483-498 | stop_recording_stream keeps the invariant when called in stream mode, as both its callers do |
| Session.CancelInv | record_linux/linux/record_linux_plugin.cc:500-515 | cancel_recording keeps the invariant |
| Session.DisposeInv | record_linux/linux/record_linux_plugin.cc:358-376 | dispose_recorder keeps the invariant |
| Session.PauseResumeInv | record_linux/linux/record_linux_plugin.cc:517-542 | pause and resume keep the invariant |
| SessionFacts.Reads | record_linux/linux/record_linux_plugin.cc:306-307 | the scripted device yields the given frames, one per read, in order |
| SessionFacts.FlattenLength | record_linux/linux/record_linux_plugin.cc:316-317 | N frames of K bytes are N*K bytes of payload |
| SessionFacts.StartWhileRecording | record_linux/linux/record_linux_plugin.cc:380-386 | either start while recording returns already_recording and changes nothing (stream start: lines 450-456) |
| SessionFacts.StartDeviceFailure | record_linux/linux/record_linux_plugin.cc:389-397 | a device that does not connect makes either start return pulse_error with the session unchanged: no file opened, not recording (stream start: lines 459-467) |
| SessionFacts.StartFileOpenFailure | record_linux/linux/record_linux_plugin.cc:399-406 | a file that does not open returns file_io_error with the device disconnected, not recording, no file or thread, nothing written, and the path and template already stored |
| SessionFacts.StartFileSuccess | record_linux/linux/record_linux_plugin.cc:399-420 | a successful file start is recording, unpaused, in file mode with device, file and thread, counting from 0, with the placeholder header as the file's whole contents |
| SessionFacts.StartStreamSuccess | record_linux/linux/record_linux_plugin.cc:469-480 | a successful stream start is recording, unpaused, in stream mode with device and thread, no file, an empty path, counting from 0, with no file touched |
| SessionFacts.StepReadsNothingWhenIdleOrPaused | record_linux/linux/record_linux_plugin.cc:288-303 | with the flag clear or paused, the iteration does not depend on the device: it exits, or parks with the state unchanged |
| SessionFacts.StepFileFrame | record_linux/linux/record_linux_plugin.cc:313-318 | in file mode one frame is appended to the open file and total_data_bytes grows by exactly K_BUFFER_SIZE |
| SessionFacts.StepStreamFrame | record_linux/linux/record_linux_plugin.cc:319-344 | in stream mode one K-byte chunk is queued after all earlier ones and total_data_bytes is unchanged |
| SessionFacts.StepReadFailure | record_linux/linux/record_linux_plugin.cc:306-311 | a read failure ends the thread but keeps is_recording and the joinable handle, so the session still reports recording |
| SessionFacts.JoinIsLoopExit | record_linux/linux/record_linux_plugin.cc:294 | once the flag is clear, the thread's next iteration is its exit, and that is what the join waits for |
| SessionFacts.CaptureFileFrames | record_linux/linux/record_linux_plugin.cc:287-318 | N frames in file mode add N*K to the count and append the frames to the file in capture order, changing nothing else |
| SessionFacts.CaptureStreamFrames | record_linux/linux/record_linux_plugin.cc:287-344 | N frames in stream mode queue exactly those frames in capture order, changing nothing else |
| SessionFacts.StopJoinsOnlyWhenRecording | record_linux/linux/record_linux_plugin.cc:425-434 | stop clears the flag, and it joins and clears the thread only when it found the flag set; otherwise nothing changes |
| SessionFacts.StopFileFinalizes | record_linux/linux/record_linux_plugin.cc:423-446 | stop in file mode leaves no flag, file, device or thread, rewrites the header with data_size = bytes counted since start, and returns the path |
| SessionFacts.StopWhenIdle | record_linux/linux/record_linux_plugin.cc:431-442 | either stop on an idle session changes nothing: no join, no header write |
| SessionFacts.StopTwice | record_linux/linux/record_linux_plugin.cc:423-498 | a second stop is a no-op |
| SessionFacts.CancelFileRemovesFile | record_linux/linux/record_linux_plugin.cc:500-515 | cancel in file mode stops, then deletes the file at the path and clears the path, leaving every other file as stop left it |
| SessionFacts.CancelStreamIsStop | record_linux/linux/record_linux_plugin.cc:500-507 | cancel in stream mode is exactly stop_recording_stream and touches no file |
| SessionFacts.DisposeDoesNotFinalize | record_linux/linux/record_linux_plugin.cc:358-376 | dispose leaves no flag, file, device or thread, and neither rewrites the header nor changes any file |
| SessionFacts.PauseResumeGuard | record_linux/linux/record_linux_plugin.cc:517-542 | pause and resume while not recording return not_recording and change nothing; otherwise they set is_paused true or false |
| SessionFacts.QueriesAcrossPause | record_linux/linux/record_linux_plugin.cc:572-588 | after pause the queries report paused and not recording; after resume, recording again |
| SessionFacts.StopKeepsPauseFlag | record_linux/linux/record_linux_plugin.cc:423-446 | stop and dispose leave is_paused as it was, so an idle session can still report paused |
| SessionFacts.PauseResumeFileRun | record_linux/linux/record_linux_plugin.cc:287-318 | in file mode, frames a, a pause with one parked iteration, a resume and frames b append a then b to the file and count exactly those bytes, changing nothing else |
| SessionFacts.PauseResumeFileKeepsFrames | record_linux/linux/record_linux_plugin.cc:296-303 | a file recording paused and resumed mid-way loses and duplicates no frame: the file is the placeholder then a then b, and (length of a + length of b) * K bytes are counted |
| SessionFacts.PauseResumeStreamKeepsFrames | record_linux/linux/record_linux_plugin.cc:296-344 | a stream recording paused and resumed mid-way queues exactly a then b, each once, and touches no file |
| SessionFacts.FailedOpenThenCancel | record_linux/linux/record_linux_plugin.cc:400-511 | a file start whose open fails, then cancel in file mode, deletes the file already at that path; in stream mode it deletes nothing |
| SessionFacts.FileRecording | record_linux/linux/record_linux_plugin.cc:378-446 | start file, N frames, stop: the file is the finalized header plus the frames in order, 44 + N*K bytes, bytes 4..8 = length - 8, bytes 40..44 = N*K |
| SessionFacts.StreamRecording | record_linux/linux/record_linux_plugin.cc:448-498 | start stream, N frames, stop: exactly those N K-byte chunks were queued in capture order, and no file was touched |
| SessionFacts.CancelledRecordingLeavesNoFile | record_linux/linux/record_linux_plugin.cc:500-515 | a cancelled file recording leaves nothing at its path and no other file appears or disappears |
| Channel.StringOrNull | record_linux/linux/record_linux_plugin.cc:185-188 | a string argument is passed on and anything else becomes null |
| Channel.EncoderSupported | record_linux/linux/record_linux_plugin.cc:550-557 | an encoder is supported exactly when its name is "wav" (null is not supported) |
| Channel.RouteKnownNames | record_linux/linux/record_linux_plugin.cc:153-200 | the fifteen listed method names are answered, and exactly the other names get "not implemented" |
| Channel.RouteStopRecording | record_linux/linux/record_linux_plugin.cc:166-175 | stopRecording stops the stream in stream mode and the file otherwise; stopRecordingFile always stops the file |
| Channel.StartFileArgumentCheck | record_linux/linux/record_linux_plugin.cc:157-165 | startRecordingFile with a string path starts on that path; any other argument gets argument_error with the session unchanged |
| Channel.QueriesChangeNothing | record_linux/linux/record_linux_plugin.cc:153-200 | every command other than the session operations leaves the session unchanged |
| Channel.ExecuteInv | record_linux/linux/record_linux_plugin.cc:153-200 | every routed method call keeps the session invariant |
| Plugin.Recorder.constructor | record_linux/linux/record_linux_plugin.cc:67-79 | the instance-init state: flags cleared, no handles, empty path, zero count, zeroed header |
| Plugin.Recorder.DisconnectFromPulse | record_linux/linux/record_linux_plugin.cc:273-278 | the device handle is null afterwards and nothing else changes |
| Plugin.Recorder.FinalizeWavHeader | record_linux/linux/record_linux_plugin.cc:237-244 | with no open file nothing changes; otherwise the header gets the lengths and is rewritten at offset 0 |
| Plugin.Recorder.SignalStopAndJoin | record_linux/linux/record_linux_plugin.cc:425-434 | clears the flag and joins the thread exactly when the flag was set |
| Plugin.Recorder.JoinThread | record_linux/linux/record_linux_plugin.cc:431-434 | the join runs the thread's last iteration, which exits because the flag is clear, then clears the handle |
| Plugin.Recorder.StartRecordingFile | record_linux/linux/record_linux_plugin.cc:378-397 | the object ends in StartFile's state with StartFile's response, and keeps the invariant |
| Plugin.Recorder.OpenOutputFile | record_linux/linux/record_linux_plugin.cc:399-420 | template header, open, placeholder header, counters and flags, thread started, exactly as OpenOutput gives |
| Plugin.Recorder.StopRecordingFile | record_linux/linux/record_linux_plugin.cc:423-446 | the object ends in StopFile's state with its response (the path), and keeps the invariant |
| Plugin.Recorder.StartRecordingStream | record_linux/linux/record_linux_plugin.cc:448-481 | the object ends in StartStream's state with its response, and keeps the invariant |
| Plugin.Recorder.StopRecordingStream | record_linux/linux/record_linux_plugin.cc:483-498 | the object ends in StopStream's state, and keeps the invariant |
| Plugin.Recorder.CancelRecording | record_linux/linux/record_linux_plugin.cc:500-515 | the object ends in Cancel's state with the stop's response, and keeps the invariant |
| Plugin.Recorder.PauseRecording | record_linux/linux/record_linux_plugin.cc:517-528 | the object ends in Pause's state with its response |
| Plugin.Recorder.ResumeRecording | record_linux/linux/record_linux_plugin.cc:530-542 | the object ends in Resume's state with its response |
| Plugin.Recorder.DisposeRecorder | record_linux/linux/record_linux_plugin.cc:358-376 | the object ends in Dispose's state, and keeps the invariant |
| Plugin.Recorder.IsPausedFn | record_linux/linux/record_linux_plugin.cc:572-579 | reports is_paused |
| Plugin.Recorder.IsRecordingFn | record_linux/linux/record_linux_plugin.cc:581-588 | reports true exactly when recording and not paused |
| Plugin.Recorder.CaptureStep | record_linux/linux/record_linux_plugin.cc:287-346 | one loop iteration takes the object to Step's state and outcome, keeping the invariant |
| Plugin.Recorder.RecordThread | record_linux/linux/record_linux_plugin.cc:283-348 | the loop run against a script ends in RunCapture's state after RunCapture's number of iterations |
| Plugin.Recorder.HandleMethodCall | record_linux/linux/record_linux_plugin.cc:142-202 | a method call ends in the state and response that Execute gives for the routed command, and keeps the invariant |

## Left out

- GObject type registration, class and instance init boilerplate, and the GObject dispose handler (`record_linux_plugin.cc:23-120`) are framework glue. The dispose handler repeats `dispose_recorder`'s steps; the instance-init field values are the constructor.
- Flutter channel setup and `FlValue`/`FlMethodResponse` construction are foreign calls. Responses are a datatype carrying the error code; the human-readable error messages and `pa_strerror` texts are not modelled.
- Delivery of a queued chunk (`send_chunk` running `fl_method_channel_invoke_method("audioData")` on the main loop) is not modelled. The queue `outbox` records what was posted, in order; draining it is the main loop's business.
- PulseAudio and stdio are external I/O. Whether `pa_simple_new` and `fopen` succeed is a boolean parameter. A device read is a script entry, either a whole frame or a failure. `fwrite` and `fflush` are assumed to succeed; the source ignores their results, so a short write would go unnoticed. `Session.Inv`'s file-length clause (the file holds 44 + `total_data_bytes` bytes) depends on that assumption. `fclose` only drops the handle. `connect_to_pulse`'s sample-spec assignment (16-bit LE, 44100 Hz, stereo) is a constant of the profile and is not stored.
- Threads, the mutex and the condition variable are not modelled. Operations interleave only between loop iterations. A read that is in flight when stop is called is modelled as an iteration finished before the stop. The paused wait is one iteration that parks without reading, and a run of the loop ends there.
- `K_BUFFER_SIZE` and the `WavHeader` struct are defined outside `record_linux_plugin.cc`, and `record_linux_plugin.h` does not declare them. `K_BUFFER_SIZE` is the session's `frameSize`, fixed at construction and otherwise arbitrary.
- For `WavHeader` the model assumes the canonical 44-byte PCM layout with 32-bit and 16-bit fields, written little-endian as the in-memory struct image is on the plugin's hosts.
- Session.Step: `total_data_bytes` is an unbounded count and does not model the 64-bit `size_t` wrap-around (unreachable in practice). The 32-bit truncation into the header is modelled.
- Session.Cancel: `remove` is assumed to succeed. The source ignores its result (line 510) and clears `file_path` either way, so a failed removal would leave the recording on disk. `SessionFacts.CancelFileRemovesFile` and `SessionFacts.CancelledRecordingLeavesNoFile` rely on that assumption.
- Session.StopStreamInv: requires stream mode, because `stop_recording_stream` is reached only in stream mode (lines 171-172 and 505-506). Plugin.Recorder.StopRecordingStream has the same precondition.
- `get_amplitude`, `list_input_devices`, `has_permission` and `create_recorder` are stubs. They appear in `Execute` only as their constant answers (-160 dB, an empty list, true, success).
- `record_linux/linux/include/record_linux/record_linux_plugin.h` holds only prototypes and a struct that no longer matches the fields the `.cc` uses. The `testing/flutter_linux` headers are declaration-only shims. Neither is part of this model.
