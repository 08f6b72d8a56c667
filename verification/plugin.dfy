/**
 * The plugin object: the fields record_linux_plugin.cc updates in place,
 * and its operations written step by step as the C++ performs them.  Each
 * method is proved to take the object from state S to exactly the state
 * (and response) that the matching function of module Session gives for S,
 * so every fact proved about those functions holds of the object.
 */
module Plugin {
  import opened Bytes
  import opened Wav
  import opened Session
  import opened Channel

  class Recorder {
    /** K_BUFFER_SIZE. */
    const frameSize: nat

    var isRecording: bool
    var isPaused: bool
    var isStreamMode: bool
    /** pa_handle is non-null. */
    var hasDevice: bool
    /** file_handle is non-null. */
    var hasFile: bool
    /** record_thread_handle is non-null. */
    var hasThread: bool
    /** The capture thread has not yet returned. */
    var threadRunning: bool
    var filePath: string
    var totalDataBytes: nat
    var header: WavHeader
    /** The file system as seen through stdio: contents by path. */
    var disk: map<string, seq<uint8>>
    /** Chunks posted to the main loop for delivery, oldest first. */
    var outbox: seq<seq<uint8>>

    function Snapshot(): State
      reads this
    {
      State(frameSize, isRecording, isPaused, isStreamMode, hasDevice, hasFile, hasThread,
            threadRunning, filePath, totalDataBytes, header, disk, outbox)
    }

    ghost predicate Valid()
      reads this
    {
      Inv(Snapshot())
    }

    /** Instance init: flags cleared, no handles, empty path, zeroed header. */
    constructor (k: nat, files: map<string, seq<uint8>>)
      ensures Valid() && Snapshot() == Initial(k, files)
    {
      frameSize := k;
      hasDevice := false;
      isRecording := false;
      isPaused := false;
      isStreamMode := false;
      hasThread := false;
      threadRunning := false;
      hasFile := false;
      filePath := "";
      totalDataBytes := 0;
      header := ZeroHeader;
      disk := files;
      outbox := [];
    }

    method DisconnectFromPulse()
      modifies this
      ensures Snapshot() == old(Snapshot()).(hasDevice := false)
    {
      if hasDevice {
        hasDevice := false;
      }
    }

    /** finalize_wav_header. */
    method FinalizeWavHeader()
      modifies this
      ensures Snapshot() == FinalizeFile(old(Snapshot()))
    {
      if !hasFile {
        return;
      }
      header := Finalize(header, totalDataBytes);
      disk := disk[filePath := Overwrite(Contents(disk, filePath), Encode(header))];
    }

    /** Clear the recording flag and join the thread if the flag was set. */
    method SignalStopAndJoin()
      modifies this
      ensures Snapshot() == StopCapture(old(Snapshot()))
    {
      var wasRecording := isRecording;
      isRecording := false;
      if wasRecording && hasThread {
        JoinThread();
      }
    }

    /**
     * g_thread_join once the flag is clear: the thread's next iteration sees
     * the flag clear and returns, then the handle is dropped.  That iteration
     * exits before it reads the device, so the read passed to CaptureStep is
     * never consulted; any value would do.
     */
    method JoinThread()
      requires !isRecording
      modifies this
      ensures Snapshot() == Join(old(Snapshot()))
    {
      if threadRunning {
        var outcome := CaptureStep(ReadError);
        assert outcome == Exited;
      }
      hasThread := false;
    }

    method StartRecordingFile(path: string, connects: bool, opens: bool) returns (resp: Response)
      requires Valid()
      modifies this
      ensures Snapshot() == StartFile(old(Snapshot()), path, connects, opens).0
      ensures resp == StartFile(old(Snapshot()), path, connects, opens).1
      ensures Valid()
    {
      StartFileInv(Snapshot(), path, connects, opens);
      if isRecording {
        return Failure(AlreadyRecording);
      }
      hasDevice := connects;
      if !hasDevice {
        return Failure(PulseError);
      }
      resp := OpenOutputFile(path, opens);
    }

    /** Lines after the device connected: template header, fopen, placeholder header, start the thread. */
    method OpenOutputFile(path: string, opens: bool) returns (resp: Response)
      modifies this
      ensures Snapshot() == OpenOutput(old(Snapshot()), path, opens).0
      ensures resp == OpenOutput(old(Snapshot()), path, opens).1
    {
      header := InitWavHeader();
      filePath := path;
      hasFile := opens;
      if !hasFile {
        DisconnectFromPulse();
        return Failure(FileIoError);
      }
      disk := disk[filePath := Encode(header)];
      totalDataBytes := 0;
      isStreamMode := false;
      isRecording := true;
      isPaused := false;
      hasThread, threadRunning := true, true;
      return Success(NoValue);
    }

    method StopRecordingFile() returns (resp: Response)
      requires Valid()
      modifies this
      ensures Snapshot() == StopFile(old(Snapshot())).0
      ensures resp == StopFile(old(Snapshot())).1
      ensures Valid()
    {
      StopFileInv(Snapshot());
      SignalStopAndJoin();
      FinalizeWavHeader();
      if hasFile {
        hasFile := false;
      }
      DisconnectFromPulse();
      return Success(Str(filePath));
    }

    method StartRecordingStream(connects: bool) returns (resp: Response)
      requires Valid()
      modifies this
      ensures Snapshot() == StartStream(old(Snapshot()), connects).0
      ensures resp == StartStream(old(Snapshot()), connects).1
      ensures Valid()
    {
      StartStreamInv(Snapshot(), connects);
      if isRecording {
        return Failure(AlreadyRecording);
      }
      hasDevice := connects;
      if !hasDevice {
        return Failure(PulseError);
      }
      filePath := "";
      hasFile := false;
      totalDataBytes := 0;
      isStreamMode := true;
      isRecording := true;
      isPaused := false;
      hasThread, threadRunning := true, true;
      return Success(NoValue);
    }

    /** Both callers reach stop_recording_stream only in stream mode. */
    method StopRecordingStream() returns (resp: Response)
      requires Valid() && isStreamMode
      modifies this
      ensures Snapshot() == StopStream(old(Snapshot())).0
      ensures resp == StopStream(old(Snapshot())).1
      ensures Valid()
    {
      StopStreamInv(Snapshot());
      SignalStopAndJoin();
      DisconnectFromPulse();
      return Success(NoValue);
    }

    method CancelRecording() returns (resp: Response)
      requires Valid()
      modifies this
      ensures Snapshot() == Cancel(old(Snapshot())).0
      ensures resp == Cancel(old(Snapshot())).1
      ensures Valid()
    {
      CancelInv(Snapshot());
      var fileMode := !isStreamMode;
      if fileMode {
        resp := StopRecordingFile();
      } else {
        resp := StopRecordingStream();
      }
      if fileMode && filePath != "" {
        disk := disk - {filePath};
        filePath := "";
      }
    }

    method PauseRecording() returns (resp: Response)
      requires Valid()
      modifies this
      ensures Snapshot() == Pause(old(Snapshot())).0
      ensures resp == Pause(old(Snapshot())).1
      ensures Valid()
    {
      PauseResumeInv(Snapshot());
      if !isRecording {
        return Failure(NotRecording);
      }
      isPaused := true;
      return Success(NoValue);
    }

    method ResumeRecording() returns (resp: Response)
      requires Valid()
      modifies this
      ensures Snapshot() == Resume(old(Snapshot())).0
      ensures resp == Resume(old(Snapshot())).1
      ensures Valid()
    {
      PauseResumeInv(Snapshot());
      if !isRecording {
        return Failure(NotRecording);
      }
      isPaused := false;
      return Success(NoValue);
    }

    method DisposeRecorder() returns (resp: Response)
      requires Valid()
      modifies this
      ensures Snapshot() == Dispose(old(Snapshot())).0
      ensures resp == Dispose(old(Snapshot())).1
      ensures Valid()
    {
      DisposeInv(Snapshot());
      isRecording := false;
      if hasThread {
        JoinThread();
      }
      if hasFile {
        hasFile := false;
      }
      DisconnectFromPulse();
      return Success(NoValue);
    }

    method IsPausedFn() returns (paused: bool)
      ensures paused == isPaused
    {
      paused := isPaused;
    }

    /** Reports an active capture: recording and not paused. */
    method IsRecordingFn() returns (rec: bool)
      ensures rec <==> isRecording && !isPaused
    {
      rec := isRecording && !isPaused;
    }

    /** One iteration of record_thread_func; `read` is what pa_simple_read would deliver. */
    method CaptureStep(read: ReadResult) returns (outcome: StepOutcome)
      requires threadRunning && FrameFits(frameSize, read)
      modifies this
      ensures old(Valid()) ==> Valid()
      ensures Snapshot() == Step(old(Snapshot()), read).0
      ensures outcome == Step(old(Snapshot()), read).1
    {
      if Valid() {
        StepInv(Snapshot(), read);
      }
      var shouldRecord, paused, stream := isRecording, isPaused, isStreamMode;
      if !shouldRecord {
        threadRunning := false;
        return Exited;
      }
      if paused {
        return Parked;
      }
      if read.ReadError? {
        threadRunning := false;
        return ReadFailed;
      }
      if !stream {
        if hasFile {
          disk := disk[filePath := Contents(disk, filePath) + read.bytes];
          totalDataBytes := totalDataBytes + frameSize;
        }
      } else {
        outbox := outbox + [read.bytes];
      }
      return Captured;
    }

    /**
     * record_thread_func's loop against a scripted device: iterate while
     * iterations capture; stop at exit, read failure, a park, or the end of
     * the script.
     */
    method RecordThread(script: seq<ReadResult>) returns (iterations: nat)
      requires Valid() && forall i | 0 <= i < |script| :: FrameFits(frameSize, script[i])
      modifies this
      ensures Snapshot() == RunCapture(old(Snapshot()), script).0
      ensures iterations == RunCapture(old(Snapshot()), script).1
      ensures Valid()
    {
      var i := 0;
      var going := true;
      while going && i < |script| && threadRunning
        invariant 0 <= i <= |script|
        invariant Valid()
        invariant going ==>
          RunCapture(old(Snapshot()), script)
            == (RunCapture(Snapshot(), script[i..]).0, RunCapture(Snapshot(), script[i..]).1 + i)
        invariant !going ==> RunCapture(old(Snapshot()), script) == (Snapshot(), i)
        decreases |script| - i, going
      {
        ghost var before := Snapshot();
        if Step(before, script[i]).1 == Captured {
          RunCaptureCaptured(before, script[i..]);
          assert script[i..][1..] == script[i + 1..];
        }
        var outcome := CaptureStep(script[i]);
        i := i + 1;
        going := outcome == Captured;
      }
      iterations := i;
    }

    /** The channel's method-call handler. */
    method HandleMethodCall(name: string, arg: Arg, connects: bool, opens: bool) returns (resp: Response)
      requires Valid()
      modifies this
      ensures Snapshot() == Execute(old(Snapshot()), Route(name, arg, old(isStreamMode)), connects, opens).0
      ensures resp == Execute(old(Snapshot()), Route(name, arg, old(isStreamMode)), connects, opens).1
      ensures Valid()
    {
      ExecuteInv(Snapshot(), name, arg, connects, opens);
      var cmd := Route(name, arg, isStreamMode);
      match cmd {
        case Create => resp := Success(NoValue);
        case DisposeRecorder => resp := DisposeRecorder();
        case StartRecordingFile(path) => resp := StartRecordingFile(path, connects, opens);
        case BadArgument => resp := Failure(ArgumentError);
        case StopRecordingFile => resp := StopRecordingFile();
        case StartRecordingStream => resp := StartRecordingStream(connects);
        case StopRecordingStream => resp := StopRecordingStream();
        case CancelRecording => resp := CancelRecording();
        case PauseRecording => resp := PauseRecording();
        case ResumeRecording => resp := ResumeRecording();
        case ListInputDevices => resp := Success(DeviceList([]));
        case IsEncoderSupported(encoder) => resp := Success(Flag(EncoderSupported(encoder)));
        case GetAmplitude => resp := Success(Amplitude(-160.0, -160.0));
        case HasPermission => resp := Success(Flag(true));
        case IsPaused =>
          var paused := IsPausedFn();
          resp := Success(Flag(paused));
        case IsRecording =>
          var rec := IsRecordingFn();
          resp := Success(Flag(rec));
        case Unknown => resp := NotImplemented;
      }
    }
  }
}
