/**
 * The recording session of the Linux plugin as a value: every field the
 * plugin object updates, and one pure transition function per public
 * operation and per iteration of the capture thread.  The class in module
 * Plugin performs the same steps in place and is proved to agree with these
 * functions.
 *
 * External effects are parameters or fields: whether the audio device
 * connects and whether the output file opens are booleans passed in; the
 * file system is a map from path to contents; chunks handed to the main loop
 * for delivery are an ordered queue.
 */
module Session {
  import opened Bytes
  import opened Wav

  datatype ErrorCode = AlreadyRecording | NotRecording | PulseError | FileIoError | ArgumentError

  /** The payload of a successful method response. */
  datatype Value =
    | NoValue
    | Str(s: string)
    | Flag(b: bool)
    | DeviceList(names: seq<string>)
    | Amplitude(current: real, max: real)

  datatype Response = Success(value: Value) | Failure(code: ErrorCode) | NotImplemented

  /** What one read of the capture device returns. */
  datatype ReadResult = Frame(bytes: seq<uint8>) | ReadError

  /** How one iteration of the capture loop ends. */
  datatype StepOutcome =
    | Exited     // the recording flag was clear: the thread returns
    | Parked     // paused: the thread waits on the pause condition, reading nothing
    | Captured   // one frame read and routed to the active sink
    | ReadFailed // the device read failed: the thread returns

  datatype State = State(
    frameSize: nat,         // K_BUFFER_SIZE, the bytes of one device read
    isRecording: bool,
    isPaused: bool,
    isStreamMode: bool,
    hasDevice: bool,        // pa_handle is non-null
    hasFile: bool,          // file_handle is non-null
    hasThread: bool,        // record_thread_handle is non-null (a joinable thread)
    threadRunning: bool,    // that thread has not yet returned from its loop
    filePath: string,
    totalDataBytes: nat,
    header: WavHeader,
    disk: map<string, seq<uint8>>,
    outbox: seq<seq<uint8>>) // chunks queued for delivery on the main loop, oldest first

  /** The state right after instance init: everything cleared. */
  function Initial(frameSize: nat, disk: map<string, seq<uint8>>): State
  {
    State(frameSize, false, false, false, false, false, false, false, "", 0, ZeroHeader, disk, [])
  }

  /** The current contents of the file at a path (empty when there is none). */
  function Contents(disk: map<string, seq<uint8>>, path: string): seq<uint8>
  {
    if path in disk then disk[path] else []
  }

  /** Writing `prefix` at offset 0 of a file holding `c`. */
  function Overwrite(c: seq<uint8>, prefix: seq<uint8>): (r: seq<uint8>)
    ensures |r| == if |c| <= |prefix| then |prefix| else |c|
    ensures r[..|prefix|] == prefix
  {
    if |c| <= |prefix| then prefix else prefix + c[|prefix|..]
  }

  /** A device read returns a whole frame or nothing. */
  predicate FrameFits(k: nat, r: ReadResult)
  {
    r.Frame? ==> |r.bytes| == k
  }

  /**
   * The session invariant: the recording flag, the thread handle and the
   * device handle go together; a file is open exactly in file mode while
   * recording, and then holds a header's worth of bytes followed by
   * totalDataBytes bytes of payload while the header field keeps the
   * template; stream mode has no path.
   */
  ghost predicate Inv(s: State)
  {
    && (s.hasThread <==> s.isRecording)
    && (s.hasDevice <==> s.isRecording)
    && (s.hasFile <==> s.isRecording && !s.isStreamMode)
    && (s.threadRunning ==> s.hasThread)
    && (s.isRecording && s.isStreamMode ==> s.filePath == "")
    && (s.hasFile ==>
          && s.filePath in s.disk
          && |s.disk[s.filePath]| == HeaderSize + s.totalDataBytes
          && s.header == InitWavHeader())
  }

  // ----- the start operations -----------------------------------------------

  /** start_recording_file. */
  function StartFile(s: State, path: string, connects: bool, opens: bool): (State, Response)
  {
    if s.isRecording then (s, Failure(AlreadyRecording))
    else if !connects then (s.(hasDevice := false), Failure(PulseError))
    else OpenOutput(s.(hasDevice := true), path, opens)
  }

  /** The part of start_recording_file after the device connected: template, open, placeholder, go. */
  function OpenOutput(s: State, path: string, opens: bool): (State, Response)
  {
    var s1 := s.(header := InitWavHeader(), filePath := path, hasFile := opens);
    if !opens then (s1.(hasDevice := false), Failure(FileIoError))
    else
      (s1.(disk := s1.disk[path := Encode(s1.header)],
           totalDataBytes := 0, isStreamMode := false,
           isRecording := true, isPaused := false, hasThread := true, threadRunning := true),
       Success(NoValue))
  }

  /** start_recording_stream. */
  function StartStream(s: State, connects: bool): (State, Response)
  {
    if s.isRecording then (s, Failure(AlreadyRecording))
    else if !connects then (s.(hasDevice := false), Failure(PulseError))
    else
      (s.(hasDevice := true, filePath := "", hasFile := false, totalDataBytes := 0,
          isStreamMode := true, isRecording := true, isPaused := false,
          hasThread := true, threadRunning := true),
       Success(NoValue))
  }

  // ----- the capture thread ---------------------------------------------------

  /** One iteration of record_thread_func's loop; `read` is what the device returns if it is read. */
  function Step(s: State, read: ReadResult): (r: (State, StepOutcome))
    requires s.threadRunning && FrameFits(s.frameSize, read)
    ensures r.0.frameSize == s.frameSize
  {
    if !s.isRecording then (s.(threadRunning := false), Exited)
    else if s.isPaused then (s, Parked)
    else match read
      case ReadError => (s.(threadRunning := false), ReadFailed)
      case Frame(bytes) =>
        if !s.isStreamMode then
          if s.hasFile then
            (s.(disk := s.disk[s.filePath := Contents(s.disk, s.filePath) + bytes],
                totalDataBytes := s.totalDataBytes + s.frameSize),
             Captured)
          else (s, Captured)
        else (s.(outbox := s.outbox + [bytes]), Captured)
  }

  /**
   * The loop run against a scripted device with no controller call in
   * between: iterations go on while they capture, and the count of
   * iterations taken is returned.  A Parked iteration blocks the thread, so
   * the run ends there too.
   */
  function RunCapture(s: State, script: seq<ReadResult>): (r: (State, nat))
    requires forall i | 0 <= i < |script| :: FrameFits(s.frameSize, script[i])
    ensures r.0.frameSize == s.frameSize && r.1 <= |script|
    decreases |script|
  {
    if script == [] || !s.threadRunning then (s, 0)
    else
      var (t, o) := Step(s, script[0]);
      if o != Captured then (t, 1)
      else
        var (u, n) := RunCapture(t, script[1..]);
        (u, n + 1)
  }

  /** Unfolding RunCapture over an iteration that captured. */
  lemma RunCaptureCaptured(s: State, script: seq<ReadResult>)
    requires script != [] && s.threadRunning
    requires forall i | 0 <= i < |script| :: FrameFits(s.frameSize, script[i])
    requires Step(s, script[0]).1 == Captured
    ensures var t := Step(s, script[0]).0;
      RunCapture(s, script) == (RunCapture(t, script[1..]).0, RunCapture(t, script[1..]).1 + 1)
  {
  }

  /** g_thread_join after the flag was cleared: the thread's next iteration exits. */
  function Join(s: State): State
  {
    s.(threadRunning := false, hasThread := false)
  }

  // ----- the stop operations ---------------------------------------------------

  /** Clears the flag and joins the thread only if it was set. */
  function StopCapture(s: State): State
  {
    var wasRecording := s.isRecording;
    var s1 := s.(isRecording := false);
    if wasRecording && s1.hasThread then Join(s1) else s1
  }

  /** finalize_wav_header: patch and rewrite the header if a file is open. */
  function FinalizeFile(s: State): State
  {
    if !s.hasFile then s
    else
      var h := Finalize(s.header, s.totalDataBytes);
      s.(header := h, disk := s.disk[s.filePath := Overwrite(Contents(s.disk, s.filePath), Encode(h))])
  }

  /** stop_recording_file. */
  function StopFile(s: State): (State, Response)
  {
    var s1 := FinalizeFile(StopCapture(s)).(hasFile := false, hasDevice := false);
    (s1, Success(Str(s1.filePath)))
  }

  /** stop_recording_stream. */
  function StopStream(s: State): (State, Response)
  {
    (StopCapture(s).(hasDevice := false), Success(NoValue))
  }

  /** cancel_recording: stop in the current mode, then in file mode delete the file. */
  function Cancel(s: State): (State, Response)
  {
    var fileMode := !s.isStreamMode;
    var (s1, resp) := if fileMode then StopFile(s) else StopStream(s);
    if fileMode && s1.filePath != "" then
      (s1.(disk := s1.disk - {s1.filePath}, filePath := ""), resp)
    else (s1, resp)
  }

  /** dispose_recorder: clear the flag, join any thread, close without finalizing. */
  function Dispose(s: State): (State, Response)
  {
    var s1 := s.(isRecording := false);
    var s2 := if s1.hasThread then Join(s1) else s1;
    (s2.(hasFile := false, hasDevice := false), Success(NoValue))
  }

  // ----- pause, resume and the queries ------------------------------------------

  function Pause(s: State): (State, Response)
  {
    if !s.isRecording then (s, Failure(NotRecording)) else (s.(isPaused := true), Success(NoValue))
  }

  function Resume(s: State): (State, Response)
  {
    if !s.isRecording then (s, Failure(NotRecording)) else (s.(isPaused := false), Success(NoValue))
  }

  function IsPausedQuery(s: State): bool
  {
    s.isPaused
  }

  function IsRecordingQuery(s: State): bool
  {
    s.isRecording && !s.isPaused
  }

  // ----- the invariant is kept by every transition -------------------------------

  lemma InitialInv(k: nat, disk: map<string, seq<uint8>>)
    ensures Inv(Initial(k, disk))
  {
  }

  lemma StartFileInv(s: State, path: string, connects: bool, opens: bool)
    requires Inv(s)
    ensures Inv(StartFile(s, path, connects, opens).0)
  {
  }

  lemma StartStreamInv(s: State, connects: bool)
    requires Inv(s)
    ensures Inv(StartStream(s, connects).0)
  {
  }

  lemma StepInv(s: State, read: ReadResult)
    requires Inv(s) && s.threadRunning && FrameFits(s.frameSize, read)
    ensures Inv(Step(s, read).0)
  {
  }

  lemma RunCaptureInv(s: State, script: seq<ReadResult>)
    requires Inv(s) && forall i | 0 <= i < |script| :: FrameFits(s.frameSize, script[i])
    ensures Inv(RunCapture(s, script).0)
    decreases |script|
  {
    if script != [] && s.threadRunning {
      StepInv(s, script[0]);
      var (t, o) := Step(s, script[0]);
      if o == Captured {
        RunCaptureInv(t, script[1..]);
      }
    }
  }

  lemma StopFileInv(s: State)
    requires Inv(s)
    ensures Inv(StopFile(s).0)
  {
  }

  /** Its two callers invoke stop_recording_stream only in stream mode. */
  lemma StopStreamInv(s: State)
    requires Inv(s) && s.isStreamMode
    ensures Inv(StopStream(s).0)
  {
  }

  lemma CancelInv(s: State)
    requires Inv(s)
    ensures Inv(Cancel(s).0)
  {
  }

  lemma DisposeInv(s: State)
    requires Inv(s)
    ensures Inv(Dispose(s).0)
  {
  }

  lemma PauseResumeInv(s: State)
    requires Inv(s)
    ensures Inv(Pause(s).0) && Inv(Resume(s).0)
  {
  }
}
