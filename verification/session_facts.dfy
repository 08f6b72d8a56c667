/**
 * What the plugin's operations promise, stated over the session model:
 * guarded starts and their failure paths, the capture loop's effect on the
 * byte count and the delivery queue, the effect of stop, cancel, dispose,
 * pause and resume, and whole recordings from start to stop.
 */
module SessionFacts {
  import opened Bytes
  import opened Wav
  import opened Session

  /** The bytes of a run of frames, in order. */
  function Flatten(frames: seq<seq<uint8>>): seq<uint8>
  {
    if frames == [] then [] else frames[0] + Flatten(frames[1..])
  }

  /** Every frame has the device's frame size. */
  predicate AllFrames(k: nat, frames: seq<seq<uint8>>)
  {
    forall i | 0 <= i < |frames| :: |frames[i]| == k
  }

  /** The device script that yields the given frames, one per read. */
  function Reads(frames: seq<seq<uint8>>): (r: seq<ReadResult>)
    ensures |r| == |frames|
    ensures forall i | 0 <= i < |frames| :: r[i] == Frame(frames[i])
  {
    if frames == [] then [] else [Frame(frames[0])] + Reads(frames[1..])
  }

  lemma {:induction false} FlattenLength(k: nat, frames: seq<seq<uint8>>)
    requires AllFrames(k, frames)
    ensures |Flatten(frames)| == |frames| * k
  {
    if frames != [] {
      FlattenLength(k, frames[1..]);
      assert |frames| * k == k + (|frames| - 1) * k;
    }
  }

  // ----- start ------------------------------------------------------------------

  /** Either start while recording is rejected and changes nothing. */
  lemma StartWhileRecording(s: State, path: string, connects: bool, opens: bool)
    requires s.isRecording
    ensures StartFile(s, path, connects, opens) == (s, Failure(AlreadyRecording))
    ensures StartStream(s, connects) == (s, Failure(AlreadyRecording))
  {
  }

  /** A device that does not connect aborts either start with nothing changed. */
  lemma StartDeviceFailure(s: State, path: string, opens: bool)
    requires Inv(s) && !s.isRecording
    ensures StartFile(s, path, false, opens) == (s, Failure(PulseError))
    ensures StartStream(s, false) == (s, Failure(PulseError))
  {
  }

  /**
   * A file that does not open disconnects the device and leaves the session
   * idle with no file written; the template header and the path have
   * already been stored.
   */
  lemma StartFileOpenFailure(s: State, path: string)
    requires Inv(s) && !s.isRecording
    ensures var (t, r) := StartFile(s, path, true, false);
      && r == Failure(FileIoError)
      && !t.isRecording && !t.hasDevice && !t.hasFile && !t.hasThread
      && t.disk == s.disk && t.outbox == s.outbox
      && t.filePath == path && t.header == InitWavHeader()
  {
  }

  /** A successful file start: recording, unpaused, counting from zero, placeholder header on disk. */
  lemma StartFileSuccess(s: State, path: string)
    requires Inv(s) && !s.isRecording
    ensures var (t, r) := StartFile(s, path, true, true);
      && r == Success(NoValue) && Inv(t)
      && t.isRecording && !t.isPaused && !t.isStreamMode
      && t.hasDevice && t.hasFile && t.hasThread && t.threadRunning
      && t.totalDataBytes == 0 && t.filePath == path
      && t.disk == s.disk[path := Encode(InitWavHeader())]
      && t.outbox == s.outbox
  {
    StartFileInv(s, path, true, true);
  }

  /** A successful stream start: recording in stream mode, no path, no file, no file written. */
  lemma StartStreamSuccess(s: State)
    requires Inv(s) && !s.isRecording
    ensures var (t, r) := StartStream(s, true);
      && r == Success(NoValue)
      && t.isRecording && !t.isPaused && t.isStreamMode
      && t.hasDevice && !t.hasFile && t.hasThread && t.threadRunning
      && t.totalDataBytes == 0 && t.filePath == ""
      && t.disk == s.disk && t.outbox == s.outbox
  {
  }

  // ----- one capture iteration ------------------------------------------------------

  /** When stopped or paused the iteration does not depend on the device: nothing is read. */
  lemma StepReadsNothingWhenIdleOrPaused(s: State, r1: ReadResult, r2: ReadResult)
    requires s.threadRunning && FrameFits(s.frameSize, r1) && FrameFits(s.frameSize, r2)
    requires !s.isRecording || s.isPaused
    ensures Step(s, r1) == Step(s, r2)
    ensures !s.isRecording ==> Step(s, r1) == (s.(threadRunning := false), Exited)
    ensures s.isRecording ==> Step(s, r1) == (s, Parked)
  {
  }

  /** In file mode a frame is appended to the open file and counted. */
  lemma StepFileFrame(s: State, bytes: seq<uint8>)
    requires s.threadRunning && |bytes| == s.frameSize
    requires s.isRecording && !s.isPaused && !s.isStreamMode && s.hasFile && s.filePath in s.disk
    ensures var (t, o) := Step(s, Frame(bytes));
      && o == Captured
      && t.totalDataBytes == s.totalDataBytes + s.frameSize
      && t.disk == s.disk[s.filePath := s.disk[s.filePath] + bytes]
      && t.outbox == s.outbox && t.threadRunning
  {
  }

  /** In stream mode a frame is queued for delivery after every earlier one, and not counted. */
  lemma StepStreamFrame(s: State, bytes: seq<uint8>)
    requires s.threadRunning && |bytes| == s.frameSize
    requires s.isRecording && !s.isPaused && s.isStreamMode
    ensures var (t, o) := Step(s, Frame(bytes));
      && o == Captured
      && t.totalDataBytes == s.totalDataBytes
      && t.outbox == s.outbox + [bytes] && |t.outbox[|s.outbox|]| == s.frameSize
      && t.disk == s.disk && t.threadRunning
  {
  }

  /**
   * A read failure ends the thread but leaves the recording flag and the
   * joinable handle in place, so the session still reports recording.
   */
  lemma StepReadFailure(s: State)
    requires Inv(s) && s.threadRunning && s.isRecording && !s.isPaused
    ensures var (t, o) := Step(s, ReadError);
      && o == ReadFailed
      && !t.threadRunning && t.hasThread && t.isRecording
      && IsRecordingQuery(t)
      && t == s.(threadRunning := false)
  {
  }

  /** Joining after the flag was cleared is the thread's last iteration. */
  lemma JoinIsLoopExit(s: State, read: ReadResult)
    requires s.threadRunning && !s.isRecording && FrameFits(s.frameSize, read)
    ensures Step(s, read) == (Join(s).(hasThread := s.hasThread), Exited)
  {
  }

  // ----- runs of the capture loop -----------------------------------------------------

  /** N frames in file mode: N*K more bytes, appended to the file in capture order. */
  lemma {:induction false} CaptureFileFrames(s: State, frames: seq<seq<uint8>>)
    requires s.threadRunning && AllFrames(s.frameSize, frames)
    requires s.isRecording && !s.isPaused && !s.isStreamMode && s.hasFile && s.filePath in s.disk
    ensures var (t, n) := RunCapture(s, Reads(frames));
      && n == |frames|
      && t == s.(totalDataBytes := s.totalDataBytes + |frames| * s.frameSize,
                 disk := s.disk[s.filePath := s.disk[s.filePath] + Flatten(frames)])
    decreases |frames|
  {
    var rs := Reads(frames);
    if frames != [] {
      var k, path := s.frameSize, s.filePath;
      var t := Step(s, rs[0]).0;
      StepFileFrame(s, frames[0]);
      assert rs[1..] == Reads(frames[1..]);
      assert AllFrames(t.frameSize, frames[1..]);
      CaptureFileFrames(t, frames[1..]);
      RunCaptureCaptured(s, rs);
      var u := RunCapture(s, rs).0;
      assert u == t.(totalDataBytes := t.totalDataBytes + (|frames| - 1) * k,
                     disk := t.disk[path := t.disk[path] + Flatten(frames[1..])]);
      MulStep(|frames|, k);
      assert u.totalDataBytes == s.totalDataBytes + |frames| * k;
      assert t.disk[path] + Flatten(frames[1..]) == s.disk[path] + Flatten(frames);
      assert u.disk == s.disk[path := s.disk[path] + Flatten(frames)];
    } else {
      assert s.disk[s.filePath] + Flatten(frames) == s.disk[s.filePath];
      assert s.disk[s.filePath := s.disk[s.filePath]] == s.disk;
    }
  }

  lemma ConsAppend<T>(a: seq<T>, xs: seq<T>)
    requires xs != []
    ensures a + [xs[0]] + xs[1..] == a + xs
  {
    assert xs == [xs[0]] + xs[1..];
  }

  lemma MulStep(n: nat, k: nat)
    requires n > 0
    ensures k + (n - 1) * k == n * k
  {
  }

  /** N frames in stream mode: exactly those frames queued in capture order, nothing counted. */
  lemma {:induction false} CaptureStreamFrames(s: State, frames: seq<seq<uint8>>)
    requires s.threadRunning && AllFrames(s.frameSize, frames)
    requires s.isRecording && !s.isPaused && s.isStreamMode
    ensures var (t, n) := RunCapture(s, Reads(frames));
      && n == |frames| && t.threadRunning
      && t == s.(outbox := s.outbox + frames)
    decreases |frames|
  {
    var rs := Reads(frames);
    if frames != [] {
      var t := Step(s, rs[0]).0;
      StepStreamFrame(s, frames[0]);
      assert t == s.(outbox := s.outbox + [frames[0]]);
      assert rs[1..] == Reads(frames[1..]);
      assert AllFrames(t.frameSize, frames[1..]);
      CaptureStreamFrames(t, frames[1..]);
      RunCaptureCaptured(s, rs);
      var u := RunCapture(s, rs).0;
      assert u == t.(outbox := t.outbox + frames[1..]);
      ConsAppend(s.outbox, frames);
    } else {
      assert s.outbox + frames == s.outbox;
    }
  }

  // ----- stop, cancel, dispose --------------------------------------------------------

  /** Stop joins and clears the thread only when it finds the recording flag set. */
  lemma StopJoinsOnlyWhenRecording(s: State)
    ensures var t := StopCapture(s);
      && !t.isRecording
      && (s.isRecording && s.hasThread ==> !t.hasThread && !t.threadRunning)
      && (!s.isRecording ==> t == s)
  {
  }

  /**
   * Stopping a file recording: idle, no file, device or thread, the header
   * finalized with the bytes counted since start and rewritten over the
   * placeholder, and the path returned.
   */
  lemma StopFileFinalizes(s: State)
    requires Inv(s) && s.isRecording && !s.isStreamMode
    ensures var (t, r) := StopFile(s);
      && r == Success(Str(s.filePath))
      && !t.isRecording && !t.hasFile && !t.hasDevice && !t.hasThread && !t.threadRunning
      && t.header == Finalize(InitWavHeader(), s.totalDataBytes)
      && t.header.dataSize == ToUint32(s.totalDataBytes)
      && t.disk == s.disk[s.filePath := Encode(t.header) + s.disk[s.filePath][HeaderSize..]]
      && Inv(t)
  {
    StopFileInv(s);
    var c := s.disk[s.filePath];
    var e := Encode(Finalize(InitWavHeader(), s.totalDataBytes));
    if |c| == HeaderSize {
      assert c[HeaderSize..] == [];
      assert e + c[HeaderSize..] == e;
    }
  }

  /** Stop on an idle session does nothing at all: no join, no header write, no change. */
  lemma StopWhenIdle(s: State)
    requires Inv(s) && !s.isRecording
    ensures StopFile(s) == (s, Success(Str(s.filePath)))
    ensures StopStream(s) == (s, Success(NoValue))
  {
  }

  /** A second stop is a no-op. */
  lemma StopTwice(s: State)
    requires Inv(s)
    ensures var t := StopFile(s).0; StopFile(t) == (t, Success(Str(t.filePath)))
    ensures s.isStreamMode ==> var t := StopStream(s).0; StopStream(t) == (t, Success(NoValue))
  {
    StopFileInv(s);
    StopWhenIdle(StopFile(s).0);
    if s.isStreamMode {
      StopStreamInv(s);
      StopWhenIdle(StopStream(s).0);
    }
  }

  /**
   * Cancel in file mode stops and then deletes the file at the path and
   * clears the path; every other file is left as stop left it.
   */
  lemma CancelFileRemovesFile(s: State)
    requires !s.isStreamMode && s.filePath != ""
    ensures var (t, r) := Cancel(s);
      var (u, r') := StopFile(s);
      && r == r' && t.filePath == "" && s.filePath !in t.disk
      && t.disk == u.disk - {s.filePath}
      && t == u.(disk := t.disk, filePath := "")
  {
    assert StopFile(s).0.filePath == s.filePath;
  }

  /** Cancel in stream mode is exactly stop_recording_stream: no file is touched. */
  lemma CancelStreamIsStop(s: State)
    requires Inv(s) && s.isStreamMode
    ensures Cancel(s) == StopStream(s)
    ensures Cancel(s).0.disk == s.disk
  {
  }

  /** Dispose stops everything and closes the file without writing the final header. */
  lemma DisposeDoesNotFinalize(s: State)
    requires Inv(s)
    ensures var (t, r) := Dispose(s);
      && r == Success(NoValue)
      && !t.isRecording && !t.hasFile && !t.hasDevice && !t.hasThread && !t.threadRunning
      && t.disk == s.disk && t.header == s.header && t.totalDataBytes == s.totalDataBytes
  {
  }

  // ----- pause, resume, queries --------------------------------------------------------

  lemma PauseResumeGuard(s: State)
    ensures !s.isRecording ==> Pause(s) == (s, Failure(NotRecording)) && Resume(s) == (s, Failure(NotRecording))
    ensures s.isRecording ==> Pause(s) == (s.(isPaused := true), Success(NoValue))
    ensures s.isRecording ==> Resume(s) == (s.(isPaused := false), Success(NoValue))
  {
  }

  /** A paused session reports paused and not recording; resume brings back "recording". */
  lemma QueriesAcrossPause(s: State)
    requires s.isRecording
    ensures IsPausedQuery(Pause(s).0) && !IsRecordingQuery(Pause(s).0)
    ensures !IsPausedQuery(Resume(Pause(s).0).0) && IsRecordingQuery(Resume(Pause(s).0).0)
  {
  }

  /** No operation but the start operations clears the pause flag: stop keeps it. */
  lemma StopKeepsPauseFlag(s: State)
    requires s.isPaused
    ensures IsPausedQuery(StopFile(s).0) && IsPausedQuery(StopStream(s).0)
    ensures IsPausedQuery(Dispose(s).0) && !IsRecordingQuery(StopFile(s).0)
  {
  }

  // ----- whole recordings --------------------------------------------------------------

  /**
   * Start a file recording, capture N frames of K bytes, stop: the file is
   * the finalized header followed by the frames in order, 44 + N*K bytes
   * long, with bytes 4..8 holding its length minus 8 and bytes 40..44 the
   * payload length.
   */
  lemma FileRecording(s: State, path: string, frames: seq<seq<uint8>>)
    requires Inv(s) && !s.isRecording && AllFrames(s.frameSize, frames)
    requires |frames| * s.frameSize + HeaderSize - 8 < TwoTo32
    ensures var s1 := StartFile(s, path, true, true).0;
      var s2 := RunCapture(s1, Reads(frames)).0;
      var s3 := StopFile(s2).0;
      && path in s3.disk
      && s3.disk[path] == Encode(Finalize(InitWavHeader(), |frames| * s.frameSize)) + Flatten(frames)
      && |s3.disk[path]| == HeaderSize + |frames| * s.frameSize
      && ReadLe32(s3.disk[path][4..8]) as int == |s3.disk[path]| - 8
      && ReadLe32(s3.disk[path][40..44]) as int == |frames| * s.frameSize
      && !s3.isRecording && !s3.hasFile && !s3.hasDevice && !s3.hasThread
  {
    var s1 := StartFile(s, path, true, true).0;
    StartFileSuccess(s, path);
    CaptureFileFrames(s1, frames);
    RunCaptureInv(s1, Reads(frames));
    var s2 := RunCapture(s1, Reads(frames)).0;
    StopFileFinalizes(s2);
    FlattenLength(s.frameSize, frames);
    assert s2.disk[path] == Encode(InitWavHeader()) + Flatten(frames);
    assert s2.disk[path][HeaderSize..] == Flatten(frames);
    FinalizedFileLengths(InitWavHeader(), Flatten(frames));
  }

  /**
   * Start streaming, capture N frames, stop: exactly those N chunks, each K
   * bytes, were queued in capture order, and no file was touched.
   */
  lemma StreamRecording(s: State, frames: seq<seq<uint8>>)
    requires Inv(s) && !s.isRecording && AllFrames(s.frameSize, frames)
    ensures var s1 := StartStream(s, true).0;
      var s2 := RunCapture(s1, Reads(frames)).0;
      var s3 := StopStream(s2).0;
      && s3.outbox == s.outbox + frames
      && (forall i | |s.outbox| <= i < |s3.outbox| :: |s3.outbox[i]| == s.frameSize)
      && s3.disk == s.disk
      && !s3.isRecording && !s3.hasDevice && !s3.hasThread
  {
    var s1 := StartStream(s, true).0;
    CaptureStreamFrames(s1, frames);
  }

  /** Cancelling a file recording after any number of frames leaves nothing at its path. */
  lemma CancelledRecordingLeavesNoFile(s: State, path: string, frames: seq<seq<uint8>>)
    requires Inv(s) && !s.isRecording && AllFrames(s.frameSize, frames) && path != ""
    ensures var s1 := StartFile(s, path, true, true).0;
      var s2 := RunCapture(s1, Reads(frames)).0;
      var s3 := Cancel(s2).0;
      && path !in s3.disk && s3.filePath == "" && !s3.isRecording
      && (forall p | p != path :: p in s3.disk <==> p in s.disk)
  {
    var s1 := StartFile(s, path, true, true).0;
    StartFileSuccess(s, path);
    CaptureFileFrames(s1, frames);
    var s2 := RunCapture(s1, Reads(frames)).0;
    CancelFileRemovesFile(s2);
  }

  lemma SumMul(x: nat, y: nat, k: nat)
    ensures x * k + y * k == (x + y) * k
  {
  }

  /** A run that starts on a paused session parks at its first iteration. */
  lemma RunCaptureParks(s: State, r: ReadResult)
    requires s.threadRunning && s.isRecording && s.isPaused && FrameFits(s.frameSize, r)
    ensures RunCapture(s, [r]) == (s, 1)
  {
  }

  /**
   * The thread captures frames a, the controller pauses, the thread parks
   * on its next iteration, the controller resumes, the thread captures
   * frames b.
   */
  function PauseResumeRun(s: State, a: seq<seq<uint8>>, r: ReadResult, b: seq<seq<uint8>>): State
    requires AllFrames(s.frameSize, a) && AllFrames(s.frameSize, b) && FrameFits(s.frameSize, r)
  {
    var s2 := RunCapture(s, Reads(a)).0;
    var s3 := Pause(s2).0;
    var s4 := RunCapture(s3, [r]).0;
    var s5 := Resume(s4).0;
    RunCapture(s5, Reads(b)).0
  }

  /**
   * In file mode, frames a, a pause during which the thread parks, a resume,
   * frames b: the file grows by a then b and each frame is counted once.
   */
  lemma PauseResumeFileRun(s: State, a: seq<seq<uint8>>, b: seq<seq<uint8>>, r: ReadResult)
    requires s.threadRunning && AllFrames(s.frameSize, a) && AllFrames(s.frameSize, b)
    requires FrameFits(s.frameSize, r)
    requires s.isRecording && !s.isPaused && !s.isStreamMode && s.hasFile && s.filePath in s.disk
    ensures var t := PauseResumeRun(s, a, r, b);
      && t.totalDataBytes == s.totalDataBytes + |Flatten(a) + Flatten(b)|
      && t.disk == s.disk[s.filePath := s.disk[s.filePath] + Flatten(a) + Flatten(b)]
      && t == s.(totalDataBytes := t.totalDataBytes, disk := t.disk)
  {
    var k, path := s.frameSize, s.filePath;
    var fa, fb := Flatten(a), Flatten(b);
    var s2 := s.(totalDataBytes := s.totalDataBytes + |fa|,
                 disk := s.disk[path := s.disk[path] + fa]);
    assert RunCapture(s, Reads(a)).0 == s2 by { CaptureFileFrames(s, a); FlattenLength(k, a); }
    var s3 := s2.(isPaused := true);
    assert Pause(s2).0 == s3;
    assert RunCapture(s3, [r]).0 == s3 by { RunCaptureParks(s3, r); }
    assert Resume(s3).0 == s2;
    var s6 := s2.(totalDataBytes := s.totalDataBytes + |fa| + |fb|,
                  disk := s2.disk[path := s2.disk[path] + fb]);
    assert RunCapture(s2, Reads(b)).0 == s6 by { CaptureFileFrames(s2, b); FlattenLength(k, b); }
    assert PauseResumeRun(s, a, r, b) == s6;
  }

  /**
   * Pause and resume in the middle of a file recording lose and duplicate no
   * frame: the file holds the placeholder, then a, then b, and each frame is
   * counted once.
   */
  lemma PauseResumeFileKeepsFrames(s: State, path: string, a: seq<seq<uint8>>, b: seq<seq<uint8>>, r: ReadResult)
    requires Inv(s) && !s.isRecording
    requires AllFrames(s.frameSize, a) && AllFrames(s.frameSize, b) && FrameFits(s.frameSize, r)
    ensures var t := PauseResumeRun(StartFile(s, path, true, true).0, a, r, b);
      && path in t.disk
      && t.disk[path] == Encode(InitWavHeader()) + Flatten(a) + Flatten(b)
      && t.totalDataBytes == (|a| + |b|) * s.frameSize
      && t.isRecording && !t.isPaused && t.threadRunning
  {
    var s1 := StartFile(s, path, true, true).0;
    StartFileSuccess(s, path);
    PauseResumeFileRun(s1, a, b, r);
    var t := PauseResumeRun(s1, a, r, b);
    assert t.totalDataBytes == (|a| + |b|) * s.frameSize by {
      FlattenLength(s.frameSize, a);
      FlattenLength(s.frameSize, b);
      SumMul(|a|, |b|, s.frameSize);
    }
  }

  /**
   * The same for a stream recording: the chunks queued are a followed by b,
   * each exactly once, and no file is touched.
   */
  lemma PauseResumeStreamKeepsFrames(s: State, a: seq<seq<uint8>>, b: seq<seq<uint8>>, r: ReadResult)
    requires Inv(s) && !s.isRecording
    requires AllFrames(s.frameSize, a) && AllFrames(s.frameSize, b) && FrameFits(s.frameSize, r)
    ensures var t := PauseResumeRun(StartStream(s, true).0, a, r, b);
      && t.outbox == s.outbox + a + b
      && t.disk == s.disk && t.totalDataBytes == 0
      && t.isRecording && !t.isPaused && t.threadRunning
  {
    var s1 := StartStream(s, true).0;
    var s2 := s1.(outbox := s.outbox + a);
    assert RunCapture(s1, Reads(a)).0 == s2 by { CaptureStreamFrames(s1, a); }
    var s3 := s2.(isPaused := true);
    assert Pause(s2).0 == s3;
    assert RunCapture(s3, [r]).0 == s3 by { RunCaptureParks(s3, r); }
    assert Resume(s3).0 == s2;
    assert RunCapture(s2, Reads(b)).0 == s2.(outbox := s.outbox + a + b) by { CaptureStreamFrames(s2, b); }
  }

  /**
   * start_recording_file stores the path before fopen, and cancel removes
   * whatever is at the stored path: a file start whose open fails, followed
   * by a cancel in file mode, deletes the file that was already there.  In
   * stream mode (the mode of the previous session, which a failed open does
   * not reset) the cancel goes to stop_recording_stream and deletes nothing.
   */
  lemma FailedOpenThenCancel(s: State, path: string)
    requires Inv(s) && !s.isRecording && path != ""
    ensures var t := Cancel(StartFile(s, path, true, false).0).0;
      && (!s.isStreamMode ==> t.disk == s.disk - {path} && path !in t.disk && t.filePath == "")
      && (s.isStreamMode ==> t.disk == s.disk && t.filePath == path)
  {
    StartFileOpenFailure(s, path);
  }
}
