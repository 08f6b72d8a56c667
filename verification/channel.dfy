/**
 * The method-call handler of the "record_linux" channel: which operation a
 * method name selects, the argument checks made on the way, and the small
 * pure answers (encoder support and the fixed stubs).
 */
module Channel {
  import opened Wrappers
  import opened Session

  /** The argument of a method call, as far as the handler inspects it. */
  datatype Arg = NoArg | StringArg(s: string) | OtherArg

  datatype Command =
    | Create
    | DisposeRecorder
    | StartRecordingFile(path: string)
    | BadArgument
    | StopRecordingFile
    | StartRecordingStream
    | StopRecordingStream
    | CancelRecording
    | PauseRecording
    | ResumeRecording
    | ListInputDevices
    | IsEncoderSupported(encoder: Option<string>)
    | GetAmplitude
    | HasPermission
    | IsPaused
    | IsRecording
    | Unknown

  /** The method names the handler answers. */
  const MethodNames: set<string> := {
    "create", "dispose", "startRecordingFile", "stopRecordingFile", "startRecording",
    "stopRecording", "cancelRecording", "pauseRecording", "resumeRecording",
    "listInputDevices", "isEncoderSupported", "getAmplitude", "hasPermission",
    "isPaused", "isRecording"}

  /** A string argument, or null for anything else. */
  function StringOrNull(arg: Arg): (r: Option<string>)
    ensures r.Some? <==> arg.StringArg?
    ensures r.Some? ==> r.value == arg.s
  {
    if arg.StringArg? then Some(arg.s) else None
  }

  /** The handler's chain of name comparisons; stopRecording goes by the current mode. */
  function Route(name: string, arg: Arg, streamMode: bool): Command
  {
    if name == "create" then Create
    else if name == "dispose" then DisposeRecorder
    else if name == "startRecordingFile" then
      (if arg.StringArg? then StartRecordingFile(arg.s) else BadArgument)
    else if name == "stopRecordingFile" then StopRecordingFile
    else if name == "startRecording" then StartRecordingStream
    else if name == "stopRecording" then
      (if streamMode then StopRecordingStream else StopRecordingFile)
    else if name == "cancelRecording" then CancelRecording
    else if name == "pauseRecording" then PauseRecording
    else if name == "resumeRecording" then ResumeRecording
    else if name == "listInputDevices" then ListInputDevices
    else if name == "isEncoderSupported" then IsEncoderSupported(StringOrNull(arg))
    else if name == "getAmplitude" then GetAmplitude
    else if name == "hasPermission" then HasPermission
    else if name == "isPaused" then IsPaused
    else if name == "isRecording" then IsRecording
    else Unknown
  }

  /** is_encoder_supported: only the null-terminated name "wav" is supported. */
  function EncoderSupported(encoder: Option<string>): (supported: bool)
    ensures supported <==> encoder == Some("wav")
  {
    match encoder
    case None => false
    case Some(name) => name == "wav"
  }

  /** The response and new state of a routed command; the device and file outcomes are given. */
  function Execute(s: State, cmd: Command, connects: bool, opens: bool): (State, Response)
  {
    match cmd
    case Create => (s, Success(NoValue))
    case DisposeRecorder => Dispose(s)
    case StartRecordingFile(path) => StartFile(s, path, connects, opens)
    case BadArgument => (s, Failure(ArgumentError))
    case StopRecordingFile => StopFile(s)
    case StartRecordingStream => StartStream(s, connects)
    case StopRecordingStream => StopStream(s)
    case CancelRecording => Cancel(s)
    case PauseRecording => Pause(s)
    case ResumeRecording => Resume(s)
    case ListInputDevices => (s, Success(DeviceList([])))
    case IsEncoderSupported(encoder) => (s, Success(Flag(EncoderSupported(encoder))))
    case GetAmplitude => (s, Success(Amplitude(-160.0, -160.0)))
    case HasPermission => (s, Success(Flag(true)))
    case IsPaused => (s, Success(Flag(IsPausedQuery(s))))
    case IsRecording => (s, Success(Flag(IsRecordingQuery(s))))
    case Unknown => (s, NotImplemented)
  }

  /** Exactly the listed names are answered; any other name gets "not implemented". */
  lemma RouteKnownNames(name: string, arg: Arg, streamMode: bool)
    ensures Route(name, arg, streamMode) == Unknown <==> name !in MethodNames
  {
  }

  /** stopRecording stops the stream in stream mode and the file otherwise. */
  lemma RouteStopRecording(arg: Arg, streamMode: bool)
    ensures Route("stopRecording", arg, streamMode)
         == if streamMode then StopRecordingStream else StopRecordingFile
    ensures Route("stopRecordingFile", arg, streamMode) == StopRecordingFile
  {
  }

  /**
   * startRecordingFile needs a string path: anything else is answered with
   * argument_error and leaves the session as it was.
   */
  lemma StartFileArgumentCheck(s: State, arg: Arg, streamMode: bool, connects: bool, opens: bool)
    ensures arg.StringArg? ==> Route("startRecordingFile", arg, streamMode) == StartRecordingFile(arg.s)
    ensures !arg.StringArg? ==>
      Execute(s, Route("startRecordingFile", arg, streamMode), connects, opens) == (s, Failure(ArgumentError))
  {
  }

  /** Every command but the session operations leaves the session unchanged. */
  lemma QueriesChangeNothing(s: State, cmd: Command, connects: bool, opens: bool)
    requires !(cmd.DisposeRecorder? || cmd.StartRecordingFile? || cmd.StopRecordingFile?
               || cmd.StartRecordingStream? || cmd.StopRecordingStream? || cmd.CancelRecording?
               || cmd.PauseRecording? || cmd.ResumeRecording?)
    ensures Execute(s, cmd, connects, opens).0 == s
  {
  }

  /** Routed commands keep the session invariant. */
  lemma ExecuteInv(s: State, name: string, arg: Arg, connects: bool, opens: bool)
    requires Inv(s)
    ensures Inv(Execute(s, Route(name, arg, s.isStreamMode), connects, opens).0)
  {
    var cmd := Route(name, arg, s.isStreamMode);
    match cmd
    case DisposeRecorder => DisposeInv(s);
    case StartRecordingFile(path) => StartFileInv(s, path, connects, opens);
    case StopRecordingFile => StopFileInv(s);
    case StartRecordingStream => StartStreamInv(s, connects);
    case StopRecordingStream => StopStreamInv(s);
    case CancelRecording => CancelInv(s);
    case PauseRecording => PauseResumeInv(s);
    case ResumeRecording => PauseResumeInv(s);
    case _ =>
  }
}
