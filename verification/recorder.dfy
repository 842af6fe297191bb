/**
 The recording-and-transcription state machine of the Recorder component, lifted
 out of React: one immutable state record, the events that drive it (user actions,
 browser callbacks and settled network requests), and a pure `Step` that applies
 one event and reports the outbound effects it issues.

 The handlers follow the component's own functions: `sendToBackend`,
 `handleFileUpload`, `generateNotes`, `startRecording` (with its `ondataavailable`
 and `onstop` callbacks) and `stopRecording`.
 */
module Recorder {
  import opened Wrappers
  import opened Media

  // The messages written into the single error slot.
  const UnsupportedMessage: string := "Microphone access is not supported in this browser."
  const MicrophoneMessage: string := "Could not access microphone. Please check permissions."
  const TranscribeMessage: string := "Failed to send to backend. Is it running?"
  const UploadMessage: string := "Failed to upload file. Is it an audio file?"
  const NotesMessage: string := "Failed to generate notes. Is Ollama running?"

  /** The file name a recording is posted under. */
  const RecordingFilename: string := "recording.webm"

  /** An object URL, as a token naming what it points at. */
  datatype AudioUrl = RecordingUrl(blob: Blob) | FileUrl(file: AudioFile)

  /**
   What the stream reference holds: nothing yet, a stream whose tracks still
   capture, or a stream whose tracks have been stopped.
   */
  datatype StreamRef = NoStream | Live | Stopped

  /**
   The component's state slots and refs. `hasRecorder` says a MediaRecorder has
   been stored in its ref (and so its two callbacks are installed);
   `orphanedStreams` counts microphone streams still capturing that the stream
   ref no longer points at, because a later acquisition overwrote it.
   */
  datatype State = State(
    isRecording: bool,
    audioURL: Option<AudioUrl>,
    error: Option<string>,
    transcript: Option<string>,
    isLoading: bool,
    notes: Option<string>,
    isGeneratingNotes: bool,
    hasRecorder: bool,
    chunks: seq<seq<byte>>,
    stream: StreamRef,
    orphanedStreams: nat)

  /** The state at mount: every slot empty, every flag down. */
  const Init: State := State(false, None, None, None, false, None, false, false, [], NoStream, 0)

  /** How a network request settled: a reply carrying the text field, or any failure. */
  datatype Reply = Ok(text: string) | Err

  /** The point inside `startRecording`'s try block at which it threw. */
  datatype StartFailure =
    | PermissionRefused      // getUserMedia rejected: no stream was obtained
    | RecorderRejected       // the MediaRecorder constructor threw after the stream was stored
    | RecorderStartThrew     // mediaRecorder.start() threw after the recorder was stored

  datatype Event =
    | StartUnsupported                         // no mediaDevices.getUserMedia in this browser
    | StartFailed(at: StartFailure)
    | StartOk                                  // stream obtained, warm-up over, recorder started
    | ChunkArrived(data: seq<byte>)            // ondataavailable
    | StopPressed
    | RecorderFlushed                          // onstop
    | TranscribeSettled(reply: Reply)
    | UploadSelected(file: Option<AudioFile>)
    | UploadSettled(reply: Reply)
    | GenerateRequested
    | NotesSettled(reply: Reply)

  /** Outbound effects: the recorder stop call and the three POST requests. */
  datatype Effect =
    | StopRecorder
    | PostTranscribe(audio: Blob, filename: string)
    | PostUpload(file: AudioFile)
    | PostGenerateNotes(transcript: string)

  datatype Transition = Transition(next: State, effects: seq<Effect>)

  /** JavaScript truthiness of an optional string: present and not empty. */
  predicate Truthy(s: Option<string>) {
    s.Some? && s.value != ""
  }

  /** Microphone streams whose tracks are still capturing. */
  function LiveStreams(s: State): nat {
    s.orphanedStreams + (if s.stream == Live then 1 else 0)
  }

  /** The facts about refs and buffers that every reachable state satisfies. */
  predicate Inv(s: State) {
    && (s.isRecording ==> s.hasRecorder)
    && (s.hasRecorder ==> s.stream != NoStream)
    && (!s.hasRecorder ==> s.chunks == [])
    && (s.stream == NoStream ==> s.orphanedStreams == 0)
  }

  /** A new stream is stored in the stream ref; a stream it held that still captures is orphaned. */
  function Acquire(s: State): State {
    s.(stream := Live, orphanedStreams := LiveStreams(s))
  }

  /** Stops the tracks of the stream in the ref, if there is one. */
  function ReleaseStream(s: State): State {
    if s.stream == Live then s.(stream := Stopped) else s
  }

  function SendToBackend(s: State, audio: Blob): Transition {
    Transition(s.(isLoading := true, transcript := None), [PostTranscribe(audio, RecordingFilename)])
  }

  function TranscribeSettle(s: State, reply: Reply): State {
    match reply
    case Ok(text) => s.(transcript := Some(text), isLoading := false)
    case Err => s.(error := Some(TranscribeMessage), isLoading := false)
  }

  function HandleFileUpload(s: State, file: Option<AudioFile>): Transition {
    match file
    case None => Transition(s, [])
    case Some(f) =>
      Transition(s.(isLoading := true, transcript := None, notes := None, audioURL := Some(FileUrl(f))),
                 [PostUpload(f)])
  }

  function UploadSettle(s: State, reply: Reply): State {
    match reply
    case Ok(text) => s.(transcript := Some(text), error := None, isLoading := false)
    case Err => s.(error := Some(UploadMessage), isLoading := false)
  }

  function GenerateNotes(s: State): Transition {
    if !Truthy(s.transcript) then Transition(s, [])
    else Transition(s.(isGeneratingNotes := true, notes := None), [PostGenerateNotes(s.transcript.value)])
  }

  function NotesSettle(s: State, reply: Reply): State {
    match reply
    case Ok(text) => s.(notes := Some(text), isGeneratingNotes := false)
    case Err => s.(error := Some(NotesMessage), isGeneratingNotes := false)
  }

  /** The catch block of `startRecording`, after whatever the try block had already stored. */
  function StartFailedAt(s: State, at: StartFailure): State {
    match at
    case PermissionRefused => s.(error := Some(MicrophoneMessage))
    case RecorderRejected => Acquire(s).(error := Some(MicrophoneMessage))
    case RecorderStartThrew => Acquire(s).(hasRecorder := true, error := Some(MicrophoneMessage))
  }

  function StartRecording(s: State): State {
    Acquire(s).(hasRecorder := true, isRecording := true, error := None, transcript := None, notes := None)
  }

  function StopRecording(s: State): Transition {
    if s.hasRecorder then Transition(s.(isRecording := false), [StopRecorder]) else Transition(s, [])
  }

  function OnDataAvailable(s: State, data: seq<byte>): State {
    if s.hasRecorder then s.(chunks := s.chunks + [data]) else s
  }

  /** The `onstop` callback: join the chunks, show them, send them, empty the buffer, free the microphone. */
  function OnStop(s: State): Transition {
    if !s.hasRecorder then Transition(s, [])
    else
      var blob := Blob(Flatten(s.chunks), WebmType);
      var sent := SendToBackend(s.(audioURL := Some(RecordingUrl(blob))), blob);
      Transition(ReleaseStream(sent.next.(chunks := [])), sent.effects)
  }

  /** Applies one event. Every event issues at most one effect, and the invariant is kept. */
  function Step(s: State, e: Event): (r: Transition)
    ensures Inv(s) ==> Inv(r.next)
    ensures |r.effects| <= 1
  {
    match e
    case StartUnsupported => Transition(s.(error := Some(UnsupportedMessage)), [])
    case StartFailed(at) => Transition(StartFailedAt(s, at), [])
    case StartOk => Transition(StartRecording(s), [])
    case ChunkArrived(data) => Transition(OnDataAvailable(s, data), [])
    case StopPressed => StopRecording(s)
    case RecorderFlushed => OnStop(s)
    case TranscribeSettled(reply) => Transition(TranscribeSettle(s, reply), [])
    case UploadSelected(file) => HandleFileUpload(s, file)
    case UploadSettled(reply) => Transition(UploadSettle(s, reply), [])
    case GenerateRequested => GenerateNotes(s)
    case NotesSettled(reply) => Transition(NotesSettle(s, reply), [])
  }
}
