/**
 What one event does to the Recorder state: one lemma per handler, each stating
 the fields it sets, the request it issues and everything it leaves alone; then
 the rules that cut across handlers (the single error slot, stage isolation), and
 the guarantees the component does NOT give, stated as the facts that hold instead.
 */
module Properties {
  import opened Wrappers
  import opened Media
  import opened Recorder

  /** The capture side of the state: recording flag, recorder ref, buffer and microphone. */
  predicate CaptureUnchanged(s: State, t: State) {
    && t.isRecording == s.isRecording
    && t.hasRecorder == s.hasRecorder
    && t.chunks == s.chunks
    && t.stream == s.stream
    && t.orphanedStreams == s.orphanedStreams
  }

  /** The two stage results. */
  predicate ResultsUnchanged(s: State, t: State) {
    t.transcript == s.transcript && t.notes == s.notes
  }

  /** The events that end in the catch block of some handler. */
  predicate Fails(e: Event) {
    || e == StartUnsupported
    || e.StartFailed?
    || (e.TranscribeSettled? && e.reply == Err)
    || (e.UploadSettled? && e.reply == Err)
    || (e.NotesSettled? && e.reply == Err)
  }

  // ---------------------------------------------------------------- generateNotes

  /** Without a (non-empty) transcript, asking for notes changes nothing and sends nothing. */
  lemma GenerateWithoutTranscript(s: State)
    requires !Truthy(s.transcript)
    ensures Step(s, GenerateRequested) == Transition(s, [])
  {}

  /**
   With a transcript, asking for notes raises the busy flag, clears the old notes and
   posts exactly that transcript; the transcript, the error and the capture side stay.
   */
  lemma GenerateWithTranscript(s: State)
    requires Truthy(s.transcript)
    ensures var r := Step(s, GenerateRequested);
      && r.effects == [PostGenerateNotes(s.transcript.value)]
      && r.next.isGeneratingNotes
      && r.next.notes == None
      && r.next.transcript == s.transcript
      && r.next.error == s.error
      && r.next.isLoading == s.isLoading
      && CaptureUnchanged(s, r.next)
  {}

  /** A notes request goes out exactly when the transcript is truthy. */
  lemma GenerateSendsIffTranscript(s: State)
    ensures Step(s, GenerateRequested).effects != [] <==> Truthy(s.transcript)
    ensures forall f :: f in Step(s, GenerateRequested).effects ==> f == PostGenerateNotes(s.transcript.value)
  {}

  // ---------------------------------------------------------------- startRecording

  /**
   A successful start stores a fresh stream and a recorder, raises the recording
   flag, and clears the error and both stale results. The chunk buffer and the
   stage busy flags are left as they were.
   */
  lemma StartClearsStaleResults(s: State)
    ensures var n := Step(s, StartOk).next;
      && Step(s, StartOk).effects == []
      && n.isRecording && n.hasRecorder && n.stream == Live
      && n.error == None && n.transcript == None && n.notes == None
      && n.chunks == s.chunks
      && n.isLoading == s.isLoading && n.isGeneratingNotes == s.isGeneratingNotes
      && n.audioURL == s.audioURL
      && LiveStreams(n) == LiveStreams(s) + 1
  {}

  /**
   The unsupported-browser path and a refused permission write their message into
   the error slot and touch nothing else.
   */
  lemma StartRefusedOnlySetsError(s: State)
    ensures Step(s, StartUnsupported) == Transition(s.(error := Some(UnsupportedMessage)), [])
    ensures Step(s, StartFailed(PermissionRefused)) == Transition(s.(error := Some(MicrophoneMessage)), [])
  {}

  /**
   Every start failure leaves the recording flag, both results, the stage flags,
   the audio URL and the buffer as they were, and writes the microphone message.
   When it happened after the stream was obtained, that stream is stored and is
   still capturing.
   */
  lemma StartFailureKeepsResults(s: State, at: StartFailure)
    ensures var r := Step(s, StartFailed(at));
      && r.effects == []
      && r.next.error == Some(MicrophoneMessage)
      && r.next.isRecording == s.isRecording
      && ResultsUnchanged(s, r.next)
      && r.next.isLoading == s.isLoading && r.next.isGeneratingNotes == s.isGeneratingNotes
      && r.next.audioURL == s.audioURL
      && r.next.chunks == s.chunks
      && (at != PermissionRefused ==> r.next.stream == Live && LiveStreams(r.next) >= 1)
  {}

  // ---------------------------------------------------------------- ondataavailable / onstop

  /** A chunk is appended at the end of the buffer when a recorder is installed; otherwise nothing happens. */
  lemma ChunkAppended(s: State, data: seq<byte>)
    ensures var r := Step(s, ChunkArrived(data));
      && r.effects == []
      && r.next == (if s.hasRecorder then s.(chunks := s.chunks + [data]) else s)
  {}

  /**
   The flush hands the transcription request the buffered chunks joined in
   arrival order and tagged `audio/webm`, shows that same blob in the player,
   empties the buffer, stops the microphone, marks transcription as loading and
   clears the transcript. The notes and the error are not touched.
   */
  lemma FlushSendsBufferedAudio(s: State)
    requires s.hasRecorder
    ensures var blob := Blob(Flatten(s.chunks), WebmType);
      var r := Step(s, RecorderFlushed);
      && r.effects == [PostTranscribe(blob, RecordingFilename)]
      && r.next.audioURL == Some(RecordingUrl(blob))
      && r.next.chunks == []
      && r.next.stream != Live
      && LiveStreams(r.next) == s.orphanedStreams
      && r.next.isLoading
      && r.next.transcript == None
      && r.next.notes == s.notes
      && r.next.error == s.error
      && r.next.isRecording == s.isRecording
      && r.next.isGeneratingNotes == s.isGeneratingNotes
  {}

  /** Without a recorder no `onstop` callback is installed, so a flush does nothing. */
  lemma FlushWithoutRecorder(s: State)
    requires !s.hasRecorder
    ensures Step(s, RecorderFlushed) == Transition(s, [])
  {}

  // ---------------------------------------------------------------- stopRecording

  /**
   Stop with no recorder is a no-op; otherwise it tells the recorder to stop and
   lowers the recording flag, and nothing else changes.
   */
  lemma StopOnlyLowersFlag(s: State)
    ensures !s.hasRecorder ==> Step(s, StopPressed) == Transition(s, [])
    ensures s.hasRecorder ==> Step(s, StopPressed) == Transition(s.(isRecording := false), [StopRecorder])
  {}

  // ---------------------------------------------------------------- handleFileUpload

  /** Picking no file does nothing. */
  lemma UploadWithoutFile(s: State)
    ensures Step(s, UploadSelected(None)) == Transition(s, [])
  {}

  /**
   Picking a file marks transcription as loading, clears both stale results,
   points the player at the file and posts the file itself; the error and the
   capture side stay.
   */
  lemma UploadClearsStaleResults(s: State, f: AudioFile)
    ensures var r := Step(s, UploadSelected(Some(f)));
      && r.effects == [PostUpload(f)]
      && r.next.isLoading
      && r.next.transcript == None && r.next.notes == None
      && r.next.audioURL == Some(FileUrl(f))
      && r.next.error == s.error
      && r.next.isGeneratingNotes == s.isGeneratingNotes
      && CaptureUnchanged(s, r.next)
  {}

  // ---------------------------------------------------------------- settling requests

  /**
   A settled transcription stores the returned text on success, writes its message
   on failure (the transcript keeps whatever it held), ends loading either way and
   never clears the error.
   */
  lemma TranscriptionSettles(s: State, reply: Reply)
    ensures var r := Step(s, TranscribeSettled(reply));
      && r.effects == []
      && !r.next.isLoading
      && (reply.Ok? ==> r.next.transcript == Some(reply.text) && r.next.error == s.error)
      && (reply.Err? ==> r.next.transcript == s.transcript && r.next.error == Some(TranscribeMessage))
      && r.next.notes == s.notes
      && r.next.isGeneratingNotes == s.isGeneratingNotes
      && r.next.audioURL == s.audioURL
      && CaptureUnchanged(s, r.next)
  {}

  /** A settled upload behaves like a settled transcription, except that success clears the error. */
  lemma UploadSettles(s: State, reply: Reply)
    ensures var r := Step(s, UploadSettled(reply));
      && r.effects == []
      && !r.next.isLoading
      && (reply.Ok? ==> r.next.transcript == Some(reply.text) && r.next.error == None)
      && (reply.Err? ==> r.next.transcript == s.transcript && r.next.error == Some(UploadMessage))
      && r.next.notes == s.notes
      && r.next.isGeneratingNotes == s.isGeneratingNotes
      && r.next.audioURL == s.audioURL
      && CaptureUnchanged(s, r.next)
  {}

  /**
   A settled notes request stores the notes on success, writes its message on
   failure, ends the busy flag either way, and never touches the transcript.
   */
  lemma NotesSettle(s: State, reply: Reply)
    ensures var r := Step(s, NotesSettled(reply));
      && r.effects == []
      && !r.next.isGeneratingNotes
      && r.next.transcript == s.transcript
      && (reply.Ok? ==> r.next.notes == Some(reply.text) && r.next.error == s.error)
      && (reply.Err? ==> r.next.notes == s.notes && r.next.error == Some(NotesMessage))
      && r.next.isLoading == s.isLoading
      && CaptureUnchanged(s, r.next)
  {}

  // ---------------------------------------------------------------- cross-cutting rules

  /**
   There is one error slot and the latest failure owns it: after a failing event
   the slot holds a message, and which message does not depend on anything that
   came before.
   */
  lemma LatestFailureWins(s: State, t: State, e: Event)
    requires Fails(e)
    ensures Step(s, e).next.error.Some?
    ensures Step(s, e).next.error == Step(t, e).next.error
  {}

  /** A failing event never issues a request. */
  lemma FailureIssuesNothing(s: State, e: Event)
    requires Fails(e)
    ensures Step(s, e).effects == []
  {}

  /**
   An existing error is cleared exactly by a successful start and by a successful
   upload; every other event keeps it or replaces it.
   */
  lemma ErrorClearedOnlyBy(s: State, e: Event)
    requires s.error.Some?
    ensures Step(s, e).next.error == None <==> (e == StartOk || (e.UploadSettled? && e.reply.Ok?))
  {}

  /**
   A failure in one stage leaves the other stage's result alone: a failed notes
   request keeps the transcript, and a failed transcription or upload keeps the notes.
   */
  lemma FailureIsolatedToItsStage(s: State)
    ensures Step(s, NotesSettled(Err)).next.transcript == s.transcript
    ensures Step(s, TranscribeSettled(Err)).next.notes == s.notes
    ensures Step(s, UploadSettled(Err)).next.notes == s.notes
  {}

  /**
   The stages never touch the capture side: settling any request or asking for
   notes leaves the recording flag, the recorder, the buffer and the microphone alone.
   */
  lemma StagesLeaveCaptureAlone(s: State, e: Event)
    requires e.TranscribeSettled? || e.UploadSettled? || e.NotesSettled? || e == GenerateRequested
             || e.UploadSelected?
    ensures CaptureUnchanged(s, Step(s, e).next)
  {}

  // ---------------------------------------------------------------- guarantees the code does not give

  /**
   No start guard: a start while already recording acquires another stream, and the
   one it replaces keeps capturing with nothing left pointing at it.
   */
  lemma StartWhileRecordingOrphansStream(s: State)
    requires s.isRecording && s.stream == Live
    ensures var n := Step(s, StartOk).next;
      n.isRecording && n.orphanedStreams == s.orphanedStreams + 1 && LiveStreams(n) == LiveStreams(s) + 1
  {}

  /** No in-flight guard: a notes request goes out even while one is already running. */
  lemma NotesRequestWhileGenerating(s: State)
    requires Truthy(s.transcript) && s.isGeneratingNotes
    ensures Step(s, GenerateRequested).effects == [PostGenerateNotes(s.transcript.value)]
  {}

  /** No in-flight guard: a file upload goes out even while a transcription is loading. */
  lemma UploadWhileLoading(s: State, f: AudioFile)
    requires s.isLoading
    ensures Step(s, UploadSelected(Some(f))).effects == [PostUpload(f)]
  {}

  /** Starting a transcription from a recording clears only the transcript: old notes stay. */
  lemma FlushKeepsNotes(s: State)
    ensures Step(s, RecorderFlushed).next.notes == s.notes
  {}

  /** A successful transcription of a recording leaves an earlier error in place. */
  lemma RecordedSuccessKeepsError(s: State, text: string)
    ensures Step(s, TranscribeSettled(Ok(text))).next.error == s.error
  {}

  /** A failure after the stream was obtained does not stop it: the microphone stays on. */
  lemma LateStartFailureKeepsMicrophone(s: State)
    ensures Step(s, StartFailed(RecorderRejected)).next.stream == Live
    ensures Step(s, StartFailed(RecorderStartThrew)).next.stream == Live
  {}
}
