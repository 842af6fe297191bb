/**
 The component's rendering, reduced to what is visible: which handler the record
 button runs and which panels, spinners and buttons are shown for a state. The
 notes button's visibility is the only thing standing between a running notes
 request and a second one.
 */
module View {
  import opened Wrappers
  import opened Recorder
  import Properties

  /** Which handler a click on the record button runs. */
  datatype RecordHandler = CallStart | CallStop

  function RecordButton(s: State): RecordHandler {
    if s.isRecording then CallStop else CallStart
  }

  /** The visible parts of the component. */
  datatype Screen = Screen(
    recordLabel: string,
    recordingDot: bool,
    uploadButton: bool,
    errorBanner: Option<string>,
    player: Option<AudioUrl>,
    transcribingSpinner: bool,
    transcriptPanel: Option<string>,
    notesButton: bool,
    notesSpinner: bool,
    notesPanel: Option<string>)

  /** A text slot is rendered only when it is truthy. */
  function Shown(text: Option<string>): Option<string> {
    if Truthy(text) then text else None
  }

  function Render(s: State): Screen {
    Screen(
      recordLabel := if s.isRecording then "Stop Recording" else "Record",
      recordingDot := s.isRecording,
      uploadButton := true,
      errorBanner := Shown(s.error),
      player := s.audioURL,
      transcribingSpinner := s.isLoading,
      transcriptPanel := Shown(s.transcript),
      notesButton := Truthy(s.transcript) && !s.isGeneratingNotes,
      notesSpinner := s.isGeneratingNotes,
      notesPanel := Shown(s.notes))
  }

  /**
   At mount the record and upload buttons are on screen and nothing else is; the
   record button starts a recording.
   */
  lemma ScreenAtMount()
    ensures Render(Init) == Screen("Record", false, true, None, None, false, None, false, false, None)
    ensures RecordButton(Init) == CallStart
  {}

  /**
   A click on a visible notes button always sends a request, and the button is
   hidden (the spinner shown instead) until that request settles.
   */
  lemma NotesButtonSendsAndHides(s: State)
    requires Render(s).notesButton
    ensures var r := Step(s, GenerateRequested);
      && r.effects == [PostGenerateNotes(s.transcript.value)]
      && !Render(r.next).notesButton
      && Render(r.next).notesSpinner
  {}

  /** When the notes button is hidden for lack of a transcript, a request could not be sent anyway. */
  lemma HiddenNotesButtonWithoutTranscript(s: State)
    requires !Truthy(s.transcript)
    ensures !Render(s).notesButton
    ensures Step(s, GenerateRequested).effects == []
  {}

  /**
   The record button is the only start guard: after a successful start it runs
   `stopRecording`, shows "Stop Recording" and the red dot; after stop it runs
   `startRecording` again.
   */
  lemma RecordButtonToggles(s: State)
    ensures var n := Step(s, StartOk).next;
      RecordButton(n) == CallStop && Render(n).recordLabel == "Stop Recording" && Render(n).recordingDot
    ensures s.hasRecorder ==> RecordButton(Step(s, StopPressed).next) == CallStart
  {}

  /**
   The button does not prevent every second acquisition: after a start that failed
   once the stream was obtained, the button offers start again, and a successful
   start then adds a second capturing stream while the first keeps capturing with
   nothing pointing at it.
   */
  lemma RestartAfterLateFailureOrphans(s: State)
    requires !s.isRecording
    ensures var failed := Step(s, StartFailed(RecorderRejected)).next;
      && RecordButton(failed) == CallStart
      && Step(failed, StartOk).next.orphanedStreams == LiveStreams(s) + 1
      && LiveStreams(Step(failed, StartOk).next) == LiveStreams(s) + 2
  {}

  /** After a failing event the banner shows exactly the message that failure wrote. */
  lemma BannerShowsLatestFailure(s: State, e: Event)
    requires Properties.Fails(e)
    ensures Render(Step(s, e).next).errorBanner == Step(s, e).next.error
  {}
}
