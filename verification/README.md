# LectureAI recorder: the capture-and-transcription state machine in Dafny

LectureAI records a lecture from the microphone, or takes an uploaded audio file,
sends the audio to a backend for transcription, and on request sends the
transcript to a second endpoint that returns structured notes. All of this logic
lives in one React component, `Recorder`. This project lifts that component out of
React. It becomes one immutable state record (`Recorder.State`, the component's
seven `useState` slots plus its refs) and a pure `Recorder.Step(state, event)`.
Each browser callback, user action and settled network request is an `Event`.
Each outbound action (stopping the recorder, the three POST requests) is an
`Effect` that the step returns.

Modules:

- `Wrappers`: `Option`, standing for the source's `T | null` slots.
- `Media`: bytes, `Blob`, picked files, and `Flatten`, the in-order concatenation
  that `new Blob(parts, { type })` performs. `AssembleBlob` is a one-pass loop
  implementation of the same join, proved equal to `Flatten`; the state machine uses `Flatten` directly.
- `Recorder`: the state, the events and effects, one function per handler
  (`SendToBackend`, `HandleFileUpload`, `GenerateNotes`, `StartRecording`,
  `StartFailedAt`, `StopRecording`, `OnDataAvailable`, `OnStop` and the three
  settle functions), `Step`, and the invariant `Inv` that `Step` keeps.
- `Properties`: one lemma per event (what it sets, what it sends, what it
  leaves alone) and the rules that cut across events. These are the single
  error slot, stage isolation, and the guards the code lacks.
- `View`: the rendered screen as a projection of the state, and which handler
  the record button runs.
- `Traces`: `Run` over event sequences. It holds chunk order across a whole
  recording, the microphone leak, and end-to-end runs.

The model follows the code as written. Some guarantees a reader might expect
are not in the code, and the model proves what holds instead:

- Nothing stops a second transcription, upload or notes request while one is in
  flight. Only the hidden notes button guards against a repeat (`View.NotesButtonSendsAndHides`).
- `startRecording` has no guard against a recording already running. Only the
  record button's toggle prevents it. A second start orphans the first stream.
- When the try block throws after `getUserMedia` succeeded, the stream is stored
  but never stopped.
- Starting a transcription from a recording clears the transcript but not the notes.
- A successful transcription of a recording does not clear the error. Only a
  successful upload and a successful start do.
- `generateNotes` treats an empty transcript as absent. This is JavaScript truthiness
  (`Recorder.Truthy`).

## Model

| member | source | states |
|---|---|---|
| Media.FlattenConcat | frontend/app/components/Recorder.tsx:136-141 | Joining two runs of buffered chunks equals joining each run and concatenating the results, so appending a chunk appends its bytes. |
| Media.PartAtItsOffset | frontend/app/components/Recorder.tsx:135-141 | Each chunk appears unchanged in the joined bytes at its own offset, which is the total length of the chunks before it. |
| Media.AssembleBlob | frontend/app/components/Recorder.tsx:141 | Building the recording Blob part by part gives the in-order concatenation of all chunks, tagged with the requested type. |
| Recorder.Step | frontend/app/components/Recorder.tsx:116-170 | Every event issues at most one effect. Every event keeps the invariant: recording implies a recorder is stored, a stored recorder implies a stored stream, no chunks are buffered without a recorder, and no stream is orphaned before one was stored. |
| Properties.GenerateWithoutTranscript | frontend/app/components/Recorder.tsx:88 | With no transcript, or an empty one, asking for notes changes no field and sends nothing. |
| Properties.GenerateWithTranscript | frontend/app/components/Recorder.tsx:87-99 | With a transcript, asking for notes sets the busy flag and clears the notes. It posts exactly that transcript and keeps the transcript, the error, loading and the capture side. |
| Properties.GenerateSendsIffTranscript | frontend/app/components/Recorder.tsx:88-99 | A notes request is sent if and only if the transcript is truthy, and the only request it can send carries the transcript. |
| Properties.StartClearsStaleResults | frontend/app/components/Recorder.tsx:125-159 | A successful start stores a recorder and a live stream and sets the recording flag. It clears the error, transcript and notes, and adds one capturing stream. It does not clear the chunk buffer or either busy flag. |
| Properties.StartRefusedOnlySetsError | frontend/app/components/Recorder.tsx:118-162 | The unsupported-browser path and a refused permission change only the error slot, each to its own message. |
| Properties.StartFailureKeepsResults | frontend/app/components/Recorder.tsx:123-162 | Every start failure writes the microphone message. It keeps the recording flag, transcript, notes, busy flags, audio URL and buffer. A failure after the stream was obtained leaves that stream stored and capturing. |
| Properties.ChunkAppended | frontend/app/components/Recorder.tsx:135-137 | A chunk is appended at the end of the buffer when a recorder exists, and nothing else changes. Without a recorder the event does nothing. |
| Properties.FlushSendsBufferedAudio | frontend/app/components/Recorder.tsx:140-153 | The stop callback posts the chunks joined in arrival order, tagged audio/webm, as recording.webm, and shows the same blob in the player. It empties the buffer, stops the stream, sets loading and clears the transcript. It leaves notes and error. |
| Properties.FlushWithoutRecorder | frontend/app/components/Recorder.tsx:140 | Without a recorder there is no stop callback, so a flush is a no-op. |
| Properties.StopOnlyLowersFlag | frontend/app/components/Recorder.tsx:166-171 | Stop without a recorder is a no-op. Otherwise it sends the recorder stop, clears the recording flag and changes nothing else. |
| Properties.UploadWithoutFile | frontend/app/components/Recorder.tsx:51-52 | Picking no file is a no-op. |
| Properties.UploadClearsStaleResults | frontend/app/components/Recorder.tsx:50-69 | Picking a file sets loading and clears transcript and notes. It points the player at the file and posts the file. It keeps the error and the capture side. |
| Properties.TranscriptionSettles | frontend/app/components/Recorder.tsx:35-46 | A settled transcription stores the reply text on success and writes its message on failure, where the transcript keeps its value. Loading ends either way. The error is never cleared, and notes and capture are untouched. |
| Properties.UploadSettles | frontend/app/components/Recorder.tsx:71-83 | A settled upload stores the reply text and clears the error on success. It writes its message on failure. Loading ends either way, and notes and capture are untouched. |
| Properties.NotesSettle | frontend/app/components/Recorder.tsx:102-113 | A settled notes request stores the notes on success and writes its message on failure. The busy flag ends either way, and the transcript is never touched. |
| Properties.LatestFailureWins | frontend/app/components/Recorder.tsx:42-161 | After any failing event the single error slot holds a message that does not depend on the previous state, whatever error was there before. |
| Properties.FailureIssuesNothing | frontend/app/components/Recorder.tsx:41-162 | A failing event issues no request. |
| Properties.ErrorClearedOnlyBy | frontend/app/components/Recorder.tsx:77-157 | An existing error is cleared if and only if the event is a successful start or a successful upload. |
| Properties.FailureIsolatedToItsStage | frontend/app/components/Recorder.tsx:41-113 | A failed notes request keeps the transcript. A failed transcription or upload keeps the notes. |
| Properties.StagesLeaveCaptureAlone | frontend/app/components/Recorder.tsx:22-114 | Picking a file, asking for notes and settling any request leave the recording flag, recorder, buffer and microphone alone. |
| Properties.StartWhileRecordingOrphansStream | frontend/app/components/Recorder.tsx:116-126 | Nothing guards a start while recording: it acquires another stream and orphans the live one. |
| Properties.NotesRequestWhileGenerating | frontend/app/components/Recorder.tsx:87-91 | Nothing guards a notes request while one runs: another request is sent. |
| Properties.UploadWhileLoading | frontend/app/components/Recorder.tsx:50-54 | Nothing guards an upload while a transcription is loading: the upload is sent. |
| Properties.FlushKeepsNotes | frontend/app/components/Recorder.tsx:22-24 | Starting a transcription from a recording keeps whatever notes were there. |
| Properties.RecordedSuccessKeepsError | frontend/app/components/Recorder.tsx:39-40 | A successful transcription of a recording keeps an earlier error. |
| Properties.LateStartFailureKeepsMicrophone | frontend/app/components/Recorder.tsx:125-162 | A start that throws after the stream was obtained leaves that stream live. |
| View.ScreenAtMount | frontend/app/components/Recorder.tsx:177-275 | At mount no banner, player, panel, spinner or notes button is shown. The upload button is always shown, and the record button reads Record and runs startRecording. |
| View.NotesButtonSendsAndHides | frontend/app/components/Recorder.tsx:246-262 | A click on a visible notes button always sends the transcript. The button is then hidden and the spinner shown. |
| View.HiddenNotesButtonWithoutTranscript | frontend/app/components/Recorder.tsx:247 | Without a truthy transcript the notes button is hidden, and a notes request would send nothing. |
| View.RecordButtonToggles | frontend/app/components/Recorder.tsx:178-183 | After a start the button runs stopRecording and shows "Stop Recording" and the red dot. After a stop with a recorder it runs startRecording. |
| View.RestartAfterLateFailureOrphans | frontend/app/components/Recorder.tsx:179 | After a start that failed once the stream was obtained, the button offers start again. A successful start then adds two capturing streams, one of them orphaned. |
| View.BannerShowsLatestFailure | frontend/app/components/Recorder.tsx:212-216 | After a failing event the banner shows exactly the message that failure wrote. |
| Traces.Run | frontend/app/components/Recorder.tsx:7-18 | Processing a sequence of events keeps the invariant on the state record and issues at most one effect per event. |
| Traces.ReachableInv | frontend/app/components/Recorder.tsx:7-18 | Every state reached from mount satisfies the invariant. |
| Traces.FragmentsBuffered | frontend/app/components/Recorder.tsx:135-137 | With a recorder, a run of data events appends the fragments to the buffer in arrival order. Nothing else changes and nothing is sent. |
| Traces.RecordingCycle | frontend/app/components/Recorder.tsx:116-170 | Start, fragments, stop and flush send exactly a recorder stop and one transcription. The transcription carries the chunks already buffered followed by all fragments, joined in order, because a start does not empty the buffer. The player shows that blob, the buffer is empty, the stream is stopped, stale results and the error are gone, and loading is set. |
| Traces.SentAudioKeepsEveryFragment | frontend/app/components/Recorder.tsx:135-145 | Every fragment of a recording appears unchanged in the audio that is sent, at its own offset after the chunks that were already buffered when the recording started. |
| Traces.LeakedStreamStaysLive | frontend/app/components/Recorder.tsx:126-162 | Without a recorder, a stored live stream stays live and no recorder appears, for any run of events without a start. |
| Traces.FailedStartLeaksMicrophone | frontend/app/components/Recorder.tsx:125-162 | Without a recorder, a start that fails after obtaining the stream adds one capturing stream. No later run of events without a start stops it. |
| Traces.OrphansUnchangedWithoutStart | frontend/app/components/Recorder.tsx:126 | Only a start can orphan a stream. |
| Traces.OverlappingUploads | frontend/app/components/Recorder.tsx:50-83 | Two uploads in a row send two requests. The first reply ends loading while the second is out, and its transcript is shown beside the second file. |
| Traces.FailedTranscriptionLeavesNone | frontend/app/components/Recorder.tsx:22-46 | A recording whose transcription fails ends with no transcript, the transcription message, and loading off. |
| Traces.FailedUploadLeavesNone | frontend/app/components/Recorder.tsx:50-83 | An upload that fails ends with no transcript and no notes, the upload message, and loading off. |
| Traces.RecordThreeFragments | frontend/app/components/Recorder.tsx:116-170 | From mount, recording three fragments sends one stop and one transcription of their concatenation. Then the reply is the transcript, loading and recording are off, there is no error, and no stream is left capturing. |
| Traces.UploadLecture | frontend/app/components/Recorder.tsx:50-83 | From mount, uploading a file that comes back as "hello" sends one upload of that file and shows "hello" as the transcript. |
| Traces.NotesFailureKeepsHello | frontend/app/components/Recorder.tsx:87-113 | With transcript "hello", a notes request sends "hello". On failure the notes message is shown and the transcript is still "hello". |

## Left out

- Rendering and styling beyond the visible projection in `View`. Class names, layout and static text are presentation only.
- `fetch`, `FormData`, the endpoint URLs and JSON parsing. Each request is an effect, and its outcome is a settle event carrying the reply's text field or a failure. A reply whose JSON lacks the field (which would store `undefined`) is not modelled.
- `navigator.mediaDevices`, `MediaRecorder` and `MediaStream`. The browser APIs are reduced to a stored-recorder flag and a stream reference that is absent, live or stopped. A count of orphaned live streams stands for the microphone device itself. The model does not decide when the browser delivers `dataavailable` or `stop`. Those are events, and their callbacks run whenever a recorder has been stored.
- The recorder's own activity state. A `stop()` on an already inactive recorder is modelled like any other stop: the flag is lowered and the stop effect is issued.
- `URL.createObjectURL`. An object URL is a token naming the blob or file it points at. The code never revokes these URLs, and that is not modelled.
- The 1000 ms warm-up delay. It is folded into the start events. A click during the warm-up, when the recording flag is still down, is concurrency and is not modelled.
- React's batching and re-render timing, and async interleaving inside one handler. Events are processed one at a time, and each handler's synchronous prefix runs within its event.
- `console.log` calls. They are diagnostics only.
- The backend. It holds only the `/` and `/health` handlers, with no transcription or notes logic. The transcription and notes services are not part of this model.
- The page and layout files. They are static markup.
