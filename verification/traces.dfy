/**
 Sequences of events: the state and the effects after processing them one at a
 time, and the properties that only show over several steps — chunk order across
 a whole recording, the stale-result rules of a full cycle, the microphone leak,
 and the end-to-end runs of a recording, an upload and a notes request.
 */
module Traces {
  import opened Wrappers
  import opened Media
  import opened Recorder

  /** The result of processing `evs` in order from `s`: the final state and every effect issued, in order. */
  function Run(s: State, evs: seq<Event>): (r: Transition)
    ensures Inv(s) ==> Inv(r.next)
    ensures |r.effects| <= |evs|
    decreases |evs|
  {
    if evs == [] then Transition(s, [])
    else
      var t := Step(s, evs[0]);
      var u := Run(t.next, evs[1..]);
      Transition(u.next, t.effects + u.effects)
  }

  /** Continues a run with more events. */
  function Then(t: Transition, more: seq<Event>): Transition {
    var u := Run(t.next, more);
    Transition(u.next, t.effects + u.effects)
  }

  /** Running two event sequences back to back is running their concatenation. */
  lemma {:induction false} RunAppend(s: State, a: seq<Event>, b: seq<Event>)
    ensures Run(s, a + b) == Then(Run(s, a), b)
    decreases |a|
  {
    if a == [] {
      assert a + b == b;
    } else {
      assert (a + b)[0] == a[0];
      assert (a + b)[1..] == a[1..] + b;
      var t := Step(s, a[0]);
      RunAppend(t.next, a[1..], b);
      assert t.effects + (Run(t.next, a[1..]).effects + Run(Run(t.next, a[1..]).next, b).effects)
          == (t.effects + Run(t.next, a[1..]).effects) + Run(Run(t.next, a[1..]).next, b).effects;
    }
  }

  /** Two events in a row. */
  lemma RunTwo(s: State, e1: Event, e2: Event)
    ensures var t := Step(s, e1);
      var u := Step(t.next, e2);
      Run(s, [e1, e2]) == Transition(u.next, t.effects + u.effects)
  {
    var t := Step(s, e1);
    var u := Step(t.next, e2);
    assert [e2][1..] == [];
    assert Run(t.next, [e2]) == Transition(u.next, u.effects + []);
    assert [e1, e2][1..] == [e2];
    assert u.effects + [] == u.effects;
  }

  /** Every reachable state satisfies the invariant. */
  lemma ReachableInv(evs: seq<Event>)
    ensures Inv(Run(Init, evs).next)
  {}

  /** The browser delivering the given fragments, in this order, through `ondataavailable`. */
  function Fragments(datas: seq<seq<byte>>): seq<Event>
  {
    if datas == [] then [] else [ChunkArrived(datas[0])] + Fragments(datas[1..])
  }

  /**
   While a recorder is installed, fragments are appended to the buffer in arrival
   order, and nothing else changes and nothing is sent.
   */
  lemma {:induction false} FragmentsBuffered(s: State, datas: seq<seq<byte>>)
    requires s.hasRecorder
    ensures Run(s, Fragments(datas)) == Transition(s.(chunks := s.chunks + datas), [])
    decreases |datas|
  {
    if datas == [] {
      assert s.chunks + datas == s.chunks;
    } else {
      var s1 := s.(chunks := s.chunks + [datas[0]]);
      var evs := Fragments(datas);
      assert evs[0] == ChunkArrived(datas[0]);
      assert evs[1..] == Fragments(datas[1..]);
      assert Step(s, evs[0]) == Transition(s1, []);
      FragmentsBuffered(s1, datas[1..]);
      assert s1.chunks + datas[1..] == s.chunks + datas;
      assert Run(s, evs) == Then(Step(s, evs[0]), evs[1..]);
    }
  }

  /** One recording: start, the fragments, stop, and the recorder's final flush. */
  function Recording(datas: seq<seq<byte>>): seq<Event> {
    [StartOk] + Fragments(datas) + [StopPressed, RecorderFlushed]
  }

  /**
   A full recording cycle sends exactly one transcription request, carrying the
   buffered chunks and then every fragment, joined in arrival order and tagged
   `audio/webm` (a start does not empty the buffer, so chunks left over from
   before come first); the player shows that blob, the buffer is empty again,
   the microphone stream is stopped, stale results and the error are gone, and
   transcription is loading.
   */
  lemma {:induction false} RecordingCycle(s: State, datas: seq<seq<byte>>)
    ensures var blob := Blob(Flatten(s.chunks + datas), WebmType);
      var r := Run(s, Recording(datas));
      && r.effects == [StopRecorder, PostTranscribe(blob, RecordingFilename)]
      && r.next.audioURL == Some(RecordingUrl(blob))
      && r.next.chunks == []
      && r.next.stream == Stopped
      && LiveStreams(r.next) == LiveStreams(s)
      && !r.next.isRecording && r.next.isLoading
      && r.next.transcript == None && r.next.notes == None && r.next.error == None
  {
    var s1 := Step(s, StartOk).next;
    assert Run(s, [StartOk]) == Transition(s1, []);
    RunAppend(s, [StartOk] + Fragments(datas), [StopPressed, RecorderFlushed]);
    RunAppend(s, [StartOk], Fragments(datas));
    FragmentsBuffered(s1, datas);
    var s2 := s1.(chunks := s.chunks + datas);
    assert Run(s, [StartOk] + Fragments(datas)) == Transition(s2, []);
    var s3 := s2.(isRecording := false);
    assert Step(s2, StopPressed) == Transition(s3, [StopRecorder]);
    assert Run(s2, [StopPressed, RecorderFlushed])
        == Transition(Step(s3, RecorderFlushed).next, [StopRecorder] + Step(s3, RecorderFlushed).effects);
  }

  /**
   Each fragment of a recording can be read back unchanged from the audio that is
   sent, at its own offset after the chunks already buffered when the recording
   started: nothing is reordered, dropped or interleaved.
   */
  lemma SentAudioKeepsEveryFragment(s: State, datas: seq<seq<byte>>, i: nat)
    requires i < |datas|
    ensures var r := Run(s, Recording(datas));
      && |r.effects| == 2 && r.effects[1].PostTranscribe?
      && var audio := r.effects[1].audio.bytes;
         var at := |Flatten(s.chunks)| + Offset(datas, i);
         at + |datas[i]| <= |audio|
         && audio[at .. at + |datas[i]|] == datas[i]
  {
    RecordingCycle(s, datas);
    PartAtItsOffset(datas, i);
    FlattenConcat(s.chunks, datas);
  }

  /** The events that cannot install a recorder or acquire a stream. */
  predicate NoStart(e: Event) {
    e != StartOk && !e.StartFailed?
  }

  /** No event of the sequence is a start. */
  predicate NoStarts(evs: seq<Event>) {
    evs == [] || (NoStart(evs[0]) && NoStarts(evs[1..]))
  }

  /**
   A microphone stream stored by a start that then failed is never stopped unless
   another start comes: without a recorder no `onstop` callback exists to stop it.
   */
  lemma {:induction false} LeakedStreamStaysLive(s: State, evs: seq<Event>)
    requires !s.hasRecorder && s.stream == Live
    requires NoStarts(evs)
    ensures Run(s, evs).next.stream == Live
    ensures !Run(s, evs).next.hasRecorder
    decreases |evs|
  {
    if evs != [] {
      LeakedStreamStaysLive(Step(s, evs[0]).next, evs[1..]);
    }
  }

  /**
   Without a recorder, a start that fails after obtaining the stream adds a
   capturing microphone stream that no later event short of another start stops.
   */
  lemma FailedStartLeaksMicrophone(s: State, evs: seq<Event>)
    requires !s.hasRecorder
    requires NoStarts(evs)
    ensures LiveStreams(Run(Step(s, StartFailed(RecorderRejected)).next, evs).next) == LiveStreams(s) + 1
  {
    var s1 := Step(s, StartFailed(RecorderRejected)).next;
    assert s1 == Acquire(s).(error := Some(MicrophoneMessage));
    assert s1.stream == Live && !s1.hasRecorder;
    assert LiveStreams(s1) == LiveStreams(s) + 1;
    LeakedStreamStaysLive(s1, evs);
    OrphansUnchangedWithoutStart(s1, evs);
  }

  /** Only a start can orphan a stream. */
  lemma {:induction false} OrphansUnchangedWithoutStart(s: State, evs: seq<Event>)
    requires NoStarts(evs)
    ensures Run(s, evs).next.orphanedStreams == s.orphanedStreams
    decreases |evs|
  {
    if evs != [] {
      OrphansUnchangedWithoutStart(Step(s, evs[0]).next, evs[1..]);
    }
  }

  /**
   No in-flight guard on uploads: two files picked in a row send two uploads, the
   first reply ends loading while the second is still out, and its transcript is
   shown next to the second file's player.
   */
  lemma OverlappingUploads(s: State, f1: AudioFile, f2: AudioFile, text: string)
    ensures var r := Run(s, [UploadSelected(Some(f1)), UploadSelected(Some(f2)), UploadSettled(Ok(text))]);
      && r.effects == [PostUpload(f1), PostUpload(f2)]
      && !r.next.isLoading
      && r.next.transcript == Some(text)
      && r.next.audioURL == Some(FileUrl(f2))
  {
    var s1 := Step(s, UploadSelected(Some(f1))).next;
    assert [UploadSelected(Some(f1)), UploadSelected(Some(f2)), UploadSettled(Ok(text))][1..]
        == [UploadSelected(Some(f2)), UploadSettled(Ok(text))];
    RunTwo(s1, UploadSelected(Some(f2)), UploadSettled(Ok(text)));
  }

  /** A failed transcription of a recording leaves no transcript. */
  lemma FailedTranscriptionLeavesNone(s: State)
    requires s.hasRecorder
    ensures var n := Run(s, [RecorderFlushed, TranscribeSettled(Err)]).next;
      n.transcript == None && n.error == Some(TranscribeMessage) && !n.isLoading
  {
    RunTwo(s, RecorderFlushed, TranscribeSettled(Err));
  }

  /** A failed upload leaves neither transcript nor notes. */
  lemma FailedUploadLeavesNone(s: State, f: AudioFile)
    ensures var n := Run(s, [UploadSelected(Some(f)), UploadSettled(Err)]).next;
      n.transcript == None && n.notes == None && n.error == Some(UploadMessage) && !n.isLoading
  {
    RunTwo(s, UploadSelected(Some(f)), UploadSettled(Err));
  }

  // ---------------------------------------------------------------- end-to-end runs

  /**
   Record three fragments from mount and get a transcript back: one stop, one
   transcription request with the three fragments joined, and the reply shown.
   */
  lemma RecordThreeFragments(a: seq<byte>, b: seq<byte>, c: seq<byte>, text: string)
    ensures var r := Run(Init, Recording([a, b, c]) + [TranscribeSettled(Ok(text))]);
      && r.effects == [StopRecorder, PostTranscribe(Blob(a + b + c, WebmType), RecordingFilename)]
      && r.next.transcript == Some(text)
      && !r.next.isLoading && !r.next.isRecording
      && r.next.error == None
      && LiveStreams(r.next) == 0
  {
    RecordingCycle(Init, [a, b, c]);
    assert Init.chunks + [a, b, c] == [a, b, c];
    RunAppend(Init, Recording([a, b, c]), [TranscribeSettled(Ok(text))]);
    var recorded := Run(Init, Recording([a, b, c])).next;
    assert Run(recorded, [TranscribeSettled(Ok(text))]) == Transition(Step(recorded, TranscribeSettled(Ok(text))).next, []);
    assert Flatten([a, b, c]) == a + b + c by {
      assert [a, b, c][1..] == [b, c];
      assert [b, c][1..] == [c];
      assert [c][1..] == [];
      assert Flatten([c]) == c + Flatten([]);
      assert Flatten([b, c]) == b + Flatten([c]);
    }
  }

  /** Upload a file from mount and get "hello" back: one upload of that file, and the transcript shown. */
  lemma UploadLecture(f: AudioFile)
    ensures var r := Run(Init, [UploadSelected(Some(f)), UploadSettled(Ok("hello"))]);
      && r.effects == [PostUpload(f)]
      && r.next.transcript == Some("hello")
      && r.next.audioURL == Some(FileUrl(f))
      && !r.next.isLoading && r.next.error == None
  {
    RunTwo(Init, UploadSelected(Some(f)), UploadSettled(Ok("hello")));
  }

  /**
   With transcript "hello", a notes request sends "hello"; when it fails the
   notes error is shown and the transcript is still "hello".
   */
  lemma NotesFailureKeepsHello(s: State)
    requires s.transcript == Some("hello")
    ensures var r := Run(s, [GenerateRequested, NotesSettled(Err)]);
      && r.effects == [PostGenerateNotes("hello")]
      && r.next.error == Some(NotesMessage)
      && r.next.transcript == Some("hello")
      && r.next.notes == None
      && !r.next.isGeneratingNotes
  {
    RunTwo(s, GenerateRequested, NotesSettled(Err));
  }
}
