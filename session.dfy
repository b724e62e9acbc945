/**
 * The recording session of the browser client
 * (meeting-recorder-pwa-v2/app.js): the module-level recorder, chunk list
 * and recording flag, updated by startRecording, stopRecording, the record
 * button's click handler and the recorder's ondataavailable and onstop
 * callbacks. The microphone, the recorder and the network are inputs:
 * how far startRecording gets, each chunk as it arrives, and the reply of
 * the transcription function.
 */
module Session {
  import opened Utf8
  import opened HistoryJson
  import History
  import Client

  const RecordingStatus := "Grabando... Habla cerca del micrófono."
  const MicErrorStatus := "No se pudo acceder al micrófono. Revisa permisos."
  const ProcessingStatus := "Procesando audio..."
  const SavedStatus := "Transcripción guardada en el historial."
  const TranscribeErrorStatus := "Error al transcribir. Revisa el backend o la configuración."
  /** The type given to the Blob built from the chunks. */
  const RecordedMimeType := "audio/webm"

  /**
   * How far startRecording gets: the microphone is refused, the recorder
   * cannot be created, the recorder fails to start, or recording starts.
   */
  datatype StartOutcome = MicDenied | RecorderRejected | StartFailed | Started

  /**
   * The mediaRecorder variable: never set, set to a recorder that is not
   * recording, recording, or stopped with its onstop callback still to run.
   */
  datatype RecorderState = NoRecorder | Inactive | Recording | Stopping

  /** The chunks kept by ondataavailable: those of non-zero size, in arrival order. */
  function NonEmpty(chunks: seq<seq<byte>>): (kept: seq<seq<byte>>)
    ensures |kept| <= |chunks|
    ensures forall i :: 0 <= i < |kept| ==> |kept[i]| > 0
  {
    if chunks == [] then []
    else (if |chunks[0]| > 0 then [chunks[0]] else []) + NonEmpty(chunks[1..])
  }

  /** The bytes of a Blob built from the chunks. */
  function Joined(chunks: seq<seq<byte>>): seq<byte> {
    if chunks == [] then [] else chunks[0] + Joined(chunks[1..])
  }

  /** Chunks arriving in two batches are kept as if they had arrived in one. */
  lemma {:induction false} NonEmptyAppend(a: seq<seq<byte>>, b: seq<seq<byte>>)
    ensures NonEmpty(a + b) == NonEmpty(a) + NonEmpty(b)
    decreases |a|
  {
    if a == [] {
      assert a + b == b;
    } else {
      assert (a + b)[1..] == a[1..] + b;
      NonEmptyAppend(a[1..], b);
    }
  }

  lemma {:induction false} JoinedAppend(a: seq<seq<byte>>, b: seq<seq<byte>>)
    ensures Joined(a + b) == Joined(a) + Joined(b)
    decreases |a|
  {
    if a == [] {
      assert a + b == b;
    } else {
      assert (a + b)[1..] == a[1..] + b;
      JoinedAppend(a[1..], b);
    }
  }

  /** Dropping the empty chunks never changes the recorded audio. */
  lemma {:induction false} DroppingEmptyChunksKeepsAudio(chunks: seq<seq<byte>>)
    ensures Joined(NonEmpty(chunks)) == Joined(chunks)
    decreases |chunks|
  {
    if chunks != [] {
      var head := if |chunks[0]| > 0 then [chunks[0]] else [];
      DroppingEmptyChunksKeepsAudio(chunks[1..]);
      JoinedAppend(head, NonEmpty(chunks[1..]));
      assert Joined(head) == chunks[0] by {
        if |chunks[0]| > 0 {
          assert head[1..] == [];
        } else {
          assert chunks[0] == [];
        }
      }
    }
  }

  class Recorder {
    var recorder: RecorderState
    var chunks: seq<seq<byte>>
    var recording: bool
    var status: string
    /** Microphone streams acquired and not yet released. */
    var openStreams: nat
    /** Where onstop saves transcripts. */
    const store: History.HistoryStore

    /** The flag mirrors the recorder, and a recorder that ran holds its stream until onstop. */
    ghost predicate Valid()
      reads this
    {
      && (recording <==> recorder == Recording)
      && (recorder == Recording || recorder == Stopping ==> openStreams >= 1)
    }

    constructor (store: History.HistoryStore)
      ensures Valid()
      ensures recorder == NoRecorder && chunks == [] && !recording && status == "" && openStreams == 0
      ensures this.store == store
    {
      recorder := NoRecorder;
      chunks := [];
      recording := false;
      status := "";
      openStreams := 0;
      this.store := store;
    }

    /**
     * startRecording. The chunk list is reset once the microphone is
     * acquired; the flag is set only after the recorder has started. A
     * stream acquired before a later failure stays open.
     */
    method StartRecording(outcome: StartOutcome)
      requires Valid() && !recording
      modifies this
      ensures Valid()
      ensures recording <==> outcome == Started
      ensures outcome == Started ==> recorder == Recording && status == RecordingStatus
      ensures outcome != Started ==> status == MicErrorStatus
      ensures outcome == MicDenied ==> chunks == old(chunks) && openStreams == old(openStreams)
      ensures outcome != MicDenied ==> chunks == [] && openStreams == old(openStreams) + 1
      ensures outcome == MicDenied || outcome == RecorderRejected ==> recorder == old(recorder)
      ensures outcome == StartFailed ==> recorder == Inactive
    {
      if outcome == MicDenied {
        status := MicErrorStatus;
        return;
      }
      openStreams := openStreams + 1;
      chunks := [];
      if outcome == RecorderRejected {
        status := MicErrorStatus;
        return;
      }
      recorder := Inactive;
      if outcome == StartFailed {
        status := MicErrorStatus;
        return;
      }
      recorder := Recording;
      recording := true;
      status := RecordingStatus;
    }

    /** stopRecording: nothing happens unless a recorder exists and is recording. */
    method StopRecording()
      requires Valid()
      modifies this
      ensures Valid()
      ensures !recording
      ensures old(recorder != NoRecorder && recording) ==> recorder == Stopping
      ensures !old(recorder != NoRecorder && recording) ==> recorder == old(recorder)
      ensures chunks == old(chunks) && status == old(status) && openStreams == old(openStreams)
    {
      if recorder != NoRecorder && recording {
        recorder := Stopping;
        recording := false;
      }
    }

    /** The record button: start when not recording, stop otherwise. */
    method Click(outcome: StartOutcome)
      requires Valid()
      modifies this
      ensures Valid()
      ensures !old(recording) ==> (recording <==> outcome == Started)
      ensures !old(recording) && outcome == Started ==> recorder == Recording && status == RecordingStatus
      ensures !old(recording) && outcome != Started ==> status == MicErrorStatus
      ensures !old(recording) && outcome == MicDenied ==> chunks == old(chunks) && openStreams == old(openStreams)
      ensures !old(recording) && outcome != MicDenied ==> chunks == [] && openStreams == old(openStreams) + 1
      ensures !old(recording) && (outcome == MicDenied || outcome == RecorderRejected) ==> recorder == old(recorder)
      ensures !old(recording) && outcome == StartFailed ==> recorder == Inactive
      ensures old(recording) ==> !recording && recorder == Stopping && chunks == old(chunks)
      ensures old(recording) ==> status == old(status) && openStreams == old(openStreams)
    {
      if !recording {
        StartRecording(outcome);
      } else {
        StopRecording();
      }
    }

    /** ondataavailable: a chunk of non-zero size is appended; an empty one is ignored. */
    method OnDataAvailable(chunk: seq<byte>)
      requires Valid()
      modifies this
      ensures Valid()
      ensures chunks == old(chunks) + NonEmpty([chunk])
      ensures recorder == old(recorder) && recording == old(recording)
      ensures status == old(status) && openStreams == old(openStreams)
    {
      if |chunk| > 0 {
        chunks := chunks + [chunk];
      }
    }

    /** saveToHistory as called from onstop: only the store changes. */
    method SaveTranscript(id: nat, savedAt: string, transcript: string)
      modifies store
      ensures store.Records() == [Entry(id, savedAt, transcript)] + old(store.Records())
    {
      store.SaveToHistory(id, savedAt, transcript);
    }

    /**
     * onstop: the chunks are sent as one audio/webm payload; a transcript is
     * saved in front of the history, a failure only changes the status, and
     * on both paths the stream is released.
     */
    method OnStop(reply: Client.ServerReply, sentAt: string, id: nat, savedAt: string)
      returns (sent: Client.Payload)
      requires Valid() && recorder == Stopping
      modifies this, store
      ensures Valid()
      ensures sent == Client.PayloadFor(Joined(old(chunks)), RecordedMimeType, sentAt)
      ensures recorder == Inactive && !recording && chunks == old(chunks)
      ensures openStreams == old(openStreams) - 1
      ensures Client.TranscriptFrom(reply).Ok? ==>
                status == SavedStatus
                && store.Records() == [Entry(id, savedAt, Client.TranscriptFrom(reply).value)] + old(store.Records())
      ensures Client.TranscriptFrom(reply).Err? ==>
                status == TranscribeErrorStatus && store.item == old(store.item)
    {
      recorder := Inactive;
      status := ProcessingStatus;
      var audio := Joined(chunks);
      sent := Client.PayloadFor(audio, RecordedMimeType, sentAt);
      var result := Client.TranscriptFrom(reply);
      if result.Ok? {
        SaveTranscript(id, savedAt, result.value);
        status := SavedStatus;
      } else {
        status := TranscribeErrorStatus;
      }
      openStreams := openStreams - 1;
    }
  }
}
