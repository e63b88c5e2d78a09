/** Record shapes shared by the store, the recorder and the schedule view (types.ts). */
module Types {

  datatype Option<+T> = None | Some(value: T)

  /** A scheduled task. `hour` is meant to be 0-23, but nothing enforces it. */
  datatype Todo = Todo(id: string, title: string, hour: int, completed: bool, color: Option<string>)

  /** The four upload states of a recording. */
  datatype RecordingStatus = Queued | Uploading | Uploaded | Failed

  /** A media payload, abstracted to the sizes of its parts and its mime type. */
  datatype Blob = Blob(parts: seq<nat>, mimeType: string)

  /** One entry of the recordings history. */
  datatype VoiceRecording = VoiceRecording(
    id: string,
    blob: Blob,
    timestamp: int,
    duration: int,
    status: RecordingStatus,
    url: Option<string>)

  /** Sum of a sequence of sizes. */
  function Total(sizes: seq<nat>): nat
  {
    if sizes == [] then 0 else Total(sizes[..|sizes| - 1]) + sizes[|sizes| - 1]
  }

  /** The byte size of a blob: the sum of the sizes of its parts. */
  function Size(b: Blob): nat
  {
    Total(b.parts)
  }

  /** Every size in `sizes` is strictly positive. */
  predicate AllPositive(sizes: seq<nat>)
  {
    forall i :: 0 <= i < |sizes| ==> sizes[i] > 0
  }

  /** A blob made of non-empty parts is non-empty exactly when it has a part. */
  lemma {:induction false} SizePositiveIffHasParts(sizes: seq<nat>)
    requires AllPositive(sizes)
    ensures Total(sizes) > 0 <==> sizes != []
    ensures Total(sizes) >= |sizes|
  {
    if sizes != [] {
      SizePositiveIffHasParts(sizes[..|sizes| - 1]);
    }
  }
}
