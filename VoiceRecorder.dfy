/**
 * The capture session controller (components/VoiceRecorder.tsx).
 *
 * The component keeps its session in mutable references: the combined screen and
 * microphone stream, the current recorder, the buffer of recorded chunks, and the
 * handles of two repeating timers (a one-second tick for the elapsed-time display and a
 * twenty-minute rotation that stops the recorder and, 100 ms later, opens a new one on
 * the same stream). `CaptureController` holds those references as fields; the host
 * platform's events (a chunk arriving, a timer firing, the screen share ending) are
 * methods the environment calls. Every finished segment is handed to the upload
 * pipeline; `uploads` lists those hand-overs in order, and `SaveAndUpload` says what
 * each one does to the application store.
 */
module VoiceRecorder {
  import opened Types
  import opened AppStore
  import Text

  /** Rotation period: 20 minutes, in milliseconds. */
  const AutoUploadIntervalMs: nat := 20 * 60 * 1000
  /** Period of the elapsed-time tick, in milliseconds. */
  const TickIntervalMs: nat := 1000
  /** Delay between stopping a recorder on rotation and opening the next one. */
  const RestartDelayMs: nat := 100

  const PreferredMimeType: string := "video/webm;codecs=vp8,opus"
  const FallbackMimeType: string := "video/webm"

  /** The combined capture stream. Its identity is what a rotation must keep. */
  class MediaStream {
    var active: bool
    var tracksStopped: bool

    constructor (active: bool)
      ensures this.active == active && !tracksStopped
    {
      this.active := active;
      tracksStopped := false;
    }

    /** `getTracks().forEach(track => track.stop())`: the stream ends. */
    method StopTracks()
      modifies this
      ensures tracksStopped && !active
    {
      tracksStopped := true;
      active := false;
    }
  }

  datatype RecorderState = Inactive | Recording

  /** A recorder bound to one stream and one mime type. */
  class MediaRecorder {
    const stream: MediaStream
    const mimeType: string
    var state: RecorderState

    constructor (stream: MediaStream, mimeType: string)
      ensures this.stream == stream && this.mimeType == mimeType && state == Inactive
    {
      this.stream := stream;
      this.mimeType := mimeType;
      state := Inactive;
    }

    method Start()
      modifies this
      ensures state == Recording
    {
      state := Recording;
    }

    method Stop()
      modifies this
      ensures state == Inactive
    {
      state := Inactive;
    }
  }

  /** The outcome of the two permission prompts of a fresh start. */
  datatype Acquisition =
    | Granted(streamActive: bool)  // both grants; the combined stream may still be inactive
    | Rejected                     // either prompt failed or was refused

  /** The container type is chosen once per recorder: the vp8/opus variant when the host supports it. */
  function ChooseMimeType(vp8OpusSupported: bool): (m: string)
    ensures vp8OpusSupported ==> m == PreferredMimeType
    ensures !vp8OpusSupported ==> m == FallbackMimeType
  {
    if vp8OpusSupported then PreferredMimeType else FallbackMimeType
  }

  /** The segment the stop handler hands to the upload pipeline: none when nothing was recorded. */
  function FinalSegment(chunks: seq<nat>, mimeType: string): (segment: seq<Blob>)
    requires AllPositive(chunks)
    ensures |segment| <= 1
    ensures |segment| == 1 <==> Size(Blob(chunks, mimeType)) > 0
    ensures |segment| == 1 <==> chunks != []
    ensures segment != [] ==> segment[0].parts == chunks && segment[0].mimeType == mimeType
  {
    SizePositiveIffHasParts(chunks);
    if Size(Blob(chunks, mimeType)) > 0 then [Blob(chunks, mimeType)] else []
  }

  function HandleSet(handle: Option<nat>): set<nat>
  {
    if handle.Some? then {handle.value} else {}
  }

  class CaptureController {
    // The component's state and references.
    var isRecording: bool
    var duration: nat
    var stream: MediaStream?
    var recorder: MediaRecorder?
    var chunks: seq<nat>
    var timer: Option<nat>      // elapsed-time tick
    var interval: Option<nat>   // rotation
    // What the host platform holds on the component's behalf.
    var armed: set<nat>         // handles of the repeating timers currently scheduled
    var nextHandle: nat         // the host hands out positive, increasing handles
    var pendingRestarts: nat    // 100 ms restarts scheduled by rotations and not yet run
    var uploads: seq<Blob>      // segments handed to the upload pipeline, oldest first

    /** What holds between any two statements of the component. */
    ghost predicate Consistent()
      reads this
    {
      && AllPositive(chunks)
      && (forall k :: 0 <= k < |uploads| ==> Size(uploads[k]) > 0)
      && armed == HandleSet(timer) + HandleSet(interval)
      && 0 < nextHandle
      && (forall h :: h in armed ==> 0 < h < nextHandle)
      && (timer.Some? && interval.Some? ==> timer.value != interval.value)
    }

    /**
     * The session invariant: while recording there are a stream, a recorder on that
     * stream and exactly the two timers; when stopped there is nothing at all.
     */
    ghost predicate Valid()
      reads this, recorder
    {
      && Consistent()
      && (if isRecording then
            && stream != null && recorder != null && recorder.stream == stream
            && timer.Some? && interval.Some?
          else
            Idle())
    }

    /** No stream, no recorder, no timer. */
    ghost predicate Idle()
      reads this
    {
      && !isRecording && stream == null && recorder == null
      && timer.None? && interval.None? && armed == {}
    }

    constructor ()
      ensures Valid() && Idle()
      ensures duration == 0 && chunks == [] && uploads == [] && pendingRestarts == 0
    {
      isRecording, duration := false, 0;
      stream, recorder := null, null;
      chunks := [];
      timer, interval := None, None;
      armed, nextHandle := {}, 1;
      pendingRestarts := 0;
      uploads := [];
    }

    /** `handleDataAvailable`: only a non-empty chunk is kept. */
    method HandleDataAvailable(size: nat)
      requires Consistent()
      modifies this`chunks
      ensures Consistent()
      ensures size > 0 ==> chunks == old(chunks) + [size]
      ensures size == 0 ==> chunks == old(chunks)
    {
      if size > 0 {
        chunks := chunks + [size];
      }
    }

    /**
     * The recorder's stop handler: joins the chunks into one blob, hands it to the upload
     * pipeline only when it is not empty, and empties the buffer in every case.
     */
    method OnStop(mimeType: string)
      requires Consistent()
      modifies this`chunks, this`uploads
      ensures Consistent()
      ensures chunks == []
      ensures uploads == old(uploads) + FinalSegment(old(chunks), mimeType)
      ensures |uploads| == |old(uploads)| + (if old(chunks) == [] then 0 else 1)
    {
      var blob := Blob(chunks, mimeType);
      SizePositiveIffHasParts(chunks);
      if Size(blob) > 0 {
        uploads := uploads + [blob];
      }
      chunks := [];
    }

    /** Stops the recorder, which runs its stop handler. */
    method StopRecorder(r: MediaRecorder)
      requires Consistent()
      modifies this`chunks, this`uploads, r
      ensures Consistent() && r.state == Inactive
      ensures chunks == [] && uploads == old(uploads) + FinalSegment(old(chunks), r.mimeType)
    {
      r.Stop();
      OnStop(r.mimeType);
    }

    /**
     * `stopRecording`: cancels both timers, stops the recorder only if it is recording,
     * ends the stream's tracks and drops every reference. Calling it again changes nothing.
     */
    method StopRecording()
      requires Consistent()
      modifies this, stream, recorder
      ensures Valid() && Idle()
      ensures old(stream) != null ==> old(stream).tracksStopped
      ensures old(recorder) != null ==> old(recorder).state == Inactive
      ensures old(recorder) != null && old(recorder.state) == Recording ==>
                chunks == [] && uploads == old(uploads) + FinalSegment(old(chunks), old(recorder).mimeType)
      ensures old(recorder) == null || old(recorder.state) == Inactive ==>
                chunks == old(chunks) && uploads == old(uploads)
      ensures duration == old(duration) && nextHandle == old(nextHandle)
      ensures pendingRestarts == old(pendingRestarts)
      ensures old(Idle()) ==> unchanged(this)
    {
      ClearTimers();
      ReleaseRecorder();
      ReleaseStream();
      isRecording := false;
    }

    /** The first block of `stopRecording`: both timers are cancelled and forgotten. */
    method ClearTimers()
      requires Consistent()
      modifies this`timer, this`interval, this`armed
      ensures Consistent() && timer.None? && interval.None? && armed == {}
    {
      if timer.Some? {
        armed := armed - {timer.value};
        timer := None;
      }
      if interval.Some? {
        armed := armed - {interval.value};
        interval := None;
      }
    }

    /**
     * The second block of `stopRecording`: a recording recorder is stopped (its stop
     * handler runs), and the reference is dropped.
     */
    method ReleaseRecorder()
      requires Consistent()
      modifies this`recorder, this`chunks, this`uploads, recorder
      ensures Consistent() && recorder == null
      ensures old(recorder) != null ==> old(recorder).state == Inactive
      ensures old(recorder) != null && old(recorder.state) == Recording ==>
                chunks == [] && uploads == old(uploads) + FinalSegment(old(chunks), old(recorder).mimeType)
      ensures old(recorder) == null || old(recorder.state) == Inactive ==>
                chunks == old(chunks) && uploads == old(uploads)
    {
      if recorder != null {
        if recorder.state == Recording {
          StopRecorder(recorder);
        }
        recorder := null;
      }
    }

    /** The third block of `stopRecording`: the stream's tracks end and the reference is dropped. */
    method ReleaseStream()
      modifies this`stream, stream
      ensures stream == null
      ensures old(stream) != null ==> old(stream).tracksStopped
    {
      if stream != null {
        stream.StopTracks();
        stream := null;
      }
    }

    /** Whether a start gets past the stream acquisition and the safety check. */
    ghost predicate StartSucceeds(isRestart: bool, acquisition: Acquisition)
      reads this, stream
    {
      if isRestart then stream != null && stream.active else acquisition == Granted(true)
    }

    /** Arms a repeating timer and returns its handle. */
    method SetInterval() returns (handle: nat)
      requires 0 < nextHandle
      modifies this`armed, this`nextHandle
      ensures handle == old(nextHandle) && 0 < handle
      ensures nextHandle == handle + 1 && armed == old(armed) + {handle}
    {
      handle := nextHandle;
      nextHandle := nextHandle + 1;
      armed := armed + {handle};
    }

    /**
     * `startRecording(isRestart)`. A fresh start acquires a new stream; a restart reuses
     * the current one. A missing or inactive stream, or a failed acquisition, ends in the
     * stopped state. Otherwise a new recorder is opened on the stream with an empty
     * buffer; a fresh start also resets the duration and replaces both timers, while a
     * restart leaves the duration, the recording flag and the timers as they were.
     */
    method StartRecording(isRestart: bool, acquisition: Acquisition, vp8OpusSupported: bool)
      requires Valid()
      modifies this, stream, recorder
      ensures Valid()
      ensures pendingRestarts == old(pendingRestarts)
      ensures nextHandle == old(nextHandle) + (if old(StartSucceeds(isRestart, acquisition)) && !isRestart then 2 else 0)
      ensures !old(StartSucceeds(isRestart, acquisition)) ==> Idle() && duration == old(duration)
      ensures !old(StartSucceeds(isRestart, acquisition)) && old(recorder) != null ==> old(recorder).state == Inactive
      ensures !old(StartSucceeds(isRestart, acquisition)) && old(recorder) != null && old(recorder.state) == Recording ==>
                chunks == [] && uploads == old(uploads) + FinalSegment(old(chunks), old(recorder).mimeType)
      ensures !old(StartSucceeds(isRestart, acquisition)) && (old(recorder) == null || old(recorder.state) == Inactive) ==>
                chunks == old(chunks) && uploads == old(uploads)
      ensures !old(StartSucceeds(isRestart, acquisition)) && (isRestart || acquisition.Rejected?) && old(stream) != null ==>
                old(stream).tracksStopped
      ensures !isRestart && acquisition.Granted? && old(stream) != null ==> unchanged(old(stream))
      ensures old(StartSucceeds(isRestart, acquisition)) && old(recorder) != null ==> unchanged(old(recorder))
      ensures old(StartSucceeds(isRestart, acquisition)) ==>
                && isRecording && stream != null && stream.active
                && fresh(recorder) && recorder.stream == stream && recorder.state == Recording
                && recorder.mimeType == ChooseMimeType(vp8OpusSupported)
                && chunks == [] && uploads == old(uploads)
      ensures old(StartSucceeds(isRestart, acquisition)) && !isRestart ==>
                && fresh(stream) && duration == 0
                && timer == Some(old(nextHandle)) && interval == Some(old(nextHandle) + 1)
                && armed == {old(nextHandle), old(nextHandle) + 1}
      ensures old(StartSucceeds(isRestart, acquisition)) && isRestart ==> unchanged(old(stream))
      ensures old(StartSucceeds(isRestart, acquisition)) && isRestart ==>
                && stream == old(stream) && old(isRecording) && duration == old(duration)
                && timer == old(timer) && interval == old(interval) && armed == old(armed)
    {
      var s := stream;
      if !isRestart {
        match acquisition {
          case Rejected =>
            StopRecording();
            return;
          case Granted(active) =>
            s := new MediaStream(active);
            stream := s;
        }
      }
      if s == null || !s.active {
        StopRecording();
        return;
      }
      OpenRecorder(s, ChooseMimeType(vp8OpusSupported));
      if !isRestart {
        ArmTimers();
      }
    }

    /** A new recorder on `s`, with an empty buffer, started. */
    method OpenRecorder(s: MediaStream, mimeType: string)
      requires Consistent()
      modifies this`recorder, this`chunks
      ensures Consistent() && chunks == []
      ensures fresh(recorder) && recorder.stream == s && recorder.mimeType == mimeType
      ensures recorder.state == Recording
    {
      var r := new MediaRecorder(s, mimeType);
      recorder := r;
      chunks := [];
      r.Start();
    }

    /**
     * The fresh-start block of `startRecording`: the session is marked recording, the
     * duration reset, and each timer cleared if set and armed anew.
     */
    method ArmTimers()
      requires Consistent()
      modifies this`isRecording, this`duration, this`timer, this`interval, this`armed, this`nextHandle
      ensures Consistent() && isRecording && duration == 0
      ensures timer == Some(old(nextHandle)) && interval == Some(old(nextHandle) + 1)
      ensures armed == {old(nextHandle), old(nextHandle) + 1} && nextHandle == old(nextHandle) + 2
    {
      isRecording := true;
      duration := 0;
      if timer.Some? {
        armed := armed - {timer.value};
      }
      var t := SetInterval();
      timer := Some(t);
      if interval.Some? {
        armed := armed - {interval.value};
      }
      var i := SetInterval();
      interval := Some(i);
    }

    /** The tick, every `TickIntervalMs`: the displayed duration grows by one second. */
    method Tick()
      requires Valid() && timer.Some?
      modifies this`duration
      ensures Valid() && duration == old(duration) + 1
    {
      duration := duration + 1;
    }

    /**
     * The rotation timer, every `AutoUploadIntervalMs`: a recording recorder is stopped, which hands its segment to
     * the upload pipeline, and a restart is scheduled `RestartDelayMs` later; the stream, the duration and both
     * timers are untouched. A recorder that is not recording is left alone.
     */
    method RotationFire()
      requires Valid() && interval.Some?
      modifies this`chunks, this`uploads, this`pendingRestarts, recorder
      ensures Valid()
      ensures old(recorder.state) == Recording ==>
                && recorder.state == Inactive && pendingRestarts == old(pendingRestarts) + 1
                && chunks == [] && uploads == old(uploads) + FinalSegment(old(chunks), recorder.mimeType)
      ensures old(recorder.state) == Inactive ==>
                && recorder.state == Inactive && pendingRestarts == old(pendingRestarts)
                && chunks == old(chunks) && uploads == old(uploads)
    {
      if recorder != null && recorder.state == Recording {
        StopRecorder(recorder);
        pendingRestarts := pendingRestarts + 1;
      }
    }

    /**
     * The restart a rotation scheduled `RestartDelayMs` earlier: `startRecording(true)`. It reopens a
     * recorder on the same stream, or, when the session was stopped in the meantime or
     * the stream ended, leaves everything stopped.
     */
    method RestartFire(vp8OpusSupported: bool)
      requires Valid() && pendingRestarts > 0
      modifies this, stream, recorder
      ensures Valid() && pendingRestarts == old(pendingRestarts) - 1
      ensures nextHandle == old(nextHandle)
      ensures old(stream) == null || !old(stream.active) ==> Idle() && duration == old(duration)
      ensures (old(stream) == null || !old(stream.active)) && old(recorder) != null && old(recorder.state) == Recording ==>
                chunks == [] && uploads == old(uploads) + FinalSegment(old(chunks), old(recorder).mimeType)
      ensures (old(stream) == null || !old(stream.active)) && (old(recorder) == null || old(recorder.state) == Inactive) ==>
                chunks == old(chunks) && uploads == old(uploads)
      ensures old(stream) != null && !old(stream.active) ==> old(stream).tracksStopped
      ensures old(stream) != null && old(stream.active) && old(recorder) != null ==> unchanged(old(recorder))
      ensures old(stream) != null && old(stream.active) ==> unchanged(old(stream))
      ensures (old(stream) == null || !old(stream.active)) && old(recorder) != null ==> old(recorder).state == Inactive
      ensures old(stream) != null && old(stream.active) ==>
                && stream == old(stream) && stream.active && isRecording && duration == old(duration)
                && timer == old(timer) && interval == old(interval) && armed == old(armed)
                && fresh(recorder) && recorder.stream == stream && recorder.state == Recording
                && chunks == [] && uploads == old(uploads)
    {
      pendingRestarts := pendingRestarts - 1;
      StartRecording(true, Rejected, vp8OpusSupported);
    }

    /**
     * The screen share was ended from the browser: the session stops as on `stopRecording`,
     * so a recording recorder hands over its last segment.
     */
    method OnDisplayTrackEnded()
      requires Consistent()
      modifies this, stream, recorder
      ensures Valid() && Idle()
      ensures old(stream) != null ==> old(stream).tracksStopped
      ensures old(recorder) != null ==> old(recorder).state == Inactive
      ensures old(recorder) != null && old(recorder.state) == Recording ==>
                chunks == [] && uploads == old(uploads) + FinalSegment(old(chunks), old(recorder).mimeType)
      ensures old(recorder) == null || old(recorder.state) == Inactive ==>
                chunks == old(chunks) && uploads == old(uploads)
      ensures duration == old(duration) && nextHandle == old(nextHandle)
      ensures pendingRestarts == old(pendingRestarts)
      ensures old(Idle()) ==> unchanged(this)
    {
      StopRecording();
    }
  }

  /**
   * One store state during `saveAndUpload`: the new entry sits at the head of the
   * history with the given fields and status, and the tasks and UI flags are untouched.
   */
  predicate HeadEntry(st: AppState, step: AppState, entry: VoiceRecording)
  {
    && step.todos == st.todos && step.isLoading == st.isLoading && step.error == st.error
    && |step.recordings| == |st.recordings| + 1
    && step.recordings[0] == entry
  }

  /** The store states `saveAndUpload` passes through for one segment. */
  function SaveAndUpload(st: AppState, id: string, timestamp: int, duration: int, blob: Blob,
                         uploadSucceeds: bool): (steps: seq<AppState>)
    ensures |steps| == 3
    ensures HeadEntry(st, steps[0], VoiceRecording(id, blob, timestamp, duration, Queued, None))
    ensures HeadEntry(st, steps[1], VoiceRecording(id, blob, timestamp, duration, Uploading, None))
    ensures HeadEntry(st, steps[2], VoiceRecording(id, blob, timestamp, duration,
                                                   if uploadSucceeds then Uploaded else Failed, None))
    ensures !HasRecording(st.recordings, id) ==>
              && steps[0].recordings[1..] == st.recordings
              && steps[1].recordings[1..] == st.recordings
              && steps[2].recordings[1..] == st.recordings
  {
    var queued := AddRecording(st, VoiceRecording(id, blob, timestamp, duration, Queued, None));
    var uploading := UpdateRecordingStatus(queued, id, Uploading);
    var done := UpdateRecordingStatus(uploading, id, if uploadSucceeds then Uploaded else Failed);
    assert !HasRecording(st.recordings, id) ==>
             uploading.recordings[1..] == st.recordings && done.recordings[1..] == st.recordings by {
      if !HasRecording(st.recordings, id) {
        UpdateUnknownIsNoOp(st, id, Uploading);
        assert uploading.recordings[1..] == st.recordings;
      }
    }
    [queued, uploading, done]
  }

  /** The store after `saveAndUpload` has finished. */
  function AfterUpload(st: AppState, id: string, timestamp: int, duration: int, blob: Blob,
                       uploadSucceeds: bool): AppState
  {
    SaveAndUpload(st, id, timestamp, duration, blob, uploadSucceeds)[2]
  }

  /** A failed upload does not hold up the next one: both end in their own terminal state. */
  lemma FailedUploadDoesNotBlockNext(st: AppState, id1: string, id2: string, t1: int, t2: int,
                                     d1: int, d2: int, b1: Blob, b2: Blob, secondSucceeds: bool)
    requires id1 != id2 && !HasRecording(st.recordings, id1) && !HasRecording(st.recordings, id2)
    ensures var last := AfterUpload(AfterUpload(st, id1, t1, d1, b1, false), id2, t2, d2, b2, secondSucceeds);
            && |last.recordings| == |st.recordings| + 2
            && last.recordings[0].id == id2
            && last.recordings[0].status == (if secondSucceeds then Uploaded else Failed)
            && last.recordings[1].id == id1 && last.recordings[1].status == Failed
            && last.recordings[2..] == st.recordings
  {
    var first := AfterUpload(st, id1, t1, d1, b1, false);
    assert !HasRecording(first.recordings, id2);
    var last := AfterUpload(first, id2, t2, d2, b2, secondSucceeds);
    assert last.recordings[1..] == first.recordings;
  }

  /**
   * `formatTime`: the whole minutes, a colon, and the remaining seconds as exactly two
   * digits (`mm:ss`, with more minute digits past 99 minutes).
   */
  function FormatTime(seconds: nat): (text: string)
    ensures |text| >= 5 && text[|text| - 3] == ':'
    ensures seconds < 6000 <==> |text| == 5
  {
    var mins, secs := Text.ZeroPadded(seconds / 60, 2), Text.ZeroPadded(seconds % 60, 2);
    MinutesBelowHundred(seconds);
    assert |mins| == 2 <==> seconds / 60 < 100;
    mins + ":" + secs
  }

  /** Whole minutes fit in two digits exactly below 6000 seconds. */
  lemma MinutesBelowHundred(seconds: nat)
    ensures seconds / 60 < 100 <==> seconds < 6000
  {
  }

  /** The number a field of decimal digits denotes; `None` when it holds another character. */
  function ReadField(field: string): Option<nat>
  {
    if Text.AllDigits(field) then Some(Text.Value(field)) else None
  }

  /** The field before the colon of a display. */
  function MinutesField(text: string): string
    requires |text| >= 3
  {
    text[..|text| - 3]
  }

  /** The two characters after the colon of a display. */
  function SecondsField(text: string): string
    requires |text| >= 2
  {
    text[|text| - 2..]
  }

  /** Reads a `mm:ss` display back into seconds; `None` for text of another shape. */
  function ReadTime(text: string): Option<nat>
  {
    if |text| >= 5 && text[|text| - 3] == ':' then
      match (ReadField(MinutesField(text)), ReadField(SecondsField(text)))
      case (Some(m), Some(r)) => Some(m * 60 + r)
      case _ => None
    else None
  }

  /** The display loses nothing: reading it back gives the number of seconds. */
  lemma FormatTimeRoundTrip(seconds: nat)
    ensures ReadTime(FormatTime(seconds)) == Some(seconds)
  {
    var m, r := seconds / 60, seconds % 60;
    FormatTimeFields(seconds);
    DisplayFields(seconds, m, r);
    ReadBack(FormatTime(seconds), m, r);
  }

  /** A display whose two fields read as `m` and `r` reads as `m * 60 + r` seconds. */
  lemma ReadBack(text: string, m: nat, r: nat)
    requires |text| >= 5 && text[|text| - 3] == ':'
    requires ReadField(MinutesField(text)) == Some(m) && ReadField(SecondsField(text)) == Some(r)
    ensures ReadTime(text) == Some(m * 60 + r)
  {
  }

  /**
   * The field before the colon is the decimal of the whole minutes, the two digits after
   * it the decimal of the remaining seconds.
   */
  lemma FormatTimeFields(seconds: nat)
    ensures ReadField(MinutesField(FormatTime(seconds))) == Some(seconds / 60)
    ensures ReadField(SecondsField(FormatTime(seconds))) == Some(seconds % 60)
  {
    var m, r := seconds / 60, seconds % 60;
    DisplayFields(seconds, m, r);
    SplitFields(Text.ZeroPadded(m, 2), Text.ZeroPadded(r, 2), m, r);
  }

  /** The two fields of `mins:secs` read back as the values of `mins` and `secs`. */
  lemma SplitFields(mins: string, secs: string, m: nat, r: nat)
    requires Text.AllDigits(mins) && Text.AllDigits(secs) && |secs| == 2
    requires Text.Value(mins) == m && Text.Value(secs) == r
    ensures ReadField(MinutesField(mins + ":" + secs)) == Some(m)
    ensures ReadField(SecondsField(mins + ":" + secs)) == Some(r)
  {
    var text := mins + ":" + secs;
    assert MinutesField(text) == mins && SecondsField(text) == secs;
  }

  /** The display is the two padded fields around the colon. */
  lemma DisplayFields(seconds: nat, m: nat, r: nat)
    requires m == seconds / 60 && r == seconds % 60
    ensures FormatTime(seconds) == Text.ZeroPadded(m, 2) + ":" + Text.ZeroPadded(r, 2)
    ensures m * 60 + r == seconds && r < 60
  {
  }

  /** A fresh session on a granted, active stream: recording, with nothing handed over yet. */
  method StartSession() returns (c: CaptureController)
    ensures fresh(c) && fresh(c.stream) && fresh(c.recorder)
    ensures c.Valid() && c.isRecording && c.recorder.state == Recording && c.stream.active
    ensures c.pendingRestarts == 0 && c.duration == 0 && c.chunks == [] && c.uploads == []
  {
    c := new CaptureController();
    c.StartRecording(false, Granted(true), true);
  }

  /**
   * One rotation of a running session: a chunk arrives, the rotation hands the segment
   * over, and the restart opens the next recorder on the same stream.
   */
  method RotateOnce(c: CaptureController, size: nat)
    requires c.Valid() && c.isRecording && c.recorder.state == Recording
    requires c.stream.active && c.pendingRestarts == 0 && size > 0
    modifies c, c.stream, c.recorder
    ensures c.Valid() && c.isRecording && c.recorder.state == Recording
    ensures c.stream == old(c.stream) && c.stream.active && c.pendingRestarts == 0
    ensures c.uploads == old(c.uploads) + [Blob(old(c.chunks) + [size], old(c.recorder).mimeType)]
    ensures c.chunks == [] && fresh(c.recorder)
    ensures c.duration == old(c.duration) && c.nextHandle == old(c.nextHandle)
    ensures c.timer == old(c.timer) && c.interval == old(c.interval) && c.armed == old(c.armed)
  {
    c.HandleDataAvailable(size);
    c.RotationFire();
    c.RestartFire(true);
  }

  /**
   * Two rotations and then a stop: the two rotation segments and the final segment are
   * handed over, three in all, on one stream throughout; a second stop changes nothing.
   */
  method TwoRotationsThenStop()
  {
    var c := StartSession();
    var s := c.stream;
    RotateOnce(c, 512);
    RotateOnce(c, 300);
    assert c.stream == s && |c.uploads| == 2;
    c.HandleDataAvailable(128);
    c.StopRecording();
    assert |c.uploads| == 3;
    assert c.Idle() && s.tracksStopped;
    c.StopRecording();
    assert |c.uploads| == 3 && c.Idle();
  }

  /**
   * A stop within 100 ms of a rotation: the rotation's segment is handed over, and the
   * restart it scheduled, firing after the stop, leaves the session stopped and hands
   * nothing more over.
   */
  method StopBeforeRestart() returns (c: CaptureController)
    ensures c.Valid() && c.Idle() && c.pendingRestarts == 0
    ensures |c.uploads| == 1 && c.uploads[0].parts == [512] && c.chunks == []
  {
    c := StartSession();
    c.HandleDataAvailable(512);
    c.RotationFire();
    c.StopRecording();
    c.RestartFire(true);
  }

  /**
   * The restart a rotation schedules is not cancelled by a stop. When a fresh session is
   * started before it fires, it opens a recorder on the new stream and replaces the
   * fresh session's recorder, which is left recording with no reference to it.
   */
  method StaleRestartOrphansFreshRecorder() returns (c: CaptureController, orphan: MediaRecorder)
    ensures c.Valid() && c.isRecording && c.pendingRestarts == 0
    ensures orphan.state == Recording && orphan.stream == c.stream
    ensures c.recorder != orphan
  {
    c := StartSession();
    c.HandleDataAvailable(512);
    c.RotationFire();
    c.StopRecording();
    c.StartRecording(false, Granted(true), true);
    orphan := c.recorder;
    c.RestartFire(true);
  }
}
