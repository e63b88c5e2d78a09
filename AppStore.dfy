/**
 * The global application store (store/useStore.ts). Every action computes the next
 * state from the previous one; the store merges the partial state it returns, so each
 * action is a function from state to state that leaves the other fields alone.
 */
module AppStore {
  import opened Types

  datatype AppState = AppState(
    todos: seq<Todo>,
    recordings: seq<VoiceRecording>,
    isLoading: bool,
    error: Option<string>)

  /** The state the store is created with. */
  function Initial(): (st: AppState)
    ensures st.todos == [] && st.recordings == []
    ensures !st.isLoading && st.error.None?
  {
    AppState([], [], false, None)
  }

  // ---------------------------------------------------------------- todos

  /** `setTodos(xs)`: replaces the task list; nothing else changes. */
  function SetTodos(st: AppState, xs: seq<Todo>): (r: AppState)
    ensures r.todos == xs
    ensures r.recordings == st.recordings && r.isLoading == st.isLoading && r.error == st.error
  {
    st.(todos := xs)
  }

  /** `addTodo(t)`: appends `t` after the existing tasks. */
  function AddTodo(st: AppState, t: Todo): (r: AppState)
    ensures |r.todos| == |st.todos| + 1
    ensures r.todos[..|st.todos|] == st.todos && r.todos[|st.todos|] == t
    ensures r.recordings == st.recordings && r.isLoading == st.isLoading && r.error == st.error
  {
    st.(todos := st.todos + [t])
  }

  /** The same task with its `completed` flag flipped. */
  function Flipped(t: Todo): Todo
  {
    t.(completed := !t.completed)
  }

  /** The `map` inside `toggleTodo`: flips `completed` on the tasks whose id is `id`. */
  function ToggleAll(ts: seq<Todo>, id: string): (r: seq<Todo>)
    ensures |r| == |ts|
    ensures forall i :: 0 <= i < |ts| ==>
              && r[i].id == ts[i].id && r[i].title == ts[i].title
              && r[i].hour == ts[i].hour && r[i].color == ts[i].color
              && (r[i].completed <==> (ts[i].completed != (ts[i].id == id)))
  {
    if ts == [] then []
    else
      var last := ts[|ts| - 1];
      ToggleAll(ts[..|ts| - 1], id) + [if last.id == id then Flipped(last) else last]
  }

  /** `toggleTodo(id)`: flips `completed` on the matching tasks; nothing else changes. */
  function ToggleTodo(st: AppState, id: string): (r: AppState)
    ensures |r.todos| == |st.todos|
    ensures forall i :: 0 <= i < |st.todos| && st.todos[i].id != id ==> r.todos[i] == st.todos[i]
    ensures forall i :: 0 <= i < |st.todos| && st.todos[i].id == id ==>
              r.todos[i] == st.todos[i].(completed := !st.todos[i].completed)
    ensures r.recordings == st.recordings && r.isLoading == st.isLoading && r.error == st.error
  {
    st.(todos := ToggleAll(st.todos, id))
  }

  /** Whether some task has id `id`. */
  predicate HasTodo(ts: seq<Todo>, id: string)
  {
    exists i :: 0 <= i < |ts| && ts[i].id == id
  }

  /** Toggling an id no task carries changes nothing. */
  lemma ToggleUnknownIsNoOp(st: AppState, id: string)
    requires !HasTodo(st.todos, id)
    ensures ToggleTodo(st, id) == st
  {
    assert ToggleTodo(st, id).todos == st.todos;
  }

  /** Toggling the same id twice gives back the original state. */
  lemma ToggleTwiceIsIdentity(st: AppState, id: string)
    ensures ToggleTodo(ToggleTodo(st, id), id) == st
  {
    var r := ToggleTodo(ToggleTodo(st, id), id);
    assert r.todos == st.todos;
  }

  /** Toggles of two ids commute. */
  lemma ToggleCommutes(st: AppState, a: string, b: string)
    ensures ToggleTodo(ToggleTodo(st, a), b) == ToggleTodo(ToggleTodo(st, b), a)
  {
    assert ToggleTodo(ToggleTodo(st, a), b).todos == ToggleTodo(ToggleTodo(st, b), a).todos;
  }

  // ----------------------------------------------------------- recordings

  /** `addRecording(r)`: the newest recording goes first. */
  function AddRecording(st: AppState, rec: VoiceRecording): (r: AppState)
    ensures |r.recordings| == |st.recordings| + 1
    ensures r.recordings[0] == rec && r.recordings[1..] == st.recordings
    ensures r.todos == st.todos && r.isLoading == st.isLoading && r.error == st.error
  {
    st.(recordings := [rec] + st.recordings)
  }

  /** The `map` inside `updateRecordingStatus`: sets `status` on the entries whose id is `id`. */
  function SetStatusAll(rs: seq<VoiceRecording>, id: string, s: RecordingStatus): (r: seq<VoiceRecording>)
    ensures |r| == |rs|
    ensures forall i :: 0 <= i < |rs| ==>
              && r[i].id == rs[i].id && r[i].blob == rs[i].blob
              && r[i].timestamp == rs[i].timestamp && r[i].duration == rs[i].duration
              && r[i].url == rs[i].url
              && r[i].status == (if rs[i].id == id then s else rs[i].status)
  {
    if rs == [] then []
    else [if rs[0].id == id then rs[0].(status := s) else rs[0]] + SetStatusAll(rs[1..], id, s)
  }

  /** `updateRecordingStatus(id, s)`: only the status of the matching entries changes. */
  function UpdateRecordingStatus(st: AppState, id: string, s: RecordingStatus): (r: AppState)
    ensures |r.recordings| == |st.recordings|
    ensures forall i :: 0 <= i < |st.recordings| && st.recordings[i].id != id ==>
              r.recordings[i] == st.recordings[i]
    ensures forall i :: 0 <= i < |st.recordings| && st.recordings[i].id == id ==>
              r.recordings[i] == st.recordings[i].(status := s)
    ensures r.todos == st.todos && r.isLoading == st.isLoading && r.error == st.error
  {
    st.(recordings := SetStatusAll(st.recordings, id, s))
  }

  /** Whether some recording has id `id`. */
  predicate HasRecording(rs: seq<VoiceRecording>, id: string)
  {
    exists i :: 0 <= i < |rs| && rs[i].id == id
  }

  /** An update for an id no recording carries changes nothing. */
  lemma UpdateUnknownIsNoOp(st: AppState, id: string, s: RecordingStatus)
    requires !HasRecording(st.recordings, id)
    ensures UpdateRecordingStatus(st, id, s) == st
  {
    assert UpdateRecordingStatus(st, id, s).recordings == st.recordings;
  }

  /**
   * Updates keyed by different ids commute, so uploads that finish in either order
   * leave the same history.
   */
  lemma UpdatesCommute(st: AppState, a: string, sa: RecordingStatus, b: string, sb: RecordingStatus)
    requires a != b
    ensures UpdateRecordingStatus(UpdateRecordingStatus(st, a, sa), b, sb)
         == UpdateRecordingStatus(UpdateRecordingStatus(st, b, sb), a, sa)
  {
    assert UpdateRecordingStatus(UpdateRecordingStatus(st, a, sa), b, sb).recordings
        == UpdateRecordingStatus(UpdateRecordingStatus(st, b, sb), a, sa).recordings;
  }

  /** Of two updates for the same id, the later one wins. */
  lemma LaterUpdateWins(st: AppState, id: string, s1: RecordingStatus, s2: RecordingStatus)
    ensures UpdateRecordingStatus(UpdateRecordingStatus(st, id, s1), id, s2)
         == UpdateRecordingStatus(st, id, s2)
  {
    assert UpdateRecordingStatus(UpdateRecordingStatus(st, id, s1), id, s2).recordings
        == UpdateRecordingStatus(st, id, s2).recordings;
  }

  // ------------------------------------------------------------------- UI

  /** `setLoading(b)`: only `isLoading` changes. */
  function SetLoading(st: AppState, loading: bool): (r: AppState)
    ensures r.isLoading == loading
    ensures r.todos == st.todos && r.recordings == st.recordings && r.error == st.error
  {
    st.(isLoading := loading)
  }

  /** `setError(e)`: only `error` changes. */
  function SetError(st: AppState, error: Option<string>): (r: AppState)
    ensures r.error == error
    ensures r.todos == st.todos && r.recordings == st.recordings && r.isLoading == st.isLoading
  {
    st.(error := error)
  }

  // ------------------------------------------------- derived progress count

  /** The number of completed tasks, as the sidebar shows it. */
  function CompletedCount(ts: seq<Todo>): (n: nat)
    ensures n <= |ts|
  {
    if ts == [] then 0
    else CompletedCount(ts[..|ts| - 1]) + (if ts[|ts| - 1].completed then 1 else 0)
  }

  /** Toggling one task carrying `id` moves the completed count by exactly one. */
  lemma {:induction false} ToggleMovesCountByOne(ts: seq<Todo>, k: nat)
    requires k < |ts|
    requires forall i :: 0 <= i < |ts| && i != k ==> ts[i].id != ts[k].id
    ensures CompletedCount(ToggleAll(ts, ts[k].id))
         == if ts[k].completed then CompletedCount(ts) - 1 else CompletedCount(ts) + 1
  {
    var id := ts[k].id;
    var n := |ts| - 1;
    var front := ts[..n];
    var last := ts[n];
    var flippedLast := if last.id == id then Flipped(last) else last;
    assert ts == front + [last];
    assert ToggleAll(ts, id) == ToggleAll(front, id) + [flippedLast];
    CountSnoc(front, last);
    CountSnoc(ToggleAll(front, id), flippedLast);
    if k == n {
      assert !HasTodo(front, id);
      ToggleAllUnknown(front, id);
    } else {
      assert front[k] == ts[k];
      ToggleMovesCountByOne(front, k);
    }
  }

  /** Appending one task adds its own contribution to the count. */
  lemma CountSnoc(ts: seq<Todo>, t: Todo)
    ensures CompletedCount(ts + [t]) == CompletedCount(ts) + (if t.completed then 1 else 0)
  {
    assert (ts + [t])[..|ts|] == ts;
  }

  /** The `map` of `toggleTodo` is the identity when no task carries `id`. */
  lemma ToggleAllUnknown(ts: seq<Todo>, id: string)
    requires !HasTodo(ts, id)
    ensures ToggleAll(ts, id) == ts
  {
  }
}
