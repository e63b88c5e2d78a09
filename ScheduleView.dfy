/**
 * The daily schedule (components/ScheduleView.tsx): the tasks are grouped by hour in
 * one pass, then the hours 0..23 are walked in order and each hour that is a work
 * hour or has tasks becomes a row with at most four task cards, or a free-slot
 * placeholder when it has none.
 */
module ScheduleView {
  import opened Types
  import Text

  const FirstWorkHour: int := 8
  const LastWorkHour: int := 20
  const MaxCards: nat := 4

  // ------------------------------------------------------------ grouping

  /** The tasks of `todos` whose hour is `h`, in their original order. */
  function TodosAt(todos: seq<Todo>, h: int): (bucket: seq<Todo>)
    ensures |bucket| <= |todos|
    ensures forall k :: 0 <= k < |bucket| ==> bucket[k].hour == h
  {
    if todos == [] then []
    else
      var n := |todos| - 1;
      TodosAt(todos[..n], h) + (if todos[n].hour == h then [todos[n]] else [])
  }

  /** A task is in the bucket of `h` exactly when it is one of the tasks and has hour `h`. */
  lemma {:induction false} TodosAtMembers(todos: seq<Todo>, h: int)
    ensures forall t :: t in TodosAt(todos, h) <==> t in todos && t.hour == h
  {
    if todos != [] {
      var n := |todos| - 1;
      assert todos == todos[..n] + [todos[n]];
      TodosAtMembers(todos[..n], h);
    }
  }

  /** The hours that some task carries: the keys the grouping creates. */
  function HoursOf(todos: seq<Todo>): set<int>
  {
    set i | 0 <= i < |todos| :: todos[i].hour
  }

  /** An hour no task carries has an empty bucket. */
  lemma {:induction false} BucketOfAbsentHour(todos: seq<Todo>, h: int)
    requires h !in HoursOf(todos)
    ensures TodosAt(todos, h) == []
  {
    if todos != [] {
      var n := |todos| - 1;
      assert HoursOf(todos[..n]) <= HoursOf(todos) by {
        forall k | 0 <= k < n ensures todos[..n][k].hour in HoursOf(todos) {
          assert todos[..n][k] == todos[k];
        }
      }
      assert todos[n].hour in HoursOf(todos);
      BucketOfAbsentHour(todos[..n], h);
    }
  }

  /** What the grouping computes: one bucket per hour that occurs. */
  function Buckets(todos: seq<Todo>): map<int, seq<Todo>>
  {
    map h | h in HoursOf(todos) :: TodosAt(todos, h)
  }

  /** The `forEach` loop that fills `todosByHour`, creating a bucket on first use. */
  method GroupByHour(todos: seq<Todo>) returns (byHour: map<int, seq<Todo>>)
    ensures byHour == Buckets(todos)
  {
    byHour := map[];
    var i := 0;
    while i < |todos|
      invariant 0 <= i <= |todos|
      invariant byHour.Keys == HoursOf(todos[..i])
      invariant forall h :: h in byHour ==> byHour[h] == TodosAt(todos[..i], h)
    {
      var t := todos[i];
      ghost var before := byHour;
      if t.hour !in byHour {
        byHour := byHour[t.hour := []];
      }
      byHour := byHour[t.hour := byHour[t.hour] + [t]];
      assert todos[..i + 1][..i] == todos[..i] && todos[..i + 1][i] == t;
      forall h | h in byHour
        ensures byHour[h] == TodosAt(todos[..i + 1], h)
      {
        if h !in before {
          BucketOfAbsentHour(todos[..i], h);
        }
        assert TodosAt(todos[..i + 1], h) == TodosAt(todos[..i], h) + (if t.hour == h then [t] else []);
      }
      assert HoursOf(todos[..i + 1]) == HoursOf(todos[..i]) + {t.hour} by {
        assert forall k :: 0 <= k < i ==> todos[..i + 1][k] == todos[..i][k];
      }
      i := i + 1;
    }
    assert todos[..i] == todos;
  }

  /** `bucket` is `todos` with the entries outside `picked` deleted, `picked` ascending. */
  ghost predicate PicksOut(bucket: seq<Todo>, todos: seq<Todo>, picked: seq<nat>)
  {
    && |picked| == |bucket|
    && (forall k :: 0 <= k < |picked| ==> picked[k] < |todos| && todos[picked[k]] == bucket[k])
    && (forall k, l :: 0 <= k < l < |picked| ==> picked[k] < picked[l])
  }

  /**
   * A bucket is the subsequence of the tasks at that hour: the positions it keeps are
   * ascending and are exactly the positions whose task has that hour.
   */
  lemma {:induction false} BucketIsOrderedSubsequence(todos: seq<Todo>, h: int)
    returns (picked: seq<nat>)
    ensures PicksOut(TodosAt(todos, h), todos, picked)
    ensures forall i :: 0 <= i < |todos| ==> (i in picked <==> todos[i].hour == h)
  {
    if todos == [] {
      picked := [];
    } else {
      var n := |todos| - 1;
      var front := BucketIsOrderedSubsequence(todos[..n], h);
      picked := if todos[n].hour == h then front + [n] else front;
      PicksOutStep(todos, h, front, picked);
      PickedPositionsStep(todos, h, front, picked);
    }
  }

  /** Extending the positions picked from all but the last task to all the tasks. */
  lemma PicksOutStep(todos: seq<Todo>, h: int, front: seq<nat>, picked: seq<nat>)
    requires todos != []
    requires PicksOut(TodosAt(todos[..|todos| - 1], h), todos[..|todos| - 1], front)
    requires picked == if todos[|todos| - 1].hour == h then front + [|todos| - 1] else front
    ensures PicksOut(TodosAt(todos, h), todos, picked)
  {
    var n := |todos| - 1;
    var bucket := TodosAt(todos, h);
    assert bucket == TodosAt(todos[..n], h) + (if todos[n].hour == h then [todos[n]] else []);
    forall k | 0 <= k < |picked|
      ensures picked[k] < |todos| && todos[picked[k]] == bucket[k]
    {
      if k < |front| {
        assert picked[k] == front[k] && todos[..n][front[k]] == todos[front[k]];
      }
    }
    forall k, l | 0 <= k < l < |picked|
      ensures picked[k] < picked[l]
    {
      if l == |front| {
        assert picked[k] == front[k] < n;
      }
    }
  }

  /** The picked positions are still exactly those of the tasks at `h`. */
  lemma PickedPositionsStep(todos: seq<Todo>, h: int, front: seq<nat>, picked: seq<nat>)
    requires todos != []
    requires forall k :: 0 <= k < |front| ==> front[k] < |todos| - 1
    requires forall i :: 0 <= i < |todos| - 1 ==> (i in front <==> todos[..|todos| - 1][i].hour == h)
    requires picked == if todos[|todos| - 1].hour == h then front + [|todos| - 1] else front
    ensures forall i :: 0 <= i < |todos| ==> (i in picked <==> todos[i].hour == h)
  {
    var n := |todos| - 1;
    forall i | 0 <= i < |todos|
      ensures i in picked <==> todos[i].hour == h
    {
      if i < n {
        assert todos[..n][i] == todos[i];
        assert i in picked <==> i in front;
      } else {
        assert n !in front by {
          forall k | 0 <= k < |front| ensures front[k] != n { }
        }
      }
    }
  }

  /** The sum of the bucket sizes over the hours listed in `hs`. */
  function BucketSizes(todos: seq<Todo>, hs: seq<int>): nat
  {
    if hs == [] then 0 else |TodosAt(todos, hs[0])| + BucketSizes(todos, hs[1..])
  }

  /** How many times `h` is listed in `hs`. */
  function Occurrences(hs: seq<int>, h: int): nat
  {
    if hs == [] then 0 else (if hs[0] == h then 1 else 0) + Occurrences(hs[1..], h)
  }

  /** Adding a task to the end grows exactly the buckets listed for its hour. */
  lemma {:induction false} BucketSizesSnoc(todos: seq<Todo>, t: Todo, hs: seq<int>)
    ensures BucketSizes(todos + [t], hs) == BucketSizes(todos, hs) + Occurrences(hs, t.hour)
  {
    if hs != [] {
      assert (todos + [t])[..|todos|] == todos;
      BucketSizesSnoc(todos, t, hs[1..]);
    }
  }

  /** A value listed once in a sequence without repetitions occurs exactly once. */
  lemma {:induction false} OccursOnce(hs: seq<int>, h: int)
    requires forall i, j :: 0 <= i < j < |hs| ==> hs[i] != hs[j]
    ensures Occurrences(hs, h) == if h in hs then 1 else 0
  {
    if hs != [] {
      OccursOnce(hs[1..], h);
      assert h in hs <==> h == hs[0] || h in hs[1..];
    }
  }

  /**
   * No task is lost or duplicated by the grouping: over any list of distinct hours
   * covering every task's hour, the bucket sizes add up to the number of tasks.
   */
  lemma {:induction false} GroupingKeepsEveryTask(todos: seq<Todo>, hs: seq<int>)
    requires forall i, j :: 0 <= i < j < |hs| ==> hs[i] != hs[j]
    requires forall i :: 0 <= i < |todos| ==> todos[i].hour in hs
    ensures BucketSizes(todos, hs) == |todos|
  {
    if todos == [] {
      EmptyBucketSizes(hs);
    } else {
      var n := |todos| - 1;
      assert todos == todos[..n] + [todos[n]];
      GroupingKeepsEveryTask(todos[..n], hs);
      BucketSizesSnoc(todos[..n], todos[n], hs);
      OccursOnce(hs, todos[n].hour);
    }
  }

  lemma {:induction false} EmptyBucketSizes(hs: seq<int>)
    ensures BucketSizes([], hs) == 0
  {
    if hs != [] {
      EmptyBucketSizes(hs[1..]);
    }
  }

  // ----------------------------------------------------------- rendering

  /** `Array.from({ length: 24 }, (_, i) => i)`: the hours 0..23 in ascending order. */
  function Hours(): (hs: seq<nat>)
    ensures |hs| == 24
    ensures forall i :: 0 <= i < |hs| ==> hs[i] == i
    ensures forall h: int :: h in hs <==> 0 <= h < 24
  {
    var hs := seq(24, i => i);
    assert forall h: int :: h in hs <==> 0 <= h < 24 by {
      forall h: int
        ensures h in hs <==> 0 <= h < 24
      {
        if h in hs {
          var i :| 0 <= i < 24 && hs[i] == h;
        }
        if 0 <= h < 24 {
          assert hs[h] == h;
        }
      }
    }
    hs
  }

  /** `todosByHour[hour] || []`. */
  function Lookup(byHour: map<int, seq<Todo>>, h: int): seq<Todo>
  {
    if h in byHour then byHour[h] else []
  }

  predicate IsWorkHour(h: int)
  {
    FirstWorkHour <= h <= LastWorkHour
  }

  /** An hour is rendered unless it is outside the work hours and has no tasks. */
  predicate IsShown(h: int, bucket: seq<Todo>)
  {
    IsWorkHour(h) || |bucket| != 0
  }

  /** `hour.toString().padStart(2, '0') + ":00"`. */
  function HourLabel(h: nat): (text: string)
    ensures h < 100 ==> |text| == 5 && text[2..] == ":00"
    ensures h < 100 ==> Text.AllDigits(text[..2]) && Text.Value(text[..2]) == h
  {
    var digits := Text.ZeroPadded(h, 2);
    assert h < 100 ==> (digits + ":00")[..2] == digits;
    digits + ":00"
  }

  /** One rendered hour: its label, the task cards it shows, and the free-slot placeholder. */
  datatype Row = Row(hour: nat, caption: string, cards: seq<Todo>, freeSlot: bool)

  function Min(a: nat, b: nat): nat
  {
    if a <= b then a else b
  }

  /** The row of hour `h`: at most the first four tasks, a placeholder when there are none. */
  function RenderRow(byHour: map<int, seq<Todo>>, h: nat): (row: Row)
    ensures row.hour == h && row.caption == HourLabel(h)
    ensures |row.cards| == Min(|Lookup(byHour, h)|, MaxCards)
    ensures row.cards == Lookup(byHour, h)[..|row.cards|]
    ensures row.freeSlot <==> Lookup(byHour, h) == []
  {
    var bucket := Lookup(byHour, h);
    Row(h, HourLabel(h), bucket[..Min(|bucket|, MaxCards)], |bucket| == 0)
  }

  /** The hours of `hs` that are shown, in the order of `hs` (the hours whose `map` is not `null`). */
  function ShownHours(byHour: map<int, seq<Todo>>, hs: seq<nat>): (shown: seq<nat>)
    ensures forall h :: h in shown <==> h in hs && IsShown(h, Lookup(byHour, h))
  {
    if hs == [] then []
    else
      var h := hs[0];
      assert hs == [h] + hs[1..];
      (if IsShown(h, Lookup(byHour, h)) then [h] else []) + ShownHours(byHour, hs[1..])
  }

  /** Filtering an ascending list of hours keeps it ascending. */
  lemma {:induction false} ShownHoursAscending(byHour: map<int, seq<Todo>>, hs: seq<nat>)
    requires forall i, j :: 0 <= i < j < |hs| ==> hs[i] < hs[j]
    ensures forall i, j :: 0 <= i < j < |ShownHours(byHour, hs)| ==>
              ShownHours(byHour, hs)[i] < ShownHours(byHour, hs)[j]
  {
    if hs != [] {
      var h := hs[0];
      var first := if IsShown(h, Lookup(byHour, h)) then [h] else [];
      var rest := ShownHours(byHour, hs[1..]);
      var shown := ShownHours(byHour, hs);
      ShownHoursAscending(byHour, hs[1..]);
      forall j | 0 <= j < |rest|
        ensures h < rest[j]
      {
        assert rest[j] in rest;
        var k :| 0 <= k < |hs[1..]| && hs[1..][k] == rest[j];
        assert hs[1..][k] == hs[k + 1];
      }
      assert shown == first + rest;
      forall i, j | 0 <= i < j < |shown|
        ensures shown[i] < shown[j]
      {
        if i >= |first| {
          assert shown[i] == rest[i - |first|] && shown[j] == rest[j - |first|];
        } else {
          assert shown[j] == rest[j - 1];
        }
      }
    }
  }

  /** Some row of `rows` is the row of hour `h`. */
  predicate HasRowFor(rows: seq<Row>, h: int)
  {
    exists i :: 0 <= i < |rows| && rows[i].hour == h
  }

  /**
   * The schedule body: every row is the row of its own hour, the hours strictly ascend,
   * and an hour has a row exactly when it lies in 0..23 and is shown.
   */
  function Render(byHour: map<int, seq<Todo>>): (rows: seq<Row>)
    ensures forall i :: 0 <= i < |rows| ==> rows[i] == RenderRow(byHour, rows[i].hour)
    ensures forall i, j :: 0 <= i < j < |rows| ==> rows[i].hour < rows[j].hour
    ensures forall h: nat :: HasRowFor(rows, h) <==> h < 24 && IsShown(h, Lookup(byHour, h))
  {
    var hs := Hours();
    var shown := ShownHours(byHour, hs);
    var rows := seq(|shown|, i requires 0 <= i < |shown| => RenderRow(byHour, shown[i]));
    assert forall i, j :: 0 <= i < j < |hs| ==> hs[i] < hs[j];
    ShownHoursAscending(byHour, hs);
    RowsOfShownHours(byHour, shown, rows);
    rows
  }

  /** One row per hour of an ascending list of hours: a row exists for exactly the listed hours. */
  lemma RowsOfShownHours(byHour: map<int, seq<Todo>>, shown: seq<nat>, rows: seq<Row>)
    requires forall i, j :: 0 <= i < j < |shown| ==> shown[i] < shown[j]
    requires |rows| == |shown|
    requires forall i :: 0 <= i < |rows| ==> rows[i] == RenderRow(byHour, shown[i])
    ensures forall i, j :: 0 <= i < j < |rows| ==> rows[i].hour < rows[j].hour
    ensures forall h: nat :: HasRowFor(rows, h) <==> h in shown
  {
    forall h: nat
      ensures HasRowFor(rows, h) <==> h in shown
    {
      if h in shown {
        var i :| 0 <= i < |shown| && shown[i] == h;
        assert rows[i].hour == h;
      }
    }
  }

  // ------------------------------------------------ the schedule of a task list

  /** After grouping, the bucket looked up for any hour is that hour's subsequence. */
  lemma LookupBucket(todos: seq<Todo>, h: int)
    ensures Lookup(Buckets(todos), h) == TodosAt(todos, h)
  {
    if h !in HoursOf(todos) {
      BucketOfAbsentHour(todos, h);
    }

  }

  /** Some task of `todos` has hour `h`. */
  predicate HasTaskAt(todos: seq<Todo>, h: int)
  {
    exists i :: 0 <= i < |todos| && todos[i].hour == h
  }

  /** After grouping, an hour is shown exactly when it is a work hour or some task has that hour. */
  lemma ShownIffWorkOrTask(todos: seq<Todo>)
    ensures forall h: int :: IsShown(h, Lookup(Buckets(todos), h)) <==> IsWorkHour(h) || HasTaskAt(todos, h)
  {
    forall h: int
      ensures IsShown(h, Lookup(Buckets(todos), h)) <==> IsWorkHour(h) || HasTaskAt(todos, h)
    {
      LookupBucket(todos, h);
      TodosAtMembers(todos, h);
      if HasTaskAt(todos, h) {
        var i :| 0 <= i < |todos| && todos[i].hour == h;
        assert todos[i] in TodosAt(todos, h);
      }
      if TodosAt(todos, h) != [] {
        assert TodosAt(todos, h)[0] in TodosAt(todos, h);
      }
    }
  }

  /**
   * The rows the view renders for a task list: exactly the hours of 0..23 that are work
   * hours or have a task, in strictly ascending order, each rendered from its hour's bucket.
   */
  function Schedule(todos: seq<Todo>): (rows: seq<Row>)
    ensures forall i :: 0 <= i < |rows| ==> rows[i] == RenderRow(Buckets(todos), rows[i].hour)
    ensures forall i, j :: 0 <= i < j < |rows| ==> rows[i].hour < rows[j].hour
    ensures forall h: nat :: HasRowFor(rows, h) <==> h < 24 && (IsWorkHour(h) || HasTaskAt(todos, h))
  {
    ShownIffWorkOrTask(todos);
    Render(Buckets(todos))
  }

  /**
   * Each row shows the first min(4, n) tasks of its hour in their original order, and the
   * placeholder exactly when the hour has no task, which only happens for a work hour.
   */
  lemma ScheduleRowContents(todos: seq<Todo>, i: nat)
    requires i < |Schedule(todos)|
    ensures var r := Schedule(todos)[i];
            var bucket := TodosAt(todos, r.hour);
            && r.hour < 24
            && |r.cards| == Min(|bucket|, MaxCards)
            && r.cards == bucket[..|r.cards|]
            && (r.freeSlot <==> bucket == [])
            && (r.freeSlot ==> IsWorkHour(r.hour))
            && (forall t :: t in r.cards ==> t in todos && t.hour == r.hour)
  {
    var r := Schedule(todos)[i];
    assert HasRowFor(Schedule(todos), r.hour);
    LookupBucket(todos, r.hour);
    var bucket := TodosAt(todos, r.hour);
    TodosAtMembers(todos, r.hour);
    forall t | t in r.cards
      ensures t in bucket
    {
      var k :| 0 <= k < |r.cards| && r.cards[k] == t;
      assert bucket[k] == t;
    }
  }

  /** A task whose hour lies outside 0..23 is grouped but appears in no row. */
  lemma OutOfRangeTaskNeverShown(todos: seq<Todo>, t: Todo)
    requires t in todos && !(0 <= t.hour < 24)
    ensures t in TodosAt(todos, t.hour)
    ensures forall i :: 0 <= i < |Schedule(todos)| ==> t !in Schedule(todos)[i].cards
  {
    TodosAtMembers(todos, t.hour);
    forall i | 0 <= i < |Schedule(todos)|
      ensures t !in Schedule(todos)[i].cards
    {
      ScheduleRowContents(todos, i);
    }
  }

  /** The task list of the mock task service: two tasks at 9:00, two at 14:00. */
  function MockTodos(): seq<Todo>
  {
    [ Todo("1", "Morning Standup", 9, false, Some("bg-blue-500")),
      Todo("2", "Code Review", 9, true, Some("bg-indigo-500")),
      Todo("3", "Client Call", 10, false, Some("bg-emerald-500")),
      Todo("4", "Lunch Break", 12, false, Some("bg-orange-500")),
      Todo("5", "Focus Time", 14, false, Some("bg-purple-500")),
      Todo("6", "Focus Time", 14, false, Some("bg-purple-500")),
      Todo("7", "Team Sync", 16, false, Some("bg-pink-500")) ]
  }

  /** The prefixes of the mock list, one task longer each time. */
  lemma MockPrefixes()
    ensures forall k :: 0 <= k < 7 ==> MockTodos()[..k + 1][..k] == MockTodos()[..k]
    ensures forall k :: 0 <= k < 7 ==> MockTodos()[..k + 1][k] == MockTodos()[k]
    ensures MockTodos()[..7] == MockTodos()
  {
  }

  /** Both 9:00 tasks land in the 9:00 bucket, in their original order. */
  lemma MockNineOClock()
    ensures TodosAt(MockTodos(), 9) == [MockTodos()[0], MockTodos()[1]]
  {
    var ts := MockTodos();
    MockPrefixes();
    assert TodosAt(ts[..2], 9) == [ts[0], ts[1]];
    assert TodosAt(ts[..4], 9) == [ts[0], ts[1]];
    assert TodosAt(ts[..6], 9) == [ts[0], ts[1]];
  }

  /** Both 14:00 tasks land in the 14:00 bucket, in their original order. */
  lemma MockTwoPm()
    ensures TodosAt(MockTodos(), 14) == [MockTodos()[4], MockTodos()[5]]
  {
    var ts := MockTodos();
    MockPrefixes();
    assert TodosAt(ts[..2], 14) == [];
    assert TodosAt(ts[..4], 14) == [];
    assert TodosAt(ts[..6], 14) == [ts[4], ts[5]];
  }

  /** The 14:00 row shows both 14:00 tasks. */
  lemma MockTwoPmRow()
    ensures RenderRow(Buckets(MockTodos()), 14).cards == [MockTodos()[4], MockTodos()[5]]
  {
    var byHour := Buckets(MockTodos());
    var bucket := [MockTodos()[4], MockTodos()[5]];
    MockTwoPm();
    LookupBucket(MockTodos(), 14);
    assert Lookup(byHour, 14) == bucket;
    assert bucket[..Min(|bucket|, MaxCards)] == bucket;
  }
}
