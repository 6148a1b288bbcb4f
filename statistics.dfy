/**
 * The statistics page: the history of finished tasks, newest completion
 * first, and the number of tasks completed on each of the last seven days.
 * Calendar days are abstracted: `dayOf` maps a timestamp to the number of
 * its local day, and `today` is the number of the current day.
 */
module Statistics {
  import opened Wrappers
  import opened Types
  import opened Arrays

  // ---------------------------------------------------------------------------
  // History

  /** A task the history lists: done or cancelled. */
  predicate IsFinished(t: Task) {
    t.status == Done || t.status == Cancel
  }

  /** The sort key `t.completedAt || 0`: a missing completion time counts as 0. */
  function CompletedKey(t: Task): nat {
    t.completedAt.GetOr(0)
  }

  predicate NewestFirst(s: seq<Task>) {
    forall i, j :: 0 <= i < j < |s| ==> CompletedKey(s[i]) >= CompletedKey(s[j])
  }

  /**
   * Inserts `t` into a newest-first list, ahead of every task whose key is
   * not greater than its own.
   */
  function InsertNewestFirst(t: Task, s: seq<Task>): (r: seq<Task>)
    requires NewestFirst(s)
    ensures NewestFirst(r)
    ensures multiset(r) == multiset(s) + multiset{t}
    ensures forall x :: x in r ==> x == t || x in s
  {
    if s == [] then [t]
    else if CompletedKey(t) >= CompletedKey(s[0]) then [t] + s
    else
      var rest := InsertNewestFirst(t, s[1..]);
      assert s == [s[0]] + s[1..];
      PrependNewest(s[0], rest);
      [s[0]] + rest
  }

  /** A task at least as new as every task of a newest-first list can go in front. */
  lemma PrependNewest(t: Task, s: seq<Task>)
    requires NewestFirst(s)
    requires forall x :: x in s ==> CompletedKey(x) <= CompletedKey(t)
    ensures NewestFirst([t] + s)
  {
    forall i, j | 0 <= i < j < |[t] + s|
      ensures CompletedKey(([t] + s)[i]) >= CompletedKey(([t] + s)[j])
    {
      assert ([t] + s)[j] == s[j - 1];
      if i > 0 { assert ([t] + s)[i] == s[i - 1]; }
    }
  }

  /** The comparator `(b.completedAt || 0) - (a.completedAt || 0)` as a sort. */
  function SortNewestFirst(s: seq<Task>): (r: seq<Task>)
    ensures NewestFirst(r)
    ensures multiset(r) == multiset(s)
  {
    if s == [] then []
    else
      assert s == [s[0]] + s[1..];
      InsertNewestFirst(s[0], SortNewestFirst(s[1..]))
  }

  /** The history list: the finished tasks, newest completion first. */
  function History(tasks: seq<Task>): (r: seq<Task>)
    ensures NewestFirst(r)
    ensures forall t :: multiset(r)[t] == if IsFinished(t) then multiset(tasks)[t] else 0
  {
    SortNewestFirst(Filter(tasks, IsFinished))
  }

  /** A task is in the history exactly when it is done or cancelled. */
  lemma HistoryHoldsExactlyFinished(tasks: seq<Task>, t: Task)
    ensures t in History(tasks) <==> t in tasks && IsFinished(t)
  {
    assert t in History(tasks) <==> multiset(History(tasks))[t] > 0;
    assert t in tasks <==> multiset(tasks)[t] > 0;
  }

  /**
   * In a newest-first list, such as `History(tasks)`, an entry without a
   * completion time comes after every entry with a set one.
   */
  lemma MissingCompletionLast(h: seq<Task>, i: nat, j: nat)
    requires NewestFirst(h) && i < |h| && j < |h|
    requires h[i].completedAt.None? && IsSet(h[j].completedAt)
    ensures j < i
  {
    assert CompletedKey(h[j]) > CompletedKey(h[i]);
  }

  // ---------------------------------------------------------------------------
  // Weekly chart

  datatype DayCount = DayCount(day: int, count: nat)

  /** A task the chart counts on `day`: done, with a completion time on that day. */
  predicate CompletedOn(t: Task, day: int, dayOf: nat -> int) {
    t.status == Done && IsSet(t.completedAt) && dayOf(t.completedAt.value) == day
  }

  /** `tasks.filter(t => CompletedOn(t, day, dayOf)).length`. */
  function DoneOn(tasks: seq<Task>, day: int, dayOf: nat -> int): (r: nat)
    ensures r <= CompletedCount(tasks)
  {
    if tasks == [] then 0
    else (if CompletedOn(tasks[0], day, dayOf) then 1 else 0) + DoneOn(tasks[1..], day, dayOf)
  }

  /** The recursive count is the length of the filtered list the chart takes. */
  lemma {:induction false} DoneOnIsFilterLength(tasks: seq<Task>, day: int, dayOf: nat -> int)
    ensures DoneOn(tasks, day, dayOf) == |Filter(tasks, (t: Task) => CompletedOn(t, day, dayOf))|
  {
    if tasks != [] {
      DoneOnIsFilterLength(tasks[1..], day, dayOf);
    }
  }

  /** The chart: seven days, oldest first, ending today, each with its count. */
  function ChartData(tasks: seq<Task>, today: int, dayOf: nat -> int): (r: seq<DayCount>)
    ensures |r| == 7
    ensures r[6].day == today
    ensures forall i :: 0 < i < 7 ==> r[i].day == r[i - 1].day + 1
    ensures forall i :: 0 <= i < 7 ==> r[i].count == DoneOn(tasks, r[i].day, dayOf)
  {
    seq(7, i requires 0 <= i < 7 => var day := today - (6 - i); DayCount(day, DoneOn(tasks, day, dayOf)))
  }

  lemma {:induction false} DoneOnAppend(tasks: seq<Task>, t: Task, day: int, dayOf: nat -> int)
    ensures DoneOn(tasks + [t], day, dayOf) ==
      DoneOn(tasks, day, dayOf) + (if CompletedOn(t, day, dayOf) then 1 else 0)
    decreases |tasks|
  {
    if tasks == [] {
      assert tasks + [t] == [t];
    } else {
      DoneOnAppend(tasks[1..], t, day, dayOf);
      assert (tasks + [t])[1..] == tasks[1..] + [t];
    }
  }

  /** Cancelled tasks never count, even with a completion time on the day. */
  lemma CancelledNeverCounted(tasks: seq<Task>, t: Task, day: int, dayOf: nat -> int)
    requires t.status == Cancel
    ensures DoneOn(tasks + [t], day, dayOf) == DoneOn(tasks, day, dayOf)
    ensures DoneOn([t] + tasks, day, dayOf) == DoneOn(tasks, day, dayOf)
  {
    DoneOnAppend(tasks, t, day, dayOf);
    assert ([t] + tasks)[1..] == tasks;
  }

  /** The total of the counts over the days in `days`. */
  function ChartTotal(tasks: seq<Task>, days: seq<int>, dayOf: nat -> int): nat {
    if days == [] then 0 else DoneOn(tasks, days[0], dayOf) + ChartTotal(tasks, days[1..], dayOf)
  }

  /** The number of days in `days` on which `t` counts. */
  function Hits(t: Task, days: seq<int>, dayOf: nat -> int): nat {
    if days == [] then 0 else (if CompletedOn(t, days[0], dayOf) then 1 else 0) + Hits(t, days[1..], dayOf)
  }

  predicate Distinct(days: seq<int>) {
    forall i, j :: 0 <= i < j < |days| ==> days[i] != days[j]
  }

  lemma {:induction false} ChartTotalSplit(tasks: seq<Task>, days: seq<int>, dayOf: nat -> int)
    requires tasks != []
    ensures ChartTotal(tasks, days, dayOf) == Hits(tasks[0], days, dayOf) + ChartTotal(tasks[1..], days, dayOf)
    decreases |days|
  {
    if days != [] {
      ChartTotalSplit(tasks, days[1..], dayOf);
    }
  }

  lemma {:induction false} HitsAtMostOnce(t: Task, days: seq<int>, dayOf: nat -> int)
    requires Distinct(days)
    ensures Hits(t, days, dayOf) <= 1
    ensures Hits(t, days, dayOf) == 1 ==> t.status == Done && IsSet(t.completedAt)
    decreases |days|
  {
    if days != [] {
      assert Distinct(days[1..]) by {
        forall i, j | 0 <= i < j < |days[1..]| ensures days[1..][i] != days[1..][j] {
          assert days[1..][i] == days[i + 1] && days[1..][j] == days[j + 1];
        }
      }
      HitsAtMostOnce(t, days[1..], dayOf);
      if CompletedOn(t, days[0], dayOf) {
        HitsZeroOffDay(t, days[1..], dayOf, days[0]);
      }
    }
  }

  lemma {:induction false} HitsZeroOffDay(t: Task, days: seq<int>, dayOf: nat -> int, day: int)
    requires CompletedOn(t, day, dayOf) && day !in days
    ensures Hits(t, days, dayOf) == 0
    decreases |days|
  {
    if days != [] {
      HitsZeroOffDay(t, days[1..], dayOf, day);
    }
  }

  /** The number of done tasks with a completion time: the most any chart can count. */
  function CompletedCount(tasks: seq<Task>): nat {
    if tasks == [] then 0
    else (if tasks[0].status == Done && IsSet(tasks[0].completedAt) then 1 else 0) + CompletedCount(tasks[1..])
  }

  /**
   * Over distinct days, each completed task is counted at most once, so the
   * counts add up to at most the number of completed tasks.
   */
  lemma {:induction false} ChartTotalBounded(tasks: seq<Task>, days: seq<int>, dayOf: nat -> int)
    requires Distinct(days)
    ensures ChartTotal(tasks, days, dayOf) <= CompletedCount(tasks)
    decreases |tasks|
  {
    if tasks == [] {
      ChartTotalOfNothing(days, dayOf);
    } else {
      ChartTotalSplit(tasks, days, dayOf);
      HitsAtMostOnce(tasks[0], days, dayOf);
      ChartTotalBounded(tasks[1..], days, dayOf);
    }
  }

  lemma {:induction false} ChartTotalOfNothing(days: seq<int>, dayOf: nat -> int)
    ensures ChartTotal([], days, dayOf) == 0
    decreases |days|
  {
    if days != [] {
      ChartTotalOfNothing(days[1..], dayOf);
    }
  }

  /** The seven bars together count each completed task at most once. */
  lemma {:induction false} WeekTotalBounded(tasks: seq<Task>, today: int, dayOf: nat -> int)
    ensures var chart := ChartData(tasks, today, dayOf);
      chart[0].count + chart[1].count + chart[2].count + chart[3].count + chart[4].count +
      chart[5].count + chart[6].count <= CompletedCount(tasks)
  {
    var chart := ChartData(tasks, today, dayOf);
    var days := [chart[0].day, chart[1].day, chart[2].day, chart[3].day, chart[4].day, chart[5].day, chart[6].day];
    ChartTotalBounded(tasks, days, dayOf);
    assert ChartTotal(tasks, days[6..], dayOf) == chart[6].count;
    assert ChartTotal(tasks, days[5..], dayOf) == chart[5].count + chart[6].count;
    assert ChartTotal(tasks, days[4..], dayOf) == chart[4].count + chart[5].count + chart[6].count;
    assert ChartTotal(tasks, days[3..], dayOf) == chart[3].count + chart[4].count + chart[5].count + chart[6].count;
    assert ChartTotal(tasks, days[2..], dayOf) == chart[2].count + chart[3].count + chart[4].count + chart[5].count + chart[6].count;
    assert ChartTotal(tasks, days[1..], dayOf) == chart[1].count + chart[2].count + chart[3].count + chart[4].count + chart[5].count + chart[6].count;
  }
}
