/** The 30-day completion calendar (`src/components/StreakCalendar.tsx`). A calendar cell is a
    local day number (see module Time); `now` is the clock reading at render time. */
module StreakCalendar {
  import opened Types
  import opened Time
  import AppReducer

  /** Number of days the calendar shows. */
  const WindowLength: nat := 30

  /** The days shown: the 29 days before today, then today, in ascending order. */
  function Window(today: int): (r: seq<int>)
    ensures |r| == WindowLength
  {
    seq(WindowLength, k requires 0 <= k < WindowLength => today - (WindowLength - 1) + k)
  }

  /** `getDaysArray`: counts `i` down from 29 to 0 and pushes today minus `i` days. */
  method GetDaysArray(now: int) returns (days: seq<int>)
    ensures days == Window(DayOf(now))
  {
    var today := DayOf(now);
    days := [];
    var i := WindowLength as int - 1;
    while i >= 0
      invariant -1 <= i <= WindowLength - 1
      invariant |days| == WindowLength - 1 - i
      invariant forall k :: 0 <= k < |days| ==> days[k] == today - (WindowLength - 1) + k
    {
      days := days + [today - i];
      i := i - 1;
    }
  }

  /** The window ends on today, holds 30 consecutive ascending days, and holds a day exactly
      when it is at most 29 days before today and not after it. */
  lemma WindowShape(today: int, d: int)
    ensures Window(today)[WindowLength - 1] == today
    ensures forall k :: 0 <= k < WindowLength - 1 ==> Window(today)[k + 1] == Window(today)[k] + 1
    ensures d in Window(today) <==> today - (WindowLength - 1) <= d <= today
  {
    if today - (WindowLength - 1) <= d <= today {
      assert Window(today)[d - today + (WindowLength - 1)] == d;
    }
  }

  /** One task marks a day: completed, with a completion time on that day. The source's
      `completedAt` is an ISO date string, truthy for every date, so only its absence fails. */
  predicate CompletedOn(task: Task, day: int) {
    task.completed && task.completedAt.Some? && DayOf(task.completedAt.value) == day
  }

  /** `hasCompletedTasksOnDate`. */
  predicate HasCompletedTasksOnDate(tasks: seq<Task>, day: int) {
    exists k :: 0 <= k < |tasks| && CompletedOn(tasks[k], day)
  }

  /** `isToday`. */
  predicate IsToday(day: int, now: int) {
    day == DayOf(now)
  }

  /** Exactly one cell, the last, is highlighted as today. */
  lemma ExactlyOneToday(now: int)
    ensures forall k :: 0 <= k < WindowLength ==> (IsToday(Window(DayOf(now))[k], now) <==> k == WindowLength - 1)
  {
  }

  /** A day is marked exactly when some completed task was completed that day; open tasks and
      tasks completed on other days never mark it, whatever else they hold. */
  lemma MarkedIff(tasks: seq<Task>, day: int, other: Task)
    requires !other.completed || other.completedAt.None? || DayOf(other.completedAt.value) != day
    ensures HasCompletedTasksOnDate(tasks + [other], day) <==> HasCompletedTasksOnDate(tasks, day)
    ensures !HasCompletedTasksOnDate([], day)
  {
    if HasCompletedTasksOnDate(tasks, day) {
      var k :| 0 <= k < |tasks| && CompletedOn(tasks[k], day);
      assert (tasks + [other])[k] == tasks[k];
    }
  }

  /** Completing an open task marks today's cell. */
  lemma ToggleMarksToday(s: AppReducer.AppState, id: string, now: int, i: nat)
    requires i < |s.tasks| && s.tasks[i].id == id
    requires !s.tasks[AppReducer.FirstIndex(s.tasks, id)].completed
    ensures HasCompletedTasksOnDate(AppReducer.Reduce(s, AppReducer.ToggleTask(id), now).tasks, DayOf(now))
  {
    AppReducer.ToggleFlipsTask(s, id, now, i);
    var j := AppReducer.FirstIndex(s.tasks, id);
    assert CompletedOn(AppReducer.Reduce(s, AppReducer.ToggleTask(id), now).tasks[j], DayOf(now));
  }
}
