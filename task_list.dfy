/** The task list's filter and deadline helpers (`src/components/TaskList.tsx`). `now` is the
    clock reading at render time. */
module TaskList {
  import opened Wrappers
  import opened Types
  import opened Seqs
  import opened Time
  import JsStrings

  /** The body of the `state.tasks.filter(...)` callback, branch for branch. */
  predicate Matches(task: Task, options: FilterOptions, now: int) {
    var today := MidnightOf(now);
    var tomorrow := today + MsPerDay;
    if options.status == Active && task.completed then false
    else if options.status == Completed && !task.completed then false
    else if options.importance != AnyImportance && Level(task.importance) != options.importance then false
    else if options.deadline != AnyDeadline && task.deadline.Some? then
      var d := task.deadline.value;
      if options.deadline == Overdue && d >= now then false
      else if options.deadline == DueToday && (d < today || d >= tomorrow) then false
      else if options.deadline == Upcoming && d <= now then false
      else true
    else if options.deadline != AnyDeadline && task.deadline.None? then false
    else true
  }

  /** `filteredTasks`. */
  function FilteredTasks(tasks: seq<Task>, options: FilterOptions, now: int): seq<Task> {
    Filter((t: Task) => Matches(t, options, now), tasks)
  }

  /** The same filter, stated as three independent conditions. */
  predicate StatusOk(task: Task, status: StatusFilter) {
    match status
    case AllStatuses => true
    case Active => !task.completed
    case Completed => task.completed
  }

  predicate ImportanceOk(task: Task, importance: ImportanceFilter) {
    match importance
    case AnyImportance => true
    case Level(level) => task.importance == level
  }

  predicate DeadlineOk(task: Task, deadline: DeadlineFilter, now: int) {
    match deadline
    case AnyDeadline => true
    case Overdue => task.deadline.Some? && task.deadline.value < now
    case DueToday => task.deadline.Some? && MidnightOf(now) <= task.deadline.value < MidnightOf(now) + MsPerDay
    case Upcoming => task.deadline.Some? && task.deadline.value > now
  }

  /** A task passes the filter exactly when it passes each of the three selects: 'active' keeps
      open tasks and 'completed' completed ones; a level keeps that level only; a deadline
      option other than 'all' drops tasks without a deadline, 'overdue' keeps deadlines before
      now, 'today' those in today's local day and 'upcoming' those after now, so a deadline
      later today is both 'today' and 'upcoming', and one exactly at `now` neither overdue nor
      upcoming. */
  lemma MatchesIff(task: Task, options: FilterOptions, now: int)
    ensures Matches(task, options, now) <==>
            StatusOk(task, options.status) && ImportanceOk(task, options.importance)
            && DeadlineOk(task, options.deadline, now)
  {
  }

  /** The filtered list is a subsequence of the tasks in their original order, holding exactly
      the tasks that pass the filter, each as often as it occurs in the tasks. */
  lemma FilteredIsOrderedSelection(tasks: seq<Task>, options: FilterOptions, now: int)
    ensures var r := FilteredTasks(tasks, options, now);
            && Subseq(r, tasks)
            && (forall k :: 0 <= k < |r| ==>
                  StatusOk(r[k], options.status) && ImportanceOk(r[k], options.importance)
                  && DeadlineOk(r[k], options.deadline, now))
            && (forall k :: 0 <= k < |tasks| && StatusOk(tasks[k], options.status)
                  && ImportanceOk(tasks[k], options.importance) && DeadlineOk(tasks[k], options.deadline, now)
                  ==> tasks[k] in r)
    ensures var r := FilteredTasks(tasks, options, now);
            forall t: Task :: multiset(r)[t] == if Matches(t, options, now) then multiset(tasks)[t] else 0
  {
    var p := (t: Task) => Matches(t, options, now);
    FilterIsSubseq(p, tasks);
    FilterCounts(p, tasks);
    forall t: Task { MatchesIff(t, options, now); }
  }

  /** With every option at 'all' the whole list is shown. */
  lemma AllOptionsShowEverything(tasks: seq<Task>, now: int)
    ensures FilteredTasks(tasks, FilterOptions(AllStatuses, AnyImportance, AnyDeadline), now) == tasks
  {
    FilterAllPass((t: Task) => Matches(t, FilterOptions(AllStatuses, AnyImportance, AnyDeadline), now), tasks);
  }

  /** 'completed' with the other options at 'all' shows exactly the completed tasks, in order. */
  lemma CompletedOnly(tasks: seq<Task>, now: int)
    ensures FilteredTasks(tasks, FilterOptions(Completed, AnyImportance, AnyDeadline), now)
            == Filter((t: Task) => t.completed, tasks)
  {
    FilterSamePredicate((t: Task) => Matches(t, FilterOptions(Completed, AnyImportance, AnyDeadline), now),
                        (t: Task) => t.completed, tasks);
  }

  lemma {:induction false} FilterSamePredicate<T>(p: T -> bool, q: T -> bool, s: seq<T>)
    requires forall x :: p(x) == q(x)
    ensures Filter(p, s) == Filter(q, s)
  {
    if s != [] {
      FilterSamePredicate(p, q, s[1..]);
    }
  }

  /** `isOverdue`. */
  predicate IsOverdue(deadline: int, now: int) {
    deadline < now
  }

  /** `Math.ceil(a / b)` for a positive divisor. */
  function CeilDiv(a: int, b: int): (q: int)
    requires b > 0
    ensures (q - 1) * b < a <= q * b
  {
    -((-a) / b)
  }

  /** The day count `formatDeadline` works with: the ceiling of the difference in days. */
  function DiffDays(deadline: int, now: int): int {
    CeilDiv(deadline - now, MsPerDay)
  }

  /** `formatDeadline`. */
  function FormatDeadline(deadline: int, now: int): string {
    var diffDays := DiffDays(deadline, now);
    if diffDays < 0 then "Overdue"
    else if diffDays == 0 then "Today"
    else if diffDays == 1 then "Tomorrow"
    else JsStrings.IntToString(diffDays) + " days"
  }

  /** The labels by the distance from now to the deadline: 'Overdue' once it is a full day or
      more past, 'Today' within the last day up to now, 'Tomorrow' within the next day,
      otherwise 'N days' with N the rounded-up day count. */
  lemma FormatDeadlineBuckets(deadline: int, now: int)
    ensures var delta := deadline - now;
            && (FormatDeadline(deadline, now) == "Overdue" <==> delta <= -MsPerDay)
            && (FormatDeadline(deadline, now) == "Today" <==> -MsPerDay < delta <= 0)
            && (FormatDeadline(deadline, now) == "Tomorrow" <==> 0 < delta <= MsPerDay)
            && (delta > MsPerDay ==>
                  (FormatDeadline(deadline, now) == JsStrings.IntToString(DiffDays(deadline, now)) + " days"
                   && DiffDays(deadline, now) >= 2))
  {
    var d := DiffDays(deadline, now);
    if d >= 2 {
      var s := JsStrings.IntToString(d);
      assert (s + " days")[|s| + 4] == 's';
    }
  }

  /** A deadline that passed less than a day ago is overdue for `isOverdue` but labelled
      'Today'. */
  lemma OverdueYetToday(now: int)
    ensures IsOverdue(now - 1, now) && FormatDeadline(now - 1, now) == "Today"
  {
  }
}
