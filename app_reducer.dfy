/** The application state and its reducer (`appReducer` and `initialState` in
    `src/contexts/AppContext.tsx`). The reducer is a pure function of the state, the action and
    the clock reading `now` (milliseconds, local time) at which the action is handled. */
module AppReducer {
  import opened Wrappers
  import opened Types
  import opened Seqs
  import opened Time

  datatype AppState = AppState(
    tasks: seq<Task>,
    userData: UserData,
    filterOptions: FilterOptions,
    showWelcomeModal: bool,
    showStreakAchievement: bool)

  /** `Partial<UserData>`: a missing field keeps the old value. Setting `lastCompletedDate`
      to `undefined` is `Some(None)`. */
  datatype UserDataPatch = UserDataPatch(
    name: Option<string>,
    streakGoal: Option<int>,
    currentStreak: Option<int>,
    lastCompletedDate: Option<Option<int>>,
    totalStars: Option<int>,
    autoDelete: Option<bool>,
    hasSeenWelcome: Option<bool>)

  /** `Partial<FilterOptions>`. */
  datatype FilterPatch = FilterPatch(
    status: Option<StatusFilter>,
    importance: Option<ImportanceFilter>,
    deadline: Option<DeadlineFilter>)

  /** `Partial<AppState>`. */
  datatype StatePatch = StatePatch(
    tasks: Option<seq<Task>>,
    userData: Option<UserData>,
    filterOptions: Option<FilterOptions>,
    showWelcomeModal: Option<bool>,
    showStreakAchievement: Option<bool>)

  /** `AppAction`. */
  datatype Action =
    | AddTask(task: Task)
    | UpdateTask(task: Task)
    | DeleteTask(id: string)
    | ToggleTask(id: string)
    | SetUserData(userPatch: UserDataPatch)
    | SetFilterOptions(filterPatch: FilterPatch)
    | SetShowWelcomeModal(show: bool)
    | SetShowStreakAchievement(show: bool)
    | LoadData(data: StatePatch)
    | AutoDeleteCompleted

  const NoUserChange: UserDataPatch := UserDataPatch(None, None, None, None, None, None, None)
  const NoFilterChange: FilterPatch := FilterPatch(None, None, None)

  /** `initialState`. */
  const InitialState: AppState := AppState(
    [],
    UserData("", 7, 0, None, 0, true, false),
    FilterOptions(AllStatuses, AnyImportance, AnyDeadline),
    false,
    false)

  /** Completed tasks are purged once their completion is this old. */
  const RetentionMs: int := 48 * MsPerHour

  /** `{ ...u, ...p }`. */
  function MergeUserData(u: UserData, p: UserDataPatch): UserData {
    UserData(
      p.name.GetOr(u.name),
      p.streakGoal.GetOr(u.streakGoal),
      p.currentStreak.GetOr(u.currentStreak),
      p.lastCompletedDate.GetOr(u.lastCompletedDate),
      p.totalStars.GetOr(u.totalStars),
      p.autoDelete.GetOr(u.autoDelete),
      p.hasSeenWelcome.GetOr(u.hasSeenWelcome))
  }

  /** `{ ...f, ...p }`. */
  function MergeFilterOptions(f: FilterOptions, p: FilterPatch): FilterOptions {
    FilterOptions(p.status.GetOr(f.status), p.importance.GetOr(f.importance), p.deadline.GetOr(f.deadline))
  }

  /** `{ ...s, ...p }`. */
  function MergeState(s: AppState, p: StatePatch): AppState {
    AppState(
      p.tasks.GetOr(s.tasks),
      p.userData.GetOr(s.userData),
      p.filterOptions.GetOr(s.filterOptions),
      p.showWelcomeModal.GetOr(s.showWelcomeModal),
      p.showStreakAchievement.GetOr(s.showStreakAchievement))
  }

  /** `tasks.map(t => t.id === task.id ? task : t)`. */
  function ReplaceById(tasks: seq<Task>, task: Task): (r: seq<Task>)
    ensures |r| == |tasks|
  {
    seq(|tasks|, k requires 0 <= k < |tasks| => if tasks[k].id == task.id then task else tasks[k])
  }

  /** `tasks.filter(t => t.id !== id)`. */
  function RemoveById(tasks: seq<Task>, id: string): seq<Task> {
    Filter((t: Task) => t.id != id, tasks)
  }

  /** The index `tasks.find(t => t.id === id)` stops at; `|tasks|` when there is none. */
  function FirstIndex(tasks: seq<Task>, id: string): (k: nat)
    ensures k <= |tasks|
    ensures forall j :: 0 <= j < k ==> tasks[j].id != id
    ensures k < |tasks| ==> tasks[k].id == id
  {
    if tasks == [] then 0
    else if tasks[0].id == id then 0
    else 1 + FirstIndex(tasks[1..], id)
  }

  /** `tasks.find(t => t.id === id)`. */
  function FindById(tasks: seq<Task>, id: string): Option<Task> {
    var k := FirstIndex(tasks, id);
    if k < |tasks| then Some(tasks[k]) else None
  }

  /** The task with `completed` flipped: completing stamps `completedAt` with `now`, un-completing
      clears it. */
  function Toggled(task: Task, now: int): (r: Task)
  {
    var newCompleted := !task.completed;
    task.(completed := newCompleted, completedAt := if newCompleted then Some(now) else None)
  }

  /** The user data and the achievement flag after a task goes from open to completed at `now`. */
  function CompleteStats(u: UserData, now: int): (UserData, bool) {
    var today := DayOf(now);
    var yesterday := DayOf(now - MsPerDay);
    if u.lastCompletedDate != Some(today) then
      // First completion today: continue from yesterday, otherwise (gap or first ever) restart.
      var streak := if u.lastCompletedDate == Some(yesterday) then u.currentStreak + 1 else 1;
      (u.(totalStars := u.totalStars + 1, currentStreak := streak, lastCompletedDate := Some(today)),
       streak == u.streakGoal)
    else
      (u.(totalStars := u.totalStars + 1, lastCompletedDate := Some(today)), false)
  }

  /** The user data after a task goes from completed to open: one star less, never below zero. */
  function UncompleteStats(u: UserData): UserData {
    u.(totalStars := if u.totalStars - 1 > 0 then u.totalStars - 1 else 0)
  }

  /** `TOGGLE_TASK`. */
  function Toggle(state: AppState, id: string, now: int): AppState {
    match FindById(state.tasks, id)
    case None => state
    case Some(task) =>
      var updated := Toggled(task, now);
      var tasks := ReplaceById(state.tasks, updated);
      if !task.completed then
        var (u, show) := CompleteStats(state.userData, now);
        state.(tasks := tasks, userData := u, showStreakAchievement := show)
      else
        state.(tasks := tasks, userData := UncompleteStats(state.userData))
  }

  /** The `AUTO_DELETE_COMPLETED` filter: open tasks, tasks without a completion time and tasks
      completed after `now - 48h` stay. */
  predicate SurvivesPurge(task: Task, now: int) {
    !task.completed || task.completedAt.None? || task.completedAt.value > now - RetentionMs
  }

  function Purge(tasks: seq<Task>, now: int): seq<Task> {
    Filter((t: Task) => SurvivesPurge(t, now), tasks)
  }

  /** `appReducer`. Each action changes only the parts of the state it is about. */
  function Reduce(state: AppState, action: Action, now: int): (r: AppState)
    ensures !(action.ToggleTask? || action.SetUserData? || action.LoadData?) ==> r.userData == state.userData
    ensures !(action.SetFilterOptions? || action.LoadData?) ==> r.filterOptions == state.filterOptions
    ensures !(action.SetShowWelcomeModal? || action.LoadData?) ==> r.showWelcomeModal == state.showWelcomeModal
    ensures !(action.ToggleTask? || action.SetShowStreakAchievement? || action.LoadData?) ==>
              r.showStreakAchievement == state.showStreakAchievement
    ensures (action.SetUserData? || action.SetFilterOptions? || action.SetShowWelcomeModal?
             || action.SetShowStreakAchievement?) ==> r.tasks == state.tasks
  {
    match action
    case AddTask(task) => state.(tasks := state.tasks + [task])
    case UpdateTask(task) => state.(tasks := ReplaceById(state.tasks, task))
    case DeleteTask(id) => state.(tasks := RemoveById(state.tasks, id))
    case ToggleTask(id) => Toggle(state, id, now)
    case SetUserData(p) => state.(userData := MergeUserData(state.userData, p))
    case SetFilterOptions(p) => state.(filterOptions := MergeFilterOptions(state.filterOptions, p))
    case SetShowWelcomeModal(show) => state.(showWelcomeModal := show)
    case SetShowStreakAchievement(show) => state.(showStreakAchievement := show)
    case LoadData(p) => MergeState(state, p)
    case AutoDeleteCompleted => state.(tasks := Purge(state.tasks, now))
  }

  // ----- Task list operations -----

  /** ADD_TASK appends the task; the existing tasks, their order and the rest of the state stay. */
  lemma AddTaskAppends(s: AppState, task: Task, now: int)
    ensures var r := Reduce(s, AddTask(task), now);
            |r.tasks| == |s.tasks| + 1 && r.tasks[..|s.tasks|] == s.tasks
            && r.tasks[|s.tasks|] == task && r.(tasks := s.tasks) == s
  {
    assert (s.tasks + [task])[..|s.tasks|] == s.tasks;
  }

  /** UPDATE_TASK replaces every task carrying the id and nothing else, keeping length and
      order; with an unknown id the state is unchanged. */
  lemma UpdateTaskReplaces(s: AppState, task: Task, now: int)
    ensures var r := Reduce(s, UpdateTask(task), now);
            && |r.tasks| == |s.tasks|
            && (forall k :: 0 <= k < |s.tasks| && s.tasks[k].id == task.id ==> r.tasks[k] == task)
            && (forall k :: 0 <= k < |s.tasks| && s.tasks[k].id != task.id ==> r.tasks[k] == s.tasks[k])
            && r.(tasks := s.tasks) == s
    ensures (forall k :: 0 <= k < |s.tasks| ==> s.tasks[k].id != task.id) ==> Reduce(s, UpdateTask(task), now) == s
  {
    if forall k :: 0 <= k < |s.tasks| ==> s.tasks[k].id != task.id {
      assert ReplaceById(s.tasks, task) == s.tasks;
    }
  }

  /** DELETE_TASK keeps exactly the tasks with another id, in their original order, and changes
      nothing else. */
  lemma DeleteTaskRemoves(s: AppState, id: string, now: int)
    ensures var r := Reduce(s, DeleteTask(id), now);
            && (forall k :: 0 <= k < |r.tasks| ==> r.tasks[k].id != id)
            && (forall k :: 0 <= k < |s.tasks| && s.tasks[k].id != id ==> s.tasks[k] in r.tasks)
            && Subseq(r.tasks, s.tasks)
            && r.(tasks := s.tasks) == s
  {
    var p := (t: Task) => t.id != id;
    assert Reduce(s, DeleteTask(id), now).tasks == Filter(p, s.tasks);
    FilterIsSubseq(p, s.tasks);
  }

  /** DELETE_TASK keeps every task with another id as often as it occurred, repeated tasks
      included, and no task with the id. */
  lemma DeleteTaskKeepsCounts(s: AppState, id: string, now: int)
    ensures var r := Reduce(s, DeleteTask(id), now).tasks;
            forall t: Task :: multiset(r)[t] == if t.id != id then multiset(s.tasks)[t] else 0
  {
    var p := (t: Task) => t.id != id;
    assert Reduce(s, DeleteTask(id), now).tasks == Filter(p, s.tasks);
    FilterCounts(p, s.tasks);
  }

  /** Deleting an id no task carries changes nothing, and deleting twice is deleting once. */
  lemma DeleteTaskIdempotent(s: AppState, id: string, now: int)
    ensures (forall k :: 0 <= k < |s.tasks| ==> s.tasks[k].id != id) ==> Reduce(s, DeleteTask(id), now) == s
    ensures var r := Reduce(s, DeleteTask(id), now);
            Reduce(r, DeleteTask(id), now) == r
  {
    var p := (t: Task) => t.id != id;
    assert Reduce(s, DeleteTask(id), now).tasks == Filter(p, s.tasks);
    FilterIdempotent(p, s.tasks);
    if forall k :: 0 <= k < |s.tasks| ==> s.tasks[k].id != id {
      FilterAllPass(p, s.tasks);
    }
  }

  // ----- Toggling, stars and streaks -----

  /** TOGGLE_TASK with an id no task carries returns the state unchanged. */
  lemma ToggleUnknownId(s: AppState, id: string, now: int)
    requires forall k :: 0 <= k < |s.tasks| ==> s.tasks[k].id != id
    ensures Reduce(s, ToggleTask(id), now) == s
  {
    assert FirstIndex(s.tasks, id) == |s.tasks|;
  }

  /** TOGGLE_TASK flips `completed` of the first task with the id, stamps or clears
      `completedAt` so that `completed <==> completedAt present` holds of it, writes that task
      over every task with the id and leaves the other tasks and the filters alone. */
  lemma ToggleFlipsTask(s: AppState, id: string, now: int, i: nat)
    requires i < |s.tasks| && s.tasks[i].id == id
    ensures var first := s.tasks[FirstIndex(s.tasks, id)];
            var r := Reduce(s, ToggleTask(id), now);
            && FirstIndex(s.tasks, id) <= i
            && |r.tasks| == |s.tasks|
            && (forall k :: 0 <= k < |s.tasks| && s.tasks[k].id == id ==>
                  r.tasks[k] == first.(completed := !first.completed, completedAt := r.tasks[k].completedAt)
                  && CompletionConsistent(r.tasks[k]))
            && (forall k :: 0 <= k < |s.tasks| && s.tasks[k].id != id ==> r.tasks[k] == s.tasks[k])
            && (r.tasks[i].completed ==> r.tasks[i].completedAt == Some(now))
            && r.filterOptions == s.filterOptions && r.showWelcomeModal == s.showWelcomeModal
  {
  }

  /** Completing a task adds exactly one star; un-completing takes one away but never goes below
      zero. */
  lemma ToggleStars(s: AppState, id: string, now: int, i: nat)
    requires i < |s.tasks| && s.tasks[i].id == id
    ensures var first := s.tasks[FirstIndex(s.tasks, id)];
            var stars := Reduce(s, ToggleTask(id), now).userData.totalStars;
            && (!first.completed ==> stars == s.userData.totalStars + 1)
            && (first.completed ==> stars == if s.userData.totalStars >= 1 then s.userData.totalStars - 1 else 0)
            && (s.userData.totalStars >= 0 ==> stars >= 0)
  {
  }

  /** The first completion of a day continues the streak when the last completion day was
      yesterday and restarts it at 1 otherwise (gap or first ever); later completions the same
      day keep the streak. The achievement flag is raised exactly when a first completion of the
      day makes the streak equal to the goal, and lowered by every other completion. The last
      completion day becomes today. */
  lemma CompletionStreak(s: AppState, id: string, now: int, i: nat)
    requires i < |s.tasks| && s.tasks[i].id == id
    requires !s.tasks[FirstIndex(s.tasks, id)].completed
    ensures var u, r := s.userData, Reduce(s, ToggleTask(id), now);
            var today := DayOf(now);
            var firstToday := u.lastCompletedDate != Some(today);
            && r.userData.lastCompletedDate == Some(today)
            && (firstToday && u.lastCompletedDate == Some(today - 1) ==> r.userData.currentStreak == u.currentStreak + 1)
            && (firstToday && u.lastCompletedDate != Some(today - 1) ==> r.userData.currentStreak == 1)
            && (!firstToday ==> r.userData.currentStreak == u.currentStreak)
            && (r.showStreakAchievement <==> firstToday && r.userData.currentStreak == u.streakGoal)
            && r.userData.(totalStars := u.totalStars, currentStreak := u.currentStreak,
                           lastCompletedDate := u.lastCompletedDate) == u
  {
    DayBefore(now);
  }

  /** Un-completing a task does not roll back the streak, the last completion day or the
      achievement flag. */
  lemma UncompletionKeepsStreak(s: AppState, id: string, now: int, i: nat)
    requires i < |s.tasks| && s.tasks[i].id == id
    requires s.tasks[FirstIndex(s.tasks, id)].completed
    ensures var r := Reduce(s, ToggleTask(id), now);
            && r.userData.currentStreak == s.userData.currentStreak
            && r.userData.lastCompletedDate == s.userData.lastCompletedDate
            && r.showStreakAchievement == s.showStreakAchievement
            && r.userData.(totalStars := s.userData.totalStars) == s.userData
  {
  }

  /** Two completions on consecutive days, the second day's repeated: a streak of 2 ending
      yesterday becomes 3 and stays 3. */
  lemma StreakExample(s: AppState, a: string, b: string, now: int, later: int)
    requires |s.tasks| == 2 && s.tasks[0].id == a && s.tasks[1].id == b && a != b
    requires !s.tasks[0].completed && !s.tasks[1].completed
    requires s.userData.currentStreak == 2 && s.userData.lastCompletedDate == Some(DayOf(now) - 1)
    requires DayOf(later) == DayOf(now)
    ensures Reduce(s, ToggleTask(a), now).userData.currentStreak == 3
    ensures Reduce(Reduce(s, ToggleTask(a), now), ToggleTask(b), later).userData.currentStreak == 3
  {
    CompletionStreak(s, a, now, 0);
    var s1 := Reduce(s, ToggleTask(a), now);
    assert s1.tasks[1] == s.tasks[1];
    assert FirstIndex(s1.tasks, b) == 1 by {
      assert s1.tasks[0].id == a;
    }
    CompletionStreak(s1, b, later, 1);
  }

  /** Toggling the same task twice restores its `completed` flag; starting from an open task the
      star count is restored too. */
  lemma ToggleTwice(s: AppState, id: string, now: int, later: int, i: nat)
    requires i < |s.tasks| && s.tasks[i].id == id
    requires forall k :: 0 <= k < |s.tasks| && k != i ==> s.tasks[k].id != id
    requires s.userData.totalStars >= 0
    ensures var r := Reduce(Reduce(s, ToggleTask(id), now), ToggleTask(id), later);
            && r.tasks[i].completed == s.tasks[i].completed
            && (forall k :: 0 <= k < |s.tasks| && k != i ==> r.tasks[k] == s.tasks[k])
            && (!s.tasks[i].completed ==> r.userData.totalStars == s.userData.totalStars)
  {
    var s1 := Reduce(s, ToggleTask(id), now);
    ToggleFlipsTask(s, id, now, i);
    assert FirstIndex(s.tasks, id) == i;
    assert FirstIndex(s1.tasks, id) == i by {
      assert forall k :: 0 <= k < i ==> s1.tasks[k].id != id;
    }
    ToggleFlipsTask(s1, id, later, i);
    ToggleStars(s, id, now, i);
    ToggleStars(s1, id, later, i);
  }

  // ----- Purge -----

  /** AUTO_DELETE_COMPLETED removes a task exactly when it is completed with a completion time at
      or before `now - 48h`, keeps the others in order, and does not look at `autoDelete`. */
  lemma PurgeRemovesExpired(s: AppState, now: int, autoDelete: bool)
    ensures var r := Reduce(s, AutoDeleteCompleted, now);
            && (forall k :: 0 <= k < |r.tasks| ==>
                  !(r.tasks[k].completed && r.tasks[k].completedAt.Some? && r.tasks[k].completedAt.value <= now - RetentionMs))
            && (forall k :: 0 <= k < |s.tasks| && SurvivesPurge(s.tasks[k], now) ==> s.tasks[k] in r.tasks)
            && Subseq(r.tasks, s.tasks)
            && r.(tasks := s.tasks) == s
    ensures var s' := s.(userData := s.userData.(autoDelete := autoDelete));
            Reduce(s', AutoDeleteCompleted, now).tasks == Reduce(s, AutoDeleteCompleted, now).tasks
  {
    FilterIsSubseq((t: Task) => SurvivesPurge(t, now), s.tasks);
  }

  /** AUTO_DELETE_COMPLETED keeps every surviving task as often as it occurred, repeated tasks
      included, and no expired one. */
  lemma PurgeKeepsCounts(s: AppState, now: int)
    ensures var r := Reduce(s, AutoDeleteCompleted, now).tasks;
            forall t: Task :: multiset(r)[t] == if SurvivesPurge(t, now) then multiset(s.tasks)[t] else 0
  {
    var p := (t: Task) => SurvivesPurge(t, now);
    assert Reduce(s, AutoDeleteCompleted, now).tasks == Filter(p, s.tasks);
    FilterCounts(p, s.tasks);
  }

  /** A task completed 49 hours ago is purged; one completed 47 hours ago is kept. */
  lemma PurgeExample(t: Task, now: int)
    requires t.completed
    ensures var old49 := t.(completedAt := Some(now - 49 * MsPerHour));
            Reduce(InitialState.(tasks := [old49]), AutoDeleteCompleted, now).tasks == []
    ensures var old47 := t.(completedAt := Some(now - 47 * MsPerHour));
            Reduce(InitialState.(tasks := [old47]), AutoDeleteCompleted, now).tasks == [old47]
  {
  }

  // ----- Invariants over runs -----

  /** The invariants the reducer is meant to keep: `completed <==> completedAt present` for every
      task, and non-negative star and streak counters. */
  predicate ValidState(s: AppState) {
    && (forall k :: 0 <= k < |s.tasks| ==> CompletionConsistent(s.tasks[k]))
    && s.userData.totalStars >= 0
    && s.userData.currentStreak >= 0
  }

  /** Actions whose payload respects those invariants (the reducer itself does not check them). */
  predicate ValidAction(a: Action) {
    match a
    case AddTask(t) => CompletionConsistent(t)
    case UpdateTask(t) => CompletionConsistent(t)
    case SetUserData(p) =>
      (p.totalStars.Some? ==> p.totalStars.value >= 0) && (p.currentStreak.Some? ==> p.currentStreak.value >= 0)
    case LoadData(p) =>
      && (p.tasks.Some? ==> forall k :: 0 <= k < |p.tasks.value| ==> CompletionConsistent(p.tasks.value[k]))
      && (p.userData.Some? ==> p.userData.value.totalStars >= 0 && p.userData.value.currentStreak >= 0)
    case _ => true
  }

  lemma ReducePreservesValid(s: AppState, a: Action, now: int)
    requires ValidState(s) && ValidAction(a)
    ensures ValidState(Reduce(s, a, now))
  {
    match a
    case AddTask(t) =>
    case DeleteTask(id) =>
    case AutoDeleteCompleted =>
    case ToggleTask(id) =>
      var k := FirstIndex(s.tasks, id);
      if k < |s.tasks| {
        ToggleFlipsTask(s, id, now, k);
      }
    case _ =>
  }

  /** Dispatching a sequence of actions, each with the clock reading at which it is handled. */
  function Run(s: AppState, actions: seq<(Action, int)>): AppState
    decreases |actions|
  {
    if actions == [] then s else Run(Reduce(s, actions[0].0, actions[0].1), actions[1..])
  }

  /** No sequence of valid actions (in particular of toggles) breaks the invariants: the star
      count never goes negative. */
  lemma {:induction false} RunPreservesValid(s: AppState, actions: seq<(Action, int)>)
    requires ValidState(s)
    requires forall k :: 0 <= k < |actions| ==> ValidAction(actions[k].0)
    ensures ValidState(Run(s, actions))
    decreases |actions|
  {
    if actions != [] {
      ReducePreservesValid(s, actions[0].0, actions[0].1);
      RunPreservesValid(Reduce(s, actions[0].0, actions[0].1), actions[1..]);
    }
  }

  /** The initial state satisfies the invariants. */
  lemma InitialStateValid()
    ensures ValidState(InitialState)
    ensures InitialState.userData.streakGoal == 7 && InitialState.userData.autoDelete
  {
  }
}
