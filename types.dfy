/** The application's record types (`src/types/index.ts`). Optional TypeScript properties are
    `Option`s; string-literal unions are datatypes, with the strings they stand for. Dates are
    integer milliseconds of local time (see module Time). */
module Types {
  import opened Wrappers

  /** `ImportanceLevel`, highest priority first. */
  datatype ImportanceLevel = AllOut | Focused | Steady | Chill

  function ImportanceName(level: ImportanceLevel): string {
    match level
    case AllOut => "All-Out"
    case Focused => "Focused"
    case Steady => "Steady"
    case Chill => "Chill"
  }

  /** Reads a string as an `ImportanceLevel`; only the four level names are accepted. */
  function ParseImportance(s: string): (r: Option<ImportanceLevel>)
    ensures r.Some? <==> s in {"All-Out", "Focused", "Steady", "Chill"}
    ensures r.Some? ==> ImportanceName(r.value) == s
  {
    if s == "All-Out" then Some(AllOut)
    else if s == "Focused" then Some(Focused)
    else if s == "Steady" then Some(Steady)
    else if s == "Chill" then Some(Chill)
    else None
  }

  /** The level names are distinct and read back as the level they name. */
  lemma ImportanceRoundTrip(level: ImportanceLevel)
    ensures ParseImportance(ImportanceName(level)) == Some(level)
  {
  }

  /** `Task`: id, title, importance, completed and createdAt are always present; description,
      goal, deadline and completedAt may be missing. */
  datatype Task = Task(
    id: string,
    title: string,
    description: Option<string>,
    goal: Option<string>,
    importance: ImportanceLevel,
    deadline: Option<int>,
    completed: bool,
    completedAt: Option<int>,
    createdAt: int)

  /** The intended task invariant: a completion time is recorded exactly for completed tasks. */
  predicate CompletionConsistent(task: Task) {
    task.completed <==> task.completedAt.Some?
  }

  /** `UserData`: only `lastCompletedDate` (a day number) is optional. */
  datatype UserData = UserData(
    name: string,
    streakGoal: int,
    currentStreak: int,
    lastCompletedDate: Option<int>,
    totalStars: int,
    autoDelete: bool,
    hasSeenWelcome: bool)

  /** `FilterOptions.status`: 'all' | 'active' | 'completed'. */
  datatype StatusFilter = AllStatuses | Active | Completed

  /** `FilterOptions.importance`: a level or 'all'. */
  datatype ImportanceFilter = AnyImportance | Level(level: ImportanceLevel)

  /** `FilterOptions.deadline`: 'all' | 'overdue' | 'today' | 'upcoming'. */
  datatype DeadlineFilter = AnyDeadline | Overdue | DueToday | Upcoming

  datatype FilterOptions = FilterOptions(
    status: StatusFilter,
    importance: ImportanceFilter,
    deadline: DeadlineFilter)

  /** `GreetingType`. */
  datatype GreetingType = Morning | Afternoon | Evening | Night

  /** The select value of a status filter. */
  function StatusName(f: StatusFilter): string {
    match f
    case AllStatuses => "all"
    case Active => "active"
    case Completed => "completed"
  }

  /** Reads a select value as a status filter. */
  function ParseStatus(s: string): (r: Option<StatusFilter>)
    ensures r.Some? <==> s in {"all", "active", "completed"}
    ensures r == Some(AllStatuses) <==> s == "all"
    ensures r.Some? ==> StatusName(r.value) == s
  {
    if s == "all" then Some(AllStatuses)
    else if s == "active" then Some(Active)
    else if s == "completed" then Some(Completed)
    else None
  }

  /** Every status filter's select value reads back as that filter. */
  lemma StatusRoundTrip(f: StatusFilter)
    ensures ParseStatus(StatusName(f)) == Some(f)
  {
  }

  /** The select value of an importance filter: 'all' or the level's name. */
  function ImportanceFilterName(f: ImportanceFilter): string {
    match f
    case AnyImportance => "all"
    case Level(level) => ImportanceName(level)
  }

  /** Reads a select value as an importance filter: 'all' or one of the four level names. */
  function ParseImportanceFilter(s: string): (r: Option<ImportanceFilter>)
    ensures r.Some? <==> s in {"all", "All-Out", "Focused", "Steady", "Chill"}
    ensures r == Some(AnyImportance) <==> s == "all"
    ensures r.Some? && r.value.Level? ==> ImportanceName(r.value.level) == s
    ensures r.Some? ==> ImportanceFilterName(r.value) == s
  {
    if s == "all" then Some(AnyImportance)
    else match ParseImportance(s)
      case Some(level) => Some(Level(level))
      case None => None
  }

  /** Every importance filter's select value reads back as that filter. */
  lemma ImportanceFilterRoundTrip(f: ImportanceFilter)
    ensures ParseImportanceFilter(ImportanceFilterName(f)) == Some(f)
  {
    if f.Level? {
      ImportanceRoundTrip(f.level);
    }
  }

  /** The select value of a deadline filter. */
  function DeadlineName(f: DeadlineFilter): string {
    match f
    case AnyDeadline => "all"
    case Overdue => "overdue"
    case DueToday => "today"
    case Upcoming => "upcoming"
  }

  /** Reads a select value as a deadline filter. */
  function ParseDeadline(s: string): (r: Option<DeadlineFilter>)
    ensures r.Some? <==> s in {"all", "overdue", "today", "upcoming"}
    ensures r == Some(AnyDeadline) <==> s == "all"
    ensures r.Some? ==> DeadlineName(r.value) == s
  {
    if s == "all" then Some(AnyDeadline)
    else if s == "overdue" then Some(Overdue)
    else if s == "today" then Some(DueToday)
    else if s == "upcoming" then Some(Upcoming)
    else None
  }

  /** Every deadline filter's select value reads back as that filter. */
  lemma DeadlineRoundTrip(f: DeadlineFilter)
    ensures ParseDeadline(DeadlineName(f)) == Some(f)
  {
  }
}
