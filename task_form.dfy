/** The add/edit task form (`src/components/TaskForm.tsx`): five pieces of component state,
    the pure construction of the submitted task, and the reset on submit or close. The deadline
    field holds the chosen instant, `None` for the empty input. */
module TaskForm {
  import opened Wrappers
  import opened Types
  import JsStrings
  import AppReducer

  /** The `taskData` record `handleSubmit` builds from the fields. */
  datatype TaskData = TaskData(
    title: string,
    description: Option<string>,
    goal: Option<string>,
    importance: ImportanceLevel,
    deadline: Option<int>)

  /** `s.trim() || undefined`. */
  function TrimmedOrNone(s: string): (r: Option<string>)
    ensures r.None? <==> JsStrings.AllWhitespace(s)
    ensures r.Some? ==> r.value == JsStrings.Trim(s) && r.value != ""
  {
    JsStrings.TrimEmptyIff(s);
    var t := JsStrings.Trim(s);
    if t == "" then None else Some(t)
  }

  /** The submit button is enabled exactly when the title is not blank. */
  predicate SubmitEnabled(title: string) {
    JsStrings.Trim(title) != ""
  }

  function MakeTaskData(title: string, description: string, goal: string, importance: ImportanceLevel,
                        deadline: Option<int>): TaskData {
    TaskData(JsStrings.Trim(title), TrimmedOrNone(description), TrimmedOrNone(goal), importance, deadline)
  }

  /** `{ ...editingTask, ...taskData }`: the five form fields override, everything else stays. */
  function MergeEdit(editing: Task, data: TaskData): Task {
    editing.(title := data.title, description := data.description, goal := data.goal,
             importance := data.importance, deadline := data.deadline)
  }

  /** The new task: id from `Date.now().toString()`, `createdAt` the same instant, not completed. */
  function NewTask(data: TaskData, now: int): Task {
    Task(JsStrings.IntToString(now), data.title, data.description, data.goal, data.importance,
         data.deadline, false, None, now)
  }

  /** The action `handleSubmit` dispatches, `None` when it returns early. */
  function SubmitAction(title: string, description: string, goal: string, importance: ImportanceLevel,
                        deadline: Option<int>, editing: Option<Task>, now: int): (r: Option<AppReducer.Action>)
    ensures r.None? <==> !SubmitEnabled(title)
    ensures r.Some? ==> (r.value.UpdateTask? <==> editing.Some?) && (r.value.AddTask? <==> editing.None?)
  {
    if JsStrings.Trim(title) == "" then None
    else
      var data := MakeTaskData(title, description, goal, importance, deadline);
      match editing
      case Some(task) => Some(AppReducer.UpdateTask(MergeEdit(task, data)))
      case None => Some(AppReducer.AddTask(NewTask(data, now)))
  }

  /** A title that is blank after trimming (whitespace only) submits nothing, and that is
      exactly when the button is disabled. */
  lemma BlankTitleSubmitsNothing(title: string, description: string, goal: string, importance: ImportanceLevel,
                                 deadline: Option<int>, editing: Option<Task>, now: int)
    ensures SubmitAction(title, description, goal, importance, deadline, editing, now).None?
            <==> JsStrings.AllWhitespace(title)
  {
    JsStrings.TrimEmptyIff(title);
  }

  /** The submitted task stores the trimmed title, which is never blank, and the
      description and goal as `TrimmedOrNone` makes them (trimmed, a blank one missing); the
      importance and the deadline pass through. */
  lemma SubmittedFieldsTrimmed(title: string, description: string, goal: string, importance: ImportanceLevel,
                               deadline: Option<int>, editing: Option<Task>, now: int)
    requires SubmitEnabled(title)
    ensures var a := SubmitAction(title, description, goal, importance, deadline, editing, now).value;
            var t := a.task;
            && t.title == JsStrings.Trim(title) && t.title != ""
            && t.description == TrimmedOrNone(description) && t.goal == TrimmedOrNone(goal)
            && t.importance == importance && t.deadline == deadline
  {
  }

  /** Editing keeps the edited task's id, completion state and creation time; a blanked
      description or goal clears the old value. */
  lemma EditKeepsIdentity(title: string, description: string, goal: string, importance: ImportanceLevel,
                          deadline: Option<int>, editing: Task, now: int)
    requires SubmitEnabled(title)
    ensures var t := SubmitAction(title, description, goal, importance, deadline, Some(editing), now).value.task;
            && t.id == editing.id && t.completed == editing.completed
            && t.completedAt == editing.completedAt && t.createdAt == editing.createdAt
            && (JsStrings.AllWhitespace(description) ==> t.description.None?)
            && (JsStrings.AllWhitespace(goal) ==> t.goal.None?)
            && (CompletionConsistent(editing) ==> CompletionConsistent(t))
  {
  }

  /** A new task is open, has no completion time, and takes its id and creation time from the
      clock. */
  lemma NewTaskIsOpen(title: string, description: string, goal: string, importance: ImportanceLevel,
                      deadline: Option<int>, now: int)
    requires SubmitEnabled(title)
    ensures var t := SubmitAction(title, description, goal, importance, deadline, None, now).value.task;
            && !t.completed && t.completedAt.None? && CompletionConsistent(t)
            && t.id == JsStrings.IntToString(now) && t.createdAt == now
  {
  }

  /** The form's component state. */
  class Form {
    var title: string
    var description: string
    var goal: string
    var importance: ImportanceLevel
    var deadline: Option<int>

    /** The `useState` initialisers: the edited task's values, or empty fields and 'Steady'. */
    constructor (editing: Option<Task>)
      ensures editing.None? ==> title == "" && description == "" && goal == "" && importance == Steady && deadline.None?
      ensures editing.Some? ==>
                (title == editing.value.title && importance == editing.value.importance
                 && deadline == editing.value.deadline
                 && description == editing.value.description.GetOr("")
                 && goal == editing.value.goal.GetOr(""))
    {
      match editing
      case Some(t) =>
        title := t.title;
        description := t.description.GetOr("");
        goal := t.goal.GetOr("");
        importance := t.importance;
        deadline := t.deadline;
      case None =>
        title := "";
        description := "";
        goal := "";
        importance := Steady;
        deadline := None;
    }

    /** Every field empty and importance 'Steady'. */
    predicate IsReset()
      reads this
    {
      title == "" && description == "" && goal == "" && importance == Steady && deadline.None?
    }

    /** `handleClose`: clears every field and resets importance to 'Steady'. */
    method HandleClose()
      modifies this
      ensures IsReset()
    {
      title := "";
      description := "";
      goal := "";
      importance := Steady;
      deadline := None;
    }

    /** `handleSubmit`: with a blank title nothing happens; otherwise the task is dispatched and
        the form is reset. */
    method HandleSubmit(editing: Option<Task>, now: int) returns (dispatched: Option<AppReducer.Action>)
      modifies this
      ensures dispatched == SubmitAction(old(title), old(description), old(goal), old(importance),
                                         old(deadline), editing, now)
      ensures dispatched.None? ==> unchanged(this)
      ensures dispatched.Some? ==> IsReset()
    {
      if JsStrings.Trim(title) == "" {
        return None;
      }
      dispatched := SubmitAction(title, description, goal, importance, deadline, editing, now);
      HandleClose();
    }
  }
}
