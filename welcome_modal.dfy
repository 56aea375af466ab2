/** The first-run dialog (`src/components/WelcomeModal.tsx`): the name and streak goal the user
    picks, and the two actions 'Start Your Journey' dispatches. */
module WelcomeModal {
  import opened Wrappers
  import opened Types
  import JsStrings
  import AppReducer

  /** The streak goals offered. */
  const GoalChoices: seq<int> := [3, 7, 14, 30]

  /** `name.trim() || 'Champion'`. */
  function SavedName(name: string): (r: string)
    ensures r != ""
    ensures r == "Champion" <==> (JsStrings.AllWhitespace(name) || JsStrings.Trim(name) == "Champion")
    ensures !JsStrings.AllWhitespace(name) ==> r == JsStrings.Trim(name)
  {
    JsStrings.TrimEmptyIff(name);
    var t := JsStrings.Trim(name);
    if t != "" then t else "Champion"
  }

  /** The two dispatches of `handleComplete`, in order. */
  function CompleteActions(name: string, streakGoal: int): seq<AppReducer.Action> {
    [ AppReducer.SetUserData(AppReducer.NoUserChange.(name := Some(SavedName(name)),
                                                      streakGoal := Some(streakGoal),
                                                      hasSeenWelcome := Some(true))),
      AppReducer.SetShowWelcomeModal(false) ]
  }

  /** The dialog renders only while `showWelcomeModal` is set. */
  predicate Visible(s: AppReducer.AppState) {
    s.showWelcomeModal
  }

  /** Completing the dialog stores the saved name and the chosen goal, marks the welcome as seen
      and closes the dialog; tasks, filters, streak, stars, last completion day, the auto-delete
      setting and the achievement flag are untouched. */
  lemma CompleteSetsProfile(s: AppReducer.AppState, name: string, streakGoal: int, now: int)
    ensures var acts := CompleteActions(name, streakGoal);
            var r := AppReducer.Run(s, [(acts[0], now), (acts[1], now)]);
            && r.userData == s.userData.(name := SavedName(name), streakGoal := streakGoal, hasSeenWelcome := true)
            && !Visible(r)
            && r.tasks == s.tasks && r.filterOptions == s.filterOptions
            && r.showStreakAchievement == s.showStreakAchievement
  {
    var acts := CompleteActions(name, streakGoal);
    var steps := [(acts[0], now), (acts[1], now)];
    assert steps[1..] == [(acts[1], now)];
    var s1 := AppReducer.Reduce(s, acts[0], now);
    assert AppReducer.Run(s, steps) == AppReducer.Run(s1, steps[1..]);
    assert AppReducer.Run(s1, steps[1..]) == AppReducer.Run(AppReducer.Reduce(s1, acts[1], now), []);
  }

  /** The dialog's component state. */
  class Dialog {
    var name: string
    var streakGoal: int

    /** The goal is always one of the offered goals. */
    predicate Valid()
      reads this
    {
      streakGoal in GoalChoices
    }

    /** `useState('')` and `useState(7)`. */
    constructor ()
      ensures name == "" && streakGoal == 7
      ensures Valid()
    {
      name := "";
      streakGoal := 7;
    }

    /** The name input's `onChange`. */
    method SetName(value: string)
      requires Valid()
      modifies this
      ensures name == value && streakGoal == old(streakGoal)
      ensures Valid()
    {
      name := value;
    }

    /** A goal button's `onClick`: only the offered goals can be chosen. */
    method ChooseGoal(days: int)
      requires days in GoalChoices
      modifies this
      ensures streakGoal == days && name == old(name)
      ensures Valid()
    {
      streakGoal := days;
    }

    /** `handleComplete`: the actions dispatched for the current name and goal. The saved goal
        is one of the offered goals: the one last chosen, 7 otherwise. */
    method HandleComplete() returns (actions: seq<AppReducer.Action>)
      requires Valid()
      ensures |actions| == 2
      ensures actions[0].SetUserData? && actions[1] == AppReducer.SetShowWelcomeModal(false)
      ensures actions[0].userPatch.name == Some(SavedName(name))
      ensures actions[0].userPatch.streakGoal == Some(streakGoal) && streakGoal in GoalChoices
      ensures actions[0].userPatch.hasSeenWelcome == Some(true)
      ensures actions[0].userPatch.(name := None, streakGoal := None, hasSeenWelcome := None) == AppReducer.NoUserChange
      ensures actions == CompleteActions(name, streakGoal)
    {
      actions := CompleteActions(name, streakGoal);
    }
  }
}
