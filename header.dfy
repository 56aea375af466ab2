/** The header's greeting and streak badge (`src/components/Header.tsx`). The hour is the local
    hour of the clock reading at render time. */
module Header {
  import opened Types
  import opened Time
  import JsStrings
  import opened Wrappers
  import AppReducer

  datatype Greeting = Greeting(text: string, kind: GreetingType)

  /** `userData.name || 'there'`. */
  function DisplayName(name: string): (r: string)
    ensures r != ""
    ensures name != "" ==> r == name
  {
    if name != "" then name else "there"
  }

  /** `getGreeting` for a given hour of the day. */
  function GreetingAt(hour: int, name: string): Greeting {
    var n := DisplayName(name);
    if 5 <= hour < 12 then Greeting("Rise & Shine, " + n + "!", Morning)
    else if 12 <= hour < 17 then Greeting("Hey There, " + n + "!", Afternoon)
    else if 17 <= hour < 22 then Greeting("Wind Down, " + n, Evening)
    else Greeting("Hey Night Owl, " + n, Night)
  }

  /** `getGreeting()` at the clock reading `now`. */
  function GetGreeting(now: int, name: string): Greeting {
    GreetingAt(HourOf(now), name)
  }

  /** The greeting kind covers the day without gaps or overlaps: morning 5-11, afternoon 12-16,
      evening 17-21 and night 22-4 (local hours). */
  lemma GreetingPartition(now: int, name: string)
    ensures var h, k := HourOf(now), GetGreeting(now, name).kind;
            && (k == Morning <==> 5 <= h <= 11)
            && (k == Afternoon <==> 12 <= h <= 16)
            && (k == Evening <==> 17 <= h <= 21)
            && (k == Night <==> (22 <= h <= 23 || 0 <= h <= 4))
  {
  }

  /** The greeting ends with the user's name (an exclamation mark after it in the morning and
      afternoon), or with 'there' when the name is empty. */
  lemma GreetingNamesUser(hour: int, name: string)
    ensures var t, n := GreetingAt(hour, name).text, DisplayName(name);
            var tail := if GreetingAt(hour, name).kind in {Morning, Afternoon} then n + "!" else n;
            |tail| <= |t| && t[|t| - |tail|..] == tail
    ensures name == "" ==> DisplayName(name) == "there"
  {
    var g := GreetingAt(hour, name);
    var n := DisplayName(name);
    var tail := if g.kind in {Morning, Afternoon} then n + "!" else n;
    var prefix := if 5 <= hour < 12 then "Rise & Shine, " else if 12 <= hour < 17 then "Hey There, "
                  else if 17 <= hour < 22 then "Wind Down, " else "Hey Night Owl, ";
    assert g.text == prefix + tail;
    assert (prefix + tail)[|prefix|..] == tail;
  }

  /** `isStreakAchieved`: the streak has reached the goal. */
  predicate IsStreakAchieved(u: UserData) {
    u.currentStreak >= u.streakGoal
  }

  /** After a completion that raises the achievement flag the badge is shown. The badge tests
      `>=` while the flag tests `==`: a streak that was already at or past the goal and grows
      by a day keeps the badge without raising the flag again. */
  lemma StreakBadge(s: AppReducer.AppState, id: string, now: int, i: nat)
    requires i < |s.tasks| && s.tasks[i].id == id
    requires !s.tasks[AppReducer.FirstIndex(s.tasks, id)].completed
    ensures var r := AppReducer.Reduce(s, AppReducer.ToggleTask(id), now);
            r.showStreakAchievement ==> IsStreakAchieved(r.userData)
    ensures var r := AppReducer.Reduce(s, AppReducer.ToggleTask(id), now);
            IsStreakAchieved(s.userData) && s.userData.lastCompletedDate == Some(DayOf(now) - 1) ==>
              IsStreakAchieved(r.userData) && !r.showStreakAchievement
  {
    AppReducer.CompletionStreak(s, id, now, i);
  }
}
