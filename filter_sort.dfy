/** The filter panel (`src/components/FilterSort.tsx`): each select dispatches a one-key
    `SET_FILTER_OPTIONS`; 'Clear All Filters' resets all three keys and is shown only while a
    filter is active. */
module FilterSort {
  import opened Wrappers
  import opened Types
  import AppReducer

  /** The key `handleFilterChange` is called with, carrying the chosen value. */
  datatype FilterChange =
    | StatusChange(status: StatusFilter)
    | ImportanceChange(importance: ImportanceFilter)
    | DeadlineChange(deadline: DeadlineFilter)

  /** `handleFilterChange(key, value)`: a patch with that one key. */
  function HandleFilterChange(change: FilterChange): AppReducer.Action {
    match change
    case StatusChange(v) => AppReducer.SetFilterOptions(AppReducer.NoFilterChange.(status := Some(v)))
    case ImportanceChange(v) => AppReducer.SetFilterOptions(AppReducer.NoFilterChange.(importance := Some(v)))
    case DeadlineChange(v) => AppReducer.SetFilterOptions(AppReducer.NoFilterChange.(deadline := Some(v)))
  }

  /** `hasActiveFilters`. */
  predicate HasActiveFilters(f: FilterOptions) {
    f.status != AllStatuses || f.importance != AnyImportance || f.deadline != AnyDeadline
  }

  /** The 'Clear All Filters' action. */
  const ClearAll: AppReducer.Action :=
    AppReducer.SetFilterOptions(AppReducer.FilterPatch(Some(AllStatuses), Some(AnyImportance), Some(AnyDeadline)))

  /** The button the panel shows for the current options, if any. */
  function ClearButton(f: FilterOptions): (r: Option<AppReducer.Action>)
    ensures r.Some? <==> HasActiveFilters(f)
    ensures r.Some? ==> r.value == ClearAll
  {
    if HasActiveFilters(f) then Some(ClearAll) else None
  }

  /** A select change sets its own key to the chosen value and leaves the other two keys, the
      tasks and the user data alone. */
  lemma FilterChangeSetsOneKey(s: AppReducer.AppState, change: FilterChange, now: int)
    ensures var f, g := s.filterOptions, AppReducer.Reduce(s, HandleFilterChange(change), now).filterOptions;
            match change
            case StatusChange(v) => g == f.(status := v)
            case ImportanceChange(v) => g == f.(importance := v)
            case DeadlineChange(v) => g == f.(deadline := v)
    ensures var r := AppReducer.Reduce(s, HandleFilterChange(change), now);
            r.(filterOptions := s.filterOptions) == s
  {
  }

  /** Choosing 'all' in every select clears the filters, one change at a time. */
  lemma EveryKeyAllClears(s: AppReducer.AppState, now: int)
    ensures var r := AppReducer.Run(s, [(HandleFilterChange(StatusChange(AllStatuses)), now),
                                        (HandleFilterChange(ImportanceChange(AnyImportance)), now),
                                        (HandleFilterChange(DeadlineChange(AnyDeadline)), now)]);
            !HasActiveFilters(r.filterOptions) && r.(filterOptions := s.filterOptions) == s
  {
    var a1 := HandleFilterChange(StatusChange(AllStatuses));
    var a2 := HandleFilterChange(ImportanceChange(AnyImportance));
    var a3 := HandleFilterChange(DeadlineChange(AnyDeadline));
    var s1 := AppReducer.Reduce(s, a1, now);
    var s2 := AppReducer.Reduce(s1, a2, now);
    var s3 := AppReducer.Reduce(s2, a3, now);
    var actions := [(a1, now), (a2, now), (a3, now)];
    assert actions[1..] == [(a2, now), (a3, now)];
    assert actions[1..][1..] == [(a3, now)];
    assert AppReducer.Run(s, actions) == AppReducer.Run(s1, actions[1..]);
    assert AppReducer.Run(s1, actions[1..]) == AppReducer.Run(s2, actions[1..][1..]);
    assert AppReducer.Run(s2, actions[1..][1..]) == AppReducer.Run(s3, []);
  }

  /** After 'Clear All Filters' no filter is active, the button disappears, and the tasks and
      user data are untouched; the filtered list is then the whole list. */
  lemma ClearAllClears(s: AppReducer.AppState, now: int)
    ensures var r := AppReducer.Reduce(s, ClearAll, now);
            && !HasActiveFilters(r.filterOptions)
            && ClearButton(r.filterOptions).None?
            && r.filterOptions == AppReducer.InitialState.filterOptions
            && r.(filterOptions := s.filterOptions) == s
  {
  }
}
