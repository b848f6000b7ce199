/** The exercise picker's list filter and its muscle-group chips
    (`Views/ExerciseSelectionView.swift`). The search looks at names only.
    The localized, case-insensitive containment test is a parameter:
    `contains(text, query)`. */
module ExerciseSelection {
  import opened Common
  import opened Exercises

  /** `filteredExercises`: the search filter, then the group filter, each
      applied only when active. */
  function FilteredExercises(exercises: seq<Exercise>, searchText: string, selected: Option<MuscleGroup>,
                             contains: (string, string) -> bool): (r: seq<Exercise>)
    ensures IsSubsequence(r, exercises)
    ensures |searchText| > 0 ==> forall k :: 0 <= k < |r| ==> contains(r[k].name, searchText)
    ensures selected.Some? ==> forall k :: 0 <= k < |r| ==> r[k].muscleGroup == selected.value
    ensures forall e :: e in r <==>
      && e in exercises
      && (|searchText| == 0 || contains(e.name, searchText))
      && (selected.None? || e.muscleGroup == selected.value)
    ensures forall e :: (multiset(r)[e] ==
      if (|searchText| == 0 || contains(e.name, searchText)) && (selected.None? || e.muscleGroup == selected.value)
      then multiset(exercises)[e] else 0)
  {
    var searched := if |searchText| > 0 then Filter(exercises, (e: Exercise) => contains(e.name, searchText))
                    else exercises;
    assert IsSubsequence(searched, exercises) by {
      if |searchText| == 0 { SubsequenceReflexive(exercises); }
    }
    match selected
    case Some(group) =>
      var grouped := Filter(searched, (e: Exercise) => e.muscleGroup == group);
      SubsequenceTransitive(grouped, searched, exercises);
      grouped
    case None => searched
  }

  /** With no search text and no group selected, every exercise is
      offered, in order. */
  lemma NoFiltersShowsAll(exercises: seq<Exercise>, contains: (string, string) -> bool)
    ensures FilteredExercises(exercises, "", None, contains) == exercises
  {
  }

  /** The two filters in sequence are one filter by both conditions. */
  lemma SearchThenGroupIsOneFilter(exercises: seq<Exercise>, searchText: string, group: MuscleGroup,
                                   contains: (string, string) -> bool)
    requires |searchText| > 0
    ensures FilteredExercises(exercises, searchText, Some(group), contains)
         == Filter(exercises, (e: Exercise) => contains(e.name, searchText) && e.muscleGroup == group)
  {
    FilterTwice(exercises, (e: Exercise) => contains(e.name, searchText), (e: Exercise) => e.muscleGroup == group,
                (e: Exercise) => contains(e.name, searchText) && e.muscleGroup == group);
  }

  /** Tapping a muscle-group chip: the selected group deselects, any other
      group becomes the selection. */
  function ToggleMuscleGroup(selected: Option<MuscleGroup>, tapped: MuscleGroup): (r: Option<MuscleGroup>)
    ensures r.None? <==> selected == Some(tapped)
    ensures r.Some? ==> r.value == tapped
  {
    if selected == Some(tapped) then None else Some(tapped)
  }

  /** Tapping the same chip twice restores a selection that was empty or
      already that chip's group. */
  lemma ToggleTwice(selected: Option<MuscleGroup>, tapped: MuscleGroup)
    requires selected.None? || selected == Some(tapped)
    ensures ToggleMuscleGroup(ToggleMuscleGroup(selected, tapped), tapped) == selected
  {
  }
}
