/** The exercise library's list filter (`Views/ExerciseLibraryView.swift`):
    a conjunction of a text search and three optional attribute filters.
    The localized, case-insensitive containment test is a parameter:
    `contains(text, query)`. */
module ExerciseLibrary {
  import opened Common
  import opened Exercises

  /** Whether one exercise passes every active filter. */
  predicate Matches(e: Exercise, searchText: string, muscleGroup: Option<MuscleGroup>,
                    equipment: Option<Equipment>, difficulty: Option<Difficulty>,
                    contains: (string, string) -> bool)
  {
    && (|searchText| == 0 || contains(e.name, searchText) || contains(e.description, searchText))
    && (muscleGroup.None? || e.muscleGroup == muscleGroup.value)
    && (equipment.None? || e.equipment == equipment.value)
    && (difficulty.None? || e.difficulty == difficulty.value)
  }

  /** `filteredExercises`. */
  function FilteredExercises(exercises: seq<Exercise>, searchText: string, muscleGroup: Option<MuscleGroup>,
                             equipment: Option<Equipment>, difficulty: Option<Difficulty>,
                             contains: (string, string) -> bool): (r: seq<Exercise>)
    ensures IsSubsequence(r, exercises)
    ensures forall k :: 0 <= k < |r| ==>
      && (muscleGroup.Some? ==> r[k].muscleGroup == muscleGroup.value)
      && (equipment.Some? ==> r[k].equipment == equipment.value)
      && (difficulty.Some? ==> r[k].difficulty == difficulty.value)
    ensures |searchText| > 0 ==> forall k :: 0 <= k < |r| ==>
      contains(r[k].name, searchText) || contains(r[k].description, searchText)
    ensures forall e :: e in r <==> e in exercises && Matches(e, searchText, muscleGroup, equipment, difficulty, contains)
    ensures forall e :: (multiset(r)[e] ==
      if Matches(e, searchText, muscleGroup, equipment, difficulty, contains) then multiset(exercises)[e] else 0)
  {
    Filter(exercises, (e: Exercise) => Matches(e, searchText, muscleGroup, equipment, difficulty, contains))
  }

  /** With no search text and no filter selected, the whole library is
      shown, in order. */
  lemma NoFiltersShowsAll(exercises: seq<Exercise>, contains: (string, string) -> bool)
    ensures FilteredExercises(exercises, "", None, None, None, contains) == exercises
  {
    FilterKeepsAll(exercises, (e: Exercise) => Matches(e, "", None, None, None, contains));
  }
}
