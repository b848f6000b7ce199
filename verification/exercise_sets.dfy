/** One logged set of an exercise (`Models/ExerciseSet.swift`). */
module ExerciseSets {
  import opened Common

  /** `completed` and `completedAt` are kept side by side for the old and
      the new persisted schema; `weight` and `rpe` are only stored. */
  datatype ExerciseSet = ExerciseSet(
    id: Uuid,
    setIndex: Option<int>,
    rpe: Option<real>,
    completedAt: Option<Time>,
    reps: int,
    weight: Option<real>,
    completed: bool)

  /** The two completion fields agree. */
  predicate CompletionConsistent(s: ExerciseSet) {
    s.completed <==> s.completedAt.Some?
  }

  /** `ExerciseSet(reps:)` with every optional argument at its default. */
  function MakeExerciseSet(id: Uuid, reps: int): (s: ExerciseSet)
    ensures s.id == id && s.reps == reps
    ensures s.setIndex == None && s.weight == None && s.rpe == None
    ensures !s.completed && s.completedAt == None
    ensures CompletionConsistent(s)
  {
    ExerciseSet(id, None, None, None, reps, None, false)
  }
}
