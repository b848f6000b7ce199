/** An exercise inside a plan, with its targets
    (`Models/PlannedExercise.swift`). */
module PlannedExercises {
  import opened Common
  import opened Exercises

  /** The rest a planned exercise gets when none is given, in seconds. */
  const DefaultRestDuration: int := 60

  datatype PlannedExercise = PlannedExercise(
    id: Uuid,
    exercise: Exercise,
    targetSets: int,
    targetReps: int,
    restDuration: int,
    notes: Option<string>)

  /** `PlannedExercise.init` with `restDuration` and `notes` at their defaults. */
  function MakePlannedExercise(id: Uuid, exercise: Exercise, targetSets: int, targetReps: int): (p: PlannedExercise)
    ensures p.restDuration == DefaultRestDuration == 60
    ensures p.notes == None
    ensures p.id == id && p.exercise == exercise
    ensures p.targetSets == targetSets && p.targetReps == targetReps
  {
    PlannedExercise(id, exercise, targetSets, targetReps, DefaultRestDuration, None)
  }
}
