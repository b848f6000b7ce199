/** One exercise as performed inside a workout, with its targets and the
    sets logged so far (`Models/WorkoutExercise.swift`). */
module WorkoutExercises {
  import opened Common
  import opened Exercises
  import opened ExerciseSets
  import opened PlannedExercises

  /** `targetWeight` is only stored; `targetRest` is in seconds. */
  datatype WorkoutExercise = WorkoutExercise(
    id: Uuid,
    workoutId: Uuid,
    exerciseId: Uuid,
    exercise: Exercise,
    order: int,
    targetSets: Option<int>,
    targetReps: Option<int>,
    targetWeight: Option<real>,
    targetRest: Option<int>,
    notes: Option<string>,
    sets: seq<ExerciseSet>)

  /** `WorkoutExercise.init` with every argument given: the initializer
      takes no `exerciseId` and derives it from the embedded exercise. */
  function MakeWorkoutExercise(
    id: Uuid, workoutId: Uuid, exercise: Exercise, order: int,
    targetSets: Option<int>, targetReps: Option<int>, targetWeight: Option<real>,
    targetRest: Option<int>, notes: Option<string>, sets: seq<ExerciseSet>): (w: WorkoutExercise)
    ensures w.exerciseId == exercise.id
    ensures w.id == id && w.workoutId == workoutId && w.exercise == exercise && w.order == order
    ensures w.targetSets == targetSets && w.targetReps == targetReps && w.targetWeight == targetWeight
    ensures w.targetRest == targetRest && w.notes == notes && w.sets == sets
  {
    WorkoutExercise(id, workoutId, exercise.id, exercise, order,
                    targetSets, targetReps, targetWeight, targetRest, notes, sets)
  }

  /** `WorkoutExercise(exercise:)` with every optional argument at its
      default (the identities, which the initializer draws fresh, are
      passed in). */
  function DefaultWorkoutExercise(id: Uuid, workoutId: Uuid, exercise: Exercise): (w: WorkoutExercise)
    ensures w.id == id && w.workoutId == workoutId
    ensures w.exerciseId == exercise.id && w.exercise == exercise
    ensures w.order == 0
    ensures w.sets == []
    ensures w.targetSets == None && w.targetReps == None && w.targetWeight == None
    ensures w.targetRest == None && w.notes == None
  {
    MakeWorkoutExercise(id, workoutId, exercise, 0, None, None, None, None, None, [])
  }

  /** The log that starting a workout, adding an exercise to it, or
      converting a legacy record builds from a planned exercise: its
      targets copied, no target weight, no sets yet. */
  function LogFromPlanned(id: Uuid, workoutId: Uuid, planned: PlannedExercise, order: int): (w: WorkoutExercise)
    ensures w.id == id && w.workoutId == workoutId && w.order == order
    ensures w.exercise == planned.exercise && w.exerciseId == planned.exercise.id
    ensures w.targetSets == Some(planned.targetSets) && w.targetReps == Some(planned.targetReps)
    ensures w.targetRest == Some(planned.restDuration) && w.notes == planned.notes
    ensures w.targetWeight == None && w.sets == []
  {
    MakeWorkoutExercise(id, workoutId, planned.exercise, order,
                        Some(planned.targetSets), Some(planned.targetReps), None,
                        Some(planned.restDuration), planned.notes, [])
  }

  /** Every logged set has its completion fields in agreement. */
  ghost predicate SetsConsistent(w: WorkoutExercise) {
    forall k :: 0 <= k < |w.sets| ==> CompletionConsistent(w.sets[k])
  }
}
