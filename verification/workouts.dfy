/** A workout, in progress or in history (`Models/Workout.swift`). */
module Workouts {
  import opened Common
  import opened WorkoutExercises

  /** A saved place. Only its identity matters to the app's logic; the
      coordinate is stored and copied. */
  datatype Location = Location(id: Uuid, name: string, latitude: real, longitude: real)

  datatype Workout = Workout(
    id: Uuid,
    name: string,
    startedAt: Option<Time>,
    endedAt: Option<Time>,
    location: Option<Location>,
    notes: Option<string>,
    exerciseLogs: seq<WorkoutExercise>)

  /** `Workout(name:)` with every optional argument at its default. */
  function MakeWorkout(id: Uuid, name: string): (w: Workout)
    ensures w.id == id && w.name == name
    ensures w.startedAt == None && w.endedAt == None
    ensures w.location == None && w.notes == None
    ensures w.exerciseLogs == []
    ensures Duration(w) == None
  {
    Workout(id, name, None, None, None, None, [])
  }

  /** The derived `duration`, in seconds: present only when the workout
      has both a start and an end. */
  function Duration(w: Workout): (r: Option<int>)
    ensures w.startedAt.None? ==> r.None?
    ensures w.endedAt.None? ==> r.None?
    ensures w.startedAt.Some? && w.endedAt.Some? ==> r.Some? && w.startedAt.value + r.value == w.endedAt.value
  {
    match (w.startedAt, w.endedAt)
    case (Some(s), Some(e)) => Some(e - s)
    case _ => None
  }

  /** The logs' `order` values are 0, 1, ..., n-1 in sequence order. */
  ghost predicate DenseOrder(w: Workout) {
    forall i :: 0 <= i < |w.exerciseLogs| ==> w.exerciseLogs[i].order == i
  }

  /** Every log belongs to this workout and refers to its own exercise. */
  ghost predicate LogsOwned(w: Workout) {
    forall i :: 0 <= i < |w.exerciseLogs| ==>
      w.exerciseLogs[i].workoutId == w.id && w.exerciseLogs[i].exerciseId == w.exerciseLogs[i].exercise.id
  }

  /** Every set of every log has its completion fields in agreement. */
  ghost predicate AllSetsConsistent(w: Workout) {
    forall i :: 0 <= i < |w.exerciseLogs| ==> SetsConsistent(w.exerciseLogs[i])
  }

  /** The invariants a persisted workout is meant to keep. */
  ghost predicate WellFormed(w: Workout) {
    DenseOrder(w) && LogsOwned(w) && AllSetsConsistent(w)
  }
}
