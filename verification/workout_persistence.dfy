/** Versioned storage of the workout history, with a one-way fallback to
    the legacy flat-list format (`Models/WorkoutPersistence.swift`). The
    JSON layer is abstracted: a stored blob is one of the two shapes the
    decoder recognises, or neither. */
module WorkoutPersistence {
  import opened Common
  import opened PlannedExercises
  import opened WorkoutExercises
  import opened Workouts

  /** The schema version every save writes. */
  const CurrentSchemaVersion: int := 2

  /** The current envelope `{schemaVersion, workouts}`. */
  datatype StoredWorkouts = StoredWorkouts(schemaVersion: int, workouts: seq<Workout>)

  /** A record of the older format: a plan-shaped exercise list and no
      set-level data. */
  datatype LegacyWorkout = LegacyWorkout(
    id: Uuid,
    name: string,
    exercises: seq<PlannedExercise>,
    startTime: Option<Time>,
    endTime: Option<Time>,
    location: Option<Location>,
    notes: Option<string>)

  /** What a stored blob parses as. */
  datatype StoredData =
    | Envelope(store: StoredWorkouts)
    | Legacy(records: seq<LegacyWorkout>)
    | Garbage

  /** The decoder's error for data in neither shape. */
  datatype DecodeError = DataCorrupted

  datatype Decoded = Decoded(workouts: seq<Workout>, migrated: bool)

  /** `LegacyWorkout.toWorkout`. Each generated log draws a fresh identity:
      `logIds(i)` is the one given to the i-th. */
  function LegacyToWorkout(legacy: LegacyWorkout, logIds: nat -> Uuid): (w: Workout)
    ensures w.id == legacy.id && w.name == legacy.name
    ensures w.startedAt == legacy.startTime && w.endedAt == legacy.endTime
    ensures w.location == legacy.location && w.notes == legacy.notes
    ensures |w.exerciseLogs| == |legacy.exercises|
    ensures forall i :: 0 <= i < |w.exerciseLogs| ==>
      var planned, log := legacy.exercises[i], w.exerciseLogs[i];
      && log.id == logIds(i)
      && log.order == i
      && log.sets == []
      && log.workoutId == legacy.id
      && log.exercise == planned.exercise
      && log.targetSets == Some(planned.targetSets)
      && log.targetReps == Some(planned.targetReps)
      && log.targetRest == Some(planned.restDuration)
      && log.notes == planned.notes
      && log.targetWeight == None
    ensures WellFormed(w)
  {
    var logs := seq(|legacy.exercises|, i requires 0 <= i < |legacy.exercises| =>
      LogFromPlanned(logIds(i), legacy.id, legacy.exercises[i], i));
    Workout(legacy.id, legacy.name, legacy.startTime, legacy.endTime, legacy.location, legacy.notes, logs)
  }

  /** `decodeWorkouts(from:)`: the envelope shape is tried first; then the
      legacy list, which is always reported as migrated; otherwise the
      decoder's error. `freshIds(k, i)` is the identity drawn for the i-th
      log of the k-th legacy record. */
  function DecodeWorkouts(data: StoredData, freshIds: (nat, nat) -> Uuid): (r: Result<Decoded, DecodeError>)
    ensures data.Envelope? ==>
      r == Success(Decoded(data.store.workouts, data.store.schemaVersion < CurrentSchemaVersion))
    ensures data.Legacy? ==> r.Success? && r.value.migrated
    ensures data.Legacy? ==> |r.value.workouts| == |data.records|
    ensures data.Legacy? ==> forall k :: 0 <= k < |data.records| ==>
      r.value.workouts[k] == LegacyToWorkout(data.records[k], (i: nat) => freshIds(k as nat, i))
    ensures data.Garbage? <==> r.Failure?
  {
    match data
    case Envelope(store) =>
      Success(Decoded(store.workouts, store.schemaVersion < CurrentSchemaVersion))
    case Legacy(records) =>
      var converted := seq(|records|, k requires 0 <= k < |records| =>
        LegacyToWorkout(records[k], (i: nat) => freshIds(k as nat, i)));
      Success(Decoded(converted, true))
    case Garbage =>
      Failure(DataCorrupted)
  }

  /** `encodeWorkouts`: always the current envelope at the current version. */
  function EncodeWorkouts(workouts: seq<Workout>): (d: StoredData)
    ensures d.Envelope? && d.store.schemaVersion == CurrentSchemaVersion
    ensures d.store.workouts == workouts
  {
    Envelope(StoredWorkouts(CurrentSchemaVersion, workouts))
  }

  /** Decoding what was encoded gives back the same workouts and asks for
      no migration. */
  lemma RoundTrip(workouts: seq<Workout>, freshIds: (nat, nat) -> Uuid)
    ensures DecodeWorkouts(EncodeWorkouts(workouts), freshIds) == Success(Decoded(workouts, false))
  {
  }

  /** A successful decode asks for a migration exactly when the data is not
      already in the current envelope at the current version: so
      re-encoding once settles it for good. */
  lemma MigratedIffNotCurrent(data: StoredData, freshIds: (nat, nat) -> Uuid)
    requires DecodeWorkouts(data, freshIds).Success?
    ensures DecodeWorkouts(data, freshIds).value.migrated
        <==> !(data.Envelope? && data.store.schemaVersion >= CurrentSchemaVersion)
  {
  }

  /** Every workout recovered from the legacy format keeps the invariants
      of a persisted workout. */
  lemma LegacyDecodeWellFormed(records: seq<LegacyWorkout>, freshIds: (nat, nat) -> Uuid)
    ensures var r := DecodeWorkouts(Legacy(records), freshIds);
      forall k :: 0 <= k < |r.value.workouts| ==> WellFormed(r.value.workouts[k])
  {
  }
}
