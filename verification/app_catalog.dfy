/** The app-wide state and the operations on it
    (`ViewModels/AppViewModel.swift`), with calendar, location-service and
    notification side effects removed. The two files the app keeps are
    modelled as the `disk` component of the state: saving writes it,
    loading reads it. */
module AppCatalog {
  import opened Common
  import opened Exercises
  import opened ExerciseSets
  import opened PlannedExercises
  import opened WorkoutExercises
  import opened Workouts
  import opened WorkoutPlans
  import opened WorkoutPersistence
  import ActiveWorkoutSession

  /** What the locations file parses as. */
  datatype LocationStore = LocationList(locations: seq<Location>) | UnreadableLocations

  /** The two persisted files; `None` is a file that cannot be read. */
  datatype Disk = Disk(workoutsFile: Option<StoredData>, locationsFile: Option<LocationStore>)

  datatype AppState = AppState(
    workouts: seq<Workout>,
    workoutPlans: seq<WorkoutPlan>,
    exercises: seq<Exercise>,
    locations: seq<Location>,
    activeWorkout: Option<Workout>,
    disk: Disk)

  /** The state before `loadData` runs: every collection empty. */
  function InitialState(disk: Disk): (s: AppState)
    ensures s.workouts == [] && s.workoutPlans == [] && s.exercises == [] && s.locations == []
    ensures s.activeWorkout == None && s.disk == disk
  {
    AppState([], [], [], [], None, disk)
  }

  /** `saveData`: the workout history in the current envelope, and the
      locations. Plans are not part of what is saved. */
  function SaveData(s: AppState): (r: AppState)
    ensures r.disk.workoutsFile == Some(EncodeWorkouts(s.workouts))
    ensures r.disk.locationsFile == Some(LocationList(s.locations))
    ensures r.(disk := s.disk) == s
  {
    s.(disk := Disk(Some(EncodeWorkouts(s.workouts)), Some(LocationList(s.locations))))
  }

  /** What the reading part of `loadData` produced. */
  datatype Loaded = Loaded(workouts: seq<Workout>, locations: seq<Location>, requiresMigrationSave: bool)

  function ReadLocations(current: seq<Location>, file: Option<LocationStore>): (r: seq<Location>)
    ensures file.Some? && file.value.LocationList? ==> r == file.value.locations
    ensures !(file.Some? && file.value.LocationList?) ==> r == current
  {
    match file
    case Some(LocationList(ls)) => ls
    case _ => current
  }

  /** The reading part of `loadData`. An unreadable workouts file is
      skipped; one that decodes in neither shape aborts the reading before
      the locations file is looked at. `freshIds` supplies the identities
      drawn while converting legacy records. */
  function ReadPersisted(s: AppState, freshIds: (nat, nat) -> Uuid): (r: Loaded)
    ensures s.disk.workoutsFile.None? ==>
      r == Loaded(s.workouts, ReadLocations(s.locations, s.disk.locationsFile), false)
    ensures s.disk.workoutsFile == Some(Garbage) ==> r == Loaded(s.workouts, s.locations, false)
    ensures s.disk.workoutsFile.Some? && s.disk.workoutsFile.value.Envelope? ==>
      var store := s.disk.workoutsFile.value.store;
      r == Loaded(store.workouts, ReadLocations(s.locations, s.disk.locationsFile),
                  store.schemaVersion < CurrentSchemaVersion)
    ensures s.disk.workoutsFile.Some? && s.disk.workoutsFile.value.Legacy? ==>
      r.requiresMigrationSave && |r.workouts| == |s.disk.workoutsFile.value.records|
    ensures s.disk.workoutsFile.Some? && DecodeWorkouts(s.disk.workoutsFile.value, freshIds).Success? ==>
      var d := DecodeWorkouts(s.disk.workoutsFile.value, freshIds).value;
      r == Loaded(d.workouts, ReadLocations(s.locations, s.disk.locationsFile), d.migrated)
  {
    match s.disk.workoutsFile
    case None => Loaded(s.workouts, ReadLocations(s.locations, s.disk.locationsFile), false)
    case Some(data) =>
      match DecodeWorkouts(data, freshIds)
      case Failure(_) => Loaded(s.workouts, s.locations, false)
      case Success(decoded) =>
        Loaded(decoded.workouts, ReadLocations(s.locations, s.disk.locationsFile), decoded.migrated)
  }

  /** `loadData`: read what is persisted, replace the exercises with the
      built-in ones, seed the built-in plans only when there are none, and
      save once if the workouts had to be migrated. The built-in catalogs
      are parameters. */
  function LoadData(s: AppState, defaultExercises: seq<Exercise>, defaultPlans: seq<WorkoutPlan>,
                    freshIds: (nat, nat) -> Uuid): (r: AppState)
    ensures var loaded := ReadPersisted(s, freshIds);
      && r.workouts == loaded.workouts
      && r.locations == loaded.locations
      && (r.disk != s.disk <==> loaded.requiresMigrationSave)
      && (loaded.requiresMigrationSave ==> r == SaveData(r))
    ensures r.exercises == defaultExercises
    ensures s.workoutPlans == [] ==> r.workoutPlans == defaultPlans
    ensures s.workoutPlans != [] ==> r.workoutPlans == s.workoutPlans
    ensures r.activeWorkout == s.activeWorkout
  {
    var loaded := ReadPersisted(s, freshIds);
    var plans := if |s.workoutPlans| == 0 then defaultPlans else s.workoutPlans;
    var r := s.(workouts := loaded.workouts, locations := loaded.locations,
                exercises := defaultExercises, workoutPlans := plans);
    if loaded.requiresMigrationSave then SaveData(r) else r
  }

  /** What was saved is what the next launch loads, and that launch does
      not save again. */
  lemma SaveThenLoad(s: AppState, defaultExercises: seq<Exercise>, defaultPlans: seq<WorkoutPlan>,
                     freshIds: (nat, nat) -> Uuid)
    ensures var launched := LoadData(InitialState(SaveData(s).disk), defaultExercises, defaultPlans, freshIds);
      && launched.workouts == s.workouts
      && launched.locations == s.locations
      && launched.disk == SaveData(s).disk
  {
  }

  /** A legacy workouts file is upgraded by the first launch and left alone
      by the second. */
  lemma LegacyUpgradedOnce(disk: Disk, defaultExercises: seq<Exercise>, defaultPlans: seq<WorkoutPlan>,
                           freshIds: (nat, nat) -> Uuid)
    requires disk.workoutsFile.Some? && disk.workoutsFile.value.Legacy?
    ensures var first := LoadData(InitialState(disk), defaultExercises, defaultPlans, freshIds);
      var second := LoadData(InitialState(first.disk), defaultExercises, defaultPlans, freshIds);
      && first.disk.workoutsFile.Some?
      && first.disk.workoutsFile.value == EncodeWorkouts(first.workouts)
      && second.workouts == first.workouts
      && second.disk == first.disk
  {
  }

  /** As written, a workouts file in neither shape keeps the locations file
      from being read: the app starts with no locations even when that
      file is intact. */
  lemma CorruptWorkoutsHideLocations(ls: seq<Location>, defaultExercises: seq<Exercise>,
                                     defaultPlans: seq<WorkoutPlan>, freshIds: (nat, nat) -> Uuid)
    ensures var r := LoadData(InitialState(Disk(Some(Garbage), Some(LocationList(ls)))),
                              defaultExercises, defaultPlans, freshIds);
      r.workouts == [] && r.locations == []
  {
  }

  /** `startNewWorkout(name:exercises:)`: a fresh active workout started
      at `now` with one log per planned exercise. `workoutId` and
      `logIds(i)` are the identities drawn for the workout and its i-th log. */
  function StartNewWorkout(s: AppState, name: string, exercises: seq<PlannedExercise>,
                           workoutId: Uuid, logIds: nat -> Uuid, now: Time): (r: AppState)
    ensures r.activeWorkout.Some?
    ensures var w := r.activeWorkout.value;
      && w.id == workoutId && w.name == name
      && w.startedAt == Some(now) && w.endedAt == None
      && w.location == None && w.notes == None
      && |w.exerciseLogs| == |exercises|
      && (forall i :: 0 <= i < |exercises| ==>
            var planned, log := exercises[i], w.exerciseLogs[i];
            && log.id == logIds(i) && log.order == i && log.sets == []
            && log.workoutId == workoutId && log.exercise == planned.exercise
            && log.targetSets == Some(planned.targetSets) && log.targetReps == Some(planned.targetReps)
            && log.targetRest == Some(planned.restDuration) && log.notes == planned.notes
            && log.targetWeight == None)
      && WellFormed(w)
    ensures r.(activeWorkout := s.activeWorkout) == s
  {
    var logs := seq(|exercises|, i requires 0 <= i < |exercises| =>
      LogFromPlanned(logIds(i), workoutId, exercises[i], i));
    s.(activeWorkout := Some(Workout(workoutId, name, Some(now), None, None, None, logs)))
  }

  /** `startNewWorkout(name:plan:)`: the plan's exercises, or none. */
  function StartNewWorkoutFromPlan(s: AppState, name: string, plan: Option<WorkoutPlan>,
                                   workoutId: Uuid, logIds: nat -> Uuid, now: Time): (r: AppState)
    ensures plan.Some? ==> r == StartNewWorkout(s, name, plan.value.exercises, workoutId, logIds, now)
    ensures plan.None? ==> r == StartNewWorkout(s, name, [], workoutId, logIds, now)
    ensures plan.None? ==> r.activeWorkout.Some? && r.activeWorkout.value.exerciseLogs == []
    ensures plan.None? ==> r.activeWorkout.value.startedAt == Some(now) && r.activeWorkout.value.id == workoutId
    ensures r.(activeWorkout := s.activeWorkout) == s
  {
    match plan
    case Some(p) => StartNewWorkout(s, name, p.exercises, workoutId, logIds, now)
    case None => StartNewWorkout(s, name, [], workoutId, logIds, now)
  }

  /** `addExerciseToWorkout`: one more log at the end of the active
      workout; nothing without one. */
  function AddExerciseToWorkout(s: AppState, planned: PlannedExercise, logId: Uuid): (r: AppState)
    ensures s.activeWorkout.None? ==> r == s
    ensures s.activeWorkout.Some? ==> r.activeWorkout.Some?
    ensures s.activeWorkout.Some? ==>
      var w, w' := s.activeWorkout.value, r.activeWorkout.value;
      && w'.(exerciseLogs := []) == w.(exerciseLogs := [])
      && |w'.exerciseLogs| == |w.exerciseLogs| + 1
      && w'.exerciseLogs[..|w.exerciseLogs|] == w.exerciseLogs
      && var log := w'.exerciseLogs[|w.exerciseLogs|];
         && log.id == logId && log.order == |w.exerciseLogs| && log.sets == []
         && log.workoutId == w.id && log.exercise == planned.exercise
         && log.exerciseId == planned.exercise.id
         && log.targetSets == Some(planned.targetSets) && log.targetReps == Some(planned.targetReps)
         && log.targetRest == Some(planned.restDuration) && log.notes == planned.notes
         && log.targetWeight == None
    ensures r.(activeWorkout := s.activeWorkout) == s
  {
    match s.activeWorkout
    case None => s
    case Some(w) =>
      var log := LogFromPlanned(logId, w.id, planned, |w.exerciseLogs|);
      s.(activeWorkout := Some(w.(exerciseLogs := w.exerciseLogs + [log])))
  }

  /** Adding an exercise keeps the active workout well-formed. */
  lemma AddExerciseKeepsWellFormed(s: AppState, planned: PlannedExercise, logId: Uuid)
    requires s.activeWorkout.Some? && WellFormed(s.activeWorkout.value)
    ensures WellFormed(AddExerciseToWorkout(s, planned, logId).activeWorkout.value)
  {
  }

  /** The timestamps `endWorkout` stamps on a workout: for one already in
      history a missing end becomes `now` and a missing start becomes the
      end; for a new one a missing start becomes `now` and a missing end
      becomes the start. */
  function Stamped(w: Workout, now: Time, inHistory: bool): (r: Workout)
    ensures r.startedAt.Some? && r.endedAt.Some?
    ensures r.(startedAt := None, endedAt := None) == w.(startedAt := None, endedAt := None)
    ensures w.startedAt.Some? ==> r.startedAt == w.startedAt
    ensures w.endedAt.Some? ==> r.endedAt == w.endedAt
    ensures inHistory && w.endedAt.None? ==> r.endedAt == Some(now)
    ensures inHistory && w.startedAt.None? ==> r.startedAt == r.endedAt
    ensures !inHistory && w.startedAt.None? ==> r.startedAt == Some(now)
    ensures !inHistory && w.endedAt.None? ==> r.endedAt == r.startedAt
  {
    if inHistory then
      var ended := if w.endedAt.None? then Some(now) else w.endedAt;
      var started := if w.startedAt.None? then ended else w.startedAt;
      w.(startedAt := started, endedAt := ended)
    else
      var started := if w.startedAt.None? then Some(now) else w.startedAt;
      var ended := if w.endedAt.None? then started else w.endedAt;
      w.(startedAt := started, endedAt := ended)
  }

  /** The position of the first history entry with identity `id`. */
  function IndexOfWorkout(ws: seq<Workout>, id: Uuid): (r: Option<nat>)
    ensures r.Some? ==> r.value < |ws| && ws[r.value].id == id
    ensures r.Some? ==> forall j :: 0 <= j < r.value ==> ws[j].id != id
    ensures r.None? <==> forall j :: 0 <= j < |ws| ==> ws[j].id != id
  {
    FirstIndexWhere(ws, (x: Workout) => x.id == id)
  }

  /** `endWorkout`: replace the history entry with the same identity in
      place, or append; clear the active workout; save. */
  function EndWorkout(s: AppState, w: Workout, now: Time): (r: AppState)
    ensures IndexOfWorkout(s.workouts, w.id).Some? ==>
      var i := IndexOfWorkout(s.workouts, w.id).value;
      r.workouts == s.workouts[i := Stamped(w, now, true)]
    ensures IndexOfWorkout(s.workouts, w.id).None? ==>
      r.workouts == s.workouts + [Stamped(w, now, false)]
    ensures r.activeWorkout == None
    ensures r == SaveData(r)
    ensures r.locations == s.locations && r.workoutPlans == s.workoutPlans && r.exercises == s.exercises
  {
    var r := match IndexOfWorkout(s.workouts, w.id)
      case Some(i) => s.(workouts := s.workouts[i := Stamped(w, now, true)])
      case None => s.(workouts := s.workouts + [Stamped(w, now, false)]);
    SaveData(r.(activeWorkout := None))
  }

  /** The identities in the history are pairwise distinct. */
  ghost predicate DistinctIds(ws: seq<Workout>) {
    forall i, j :: 0 <= i < j < |ws| ==> ws[i].id != ws[j].id
  }

  /** Every workout in the history keeps the persisted invariants. */
  ghost predicate HistoryWellFormed(s: AppState) {
    forall i :: 0 <= i < |s.workouts| ==> WellFormed(s.workouts[i])
  }

  /** Ending a workout leaves it in history exactly once, with both
      timestamps, and never duplicates an identity. */
  lemma EndWorkoutStoresOnce(s: AppState, w: Workout, now: Time)
    requires DistinctIds(s.workouts)
    ensures var r := EndWorkout(s, w, now);
      && DistinctIds(r.workouts)
      && (exists i :: 0 <= i < |r.workouts| && r.workouts[i].id == w.id)
      && (forall i :: 0 <= i < |r.workouts| && r.workouts[i].id == w.id ==>
            r.workouts[i].startedAt.Some? && r.workouts[i].endedAt.Some?)
      && (IndexOfWorkout(s.workouts, w.id).Some? <==> |r.workouts| == |s.workouts|)
  {
    var r := EndWorkout(s, w, now);
    match IndexOfWorkout(s.workouts, w.id)
    case Some(i) =>
      assert r.workouts[i].id == w.id;
    case None =>
      assert r.workouts[|s.workouts|].id == w.id;
  }

  /** Ending a well-formed workout keeps the history well-formed. */
  lemma EndWorkoutKeepsHistoryWellFormed(s: AppState, w: Workout, now: Time)
    requires HistoryWellFormed(s) && WellFormed(w)
    ensures HistoryWellFormed(EndWorkout(s, w, now))
  {
  }

  /** The sets of a past workout's log, renumbered 0, 1, ... in order with
      every other field kept. */
  function NormalisedSets(sets: seq<ExerciseSet>): (r: seq<ExerciseSet>)
    ensures |r| == |sets|
    ensures forall k :: 0 <= k < |r| ==> r[k].setIndex == Some(k)
    ensures forall k :: 0 <= k < |r| ==> r[k].(setIndex := None) == sets[k].(setIndex := None)
  {
    seq(|sets|, k requires 0 <= k < |sets| =>
      var prev := sets[k];
      ExerciseSet(prev.id, Some(k), prev.rpe, prev.completedAt, prev.reps, prev.weight, prev.completed))
  }

  /** The log `logPastWorkout` stores for the i-th given exercise. */
  function PastLog(ex: WorkoutExercise, workoutId: Uuid, i: int): (r: WorkoutExercise)
    ensures r.order == i && r.workoutId == workoutId && r.exerciseId == ex.exercise.id
    ensures r.sets == NormalisedSets(ex.sets)
    ensures r.(workoutId := 0, exerciseId := 0, order := 0, sets := [])
         == ex.(workoutId := 0, exerciseId := 0, order := 0, sets := [])
  {
    MakeWorkoutExercise(ex.id, workoutId, ex.exercise, i, ex.targetSets, ex.targetReps,
                        ex.targetWeight, ex.targetRest, ex.notes, NormalisedSets(ex.sets))
  }

  /** `logPastWorkout`: a complete workout dated `date` appended to
      history, its logs renumbered in order and their sets renumbered in
      order; then a save. `workoutId` is the identity drawn for it. */
  function LogPastWorkout(s: AppState, name: string, date: Time, location: Option<Location>,
                          exercises: seq<WorkoutExercise>, notes: Option<string>, workoutId: Uuid): (r: AppState)
    ensures |r.workouts| == |s.workouts| + 1 && r.workouts[..|s.workouts|] == s.workouts
    ensures var w := r.workouts[|s.workouts|];
      && w.id == workoutId && w.name == name && w.location == location && w.notes == notes
      && w.startedAt == Some(date) && w.endedAt == Some(date)
      && |w.exerciseLogs| == |exercises|
      && (forall i :: 0 <= i < |exercises| ==> w.exerciseLogs[i] == PastLog(exercises[i], workoutId, i))
      && DenseOrder(w) && LogsOwned(w)
    ensures r == SaveData(r)
    ensures r.activeWorkout == s.activeWorkout && r.locations == s.locations
    ensures r.workoutPlans == s.workoutPlans && r.exercises == s.exercises
  {
    var logs := seq(|exercises|, i requires 0 <= i < |exercises| => PastLog(exercises[i], workoutId, i));
    var w := Workout(workoutId, name, Some(date), Some(date), location, notes, logs);
    SaveData(s.(workouts := s.workouts + [w]))
  }

  /** A past workout whose given sets are consistent keeps the history
      well-formed, however its input was numbered. */
  lemma LogPastWorkoutKeepsHistoryWellFormed(s: AppState, name: string, date: Time, location: Option<Location>,
                                             exercises: seq<WorkoutExercise>, notes: Option<string>, workoutId: Uuid)
    requires HistoryWellFormed(s)
    requires forall i :: 0 <= i < |exercises| ==> SetsConsistent(exercises[i])
    ensures HistoryWellFormed(LogPastWorkout(s, name, date, location, exercises, notes, workoutId))
  {
  }

  predicate HasTargets(log: WorkoutExercise) {
    log.targetSets.Some? && log.targetReps.Some?
  }

  /** The text of one history entry: "<sets> sets × <reps> reps". */
  function Summary(log: WorkoutExercise): string
    requires HasTargets(log)
  {
    IntToString(log.targetSets.value) + " sets × " + IntToString(log.targetReps.value) + " reps"
  }

  /** Every log of the history, workout by workout, each in its order. */
  ghost function AllLogs(ws: seq<Workout>): seq<WorkoutExercise>
    decreases |ws|
  {
    if |ws| == 0 then [] else ws[0].exerciseLogs + AllLogs(ws[1..])
  }

  /** A log is among all logs exactly when some workout holds it. */
  lemma {:induction false} AllLogsMembers(ws: seq<Workout>)
    ensures forall log :: log in AllLogs(ws) <==> exists i :: 0 <= i < |ws| && log in ws[i].exerciseLogs
    decreases |ws|
  {
    if |ws| > 0 {
      AllLogsMembers(ws[1..]);
      assert forall i :: 1 <= i < |ws| ==> ws[i] == ws[1..][i - 1];
      forall log | log in AllLogs(ws)
        ensures exists i :: 0 <= i < |ws| && log in ws[i].exerciseLogs
      {
        if log !in ws[0].exerciseLogs {
          var i :| 0 <= i < |ws[1..]| && log in ws[1..][i].exerciseLogs;
          assert log in ws[i + 1].exerciseLogs;
        }
      }
    }
  }

  /** Whether a log refers to the exercise. */
  function RefersTo(exerciseId: Uuid): WorkoutExercise -> bool {
    (l: WorkoutExercise) => l.exerciseId == exerciseId
  }

  /** Every log, across the history in order, that refers to the exercise. */
  function LogsFor(ws: seq<Workout>, exerciseId: Uuid): (r: seq<WorkoutExercise>)
    ensures r == Filter(AllLogs(ws), RefersTo(exerciseId))
    ensures forall k :: 0 <= k < |r| ==> r[k].exerciseId == exerciseId
    ensures forall i, j :: 0 <= i < |ws| && 0 <= j < |ws[i].exerciseLogs| && ws[i].exerciseLogs[j].exerciseId == exerciseId
              ==> ws[i].exerciseLogs[j] in r
    ensures forall log :: log in r ==> exists i :: 0 <= i < |ws| && log in ws[i].exerciseLogs
    decreases |ws|
  {
    if |ws| == 0 then []
    else
      var rest := LogsFor(ws[1..], exerciseId);
      FilterAppend(ws[0].exerciseLogs, AllLogs(ws[1..]), RefersTo(exerciseId));
      AllLogsMembers(ws);
      Filter(ws[0].exerciseLogs, RefersTo(exerciseId)) + rest
  }

  /** The summary of each log, in order. */
  function Summaries(logs: seq<WorkoutExercise>): (r: seq<string>)
    requires forall k :: 0 <= k < |logs| ==> HasTargets(logs[k])
    ensures |r| == |logs|
    ensures forall k :: 0 <= k < |r| ==> r[k] == Summary(logs[k])
  {
    seq(|logs|, k requires 0 <= k < |logs| => Summary(logs[k]))
  }

  /** `getExerciseHistory`: one summary per log of the exercise that has
      both a set and a rep target, or nothing when there is none. */
  function GetExerciseHistory(s: AppState, exercise: Exercise): (r: Option<seq<string>>)
    ensures r.None? <==> forall log :: log in LogsFor(s.workouts, exercise.id) ==> !HasTargets(log)
    ensures r.Some? ==>
      var summarised := Filter(LogsFor(s.workouts, exercise.id), HasTargets);
      |r.value| == |summarised| && forall k :: 0 <= k < |r.value| ==> r.value[k] == Summary(summarised[k])
  {
    var history := LogsFor(s.workouts, exercise.id);
    if |history| == 0 then None
    else
      var withTargets := Filter(history, HasTargets);
      assert |withTargets| == 0 <==> forall log :: log in history ==> !HasTargets(log) by {
        if |withTargets| > 0 {
          assert withTargets[0] in history && HasTargets(withTargets[0]);
        }
      }
      var summaries := Summaries(withTargets);
      if |summaries| == 0 then None else Some(summaries)
  }

  /** A history with no log of the exercise has no summary for it. */
  lemma NoLogsNoHistory(s: AppState, exercise: Exercise)
    requires forall i, j :: 0 <= i < |s.workouts| && 0 <= j < |s.workouts[i].exerciseLogs| ==>
      s.workouts[i].exerciseLogs[j].exerciseId != exercise.id
    ensures GetExerciseHistory(s, exercise) == None
  {
  }

  /** The duration label of a plan the user creates. */
  const DefaultPlanDuration: string := "60 minutes"

  /** `createWorkoutPlan`: an empty plan appended, then a save (which does
      not write plans). `planId` is the identity drawn for it. */
  function CreateWorkoutPlan(s: AppState, name: string, description: string, difficulty: Difficulty,
                             planId: Uuid): (r: AppState)
    ensures r.workoutPlans == s.workoutPlans + [WorkoutPlan(planId, name, description, DefaultPlanDuration, difficulty, [])]
    ensures r == SaveData(r)
    ensures r.workouts == s.workouts && r.locations == s.locations
    ensures r.exercises == s.exercises && r.activeWorkout == s.activeWorkout
  {
    var plan := WorkoutPlan(planId, name, description, DefaultPlanDuration, difficulty, []);
    SaveData(s.(workoutPlans := s.workoutPlans + [plan]))
  }

  /** A plan created by the user does not survive a relaunch: the next
      launch starts from the built-in plans, while the history and the
      locations that were saved along with it come back. */
  lemma CreatedPlanNotPersisted(s: AppState, name: string, description: string, difficulty: Difficulty,
                                planId: Uuid, defaultExercises: seq<Exercise>, defaultPlans: seq<WorkoutPlan>,
                                freshIds: (nat, nat) -> Uuid)
    ensures var created := CreateWorkoutPlan(s, name, description, difficulty, planId);
      var launched := LoadData(InitialState(created.disk), defaultExercises, defaultPlans, freshIds);
      && launched.workoutPlans == defaultPlans
      && launched.workouts == s.workouts
      && launched.locations == s.locations
  {
  }

  /** `findExercise`: the first exercise with exactly this name. */
  function FindExercise(s: AppState, name: string): (r: Option<Exercise>)
    ensures r.Some? ==> r.value in s.exercises && r.value.name == name
    ensures r.Some? ==> exists i :: 0 <= i < |s.exercises| && s.exercises[i] == r.value &&
                                    (forall j :: 0 <= j < i ==> s.exercises[j].name != name)
    ensures r.None? <==> forall e :: e in s.exercises ==> e.name != name
  {
    match FirstIndexWhere(s.exercises, (e: Exercise) => e.name == name)
    case Some(i) => Some(s.exercises[i])
    case None => None
  }

  /** `addLocation`: appended, then a save. */
  function AddLocation(s: AppState, location: Location): (r: AppState)
    ensures r.locations == s.locations + [location]
    ensures r == SaveData(r)
    ensures r.workouts == s.workouts && r.workoutPlans == s.workoutPlans
    ensures r.exercises == s.exercises && r.activeWorkout == s.activeWorkout
  {
    SaveData(s.(locations := s.locations + [location]))
  }

  /** `deleteLocation`: every location with that identity removed, the
      rest kept in order; then a save. */
  function DeleteLocation(s: AppState, location: Location): (r: AppState)
    ensures forall l :: l in r.locations <==> l in s.locations && l.id != location.id
    ensures IsSubsequence(r.locations, s.locations)
    ensures forall l: Location :: l.id != location.id ==> multiset(r.locations)[l] == multiset(s.locations)[l]
    ensures r == SaveData(r)
    ensures r.workouts == s.workouts && r.workoutPlans == s.workoutPlans
    ensures r.exercises == s.exercises && r.activeWorkout == s.activeWorkout
  {
    SaveData(s.(locations := Filter(s.locations, (l: Location) => l.id != location.id)))
  }

  /** Deleting a location that was just added gives back the locations as
      they were, provided none shared its identity. */
  lemma DeleteUndoesAdd(s: AppState, location: Location)
    requires forall l :: l in s.locations ==> l.id != location.id
    ensures DeleteLocation(AddLocation(s, location), location).locations == s.locations
  {
    var p := (l: Location) => l.id != location.id;
    FilterKeepsAll(s.locations, p);
    FilterAppendOne(s.locations, location, p);
  }

  /** A workout started from a plan, worked through any session commands,
      finalized and ended lands in a well-formed history. */
  lemma SessionLifecycle(s: AppState, name: string, plan: Option<WorkoutPlan>, workoutId: Uuid,
                         logIds: nat -> Uuid, start: Time, cs: seq<ActiveWorkoutSession.Command>, end: Time)
    requires HistoryWellFormed(s)
    ensures var started := StartNewWorkoutFromPlan(s, name, plan, workoutId, logIds, start);
      var session := ActiveWorkoutSession.Run(ActiveWorkoutSession.StartSession(started.activeWorkout.value), cs);
      var finished := ActiveWorkoutSession.Finalize(session, end);
      var r := EndWorkout(started, finished, end);
      HistoryWellFormed(r) && r.activeWorkout == None
  {
    var started := StartNewWorkoutFromPlan(s, name, plan, workoutId, logIds, start);
    var w := started.activeWorkout.value;
    assert WellFormed(w);
    ActiveWorkoutSession.FinalizedStaysWellFormed(w, cs, end);
    var session := ActiveWorkoutSession.Run(ActiveWorkoutSession.StartSession(w), cs);
    EndWorkoutKeepsHistoryWellFormed(started, ActiveWorkoutSession.Finalize(session, end), end);
  }
}
