# Fitness tracker core, modelled in Dafny

This project models the part of a SwiftUI fitness-tracking app that carries real state transitions, and proves properties about it:

- **the active workout session**: a cursor over the exercises of one in-progress workout; commands that add, update and complete sets; one optional rest timer; and finalization into a finished workout;
- **versioned workout persistence**: the envelope `{schemaVersion, workouts}` at version 2, and the one-way fallback from the legacy flat list of plan-shaped records;
- **the app catalog**: the history of workouts, plans, exercises and locations, plus the active workout, with its load, start, add, end, log, history, plan and location operations;
- the value records these operate on, and the two exercise-list filters of the library and picker screens.

Everything is a pure function over immutable datatypes. The clock (`Date()`) is a `now` parameter, one per operation, and a `TimeInterval` is an integer number of seconds. Every fresh `UUID` is an identity supplied by the caller. The JSON layer is abstract: a stored blob is `Envelope(store)`, `Legacy(records)` or `Garbage`. The two files the app writes form the `disk` component of the catalog state. Saving writes that component, and loading reads it.

Modules follow the source files:

| file | module | source |
|---|---|---|
| common.dfy | Common | `Option`, `Result`, `Filter`, `firstIndex(where:)`, integer rendering |
| exercises.dfy | Exercises | Models/Exercise.swift |
| exercise_sets.dfy | ExerciseSets | Models/ExerciseSet.swift |
| planned_exercises.dfy | PlannedExercises | Models/PlannedExercise.swift |
| workout_exercises.dfy | WorkoutExercises | Models/WorkoutExercise.swift |
| workouts.dfy | Workouts | Models/Workout.swift (and `Location`) |
| workout_plans.dfy | WorkoutPlans | Models/WorkoutPlan.swift |
| workout_persistence.dfy | WorkoutPersistence | Models/WorkoutPersistence.swift |
| active_workout_session.dfy | ActiveWorkoutSession | ViewModels/ActiveWorkoutSession.swift |
| app_catalog.dfy | AppCatalog | ViewModels/AppViewModel.swift |
| exercise_library.dfy | ExerciseLibrary | Views/ExerciseLibraryView.swift |
| exercise_selection.dfy | ExerciseSelection | Views/ExerciseSelectionView.swift |

Notes on where the source is followed as written:

- `logPastWorkout` passes `legacyCompleted:`, which is not a parameter of `ExerciseSet.init`. The model copies `completed`.
- `logPastWorkout` builds each log through `WorkoutExercise.init`. That init derives `exerciseId` from the embedded exercise, so an inconsistent `exerciseId` in the input is replaced, not copied.
- `loadData` reads both files inside one `do` block. When the workouts file is in neither shape, decoding throws before the locations file is read, so the locations stay empty (`AppCatalog.CorruptWorkoutsHideLocations`).
- `decodeWorkouts` tries the envelope shape before the legacy list. A JSON object and a JSON array cannot both match, so in the model the two shapes are disjoint alternatives. `WorkoutPersistence.DecodeWorkouts` checks them in the source's order.
- `loadDefaultExercises` replaces the exercises on every launch. Plans are seeded only when the plan list is empty.
- `saveData` writes workouts and locations only. `createWorkoutPlan` saves, but the new plan is not part of what is written.
- The views read a `session` property that `AppViewModel` does not declare. The session is therefore modelled on its own, and `AppCatalog.SessionLifecycle` connects the two explicitly.

## Model

| member | source | states |
|---|---|---|
| Exercises.MakeExercise | Models/Exercise.swift:13-22 | a new exercise keeps every given attribute and has no image and no variations |
| Exercises.AllMuscleGroups | Models/Exercise.swift:25-33 | `MuscleGroup.allCases` has exactly seven pairwise distinct cases |
| Exercises.AllMuscleGroupsComplete | Models/Exercise.swift:25-33 | every muscle group appears in `allCases` |
| Exercises.AllEquipment | Models/Exercise.swift:35-45 | `Equipment.allCases` has exactly nine pairwise distinct cases |
| Exercises.AllEquipmentComplete | Models/Exercise.swift:35-45 | every kind of equipment appears in `allCases` |
| Exercises.AllDifficulties | Models/Exercise.swift:47-51 | `Difficulty.allCases` has exactly three pairwise distinct cases |
| Exercises.AllDifficultiesComplete | Models/Exercise.swift:47-51 | every difficulty appears in `allCases` |
| Exercises.MuscleGroupFromRaw | Models/Exercise.swift:25-33 | parsing a raw string gives back exactly the group whose raw value it is, and fails on any other string |
| Exercises.EquipmentFromRaw | Models/Exercise.swift:35-45 | parsing a raw string gives back exactly the equipment whose raw value it is, and fails on any other string |
| Exercises.DifficultyFromRaw | Models/Exercise.swift:47-51 | parsing a raw string gives back exactly the difficulty whose raw value it is, and fails on any other string |
| ExerciseSets.MakeExerciseSet | Models/ExerciseSet.swift:14-30 | a new set stores its reps as given, has no index, weight or effort, is not completed, has no completion time, so its two completion fields agree |
| PlannedExercises.MakePlannedExercise | Models/PlannedExercise.swift:11-25 | a planned exercise keeps its identity, exercise and targets, rests 60 seconds by default and has no notes |
| WorkoutExercises.MakeWorkoutExercise | Models/WorkoutExercise.swift:16-39 | the exercise identity of a log is always that of its embedded exercise; every other argument is stored as given |
| WorkoutExercises.DefaultWorkoutExercise | Models/WorkoutExercise.swift:16-39 | by default a log keeps the given identities and exercise, is at order 0, and has no sets, no targets and no notes |
| WorkoutExercises.LogFromPlanned | ViewModels/AppViewModel.swift:842-854 | a log built from a planned exercise copies its set, rep and rest targets and notes, has no target weight and no sets yet, and refers to the planned exercise's exercise |
| Workouts.MakeWorkout | Models/Workout.swift:13-29 | a new workout has no timestamps, location, notes or logs, hence no duration |
| Workouts.Duration | Models/Workout.swift:31-34 | the duration is absent when either timestamp is absent, and otherwise is the time from start to end |
| WorkoutPlans.SameIdSamePlan | Models/WorkoutPlan.swift:25-27 | two plans with the same identity are equal, whatever their content |
| WorkoutPlans.ContentDoesNotMakeEqual | Models/WorkoutPlan.swift:25-27 | a plan and a copy with another identity are unequal, though their content is identical |
| WorkoutPlans.SamePlanIsEquivalence | Models/WorkoutPlan.swift:25-27 | plan equality is reflexive, symmetric and transitive |
| WorkoutPlans.HashRespectsEquality | Models/WorkoutPlan.swift:21-23 | equal plans hash equally, for any hasher |
| WorkoutPersistence.LegacyToWorkout | Models/WorkoutPersistence.swift:42-65 | a legacy record becomes a workout with the same identity, name, location and notes, with start and end taken from its start and end times, and with one log per planned exercise in order. Each log's order equals its position, it has no sets, it belongs to the workout and it copies the planned targets and notes; the result is well-formed |
| WorkoutPersistence.DecodeWorkouts | Models/WorkoutPersistence.swift:11-22 | an envelope yields its workouts unchanged, migrated exactly when its version is below 2; a legacy list yields one converted workout per record in order, always migrated; anything else is a decode error |
| WorkoutPersistence.EncodeWorkouts | Models/WorkoutPersistence.swift:24-28 | encoding always writes the envelope at the current schema version 2 around the given workouts |
| WorkoutPersistence.RoundTrip | Models/WorkoutPersistence.swift:11-28 | decoding an encoding returns the same workouts with no migration requested |
| WorkoutPersistence.MigratedIffNotCurrent | Models/WorkoutPersistence.swift:14-21 | a successful decode reports a migration exactly when the data was not a current-version envelope |
| WorkoutPersistence.LegacyDecodeWellFormed | Models/WorkoutPersistence.swift:19-21 | every workout recovered from the legacy format has dense orders, owned logs and consistent sets |
| ActiveWorkoutSession.Remaining | ViewModels/ActiveWorkoutSession.swift:6-7 | remaining rest time is never negative: zero from the end instant on, and before it the time still to go until the end |
| ActiveWorkoutSession.RemainingAtStart | ViewModels/ActiveWorkoutSession.swift:3-7 | at its start instant a timer has its whole duration left |
| ActiveWorkoutSession.FinishedIffPastEnd | ViewModels/ActiveWorkoutSession.swift:8 | a timer is finished exactly when the clock has reached its end |
| ActiveWorkoutSession.RemainingNeverIncreases | ViewModels/ActiveWorkoutSession.swift:7 | remaining time does not go up as the clock advances |
| ActiveWorkoutSession.StartSession | ViewModels/ActiveWorkoutSession.swift:14-22 | a new session holds the workout, has no timer and has made no scheduler calls; it starts on the first exercise (index 0), so its cursor is valid |
| ActiveWorkoutSession.CurrentExercise | ViewModels/ActiveWorkoutSession.swift:24-27 | there is no current exercise exactly when the cursor is not a valid index of the logs; otherwise it is the log at the cursor |
| ActiveWorkoutSession.NextExercise | ViewModels/ActiveWorkoutSession.swift:29-32 | the cursor moves forward by one unless that would pass the last exercise, in which case nothing changes |
| ActiveWorkoutSession.PreviousExercise | ViewModels/ActiveWorkoutSession.swift:34-37 | the cursor moves back by one unless it is at the first position, in which case nothing changes |
| ActiveWorkoutSession.AddSet | ViewModels/ActiveWorkoutSession.swift:39-45 | without a current exercise nothing changes; otherwise exactly one set is appended to the current exercise, indexed by the previous set count, uncompleted with no completion time, and every other exercise, the cursor and the timer are unchanged |
| ActiveWorkoutSession.UpdateSet | ViewModels/ActiveWorkoutSession.swift:47-53 | an index outside the current exercise's sets changes nothing; otherwise only that set's reps, weight and effort change, and its identity, index and completion fields are kept |
| ActiveWorkoutSession.StartRestTimer | ViewModels/ActiveWorkoutSession.swift:66-75 | the timer becomes exactly one of the given duration started now, replacing any other, with its whole duration left, and the scheduler is asked for authorization and for a "Rest finished" notification at the timer's end instant |
| ActiveWorkoutSession.CompleteSet | ViewModels/ActiveWorkoutSession.swift:55-64 | an invalid index changes nothing, the timer included; a valid one sets the set completed and stamped now together, and starts a rest of the exercise's target rest if that is present and positive, otherwise leaving the timer and the scheduler untouched |
| ActiveWorkoutSession.CancelRestTimer | ViewModels/ActiveWorkoutSession.swift:77 | afterwards there is no timer; the workout, the cursor and the notifications already requested are untouched |
| ActiveWorkoutSession.Finalize | ViewModels/ActiveWorkoutSession.swift:79-84 | the end is stamped now whatever it was, the start is kept or defaulted to now, nothing else changes, and the result has a duration |
| ActiveWorkoutSession.FinalizeDuration | ViewModels/ActiveWorkoutSession.swift:79-84 | a finalized workout that had no start lasts zero seconds; one started at or before now lasts the non-negative time since its start |
| ActiveWorkoutSession.AddThenComplete | ViewModels/ActiveWorkoutSession.swift:39-59 | a set added and then completed is completed, has its completion time, and carries the index it was added at |
| ActiveWorkoutSession.CompleteSetStartsRest | ViewModels/ActiveWorkoutSession.swift:55-68 | completing a set of an exercise with positive target rest leaves a timer with that rest remaining now and finished exactly that much later |
| ActiveWorkoutSession.ApplyKeepsInvariant | ViewModels/ActiveWorkoutSession.swift:29-77 | every session command keeps the cursor in bounds and the completion fields in agreement, and changes nothing of the workout but its sets |
| ActiveWorkoutSession.RunKeepsInvariant | ViewModels/ActiveWorkoutSession.swift:29-77 | the same holds for any sequence of commands |
| ActiveWorkoutSession.RunKeepsCursor | ViewModels/ActiveWorkoutSession.swift:29-37 | any command sequence keeps a valid cursor valid and never changes the number of exercises, whatever the sets hold |
| ActiveWorkoutSession.CursorStaysInBounds | ViewModels/ActiveWorkoutSession.swift:14-37 | from a fresh session over any workout the cursor stays within the exercises for any command sequence, and at 0 for an empty workout |
| ActiveWorkoutSession.FinalizedStaysWellFormed | ViewModels/ActiveWorkoutSession.swift:39-84 | a well-formed workout run through any commands and finalized is still well-formed |
| AppCatalog.InitialState | ViewModels/AppViewModel.swift:11-18 | before loading, every collection is empty and no workout is active |
| AppCatalog.SaveData | ViewModels/AppViewModel.swift:1351-1365 | saving writes the history in the current envelope and the locations, and changes nothing in memory |
| AppCatalog.ReadPersisted | ViewModels/AppViewModel.swift:42-60 | an unreadable workouts file is skipped; a corrupt one aborts reading before the locations are read; a decoded one supplies exactly the decoded workouts and migration flag, with the locations file then read if it is readable; a legacy list always asks for a migration save and yields one workout per record |
| AppCatalog.LoadData | ViewModels/AppViewModel.swift:42-70 | exercises are always replaced by the built-in ones; plans are seeded exactly when there are none; the state is saved after loading exactly when decoding reported a migration |
| AppCatalog.SaveThenLoad | ViewModels/AppViewModel.swift:42-70 | what was saved is what the next launch loads, and that launch does not save again |
| AppCatalog.LegacyUpgradedOnce | ViewModels/AppViewModel.swift:42-70 | a legacy workouts file is rewritten in the current envelope by the first launch and left alone by the next |
| AppCatalog.CorruptWorkoutsHideLocations | ViewModels/AppViewModel.swift:44-60 | with a workouts file in neither shape, the app starts with no workouts and no locations even when the locations file is intact |
| AppCatalog.StartNewWorkout | ViewModels/AppViewModel.swift:840-862 | the active workout becomes a new one started now, with one log per planned exercise in order. Each log's order is its position, it has no sets, its targets are copied, its target weight is absent and it belongs to the new workout; the workout is well-formed and nothing else changes |
| AppCatalog.StartNewWorkoutFromPlan | ViewModels/AppViewModel.swift:864-870 | with a plan it starts the plan's exercises; without one it starts, as `startNewWorkout` with no exercises, an active workout under the given name, started now, with no end, location, notes or logs, replacing any previous one |
| AppCatalog.AddExerciseToWorkout | ViewModels/AppViewModel.swift:910-926 | without an active workout nothing changes; otherwise one log is appended with order equal to the previous count, referring to the planned exercise (its `exerciseId` is that exercise's id), targets copied and no sets, and the existing logs are kept |
| AppCatalog.AddExerciseKeepsWellFormed | ViewModels/AppViewModel.swift:910-926 | appending an exercise keeps orders dense from 0 and the active workout well-formed |
| AppCatalog.Stamped | ViewModels/AppViewModel.swift:873-896 | the stored workout always has both timestamps and keeps any it had; for a workout already in history a missing end becomes now and a missing start the end; for a new one a missing start becomes now and a missing end the start |
| AppCatalog.IndexOfWorkout | ViewModels/AppViewModel.swift:873 | finds the first history position with the given identity, or reports that there is none |
| AppCatalog.EndWorkout | ViewModels/AppViewModel.swift:872-908 | an identity already in history is replaced at its position, and a new identity is appended; the active workout is cleared and the state saved |
| AppCatalog.EndWorkoutStoresOnce | ViewModels/AppViewModel.swift:872-908 | after ending, the workout is in history with both timestamps, identities stay distinct, and the history length is unchanged exactly when the identity was already present |
| AppCatalog.EndWorkoutKeepsHistoryWellFormed | ViewModels/AppViewModel.swift:872-908 | ending a well-formed workout keeps every workout in history well-formed |
| AppCatalog.NormalisedSets | ViewModels/AppViewModel.swift:931-941 | sets are renumbered 0, 1, ... in order with every other field kept |
| AppCatalog.PastLog | ViewModels/AppViewModel.swift:930-954 | a past log takes its position as order, belongs to the new workout, derives its exercise identity from its exercise, renumbers its sets and copies every other field |
| AppCatalog.LogPastWorkout | ViewModels/AppViewModel.swift:928-966 | exactly one workout is appended, dated at both ends by the given date, with dense orders and owned logs; the state is saved and the active workout is untouched |
| AppCatalog.LogPastWorkoutKeepsHistoryWellFormed | ViewModels/AppViewModel.swift:928-966 | however the given exercises and sets were numbered, the history stays well-formed when their sets were consistent |
| AppCatalog.LogsFor | ViewModels/AppViewModel.swift:980-982 | exactly the logs of the history that refer to the exercise, workout by workout and in each workout's order, each as often as it occurs |
| AppCatalog.GetExerciseHistory | ViewModels/AppViewModel.swift:979-992 | there is no history exactly when no log of the exercise has both a set and a rep target; otherwise one "N sets × M reps" summary per such log, in order |
| AppCatalog.NoLogsNoHistory | ViewModels/AppViewModel.swift:979-984 | an exercise no log refers to has no history |
| AppCatalog.CreateWorkoutPlan | ViewModels/AppViewModel.swift:996-1006 | one plan is appended, with no exercises and the duration label "60 minutes"; everything else is unchanged and the state is saved |
| AppCatalog.CreatedPlanNotPersisted | ViewModels/AppViewModel.swift:996-1006 | a created plan is gone after a relaunch, which seeds the built-in plans again, while the saved history and locations come back |
| AppCatalog.FindExercise | ViewModels/AppViewModel.swift:1329-1331 | the result is the first exercise with exactly that name, and there is none exactly when no exercise has it |
| AppCatalog.AddLocation | ViewModels/AppViewModel.swift:1335-1338 | the location is appended and the state saved |
| AppCatalog.DeleteLocation | ViewModels/AppViewModel.swift:1344-1347 | every location with that identity is removed, every other location is kept with its multiplicity and order, and the state is saved |
| AppCatalog.DeleteUndoesAdd | ViewModels/AppViewModel.swift:1335-1347 | deleting a location just added, whose identity was new, restores the previous locations |
| AppCatalog.SessionLifecycle | ViewModels/AppViewModel.swift:840-908 | a workout started from a plan, worked through any session commands, finalized and ended leaves a well-formed history and no active workout |
| ExerciseLibrary.FilteredExercises | Views/ExerciseLibraryView.swift:12-30 | the result keeps the library's order and multiplicities. It holds exactly the exercises that pass every active filter: search text in name or description, and the selected group, equipment and difficulty |
| ExerciseLibrary.NoFiltersShowsAll | Views/ExerciseLibraryView.swift:12-28 | with no search text and no filter, the whole library is shown in order |
| ExerciseSelection.FilteredExercises | Views/ExerciseSelectionView.swift:11-25 | the result keeps the list's order and holds exactly the exercises whose name contains the search text, when there is one, and whose group is the selected one, when there is one, each with its multiplicity in the list; descriptions are not searched |
| ExerciseSelection.NoFiltersShowsAll | Views/ExerciseSelectionView.swift:11-24 | with no search text and no group, every exercise is offered in order |
| ExerciseSelection.SearchThenGroupIsOneFilter | Views/ExerciseSelectionView.swift:15-22 | the search filter followed by the group filter equals one filter by both conditions |
| ExerciseSelection.ToggleMuscleGroup | Views/ExerciseSelectionView.swift:38-42 | tapping the selected group clears the selection; tapping any other group selects it |
| ExerciseSelection.ToggleTwice | Views/ExerciseSelectionView.swift:38-42 | tapping the same chip twice restores an empty selection or that chip's selection |

## Left out

- Calendar integration (ViewModels/AppViewModel.swift:742-826) and the fire-and-forget tasks that `endWorkout` and `logPastWorkout` start to add calendar events. This is a platform service whose failures are only logged.
- Location services (ViewModels/AppViewModel.swift:828-836) and `getLocations`, a plain accessor.
- File reads and writes, and their failures. The two files are the `disk` component, and a write is assumed to succeed; a failed write is only logged in the source.
- JSON encoding and decoding of bytes. These belong to a foreign library; the model uses the shapes the decoder recognises.
- The built-in exercise and plan catalogs (ViewModels/AppViewModel.swift:72-738, 1010-1327). They are static data, passed to `LoadData` as parameters.
- The notification centre behind the scheduler (Helpers/Notifications.swift). The session records the calls it makes, and their delivery is not modelled.
- Floating point: weight, effort and target weight are only stored and copied, and are modelled as `real`. `TimeInterval` is whole seconds.
- `currentWorkout`, `selectedPlan` and `calendarEvents` of `AppViewModel`, which no modelled operation reads or writes.
- All other SwiftUI views, and Models/WorkoutSet.swift, a type nothing uses.
- ActiveWorkoutSession.CompleteSet, ActiveWorkoutSession.Finalize: the source reads the clock separately for the set's completion time and the rest timer's start (ViewModels/ActiveWorkoutSession.swift:58, 67), and for the start and end of a workout never started (lines 81-82). The model takes the readings within one call as one instant `now`, so `FinalizeDuration`'s zero duration for such a workout holds only under that merge.
- AppCatalog.FindExercise: names are compared as sequences of code points, whereas Swift's `String ==` treats canonically equivalent strings (a precomposed and a decomposed "é") as equal. The app calls it only with literal names.
- ExerciseLibrary.FilteredExercises: the localized, case-insensitive containment test is an abstract parameter, not Foundation's implementation.
- ExerciseSelection.FilteredExercises: the localized, case-insensitive containment test is an abstract parameter, not Foundation's implementation.
