/** The state machine over one in-progress workout: an exercise cursor,
    set-level commands, a single optional rest timer and finalization
    (`ViewModels/ActiveWorkoutSession.swift`). The notification scheduler
    it talks to is modelled as the log of calls it receives. */
module ActiveWorkoutSession {
  import opened Common
  import opened ExerciseSets
  import opened WorkoutExercises
  import opened Workouts

  /** A countdown that started at `startedAt` and lasts `duration` seconds.
      It holds no running clock: remaining time is computed on demand. */
  datatype RestTimer = RestTimer(duration: int, startedAt: Time)

  function EndsAt(t: RestTimer): Time {
    t.startedAt + t.duration
  }

  /** Seconds left at `now`, never below zero. */
  function Remaining(t: RestTimer, now: Time): (r: int)
    ensures r >= 0
    ensures now >= EndsAt(t) ==> r == 0
    ensures now < EndsAt(t) ==> now + r == EndsAt(t)
  {
    Max(0, EndsAt(t) - now)
  }

  predicate IsFinished(t: RestTimer, now: Time) {
    Remaining(t, now) <= 0
  }

  /** At the moment it starts, a timer has its whole duration left. */
  lemma RemainingAtStart(t: RestTimer)
    requires t.duration >= 0
    ensures Remaining(t, t.startedAt) == t.duration
  {
  }

  /** A timer is finished exactly from its end instant on. */
  lemma FinishedIffPastEnd(t: RestTimer, now: Time)
    ensures IsFinished(t, now) <==> now >= EndsAt(t)
  {
  }

  /** The remaining time never goes up as the clock advances. */
  lemma RemainingNeverIncreases(t: RestTimer, earlier: Time, later: Time)
    requires earlier <= later
    ensures Remaining(t, later) <= Remaining(t, earlier)
  {
  }

  const RestNotificationTitle: string := "Rest finished"
  const RestNotificationBody: string := "Time to start your next set"

  /** A call made on the notification scheduler. Neither call's outcome is
      observed by the session. */
  datatype SchedulerCall =
    | RequestAuthorization
    | ScheduleRestNotification(endsAt: Time, title: string, body: string)

  datatype Session = Session(
    workout: Workout,
    currentExerciseIndex: int,
    restTimer: Option<RestTimer>,
    schedulerCalls: seq<SchedulerCall>)

  /** `ActiveWorkoutSession.init`: cursor on the first exercise, no timer. */
  function StartSession(w: Workout): (s: Session)
    ensures s.workout == w && s.restTimer == None && s.schedulerCalls == []
    ensures s.currentExerciseIndex == 0
    ensures CursorValid(s)
  {
    Session(w, 0, None, [])
  }

  ghost predicate ValidIndex<T>(s: seq<T>, i: int) {
    0 <= i < |s|
  }

  /** The cursor points at an exercise, or is 0 when there is none. */
  ghost predicate CursorValid(s: Session) {
    if |s.workout.exerciseLogs| == 0 then s.currentExerciseIndex == 0
    else ValidIndex(s.workout.exerciseLogs, s.currentExerciseIndex)
  }

  /** `currentExercise`. */
  function CurrentExercise(s: Session): (r: Option<WorkoutExercise>)
    ensures r.None? <==> !ValidIndex(s.workout.exerciseLogs, s.currentExerciseIndex)
    ensures r.Some? ==> r.value == s.workout.exerciseLogs[s.currentExerciseIndex]
  {
    if 0 <= s.currentExerciseIndex < |s.workout.exerciseLogs| then
      Some(s.workout.exerciseLogs[s.currentExerciseIndex])
    else None
  }

  /** `nextExercise`: one step forward, or nothing at the last exercise. */
  function NextExercise(s: Session): (r: Session)
    ensures s.currentExerciseIndex + 1 < |s.workout.exerciseLogs| ==>
      r == s.(currentExerciseIndex := s.currentExerciseIndex + 1)
    ensures s.currentExerciseIndex + 1 >= |s.workout.exerciseLogs| ==> r == s
  {
    if s.currentExerciseIndex + 1 < |s.workout.exerciseLogs| then
      s.(currentExerciseIndex := s.currentExerciseIndex + 1)
    else s
  }

  /** `previousExercise`: one step back, or nothing at the first exercise. */
  function PreviousExercise(s: Session): (r: Session)
    ensures s.currentExerciseIndex >= 1 ==> r == s.(currentExerciseIndex := s.currentExerciseIndex - 1)
    ensures s.currentExerciseIndex < 1 ==> r == s
  {
    if s.currentExerciseIndex - 1 >= 0 then
      s.(currentExerciseIndex := s.currentExerciseIndex - 1)
    else s
  }

  /** `r` is `s` with the current exercise replaced by `ex` and nothing else
      changed. */
  ghost predicate OnlyCurrentReplaced(s: Session, r: Session, ex: WorkoutExercise) {
    && ValidIndex(s.workout.exerciseLogs, s.currentExerciseIndex)
    && r.currentExerciseIndex == s.currentExerciseIndex
    && r.restTimer == s.restTimer
    && r.schedulerCalls == s.schedulerCalls
    && r.workout.(exerciseLogs := []) == s.workout.(exerciseLogs := [])
    && |r.workout.exerciseLogs| == |s.workout.exerciseLogs|
    && r.workout.exerciseLogs[s.currentExerciseIndex] == ex
    && forall j :: 0 <= j < |s.workout.exerciseLogs| && j != s.currentExerciseIndex ==>
         r.workout.exerciseLogs[j] == s.workout.exerciseLogs[j]
  }

  function WithCurrent(s: Session, ex: WorkoutExercise): (r: Session)
    requires ValidIndex(s.workout.exerciseLogs, s.currentExerciseIndex)
    ensures OnlyCurrentReplaced(s, r, ex)
  {
    s.(workout := s.workout.(exerciseLogs := s.workout.exerciseLogs[s.currentExerciseIndex := ex]))
  }

  /** `addSet`: a new, not yet completed set at the end of the current
      exercise, indexed by the number of sets before it. The set's fresh
      identity is `setId`. */
  function AddSet(s: Session, setId: Uuid, reps: int, weight: Option<real>, rpe: Option<real>): (r: Session)
    ensures CurrentExercise(s).None? ==> r == s
    ensures CurrentExercise(s).Some? ==>
      var ex := CurrentExercise(s).value;
      var added := ExerciseSet(setId, Some(|ex.sets|), rpe, None, reps, weight, false);
      OnlyCurrentReplaced(s, r, ex.(sets := ex.sets + [added]))
  {
    match CurrentExercise(s)
    case None => s
    case Some(ex) =>
      var idx := |ex.sets|;
      var added := ExerciseSet(setId, Some(idx), rpe, None, reps, weight, false);
      WithCurrent(s, ex.(sets := ex.sets + [added]))
  }

  /** `updateSet(at:)`: overwrites reps, weight and effort of one set of the
      current exercise; an index outside its sets changes nothing. */
  function UpdateSet(s: Session, index: int, reps: int, weight: Option<real>, rpe: Option<real>): (r: Session)
    ensures CurrentExercise(s).None? ==> r == s
    ensures CurrentExercise(s).Some? && !ValidIndex(CurrentExercise(s).value.sets, index) ==> r == s
    ensures CurrentExercise(s).Some? && ValidIndex(CurrentExercise(s).value.sets, index) ==>
      var ex := CurrentExercise(s).value;
      var prev := ex.sets[index];
      OnlyCurrentReplaced(s, r, ex.(sets := ex.sets[index := prev.(reps := reps, weight := weight, rpe := rpe)]))
  {
    match CurrentExercise(s)
    case None => s
    case Some(ex) =>
      if 0 <= index < |ex.sets| then
        var updated := ex.sets[index].(reps := reps, weight := weight, rpe := rpe);
        WithCurrent(s, ex.(sets := ex.sets[index := updated]))
      else s
  }

  /** `startRestTimer(duration:)`: a new timer replaces any running one, and
      a notification is requested for the instant it ends. */
  function StartRestTimer(s: Session, duration: int, now: Time): (r: Session)
    ensures r.restTimer == Some(RestTimer(duration, now))
    ensures Remaining(r.restTimer.value, now) == Max(0, duration)
    ensures r.schedulerCalls == s.schedulerCalls +
      [RequestAuthorization, ScheduleRestNotification(EndsAt(r.restTimer.value), RestNotificationTitle, RestNotificationBody)]
    ensures r.workout == s.workout && r.currentExerciseIndex == s.currentExerciseIndex
  {
    var timer := RestTimer(duration, now);
    s.(restTimer := Some(timer),
       schedulerCalls := s.schedulerCalls +
         [RequestAuthorization, ScheduleRestNotification(now + duration, RestNotificationTitle, RestNotificationBody)])
  }

  /** Whether completing a set of `ex` starts a rest: only for a present,
      positive target rest. */
  predicate RestsAfterSet(ex: WorkoutExercise) {
    ex.targetRest.Some? && ex.targetRest.value > 0
  }

  /** `completeSet(at:)`: stamps the set completed at `now` (both fields
      together), then rests for the exercise's target rest if it has a
      positive one. An index outside the current exercise's sets changes
      nothing, the timer included. */
  function CompleteSet(s: Session, index: int, now: Time): (r: Session)
    ensures CurrentExercise(s).None? ==> r == s
    ensures CurrentExercise(s).Some? && !ValidIndex(CurrentExercise(s).value.sets, index) ==> r == s
    ensures CurrentExercise(s).Some? && ValidIndex(CurrentExercise(s).value.sets, index) ==>
      var ex := CurrentExercise(s).value;
      var done := ex.sets[index].(completed := true, completedAt := Some(now));
      var ex' := ex.(sets := ex.sets[index := done]);
      && r.workout == WithCurrent(s, ex').workout
      && r.currentExerciseIndex == s.currentExerciseIndex
      && (RestsAfterSet(ex) ==> r == StartRestTimer(WithCurrent(s, ex'), ex.targetRest.value, now))
      && (!RestsAfterSet(ex) ==> r.restTimer == s.restTimer && r.schedulerCalls == s.schedulerCalls)
  {
    match CurrentExercise(s)
    case None => s
    case Some(ex) =>
      if 0 <= index < |ex.sets| then
        var done := ex.sets[index].(completed := true, completedAt := Some(now));
        var s' := WithCurrent(s, ex.(sets := ex.sets[index := done]));
        if ex.targetRest.Some? && ex.targetRest.value > 0 then
          StartRestTimer(s', ex.targetRest.value, now)
        else s'
      else s
  }

  /** `cancelRestTimer`: drops the timer; a notification already requested
      is not withdrawn. */
  function CancelRestTimer(s: Session): (r: Session)
    ensures r.restTimer == None
    ensures r.workout == s.workout && r.currentExerciseIndex == s.currentExerciseIndex
    ensures r.schedulerCalls == s.schedulerCalls
  {
    s.(restTimer := None)
  }

  /** `finalize`: the workout with its start defaulted to `now` and its end
      stamped `now`, whatever it was before. */
  function Finalize(s: Session, now: Time): (w: Workout)
    ensures w.endedAt == Some(now)
    ensures s.workout.startedAt.Some? ==> w.startedAt == s.workout.startedAt
    ensures s.workout.startedAt.None? ==> w.startedAt == Some(now)
    ensures w.(startedAt := None, endedAt := None) == s.workout.(startedAt := None, endedAt := None)
    ensures Duration(w).Some?
  {
    var started := if s.workout.startedAt.None? then Some(now) else s.workout.startedAt;
    s.workout.(startedAt := started, endedAt := Some(now))
  }

  /** A finalized workout that had no start lasts zero seconds; one that
      started at or before `now` lasts a non-negative time. */
  lemma FinalizeDuration(s: Session, now: Time)
    ensures s.workout.startedAt.None? ==> Duration(Finalize(s, now)) == Some(0)
    ensures s.workout.startedAt.Some? && s.workout.startedAt.value <= now ==>
      Duration(Finalize(s, now)) == Some(now - s.workout.startedAt.value) && now - s.workout.startedAt.value >= 0
  {
  }

  /** A set added and then completed ends up completed with a timestamp. */
  lemma AddThenComplete(s: Session, setId: Uuid, reps: int, weight: Option<real>, rpe: Option<real>, now: Time)
    requires CurrentExercise(s).Some?
    ensures var n := |CurrentExercise(s).value.sets|;
      var r := CompleteSet(AddSet(s, setId, reps, weight, rpe), n, now);
      var added := r.workout.exerciseLogs[s.currentExerciseIndex].sets[n];
      added.completed && added.completedAt == Some(now) && added.setIndex == Some(n)
  {
  }

  /** Completing a set of an exercise with a positive target rest leaves a
      timer with that whole rest left at `now` and finished at its end. */
  lemma CompleteSetStartsRest(s: Session, index: int, now: Time)
    requires CurrentExercise(s).Some? && ValidIndex(CurrentExercise(s).value.sets, index)
    requires RestsAfterSet(CurrentExercise(s).value)
    ensures var rest := CurrentExercise(s).value.targetRest.value;
      var t := CompleteSet(s, index, now).restTimer;
      t.Some? && Remaining(t.value, now) == rest && Remaining(t.value, now + rest) == 0
      && IsFinished(t.value, now + rest)
  {
  }

  /** The commands the presentation layer issues on a session. */
  datatype Command =
    | Next
    | Previous
    | AddSetCommand(setId: Uuid, reps: int, weight: Option<real>, rpe: Option<real>)
    | UpdateSetCommand(index: int, reps: int, weight: Option<real>, rpe: Option<real>)
    | CompleteSetCommand(index: int, now: Time)
    | StartRestCommand(duration: int, now: Time)
    | CancelRestCommand

  function Apply(s: Session, c: Command): Session {
    match c
    case Next => NextExercise(s)
    case Previous => PreviousExercise(s)
    case AddSetCommand(id, reps, weight, rpe) => AddSet(s, id, reps, weight, rpe)
    case UpdateSetCommand(i, reps, weight, rpe) => UpdateSet(s, i, reps, weight, rpe)
    case CompleteSetCommand(i, now) => CompleteSet(s, i, now)
    case StartRestCommand(d, now) => StartRestTimer(s, d, now)
    case CancelRestCommand => CancelRestTimer(s)
  }

  /** The session after the commands `cs`, in order. */
  function Run(s: Session, cs: seq<Command>): Session
    decreases |cs|
  {
    if |cs| == 0 then s else Run(Apply(s, cs[0]), cs[1..])
  }

  /** `b` is `a` with, at most, different sets in its logs: every other
      field of the workout and of each log is the same. */
  ghost predicate SameShape(a: Workout, b: Workout) {
    && a.(exerciseLogs := []) == b.(exerciseLogs := [])
    && |a.exerciseLogs| == |b.exerciseLogs|
    && forall i :: 0 <= i < |a.exerciseLogs| ==>
         a.exerciseLogs[i].(sets := []) == b.exerciseLogs[i].(sets := [])
  }

  /** What every reachable session satisfies: the cursor is in bounds and
      no set's completion fields disagree. */
  ghost predicate Invariant(s: Session) {
    CursorValid(s) && AllSetsConsistent(s.workout)
  }

  /** Each single command keeps the invariant and touches only sets. */
  lemma ApplyKeepsInvariant(s: Session, c: Command)
    requires Invariant(s)
    ensures Invariant(Apply(s, c))
    ensures SameShape(s.workout, Apply(s, c).workout)
  {
  }

  lemma SameShapeTransitive(a: Workout, b: Workout, c: Workout)
    requires SameShape(a, b) && SameShape(b, c)
    ensures SameShape(a, c)
  {
  }

  /** Any sequence of commands keeps the invariant, and changes nothing of
      the workout but its sets. */
  lemma {:induction false} RunKeepsInvariant(s: Session, cs: seq<Command>)
    requires Invariant(s)
    ensures Invariant(Run(s, cs))
    ensures SameShape(s.workout, Run(s, cs).workout)
    decreases |cs|
  {
    if |cs| > 0 {
      ApplyKeepsInvariant(s, cs[0]);
      RunKeepsInvariant(Apply(s, cs[0]), cs[1..]);
      SameShapeTransitive(s.workout, Apply(s, cs[0]).workout, Run(Apply(s, cs[0]), cs[1..]).workout);
    }
  }

  /** The cursor alone: any sequence of commands keeps it valid, whatever
      the sets hold, and never changes the number of exercises. */
  lemma {:induction false} RunKeepsCursor(s: Session, cs: seq<Command>)
    requires CursorValid(s)
    ensures CursorValid(Run(s, cs))
    ensures |Run(s, cs).workout.exerciseLogs| == |s.workout.exerciseLogs|
    decreases |cs|
  {
    if |cs| > 0 {
      RunKeepsCursor(Apply(s, cs[0]), cs[1..]);
    }
  }

  /** From a freshly started session over any workout, the cursor stays in
      bounds (at 0 for an empty workout) whatever commands are issued. */
  lemma CursorStaysInBounds(w: Workout, cs: seq<Command>)
    ensures var r := Run(StartSession(w), cs);
      if |w.exerciseLogs| == 0 then r.currentExerciseIndex == 0
      else 0 <= r.currentExerciseIndex < |w.exerciseLogs|
  {
    RunKeepsCursor(StartSession(w), cs);
  }

  /** A well-formed workout run through any commands and finalized is
      still well-formed. */
  lemma FinalizedStaysWellFormed(w: Workout, cs: seq<Command>, now: Time)
    requires WellFormed(w)
    ensures WellFormed(Finalize(Run(StartSession(w), cs), now))
  {
    var r := Run(StartSession(w), cs);
    RunKeepsInvariant(StartSession(w), cs);
    var f := Finalize(r, now);
    forall i | 0 <= i < |f.exerciseLogs|
      ensures f.exerciseLogs[i].order == i
      ensures f.exerciseLogs[i].workoutId == f.id
      ensures f.exerciseLogs[i].exerciseId == f.exerciseLogs[i].exercise.id
    {
      assert w.exerciseLogs[i].(sets := []) == r.workout.exerciseLogs[i].(sets := []);
    }
  }
}
