/** A named plan of exercises (`Models/WorkoutPlan.swift`). Its equality
    and hashing look at the identity only. */
module WorkoutPlans {
  import opened Common
  import opened Exercises
  import opened PlannedExercises

  datatype WorkoutPlan = WorkoutPlan(
    id: Uuid,
    name: string,
    description: string,
    duration: string,
    difficulty: Difficulty,
    exercises: seq<PlannedExercise>)

  /** The plan's `==`. */
  predicate SamePlan(a: WorkoutPlan, b: WorkoutPlan) {
    a.id == b.id
  }

  /** `hash(into:)`: the hasher is fed the identity and nothing else. The
      hasher itself is a parameter. */
  function PlanHash(p: WorkoutPlan, hasher: Uuid -> int): int {
    hasher(p.id)
  }

  /** Plans that share an identity are equal, whatever their content. */
  lemma SameIdSamePlan(a: WorkoutPlan, b: WorkoutPlan)
    requires a.id == b.id
    ensures SamePlan(a, b)
  {
  }

  /** Plans with identical content but different identities are unequal. */
  lemma ContentDoesNotMakeEqual(a: WorkoutPlan, id: Uuid)
    requires id != a.id
    ensures !SamePlan(a, a.(id := id))
  {
  }

  /** Plan equality is an equivalence relation. */
  lemma SamePlanIsEquivalence(a: WorkoutPlan, b: WorkoutPlan, c: WorkoutPlan)
    ensures SamePlan(a, a)
    ensures SamePlan(a, b) ==> SamePlan(b, a)
    ensures SamePlan(a, b) && SamePlan(b, c) ==> SamePlan(a, c)
  {
  }

  /** Equal plans hash equally, for every hasher. */
  lemma HashRespectsEquality(a: WorkoutPlan, b: WorkoutPlan, hasher: Uuid -> int)
    requires SamePlan(a, b)
    ensures PlanHash(a, hasher) == PlanHash(b, hasher)
  {
  }
}
