/** The exercise catalog entry and its three raw-valued enumerations
    (`Models/Exercise.swift`). */
module Exercises {
  import opened Common

  datatype MuscleGroup = Chest | Back | Legs | Shoulders | Arms | Core | FullBody
  {
    /** The `String` raw value the enum is declared with; it is also the
        persisted form and the chip title. */
    function RawValue(): string {
      match this
      case Chest => "chest"
      case Back => "back"
      case Legs => "legs"
      case Shoulders => "shoulders"
      case Arms => "arms"
      case Core => "core"
      case FullBody => "fullBody"
    }
  }

  datatype Equipment =
    | NoEquipment | Dumbbells | Barbell | Kettlebell | ResistanceBands
    | Machine | Bodyweight | Cable | Other
  {
    function RawValue(): string {
      match this
      case NoEquipment => "none"
      case Dumbbells => "dumbbells"
      case Barbell => "barbell"
      case Kettlebell => "kettlebell"
      case ResistanceBands => "resistanceBands"
      case Machine => "machine"
      case Bodyweight => "bodyweight"
      case Cable => "cable"
      case Other => "other"
    }
  }

  datatype Difficulty = Beginner | Intermediate | Advanced
  {
    function RawValue(): string {
      match this
      case Beginner => "beginner"
      case Intermediate => "intermediate"
      case Advanced => "advanced"
    }
  }

  /** `imageURL` is kept as its textual form. */
  datatype Exercise = Exercise(
    id: Uuid,
    name: string,
    muscleGroup: MuscleGroup,
    equipment: Equipment,
    difficulty: Difficulty,
    description: string,
    imageURL: Option<string>,
    variations: Option<seq<string>>)

  /** `Exercise.init` with the optional arguments left at their defaults. */
  function MakeExercise(id: Uuid, name: string, muscleGroup: MuscleGroup, equipment: Equipment,
                        difficulty: Difficulty, description: string): (e: Exercise)
    ensures e.imageURL == None && e.variations == None
    ensures e.id == id && e.name == name && e.description == description
    ensures e.muscleGroup == muscleGroup && e.equipment == equipment && e.difficulty == difficulty
  {
    Exercise(id, name, muscleGroup, equipment, difficulty, description, None, None)
  }

  ghost predicate Distinct<T>(s: seq<T>) {
    forall i, j :: 0 <= i < j < |s| ==> s[i] != s[j]
  }

  /** `MuscleGroup.allCases`, in declaration order. */
  function AllMuscleGroups(): (r: seq<MuscleGroup>)
    ensures |r| == 7 && Distinct(r)
  {
    [Chest, Back, Legs, Shoulders, Arms, Core, FullBody]
  }

  /** `Equipment.allCases`, in declaration order. */
  function AllEquipment(): (r: seq<Equipment>)
    ensures |r| == 9 && Distinct(r)
  {
    [NoEquipment, Dumbbells, Barbell, Kettlebell, ResistanceBands, Machine, Bodyweight, Cable, Other]
  }

  /** `Difficulty.allCases`, in declaration order. */
  function AllDifficulties(): (r: seq<Difficulty>)
    ensures |r| == 3 && Distinct(r)
  {
    [Beginner, Intermediate, Advanced]
  }

  /** Every muscle group is listed by `allCases`. */
  lemma AllMuscleGroupsComplete(m: MuscleGroup)
    ensures m in AllMuscleGroups()
  {
  }

  /** Every kind of equipment is listed by `allCases`. */
  lemma AllEquipmentComplete(e: Equipment)
    ensures e in AllEquipment()
  {
  }

  /** Every difficulty is listed by `allCases`. */
  lemma AllDifficultiesComplete(d: Difficulty)
    ensures d in AllDifficulties()
  {
  }

  /** `MuscleGroup(rawValue:)`: the inverse of `RawValue`. */
  function MuscleGroupFromRaw(s: string): (r: Option<MuscleGroup>)
    ensures r.Some? ==> r.value.RawValue() == s
    ensures forall m: MuscleGroup :: m.RawValue() == s ==> r == Some(m)
  {
    if s == "chest" then Some(Chest)
    else if s == "back" then Some(Back)
    else if s == "legs" then Some(Legs)
    else if s == "shoulders" then Some(Shoulders)
    else if s == "arms" then Some(Arms)
    else if s == "core" then Some(Core)
    else if s == "fullBody" then Some(FullBody)
    else None
  }

  /** `Equipment(rawValue:)`: the inverse of `RawValue`. */
  function EquipmentFromRaw(s: string): (r: Option<Equipment>)
    ensures r.Some? ==> r.value.RawValue() == s
    ensures forall e: Equipment :: e.RawValue() == s ==> r == Some(e)
  {
    if s == "none" then Some(NoEquipment)
    else if s == "dumbbells" then Some(Dumbbells)
    else if s == "barbell" then Some(Barbell)
    else if s == "kettlebell" then Some(Kettlebell)
    else if s == "resistanceBands" then Some(ResistanceBands)
    else if s == "machine" then Some(Machine)
    else if s == "bodyweight" then Some(Bodyweight)
    else if s == "cable" then Some(Cable)
    else if s == "other" then Some(Other)
    else None
  }

  /** `Difficulty(rawValue:)`: the inverse of `RawValue`. */
  function DifficultyFromRaw(s: string): (r: Option<Difficulty>)
    ensures r.Some? ==> r.value.RawValue() == s
    ensures forall d: Difficulty :: d.RawValue() == s ==> r == Some(d)
  {
    if s == "beginner" then Some(Beginner)
    else if s == "intermediate" then Some(Intermediate)
    else if s == "advanced" then Some(Advanced)
    else None
  }
}
