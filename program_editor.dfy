/** The in-memory program document and the admin editor that changes it
    (app/admin/ProgramEditor.tsx). The document is a tree
    Program -> Phase[] -> Workout[] -> Exercise[]; every editor operation is
    addressed by array indices and changes only the addressed element. */
module ProgramEditor {
  import opened Text
  import opened Seqs

  datatype Exercise = Exercise(name: string, sets: int, reps: string, notes: string)

  datatype Workout = Workout(workoutNumber: int, name: string, workoutType: string,
                             notes: string, exercises: seq<Exercise>)

  datatype Phase = Phase(phaseNumber: int, name: string, objective: string,
                         durationWeeks: int, workoutFrequencyPerWeek: int,
                         restBetweenSetsSeconds: int, workouts: seq<Workout>)

  datatype ProgramData = ProgramData(name: string, description: string, totalWeeks: int,
                                     phases: seq<Phase>)

  // ---------------------------------------------------------------------------
  // `{ ...x, [field]: value }` at each depth: a field name (`keyof T`) together
  // with a value of that field's type, a getter, and a setter that obeys the
  // get/set laws.

  datatype ProgramKey = ProgramNameKey | DescriptionKey | TotalWeeksKey | PhasesKey

  datatype ProgramField =
    | ProgramName(name: string)
    | Description(description: string)
    | TotalWeeks(totalWeeks: int)
    | Phases(phases: seq<Phase>)

  function ProgramKeyOf(f: ProgramField): ProgramKey {
    match f
    case ProgramName(_) => ProgramNameKey
    case Description(_) => DescriptionKey
    case TotalWeeks(_) => TotalWeeksKey
    case Phases(_) => PhasesKey
  }

  function ProgramFieldValue(d: ProgramData, k: ProgramKey): (f: ProgramField)
    ensures ProgramKeyOf(f) == k
  {
    match k
    case ProgramNameKey => ProgramName(d.name)
    case DescriptionKey => Description(d.description)
    case TotalWeeksKey => TotalWeeks(d.totalWeeks)
    case PhasesKey => Phases(d.phases)
  }

  /** The named field reads back as the value written; every other field is as before. */
  function SetProgramField(d: ProgramData, f: ProgramField): (r: ProgramData)
    ensures ProgramFieldValue(r, ProgramKeyOf(f)) == f
    ensures forall k :: k != ProgramKeyOf(f) ==> ProgramFieldValue(r, k) == ProgramFieldValue(d, k)
  {
    match f
    case ProgramName(v) => d.(name := v)
    case Description(v) => d.(description := v)
    case TotalWeeks(v) => d.(totalWeeks := v)
    case Phases(v) => d.(phases := v)
  }

  datatype PhaseKey = PhaseNumberKey | PhaseNameKey | ObjectiveKey | DurationWeeksKey
                    | WorkoutFrequencyKey | RestSecondsKey | WorkoutsKey

  datatype PhaseField =
    | PhaseNumber(phaseNumber: int)
    | PhaseName(name: string)
    | Objective(objective: string)
    | DurationWeeks(durationWeeks: int)
    | WorkoutFrequencyPerWeek(frequency: int)
    | RestBetweenSetsSeconds(seconds: int)
    | Workouts(workouts: seq<Workout>)

  function PhaseKeyOf(f: PhaseField): PhaseKey {
    match f
    case PhaseNumber(_) => PhaseNumberKey
    case PhaseName(_) => PhaseNameKey
    case Objective(_) => ObjectiveKey
    case DurationWeeks(_) => DurationWeeksKey
    case WorkoutFrequencyPerWeek(_) => WorkoutFrequencyKey
    case RestBetweenSetsSeconds(_) => RestSecondsKey
    case Workouts(_) => WorkoutsKey
  }

  function PhaseFieldValue(p: Phase, k: PhaseKey): (f: PhaseField)
    ensures PhaseKeyOf(f) == k
  {
    match k
    case PhaseNumberKey => PhaseNumber(p.phaseNumber)
    case PhaseNameKey => PhaseName(p.name)
    case ObjectiveKey => Objective(p.objective)
    case DurationWeeksKey => DurationWeeks(p.durationWeeks)
    case WorkoutFrequencyKey => WorkoutFrequencyPerWeek(p.workoutFrequencyPerWeek)
    case RestSecondsKey => RestBetweenSetsSeconds(p.restBetweenSetsSeconds)
    case WorkoutsKey => Workouts(p.workouts)
  }

  /** The named field reads back as the value written; every other field is as before. */
  function SetPhaseField(p: Phase, f: PhaseField): (r: Phase)
    ensures PhaseFieldValue(r, PhaseKeyOf(f)) == f
    ensures forall k :: k != PhaseKeyOf(f) ==> PhaseFieldValue(r, k) == PhaseFieldValue(p, k)
  {
    match f
    case PhaseNumber(v) => p.(phaseNumber := v)
    case PhaseName(v) => p.(name := v)
    case Objective(v) => p.(objective := v)
    case DurationWeeks(v) => p.(durationWeeks := v)
    case WorkoutFrequencyPerWeek(v) => p.(workoutFrequencyPerWeek := v)
    case RestBetweenSetsSeconds(v) => p.(restBetweenSetsSeconds := v)
    case Workouts(v) => p.(workouts := v)
  }

  datatype WorkoutKey = WorkoutNumberKey | WorkoutNameKey | WorkoutTypeKey | WorkoutNotesKey
                      | ExercisesKey

  datatype WorkoutField =
    | WorkoutNumber(workoutNumber: int)
    | WorkoutName(name: string)
    | WorkoutType(workoutType: string)
    | WorkoutNotes(notes: string)
    | Exercises(exercises: seq<Exercise>)

  function WorkoutKeyOf(f: WorkoutField): WorkoutKey {
    match f
    case WorkoutNumber(_) => WorkoutNumberKey
    case WorkoutName(_) => WorkoutNameKey
    case WorkoutType(_) => WorkoutTypeKey
    case WorkoutNotes(_) => WorkoutNotesKey
    case Exercises(_) => ExercisesKey
  }

  function WorkoutFieldValue(w: Workout, k: WorkoutKey): (f: WorkoutField)
    ensures WorkoutKeyOf(f) == k
  {
    match k
    case WorkoutNumberKey => WorkoutNumber(w.workoutNumber)
    case WorkoutNameKey => WorkoutName(w.name)
    case WorkoutTypeKey => WorkoutType(w.workoutType)
    case WorkoutNotesKey => WorkoutNotes(w.notes)
    case ExercisesKey => Exercises(w.exercises)
  }

  /** The named field reads back as the value written; every other field is as before. */
  function SetWorkoutField(w: Workout, f: WorkoutField): (r: Workout)
    ensures WorkoutFieldValue(r, WorkoutKeyOf(f)) == f
    ensures forall k :: k != WorkoutKeyOf(f) ==> WorkoutFieldValue(r, k) == WorkoutFieldValue(w, k)
  {
    match f
    case WorkoutNumber(v) => w.(workoutNumber := v)
    case WorkoutName(v) => w.(name := v)
    case WorkoutType(v) => w.(workoutType := v)
    case WorkoutNotes(v) => w.(notes := v)
    case Exercises(v) => w.(exercises := v)
  }

  datatype ExerciseKey = ExerciseNameKey | SetsKey | RepsKey | ExerciseNotesKey

  datatype ExerciseField =
    | ExerciseName(name: string)
    | Sets(sets: int)
    | Reps(reps: string)
    | ExerciseNotes(notes: string)

  function ExerciseKeyOf(f: ExerciseField): ExerciseKey {
    match f
    case ExerciseName(_) => ExerciseNameKey
    case Sets(_) => SetsKey
    case Reps(_) => RepsKey
    case ExerciseNotes(_) => ExerciseNotesKey
  }

  function ExerciseFieldValue(e: Exercise, k: ExerciseKey): (f: ExerciseField)
    ensures ExerciseKeyOf(f) == k
  {
    match k
    case ExerciseNameKey => ExerciseName(e.name)
    case SetsKey => Sets(e.sets)
    case RepsKey => Reps(e.reps)
    case ExerciseNotesKey => ExerciseNotes(e.notes)
  }

  /** The named field reads back as the value written; every other field is as before. */
  function SetExerciseField(e: Exercise, f: ExerciseField): (r: Exercise)
    ensures ExerciseFieldValue(r, ExerciseKeyOf(f)) == f
    ensures forall k :: k != ExerciseKeyOf(f) ==> ExerciseFieldValue(r, k) == ExerciseFieldValue(e, k)
  {
    match f
    case ExerciseName(v) => e.(name := v)
    case Sets(v) => e.(sets := v)
    case Reps(v) => e.(reps := v)
    case ExerciseNotes(v) => e.(notes := v)
  }

  // ---------------------------------------------------------------------------
  // Default numbering: `Math.max(...numbers) + 1`, or 1 for an empty list.

  /** `Math.max(...s)` of a non-empty list: an element that no element exceeds. */
  function MaxOf(s: seq<int>): (m: int)
    requires |s| > 0
    ensures forall i :: 0 <= i < |s| ==> s[i] <= m
    ensures exists i :: 0 <= i < |s| && s[i] == m
  {
    if |s| == 1 then s[0]
    else
      var rest := MaxOf(s[1..]);
      if s[0] >= rest then s[0] else rest
  }

  /** The default number of a new phase or workout: one more than the largest
      existing number, or 1 when there is none. */
  function NextNumber(numbers: seq<int>): (n: int)
    ensures numbers == [] ==> n == 1
    ensures numbers != [] ==> n - 1 in numbers
    ensures forall i :: 0 <= i < |numbers| ==> numbers[i] < n
  {
    if |numbers| > 0 then MaxOf(numbers) + 1 else 1
  }

  ghost predicate Distinct(s: seq<int>) {
    forall i, j :: 0 <= i < j < |s| ==> s[i] != s[j]
  }

  /** Appending the default next number keeps a list of distinct numbers distinct. */
  lemma NextNumberKeepsDistinct(numbers: seq<int>)
    requires Distinct(numbers)
    ensures Distinct(numbers + [NextNumber(numbers)])
  {
    var s := numbers + [NextNumber(numbers)];
    forall i, j | 0 <= i < j < |s| ensures s[i] != s[j] {
      if j == |numbers| {
        assert s[i] == numbers[i];
      } else {
        assert s[i] == numbers[i] && s[j] == numbers[j];
      }
    }
  }

  function PhaseNumbers(ps: seq<Phase>): (ns: seq<int>)
    ensures |ns| == |ps| && forall i :: 0 <= i < |ps| ==> ns[i] == ps[i].phaseNumber
  {
    seq(|ps|, i requires 0 <= i < |ps| => ps[i].phaseNumber)
  }

  function WorkoutNumbers(ws: seq<Workout>): (ns: seq<int>)
    ensures |ns| == |ws| && forall i :: 0 <= i < |ws| ==> ns[i] == ws[i].workoutNumber
  {
    seq(|ws|, i requires 0 <= i < |ws| => ws[i].workoutNumber)
  }

  /** The phase `addPhase` appends when the next number is `n`. */
  function NewPhase(n: int): Phase {
    Phase(n, "Phase " + IntToString(n), "", 2, 5, 60, [])
  }

  /** The workout `addWorkout` appends when the next number is `n`. */
  function NewWorkout(n: int): Workout {
    Workout(n, "Workout #" + IntToString(n), "foundational", "", [])
  }

  /** The exercise `addExercise` appends. */
  function DefaultExercise(): Exercise {
    Exercise("", 2, "10", "")
  }

  /** After `addPhase`, distinct phase numbers stay distinct. */
  lemma AddPhaseKeepsNumbersDistinct(ps: seq<Phase>)
    requires Distinct(PhaseNumbers(ps))
    ensures Distinct(PhaseNumbers(ps + [NewPhase(NextNumber(PhaseNumbers(ps)))]))
  {
    var n := NextNumber(PhaseNumbers(ps));
    NextNumberKeepsDistinct(PhaseNumbers(ps));
    assert PhaseNumbers(ps + [NewPhase(n)]) == PhaseNumbers(ps) + [n];
  }

  /** After `addWorkout`, distinct workout numbers within the phase stay distinct. */
  lemma AddWorkoutKeepsNumbersDistinct(ws: seq<Workout>)
    requires Distinct(WorkoutNumbers(ws))
    ensures Distinct(WorkoutNumbers(ws + [NewWorkout(NextNumber(WorkoutNumbers(ws)))]))
  {
    var n := NextNumber(WorkoutNumbers(ws));
    NextNumberKeepsDistinct(WorkoutNumbers(ws));
    assert WorkoutNumbers(ws + [NewWorkout(n)]) == WorkoutNumbers(ws) + [n];
  }

  /** Distinct phase numbers give distinct default names `Phase N`. */
  lemma NewPhaseNamesDistinct(m: int, n: int)
    requires m != n
    ensures NewPhase(m).name != NewPhase(n).name
  {
    if NewPhase(m).name == NewPhase(n).name {
      var pre := "Phase ";
      assert NewPhase(m).name[|pre|..] == IntToString(m);
      assert NewPhase(n).name[|pre|..] == IntToString(n);
      IntToStringInjective(m, n);
    }
  }

  // ---------------------------------------------------------------------------

  /** Phase `p` is unchanged except, perhaps, its workout list. */
  ghost predicate SamePhaseHeader(a: Phase, b: Phase) {
    a.(workouts := []) == b.(workouts := [])
  }

  /** Workout `w` is unchanged except, perhaps, its exercise list. */
  ghost predicate SameWorkoutHeader(a: Workout, b: Workout) {
    a.(exercises := []) == b.(exercises := [])
  }

  /** The editor's `data` state: the document being edited, held field by field. */
  class Editor {
    var name: string
    var description: string
    var totalWeeks: int
    var phases: seq<Phase>

    /** The current document, as handed to `onSave`. */
    function Data(): ProgramData
      reads this
    {
      ProgramData(name, description, totalWeeks, phases)
    }

    constructor (initialData: ProgramData)
      ensures Data() == initialData
    {
      name := initialData.name;
      description := initialData.description;
      totalWeeks := initialData.totalWeeks;
      phases := initialData.phases;
    }

    /** `updateProgram(field, value)`. */
    method UpdateProgram(f: ProgramField)
      modifies this
      ensures Data() == SetProgramField(old(Data()), f)
      ensures !f.Phases? ==> phases == old(phases)
    {
      match f
      case ProgramName(v) => name := v;
      case Description(v) => description := v;
      case TotalWeeks(v) => totalWeeks := v;
      case Phases(v) => phases := v;
    }

    /** `updatePhase(phaseIdx, field, value)`. */
    method UpdatePhase(p: nat, f: PhaseField)
      requires p < |phases|
      modifies this
      ensures name == old(name) && description == old(description) && totalWeeks == old(totalWeeks)
      ensures EqualExcept(phases, old(phases), p)
      ensures phases[p] == SetPhaseField(old(phases[p]), f)
    {
      phases := phases[p := SetPhaseField(phases[p], f)];
    }

    /** `updateWorkout(phaseIdx, workoutIdx, field, value)`. */
    method UpdateWorkout(p: nat, w: nat, f: WorkoutField)
      requires p < |phases| && w < |phases[p].workouts|
      modifies this
      ensures name == old(name) && description == old(description) && totalWeeks == old(totalWeeks)
      ensures EqualExcept(phases, old(phases), p)
      ensures SamePhaseHeader(phases[p], old(phases[p]))
      ensures EqualExcept(phases[p].workouts, old(phases[p].workouts), w)
      ensures phases[p].workouts[w] == SetWorkoutField(old(phases[p].workouts[w]), f)
    {
      var ws := phases[p].workouts;
      ws := ws[w := SetWorkoutField(ws[w], f)];
      phases := phases[p := phases[p].(workouts := ws)];
    }

    /** `updateExercise(phaseIdx, workoutIdx, exerciseIdx, field, value)`. */
    method UpdateExercise(p: nat, w: nat, e: nat, f: ExerciseField)
      requires p < |phases| && w < |phases[p].workouts| && e < |phases[p].workouts[w].exercises|
      modifies this
      ensures name == old(name) && description == old(description) && totalWeeks == old(totalWeeks)
      ensures EqualExcept(phases, old(phases), p)
      ensures SamePhaseHeader(phases[p], old(phases[p]))
      ensures EqualExcept(phases[p].workouts, old(phases[p].workouts), w)
      ensures SameWorkoutHeader(phases[p].workouts[w], old(phases[p].workouts[w]))
      ensures EqualExcept(phases[p].workouts[w].exercises, old(phases[p].workouts[w].exercises), e)
      ensures phases[p].workouts[w].exercises[e]
           == SetExerciseField(old(phases[p].workouts[w].exercises[e]), f)
    {
      var ws := phases[p].workouts;
      var es := ws[w].exercises;
      es := es[e := SetExerciseField(es[e], f)];
      ws := ws[w := ws[w].(exercises := es)];
      phases := phases[p := phases[p].(workouts := ws)];
    }

    /** `deleteExercise(phaseIdx, workoutIdx, exerciseIdx)`: `splice(exerciseIdx, 1)`. */
    method DeleteExercise(p: nat, w: nat, e: nat)
      requires p < |phases| && w < |phases[p].workouts|
      modifies this
      ensures name == old(name) && description == old(description) && totalWeeks == old(totalWeeks)
      ensures EqualExcept(phases, old(phases), p)
      ensures SamePhaseHeader(phases[p], old(phases[p]))
      ensures EqualExcept(phases[p].workouts, old(phases[p].workouts), w)
      ensures SameWorkoutHeader(phases[p].workouts[w], old(phases[p].workouts[w]))
      ensures phases[p].workouts[w].exercises == Without(old(phases[p].workouts[w].exercises), e)
    {
      var ws := phases[p].workouts;
      ws := ws[w := ws[w].(exercises := Without(ws[w].exercises, e))];
      phases := phases[p := phases[p].(workouts := ws)];
    }

    /** `addExercise(phaseIdx, workoutIdx)`: pushes the default exercise. */
    method AddExercise(p: nat, w: nat)
      requires p < |phases| && w < |phases[p].workouts|
      modifies this
      ensures name == old(name) && description == old(description) && totalWeeks == old(totalWeeks)
      ensures EqualExcept(phases, old(phases), p)
      ensures SamePhaseHeader(phases[p], old(phases[p]))
      ensures EqualExcept(phases[p].workouts, old(phases[p].workouts), w)
      ensures SameWorkoutHeader(phases[p].workouts[w], old(phases[p].workouts[w]))
      ensures phases[p].workouts[w].exercises == old(phases[p].workouts[w].exercises) + [DefaultExercise()]
    {
      var ws := phases[p].workouts;
      ws := ws[w := ws[w].(exercises := ws[w].exercises + [DefaultExercise()])];
      phases := phases[p := phases[p].(workouts := ws)];
    }

    /** `addWorkout(phaseIdx)`: pushes a workout numbered one past the phase's largest. */
    method AddWorkout(p: nat)
      requires p < |phases|
      modifies this
      ensures name == old(name) && description == old(description) && totalWeeks == old(totalWeeks)
      ensures EqualExcept(phases, old(phases), p)
      ensures SamePhaseHeader(phases[p], old(phases[p]))
      ensures phases[p].workouts
           == old(phases[p].workouts) + [NewWorkout(NextNumber(WorkoutNumbers(old(phases[p].workouts))))]
    {
      var current := phases[p].workouts;
      var next := NextNumber(WorkoutNumbers(current));
      phases := phases[p := phases[p].(workouts := current + [NewWorkout(next)])];
    }

    /** `deleteWorkout(phaseIdx, workoutIdx)` with the answer to the confirmation prompt. */
    method DeleteWorkout(p: nat, w: nat, confirmed: bool)
      requires confirmed ==> p < |phases|
      modifies this
      ensures !confirmed ==> Data() == old(Data())
      ensures name == old(name) && description == old(description) && totalWeeks == old(totalWeeks)
      ensures EqualExcept(phases, old(phases), p)
      ensures confirmed ==> SamePhaseHeader(phases[p], old(phases[p]))
      ensures confirmed ==> phases[p].workouts == Without(old(phases[p].workouts), w)
    {
      if !confirmed {
        return;
      }
      phases := phases[p := phases[p].(workouts := Without(phases[p].workouts, w))];
    }

    /** `addPhase()`: appends a phase numbered one past the largest, with the defaults. */
    method AddPhase()
      modifies this
      ensures name == old(name) && description == old(description) && totalWeeks == old(totalWeeks)
      ensures phases == old(phases) + [NewPhase(NextNumber(PhaseNumbers(old(phases))))]
    {
      var next := NextNumber(PhaseNumbers(phases));
      phases := phases + [NewPhase(next)];
    }

    /** `deletePhase(phaseIdx)` with the answer to the confirmation prompt. */
    method DeletePhase(p: nat, confirmed: bool)
      modifies this
      ensures !confirmed ==> Data() == old(Data())
      ensures name == old(name) && description == old(description) && totalWeeks == old(totalWeeks)
      ensures confirmed ==> phases == Without(old(phases), p)
    {
      if !confirmed {
        return;
      }
      phases := Without(phases, p);
    }
  }
}
