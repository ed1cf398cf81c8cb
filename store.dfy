/** The relational store the application writes to, reduced to what the
    import and the workout log need: the row shapes of the tables they insert
    into, and an insert log whose positions serve as the generated ids. */
module Store {
  import opened Wrappers

  /** One entry of the `sets` JSON column of a `workout_exercises` row. */
  datatype SetEntry = SetEntry(reps: int, weight: int, completed: bool)

  /** A row of one of the six tables written by the core. Ids are log positions. */
  datatype Row =
    // workout_programs
    | ProgramRow(name: string, description: string, totalWeeks: int)
    // program_phases
    | PhaseRow(programId: int, phaseNumber: int, name: string, objective: string,
               durationWeeks: int, workoutFrequencyPerWeek: int,
               restBetweenSetsSeconds: int)
    // program_workouts
    | ProgramWorkoutRow(phaseId: int, workoutNumber: int, name: string,
                        workoutType: string, notes: string)
    // program_workout_exercises
    | ProgramExerciseRow(programWorkoutId: int, exerciseName: string, orderIndex: int,
                         sets: int, reps: string, notes: string)
    // workouts
    | WorkoutRow(userId: string, name: string, workoutDate: string,
                 durationMinutes: Option<int>, notesOrNull: Option<string>)
    // workout_exercises
    | WorkoutExerciseRow(workoutId: int, exerciseId: string, orderIndex: int,
                         loggedSets: seq<SetEntry>, notesOrNull: Option<string>)

  /** The table a row belongs to. */
  datatype Table =
    | WorkoutPrograms | ProgramPhases | ProgramWorkouts | ProgramWorkoutExercises | Workouts | WorkoutExercises

  function TableOf(r: Row): Table {
    match r
    case ProgramRow(_, _, _) => WorkoutPrograms
    case PhaseRow(_, _, _, _, _, _, _) => ProgramPhases
    case ProgramWorkoutRow(_, _, _, _, _) => ProgramWorkouts
    case ProgramExerciseRow(_, _, _, _, _, _) => ProgramWorkoutExercises
    case WorkoutRow(_, _, _, _, _) => Workouts
    case WorkoutExerciseRow(_, _, _, _, _) => WorkoutExercises
  }

  /** An abstract row store. Every row ever inserted is in `log`, and the id the
      store generates for a row is its position there, so ids are fresh and
      distinct. Insert calls are numbered by `calls`; the store rejects call `c`
      with message `rejects[c]` when `c in rejects` (a constraint violation, a
      network failure, a permission denial) and a rejected call inserts nothing. */
  class RowStore {
    var log: seq<Row>
    var calls: nat
    const rejects: map<nat, string>

    constructor (rejects: map<nat, string>)
      ensures log == [] && calls == 0 && this.rejects == rejects
    {
      log := [];
      calls := 0;
      this.rejects := rejects;
    }

    /** Every call numbered from `lo` up to, but not including, `hi` is accepted. */
    ghost predicate AcceptedBetween(lo: nat, hi: nat) {
      forall c :: lo <= c < hi ==> c !in rejects
    }

    /** Every call numbered from `c0` up to the last one made was accepted. */
    ghost predicate AcceptedSince(c0: nat)
      reads this
    {
      AcceptedBetween(c0, calls)
    }

    /** The calls from `lo` on were accepted up to call `hi - 1`, which was
        rejected with message `msg`. */
    ghost predicate StoppedBetween(lo: nat, hi: nat, msg: string) {
      lo < hi && hi - 1 in rejects && msg == rejects[hi - 1] && AcceptedBetween(lo, hi - 1)
    }

    /** The calls from `c0` on were accepted up to the last one made, which was
        rejected with message `msg`. */
    ghost predicate StoppedAt(c0: nat, msg: string)
      reads this
    {
      StoppedBetween(c0, calls, msg)
    }

    lemma AcceptedNext(lo: nat, hi: nat)
      requires lo <= hi && AcceptedBetween(lo, hi) && hi !in rejects
      ensures AcceptedBetween(lo, hi + 1)
    {
    }

    lemma StoppedNext(lo: nat, hi: nat)
      requires lo <= hi && AcceptedBetween(lo, hi) && hi in rejects
      ensures StoppedBetween(lo, hi + 1, rejects[hi])
    {
    }

    lemma AcceptedJoin(lo: nat, mid: nat, hi: nat)
      requires lo <= mid <= hi && AcceptedBetween(lo, mid) && AcceptedBetween(mid, hi)
      ensures AcceptedBetween(lo, hi)
    {
    }

    lemma StoppedJoin(lo: nat, mid: nat, hi: nat, msg: string)
      requires lo <= mid && AcceptedBetween(lo, mid) && StoppedBetween(mid, hi, msg)
      ensures StoppedBetween(lo, hi, msg)
    {
    }

    /** `insert(row).select().single()`: the new row's id, or the store's error. */
    method Insert(row: Row) returns (r: Result<int, string>)
      modifies this
      ensures calls == old(calls) + 1
      ensures old(calls) in rejects ==> r == Failure(rejects[old(calls)]) && log == old(log)
      ensures old(calls) !in rejects ==> r == Success(|old(log)|) && log == old(log) + [row]
    {
      if calls in rejects {
        r := Failure(rejects[calls]);
      } else {
        r := Success(|log|);
        log := log + [row];
      }
      calls := calls + 1;
    }

    /** `insert(rows)` of an array: one call that inserts every row or none. */
    method InsertAll(rows: seq<Row>) returns (err: Option<string>)
      modifies this
      ensures calls == old(calls) + 1
      ensures old(calls) in rejects ==> err == Some(rejects[old(calls)]) && log == old(log)
      ensures old(calls) !in rejects ==> err == None && log == old(log) + rows
    {
      if calls in rejects {
        err := Some(rejects[calls]);
      } else {
        err := None;
        log := log + rows;
      }
      calls := calls + 1;
    }
  }
}
