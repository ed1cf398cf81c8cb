/** The admin import (app/admin/page.tsx, `handleImport`): a parsed program
    document is written to the store depth-first, one program row, then per
    phase one phase row followed by its workouts, each workout row followed by
    one batch of its exercise rows; each insert's returned id is the parent id
    of the rows below it. The first rejected insert ends the run; the log then
    keeps exactly the rows of the calls accepted before it, so nothing already
    inserted is undone. */
module AdminImport {
  import opened Wrappers
  import opened Text
  import opened Store
  import opened ProgramEditor
  import opened BlockLists

  // ---------------------------------------------------------------------------
  // The rows the import writes, in order, when the first row gets id `id0`.

  function ProgramRowOf(d: ProgramData): Row {
    ProgramRow(d.name, d.description, d.totalWeeks)
  }

  function PhaseRowOf(p: Phase, programId: int): Row {
    PhaseRow(programId, p.phaseNumber, p.name, p.objective, p.durationWeeks,
             p.workoutFrequencyPerWeek, p.restBetweenSetsSeconds)
  }

  function ProgramWorkoutRowOf(w: Workout, phaseId: int): Row {
    ProgramWorkoutRow(phaseId, w.workoutNumber, w.name, w.workoutType, w.notes)
  }

  /** `workoutData.exercises.map((ex, idx) => …)`: one row per exercise, in order
      (see `ExerciseRowsAt`). */
  function ExerciseRows(exs: seq<Exercise>, workoutId: int): (rows: seq<Row>)
    ensures |rows| == |exs|
  {
    if exs == [] then []
    else
      var k := |exs| - 1;
      ExerciseRows(exs[..k], workoutId)
        + [ProgramExerciseRow(workoutId, exs[k].name, k, exs[k].sets, exs[k].reps, exs[k].notes)]
  }

  /** The row of exercise `i` has `order_index` `i`, its name as `exercise_name`
      and its sets, reps and notes unchanged. */
  lemma {:induction false} ExerciseRowsAt(exs: seq<Exercise>, workoutId: int, i: nat)
    requires i < |exs|
    ensures ExerciseRows(exs, workoutId)[i]
         == ProgramExerciseRow(workoutId, exs[i].name, i, exs[i].sets, exs[i].reps, exs[i].notes)
    decreases |exs|
  {
    var k := |exs| - 1;
    if i < k {
      ExerciseRowsAt(exs[..k], workoutId, i);
    }
  }

  /** A workout's block: its row (whose id is `id`), then its exercise batch. */
  function WorkoutBlock(phaseId: int): (Workout, int) -> seq<Row> {
    (w: Workout, id: int) => [ProgramWorkoutRowOf(w, phaseId)] + ExerciseRows(w.exercises, id)
  }

  /** The rows for the workouts `ws` of the phase with id `phaseId`. */
  function FlattenWorkouts(ws: seq<Workout>, phaseId: int, next: int): seq<Row> {
    Blocks(ws, WorkoutBlock(phaseId), next)
  }

  /** A phase's block: its row (whose id is `id`), then its workouts' blocks. */
  function PhaseBlock(programId: int): (Phase, int) -> seq<Row> {
    (p: Phase, id: int) => [PhaseRowOf(p, programId)] + FlattenWorkouts(p.workouts, id, id + 1)
  }

  /** The rows for the phases `ps` of the program with id `programId`. */
  function FlattenPhases(ps: seq<Phase>, programId: int, next: int): seq<Row> {
    Blocks(ps, PhaseBlock(programId), next)
  }

  /** Everything a successful import of `d` adds to the store, when the store
      gives the program row the id `id0`. */
  function Flatten(d: ProgramData, id0: int): seq<Row> {
    [ProgramRowOf(d)] + FlattenPhases(d.phases, id0, id0 + 1)
  }

  /** A workout's store calls: its row (whose id is `id`), then its exercise
      batch in one call, even when that batch is empty. */
  function WorkoutCalls(phaseId: int): (Workout, int) -> seq<seq<Row>> {
    (w: Workout, id: int) => [[ProgramWorkoutRowOf(w, phaseId)], ExerciseRows(w.exercises, id)]
  }

  /** An unfolding step: the lambda of `WorkoutCalls` applied to `w` and `id`. */
  lemma WorkoutCallsIs(phaseId: int, w: Workout, id: int)
    ensures WorkoutCalls(phaseId)(w, id) == [[ProgramWorkoutRowOf(w, phaseId)]] + [ExerciseRows(w.exercises, id)]
  {
  }

  /** The store calls for the workouts `ws` of the phase with id `phaseId`. */
  function WorkoutsBatches(ws: seq<Workout>, phaseId: int, next: int): seq<seq<Row>> {
    Batches(ws, WorkoutCalls(phaseId), next)
  }

  /** A phase's store calls: its row (whose id is `id`), then its workouts' calls. */
  function PhaseCalls(programId: int): (Phase, int) -> seq<seq<Row>> {
    (p: Phase, id: int) => [[PhaseRowOf(p, programId)]] + WorkoutsBatches(p.workouts, id, id + 1)
  }

  /** An unfolding step: the lambda of `PhaseCalls` applied to `p` and `id`, with
      `next` naming the id of the phase's first workout row. */
  lemma PhaseCallsIs(programId: int, p: Phase, id: int, next: int)
    requires next == id + 1
    ensures PhaseCalls(programId)(p, id) == [[PhaseRowOf(p, programId)]] + WorkoutsBatches(p.workouts, id, next)
  {
  }

  /** The store calls for the phases `ps` of the program with id `programId`. */
  function PhasesBatches(ps: seq<Phase>, programId: int, next: int): seq<seq<Row>> {
    Batches(ps, PhaseCalls(programId), next)
  }

  /** Every store call a successful import of `d` makes, in order, each with the
      rows it inserts, when the program row gets the id `id0`. */
  function ImportBatches(d: ProgramData, id0: int): seq<seq<Row>> {
    [[ProgramRowOf(d)]] + PhasesBatches(d.phases, id0, id0 + 1)
  }

  /** An unfolding step: `ImportBatches` with `next` naming the id of the first
      phase row. */
  lemma ImportBatchesIs(d: ProgramData, id0: int, next: int)
    requires next == id0 + 1
    ensures ImportBatches(d, id0) == [[ProgramRowOf(d)]] + PhasesBatches(d.phases, id0, next)
  {
  }

  /** The calls for a phase's workouts insert exactly the rows of those workouts. */
  lemma WorkoutsBatchesConcat(ws: seq<Workout>, phaseId: int, next: int)
    ensures Concat(WorkoutsBatches(ws, phaseId, next)) == FlattenWorkouts(ws, phaseId, next)
  {
    forall i, id | 0 <= i < |ws|
      ensures Concat(WorkoutCalls(phaseId)(ws[i], id)) == WorkoutBlock(phaseId)(ws[i], id)
    {
      ConcatCons([ProgramWorkoutRowOf(ws[i], phaseId)], [ExerciseRows(ws[i].exercises, id)]);
      ConcatCons(ExerciseRows(ws[i].exercises, id), []);
    }
    BatchesConcat(ws, WorkoutBlock(phaseId), WorkoutCalls(phaseId), next);
  }

  /** The calls for the phases insert exactly the rows of those phases. */
  lemma PhasesBatchesConcat(ps: seq<Phase>, programId: int, next: int)
    ensures Concat(PhasesBatches(ps, programId, next)) == FlattenPhases(ps, programId, next)
  {
    forall i, id | 0 <= i < |ps|
      ensures Concat(PhaseCalls(programId)(ps[i], id)) == PhaseBlock(programId)(ps[i], id)
    {
      WorkoutsBatchesConcat(ps[i].workouts, id, id + 1);
      ConcatCons([PhaseRowOf(ps[i], programId)], WorkoutsBatches(ps[i].workouts, id, id + 1));
    }
    BatchesConcat(ps, PhaseBlock(programId), PhaseCalls(programId), next);
  }

  /** The calls of a complete import insert exactly `Flatten(d, id0)`. */
  lemma ImportBatchesConcat(d: ProgramData, id0: int)
    ensures Concat(ImportBatches(d, id0)) == Flatten(d, id0)
  {
    PhasesBatchesConcat(d.phases, id0, id0 + 1);
    ConcatCons([ProgramRowOf(d)], PhasesBatches(d.phases, id0, id0 + 1));
  }

  /** The rows of the first `k` calls of an import are a prefix of `Flatten(d, id0)`:
      an import that stops early has written the start of the complete import. */
  lemma ImportBatchesPrefix(d: ProgramData, id0: int, k: nat)
    requires k <= |ImportBatches(d, id0)|
    ensures Concat(ImportBatches(d, id0)[..k]) <= Flatten(d, id0)
  {
    ConcatPrefix(ImportBatches(d, id0), k);
    ImportBatchesConcat(d, id0);
  }

  /** Rows written for a list of workouts: per workout, its row and its exercises. */
  function WorkoutsSize(ws: seq<Workout>): nat {
    if ws == [] then 0 else 1 + |ws[0].exercises| + WorkoutsSize(ws[1..])
  }

  /** Rows written for a list of phases: per phase, its row and its workouts' rows. */
  function PhasesSize(ps: seq<Phase>): nat {
    if ps == [] then 0 else 1 + WorkoutsSize(ps[0].workouts) + PhasesSize(ps[1..])
  }

  lemma {:induction false} FlattenWorkoutsLength(ws: seq<Workout>, phaseId: int, next: int)
    ensures |FlattenWorkouts(ws, phaseId, next)| == WorkoutsSize(ws)
    decreases |ws|
  {
    if ws != [] {
      FlattenWorkoutsLength(ws[1..], phaseId, next + 1 + |ws[0].exercises|);
    }
  }

  lemma {:induction false} FlattenPhasesLength(ps: seq<Phase>, programId: int, next: int)
    ensures |FlattenPhases(ps, programId, next)| == PhasesSize(ps)
    decreases |ps|
  {
    if ps != [] {
      FlattenWorkoutsLength(ps[0].workouts, next, next + 1);
      FlattenPhasesLength(ps[1..], programId, next + 1 + WorkoutsSize(ps[0].workouts));
    }
  }

  // ---------------------------------------------------------------------------
  // What the flattened rows say about the document.

  /** Within the rows of a list of workouts, the row of workout `j` comes after
      the rows of the workouts before it, is followed at once by its exercise
      batch, and the next workout's row (or the end) follows that batch. */
  lemma WorkoutsPlacement(ws: seq<Workout>, phaseId: int, next: int, j: nat, workoutId: int)
    requires j < |ws| && workoutId == next + WorkoutsSize(ws[..j])
    ensures var rows := FlattenWorkouts(ws, phaseId, next); var at := WorkoutsSize(ws[..j]);
      && at + 1 + |ws[j].exercises| <= |rows| == WorkoutsSize(ws)
      && rows[at] == ProgramWorkoutRowOf(ws[j], phaseId)
      && rows[at + 1..at + 1 + |ws[j].exercises|] == ExerciseRows(ws[j].exercises, workoutId)
      && WorkoutsSize(ws[..j + 1]) == at + 1 + |ws[j].exercises|
  {
    var at := WorkoutsSize(ws[..j]);
    var exs := ExerciseRows(ws[j].exercises, workoutId);
    assert WorkoutBlock(phaseId)(ws[j], next + at) == [ProgramWorkoutRowOf(ws[j], phaseId)] + exs;
    FlattenWorkoutsLength(ws, phaseId, next);
    FlattenWorkoutsLength(ws[..j], phaseId, next);
    FlattenWorkoutsLength(ws[..j + 1], phaseId, next);
    BlockParts(ws, j, WorkoutBlock(phaseId), next, at, ProgramWorkoutRowOf(ws[j], phaseId), exs, |ws[j].exercises|);
  }

  /** Within the rows of a list of phases, likewise for the row of phase `i` and
      the rows of its workouts. */
  lemma PhasesPlacement(ps: seq<Phase>, programId: int, next: int, i: nat, phaseId: int)
    requires i < |ps| && phaseId == next + PhasesSize(ps[..i])
    ensures var rows := FlattenPhases(ps, programId, next); var at := PhasesSize(ps[..i]);
      var size := WorkoutsSize(ps[i].workouts);
      && at + 1 + size <= |rows| == PhasesSize(ps)
      && rows[at] == PhaseRowOf(ps[i], programId)
      && rows[at + 1..at + 1 + size] == FlattenWorkouts(ps[i].workouts, phaseId, phaseId + 1)
      && PhasesSize(ps[..i + 1]) == at + 1 + size
  {
    var at := PhasesSize(ps[..i]);
    var ws := FlattenWorkouts(ps[i].workouts, phaseId, phaseId + 1);
    assert PhaseBlock(programId)(ps[i], next + at) == [PhaseRowOf(ps[i], programId)] + ws;
    FlattenWorkoutsLength(ps[i].workouts, phaseId, phaseId + 1);
    FlattenPhasesLength(ps, programId, next);
    FlattenPhasesLength(ps[..i], programId, next);
    FlattenPhasesLength(ps[..i + 1], programId, next);
    BlockParts(ps, i, PhaseBlock(programId), next, at, PhaseRowOf(ps[i], programId), ws,
               WorkoutsSize(ps[i].workouts));
  }

  // ---------------------------------------------------------------------------
  // How many rows of each table the import writes.

  function ExerciseTotal(ws: seq<Workout>): nat {
    if ws == [] then 0 else |ws[0].exercises| + ExerciseTotal(ws[1..])
  }

  function WorkoutTotal(ps: seq<Phase>): nat {
    if ps == [] then 0 else |ps[0].workouts| + WorkoutTotal(ps[1..])
  }

  function PhaseExerciseTotal(ps: seq<Phase>): nat {
    if ps == [] then 0 else ExerciseTotal(ps[0].workouts) + PhaseExerciseTotal(ps[1..])
  }

  /** Rows of table `k` in a workout's block. */
  function WorkoutWeight(k: Table): Workout -> int {
    (w: Workout) => (if k == ProgramWorkouts then 1 else 0) + (if k == ProgramWorkoutExercises then |w.exercises| else 0)
  }

  /** Rows of table `k` in a phase's block. */
  function PhaseWeight(k: Table): Phase -> int {
    (p: Phase) => (if k == ProgramPhases then 1 else 0) + (if k == ProgramWorkouts then |p.workouts| else 0)
                  + (if k == ProgramWorkoutExercises then ExerciseTotal(p.workouts) else 0)
  }

  lemma {:induction false} ExerciseRowsCount(exs: seq<Exercise>, workoutId: int, k: Table)
    ensures CountOf(ExerciseRows(exs, workoutId), TableOf, k) == if k == ProgramWorkoutExercises then |exs| else 0
    decreases |exs|
  {
    if exs != [] {
      var last := |exs| - 1;
      var front := ExerciseRows(exs[..last], workoutId);
      var row := ProgramExerciseRow(workoutId, exs[last].name, last, exs[last].sets, exs[last].reps, exs[last].notes);
      ExerciseRowsCount(exs[..last], workoutId, k);
      CountAppend(front, [row], TableOf, k);
      CountSingle(row, TableOf, k);
    }
  }

  lemma {:induction false} WorkoutWeightSum(ws: seq<Workout>, k: Table)
    ensures SumOf(ws, WorkoutWeight(k))
         == (if k == ProgramWorkouts then |ws| else 0) + (if k == ProgramWorkoutExercises then ExerciseTotal(ws) else 0)
    decreases |ws|
  {
    if ws != [] {
      WorkoutWeightSum(ws[1..], k);
    }
  }

  lemma {:induction false} PhaseWeightSum(ps: seq<Phase>, k: Table)
    ensures SumOf(ps, PhaseWeight(k))
         == (if k == ProgramPhases then |ps| else 0) + (if k == ProgramWorkouts then WorkoutTotal(ps) else 0)
            + (if k == ProgramWorkoutExercises then PhaseExerciseTotal(ps) else 0)
    decreases |ps|
  {
    if ps != [] {
      PhaseWeightSum(ps[1..], k);
    }
  }

  lemma FlattenWorkoutsCount(ws: seq<Workout>, phaseId: int, next: int, k: Table)
    ensures CountOf(FlattenWorkouts(ws, phaseId, next), TableOf, k)
         == (if k == ProgramWorkouts then |ws| else 0) + (if k == ProgramWorkoutExercises then ExerciseTotal(ws) else 0)
  {
    forall w: Workout, id: int
      ensures CountOf(WorkoutBlock(phaseId)(w, id), TableOf, k) == WorkoutWeight(k)(w)
    {
      assert WorkoutBlock(phaseId)(w, id) == [ProgramWorkoutRowOf(w, phaseId)] + ExerciseRows(w.exercises, id);
      CountCons(ProgramWorkoutRowOf(w, phaseId), ExerciseRows(w.exercises, id), TableOf, k);
      ExerciseRowsCount(w.exercises, id, k);
    }
    BlocksCount(ws, WorkoutBlock(phaseId), next, TableOf, k, WorkoutWeight(k));
    WorkoutWeightSum(ws, k);
  }

  lemma FlattenPhasesCount(ps: seq<Phase>, programId: int, next: int, k: Table)
    ensures CountOf(FlattenPhases(ps, programId, next), TableOf, k)
         == (if k == ProgramPhases then |ps| else 0) + (if k == ProgramWorkouts then WorkoutTotal(ps) else 0)
            + (if k == ProgramWorkoutExercises then PhaseExerciseTotal(ps) else 0)
  {
    forall p: Phase, id: int
      ensures CountOf(PhaseBlock(programId)(p, id), TableOf, k) == PhaseWeight(k)(p)
    {
      assert PhaseBlock(programId)(p, id) == [PhaseRowOf(p, programId)] + FlattenWorkouts(p.workouts, id, id + 1);
      CountCons(PhaseRowOf(p, programId), FlattenWorkouts(p.workouts, id, id + 1), TableOf, k);
      FlattenWorkoutsCount(p.workouts, id, id + 1, k);
    }
    BlocksCount(ps, PhaseBlock(programId), next, TableOf, k, PhaseWeight(k));
    PhaseWeightSum(ps, k);
  }

  /** A successful import writes one program row, one row per phase, one per
      workout and one per exercise, and nothing into any other table; empty
      lists contribute no rows. */
  lemma FlattenRowCounts(d: ProgramData, id0: int, k: Table)
    ensures CountOf(Flatten(d, id0), TableOf, k)
         == (if k == WorkoutPrograms then 1 else 0) + (if k == ProgramPhases then |d.phases| else 0)
            + (if k == ProgramWorkouts then WorkoutTotal(d.phases) else 0)
            + (if k == ProgramWorkoutExercises then PhaseExerciseTotal(d.phases) else 0)
  {
    CountCons(ProgramRowOf(d), FlattenPhases(d.phases, id0, id0 + 1), TableOf, k);
    FlattenPhasesCount(d.phases, id0, id0 + 1, k);
  }

  // ---------------------------------------------------------------------------
  // The insert sequence. Each loop of `handleImport` is a method of its own,
  // stated call by call against the calls a complete run makes: either every
  // call is made and accepted, and the log gains the rows of all of them, or the
  // run stops at the first rejected call `n`, and the log keeps exactly the rows
  // of the calls before it; nothing already written is undone. A rejected
  // zero-row batch stops the run after every row has been written.

  /** The body of the loop over a phase's workouts: the workout's row (whose id
      is the parent id of its exercises), then its exercise batch in one call. */
  method InsertWorkout(w: Workout, phaseId: int, store: RowStore) returns (err: Option<string>)
    modifies store
    ensures old(store.calls) <= store.calls <= old(store.calls) + |WorkoutCalls(phaseId)(w, |old(store.log)|)|
    ensures err == None ==>
      && store.calls == old(store.calls) + |WorkoutCalls(phaseId)(w, |old(store.log)|)|
      && store.log == old(store.log) + Concat(WorkoutCalls(phaseId)(w, |old(store.log)|))
      && store.AcceptedSince(old(store.calls))
    ensures err.Some? ==>
      && old(store.calls) < store.calls
      && store.log == old(store.log) + Concat(WorkoutCalls(phaseId)(w, |old(store.log)|)[..store.calls - old(store.calls) - 1])
      && store.StoppedAt(old(store.calls), err.value)
  {
    ghost var id := |store.log|;
    ghost var cs := WorkoutCalls(phaseId)(w, id);
    WorkoutCallsIs(phaseId, w, id);
    var workoutRow := ProgramWorkoutRowOf(w, phaseId);
    var workoutResult := store.Insert(workoutRow);
    if workoutResult.Failure? {
      store.StoppedNext(old(store.calls), old(store.calls));
      assert cs[..0] == [];
      return Some(workoutResult.error);
    }
    store.AcceptedNext(old(store.calls), old(store.calls));
    var workoutId := workoutResult.value;
    var exercises := ExerciseRows(w.exercises, workoutId);
    var exercisesResult := store.InsertAll(exercises);
    if exercisesResult.Some? {
      store.StoppedNext(old(store.calls), old(store.calls) + 1);
      assert cs[..1] == [[workoutRow]];
      ConcatCons([workoutRow], []);
      return exercisesResult;
    }
    store.AcceptedNext(old(store.calls), old(store.calls) + 1);
    ConcatCons([workoutRow], [exercises]);
    ConcatCons(exercises, []);
    return None;
  }

  /** The loop over one phase's workouts. */
  method InsertWorkouts(ws: seq<Workout>, phaseId: int, store: RowStore) returns (err: Option<string>)
    modifies store
    ensures old(store.calls) <= store.calls <= old(store.calls) + |WorkoutsBatches(ws, phaseId, |old(store.log)|)|
    ensures err == None ==>
      && store.calls == old(store.calls) + |WorkoutsBatches(ws, phaseId, |old(store.log)|)|
      && store.log == old(store.log) + Concat(WorkoutsBatches(ws, phaseId, |old(store.log)|))
      && store.AcceptedSince(old(store.calls))
    ensures err.Some? ==>
      && old(store.calls) < store.calls
      && store.log == old(store.log) + Concat(WorkoutsBatches(ws, phaseId, |old(store.log)|)[..store.calls - old(store.calls) - 1])
      && store.StoppedAt(old(store.calls), err.value)
  {
    ghost var log0 := store.log;
    ghost var next := |log0|;
    LogStart(log0, ws, WorkoutCalls(phaseId), next);
    var j := 0;
    while j < |ws|
      invariant 0 <= j <= |ws|
      invariant store.log == log0 + Concat(Batches(ws[..j], WorkoutCalls(phaseId), next))
      invariant store.calls == old(store.calls) + |Batches(ws[..j], WorkoutCalls(phaseId), next)|
      invariant store.AcceptedBetween(old(store.calls), store.calls)
    {
      ghost var log1 := store.log;
      ghost var c1 := store.calls;
      err := InsertWorkout(ws[j], phaseId, store);
      if err.Some? {
        store.StoppedJoin(old(store.calls), c1, store.calls, err.value);
        LogStop(store.log, log1, log0, ws, j, WorkoutCalls(phaseId), next,
                store.calls - c1 - 1, store.calls - old(store.calls) - 1);
        return;
      }
      store.AcceptedJoin(old(store.calls), c1, store.calls);
      LogStep(store.log, log1, log0, ws, j, WorkoutCalls(phaseId), next);
      j := j + 1;
    }
    LogDone(store.log, log0, ws, j, WorkoutCalls(phaseId), next);
    return None;
  }

  /** The body of the loop over the program's phases: the phase's row (whose id
      is the parent id of its workouts), then its workouts. */
  method InsertPhase(p: Phase, programId: int, store: RowStore) returns (err: Option<string>)
    modifies store
    ensures old(store.calls) <= store.calls <= old(store.calls) + |PhaseCalls(programId)(p, |old(store.log)|)|
    ensures err == None ==>
      && store.calls == old(store.calls) + |PhaseCalls(programId)(p, |old(store.log)|)|
      && store.log == old(store.log) + Concat(PhaseCalls(programId)(p, |old(store.log)|))
      && store.AcceptedSince(old(store.calls))
    ensures err.Some? ==>
      && old(store.calls) < store.calls
      && store.log == old(store.log) + Concat(PhaseCalls(programId)(p, |old(store.log)|)[..store.calls - old(store.calls) - 1])
      && store.StoppedAt(old(store.calls), err.value)
  {
    ghost var id := |store.log|;
    ghost var cs := PhaseCalls(programId)(p, id);
    PhaseCallsIs(programId, p, id, id + 1);
    var phaseRow := PhaseRowOf(p, programId);
    var phaseResult := store.Insert(phaseRow);
    if phaseResult.Failure? {
      store.StoppedNext(old(store.calls), old(store.calls));
      assert cs[..0] == [];
      return Some(phaseResult.error);
    }
    store.AcceptedNext(old(store.calls), old(store.calls));
    var phaseId := phaseResult.value;
    ghost var log1 := store.log;
    ghost var workoutCalls := WorkoutsBatches(p.workouts, phaseId, |log1|);
    PhaseCallsIs(programId, p, phaseId, |log1|);
    err := InsertWorkouts(p.workouts, phaseId, store);
    if err.Some? {
      store.StoppedJoin(old(store.calls), old(store.calls) + 1, store.calls, err.value);
      ConcatHead(phaseRow, workoutCalls, store.calls - (old(store.calls) + 1) - 1);
    } else {
      store.AcceptedJoin(old(store.calls), old(store.calls) + 1, store.calls);
      ConcatCons([phaseRow], workoutCalls);
    }
  }

  /** The loop over the program's phases. */
  method InsertPhases(ps: seq<Phase>, programId: int, store: RowStore) returns (err: Option<string>)
    modifies store
    ensures old(store.calls) <= store.calls <= old(store.calls) + |PhasesBatches(ps, programId, |old(store.log)|)|
    ensures err == None ==>
      && store.calls == old(store.calls) + |PhasesBatches(ps, programId, |old(store.log)|)|
      && store.log == old(store.log) + Concat(PhasesBatches(ps, programId, |old(store.log)|))
      && store.AcceptedSince(old(store.calls))
    ensures err.Some? ==>
      && old(store.calls) < store.calls
      && store.log == old(store.log) + Concat(PhasesBatches(ps, programId, |old(store.log)|)[..store.calls - old(store.calls) - 1])
      && store.StoppedAt(old(store.calls), err.value)
  {
    ghost var log0 := store.log;
    ghost var next := |log0|;
    LogStart(log0, ps, PhaseCalls(programId), next);
    var i := 0;
    while i < |ps|
      invariant 0 <= i <= |ps|
      invariant store.log == log0 + Concat(Batches(ps[..i], PhaseCalls(programId), next))
      invariant store.calls == old(store.calls) + |Batches(ps[..i], PhaseCalls(programId), next)|
      invariant store.AcceptedBetween(old(store.calls), store.calls)
    {
      ghost var log1 := store.log;
      ghost var c1 := store.calls;
      err := InsertPhase(ps[i], programId, store);
      if err.Some? {
        store.StoppedJoin(old(store.calls), c1, store.calls, err.value);
        LogStop(store.log, log1, log0, ps, i, PhaseCalls(programId), next,
                store.calls - c1 - 1, store.calls - old(store.calls) - 1);
        return;
      }
      store.AcceptedJoin(old(store.calls), c1, store.calls);
      LogStep(store.log, log1, log0, ps, i, PhaseCalls(programId), next);
      i := i + 1;
    }
    LogDone(store.log, log0, ps, i, PhaseCalls(programId), next);
    return None;
  }

  /** The try block of `handleImport` after `JSON.parse`: the program row, then
      its phases, stopping at the first insert the store rejects, whose message is
      returned. Nothing already inserted is undone: on a rejection the log holds
      exactly the rows of the calls made before it. */
  method RunImport(d: ProgramData, store: RowStore) returns (err: Option<string>)
    modifies store
    ensures old(store.calls) <= store.calls <= old(store.calls) + |ImportBatches(d, |old(store.log)|)|
    ensures err == None ==>
      && store.calls == old(store.calls) + |ImportBatches(d, |old(store.log)|)|
      && store.log == old(store.log) + Flatten(d, |old(store.log)|)
      && store.AcceptedSince(old(store.calls))
    ensures err.Some? ==>
      && old(store.calls) < store.calls
      && store.log == old(store.log) + Concat(ImportBatches(d, |old(store.log)|)[..store.calls - old(store.calls) - 1])
      && store.StoppedAt(old(store.calls), err.value)
  {
    ghost var log0 := store.log;
    ghost var c0 := store.calls;
    var programResult := store.Insert(ProgramRowOf(d));
    if programResult.Failure? {
      store.StoppedNext(c0, c0);
      assert ImportBatches(d, |log0|)[..0] == [];
      return Some(programResult.error);
    }
    var programId := programResult.value;
    ghost var log1 := store.log;
    ghost var phaseCalls := PhasesBatches(d.phases, programId, |log1|);
    ImportBatchesIs(d, programId, |log1|);
    store.AcceptedNext(c0, c0);
    err := InsertPhases(d.phases, programId, store);
    if err.Some? {
      store.StoppedJoin(c0, c0 + 1, store.calls, err.value);
      ConcatHead(ProgramRowOf(d), phaseCalls, store.calls - (c0 + 1) - 1);
    } else {
      store.AcceptedJoin(c0, c0 + 1, store.calls);
      ConcatCons([ProgramRowOf(d)], phaseCalls);
      ImportBatchesConcat(d, programId);
    }
  }

  /** The outcome shown to the admin. */
  datatype ImportResult = ImportResult(success: bool, message: string)

  /** The import screen's state: the pasted text, the in-progress flag and the
      last outcome. */
  class ImportScreen {
    var programData: string
    var importing: bool
    var result: Option<ImportResult>

    constructor ()
      ensures programData == "" && !importing && result == None
    {
      programData := "";
      importing := false;
      result := None;
    }

    /** `handleImport`, given what `JSON.parse(programData)` yields (a document,
        or the message of the exception it throws). */
    method HandleImport(parsed: Result<ProgramData, string>, store: RowStore)
      modifies this, store
      ensures Trim(old(programData)) == [] ==>
        && result == Some(ImportResult(false, "Please paste program data"))
        && importing == old(importing) && programData == old(programData)
        && store.log == old(store.log) && store.calls == old(store.calls)
      ensures Trim(old(programData)) != [] ==> !importing
      ensures Trim(old(programData)) != [] && parsed.Failure? ==>
        && result == Some(ImportResult(false, "Error: " + parsed.error))
        && programData == old(programData)
        && store.log == old(store.log) && store.calls == old(store.calls)
      ensures Trim(old(programData)) != [] && parsed.Success? ==>
        var d := parsed.value;
        && old(store.calls) <= store.calls <= old(store.calls) + |ImportBatches(d, |old(store.log)|)|
        && result.Some?
        && (result.value.success ==>
              && store.calls == old(store.calls) + |ImportBatches(d, |old(store.log)|)|
              && store.log == old(store.log) + Flatten(d, |old(store.log)|)
              && store.AcceptedSince(old(store.calls))
              && result.value.message == "Successfully imported " + d.name + "!"
              && programData == "")
        && (!result.value.success ==>
              && old(store.calls) < store.calls && store.calls - 1 in store.rejects
              && store.log == old(store.log)
                 + Concat(ImportBatches(d, |old(store.log)|)[..store.calls - old(store.calls) - 1])
              && store.StoppedAt(old(store.calls), store.rejects[store.calls - 1])
              && result.value.message == "Error: " + store.rejects[store.calls - 1]
              && programData == old(programData))
    {
      if Trim(programData) == [] {
        result := Some(ImportResult(false, "Please paste program data"));
        return;
      }
      importing := true;
      result := None;
      match parsed {
        case Failure(message) =>
          result := Some(ImportResult(false, "Error: " + message));
        case Success(d) =>
          var err := RunImport(d, store);
          ghost var log1 := store.log;
          ghost var calls1 := store.calls;
          if err.None? {
            result := Some(ImportResult(true, "Successfully imported " + d.name + "!"));
            programData := "";
          } else {
            result := Some(ImportResult(false, "Error: " + err.value));
          }
          assert store.log == log1 && store.calls == calls1;
      }
      importing := false;
    }
  }
}
