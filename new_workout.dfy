/** The new-workout form (app/components/NewWorkout.tsx): a list of selected
    exercises, each with its logged sets and a note, edited entry by entry, and
    `saveWorkout`, which validates the form and writes one `workouts` row and a
    batch of `workout_exercises` rows. */
module WorkoutLog {
  import opened Wrappers
  import opened Text
  import opened Seqs
  import opened Store

  /** One selected exercise: the catalogue id, its sets and its note. */
  datatype WorkoutExercise = WorkoutExercise(exerciseId: string, sets: seq<SetEntry>, notes: string)

  /** The set every new entry starts with and `addSet` appends. */
  function DefaultSet(): SetEntry {
    SetEntry(10, 0, true)
  }

  /** What `addExercise(exerciseId)` appends. */
  function NewEntry(exerciseId: string): WorkoutExercise {
    WorkoutExercise(exerciseId, [DefaultSet()], "")
  }

  // ---------------------------------------------------------------------------
  // `sets[setIndex][field] = value` for `field` in 'reps' | 'weight'.

  datatype SetKey = RepsKey | WeightKey

  function SetFieldValue(s: SetEntry, k: SetKey): int {
    match k
    case RepsKey => s.reps
    case WeightKey => s.weight
  }

  /** The named field reads back as the value written; the other field and the
      `completed` flag are as before. */
  function SetSetField(s: SetEntry, k: SetKey, v: int): (r: SetEntry)
    ensures SetFieldValue(r, k) == v
    ensures forall other :: other != k ==> SetFieldValue(r, other) == SetFieldValue(s, other)
    ensures r.completed == s.completed
  {
    match k
    case RepsKey => s.(reps := v)
    case WeightKey => s.(weight := v)
  }

  // ---------------------------------------------------------------------------
  // Every entry keeps at least one set.

  /** Every entry has at least one set: the form starts each entry with one and
      offers "remove set" only while an entry has more than one. */
  ghost predicate AllHaveSets(entries: seq<WorkoutExercise>) {
    forall i :: 0 <= i < |entries| ==> |entries[i].sets| >= 1
  }

  // ---------------------------------------------------------------------------
  // What `saveWorkout` writes.

  /** JavaScript's `s || null` on a string: the empty string becomes null, any
      other string is kept. */
  function NullIfEmpty(s: string): (r: Option<string>)
    ensures r == None <==> s == ""
    ensures r.Some? ==> r.value == s
  {
    if s == "" then None else Some(s)
  }

  /** The form passes validation: a name that is not blank once trimmed, and at
      least one exercise. */
  predicate CanSave(workoutName: string, entries: seq<WorkoutExercise>) {
    Trim(workoutName) != "" && |entries| > 0
  }

  /** The validation in terms of the name's characters: it fails exactly when
      the name is all whitespace (or empty) or nothing is selected. */
  lemma CanSaveIff(workoutName: string, entries: seq<WorkoutExercise>)
    ensures CanSave(workoutName, entries) <==> !IsBlank(workoutName) && entries != []
  {
    TrimEmptyIffBlank(workoutName);
  }

  /** The `workouts` row; `parsedDuration` is what `parseInt(duration)` yields,
      used only when `duration` is not empty. */
  function WorkoutRowOf(userId: string, workoutName: string, workoutDate: string, duration: string,
                        parsedDuration: int, workoutNotes: string): (r: Row)
    ensures r.WorkoutRow? && r.userId == userId && r.name == workoutName && r.workoutDate == workoutDate
    ensures r.durationMinutes == None <==> duration == ""
    ensures r.durationMinutes.Some? ==> r.durationMinutes.value == parsedDuration
    ensures r.notesOrNull == NullIfEmpty(workoutNotes)
  {
    WorkoutRow(userId, workoutName, workoutDate, if duration == "" then None else Some(parsedDuration),
               NullIfEmpty(workoutNotes))
  }

  /** `selectedExercises.map((exercise, index) => …)`: one row per entry, in
      order (see `EntryRowsAt`). */
  function EntryRows(entries: seq<WorkoutExercise>, workoutId: int): (rows: seq<Row>)
    ensures |rows| == |entries|
  {
    if entries == [] then []
    else
      var k := |entries| - 1;
      EntryRows(entries[..k], workoutId)
        + [WorkoutExerciseRow(workoutId, entries[k].exerciseId, k, entries[k].sets, NullIfEmpty(entries[k].notes))]
  }

  /** The row of entry `i` belongs to the new workout, has `order_index` `i`,
      the entry's exercise id and sets unchanged, and its note or null. */
  lemma {:induction false} EntryRowsAt(entries: seq<WorkoutExercise>, workoutId: int, i: nat)
    requires i < |entries|
    ensures EntryRows(entries, workoutId)[i]
         == WorkoutExerciseRow(workoutId, entries[i].exerciseId, i, entries[i].sets, NullIfEmpty(entries[i].notes))
    decreases |entries|
  {
    var k := |entries| - 1;
    if i < k {
      EntryRowsAt(entries[..k], workoutId, i);
    }
  }

  /** What the user sees after pressing save. */
  datatype SaveOutcome =
    | Invalid(message: string)   // the validation alert; nothing is written
    | Saved                      // the page reloads
    | Failed(message: string)    // the error alert

  const InvalidMessage := "Please enter a workout name and add at least one exercise"
  const ErrorPrefix := "Error saving workout: "

  /** The try block of `saveWorkout`: insert the workout row, then, when the
      store accepts it, one batch of exercise rows whose `workout_id` is the
      workout's new id. The store's message is returned when it rejects a call. */
  method WriteWorkout(workout: Row, entries: seq<WorkoutExercise>, store: RowStore) returns (err: Option<string>)
    modifies store
    ensures old(store.calls) in store.rejects ==>
      && err == Some(store.rejects[old(store.calls)])
      && store.log == old(store.log) && store.calls == old(store.calls) + 1
    ensures old(store.calls) !in store.rejects && old(store.calls) + 1 in store.rejects ==>
      && err == Some(store.rejects[old(store.calls) + 1])
      && store.log == old(store.log) + [workout] && store.calls == old(store.calls) + 2
    ensures old(store.calls) !in store.rejects && old(store.calls) + 1 !in store.rejects ==>
      && err == None
      && store.log == old(store.log) + [workout] + EntryRows(entries, |old(store.log)|)
      && store.calls == old(store.calls) + 2
  {
    var workoutResult := store.Insert(workout);
    if workoutResult.Failure? {
      return Some(workoutResult.error);
    }
    var rows := EntryRows(entries, workoutResult.value);
    err := store.InsertAll(rows);
  }

  /** The form's state. */
  class NewWorkoutForm {
    var workoutName: string
    var workoutDate: string
    var duration: string
    var workoutNotes: string
    var selectedExercises: seq<WorkoutExercise>
    var saving: bool

    /** Every entry has at least one set. */
    ghost predicate Valid()
      reads this
    {
      AllHaveSets(selectedExercises)
    }

    /** The initial state; `today` is the date part of the current time. */
    constructor (today: string)
      ensures workoutName == "" && workoutDate == today && duration == "" && workoutNotes == ""
      ensures selectedExercises == [] && !saving
      ensures Valid()
    {
      workoutName := "";
      workoutDate := today;
      duration := "";
      workoutNotes := "";
      selectedExercises := [];
      saving := false;
    }

    /** `addExercise(exerciseId)`. */
    method AddExercise(exerciseId: string)
      modifies this
      ensures selectedExercises == old(selectedExercises) + [NewEntry(exerciseId)]
      ensures workoutName == old(workoutName) && workoutDate == old(workoutDate)
      ensures duration == old(duration) && workoutNotes == old(workoutNotes) && saving == old(saving)
      ensures old(Valid()) ==> Valid()
    {
      selectedExercises := selectedExercises + [NewEntry(exerciseId)];
    }

    /** `removeExercise(index)`: `filter((_, i) => i !== index)`. */
    method RemoveExercise(index: nat)
      modifies this
      ensures selectedExercises == Without(old(selectedExercises), index)
      ensures workoutName == old(workoutName) && workoutDate == old(workoutDate)
      ensures duration == old(duration) && workoutNotes == old(workoutNotes) && saving == old(saving)
      ensures old(Valid()) ==> Valid()
    {
      selectedExercises := Without(selectedExercises, index);
    }

    /** `addSet(exerciseIndex)`: pushes the default set onto that entry's sets. */
    method AddSet(exerciseIndex: nat)
      requires exerciseIndex < |selectedExercises|
      modifies this
      ensures EqualExcept(selectedExercises, old(selectedExercises), exerciseIndex)
      ensures selectedExercises[exerciseIndex]
           == old(selectedExercises[exerciseIndex]).(sets := old(selectedExercises[exerciseIndex].sets) + [DefaultSet()])
      ensures workoutName == old(workoutName) && workoutDate == old(workoutDate)
      ensures duration == old(duration) && workoutNotes == old(workoutNotes) && saving == old(saving)
      ensures old(Valid()) ==> Valid()
    {
      var entry := selectedExercises[exerciseIndex];
      selectedExercises := selectedExercises[exerciseIndex := entry.(sets := entry.sets + [DefaultSet()])];
    }

    /** `updateSet(exerciseIndex, setIndex, field, value)`. */
    method UpdateSet(exerciseIndex: nat, setIndex: nat, k: SetKey, v: int)
      requires exerciseIndex < |selectedExercises| && setIndex < |selectedExercises[exerciseIndex].sets|
      modifies this
      ensures EqualExcept(selectedExercises, old(selectedExercises), exerciseIndex)
      ensures selectedExercises[exerciseIndex].exerciseId == old(selectedExercises[exerciseIndex].exerciseId)
      ensures selectedExercises[exerciseIndex].notes == old(selectedExercises[exerciseIndex].notes)
      ensures EqualExcept(selectedExercises[exerciseIndex].sets, old(selectedExercises[exerciseIndex].sets), setIndex)
      ensures selectedExercises[exerciseIndex].sets[setIndex]
           == SetSetField(old(selectedExercises[exerciseIndex].sets[setIndex]), k, v)
      ensures workoutName == old(workoutName) && workoutDate == old(workoutDate)
      ensures duration == old(duration) && workoutNotes == old(workoutNotes) && saving == old(saving)
      ensures old(Valid()) ==> Valid()
    {
      var entry := selectedExercises[exerciseIndex];
      var sets := entry.sets[setIndex := SetSetField(entry.sets[setIndex], k, v)];
      selectedExercises := selectedExercises[exerciseIndex := entry.(sets := sets)];
    }

    /** `removeSet(exerciseIndex, setIndex)`: `filter((_, i) => i !== setIndex)`
        on that entry's sets. The form offers it only while the entry has more
        than one set, and then every entry keeps at least one. */
    method RemoveSet(exerciseIndex: nat, setIndex: nat)
      requires exerciseIndex < |selectedExercises|
      modifies this
      ensures EqualExcept(selectedExercises, old(selectedExercises), exerciseIndex)
      ensures selectedExercises[exerciseIndex]
           == old(selectedExercises[exerciseIndex]).(sets := Without(old(selectedExercises[exerciseIndex].sets), setIndex))
      ensures workoutName == old(workoutName) && workoutDate == old(workoutDate)
      ensures duration == old(duration) && workoutNotes == old(workoutNotes) && saving == old(saving)
      ensures old(Valid()) && old(|selectedExercises[exerciseIndex].sets|) > 1 ==> Valid()
    {
      var entry := selectedExercises[exerciseIndex];
      selectedExercises := selectedExercises[exerciseIndex := entry.(sets := Without(entry.sets, setIndex))];
    }

    /** The note input's `onChange`: `updated[exerciseIndex].notes = value`. */
    method UpdateExerciseNotes(exerciseIndex: nat, notes: string)
      requires exerciseIndex < |selectedExercises|
      modifies this
      ensures EqualExcept(selectedExercises, old(selectedExercises), exerciseIndex)
      ensures selectedExercises[exerciseIndex] == old(selectedExercises[exerciseIndex]).(notes := notes)
      ensures workoutName == old(workoutName) && workoutDate == old(workoutDate)
      ensures duration == old(duration) && workoutNotes == old(workoutNotes) && saving == old(saving)
      ensures old(Valid()) ==> Valid()
    {
      var entry := selectedExercises[exerciseIndex];
      selectedExercises := selectedExercises[exerciseIndex := entry.(notes := notes)];
    }

    /** `saveWorkout` for the user `userId`; `parsedDuration` is what
        `parseInt(duration)` yields. An invalid form writes nothing. Otherwise
        the workout row is inserted; when that is rejected no exercise row is
        written, and when it is accepted its id is the `workout_id` of one batch
        of exercise rows. The rows already written stay when the batch is
        rejected. `saving` is false again when the save is over. */
    method SaveWorkout(userId: string, parsedDuration: int, store: RowStore) returns (outcome: SaveOutcome)
      modifies this, store
      ensures selectedExercises == old(selectedExercises) && workoutName == old(workoutName)
      ensures workoutDate == old(workoutDate) && duration == old(duration) && workoutNotes == old(workoutNotes)
      ensures !CanSave(workoutName, selectedExercises) ==>
        && outcome == Invalid(InvalidMessage)
        && store.log == old(store.log) && store.calls == old(store.calls) && saving == old(saving)
      ensures CanSave(workoutName, selectedExercises) ==>
        var workout := WorkoutRowOf(userId, workoutName, workoutDate, duration, parsedDuration, workoutNotes);
        var rows := EntryRows(selectedExercises, |old(store.log)|);
        && !saving
        && (old(store.calls) in store.rejects ==>
              && outcome == Failed(ErrorPrefix + store.rejects[old(store.calls)])
              && store.log == old(store.log) && store.calls == old(store.calls) + 1)
        && (old(store.calls) !in store.rejects && old(store.calls) + 1 in store.rejects ==>
              && outcome == Failed(ErrorPrefix + store.rejects[old(store.calls) + 1])
              && store.log == old(store.log) + [workout] && store.calls == old(store.calls) + 2)
        && (old(store.calls) !in store.rejects && old(store.calls) + 1 !in store.rejects ==>
              && outcome == Saved
              && store.log == old(store.log) + [workout] + rows && store.calls == old(store.calls) + 2)
    {
      if !CanSave(workoutName, selectedExercises) {
        return Invalid(InvalidMessage);
      }
      saving := true;
      var workout := WorkoutRowOf(userId, workoutName, workoutDate, duration, parsedDuration, workoutNotes);
      var err := WriteWorkout(workout, selectedExercises, store);
      outcome := if err.Some? then Failed(ErrorPrefix + err.value) else Saved;
      saving := false;
    }
  }
}
