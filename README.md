# Workout program editor, import and workout log — a Dafny model

This project models the three pieces of sequential logic in a small workout
tracking web application:

- **The program-document editor** (`app/admin/ProgramEditor.tsx`). A training
  program is a tree: a program has phases, a phase has workouts, and a workout
  has exercises. The editor can:
  - update one field at any depth;
  - append a child at any depth. New phases and workouts are numbered one past
    the largest existing number, or 1 when there is none.
  - delete a child at any depth. Deleting a phase or a workout first asks for
    confirmation.

  The document is the `data` state of the component. It is modelled as the
  class `ProgramEditor.Editor`, whose methods update its fields.
- **The admin import** (`app/admin/page.tsx`, `handleImport`). It writes a parsed
  program document to the relational store depth-first:
  - one `workout_programs` row;
  - per phase, one `program_phases` row;
  - then, per workout of that phase, one `program_workouts` row followed by one
    batch of `program_workout_exercises` rows.

  The id the store returns for each row is the parent id of the rows beneath
  it. The first rejected insert ends the run, and nothing already written is
  undone.
  - The two loops of `handleImport` are the methods `AdminImport.InsertPhases`
    and `AdminImport.InsertWorkouts`.
  - Their bodies are `AdminImport.InsertPhase` and `AdminImport.InsertWorkout`.
  - The store calls a complete run makes, each with the rows it inserts, are
    `AdminImport.ImportBatches`. A lemma proves that their rows together are
    the function `AdminImport.Flatten`.

  Each method is proved against its list of calls:
  - either every call is made and accepted, and the log gains the rows of all
    of them;
  - or the run stops at the first rejected call `n`. The log then holds exactly
    the old log followed by the rows of calls `0..n-1`, which is a prefix of the
    complete run's rows.

  A rejected zero-row batch leaves every row written and still reports failure.
- **The new-workout form** (`app/components/NewWorkout.tsx`). It holds a list of
  selected exercises, each with its logged sets and a note, and offers:
  - add, remove and edit operations;
  - `saveWorkout`, which validates the form and writes one `workouts` row and
    one batch of `workout_exercises` rows.

The store is the class `Store.RowStore`:
- an insert log whose positions serve as the generated ids, so ids are fresh and
  distinct;
- a call counter;
- a fixed map from call numbers to error messages, naming the calls the store
  rejects.

A rejected call writes nothing. A batch insert writes all of its rows or none
of them.

Modules:
- `Wrappers`: `Option` and `Result`.
- `Text`: JavaScript `trim` and integer-to-decimal rendering.
- `Seqs`: removal by index (`filter((_, i) => i !== k)` and `splice(k, 1)`).
- `Store`: the store.
- `ProgramEditor`: the document and the editor.
- `BlockLists`: generic lemmas about a list flattened block by block, where each
  block's first id depends on the sizes of the blocks before it.
- `AdminImport`: the import.
- `WorkoutLog`: the new-workout form.

## Model

| member | source | states |
|---|---|---|
| ProgramEditor.SetProgramField | app/admin/ProgramEditor.tsx:50-52 | `{ ...data, [field]: value }`: the named field reads back as the value written, and every other field keeps its value |
| ProgramEditor.SetPhaseField | app/admin/ProgramEditor.tsx:54-58 | `{ ...phase, [field]: value }`: the named field reads back as written, and every other field of the phase is unchanged |
| ProgramEditor.SetWorkoutField | app/admin/ProgramEditor.tsx:60-66 | the same get/set laws for a workout's fields |
| ProgramEditor.SetExerciseField | app/admin/ProgramEditor.tsx:68-76 | the same get/set laws for an exercise's fields |
| ProgramEditor.MaxOf | app/admin/ProgramEditor.tsx:98 | `Math.max(...s)` of a non-empty list is an element of the list that no element exceeds |
| ProgramEditor.NextNumber | app/admin/ProgramEditor.tsx:119-121 | the default number is 1 for an empty list; otherwise it is one more than an existing number and greater than every existing number |
| ProgramEditor.NextNumberKeepsDistinct | app/admin/ProgramEditor.tsx:119-121 | appending the default next number to distinct numbers keeps them distinct |
| ProgramEditor.PhaseNumbers | app/admin/ProgramEditor.tsx:120 | `data.phases.map(p => p.phase_number)`: one number per phase, in order |
| ProgramEditor.WorkoutNumbers | app/admin/ProgramEditor.tsx:98 | `currentWorkouts.map(w => w.workout_number)`: one number per workout, in order |
| ProgramEditor.AddPhaseKeepsNumbersDistinct | app/admin/ProgramEditor.tsx:118-133 | after `addPhase`, phase numbers that were distinct are still distinct |
| ProgramEditor.AddWorkoutKeepsNumbersDistinct | app/admin/ProgramEditor.tsx:94-109 | after `addWorkout`, the phase's workout numbers that were distinct are still distinct |
| ProgramEditor.NewPhaseNamesDistinct | app/admin/ProgramEditor.tsx:125 | distinct phase numbers give distinct default names `Phase N` |
| ProgramEditor.NewPhase | app/admin/ProgramEditor.tsx:123-131 | the phase `addPhase` appends for number `n`: name `Phase n`, empty objective, 2 weeks, 5 workouts a week, 60 seconds rest, no workouts |
| ProgramEditor.NewWorkout | app/admin/ProgramEditor.tsx:101-107 | the workout `addWorkout` appends for number `n`: name `Workout #n`, type `foundational`, empty notes, no exercises |
| ProgramEditor.DefaultExercise | app/admin/ProgramEditor.tsx:89 | the exercise `addExercise` pushes: empty name, 2 sets, reps `10`, empty notes |
| ProgramEditor.Editor.constructor | app/admin/ProgramEditor.tsx:46 | the edited document starts as `initialData` |
| ProgramEditor.Editor.UpdateProgram | app/admin/ProgramEditor.tsx:50-52 | only the named top-level field changes; the phases are untouched unless that field is `phases` |
| ProgramEditor.Editor.UpdatePhase | app/admin/ProgramEditor.tsx:54-58 | only the named field of phase `p` changes; the phase count, the other phases and the program fields are unchanged |
| ProgramEditor.Editor.UpdateWorkout | app/admin/ProgramEditor.tsx:60-66 | only the named field of workout `w` of phase `p` changes; the other phases, the phase's own fields and the sibling workouts are unchanged |
| ProgramEditor.Editor.UpdateExercise | app/admin/ProgramEditor.tsx:68-76 | only the named field of exercise `e` changes; everything above and beside it is unchanged |
| ProgramEditor.Editor.DeleteExercise | app/admin/ProgramEditor.tsx:78-84 | the workout's exercises lose exactly element `e`, the rest keep their order, and nothing else changes |
| ProgramEditor.Editor.AddExercise | app/admin/ProgramEditor.tsx:86-92 | the workout's exercises gain exactly `{name: '', sets: 2, reps: '10', notes: ''}` at the end, and nothing else changes |
| ProgramEditor.Editor.AddWorkout | app/admin/ProgramEditor.tsx:94-109 | phase `p` gains one workout at the end: numbered max + 1 (or 1), named `Workout #N`, of type `foundational`, with no exercises; the other phases are unchanged |
| ProgramEditor.Editor.DeleteWorkout | app/admin/ProgramEditor.tsx:111-116 | when confirmation is declined, the document is unchanged; otherwise the phase loses exactly workout `w` and the rest are intact |
| ProgramEditor.Editor.AddPhase | app/admin/ProgramEditor.tsx:118-133 | one phase is appended: numbered max + 1 (or 1), named `Phase N`, lasting 2 weeks, 5 workouts a week, 60 s rest, no workouts |
| ProgramEditor.Editor.DeletePhase | app/admin/ProgramEditor.tsx:135-140 | when confirmation is declined, the document is unchanged; otherwise exactly phase `p` is removed and the other phases are intact |
| Seqs.Without | app/admin/ProgramEditor.tsx:138 | `splice(i, 1)` / `filter((_, j) => j !== i)`: an in-range index loses exactly that element and keeps the others in order; an index past the end changes nothing |
| Seqs.WithoutMultiset | app/components/NewWorkout.tsx:49 | the removal drops exactly one occurrence of the removed element and nothing else |
| Text.TrimStart | app/admin/page.tsx:12 | the leading part of `trim`: a suffix of the input, with only whitespace dropped, not starting with whitespace |
| Text.TrimEnd | app/admin/page.tsx:12 | the trailing part of `trim`: a prefix, with only whitespace dropped, not ending with whitespace |
| Text.Trim | app/admin/page.tsx:12 | `s.trim()`: leading whitespace dropped, then trailing whitespace |
| Text.TrimEmptyIffBlank | app/admin/page.tsx:12 | `!s.trim()` holds exactly when every character of `s` is JavaScript whitespace |
| Text.NatToString | app/admin/ProgramEditor.tsx:125 | the decimal digits of a number: non-empty, all digits, no leading zero |
| Text.ParseNatToString | app/admin/ProgramEditor.tsx:125 | reading the digits back gives the number |
| Text.IntToString | app/admin/ProgramEditor.tsx:103 | an integer in a template literal; it starts with `-` exactly when it is negative |
| Text.NatToStringInjective | app/admin/ProgramEditor.tsx:125 | distinct numbers render differently |
| Text.IntToStringInjective | app/admin/ProgramEditor.tsx:103 | distinct integers render differently |
| Store.RowStore.constructor | app/admin/page.tsx:22 | the store starts with an empty log, no calls and the given rejections |
| Store.RowStore.Insert | app/admin/page.tsx:25-35 | `insert(row).select().single()`: a rejected call writes nothing and returns the store's message; otherwise the row is appended and its id is its position |
| Store.RowStore.InsertAll | app/admin/page.tsx:81-85 | one batch insert: all rows are appended, or none and the store's message is returned |
| AdminImport.ProgramRowOf | app/admin/page.tsx:27-31 | the `workout_programs` row: the document's name, description and total weeks |
| AdminImport.PhaseRowOf | app/admin/page.tsx:41-49 | the `program_phases` row: the program id, then the phase's number, name, objective, duration, weekly frequency and rest |
| AdminImport.ProgramWorkoutRowOf | app/admin/page.tsx:59-65 | the `program_workouts` row: the phase id, then the workout's number, name, type and notes |
| AdminImport.ExerciseRows | app/admin/page.tsx:72-79 | one exercise row per input exercise |
| AdminImport.ExerciseRowsAt | app/admin/page.tsx:72-79 | row `i` carries the workout's id, `exercise_name = ex.name`, `order_index = i`, and `sets`, `reps` and `notes` unchanged |
| AdminImport.FlattenWorkoutsLength | app/admin/page.tsx:56-86 | a phase's workouts give one row per workout plus one per exercise |
| AdminImport.FlattenPhasesLength | app/admin/page.tsx:38-87 | the phases give one row per phase plus their workouts' rows |
| AdminImport.WorkoutsPlacement | app/admin/page.tsx:56-86 | within a phase's rows, the row of workout `j` comes after the rows of workouts `0..j-1` and carries the phase id; its exercise batch, carrying the workout's own id, follows it at once; the next workout starts right after |
| AdminImport.PhasesPlacement | app/admin/page.tsx:38-87 | within the program's rows, the row of phase `i` comes after the rows of phases `0..i-1` and carries the program id; the rows of its workouts, whose parent id is the phase's own id, follow it at once |
| AdminImport.WorkoutBlock | app/admin/page.tsx:57-85 | one workout's rows in insertion order: its `program_workouts` row, whose id is `id`, then its exercise rows with that parent id |
| AdminImport.FlattenWorkouts | app/admin/page.tsx:56-86 | the rows of a phase's workouts, workout by workout in loop order (see `FlattenWorkoutsLength`, `WorkoutsPlacement`, `FlattenWorkoutsCount`) |
| AdminImport.PhaseBlock | app/admin/page.tsx:39-86 | one phase's rows: its `program_phases` row, whose id is `id`, then its workouts' rows with that parent id |
| AdminImport.FlattenPhases | app/admin/page.tsx:38-87 | the rows of the program's phases, phase by phase in loop order (see `FlattenPhasesLength`, `PhasesPlacement`, `FlattenPhasesCount`) |
| AdminImport.Flatten | app/admin/page.tsx:24-87 | every row a complete import adds when the program row gets id `id0`: the program row, then each phase's rows in order; the order, parent ids and counts are proved in `PhasesPlacement`, `WorkoutsPlacement` and `FlattenRowCounts` |
| AdminImport.WorkoutCalls | app/admin/page.tsx:57-85 | the two store calls one workout makes: its row, whose id is `id`, then its exercise batch, even an empty one |
| AdminImport.WorkoutsBatches | app/admin/page.tsx:56-86 | the store calls for a phase's workouts, workout by workout |
| AdminImport.PhaseCalls | app/admin/page.tsx:39-86 | the store calls one phase makes: its row, whose id is `id`, then its workouts' calls |
| AdminImport.PhasesBatches | app/admin/page.tsx:38-87 | the store calls for the program's phases, phase by phase |
| AdminImport.ImportBatches | app/admin/page.tsx:25-87 | every store call a complete import makes, in order: the program row, then each phase's calls |
| AdminImport.WorkoutsBatchesConcat | app/admin/page.tsx:56-86 | the calls for a phase's workouts insert exactly `FlattenWorkouts` |
| AdminImport.PhasesBatchesConcat | app/admin/page.tsx:38-87 | the calls for the phases insert exactly `FlattenPhases` |
| AdminImport.ImportBatchesConcat | app/admin/page.tsx:25-87 | the calls of a complete import insert exactly `Flatten(d, id)` |
| AdminImport.ImportBatchesPrefix | app/admin/page.tsx:25-87 | the rows of the first `k` calls are a prefix of `Flatten(d, id)`: an import that stopped early has written the start of the complete one |
| AdminImport.ExerciseRowsCount | app/admin/page.tsx:72-83 | an exercise batch holds only `program_workout_exercises` rows, one per exercise |
| AdminImport.FlattenWorkoutsCount | app/admin/page.tsx:56-86 | a phase's workouts give one `program_workouts` row per workout, one exercise row per exercise, and no other rows |
| AdminImport.FlattenPhasesCount | app/admin/page.tsx:38-87 | the phases give one phase row per phase, one workout row per workout, one exercise row per exercise, and no other rows |
| AdminImport.FlattenRowCounts | app/admin/page.tsx:25-87 | a complete import writes one program row, one phase row per phase, one workout row per workout, one exercise row per exercise, and nothing in any other table; empty lists add no rows |
| AdminImport.InsertWorkout | app/admin/page.tsx:57-85 | one workout: its row, then its exercise batch. Either both calls are accepted and the log gains both, or the first rejected call ends it, and the log holds the rows of the calls before it: nothing if the workout row was rejected, only the workout row if the batch was |
| AdminImport.InsertWorkouts | app/admin/page.tsx:56-86 | the workout loop makes the calls `WorkoutsBatches(ws, phaseId, id)` in order. Either all of them are accepted and the log gains their rows, or the first rejected call `n` ends the loop with its message, and the log holds the old log and the rows of calls `0..n-1`, nothing undone |
| AdminImport.InsertPhase | app/admin/page.tsx:39-86 | one phase: its row, then its workouts (`PhaseCalls(programId)(p, id)`). Either every call is accepted and the log gains their rows, or the first rejected call `n` ends it with the rows of calls `0..n-1` in the log |
| AdminImport.InsertPhases | app/admin/page.tsx:38-87 | the phase loop makes the calls `PhasesBatches(ps, programId, id)` in order. Either all of them are accepted and the log gains their rows, or the first rejected call `n` ends the loop with its message, and the log holds the old log and the rows of calls `0..n-1` |
| AdminImport.RunImport | app/admin/page.tsx:24-88 | the program row, then the phases, as the calls `ImportBatches(d, id)`. On success every call was made and accepted and the log gains `Flatten(d, id)`. Otherwise the first rejected call `n` ends the run with its message, and the log holds the old log and exactly the rows of calls `0..n-1`, nothing undone |
| AdminImport.ImportScreen.constructor | app/admin/page.tsx:7-9 | the text is empty, nothing is importing and there is no result |
| AdminImport.ImportScreen.HandleImport | app/admin/page.tsx:11-96 | blank input gives `Please paste program data` with no store call. A parse error gives `Error: <message>` with no store call. Otherwise there are two outcomes. Either every call of `ImportBatches` was made and accepted, the log gains `Flatten(d, id)`, and the result is success, naming the program and clearing the text. Or the run stopped at the first rejected call `n`, the log holds exactly the rows of calls `0..n-1`, and the result is `Error: <that call's message>`. `importing` is false at the end |
| WorkoutLog.DefaultSet | app/components/NewWorkout.tsx:42 | the set a new entry starts with and `addSet` appends: 10 reps, weight 0, completed |
| WorkoutLog.NewEntry | app/components/NewWorkout.tsx:40-44 | the entry `addExercise` appends: the exercise id, one default set and an empty note |
| WorkoutLog.SetSetField | app/components/NewWorkout.tsx:58-67 | `sets[s][field] = value` for `reps` or `weight`: the named field reads back as written; the other field and `completed` are unchanged |
| WorkoutLog.NullIfEmpty | app/components/NewWorkout.tsx:105 | `s \|\| null`: null exactly for the empty string, otherwise the string itself |
| WorkoutLog.CanSave | app/components/NewWorkout.tsx:76 | the validation of `saveWorkout`: the trimmed name is not empty and at least one exercise is selected (characterised by `CanSaveIff`) |
| WorkoutLog.CanSaveIff | app/components/NewWorkout.tsx:76 | the form passes validation exactly when the name is not all whitespace and at least one exercise is selected |
| WorkoutLog.WorkoutRowOf | app/components/NewWorkout.tsx:87-93 | the `workouts` row: user, name and date as given; `duration_minutes` null exactly when `duration` is empty, otherwise the parsed number; notes null when empty |
| WorkoutLog.EntryRows | app/components/NewWorkout.tsx:100-106 | one `workout_exercises` row per selected entry |
| WorkoutLog.EntryRowsAt | app/components/NewWorkout.tsx:100-106 | row `i` carries the workout's id, the entry's exercise id, `order_index = i`, the entry's sets unchanged, and its note or null when empty |
| WorkoutLog.WriteWorkout | app/components/NewWorkout.tsx:85-112 | the workout row is inserted first; when it is rejected, no exercise row is written; when it is accepted, one batch whose `workout_id` is the new id follows, and a rejected batch leaves the workout row in place |
| WorkoutLog.NewWorkoutForm.constructor | app/components/NewWorkout.tsx:28-33 | empty name, duration, notes and selection; the given date; not saving; every entry has a set (vacuously) |
| WorkoutLog.NewWorkoutForm.AddExercise | app/components/NewWorkout.tsx:37-46 | exactly one entry is appended, with that exercise id, one set `{reps: 10, weight: 0, completed: true}` and an empty note; every entry still has a set |
| WorkoutLog.NewWorkoutForm.RemoveExercise | app/components/NewWorkout.tsx:48-50 | exactly entry `i` is removed, and the rest keep their order |
| WorkoutLog.NewWorkoutForm.AddSet | app/components/NewWorkout.tsx:52-56 | entry `i` gains exactly one default set at the end; the other entries are unchanged |
| WorkoutLog.NewWorkoutForm.UpdateSet | app/components/NewWorkout.tsx:58-67 | only `field` of set `s` of entry `i` changes; the entry's other sets, its id, its note and the other entries are unchanged |
| WorkoutLog.NewWorkoutForm.RemoveSet | app/components/NewWorkout.tsx:69-73 | entry `i` loses exactly set `s`; when the entry had more than one set (the only case the form offers), every entry still has a set |
| WorkoutLog.NewWorkoutForm.UpdateExerciseNotes | app/components/NewWorkout.tsx:273-277 | only the note of entry `i` changes |
| WorkoutLog.NewWorkoutForm.SaveWorkout | app/components/NewWorkout.tsx:75-120 | an invalid form gives the validation message with no store call; otherwise it gives `Error saving workout: <message>` for a rejected workout row (no exercise rows) or a rejected batch (the workout row stays), and `Saved` with the workout row and then the exercise rows written; `saving` is false at the end |

## Left out

- React rendering, JSX and expand/collapse state (`expandedPhase`, `expandedWorkout`) are not modelled. They are presentation only.
- The Supabase client is replaced by `Store.RowStore`. Generated ids are log positions, which are fresh and distinct; real ids are opaque. Rejections are given in advance by call number. Authentication, network errors and `.select().single()` returning no row are folded into "the call is rejected".
- `JSON.parse` is not modelled. `HandleImport` takes what it yields: a document, or the exception's message.
- A pasted document missing a field, or with a field of the wrong type, is not modelled. `ProgramData` always has every field.
- `parseInt` is not modelled, including its `NaN` results. The duration's parsed value and every numeric field are integers given by the caller.
- `confirm` is a boolean parameter of the delete methods.
- `alert` becomes the message in `SaveOutcome`.
- `window.location.reload` becomes the outcome `Saved`.
- `new Date().toISOString().split('T')[0]` is the constructor's `today` argument.
- `onSave`/`onCancel` are not modelled: the document handed to `onSave` is `Editor.Data()`.
- The form inputs' plain `onChange` setters are not modelled as methods; they are assignments to the form's fields.
- Phase and workout numbers are unbounded integers. The source's numbers are doubles, and it agrees with the model only for |n| < 2^53, where `+ 1` and decimal rendering are exact. From 2^53 on, `Math.max(...) + 1` can equal the maximum, and from 10^21 on `${n}` switches to exponent form. So `NextNumber`'s strict bound and the distinctness lemmas (`NextNumberKeepsDistinct`, `AddPhaseKeepsNumbersDistinct`, `AddWorkoutKeepsNumbersDistinct`, `NewPhaseNamesDistinct`) hold in the source only for safe integers. Fractional numbers are not modelled.
- In-place `push`/`splice` into nested arrays is not modelled. `addExercise`, `deleteExercise`, `addWorkout`, `deleteWorkout` and `addSet` mutate arrays that the previous state shares. `updateSet` and the note setter mutate objects that the previous state shares: the set object `sets[setIndex]` (NewWorkout.tsx:65) and the entry's `notes` field (NewWorkout.tsx:275). `removeSet` assigns `.sets` on an entry object that the previous state also shares. The model has value semantics, so that aliasing is not captured.
- AdminImport.ImportScreen.HandleImport and WorkoutLog.NewWorkoutForm.SaveWorkout: their contracts do not state that `importing` and `saving` are true while the store calls run, only that they are false afterwards. Each await is one atomic step of the method, so the flag is observed only at the end.
- Concurrency is not modelled: the awaits are atomic steps, and no other writer touches the store.
- Cascade deletes of the store are not modelled.
- The read-back path that reassembles a document from rows is not modelled; no modelled file contains it.
- app/components/Dashboard.tsx, app/components/WorkoutList.tsx, app/admin/UserManagement.tsx, app/programs/page.tsx, app/page.tsx and types/database.types.ts are not part of this model. They fetch and display, or pass single rows through.
- ProgramEditor.Editor.DeleteWorkout requires an in-range phase index only when the deletion is confirmed. A declined prompt returns for any index, and a confirmed deletion of a missing phase would throw a `TypeError`.
- ProgramEditor.Editor.UpdatePhase, ProgramEditor.Editor.UpdateWorkout, ProgramEditor.Editor.UpdateExercise, ProgramEditor.Editor.AddExercise, ProgramEditor.Editor.AddWorkout and ProgramEditor.Editor.DeleteExercise require in-range indices. The form only passes those; out of range, JavaScript would create a sparse element or throw.
- WorkoutLog.NewWorkoutForm.AddSet, WorkoutLog.NewWorkoutForm.UpdateSet, WorkoutLog.NewWorkoutForm.RemoveSet and WorkoutLog.NewWorkoutForm.UpdateExerciseNotes require an in-range entry index (and UpdateSet an in-range set index). JavaScript would throw a `TypeError` on any other index, and the form never passes one.
- An empty exercise list still makes its batch call, with zero rows, as the source does, and the store may reject that call. Then every row has been written and the import still reports failure, so success is not the same as "every row written". This is modelled, not left out; it is noted here because it is easy to miss.
