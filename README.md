# Task tracker: a Dafny model of the command-line to-do store

The tracker (`app.js`) keeps a list of task records in one JSON file. Each
invocation reads the whole list, applies one command and, if the command
changes something, writes the whole list back. This project models that
list store and the command dispatcher in front of it:

- `text.dfy` (module `Text`): ASCII lower-casing, which stands in for
  `toLowerCase`, and the decimal numeral that a task id is made from.
- `tasks.dfy` (module `Tasks`): the `Task` record, with `id`, `description`,
  `status`, `createdAt` and `updatedAt`. It also holds the pure list
  operations the commands use: `find` by id, the `filter` that removes an
  id, the case-insensitive `filter` on status, and the construction of a new
  task.
- `operations.dfy` (module `Operations`): one specification function per
  command. Each gives the command's report and the list it writes, or
  `None` when it writes nothing. The lemmas there relate several commands.
- `store.dfy` (module `Store`): the class `TaskStore`, whose field `file` is
  the task file: no file, a file that does not parse, or a task list. Its
  methods carry out the commands step by step as the source does: push onto
  the list, edit the found task in place, write the list back. Each method
  is proved to match its specification function.
- `cli.dfy` (module `Cli`): `Parse`, which matches the first argument
  ignoring case, `Exec`, `Run`, and a worked session.

The clock reading that the source captures once per process (`currentTime`)
is passed explicitly as `now`. Command-line arguments are `Option<string>`.
A missing argument (`None`) or an empty string counts as absent, which is
what JavaScript's `!arg` tests. Guard failures leave `file` exactly as it
was. This means "nothing is written" can be observed: a missing file stays
missing.

Three facts about the code that the model keeps:
- Ids are not unique. A task's id is the numeral of the list length plus
  one, so after a delete the next add can repeat a surviving id.
  `Tasks.DeleteThenAddReusesId` exhibits this.
- `deleteTask` removes every task with that id. The list shrinks by exactly
  one precisely when exactly one task has the id
  (`Tasks.WithoutUniqueId`, `Tasks.WithoutShrinksByOne`).
- `addTask` returns nothing. The model reports the new id, as the console
  message does.

## Model

| member | source | states |
|---|---|---|
| Text.Lower | app.js:147 | the result has the same length and contains no capitals; every character that is not an ASCII capital is kept, and each capital becomes its small letter (code point + 32) |
| Text.LowerKeepsLowercase | app.js:177 | a string without capitals, such as every command word, is its own lower case |
| Text.LowerIgnoresCase | app.js:147 | strings that differ only in letter case lower-case to the same string |
| Text.Decimal | app.js:43 | the id numeral is non-empty, all digits, and has no leading zero (a leading '0' exactly when the number is 0) |
| Text.DecimalRoundTrip | app.js:43 | reading the numeral of n back gives n |
| Text.DecimalInjective | app.js:43 | different list lengths give different id numerals |
| Tasks.Missing | app.js:36 | JavaScript's `!arg` on an argument, as in every command's guard (also app.js lines 57, 78, 114 and 140): an absent argument (`undefined`) is missing, and a given string is missing exactly when it is empty |
| Tasks.IsAllowedStatus | app.js:119 | against the list declared at app.js line 6, a status is accepted exactly when its lower case is `just_add`, `in_progress` or `done`; the empty string is never accepted |
| Tasks.FirstIndexOf | app.js:63 | `find` by id: None exactly when no task has the id; otherwise an in-range index whose task has the id, with no earlier task having it |
| Tasks.CountId | app.js:85-87 | the number of tasks with the id is at most the length, and zero exactly when no task has the id |
| Tasks.WithoutId | app.js:85 | the filter keeps exactly the tasks whose id differs, and never lengthens the list |
| Tasks.WithoutIdLength | app.js:85-87 | the filtered list's length is the old length minus the number of tasks with the id |
| Tasks.WithoutIdStep | app.js:85 | the filter looks at the first task, keeps it exactly when its id differs, and continues with the rest |
| Tasks.WithoutIdAppend | app.js:85 | the filter distributes over concatenation, so survivors keep their original order |
| Tasks.WithoutIdKeepsUnmatched | app.js:85-90 | with no task of that id, the filter returns the list unchanged |
| Tasks.WithoutUniqueId | app.js:85-92 | when exactly one task has the id, the filtered list is one shorter and no longer has that id |
| Tasks.WithoutShrinksByOne | app.js:85-87 | the filter shortens the list by exactly one if and only if exactly one task has the id |
| Tasks.WithStatus | app.js:146-148 | the status filter keeps exactly the tasks whose lower-cased status equals the lower-cased query, and never lengthens the list |
| Tasks.WithStatusAppend | app.js:146-148 | the status filter distributes over concatenation, so matches come out in store order |
| Tasks.WithStatusIgnoresQueryCase | app.js:146-148 | two queries with the same lower case select the same tasks |
| Tasks.NewTask | app.js:42-48 | the new task's id is the canonical decimal numeral of old length + 1 (no leading zero, reads back as that number); its description is the argument, its status is `just_add`, `created_at` is the process time and `updated_at` is unset |
| Tasks.DeleteThenAddReusesId | app.js:43 | deleting "1" from tasks "1","2" leaves task "2", and the next add is numbered "2" too, so ids collide |
| Operations.AddOutcome | app.js:35-53 | nothing is written exactly when the description is absent or empty (report: missing argument); otherwise one task is appended, the earlier tasks are unchanged, and the new task's id is the decimal numeral of old length + 1, with the description given, status `just_add`, `created_at = now` and `updated_at` unset; the report carries that id |
| Operations.UpdateOutcome | app.js:56-74 | nothing is written exactly when the id or description is absent or no task has the id, with the report for each case; otherwise only the first task with the id changes, getting the new description and `updated_at = now`; the length and all other tasks are unchanged |
| Operations.DeleteOutcome | app.js:77-94 | nothing is written exactly when the id is absent or matches no task; otherwise the list written is the filtered list, strictly shorter |
| Operations.ListOutcome | app.js:97-110 | never writes; the empty list reports "no tasks", and a non-empty list is listed whole |
| Operations.ChangeStatusOutcome | app.js:113-136 | nothing is written exactly when an argument is absent, the lower-cased status is not `just_add`/`in_progress`/`done`, or no task has the id. The checks run in that order, each with its own report. Otherwise only the first task with the id changes: its status becomes the argument exactly as given, and `updated_at = now` |
| Operations.ListByStatusOutcome | app.js:139-159 | never writes; reports a missing argument exactly when the status is absent; "none found" (carrying the query) exactly when no stored status matches ignoring case; when the status filter's result is non-empty, lists exactly that result |
| Operations.ChangedTaskIsListedByStatus | app.js:132-148 | after a successful status change to "Done", the task stores "Done" verbatim, and listing by any spelling with the same lower case (such as "done") shows it |
| Operations.UpdateLeavesLaterDuplicates | app.js:63-70 | when two tasks share an id, an update leaves the later one untouched |
| Store.ReadTasks | app.js:13-22 | a missing or unparsable file reads as the empty list; a file that parses reads as the list it holds |
| Store.FindTask | app.js:63 | the linear search returns the first index whose task has the id, or None exactly when there is none; this equals `FirstIndexOf` |
| Store.TaskStore.Load | app.js:13-22 | the store's file read as a list: the list it holds, or the empty list when there is no file or it does not parse |
| Store.TaskStore.Save | app.js:26-32 | the file is replaced by the whole list, and reading it back gives that list |
| Store.TaskStore.Add | app.js:35-53 | report and new file state are those of `AddOutcome` on the list read; the file is untouched when nothing is written |
| Store.TaskStore.Update | app.js:56-74 | report and new file state are those of `UpdateOutcome`; the found task is edited in place |
| Store.TaskStore.Delete | app.js:77-94 | report and new file state are those of `DeleteOutcome` |
| Store.TaskStore.List | app.js:97-110 | changes nothing; the report is that of `ListOutcome`, and "no tasks" is reported exactly when the file reads as empty |
| Store.TaskStore.ChangeStatus | app.js:113-136 | report and new file state are those of `ChangeStatusOutcome` |
| Store.TaskStore.ListByStatus | app.js:139-159 | changes nothing; the report is that of `ListByStatusOutcome`, and every task listed is in the file |
| Cli.Arg | app.js:180-195 | the argument at a position is present exactly when the position is inside the argument list, and is then the string there; past the end it is absent, as `undefined` |
| Cli.Parse | app.js:165-199 | no arguments gives the usage command, and only then; each of the six commands is chosen exactly when the lower-cased first argument is its word (add, update, delete, list, changestatus, liststatus); the command is unknown exactly when it is none of them; each command takes its operands from positions 1 and 2, absent past the end |
| Cli.ParseIgnoresCommandCase | app.js:177 | argument lists that differ only in the letter case of the command word parse to the same command |
| Cli.Exec | app.js:178-199 | only add, update, delete and changestatus can write; the usage command and an unknown command report and write nothing |
| Cli.Run | app.js:162-200 | report and new file state are those of `Exec(Parse(args))` on the list read; with no arguments or an unknown command the file is untouched |
| Cli.ExampleParses | app.js:177-196 | "add", "changestatus", "liststatus", "delete" and "list" command lines parse to their commands with their operands |
| Cli.ExampleSteps | app.js:35-159 | with each command line at its own clock reading t1 to t5 (one `currentTime` per process, app.js line 7), starting from an empty list: add "buy milk" at t1 gives task "1" created at t1; changestatus 1 done at t2 sets status "done" and updated at t2, keeping created at t1; liststatus done shows it; delete 1 empties the list; list reports no tasks |
| Cli.ExampleSession | app.js:162-200 | running those five command lines through `Run`, each at its own clock reading, on a store with no file yields those five reports (the task listed was created at t1 and updated at t2) and leaves the file holding the empty list |

## Left out

- File access and JSON (app.js:10-32) are abstracted. The file is a
  `FileState`: no file, unparsable content (including a parse result of
  `null`), or a task list. The model does not represent the text of the
  file, the fixed file name or JSON formatting.
- Records in the file that are not well-formed tasks are not modelled. This
  covers a non-string id, missing fields, and a JSON value that is not an
  array. The model's file always holds `Task` records.
- Write failures (app.js:29-31) are not modelled. `writeFile` catches them
  and carries on, but the model's `Save` always succeeds.
- Console output is reduced to a `Report` value. The wording of every
  message and of the usage banner is not modelled, and neither is the
  diagnostic printed on a read or write error.
- The `Date` taken at start-up (app.js:7) is a `nat` clock reading, `now`,
  passed to every command. Date values become text in the file; the model
  keeps them as the same reading.
- `toLowerCase` is modelled on ASCII letters only. Unicode case mapping is
  not modelled.
- `process.argv.slice(2)` (app.js:163) is taken as the argument list
  `seq<string>`.
- Two processes running at once on the same file, and the lost update this
  can cause, are not modelled. Every command is a single sequential
  read-modify-write.
