# Task Tracker CLI — a Dafny model of its command logic

The task tracker is a Node.js command-line program (`index.js`) that keeps a list of
tasks in `tasks.json`. Each run loads the list and applies one command (`add`, `update`,
`delete`, `mark-in-progress`, `mark-done`, `list`). It writes the list back only after a
command has changed it: never for `list`, never for the usage text, and never after a
refusal that ends the run with `process.exit(1)`. A task has an `id`, a `description`,
a `status` and two ISO timestamps, `createdAt` and `updatedAt`.

This project models what a run does to the list in memory. Loading and saving are
the boundary: a `seq<Task>` comes in and a `seq<Task>` goes out.

- `text.dfy` (module `Text`): the text handling the commands rely on.
  - ECMAScript white space and `String.prototype.trim`.
  - `args.join(" ")` and the description built from it.
  - The decimal rendering of an id inside a template literal.
  - The integer part of `Number(text)`, giving a number or NaN.
  - JavaScript truthiness of a number (`!id`).
- `tasks.dfy` (module `Tasks`): the task record and the pure computations.
  - `nextId` and the `Math.max` it uses.
  - `find`/`findIndex` by id.
  - The `list` status filter and the `[id] description (status)` line.
  - Lemmas on id uniqueness, id assignment, filter order and the printed id.
- `store.dfy` (module `Store`): class `TaskStore`.
  - It holds the loaded list in a field `tasks: seq<Task>`.
  - It has one method per command case, each changing `tasks` the way the case changes the JavaScript array.
  - `mark-in-progress` and `mark-done` share `SetStatus`, because their two cases differ only in the status they write.
- `cli.dfy` (module `Cli`): the `switch` over the command name.
  - It derives each command's arguments from the argument words.
  - It reports the outcome, the printed task lines, and whether the list would be written back.
  - A short client session (`SessionAdd`, `SessionStart`, `SessionDelete`) runs `Dispatch` on the argument words as typed: it adds a task, starts it, lists `todo` and deletes it twice.

Id uniqueness is not a precondition, because a hand-edited `tasks.json` may break it.
Instead, every command keeps it: `UniqueIds(old(tasks)) ==> UniqueIds(tasks)`.

## Behaviours of the code worth knowing

- **Ids can be reused.** `nextId` (index.js:29-31) looks only at the ids present, so after the task with the largest id is deleted the next `add` hands that id out again. `Tasks.IdReuse` shows both cases: from tasks 1 and 2, deleting 1 makes the next id 3, and deleting 2 makes it 2 again.
- **`mark-*` ids are not validated.** `mark-in-progress` and `mark-done` (index.js:102-132) have no `!id` check. An id of 0 finds a loaded task whose id is 0. A missing or non-numeric id is NaN, which matches no task, so the result is "not found" rather than a validation error. To tell these cases apart, the parsed id is modelled as `Number = NaN | Num(int)`.
- **Two clock readings.** `add` calls `now()` once for `createdAt` and once for `updatedAt` (index.js:51-52), and `update` and `mark-*` set `updatedAt` alone. The clock is a parameter, so the model claims neither `createdAt == updatedAt` nor any order between timestamps.
- **An empty `list` filter.** `list ""` shows every task, because `""` is falsy (index.js:136).

## Model

| member | source | states |
|---|---|---|
| `Text.LeadingWhitespace` | index.js:41 | the leading run of white space: every character before the count is white space, and the next one is not |
| `Text.TrailingWhitespace` | index.js:41 | the trailing run of white space, with the same characterisation from the end |
| `Text.Trim` | index.js:41 | `trim` leaves nothing exactly when the text is all white space; otherwise the result neither starts nor ends with white space |
| `Text.TrimDropsOnlyWhitespace` | index.js:41 | what `trim` keeps is an infix of the text, with only white space before and after it |
| `Text.TrimUnpadded` | index.js:41 | text that neither starts nor ends with white space is returned unchanged |
| `Text.TrimIdempotent` | index.js:41 | trimming twice equals trimming once |
| `Text.JoinWhitespace` | index.js:41 | `join(" ")` gives all-white-space text exactly when every word is all white space |
| `Text.DescriptionEmptyIff` | index.js:41-45 | the description `args.join(" ").trim()` is empty exactly when every argument word is white space (including no words), which is the case `add` and `update` refuse |
| `Text.Join` | index.js:41 | definition (reference for `args.join(" ")`: the words separated by single spaces) |
| `Text.Description` | index.js:63 | definition (reference for `join(" ").trim()`, the description `add` and `update` build) |
| `Text.NatToDecimal` | index.js:147 | the decimal rendering is non-empty, all digits, its value is the number, and it has no leading zero |
| `Text.LeadingDigitBound` | index.js:147 | a numeral is worth at least its leading digit |
| `Text.DecimalUnique` | index.js:147 | the rendering is the only numeral of the number without a leading zero, so the printed id is determined |
| `Text.IntToDecimal` | index.js:147 | definition (reference for `${t.id}`: a minus sign for negative ids, then the shortest numeral) |
| `Text.Truthy` | index.js:65 | definition (reference for `!id`: 0 and NaN are falsy) |
| `Text.ParseNumber` | index.js:62 | definition (reference for `Number(text)` on integer numerals: trim, then read the numeral) |
| `Text.ParseNumeral` | index.js:84 | definition (reference for the numeral `Number` reads: empty is 0, an optional sign and digits is an integer, anything else NaN) |
| `Text.RenderedCharacters` | index.js:147 | a rendered integer holds only a minus sign and digits |
| `Text.ParseRendered` | index.js:62 | `Number` applied to the decimal rendering of any integer gives that integer back |
| `Tasks.MaxId` | index.js:30 | `Math.max` over the ids bounds every id and is one of them |
| `Tasks.NextId` | index.js:29-31 | 1 for an empty list; otherwise greater than every id present, and one more than some id present (max + 1) |
| `Tasks.FindIndex` | index.js:90 | `findIndex`: the first position holding the id, or none exactly when no task has it |
| `Tasks.Lookup` | index.js:104 | `find` with a parsed number: NaN finds nothing; otherwise it finds a task with that id whenever one exists |
| `Tasks.Filter` | index.js:137 | `filter` by status: a task is kept exactly when it is in the list and has that status; the result is no longer than the list |
| `Tasks.RenderLine` | index.js:147 | definition (reference for the `[id] description (status)` line `list` prints) |
| `Tasks.AppendFreshKeepsUnique` | index.js:55 | pushing a task whose id no task has keeps the ids unique |
| `Tasks.FindAppended` | index.js:55 | the pushed task is the one later found by its id |
| `Tasks.NextIdAfterAppend` | index.js:48 | after pushing a task with id `nextId`, the next id is one more: consecutive adds give consecutive ids |
| `Tasks.RemoveAt` | index.js:96 | `splice(i, 1)` keeps ids unique, and with unique ids the removed id is no longer found |
| `Tasks.ReplaceKeepingId` | index.js:76-77 | rewriting fields of a task other than its id keeps the ids unique and every lookup unchanged |
| `Tasks.FilterAppend` | index.js:137 | filtering distributes over concatenation, so the shown tasks keep their collection order |
| `Tasks.FilterAllMatching` | index.js:137 | when every task has the filter's status, the whole list is shown in order |
| `Tasks.FilterUnknownStatus` | index.js:136-138 | a filter naming none of `todo`/`in-progress`/`done` shows nothing (and is no error) on a list the program wrote |
| `Tasks.RenderedIdReadsBack` | index.js:147 | the id between `[` and `]` in a printed line reads back through `Number` as the task's id |
| `Tasks.IdReuse` | index.js:30 | from ids {1, 2}: deleting 1 makes the next id 3, but deleting 2 makes it 2 again |
| `Store.TaskStore.constructor` | index.js:36 | the store holds the list as loaded |
| `Store.TaskStore.Add` | index.js:40-58 | fails with a validation error and no change exactly when the description is empty; otherwise appends exactly `Task(nextId, description, "todo", createdAt, updatedAt)` with an id not present before, and keeps ids unique |
| `Store.TaskStore.Update` | index.js:61-81 | a validation error when the id is 0 or NaN or the description is empty; not found when no task has the id; no change on either; on success, the first task with the id gets the new description and `updatedAt`, and nothing else changes |
| `Store.TaskStore.Delete` | index.js:83-100 | a validation error for 0 or NaN; not found for an absent id; no change on either; on success, exactly the first task with the id is removed and the others keep their order; with unique ids, the id is gone afterwards |
| `Store.TaskStore.SetStatus` | index.js:102-132 | not found, with no change, exactly when the lookup fails; otherwise only the found task's `status` and `updatedAt` change; ids stay unique |
| `Store.TaskStore.List` | index.js:134-150 | no filter shows every task; a filter shows `Filter(tasks, filter)`; one rendered line per shown task, in order; the list is not changed |
| `Store.PrintLines` | index.js:146-148 | `forEach` prints one `[id] description (status)` line per task, in order |
| `Cli.IdArgument` | index.js:62 | definition (reference for `Number(args[0])`, NaN when the argument is missing) |
| `Cli.AfterFirst` | index.js:63 | definition (reference for `args.slice(1)`) |
| `Cli.FilterArgument` | index.js:135-136 | definition (reference for `args[0]` as the `list` filter, missing meaning no filter) |
| `Cli.ExitCode` | index.js:44 | definition (reference for the exit status: 1 after a refusal or a missing task, otherwise 0) |
| `Cli.IdArgumentRendered` | index.js:62 | an id passed as the first argument exactly as `list` prints it is read back as that id |
| `Cli.Dispatch` | index.js:38-167 | an unknown command gives help and no change; the list is written only after a successful change; a non-zero exit code means no change; per command, the possible outcomes, when each occurs, and on success the exact new list (the pushed task, the updated, spliced or re-marked first match); `list` gives one rendered line per shown task; ids stay unique |
| `Cli.BuyMilk` | index.js:41 | the words `Buy` and `milk` make the description `Buy milk` |
| `Cli.SessionAdd` | index.js:40-58 | running `add Buy milk` on an empty file succeeds, is written, and yields exactly task 1, `todo` |
| `Cli.SessionStart` | index.js:102-150 | running `mark-in-progress 1` then sets task 1 to `in-progress`, and `list todo` prints no task line |
| `Cli.SessionDelete` | index.js:83-100 | running `delete 1` then succeeds with exit status 0 and leaves no task; a second `delete 1` is not found and exits with status 1 |

## Left out

- Reading and writing `tasks.json` (`initFile`, `readTasks`, `writeTasks`, index.js:10-23) and the JSON encoding are left out. They are file-system and library calls. The model takes the loaded list as the store's initial value. `Dispatch` says, through `written`, whether the program would save it.
- A `tasks.json` that does not parse, or whose fields have other types, is left out. The model assumes integer ids and string fields.
- `now()` (index.js:25-27) is left out. The wall clock becomes timestamp parameters.
- The console messages are left out, apart from the per-task lines of `list`. This includes the usage text, the "No tasks found." notice and the "Task List:" header. Each run is summarised by its `Outcome`, and `ExitCode` maps that outcome to the exit status of `process.exit(1)`.
- `process.argv` destructuring is left out. The command name and the argument words are parameters, and a missing command is the empty string.
- `ParseNumber`: covers only what `Number(text)` does with integer numerals. That is surrounding white space, an empty text (0), one sign and decimal digits. Fractions (`"1.0"`, `"1.5"`), exponents, hexadecimal, binary and octal prefixes and `Infinity` give NaN in the model, although JavaScript gives a number. For example, `update 1.0 x` updates task 1 in JavaScript, but the model reports a validation error.
- `NatToDecimal`: does not model double-precision behaviour. Integers here are unbounded, while JavaScript renders numbers of 10^21 or more in exponent form.
- `NextId`: ids are unbounded integers. In JavaScript, once the largest id reaches 2^53, `Math.max(...) + 1` rounds back to that same id. So the fresh-id and uniqueness promises of `Store.TaskStore.Add` and `Cli.Dispatch` hold only below 2^53, which the model does not track.
- `ParseNumber`: reads numerals above 2^53 exactly, whereas `Number` rounds them to the nearest double.
- Two invocations running at once against the same file are left out. That is a race outside the program's logic, where the last writer wins.
