# Task Tracer CLI: a Dafny model of the task store

This project models the core of a small task-tracking command-line tool written in C#:

- the `Task` entity (`Task.cs`). It has a fixed id and creation time. Its methods rewrite its description, status and update time in place.
- the `TaskManager` (`TaskManager.cs`). It owns the list of tasks. It hands out ids on add, and it rewrites the description of the first task with a given id on update.
- the dispatch in `Program.Main` (`Program.cs`). This is the decision over the argument array: no command, `add` without a description, `add <description>`, or an unknown command.

Modules:

- `Wrappers` (`wrappers.dfy`): `Option`.
- `Tasks` (`tasks.dfy`):
  - `TrimQuotes`, which models `Trim('"')` and removes every leading and trailing double quote.
  - the `Task` class. `Id` and `CreatedAt` are get-only in C#, so they are `const` fields here.
  - `TaskRecord`, the value of a task's five properties at one moment.
- `TaskStore` (`task_store.dfy`):
  - specification functions on `seq<TaskRecord>`: `MaxId`, `NextId`, `Added`, `FindIndex` and `Updated`, with the lemmas about them.
  - the `TaskManager` class over a `seq<Task>`. Its linear scans are `while` loops: `MaxIdScan` for `Max` and `FindFirst` for `FirstOrDefault`. `AddTask` and `UpdateTask` are proved against the specification functions.
- `Cli` (`cli.dfy`):
  - `Dispatch`, a pure function from the arguments to a `Command`.
  - `Execute`, which performs the one store call that `Dispatch` selects.

Environment inputs are parameters:

- The current time (`DateTime.Now` formatted as `dd-MM-yyyy HH:mm:ss`) is a `now` string.
- The new task's status and timestamps are parameters of `AddTask`.
- The file found at start-up is a `StoredFile` value.
- `SaveTasks` records the collection it writes in a ghost history, `saves`.

Where the code differs from what a reader might expect, the model follows the code:

- A new task's status is whatever the caller supplies; no code path sets `"todo"`.
- `Trim('"')` removes every leading and trailing quote, not one wrapping pair.
- `UpdateTask` assigns the description directly (`TaskManager.cs:50`). It does not use `Task.Update`, so `UpdatedAt` is not refreshed.
- A missing id in `UpdateTask` prints a message and returns. The model reports `found == false` and changes nothing.
- The store has only `AddTask` and `UpdateTask`. There are no delete, list or store-level mark operations in the code.
- A JSON document that deserialises to `null` falls back to an empty list.

The code as written does not compile:

- `TaskManager.cs:28` calls a two-argument `Task` constructor. Only the five-argument one (`Task.cs:16`) exists, so the model's `AddTask` calls that one with the extra arguments as parameters.
- `TaskManager.cs:50` assigns `Description`, whose setter is private (`Task.cs:6`). The model performs the assignment the line states.

## Model

| member | source | states |
|---|---|---|
| Tasks.TrimLeadingQuotes | Task.cs:19 | the result of the leading trim does not start with a quote |
| Tasks.TrimTrailingQuotes | Task.cs:19 | the result of the trailing trim does not end with a quote and starts where the input starts |
| Tasks.TrimLeadingIsSuffix | Task.cs:19 | the leading trim keeps a suffix of the input and removes only quotes |
| Tasks.TrimTrailingIsPrefix | Task.cs:19 | the trailing trim keeps a prefix of the input and removes only quotes |
| Tasks.TrimQuotes | Task.cs:19 | the trimmed description neither starts nor ends with `"` |
| Tasks.TrimQuotesIsQuoteFramed | Task.cs:19 | the trimmed string is a contiguous piece of the input with only quotes before and after it |
| Tasks.TrimQuotesUnique | Task.cs:28 | conversely, any quotes + edge-quote-free middle + quotes split trims to exactly that middle, so the trim removes all leading and trailing quotes and nothing else |
| Tasks.TrimQuotesIdempotent | Task.cs:28 | trimming twice equals trimming once |
| Tasks.TrimQuotesKeepsUnquoted | Task.cs:19 | a string that neither starts nor ends with `"` is returned unchanged |
| Tasks.Task.constructor | Task.cs:16-23 | stores id, status, createdAt and updatedAt exactly as given and the description quote-trimmed |
| Tasks.Task.Update | Task.cs:26-30 | sets the description to the trimmed text and updatedAt to `now`; id, status and createdAt are unchanged |
| Tasks.Task.MarkInProgress | Task.cs:32-36 | sets status to `"in-progress"` and updatedAt to `now` unconditionally; description, id and createdAt are unchanged |
| Tasks.Task.MarkAsDone | Task.cs:38-42 | sets status to `"done"` and updatedAt to `now`; every other property is unchanged |
| TaskStore.MaxId | TaskManager.cs:27 | the maximum of a non-empty id list is one of its ids and bounds all of them |
| TaskStore.WrappingIncrement | TaskManager.cs:27 | `+ 1` on a C# `int` in unchecked arithmetic: adds one below `int.MaxValue`, wraps to `int.MinValue` at it |
| TaskStore.NextIdAsWritten | TaskManager.cs:27 | the id as written: 1 for an empty list, max + 1 otherwise, `int.MinValue` when `int.MaxValue` is present |
| TaskStore.AsWrittenRepeatsAnId | TaskManager.cs:27 | with a task of id `int.MaxValue` present, two adds as written both get id `int.MinValue`, so the ids are no longer distinct |
| TaskStore.NextId | TaskManager.cs:27 | id 1 when the list is empty; otherwise max + 1, strictly greater than every id present and so fresh; no id exactly when `int.MaxValue` is present |
| TaskStore.Added | TaskManager.cs:27-29 | an add appends exactly one task built from the arguments with the allocated id and the trimmed description, and keeps every earlier task in order; nothing changes when no id can be allocated |
| TaskStore.AddKeepsIdsDistinct | TaskManager.cs:27-29 | one add keeps the ids pairwise distinct |
| TaskStore.AddsKeepIdsDistinct | TaskManager.cs:27-29 | any run of adds keeps the ids pairwise distinct |
| TaskStore.AddsContinueNumbering | TaskManager.cs:27-29 | on a list numbered 1..n, a run of adds appends tasks n+1, n+2, … built from their arguments |
| TaskStore.AddsFromEmpty | TaskManager.cs:27-29 | from an empty list, the k-th add creates task k+1 from its arguments, so the ids are 1, 2, … and pairwise distinct |
| TaskStore.FindIndex | TaskManager.cs:44 | `FirstOrDefault` by id: no match exactly when the id is absent; otherwise the position of the first task with that id |
| TaskStore.Updated | TaskManager.cs:44-50 | the update on values: a missing id leaves the list equal; only the description of the first task with the id changes, to the trimmed text; ids, statuses, timestamps, length and order are unchanged |
| TaskStore.UpdateKeepsIds | TaskManager.cs:44-50 | an update leaves the id list unchanged |
| TaskStore.UpdateIdempotent | TaskManager.cs:44-50 | repeating the same update changes nothing further |
| TaskStore.TaskManager.constructor | TaskManager.cs:10-21 | an absent file or a null deserialisation gives an empty list; otherwise the deserialised list |
| TaskStore.TaskManager.MaxIdScan | TaskManager.cs:27 | the linear scan for `Max(t => t.Id)` returns an id present that bounds every id, which is MaxId |
| TaskStore.TaskManager.FindFirst | TaskManager.cs:44 | the linear scan for `FirstOrDefault` returns the first position whose id matches, or none when no task has it; this is FindIndex |
| TaskStore.TaskManager.AllocateId | TaskManager.cs:27 | the id the manager computes is NextId of its current ids |
| TaskStore.TaskManager.SaveTasks | TaskManager.cs:61-65 | writes exactly the current collection, whole |
| TaskStore.TaskManager.AddTask | TaskManager.cs:23-38 | the list becomes Added of the old one: one fresh task appended with id NextId, earlier tasks unchanged and in order, one save of the new collection; with no id, nothing changes and nothing is saved |
| TaskStore.TaskManager.UpdateTask | TaskManager.cs:40-59 | found exactly when the id is present; the list becomes Updated of the old one, the same objects in the same order; one save when found, none otherwise |
| Cli.Dispatch | Program.cs:7-34 | no arguments gives the no-command outcome; `add` alone gives usage; `add d …` gives Add(d), ignoring further arguments; any other first argument, under exact case-sensitive comparison, gives unknown |
| Cli.Execute | Program.cs:5-36 | only an Add outcome calls the store, once, with `args[1]`: the list becomes Added of the old one, the earlier task objects stay in order, and exactly one save is recorded when an id was allocated (none otherwise); every other outcome leaves the task list, every task and the save history unchanged |

## Findings

| source | as written | input that shows it | evidently intended | confidence | as-written member | corrected member |
|---|---|---|---|---|---|---|
| TaskManager.cs:27 | `_tasks.Max(t => t.Id) + 1` in C#'s default unchecked `int` arithmetic wraps to `int.MinValue` when the largest id is `int.MaxValue` | a `tasks.json` holding a task with `Id` 2147483647, then `AddTask` twice: both new tasks get id -2147483648 | every new id is larger than every id present, so ids stay distinct | not executed; assumes the project does not enable overflow checking | TaskStore.NextIdAsWritten, TaskStore.AsWrittenRepeatsAnId | TaskStore.NextId, TaskStore.AddKeepsIdsDistinct |

The corrected `NextId` allocates no id at the overflow. This is what `checked` arithmetic would do: its `OverflowException` is rethrown by the `catch` before `_tasks.Add` runs, so the list is unchanged. `TaskManager.AddTask` uses `NextId` and returns `None` in that case.

## Left out

- File I/O (`File.Exists`, `File.ReadAllText`, `File.WriteAllText`): the environment is not modelled. The constructor receives what the file held as a `StoredFile` value. `SaveTasks` only appends the written collection to the ghost `saves` history.
- JSON serialisation with `System.Text.Json`: a foreign library, so there is no round-trip lemma. A malformed `tasks.json`, on which `Deserialize` throws out of the constructor, is not modelled.
- A `tasks.json` with `null` entries, such as `[null]`: it deserialises without an exception to a list that holds nulls. `AddTask` then throws a `NullReferenceException` in `Max(t => t.Id)` (`TaskManager.cs:27`), and so does `UpdateTask` in `FirstOrDefault` (`TaskManager.cs:44`) when a null comes before the first match. The model's `seq<Task>` has no null entries, so on a loaded list its `AddTask` and `UpdateTask` always complete.
- TaskStore.TaskManager.constructor: requires that the deserialised list holds distinct objects. A fresh deserialisation always produces distinct objects, and the model cannot state that about a foreign library.
- `DateTime.Now` and its `dd-MM-yyyy HH:mm:ss` formatting: replaced by a `now` string. Timestamps are never compared, so no ordering between `createdAt` and `updatedAt` is stated.
- Console output and the catch-and-rethrow paths in `AddTask` and `UpdateTask`: these are presentation only. An I/O exception from `SaveTasks` after the in-memory change is not modelled.
- Building the manager in `Main`: `Cli.Execute` takes an existing manager. In the source, `Main` builds the `TaskManager`, which reads the file, only when there is at least one argument.
- Delete, list, filter and store-level mark operations: they do not exist in this code.
