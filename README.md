# Sync bridge stores, modelled in Dafny

This project models the in-memory core of a collaboration bridge between AI coding
agents: a **task store** (`TaskManager`) that creates tasks, filters them, overwrites
their status and appends implementation notes, and a **collaboration store**
(`CodeSyncManager`) that keeps shared code snippets and a log of messages, each either
directed to one `(id, type)` client or broadcast to all. The record shapes and
enumerations of `src/schemas.ts` become datatypes. The zod validation that opens the six
operations taking an input record (`createTask`, `queryTasks`, `updateTaskStatus`,
`addImplementationDetails`, `shareCodeSnippet`, `broadcastMessage`) becomes a parser
from an untyped input record, where any field may be missing and enumerations arrive as
strings. `getTask` and the three snippet and message readers take plain strings and
validate nothing. A rejected input returns a validation error
listing the offending fields and changes nothing.

Files:

- `schemas.dfy` (module `Schemas`): clients, task/priority/detail-status enumerations
  with their names, the `Task`, `DetailNote`, `CodeSnippet` and `Message` records, the six
  store inputs (typed and untyped), one validity predicate per input, and the parsers.
- `collections.dfy` (module `Collections`): `Array.prototype.filter` as `Filter` and
  `Object.values` over a string-keyed record as `ValuesInOrder`, with the lemmas both
  stores use: filtering distributes over concatenation, and a fresh key's value is
  listed last.
- `task_manager.dfy` (module `TaskStore`): the filter predicate of `queryTasks`, the
  class `TaskManager` with a `tasks` map and the insertion order of its keys, and
  lemmas about queries.
- `code_sync_manager.dfy` (module `CollabStore`): recipient construction, the routing
  rule, the class `CodeSyncManager` with a `snippets` map (plus key order) and a
  `messages` sequence, and lemmas about inboxes, task threads and snippet lists.

The JavaScript semantics the model spells out:

- **Truthiness.** An optional string filter or target is used only when it is present
  and non-empty (`Schemas.Truthy`). An empty `assignedTo` filter is a wildcard. An empty
  `targetClientId` or `targetClientType` produces a broadcast.
- **Tag filter.** The tag clause only runs when the task has a `tags` array. A task
  without `tags` passes every tag filter. A task with `tags = []` fails a non-empty one.
- **Insertion order.** `Object.values` lists string keys in insertion order, except that
  keys that look like array indices come first. Generated UUIDs never look like that, so
  each store keeps a `seq<string>` of ids in insertion order beside its map. Query results
  are exact subsequences of that order; message results are subsequences of the log.
- **Ids and clock.** `crypto.randomUUID()` becomes an `id` parameter that must not
  already be a key. `new Date().toISOString()` becomes a natural-number `Timestamp`
  parameter. `addImplementationDetails` reads the clock twice, once for the note and
  once for `updatedAt`, so it takes two parameters.

Three behaviours of the code are easy to misread, and the model keeps them as written:

- A task whose `tags` is unset passes a non-empty tag filter, because the tag clause
  only runs when the task has a `tags` array (src/task-manager.ts:81).
- A message gets a recipient only when both target fields are non-empty, not merely
  present (src/code-sync-manager.ts:61).
- The comments at src/task-manager.ts:65,70,75,80 say each filter is matched "if
  provided". For `assignedTo` an empty string counts as not provided
  (src/task-manager.ts:76).

## Model

| member | source | states |
|---|---|---|
| `Schemas.Truthy` | src/task-manager.ts:76 | an optional string is truthy exactly when it is present and not the empty string, as JavaScript's `if (x)` tests it (also src/code-sync-manager.ts:61) |
| `Schemas.ParseClient` | src/schemas.ts:4-7 | a client parses exactly when both `id` and `type` are present, and it carries those two strings |
| `Schemas.ParseTaskStatus` | src/schemas.ts:16 | a task status is accepted exactly when it is one of pending / in-progress / completed / cancelled, and each name denotes exactly its own status |
| `Schemas.ParsePriority` | src/schemas.ts:17 | a priority is accepted exactly when it is high / medium / low, each name denoting its own priority |
| `Schemas.ParseDetailStatus` | src/schemas.ts:26 | a note status is accepted exactly when it is planning / implemented / needs-review, each name denoting its own status |
| `Schemas.ParseCreateTaskInput` | src/schemas.ts:65-74 | accepted exactly when title, description, a valid status, a valid priority and a valid client are present; the parsed input carries those values and the optional assignedTo, dueDate and tags unchanged; a rejection names at least one field, and names "title" exactly when the title is missing |
| `Schemas.CreateTaskOptionalFieldsIrrelevant` | src/schemas.ts:65-74 | assignedTo, dueDate and tags never decide whether a create-task input is accepted |
| `Schemas.ParseQueryTasksInput` | src/schemas.ts:79-85 | only `client` is required; status and priority, when present, must be valid names; assignedTo and tags pass through unchanged |
| `Schemas.ParseUpdateTaskStatusInput` | src/schemas.ts:90-94 | accepted exactly when taskId, a valid task status and a valid client are present, and carries them |
| `Schemas.ParseAddImplementationDetailsInput` | src/schemas.ts:99-104 | accepted exactly when taskId, details, a valid note status and a valid client are present, and carries them |
| `Schemas.ParseShareCodeSnippetInput` | src/schemas.ts:109-117 | accepted exactly when code, language and a valid client are present; fileName, description, context and taskId pass through unchanged |
| `Schemas.ParseBroadcastMessageInput` | src/schemas.ts:122-128 | accepted exactly when message and a valid client are present; the two target fields and taskId pass through unchanged |
| `Schemas.BroadcastOptionalFieldsIrrelevant` | src/schemas.ts:122-128 | the two target fields and taskId are independently optional: none of them decides acceptance |
| `Collections.Filter` | src/task-manager.ts:64-88 | `filter` returns at most as many elements as it is given, holds exactly the given elements that pass, and every element it returns passes |
| `Collections.FilterAppend` | src/code-sync-manager.ts:110-112 | filtering a concatenation is the concatenation of the filtered parts, so order is kept |
| `Collections.ValuesInOrder` | src/task-manager.ts:64 | `Object.values` of a record: the value of each key, in the order the keys were inserted, one value per key (also src/code-sync-manager.ts:96) |
| `Collections.ValuesAreStored` | src/task-manager.ts:64 | `Object.values` lists every stored value and nothing else |
| `Collections.ValuesAfterInsert` | src/task-manager.ts:45 | storing under a fresh key keeps the key order well formed and appends the value at the end of `Object.values` |
| `Collections.ValuesAfterOverwrite` | src/task-manager.ts:112 | overwriting a stored key leaves its place in `Object.values` unchanged and replaces only that value |
| `TaskStore.Matches` | src/task-manager.ts:64-88 | the `queryTasks` callback: status equal if a status filter is given, priority equal if given, `assignedTo` equal if the filter is truthy, and, when the tag filter is non-empty and the task has a `tags` array, at least one tag shared; so with every filter off an untagged task matches, a match agrees with a given status, and `tags = []` fails a non-empty tag filter |
| `TaskStore.NotesOf` | src/task-manager.ts:137-139 | a task's notes, with a missing list read as the empty list: there are none exactly when the list is missing or empty |
| `TaskStore.QueryIgnoresClient` | src/task-manager.ts:58-88 | the query result does not depend on the caller's client |
| `TaskStore.QueryWithoutFiltersReturnsAll` | src/task-manager.ts:64-88 | with no status, no priority, a falsy assignedTo and no non-empty tag list, every stored task is returned in store order |
| `TaskStore.UntaggedTaskPassesTagFilter` | src/task-manager.ts:81-85 | a task with no `tags` array is judged as if there were no tag filter |
| `TaskStore.EmptyTagArrayFailsTagFilter` | src/task-manager.ts:81-85 | a task whose `tags` is `[]` fails every non-empty tag filter |
| `TaskStore.EmptyAssigneeIsWildcard` | src/task-manager.ts:76-78 | an empty `assignedTo` filter behaves exactly like an absent one |
| `TaskStore.QueryAfterAppend` | src/task-manager.ts:45 | a newly created task appears after every earlier result, exactly when it matches |
| `TaskStore.QueryAfterReplace` | src/task-manager.ts:108-112 | a task updated in place enters or leaves a query result only at its own position |
| `TaskStore.PropertyAsWritten` | src/task-manager.ts:169-172 | the record lookup as written is `undefined` exactly for keys that are neither stored nor inherited from `Object.prototype`, and yields the stored task for stored keys |
| `TaskStore.GuardPassesAsWritten` | src/task-manager.ts:169-172 | the `if (!task)` guard as written (also :103 and :132): it passes exactly for the stored keys and the names inherited from `Object.prototype` |
| `TaskStore.InheritedNameEscapesNotFound` | src/task-manager.ts:102-105 | on an empty store the id "toString" is not stored, yet passes the not-found guard |
| `TaskStore.Lookup` | src/task-manager.ts:169-172 | the corrected lookup succeeds exactly for stored ids, with the stored task, and otherwise fails with not-found for that id |
| `TaskStore.LookupAgreesAwayFromPrototype` | src/task-manager.ts:131-134 | away from inherited names the corrected lookup and the guard as written accept the same ids and return the same task |
| `TaskStore.TaskManager.constructor` | src/task-manager.ts:17 | a new store is empty |
| `TaskStore.TaskManager.CreateTask` | src/task-manager.ts:24-51 | a rejected input changes nothing; otherwise exactly one task is added under the fresh id, with title, description, status, priority, assignedTo, dueDate and tags copied, createdBy the client, createdAt = updatedAt = now and no notes; older tasks are unchanged and the new one is listed last |
| `TaskStore.TaskManager.QueryTasks` | src/task-manager.ts:58-89 | changes nothing; returns exactly the stored tasks that pass every given filter, in insertion order |
| `TaskStore.TaskManager.UpdateTaskStatus` | src/task-manager.ts:96-118 | a rejected input or an unknown id changes nothing (the latter fails with not-found); otherwise only that task's status and updatedAt change, the client is not recorded, and the task keeps its place in `Object.values` |
| `TaskStore.TaskManager.AddImplementationDetails` | src/task-manager.ts:125-158 | a rejected input or an unknown id changes nothing; otherwise the task's notes become the old notes (missing read as empty) plus one note with the details, status, client and note time, earlier notes kept in place, only the notes and updatedAt change, and the task keeps its place in `Object.values` |
| `TaskStore.TaskManager.GetTask` | src/task-manager.ts:165-175 | succeeds exactly for stored ids, returning the stored task whose own id is that id; otherwise fails with not-found |
| `TaskStore.TaskLifecycleScenario` | src/task-manager.ts:24-118 | create a pending task, query without filters, complete it: a "completed" query then returns it and a "pending" query returns nothing |
| `CollabStore.Recipient` | src/code-sync-manager.ts:60-66 | a recipient exists exactly when both target fields are present and non-empty, and it is that id and type |
| `CollabStore.VisibleTo` | src/code-sync-manager.ts:125-129 | the routing rule: a message is visible to `(id, type)` when its recipient has exactly that id and type, or when it has no recipient; a directed message is visible only to its own recipient |
| `CollabStore.BroadcastReachesEveryone` | src/code-sync-manager.ts:125-129 | a broadcast in the log is visible to every `(id, type)` pair, its sender included |
| `CollabStore.DirectedReachesOnlyRecipient` | src/code-sync-manager.ts:125-129 | a directed message is visible to a pair exactly when both id and type equal its recipient's |
| `CollabStore.InboxAfterSend` | src/code-sync-manager.ts:125-129 | appending a message extends exactly the inboxes that can see it, at their end |
| `CollabStore.ThreadAfterSend` | src/code-sync-manager.ts:110-112 | appending a message extends the thread of its own task only, at its end |
| `CollabStore.SentMessageRouting` | src/code-sync-manager.ts:60-77 | a sent message lands at the end of a pair's inbox exactly when a target field is falsy, or both are truthy and name that pair |
| `CollabStore.SnippetsAfterShare` | src/code-sync-manager.ts:96-98 | a newly shared snippet is listed after the earlier ones for its task only |
| `CollabStore.CodeSyncManager.constructor` | src/code-sync-manager.ts:14-15 | a new store has no snippets and an empty log |
| `CollabStore.CodeSyncManager.ShareCodeSnippet` | src/code-sync-manager.ts:22-47 | a rejected input changes nothing; otherwise exactly one snippet is added under the fresh id with its fields copied, createdBy the client and createdAt = updatedAt = now, taskId stored unchecked, other snippets and the log unchanged |
| `CollabStore.CodeSyncManager.BroadcastMessage` | src/code-sync-manager.ts:54-85 | a rejected input changes nothing; otherwise exactly one message is appended to the log, from the caller, to the recipient built from the targets, and the snippets are untouched |
| `CollabStore.CodeSyncManager.GetSnippetsForTask` | src/code-sync-manager.ts:92-99 | changes nothing; returns exactly the stored snippets whose taskId equals the argument, in insertion order, never one without a taskId |
| `CollabStore.CodeSyncManager.GetMessagesForTask` | src/code-sync-manager.ts:106-113 | changes nothing; returns the subsequence of the log whose taskId equals the argument |
| `CollabStore.CodeSyncManager.GetMessagesForClient` | src/code-sync-manager.ts:121-130 | changes nothing; returns the subsequence of the log addressed to exactly this `(id, type)` or to nobody |
| `CollabStore.SnippetScenario` | src/code-sync-manager.ts:22-99 | a snippet shared for "T1" is the only snippet of "T1", and "T2" has none |
| `CollabStore.RoutingScenario` | src/code-sync-manager.ts:54-130 | a message to ("b", "ide") reaches that pair only; one with an empty target type reaches every pair, its sender included |

## Findings

| source | as written | input that shows it | evidently intended | confidence | as-written member | corrected member |
|---|---|---|---|---|---|---|
| src/task-manager.ts:169-172 | `this.tasks[taskId]` reads a record created as `{}`, and `if (!task)` rejects only `undefined`; the same lookup guards `updateTaskStatus` (102-105) and `addImplementationDetails` (131-134) | taskId "toString" on an empty store: the lookup yields the inherited `Object.prototype.toString`, which is truthy, so no not-found error is raised (and the two update paths then write onto that function and store it under "toString") | not-found for every id that is not a stored task | high; not executed | `TaskStore.InheritedNameEscapesNotFound` (over `TaskStore.PropertyAsWritten`) | `TaskStore.Lookup`, used by `GetTask`, `UpdateTaskStatus` and `AddImplementationDetails` |

## Left out

- MCP tool registration, parameter maps, JSON response envelopes and the error-to-payload glue of `src/index.ts`: wiring around the two stores.
- HTTP routing, Durable Object storage and the commented-out persistence calls: I/O.
- `crypto.randomUUID()` and `new Date().toISOString()`: foreign calls, replaced by parameters. UUID format and the ISO-8601 `datetime` refinement of the timestamp fields are not modelled.
- zod's handling of values of the wrong primitive type (a number where a string is expected) and of unknown extra keys: untyped fields are modelled only as present or missing.
- `async`/`Promise` wrapping: every body runs synchronously, with no concurrency.
- Object aliasing: the source returns the stored task object itself, so later updates show through earlier results. The model returns and stores values.
- `updatedAt >= createdAt` is not an invariant: it holds only if the host clock never goes backwards, which the code does not check.
- The as-written behaviour of the two update paths once an inherited id has passed the guard is not modelled beyond the guard itself, because the model uses the corrected lookup. For a function-valued name such as "toString", they write `status`, `updatedAt` and notes onto that shared built-in function and then store it as an own key. For "__proto__", the lookup yields `Object.prototype` itself: the writes land on the prototype, so every object inherits them, and the store assignment goes through the `__proto__` setter without creating a key.
- `TaskStore.TaskManager.CreateTask`, `CollabStore.CodeSyncManager.ShareCodeSnippet` and `Collections.ValuesAfterInsert`: the fresh id may be any string that is not yet a key, but the promise that its value is listed last in `Object.values` holds only for ids shaped like the UUIDs `crypto.randomUUID()` produces. JavaScript lists an array-index-like key such as "0" first, and an assignment under "__proto__" goes through the prototype setter and creates no key at all.
