/** The task store: a record of tasks keyed by id, with creation, filtered query,
    status overwrite, append-only implementation notes and lookup by id. */
module TaskStore {
  import opened Schemas
  import opened Collections

  datatype TaskError = Invalid(validation: ValidationError) | NotFound(taskId: string)

  /** `task.tags.some(tag => filterTags.includes(tag))`. */
  predicate SharesTag(taskTags: seq<string>, filterTags: seq<string>) {
    exists tag :: tag in taskTags && tag in filterTags
  }

  /** The callback that `queryTasks` passes to `filter`. Each clause is guarded by the
      truthiness of its filter, and the tag clause also by the task having a `tags` array. */
  predicate Matches(q: QueryTasksInput, t: Task): (b: bool)
    ensures q.status.None? && q.priority.None? && !Truthy(q.assignedTo) && t.tags.None? ==> b
    ensures b && q.status.Some? ==> t.status == q.status.value
    ensures q.tags.Some? && |q.tags.value| > 0 && t.tags == Some([]) ==> !b
  {
    && (q.status.Some? ==> t.status == q.status.value)
    && (q.priority.Some? ==> t.priority == q.priority.value)
    && (Truthy(q.assignedTo) ==> t.assignedTo == q.assignedTo)
    && (q.tags.Some? && |q.tags.value| > 0 && t.tags.Some? ==> SharesTag(t.tags.value, q.tags.value))
  }

  function Matcher(q: QueryTasksInput): Task -> bool {
    t => Matches(q, t)
  }

  /** What `queryTasks` returns for the stored tasks `values` (in `Object.values` order). */
  function QueryResult(values: seq<Task>, q: QueryTasksInput): seq<Task> {
    Filter(Matcher(q), values)
  }

  /** A task's notes, with a missing list read as empty. */
  function NotesOf(t: Task): (r: seq<DetailNote>)
    ensures r == [] <==> t.implementationDetails == None || t.implementationDetails == Some([])
  {
    if t.implementationDetails.Some? then t.implementationDetails.value else []
  }

  /** The query never reads the caller's identity. */
  lemma {:induction false} QueryIgnoresClient(values: seq<Task>, q: QueryTasksInput, c: Client)
    ensures QueryResult(values, q.(client := c)) == QueryResult(values, q)
  {
    FilterCongruent(Matcher(q.(client := c)), Matcher(q), values);
  }

  /** With no status or priority, a falsy `assignedTo` and no non-empty tag list, every
      stored task is returned, in store order. */
  lemma {:induction false} QueryWithoutFiltersReturnsAll(values: seq<Task>, q: QueryTasksInput)
    requires q.status.None? && q.priority.None? && !Truthy(q.assignedTo)
    requires q.tags.None? || q.tags.value == []
    ensures QueryResult(values, q) == values
  {
    FilterAllPass(Matcher(q), values);
  }

  /** A task without a `tags` array is never rejected by the tag filter. */
  lemma UntaggedTaskPassesTagFilter(q: QueryTasksInput, t: Task)
    requires t.tags.None?
    ensures Matches(q, t) <==> Matches(q.(tags := None), t)
  {
  }

  /** A task whose `tags` array is empty fails every non-empty tag filter. */
  lemma EmptyTagArrayFailsTagFilter(q: QueryTasksInput, t: Task)
    requires t.tags == Some([])
    requires q.tags.Some? && q.tags.value != []
    ensures !Matches(q, t)
  {
  }

  /** An empty `assignedTo` filter is a wildcard, as an absent one is. */
  lemma EmptyAssigneeIsWildcard(q: QueryTasksInput, t: Task)
    requires q.assignedTo == Some("")
    ensures Matches(q, t) <==> Matches(q.(assignedTo := None), t)
  {
  }

  /** A newly stored task is listed after all earlier results, if it matches. */
  lemma {:induction false} QueryAfterAppend(values: seq<Task>, q: QueryTasksInput, t: Task)
    ensures QueryResult(values + [t], q) == QueryResult(values, q) + (if Matches(q, t) then [t] else [])
  {
    FilterAppend(Matcher(q), values, [t]);
    FilterOne(Matcher(q), t);
  }

  /** An overwritten task keeps its place: it enters or leaves the result there only. */
  lemma {:induction false} QueryAfterReplace(values: seq<Task>, q: QueryTasksInput, i: nat, t: Task)
    requires i < |values|
    ensures QueryResult(values[i := t], q) ==
      QueryResult(values[..i], q) + (if Matches(q, t) then [t] else []) + QueryResult(values[i + 1..], q)
  {
    FilterReplace(Matcher(q), values, i, t);
  }

  // Lookup by id, as the three `this.tasks[taskId]` reads are written and as intended.

  /** Property names that every `{}` literal inherits from `Object.prototype`; each of
      them reads as a function or object, which is truthy. */
  const InheritedNames: set<string> := {
    "constructor", "hasOwnProperty", "isPrototypeOf", "propertyIsEnumerable",
    "toLocaleString", "toString", "valueOf", "__proto__",
    "__defineGetter__", "__defineSetter__", "__lookupGetter__", "__lookupSetter__"
  }

  datatype PropertyValue = OwnTask(task: Task) | InheritedMember(name: string) | Undefined

  /** `this.tasks[key]` on a record created as `{}`: own keys first, then the prototype. */
  function PropertyAsWritten(tasks: map<string, Task>, key: string): (r: PropertyValue)
    ensures r.Undefined? <==> key !in tasks && key !in InheritedNames
    ensures r.OwnTask? <==> key in tasks
    ensures r.OwnTask? ==> r.task == tasks[key]
  {
    if key in tasks then OwnTask(tasks[key])
    else if key in InheritedNames then InheritedMember(key)
    else Undefined
  }

  /** The `if (!task) throw` guard as written: it only rejects `undefined`. */
  predicate GuardPassesAsWritten(tasks: map<string, Task>, key: string): (b: bool)
    ensures b <==> key in tasks || key in InheritedNames
  {
    !PropertyAsWritten(tasks, key).Undefined?
  }

  /** An empty store lets the id "toString" past the not-found guard. */
  lemma InheritedNameEscapesNotFound()
    ensures var empty: map<string, Task> := map[];
      "toString" !in empty && GuardPassesAsWritten(empty, "toString")
  {
  }

  /** The lookup the rest of the model uses: a task is found exactly when it is stored. */
  function Lookup(tasks: map<string, Task>, key: string): (r: Result<Task, TaskError>)
    ensures r.Success? <==> key in tasks
    ensures r.Success? ==> r.value == tasks[key]
    ensures r.Failure? ==> r.error == NotFound(key)
  {
    if key in tasks then Success(tasks[key]) else Failure(NotFound(key))
  }

  /** The two lookups agree on every id that is not an inherited property name. */
  lemma LookupAgreesAwayFromPrototype(tasks: map<string, Task>, key: string)
    requires key !in InheritedNames
    ensures Lookup(tasks, key).Success? <==> GuardPassesAsWritten(tasks, key)
    ensures Lookup(tasks, key).Success? ==> PropertyAsWritten(tasks, key) == OwnTask(Lookup(tasks, key).value)
  {
  }

  class TaskManager {
    /** The `tasks` record, and the order in which its keys were inserted. */
    var tasks: map<string, Task>
    var order: seq<string>

    ghost predicate Valid()
      reads this
    {
      && KeyOrder(tasks, order)
      && forall k :: k in tasks ==> tasks[k].id == k
    }

    /** `Object.values(this.tasks)`. */
    function Values(): seq<Task>
      reads this
      requires Valid()
    {
      ValuesInOrder(tasks, order)
    }

    constructor ()
      ensures Valid() && tasks == map[] && order == []
    {
      tasks := map[];
      order := [];
    }

    /** `createTask`, with the generated id and the clock reading passed in. */
    method CreateTask(raw: RawCreateTaskInput, id: string, now: Timestamp) returns (r: Result<Task, TaskError>)
      requires Valid()
      requires id !in tasks
      modifies this
      ensures Valid()
      ensures ParseCreateTaskInput(raw).Failure? ==>
        && r == Failure(Invalid(ParseCreateTaskInput(raw).error))
        && tasks == old(tasks) && order == old(order)
      ensures ParseCreateTaskInput(raw).Success? ==>
        var input := ParseCreateTaskInput(raw).value;
        && r == Success(Task(id, input.title, input.description, input.status, input.priority,
                             input.client, input.assignedTo, input.dueDate, input.tags,
                             now, now, Some([])))
        && tasks == old(tasks)[id := r.value]
        && order == old(order) + [id]
        && Values() == old(Values()) + [r.value]
    {
      var parsed := ParseCreateTaskInput(raw);
      if parsed.Failure? {
        return Failure(Invalid(parsed.error));
      }
      var input := parsed.value;
      var task := Task(id, input.title, input.description, input.status, input.priority,
                       input.client, input.assignedTo, input.dueDate, input.tags,
                       now, now, Some([]));
      ValuesAfterInsert(tasks, order, id, task);
      tasks := tasks[id := task];
      order := order + [id];
      r := Success(task);
    }

    /** `queryTasks`: the stored tasks that pass every given filter, in insertion order. */
    method QueryTasks(raw: RawQueryTasksInput) returns (r: Result<seq<Task>, TaskError>)
      requires Valid()
      ensures ParseQueryTasksInput(raw).Failure? ==> r == Failure(Invalid(ParseQueryTasksInput(raw).error))
      ensures ParseQueryTasksInput(raw).Success? ==>
        var q := ParseQueryTasksInput(raw).value;
        && r == Success(QueryResult(Values(), q))
        && forall t :: t in r.value <==> t.id in tasks && tasks[t.id] == t && Matches(q, t)
    {
      var parsed := ParseQueryTasksInput(raw);
      if parsed.Failure? {
        return Failure(Invalid(parsed.error));
      }
      var q := parsed.value;
      var result := QueryResult(Values(), q);
      ValuesAreStored(tasks, order);
      forall t ensures t in result <==> t.id in tasks && tasks[t.id] == t && Matches(q, t) {
        if t.id in tasks && tasks[t.id] == t {
          assert t in Values();
        }
        if t in Values() {
          var k :| k in tasks && tasks[k] == t;
          assert k == t.id;
        }
      }
      r := Success(result);
    }

    /** `updateTaskStatus`: overwrites the status and `updatedAt` of a stored task only. */
    method UpdateTaskStatus(raw: RawUpdateTaskStatusInput, now: Timestamp) returns (r: Result<Task, TaskError>)
      requires Valid()
      modifies this
      ensures Valid()
      ensures order == old(order)
      ensures var p := ParseUpdateTaskStatusInput(raw);
        if p.Failure? then
          r == Failure(Invalid(p.error)) && tasks == old(tasks)
        else if p.value.taskId !in old(tasks) then
          r == Failure(NotFound(p.value.taskId)) && tasks == old(tasks)
        else
          var updated := old(tasks)[p.value.taskId].(status := p.value.status, updatedAt := now);
          r == Success(updated) && tasks == old(tasks)[p.value.taskId := updated]
      ensures r.Success? ==>
        forall i :: 0 <= i < |order| && order[i] == r.value.id ==> Values() == old(Values())[i := r.value]
    {
      var parsed := ParseUpdateTaskStatusInput(raw);
      if parsed.Failure? {
        return Failure(Invalid(parsed.error));
      }
      var input := parsed.value;
      var found := Lookup(tasks, input.taskId);
      if found.Failure? {
        return Failure(found.error);
      }
      var updated := found.value.(status := input.status, updatedAt := now);
      forall i | 0 <= i < |order| && order[i] == input.taskId {
        ValuesAfterOverwrite(tasks, order, i, updated);
      }
      tasks := tasks[input.taskId := updated];
      r := Success(updated);
    }

    /** `addImplementationDetails`: appends one note (stamped `noteAt`) to a stored task and
        sets its `updatedAt` to `now`; the source reads the clock once for each. */
    method AddImplementationDetails(raw: RawAddImplementationDetailsInput, noteAt: Timestamp, now: Timestamp)
      returns (r: Result<Task, TaskError>)
      requires Valid()
      modifies this
      ensures Valid()
      ensures order == old(order)
      ensures var p := ParseAddImplementationDetailsInput(raw);
        if p.Failure? then
          r == Failure(Invalid(p.error)) && tasks == old(tasks)
        else if p.value.taskId !in old(tasks) then
          r == Failure(NotFound(p.value.taskId)) && tasks == old(tasks)
        else
          var before := old(tasks)[p.value.taskId];
          var note := DetailNote(p.value.details, p.value.status, p.value.client, noteAt);
          var updated := before.(implementationDetails := Some(NotesOf(before) + [note]), updatedAt := now);
          && r == Success(updated)
          && tasks == old(tasks)[p.value.taskId := updated]
          && |NotesOf(updated)| == |NotesOf(before)| + 1
          && NotesOf(updated)[..|NotesOf(before)|] == NotesOf(before)
      ensures r.Success? ==>
        forall i :: 0 <= i < |order| && order[i] == r.value.id ==> Values() == old(Values())[i := r.value]
    {
      var parsed := ParseAddImplementationDetailsInput(raw);
      if parsed.Failure? {
        return Failure(Invalid(parsed.error));
      }
      var input := parsed.value;
      var found := Lookup(tasks, input.taskId);
      if found.Failure? {
        return Failure(found.error);
      }
      var task := found.value;
      var notes := if task.implementationDetails.None? then [] else task.implementationDetails.value;
      var note := DetailNote(input.details, input.status, input.client, noteAt);
      var updated := task.(implementationDetails := Some(notes + [note]), updatedAt := now);
      assert (notes + [note])[..|notes|] == notes;
      forall i | 0 <= i < |order| && order[i] == input.taskId {
        ValuesAfterOverwrite(tasks, order, i, updated);
      }
      tasks := tasks[input.taskId := updated];
      r := Success(updated);
    }

    /** `getTask`: the stored task under `taskId`, whose own id is `taskId`, or not-found. */
    method GetTask(taskId: string) returns (r: Result<Task, TaskError>)
      requires Valid()
      ensures r.Success? <==> taskId in tasks
      ensures r.Success? ==> r.value == tasks[taskId] && r.value.id == taskId
      ensures r.Failure? ==> r.error == NotFound(taskId)
    {
      r := Lookup(tasks, taskId);
    }
  }

  /** A task's life: created pending, listed by an unfiltered query, completed, then
      found by a "completed" query and no longer by a "pending" one. */
  method TaskLifecycleScenario(id: string, t0: Timestamp, t1: Timestamp)
    returns (all: seq<Task>, completed: seq<Task>, pending: seq<Task>)
    ensures |all| == 1 && all[0].id == id && all[0].title == "T" && all[0].status == Pending
    ensures |completed| == 1 && completed[0].id == id && completed[0].status == Completed
    ensures completed[0].createdAt == t0 && completed[0].updatedAt == t1
    ensures pending == []
  {
    var store := new TaskManager();
    var client := Some(RawClient(Some("a"), Some("agent")));
    var created := store.CreateTask(
      RawCreateTaskInput(Some("T"), Some("D"), Some("pending"), Some("high"), client, None, None, None), id, t0);
    assert store.Values() == [created.value];

    var everything := store.QueryTasks(RawQueryTasksInput(client, None, None, None, None));
    QueryAfterAppend([], ParseQueryTasksInput(RawQueryTasksInput(client, None, None, None, None)).value, created.value);
    all := everything.value;

    var updated := store.UpdateTaskStatus(RawUpdateTaskStatusInput(Some(id), Some("completed"), client), t1);
    assert store.Values() == [updated.value];

    var done := store.QueryTasks(RawQueryTasksInput(client, Some("completed"), None, None, None));
    QueryAfterAppend([], ParseQueryTasksInput(RawQueryTasksInput(client, Some("completed"), None, None, None)).value, updated.value);
    completed := done.value;

    var open := store.QueryTasks(RawQueryTasksInput(client, Some("pending"), None, None, None));
    QueryAfterAppend([], ParseQueryTasksInput(RawQueryTasksInput(client, Some("pending"), None, None, None)).value, updated.value);
    pending := open.value;
  }
}
