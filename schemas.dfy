/** Record shapes and enumerations of the sync bridge, and the validation that the
    zod schemas perform on untyped input at the start of the six store operations
    that take an input record (createTask, queryTasks, updateTaskStatus,
    addImplementationDetails, shareCodeSnippet, broadcastMessage). */
module Schemas {

  datatype Option<T> = None | Some(value: T)

  datatype Result<T, E> = Success(value: T) | Failure(error: E)

  /** JavaScript truthiness of an optional string: both `undefined` and "" are falsy. */
  predicate Truthy(s: Option<string>): (b: bool)
    ensures b <==> s != None && s != Some("")
  {
    s.Some? && s.value != ""
  }

  /** Timestamps are abstract clock readings; their ISO-8601 rendering is not modelled. */
  type Timestamp = nat

  /** A caller identity. The source field `type` is a reserved word here. */
  datatype Client = Client(id: string, clientType: string)

  datatype TaskStatus = Pending | InProgress | Completed | Cancelled

  datatype Priority = High | Medium | Low

  datatype DetailStatus = Planning | Implemented | NeedsReview

  const TaskStatusNames: set<string> := {"pending", "in-progress", "completed", "cancelled"}
  const PriorityNames: set<string> := {"high", "medium", "low"}
  const DetailStatusNames: set<string> := {"planning", "implemented", "needs-review"}

  function TaskStatusName(s: TaskStatus): string {
    match s
    case Pending => "pending"
    case InProgress => "in-progress"
    case Completed => "completed"
    case Cancelled => "cancelled"
  }

  function PriorityName(p: Priority): string {
    match p
    case High => "high"
    case Medium => "medium"
    case Low => "low"
  }

  function DetailStatusName(s: DetailStatus): string {
    match s
    case Planning => "planning"
    case Implemented => "implemented"
    case NeedsReview => "needs-review"
  }

  /** `z.enum(["pending", "in-progress", "completed", "cancelled"])`: accepts exactly the
      four names, each denoting its own status. */
  function ParseTaskStatus(s: string): (r: Option<TaskStatus>)
    ensures r.Some? <==> s in TaskStatusNames
    ensures forall st :: r == Some(st) <==> s == TaskStatusName(st)
  {
    if s == "pending" then Some(Pending)
    else if s == "in-progress" then Some(InProgress)
    else if s == "completed" then Some(Completed)
    else if s == "cancelled" then Some(Cancelled)
    else None
  }

  /** `z.enum(["high", "medium", "low"])`. */
  function ParsePriority(s: string): (r: Option<Priority>)
    ensures r.Some? <==> s in PriorityNames
    ensures forall p :: r == Some(p) <==> s == PriorityName(p)
  {
    if s == "high" then Some(High)
    else if s == "medium" then Some(Medium)
    else if s == "low" then Some(Low)
    else None
  }

  /** `z.enum(["planning", "implemented", "needs-review"])`. */
  function ParseDetailStatus(s: string): (r: Option<DetailStatus>)
    ensures r.Some? <==> s in DetailStatusNames
    ensures forall st :: r == Some(st) <==> s == DetailStatusName(st)
  {
    if s == "planning" then Some(Planning)
    else if s == "implemented" then Some(Implemented)
    else if s == "needs-review" then Some(NeedsReview)
    else None
  }

  /** One progress note on a task; notes are only ever appended. */
  datatype DetailNote = DetailNote(details: string, status: DetailStatus, createdBy: Client, createdAt: Timestamp)

  /** A stored task. The manager always sets `id`, `createdAt` and `updatedAt`, so they are
      not optional here; the notes list is optional, as in the schema. */
  datatype Task = Task(
    id: string,
    title: string,
    description: string,
    status: TaskStatus,
    priority: Priority,
    createdBy: Client,
    assignedTo: Option<string>,
    dueDate: Option<string>,
    tags: Option<seq<string>>,
    createdAt: Timestamp,
    updatedAt: Timestamp,
    implementationDetails: Option<seq<DetailNote>>)

  datatype CodeSnippet = CodeSnippet(
    id: string,
    code: string,
    language: string,
    fileName: Option<string>,
    description: Option<string>,
    context: Option<string>,
    taskId: Option<string>,
    createdBy: Client,
    createdAt: Timestamp,
    updatedAt: Timestamp)

  /** A message; an absent `toClient` makes it a broadcast. */
  datatype Message = Message(
    id: string,
    message: string,
    fromClient: Client,
    toClient: Option<Client>,
    taskId: Option<string>,
    timestamp: Timestamp)

  // Validated inputs of the store operations.

  datatype CreateTaskInput = CreateTaskInput(
    title: string, description: string, status: TaskStatus, priority: Priority, client: Client,
    assignedTo: Option<string>, dueDate: Option<string>, tags: Option<seq<string>>)

  datatype QueryTasksInput = QueryTasksInput(
    client: Client, status: Option<TaskStatus>, priority: Option<Priority>,
    assignedTo: Option<string>, tags: Option<seq<string>>)

  datatype UpdateTaskStatusInput = UpdateTaskStatusInput(taskId: string, status: TaskStatus, client: Client)

  datatype AddImplementationDetailsInput = AddImplementationDetailsInput(
    taskId: string, details: string, status: DetailStatus, client: Client)

  datatype ShareCodeSnippetInput = ShareCodeSnippetInput(
    code: string, language: string, client: Client, fileName: Option<string>,
    description: Option<string>, context: Option<string>, taskId: Option<string>)

  datatype BroadcastMessageInput = BroadcastMessageInput(
    message: string, client: Client, targetClientId: Option<string>,
    targetClientType: Option<string>, taskId: Option<string>)

  // Untyped inputs as they reach `schema.parse`: any field may be missing, and an
  // enumeration arrives as a string. Values of the wrong primitive type are not modelled.

  datatype RawClient = RawClient(id: Option<string>, clientType: Option<string>)

  datatype RawCreateTaskInput = RawCreateTaskInput(
    title: Option<string>, description: Option<string>, status: Option<string>,
    priority: Option<string>, client: Option<RawClient>,
    assignedTo: Option<string>, dueDate: Option<string>, tags: Option<seq<string>>)

  datatype RawQueryTasksInput = RawQueryTasksInput(
    client: Option<RawClient>, status: Option<string>, priority: Option<string>,
    assignedTo: Option<string>, tags: Option<seq<string>>)

  datatype RawUpdateTaskStatusInput = RawUpdateTaskStatusInput(
    taskId: Option<string>, status: Option<string>, client: Option<RawClient>)

  datatype RawAddImplementationDetailsInput = RawAddImplementationDetailsInput(
    taskId: Option<string>, details: Option<string>, status: Option<string>, client: Option<RawClient>)

  datatype RawShareCodeSnippetInput = RawShareCodeSnippetInput(
    code: Option<string>, language: Option<string>, client: Option<RawClient>,
    fileName: Option<string>, description: Option<string>, context: Option<string>,
    taskId: Option<string>)

  datatype RawBroadcastMessageInput = RawBroadcastMessageInput(
    message: Option<string>, client: Option<RawClient>, targetClientId: Option<string>,
    targetClientType: Option<string>, taskId: Option<string>)

  /** A rejected input, with the path of every offending field (as zod reports all issues). */
  datatype ValidationError = ValidationError(issues: seq<string>)

  // Validity of each untyped input record: its required fields are present and its
  // enumerations hold one of their names; optional fields never make an input invalid.

  predicate ValidClient(c: Option<RawClient>) {
    c.Some? && c.value.id.Some? && c.value.clientType.Some?
  }

  predicate ValidCreateTaskInput(raw: RawCreateTaskInput) {
    && raw.title.Some?
    && raw.description.Some?
    && raw.status.Some? && raw.status.value in TaskStatusNames
    && raw.priority.Some? && raw.priority.value in PriorityNames
    && ValidClient(raw.client)
  }

  predicate ValidQueryTasksInput(raw: RawQueryTasksInput) {
    && ValidClient(raw.client)
    && (raw.status.Some? ==> raw.status.value in TaskStatusNames)
    && (raw.priority.Some? ==> raw.priority.value in PriorityNames)
  }

  predicate ValidUpdateTaskStatusInput(raw: RawUpdateTaskStatusInput) {
    && raw.taskId.Some?
    && raw.status.Some? && raw.status.value in TaskStatusNames
    && ValidClient(raw.client)
  }

  predicate ValidAddImplementationDetailsInput(raw: RawAddImplementationDetailsInput) {
    && raw.taskId.Some?
    && raw.details.Some?
    && raw.status.Some? && raw.status.value in DetailStatusNames
    && ValidClient(raw.client)
  }

  predicate ValidShareCodeSnippetInput(raw: RawShareCodeSnippetInput) {
    raw.code.Some? && raw.language.Some? && ValidClient(raw.client)
  }

  predicate ValidBroadcastMessageInput(raw: RawBroadcastMessageInput) {
    raw.message.Some? && ValidClient(raw.client)
  }

  // The issue collectors that the parsers below run field by field.

  function Required<T>(path: string, v: Option<T>): seq<string> {
    if v.Some? then [] else [path]
  }

  function RequiredMember(path: string, v: Option<string>, names: set<string>): seq<string> {
    if v.Some? && v.value in names then [] else [path]
  }

  function OptionalMember(path: string, v: Option<string>, names: set<string>): seq<string> {
    if v.None? || v.value in names then [] else [path]
  }

  function ClientIssues(c: Option<RawClient>): seq<string> {
    match c
    case None => ["client"]
    case Some(rc) => Required("client.id", rc.id) + Required("client.type", rc.clientType)
  }

  function ClientOf(c: Option<RawClient>): Client
    requires ValidClient(c)
  {
    Client(c.value.id.value, c.value.clientType.value)
  }

  /** `clientSchema.parse`: both `id` and `type` are required strings. */
  function ParseClient(c: Option<RawClient>): (r: Result<Client, ValidationError>)
    ensures r.Success? <==> ValidClient(c)
    ensures r.Success? ==> r.value.id == c.value.id.value && r.value.clientType == c.value.clientType.value
    ensures r.Failure? ==> r.error.issues != []
  {
    var issues := ClientIssues(c);
    if issues != [] then Failure(ValidationError(issues)) else Success(ClientOf(c))
  }

  /** `createTaskInputSchema.parse`. */
  function ParseCreateTaskInput(raw: RawCreateTaskInput): (r: Result<CreateTaskInput, ValidationError>)
    ensures r.Success? <==> ValidCreateTaskInput(raw)
    ensures r.Success? ==>
      && r.value.title == raw.title.value
      && r.value.description == raw.description.value
      && TaskStatusName(r.value.status) == raw.status.value
      && PriorityName(r.value.priority) == raw.priority.value
      && ParseClient(raw.client) == Success(r.value.client)
      && r.value.assignedTo == raw.assignedTo
      && r.value.dueDate == raw.dueDate
      && r.value.tags == raw.tags
    ensures r.Failure? ==> r.error.issues != [] && ("title" in r.error.issues <==> raw.title.None?)
  {
    var issues :=
      Required("title", raw.title) + Required("description", raw.description)
      + RequiredMember("status", raw.status, TaskStatusNames)
      + RequiredMember("priority", raw.priority, PriorityNames)
      + ClientIssues(raw.client);
    if issues != [] then Failure(ValidationError(issues))
    else
      Success(CreateTaskInput(
        raw.title.value, raw.description.value,
        ParseTaskStatus(raw.status.value).value, ParsePriority(raw.priority.value).value,
        ClientOf(raw.client), raw.assignedTo, raw.dueDate, raw.tags))
  }

  /** `queryTasksInputSchema.parse`: only `client` is required. */
  function ParseQueryTasksInput(raw: RawQueryTasksInput): (r: Result<QueryTasksInput, ValidationError>)
    ensures r.Success? <==> ValidQueryTasksInput(raw)
    ensures r.Success? ==>
      && ParseClient(raw.client) == Success(r.value.client)
      && (r.value.status.Some? <==> raw.status.Some?)
      && (r.value.status.Some? ==> TaskStatusName(r.value.status.value) == raw.status.value)
      && (r.value.priority.Some? <==> raw.priority.Some?)
      && (r.value.priority.Some? ==> PriorityName(r.value.priority.value) == raw.priority.value)
      && r.value.assignedTo == raw.assignedTo
      && r.value.tags == raw.tags
    ensures r.Failure? ==> r.error.issues != []
  {
    var issues :=
      ClientIssues(raw.client)
      + OptionalMember("status", raw.status, TaskStatusNames)
      + OptionalMember("priority", raw.priority, PriorityNames);
    if issues != [] then Failure(ValidationError(issues))
    else
      Success(QueryTasksInput(
        ClientOf(raw.client),
        if raw.status.Some? then ParseTaskStatus(raw.status.value) else None,
        if raw.priority.Some? then ParsePriority(raw.priority.value) else None,
        raw.assignedTo, raw.tags))
  }

  /** `updateTaskStatusInputSchema.parse`. */
  function ParseUpdateTaskStatusInput(raw: RawUpdateTaskStatusInput): (r: Result<UpdateTaskStatusInput, ValidationError>)
    ensures r.Success? <==> ValidUpdateTaskStatusInput(raw)
    ensures r.Success? ==>
      && r.value.taskId == raw.taskId.value
      && TaskStatusName(r.value.status) == raw.status.value
      && ParseClient(raw.client) == Success(r.value.client)
    ensures r.Failure? ==> r.error.issues != []
  {
    var issues :=
      Required("taskId", raw.taskId)
      + RequiredMember("status", raw.status, TaskStatusNames)
      + ClientIssues(raw.client);
    if issues != [] then Failure(ValidationError(issues))
    else
      Success(UpdateTaskStatusInput(
        raw.taskId.value, ParseTaskStatus(raw.status.value).value, ClientOf(raw.client)))
  }

  /** `addImplementationDetailsInputSchema.parse`. */
  function ParseAddImplementationDetailsInput(raw: RawAddImplementationDetailsInput)
    : (r: Result<AddImplementationDetailsInput, ValidationError>)
    ensures r.Success? <==> ValidAddImplementationDetailsInput(raw)
    ensures r.Success? ==>
      && r.value.taskId == raw.taskId.value
      && r.value.details == raw.details.value
      && DetailStatusName(r.value.status) == raw.status.value
      && ParseClient(raw.client) == Success(r.value.client)
    ensures r.Failure? ==> r.error.issues != []
  {
    var issues :=
      Required("taskId", raw.taskId) + Required("details", raw.details)
      + RequiredMember("status", raw.status, DetailStatusNames)
      + ClientIssues(raw.client);
    if issues != [] then Failure(ValidationError(issues))
    else
      Success(AddImplementationDetailsInput(
        raw.taskId.value, raw.details.value,
        ParseDetailStatus(raw.status.value).value, ClientOf(raw.client)))
  }

  /** `shareCodeSnippetInputSchema.parse`. */
  function ParseShareCodeSnippetInput(raw: RawShareCodeSnippetInput): (r: Result<ShareCodeSnippetInput, ValidationError>)
    ensures r.Success? <==> ValidShareCodeSnippetInput(raw)
    ensures r.Success? ==>
      && r.value.code == raw.code.value
      && r.value.language == raw.language.value
      && ParseClient(raw.client) == Success(r.value.client)
      && r.value.fileName == raw.fileName
      && r.value.description == raw.description
      && r.value.context == raw.context
      && r.value.taskId == raw.taskId
    ensures r.Failure? ==> r.error.issues != []
  {
    var issues := Required("code", raw.code) + Required("language", raw.language) + ClientIssues(raw.client);
    if issues != [] then Failure(ValidationError(issues))
    else
      Success(ShareCodeSnippetInput(
        raw.code.value, raw.language.value, ClientOf(raw.client),
        raw.fileName, raw.description, raw.context, raw.taskId))
  }

  /** `broadcastMessageInputSchema.parse`: both target fields are independently optional. */
  function ParseBroadcastMessageInput(raw: RawBroadcastMessageInput): (r: Result<BroadcastMessageInput, ValidationError>)
    ensures r.Success? <==> ValidBroadcastMessageInput(raw)
    ensures r.Success? ==>
      && r.value.message == raw.message.value
      && ParseClient(raw.client) == Success(r.value.client)
      && r.value.targetClientId == raw.targetClientId
      && r.value.targetClientType == raw.targetClientType
      && r.value.taskId == raw.taskId
    ensures r.Failure? ==> r.error.issues != []
  {
    var issues := Required("message", raw.message) + ClientIssues(raw.client);
    if issues != [] then Failure(ValidationError(issues))
    else
      Success(BroadcastMessageInput(
        raw.message.value, ClientOf(raw.client),
        raw.targetClientId, raw.targetClientType, raw.taskId))
  }

  /** Whether a create-task input is accepted never depends on its optional fields. */
  lemma CreateTaskOptionalFieldsIrrelevant(raw: RawCreateTaskInput, assignedTo: Option<string>,
                                           dueDate: Option<string>, tags: Option<seq<string>>)
    ensures ParseCreateTaskInput(raw).Success?
        <==> ParseCreateTaskInput(raw.(assignedTo := assignedTo, dueDate := dueDate, tags := tags)).Success?
  {
  }

  /** Whether a broadcast input is accepted never depends on its target or task fields. */
  lemma BroadcastOptionalFieldsIrrelevant(raw: RawBroadcastMessageInput, targetId: Option<string>,
                                          targetType: Option<string>, taskId: Option<string>)
    ensures ParseBroadcastMessageInput(raw).Success?
        <==> ParseBroadcastMessageInput(raw.(targetClientId := targetId, targetClientType := targetType, taskId := taskId)).Success?
  {
  }
}
