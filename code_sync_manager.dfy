/** The collaboration store: shared code snippets keyed by id, and an append-only log of
    messages that are either directed to one `(id, type)` client or broadcast. */
module CollabStore {
  import opened Schemas
  import opened Collections

  /** The `toClient` that `broadcastMessage` builds: a recipient only when both target
      fields are truthy, so an absent or empty one makes the message a broadcast. */
  function Recipient(targetId: Option<string>, targetType: Option<string>): (r: Option<Client>)
    ensures r.Some? <==> targetId.Some? && targetId.value != "" && targetType.Some? && targetType.value != ""
    ensures r.Some? ==> r.value.id == targetId.value && r.value.clientType == targetType.value
  {
    if Truthy(targetId) && Truthy(targetType) then Some(Client(targetId.value, targetType.value)) else None
  }

  /** The routing rule of `getMessagesForClient`: directed to exactly this `(id, type)`
      pair, or directed to nobody. */
  predicate VisibleTo(m: Message, clientId: string, clientType: string): (b: bool)
    ensures m.toClient.None? ==> b
    ensures b && m.toClient.Some? ==> m.toClient.value == Client(clientId, clientType)
  {
    match m.toClient
    case Some(c) => c.id == clientId && c.clientType == clientType
    case None => true
  }

  function ForClient(clientId: string, clientType: string): Message -> bool {
    m => VisibleTo(m, clientId, clientType)
  }

  function ForTask(taskId: string): Message -> bool {
    (m: Message) => m.taskId == Some(taskId)
  }

  function SnippetForTask(taskId: string): CodeSnippet -> bool {
    (s: CodeSnippet) => s.taskId == Some(taskId)
  }

  /** What `getMessagesForClient` returns for the log `log`. */
  function ClientInbox(log: seq<Message>, clientId: string, clientType: string): seq<Message> {
    Filter(ForClient(clientId, clientType), log)
  }

  /** What `getMessagesForTask` returns for the log `log`. */
  function TaskThread(log: seq<Message>, taskId: string): seq<Message> {
    Filter(ForTask(taskId), log)
  }

  /** What `getSnippetsForTask` returns for the stored snippets `values`. */
  function TaskSnippets(values: seq<CodeSnippet>, taskId: string): seq<CodeSnippet> {
    Filter(SnippetForTask(taskId), values)
  }

  /** A broadcast in the log reaches every `(id, type)` pair, its sender's included. */
  lemma BroadcastReachesEveryone(log: seq<Message>, m: Message, clientId: string, clientType: string)
    requires m in log && m.toClient.None?
    ensures m in ClientInbox(log, clientId, clientType)
    ensures m in ClientInbox(log, m.fromClient.id, m.fromClient.clientType)
  {
  }

  /** A directed message in the log reaches exactly its recipient. */
  lemma DirectedReachesOnlyRecipient(log: seq<Message>, m: Message, clientId: string, clientType: string)
    requires m in log && m.toClient.Some?
    ensures m in ClientInbox(log, clientId, clientType)
        <==> clientId == m.toClient.value.id && clientType == m.toClient.value.clientType
  {
  }

  /** Sending appends to every inbox that can see the new message, and to no other. */
  lemma {:induction false} InboxAfterSend(log: seq<Message>, m: Message, clientId: string, clientType: string)
    ensures ClientInbox(log + [m], clientId, clientType) ==
      ClientInbox(log, clientId, clientType) + (if VisibleTo(m, clientId, clientType) then [m] else [])
  {
    FilterAppend(ForClient(clientId, clientType), log, [m]);
    FilterOne(ForClient(clientId, clientType), m);
  }

  /** Sending appends to the thread of the message's task, and to no other. */
  lemma {:induction false} ThreadAfterSend(log: seq<Message>, m: Message, taskId: string)
    ensures TaskThread(log + [m], taskId) ==
      TaskThread(log, taskId) + (if m.taskId == Some(taskId) then [m] else [])
  {
    FilterAppend(ForTask(taskId), log, [m]);
    FilterOne(ForTask(taskId), m);
  }

  /** End to end: a message sent with targets `targetId` and `targetType` lands at the
      end of a client's inbox exactly when both targets are truthy and name that client,
      or when either target is falsy. */
  lemma {:induction false} SentMessageRouting(log: seq<Message>, input: BroadcastMessageInput, msgId: string,
                                              now: Timestamp, clientId: string, clientType: string)
    ensures var m := Message(msgId, input.message, input.client,
                             Recipient(input.targetClientId, input.targetClientType), input.taskId, now);
      ClientInbox(log + [m], clientId, clientType) ==
        ClientInbox(log, clientId, clientType) +
        (if !Truthy(input.targetClientId) || !Truthy(input.targetClientType)
            || (clientId == input.targetClientId.value && clientType == input.targetClientType.value)
         then [m] else [])
  {
    var m := Message(msgId, input.message, input.client,
                     Recipient(input.targetClientId, input.targetClientType), input.taskId, now);
    InboxAfterSend(log, m, clientId, clientType);
  }

  /** A new snippet is listed after the earlier ones, if it names the task. */
  lemma {:induction false} SnippetsAfterShare(values: seq<CodeSnippet>, s: CodeSnippet, taskId: string)
    ensures TaskSnippets(values + [s], taskId) ==
      TaskSnippets(values, taskId) + (if s.taskId == Some(taskId) then [s] else [])
  {
    FilterAppend(SnippetForTask(taskId), values, [s]);
    FilterOne(SnippetForTask(taskId), s);
  }

  class CodeSyncManager {
    /** The `snippets` record with its key insertion order, and the `messages` array. */
    var snippets: map<string, CodeSnippet>
    var snippetOrder: seq<string>
    var messages: seq<Message>

    ghost predicate Valid()
      reads this
    {
      && KeyOrder(snippets, snippetOrder)
      && forall k :: k in snippets ==> snippets[k].id == k
    }

    /** `Object.values(this.snippets)`. */
    function SnippetValues(): seq<CodeSnippet>
      reads this
      requires Valid()
    {
      ValuesInOrder(snippets, snippetOrder)
    }

    constructor ()
      ensures Valid() && snippets == map[] && snippetOrder == [] && messages == []
    {
      snippets := map[];
      snippetOrder := [];
      messages := [];
    }

    /** `shareCodeSnippet`, with the generated id and the clock reading passed in. The
        `taskId` is stored as given, whether or not such a task exists. */
    method ShareCodeSnippet(raw: RawShareCodeSnippetInput, id: string, now: Timestamp)
      returns (r: Result<CodeSnippet, ValidationError>)
      requires Valid()
      requires id !in snippets
      modifies this
      ensures Valid()
      ensures messages == old(messages)
      ensures ParseShareCodeSnippetInput(raw).Failure? ==>
        && r == Failure(ParseShareCodeSnippetInput(raw).error)
        && snippets == old(snippets) && snippetOrder == old(snippetOrder)
      ensures ParseShareCodeSnippetInput(raw).Success? ==>
        var input := ParseShareCodeSnippetInput(raw).value;
        && r == Success(CodeSnippet(id, input.code, input.language, input.fileName, input.description,
                                    input.context, input.taskId, input.client, now, now))
        && snippets == old(snippets)[id := r.value]
        && snippetOrder == old(snippetOrder) + [id]
        && SnippetValues() == old(SnippetValues()) + [r.value]
    {
      var parsed := ParseShareCodeSnippetInput(raw);
      if parsed.Failure? {
        return Failure(parsed.error);
      }
      var input := parsed.value;
      var snippet := CodeSnippet(id, input.code, input.language, input.fileName, input.description,
                                 input.context, input.taskId, input.client, now, now);
      ValuesAfterInsert(snippets, snippetOrder, id, snippet);
      snippets := snippets[id := snippet];
      snippetOrder := snippetOrder + [id];
      r := Success(snippet);
    }

    /** `broadcastMessage`: appends one message, from the caller, to the recipient that
        `Recipient` builds from the two target fields. */
    method BroadcastMessage(raw: RawBroadcastMessageInput, id: string, now: Timestamp)
      returns (r: Result<Message, ValidationError>)
      requires Valid()
      modifies this
      ensures Valid()
      ensures snippets == old(snippets) && snippetOrder == old(snippetOrder)
      ensures ParseBroadcastMessageInput(raw).Failure? ==>
        r == Failure(ParseBroadcastMessageInput(raw).error) && messages == old(messages)
      ensures ParseBroadcastMessageInput(raw).Success? ==>
        var input := ParseBroadcastMessageInput(raw).value;
        && r == Success(Message(id, input.message, input.client,
                                Recipient(input.targetClientId, input.targetClientType), input.taskId, now))
        && messages == old(messages) + [r.value]
    {
      var parsed := ParseBroadcastMessageInput(raw);
      if parsed.Failure? {
        return Failure(parsed.error);
      }
      var input := parsed.value;
      var toClient: Option<Client> := None;
      if Truthy(input.targetClientId) && Truthy(input.targetClientType) {
        toClient := Some(Client(input.targetClientId.value, input.targetClientType.value));
      }
      var message := Message(id, input.message, input.client, toClient, input.taskId, now);
      messages := messages + [message];
      r := Success(message);
    }

    /** `getSnippetsForTask`: the stored snippets whose `taskId` is exactly `taskId`, in
        insertion order; snippets without a `taskId` never qualify. */
    method GetSnippetsForTask(taskId: string) returns (r: seq<CodeSnippet>)
      requires Valid()
      ensures r == TaskSnippets(SnippetValues(), taskId)
      ensures forall s :: s in r <==> s.id in snippets && snippets[s.id] == s && s.taskId == Some(taskId)
    {
      r := TaskSnippets(SnippetValues(), taskId);
      ValuesAreStored(snippets, snippetOrder);
      forall s ensures s in r <==> s.id in snippets && snippets[s.id] == s && s.taskId == Some(taskId) {
        if s.id in snippets && snippets[s.id] == s {
          assert s in SnippetValues();
        }
        if s in SnippetValues() {
          var k :| k in snippets && snippets[k] == s;
          assert k == s.id;
        }
      }
    }

    /** `getMessagesForTask`: the messages about `taskId`, in send order. */
    method GetMessagesForTask(taskId: string) returns (r: seq<Message>)
      ensures r == TaskThread(messages, taskId)
      ensures forall m :: m in r <==> m in messages && m.taskId == Some(taskId)
    {
      r := TaskThread(messages, taskId);
    }

    /** `getMessagesForClient`: the messages this `(id, type)` pair may see, in send order. */
    method GetMessagesForClient(clientId: string, clientType: string) returns (r: seq<Message>)
      ensures r == ClientInbox(messages, clientId, clientType)
      ensures forall m :: m in r <==> m in messages && (m.toClient.None? || m.toClient == Some(Client(clientId, clientType)))
    {
      r := ClientInbox(messages, clientId, clientType);
    }
  }

  /** A snippet shared for task "T1" is the one snippet of "T1", and "T2" has none. */
  method SnippetScenario(id: string, now: Timestamp) returns (forT1: seq<CodeSnippet>, forT2: seq<CodeSnippet>)
    ensures |forT1| == 1 && forT1[0].id == id && forT1[0].code == "x" && forT1[0].language == "go"
    ensures forT1[0].createdBy == Client("b", "ide")
    ensures forT2 == []
  {
    var store := new CodeSyncManager();
    var shared := store.ShareCodeSnippet(
      RawShareCodeSnippetInput(Some("x"), Some("go"), Some(RawClient(Some("b"), Some("ide"))),
                               None, None, None, Some("T1")), id, now);
    assert store.SnippetValues() == [shared.value];
    SnippetsAfterShare([], shared.value, "T1");
    SnippetsAfterShare([], shared.value, "T2");
    forT1 := store.GetSnippetsForTask("T1");
    forT2 := store.GetSnippetsForTask("T2");
  }

  /** A message directed to ("b", "ide") reaches that pair only; one whose target type is
      empty reaches everybody, its sender included. */
  method RoutingScenario(t0: Timestamp, t1: Timestamp)
    returns (ideInbox: seq<Message>, otherInbox: seq<Message>, senderInbox: seq<Message>)
    ensures |ideInbox| == 2 && ideInbox[0].id == "m1" && ideInbox[1].id == "m2"
    ensures |otherInbox| == 1 && otherInbox[0].id == "m2" && otherInbox[0].toClient.None?
    ensures senderInbox == otherInbox
  {
    var store := new CodeSyncManager();
    var sender := Some(RawClient(Some("a"), Some("agent")));
    var directed := store.BroadcastMessage(
      RawBroadcastMessageInput(Some("hi"), sender, Some("b"), Some("ide"), None), "m1", t0);
    var broadcast := store.BroadcastMessage(
      RawBroadcastMessageInput(Some("all"), sender, Some("b"), Some(""), None), "m2", t1);
    assert store.messages == [directed.value] + [broadcast.value];
    InboxAfterSend([directed.value], broadcast.value, "b", "ide");
    InboxAfterSend([], directed.value, "b", "ide");
    InboxAfterSend([directed.value], broadcast.value, "b", "agent");
    InboxAfterSend([], directed.value, "b", "agent");
    InboxAfterSend([directed.value], broadcast.value, "a", "agent");
    InboxAfterSend([], directed.value, "a", "agent");
    ideInbox := store.GetMessagesForClient("b", "ide");
    otherInbox := store.GetMessagesForClient("b", "agent");
    senderInbox := store.GetMessagesForClient("a", "agent");
  }
}
