/** The chat page: a conversation with the assistant, scoped to everything, to some folders or
    to some documents. Messages are only ever appended, except when a new conversation replaces
    them with the welcome message.

    The clock (`Date.now()` and `new Date().toISOString()`) is a parameter of each handler, and
    each asynchronous handler is split at its `await` into `Begin…` and `End…`. */
module Chat {
  import opened Common
  import opened Text
  import opened JsonValues

  datatype Role = UserRole | AssistantRole | SystemRole

  datatype Message = Message(id: string, role: Role, content: string, createdAt: string, metadata: Option<Json>)

  const WelcomeText: string :=
    "Hello! I'm your FIR Intelligence assistant. You can ask me about your FIR documents, "
    + "search for specific information, or get analytics about your cases. How can I help you today?"

  const Apology: string := "Sorry, I encountered an error processing your request. Please try again."

  /** The id of the greeting a new conversation starts with. */
  const WelcomeId: string := "welcome"

  datatype ScopeType = Global | FolderScope | DocumentScope

  datatype Scope = Scope(folderIds: seq<string>, documentIds: seq<string>, scopeType: ScopeType)

  /** The scope object sent with a new conversation and with every message: `null` for the
      global scope, otherwise the ids of the scope's own kind and an empty list for the other. */
  datatype ScopeObject = ScopeObject(folderIds: seq<string>, documentIds: seq<string>)

  function ScopePayload(scope: Scope): (r: Option<ScopeObject>)
    ensures r.None? <==> scope.scopeType == Global
    ensures scope.scopeType == FolderScope ==> r == Some(ScopeObject(scope.folderIds, []))
    ensures scope.scopeType == DocumentScope ==> r == Some(ScopeObject([], scope.documentIds))
  {
    match scope.scopeType
    case Global => None
    case FolderScope => Some(ScopeObject(scope.folderIds, []))
    case DocumentScope => Some(ScopeObject([], scope.documentIds))
  }

  /** Only the ids of the scope's own kind are ever sent: the other list may hold anything. */
  lemma ScopeIgnoresOtherKind(scope: Scope, other: seq<string>)
    ensures scope.scopeType == FolderScope ==>
      ScopePayload(scope.(documentIds := other)) == ScopePayload(scope)
    ensures scope.scopeType == DocumentScope ==>
      ScopePayload(scope.(folderIds := other)) == ScopePayload(scope)
    ensures scope.scopeType == Global ==>
      ScopePayload(scope.(folderIds := other, documentIds := other)) == ScopePayload(scope)
    ensures ScopePayload(scope).Some? ==>
      ScopePayload(scope).value.folderIds == [] || ScopePayload(scope).value.documentIds == []
  {
  }

  /** The page sends only when the input has text besides white space and a conversation id is
      set (an empty id counts as none). */
  predicate CanSend(input: string, conversationId: Option<string>) {
    Trim(input) != "" && Present(conversationId)
  }

  /** The user's message as shown at once: stamped with the send time, content untrimmed. */
  function UserMessage(input: string, now: nat, isoNow: string): (m: Message)
    ensures m.role == UserRole && m.content == input && m.metadata.None?
    ensures m.id == Decimal(now) && m.createdAt == isoNow
  {
    Message(Decimal(now), UserRole, input, isoNow, None)
  }

  /** The assistant's message as the server returns it. */
  datatype AiReply = AiReply(id: string, content: string, createdAt: string, metadata: Option<Json>)

  /** The assistant's answer to one send: the server's message on success; on failure a local
      message carrying the error's text, or the apology when it has none, with the id of the
      failure time plus one. */
  function AssistantMessage(reply: Result<AiReply>, now: nat, isoNow: string): (m: Message)
    ensures m.role == AssistantRole
    ensures reply.Ok? ==>
      m == Message(reply.value.id, AssistantRole, reply.value.content, reply.value.createdAt, reply.value.metadata)
    ensures reply.Err? ==> m.id == Decimal(now + 1) && m.createdAt == isoNow && m.metadata.None?
    ensures reply.Err? && reply.message != "" ==> m.content == reply.message
    ensures reply.Err? && reply.message == "" ==> m.content == Apology
  {
    match reply
    case Ok(r) => Message(r.id, AssistantRole, r.content, r.createdAt, r.metadata)
    case Err(e) => Message(Decimal(now + 1), AssistantRole, OrElse(e, Apology), isoNow, None)
  }

  /** A failure reported no earlier than the send gets an id distinct from the user's message,
      and no clock-made id can be mistaken for the welcome message. */
  lemma LocalIdsDistinct(sent: nat, failed: nat, input: string, isoSent: string, isoFailed: string, e: string)
    requires sent <= failed
    ensures AssistantMessage(Err(e), failed, isoFailed).id != UserMessage(input, sent, isoSent).id
    ensures UserMessage(input, sent, isoSent).id != WelcomeId
    ensures AssistantMessage(Err(e), failed, isoFailed).id != WelcomeId
  {
    DecimalInjective(failed + 1, sent);
    assert WelcomeId[0] == 'w';
  }

  /** What `sendMessage` receives: the conversation, the untrimmed input and the scope object. */
  datatype SendRequest = SendRequest(conversationId: string, content: string, scope: Option<ScopeObject>)

  class ChatPage {
    var messages: seq<Message>
    var inputMessage: string
    var isLoading: bool
    var currentConversationId: Option<string>
    var scope: Scope

    /** The page on mount: the greeting with id "1", no conversation yet, global scope. */
    constructor (isoNow: string)
      ensures messages == [Message("1", AssistantRole, WelcomeText, isoNow, None)]
      ensures inputMessage == "" && !isLoading && currentConversationId.None?
      ensures scope == Scope([], [], Global)
    {
      messages := [Message("1", AssistantRole, WelcomeText, isoNow, None)];
      inputMessage := "";
      isLoading := false;
      currentConversationId := None;
      scope := Scope([], [], Global);
    }

    /** `createConversation`'s request: the scope object, and nothing on the page changes. */
    method BeginCreate() returns (payload: Option<ScopeObject>)
      ensures payload == ScopePayload(scope)
    {
      match scope.scopeType
      case Global => payload := None;
      case FolderScope => payload := Some(ScopeObject(scope.folderIds, []));
      case DocumentScope => payload := Some(ScopeObject([], scope.documentIds));
    }

    /** `createNewConversation` after the reply: a new conversation is stored and the list
        restarts from the single welcome message; a failure changes nothing. */
    method EndCreate(reply: Result<string>, isoNow: string)
      modifies this`currentConversationId, this`messages
      ensures reply.Ok? ==>
        && currentConversationId == Some(reply.value)
        && messages == [Message(WelcomeId, AssistantRole, WelcomeText, isoNow, None)]
      ensures reply.Err? ==> currentConversationId == old(currentConversationId) && messages == old(messages)
    {
      if reply.Ok? {
        currentConversationId := Some(reply.value);
        messages := [Message(WelcomeId, AssistantRole, WelcomeText, isoNow, None)];
      }
    }

    /** The input's `onChange`. */
    method SetInput(value: string)
      modifies this`inputMessage
      ensures inputMessage == value
    {
      inputMessage := value;
    }

    /** `handleSendMessage` up to its request: nothing unless `CanSend`; otherwise exactly one
        user message with the input is appended, the input is cleared, loading starts, and the
        input as typed is sent with the scope object. */
    method BeginSend(now: nat, isoNow: string) returns (request: Option<SendRequest>)
      modifies this`messages, this`inputMessage, this`isLoading
      ensures !CanSend(old(inputMessage), currentConversationId) ==>
        && request.None?
        && messages == old(messages) && inputMessage == old(inputMessage) && isLoading == old(isLoading)
      ensures CanSend(old(inputMessage), currentConversationId) ==>
        && messages == old(messages) + [UserMessage(old(inputMessage), now, isoNow)]
        && inputMessage == "" && isLoading
        && request == Some(SendRequest(currentConversationId.value, old(inputMessage), ScopePayload(scope)))
    {
      if Trim(inputMessage) == "" || currentConversationId.None? || currentConversationId.value == "" {
        return None;
      }
      var content := inputMessage;
      messages := messages + [UserMessage(content, now, isoNow)];
      inputMessage := "";
      isLoading := true;
      var payload := BeginCreate();
      request := Some(SendRequest(currentConversationId.value, content, payload));
    }

    /** `handleKeyPress`: Enter without Shift sends; any other key does nothing. */
    method KeyPress(key: string, shift: bool, now: nat, isoNow: string) returns (request: Option<SendRequest>)
      modifies this`messages, this`inputMessage, this`isLoading
      ensures !(key == "Enter" && !shift && CanSend(old(inputMessage), currentConversationId)) ==>
        && request.None?
        && messages == old(messages) && inputMessage == old(inputMessage) && isLoading == old(isLoading)
      ensures key == "Enter" && !shift && CanSend(old(inputMessage), currentConversationId) ==>
        && messages == old(messages) + [UserMessage(old(inputMessage), now, isoNow)]
        && inputMessage == "" && isLoading
        && request == Some(SendRequest(currentConversationId.value, old(inputMessage), ScopePayload(scope)))
    {
      request := None;
      if key == "Enter" && !shift {
        request := BeginSend(now, isoNow);
      }
    }

    /** `handleSendMessage` after the reply: exactly one assistant message is appended, the
        server's or the local error message, and loading ends either way. */
    method EndSend(reply: Result<AiReply>, now: nat, isoNow: string)
      modifies this`messages, this`isLoading
      ensures messages == old(messages) + [AssistantMessage(reply, now, isoNow)]
      ensures !isLoading
    {
      messages := messages + [AssistantMessage(reply, now, isoNow)];
      isLoading := false;
    }
  }

  /** One whole exchange from a list: the user's message, then the assistant's. The list
      before it is kept as a prefix, so the history is never rewritten. */
  function Exchange(history: seq<Message>, input: string, reply: Result<AiReply>,
                    sent: nat, isoSent: string, answered: nat, isoAnswered: string): (r: seq<Message>)
    ensures |r| == |history| + 2 && r[..|history|] == history
    ensures r[|history|].role == UserRole && r[|history|].content == input
    ensures r[|history| + 1].role == AssistantRole
  {
    history + [UserMessage(input, sent, isoSent)] + [AssistantMessage(reply, answered, isoAnswered)]
  }

  /** After any number of exchanges, the messages alternate user, assistant from where the
      conversation began. */
  predicate Alternates(start: nat, ms: seq<Message>)
    requires start <= |ms|
  {
    (|ms| - start) % 2 == 0
    && forall i :: start <= i < |ms| ==>
      ms[i].role == (if (i - start) % 2 == 0 then UserRole else AssistantRole)
  }

  lemma {:induction false} ExchangeAlternates(start: nat, history: seq<Message>, input: string,
      reply: Result<AiReply>, sent: nat, isoSent: string, answered: nat, isoAnswered: string)
    requires start <= |history| && Alternates(start, history)
    ensures Alternates(start, Exchange(history, input, reply, sent, isoSent, answered, isoAnswered))
  {
    var r := Exchange(history, input, reply, sent, isoSent, answered, isoAnswered);
    forall i | start <= i < |r|
      ensures r[i].role == (if (i - start) % 2 == 0 then UserRole else AssistantRole)
    {
      if i < |history| {
        assert r[i] == history[i];
      }
    }
  }
}
