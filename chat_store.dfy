/** The client's conversation store (frontend/src/stores/chatStore.ts): the conversation list,
    the selected conversation, its messages, a loading flag and the last error. Each action sets
    fields before and after one call to the server; the call's outcome is a parameter, a value
    on success or a rejection carrying the error's `message` (absent when the error has none).
    `Date.now()` is the parameter `now`, in milliseconds. */
module ChatStore {
  import opened Wrappers

  datatype ChatMessage = ChatMessage(id: int, role: string, content: string, createdAt: int)

  datatype ChatConversation = ChatConversation(id: int, title: string, lastMessageAt: int, createdAt: int)

  /** The store's fields. `currentConversationId` is `number | null`. */
  datatype ChatState = ChatState(
    conversations: seq<ChatConversation>,
    currentConversationId: Option<int>,
    messages: seq<ChatMessage>,
    isLoading: bool,
    error: Option<string>)

  const Initial: ChatState := ChatState([], None, [], false, None)

  /** `!currentConversationId` is false: an id is selected and it is not 0. */
  predicate HasConversation(id: Option<int>)
  {
    id.Some? && id.value != 0
  }

  /** The optimistic user message, with `Date.now()` as its id. */
  function TempMessage(content: string, now: int): ChatMessage
  {
    ChatMessage(now, "user", content, now)
  }

  /** `messages.filter(m => m.id !== id)`. */
  function WithoutId(ms: seq<ChatMessage>, id: int): (r: seq<ChatMessage>)
    ensures |r| <= |ms|
    ensures forall m :: m in r <==> m in ms && m.id != id
  {
    if ms == [] then []
    else if ms[0].id != id then [ms[0]] + WithoutId(ms[1..], id)
    else WithoutId(ms[1..], id)
  }

  /** The filter works message by message: it keeps the order and the repeats of the messages
      it keeps, and keeps a single message exactly when its id differs. */
  lemma {:induction false} WithoutIdDistributes(a: seq<ChatMessage>, b: seq<ChatMessage>, id: int)
    ensures WithoutId(a + b, id) == WithoutId(a, id) + WithoutId(b, id)
    ensures forall m :: WithoutId([m], id) == if m.id != id then [m] else []
  {
    if a == [] {
      assert a + b == b;
    } else {
      assert (a + b)[1..] == a[1..] + b;
      WithoutIdDistributes(a[1..], b, id);
    }
    forall m
      ensures WithoutId([m], id) == if m.id != id then [m] else []
    {
      assert [m][1..] == [];
    }
  }

  lemma {:induction false} WithoutIdOfNone(ms: seq<ChatMessage>, id: int)
    requires forall i :: 0 <= i < |ms| ==> ms[i].id != id
    ensures WithoutId(ms, id) == ms
  {
    if ms != [] {
      WithoutIdOfNone(ms[1..], id);
    }
  }

  lemma {:induction false} WithoutIdOfAppend(ms: seq<ChatMessage>, m: ChatMessage)
    ensures WithoutId(ms + [m], m.id) == WithoutId(ms, m.id)
  {
    if ms == [] {
      assert ms + [m] == [m];
    } else {
      assert (ms + [m])[1..] == ms[1..] + [m];
      WithoutIdOfAppend(ms[1..], m);
    }
  }

  /** `sendMessage` up to the server call (frontend/src/stores/chatStore.ts:73-85): the temporary message is appended,
      the store is loading and the error is cleared. */
  function SendEntered(s: ChatState, content: string, now: int): (r: ChatState)
    ensures |r.messages| == |s.messages| + 1 && r.messages[..|s.messages|] == s.messages
    ensures r.messages[|s.messages|] == TempMessage(content, now)
    ensures r.isLoading && r.error.None?
    ensures r.conversations == s.conversations && r.currentConversationId == s.currentConversationId
  {
    s.(isLoading := true, error := None, messages := s.messages + [TempMessage(content, now)])
  }

  /** `sendMessage` after the call settles: the reply is appended, or every message with the
      temporary id is filtered out and the error recorded; loading ends either way. */
  function SendSettled(s: ChatState, tempId: int, outcome: Settled<ChatMessage>): (r: ChatState)
    ensures !r.isLoading
    ensures r.conversations == s.conversations && r.currentConversationId == s.currentConversationId
    ensures outcome.Fulfilled? ==> r.messages == s.messages + [outcome.value] && r.error == s.error
    ensures outcome.Rejected? ==>
              && r.error == outcome.message
              && forall m :: m in r.messages <==> m in s.messages && m.id != tempId
  {
    match outcome
    case Fulfilled(response) => s.(messages := s.messages + [response], isLoading := false)
    case Rejected(message) => s.(error := message, messages := WithoutId(s.messages, tempId), isLoading := false)
  }

  /** `sendMessage(content)` (frontend/src/stores/chatStore.ts:69-112). */
  function SendMessageStep(s: ChatState, content: string, now: int, outcome: Settled<ChatMessage>): (r: ChatState)
    ensures !HasConversation(s.currentConversationId) ==> r == s
    ensures HasConversation(s.currentConversationId) ==>
              && !r.isLoading
              && r.conversations == s.conversations
              && r.currentConversationId == s.currentConversationId
    ensures HasConversation(s.currentConversationId) && outcome.Fulfilled? ==>
              r.messages == s.messages + [TempMessage(content, now), outcome.value] && r.error.None?
    ensures HasConversation(s.currentConversationId) && outcome.Rejected? ==>
              r.error == outcome.message
              && forall m :: m in r.messages <==> m in s.messages && m.id != now
  {
    if !HasConversation(s.currentConversationId) then s
    else SendSettled(SendEntered(s, content, now), now, outcome)
  }

  /** A failed send rolls the messages back to what they were, provided no earlier message
      happened to have the temporary id. */
  lemma FailedSendRollsBack(s: ChatState, content: string, now: int, message: Option<string>)
    requires HasConversation(s.currentConversationId)
    requires forall i :: 0 <= i < |s.messages| ==> s.messages[i].id != now
    ensures SendMessageStep(s, content, now, Rejected(message)).messages == s.messages
  {
    WithoutIdOfAppend(s.messages, TempMessage(content, now));
    WithoutIdOfNone(s.messages, now);
  }

  /** The rollback filters by id, so an earlier message that shares the temporary id is
      removed as well. */
  lemma FailedSendDropsSameId(s: ChatState, content: string, now: int, message: Option<string>, i: nat)
    requires HasConversation(s.currentConversationId)
    requires i < |s.messages| && s.messages[i].id == now
    ensures s.messages[i] !in SendMessageStep(s, content, now, Rejected(message)).messages
  {
  }

  /** `fetchConversations` (frontend/src/stores/chatStore.ts:27-37). */
  function FetchConversationsStep(s: ChatState, outcome: Settled<seq<ChatConversation>>): (r: ChatState)
    ensures !r.isLoading
    ensures r.currentConversationId == s.currentConversationId && r.messages == s.messages
    ensures outcome.Fulfilled? ==> r.conversations == outcome.value && r.error.None?
    ensures outcome.Rejected? ==> r.conversations == s.conversations && r.error == outcome.message
  {
    match outcome
    case Fulfilled(cs) => s.(isLoading := false, error := None, conversations := cs)
    case Rejected(message) => s.(isLoading := false, error := message)
  }

  /** `createConversation` (frontend/src/stores/chatStore.ts:39-55). */
  function CreateConversationStep(s: ChatState, outcome: Settled<ChatConversation>): (r: ChatState)
    ensures !r.isLoading
    ensures outcome.Fulfilled? ==>
              && r.conversations == [outcome.value] + s.conversations
              && r.currentConversationId == Some(outcome.value.id)
              && r.messages == [] && r.error.None?
    ensures outcome.Rejected? ==>
              && r.conversations == s.conversations
              && r.currentConversationId == s.currentConversationId
              && r.messages == s.messages && r.error == outcome.message
  {
    match outcome
    case Fulfilled(c) =>
      s.(isLoading := false, error := None, conversations := [c] + s.conversations,
         currentConversationId := Some(c.id), messages := [])
    case Rejected(message) => s.(isLoading := false, error := message)
  }

  /** `selectConversation(id)` (frontend/src/stores/chatStore.ts:57-67): the id is selected
      before the load, and a failed load keeps the messages shown before. */
  function SelectConversationStep(s: ChatState, id: int, outcome: Settled<seq<ChatMessage>>): (r: ChatState)
    ensures !r.isLoading && r.currentConversationId == Some(id) && r.conversations == s.conversations
    ensures outcome.Fulfilled? ==> r.messages == outcome.value && r.error.None?
    ensures outcome.Rejected? ==> r.messages == s.messages && r.error == outcome.message
  {
    match outcome
    case Fulfilled(ms) => s.(currentConversationId := Some(id), isLoading := false, error := None, messages := ms)
    case Rejected(message) => s.(currentConversationId := Some(id), isLoading := false, error := message)
  }

  /** `clearCurrentConversation` (frontend/src/stores/chatStore.ts:114-116). */
  function ClearStep(s: ChatState): (r: ChatState)
    ensures r.currentConversationId.None? && r.messages == []
    ensures r.conversations == s.conversations && r.isLoading == s.isLoading && r.error == s.error
  {
    s.(currentConversationId := None, messages := [])
  }

  /** With no conversation selected a send is ignored, so sending right after clearing
      changes nothing. */
  lemma SendAfterClearIsIgnored(s: ChatState, content: string, now: int, outcome: Settled<ChatMessage>)
    ensures SendMessageStep(ClearStep(s), content, now, outcome) == ClearStep(s)
  {
  }

  /** A created conversation is selected with an empty transcript, so a successful send into it
      shows exactly the user's message and the reply. */
  lemma SendIntoNewConversation(s: ChatState, c: ChatConversation, content: string, now: int, reply: ChatMessage)
    requires c.id != 0
    ensures var created := CreateConversationStep(s, Fulfilled(c));
            SendMessageStep(created, content, now, Fulfilled(reply)).messages == [TempMessage(content, now), reply]
  {
  }

  /** The store object. */
  class Store {
    var conversations: seq<ChatConversation>
    var currentConversationId: Option<int>
    var messages: seq<ChatMessage>
    var isLoading: bool
    var error: Option<string>

    function State(): ChatState
      reads this
    {
      ChatState(conversations, currentConversationId, messages, isLoading, error)
    }

    constructor ()
      ensures State() == Initial
    {
      conversations, currentConversationId, messages := [], None, [];
      isLoading, error := false, None;
    }

    method FetchConversations(outcome: Settled<seq<ChatConversation>>)
      modifies this
      ensures State() == FetchConversationsStep(old(State()), outcome)
    {
      isLoading, error := true, None;
      if outcome.Fulfilled? {
        conversations := outcome.value;
      } else {
        error := outcome.message;
      }
      isLoading := false;
    }

    /** Returns the outcome it was given: the conversation, or the rejection it rethrows. */
    method CreateConversation(outcome: Settled<ChatConversation>) returns (result: Settled<ChatConversation>)
      modifies this
      ensures State() == CreateConversationStep(old(State()), outcome)
      ensures result == outcome
    {
      isLoading, error := true, None;
      match outcome {
        case Fulfilled(c) =>
          conversations := [c] + conversations;
          currentConversationId := Some(c.id);
          messages := [];
        case Rejected(message) =>
          error := message;
      }
      isLoading := false;
      result := outcome;
    }

    method SelectConversation(id: int, outcome: Settled<seq<ChatMessage>>)
      modifies this
      ensures State() == SelectConversationStep(old(State()), id, outcome)
    {
      currentConversationId, isLoading, error := Some(id), true, None;
      if outcome.Fulfilled? {
        messages := outcome.value;
      } else {
        error := outcome.message;
      }
      isLoading := false;
    }

    method SendMessage(content: string, now: int, outcome: Settled<ChatMessage>)
      modifies this
      ensures State() == SendMessageStep(old(State()), content, now, outcome)
    {
      var current := currentConversationId;
      if current.None? || current.value == 0 {
        return;
      }
      isLoading, error := true, None;
      var temp := ChatMessage(now, "user", content, now);
      messages := messages + [temp];
      match outcome {
        case Fulfilled(response) =>
          messages := messages + [response];
        case Rejected(message) =>
          error := message;
          messages := WithoutId(messages, temp.id);
      }
      isLoading := false;
    }

    method ClearCurrentConversation()
      modifies this
      ensures State() == ClearStep(old(State()))
    {
      currentConversationId, messages := None, [];
    }
  }
}
