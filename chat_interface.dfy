/** The chat panel (frontend/src/components/chat/ChatInterface.tsx): the draft input, the guard
    on sending, the Enter key, and which box shows the store's error. Rendering, scrolling and
    the textarea's height are left out. */
module ChatInterface {
  import opened Wrappers
  import opened Strings
  import ChatStore

  /** `!input.trim() || isLoading`, the guard of `handleSubmit` and the `disabled` state of the
      send button (frontend/src/components/chat/ChatInterface.tsx:27,147). */
  function SubmitBlocked(input: string, isLoading: bool): (r: bool)
    ensures r <==> AllSpace(JsSpace, input) || isLoading
  {
    Trim(JsSpace, input) == "" || isLoading
  }

  /** `e.key === 'Enter' && !e.shiftKey` (frontend/src/components/chat/ChatInterface.tsx:41). */
  predicate SubmitsOnKey(key: string, shiftKey: bool)
  {
    key == "Enter" && !shiftKey
  }

  /** Where the error is shown (frontend/src/components/chat/ChatInterface.tsx:111-123). */
  datatype ErrorView = NoErrorBox | LimitBanner(message: string) | ErrorBox(message: string)

  /** `{error && (error.toLowerCase().includes('limit') ? <LimitBanner/> : <div/>)}`: an empty
      error shows nothing. */
  function ErrorViewOf(error: Option<string>): (r: ErrorView)
    ensures r.NoErrorBox? <==> error.None? || error.value == ""
    ensures r.LimitBanner? <==> error.Some? && error.value != "" && Contains(ToLowerAscii(error.value), "limit")
    ensures !r.NoErrorBox? ==> r.message == error.value
  {
    if error.None? || error.value == "" then NoErrorBox
    else if Contains(ToLowerAscii(error.value), "limit") then LimitBanner(error.value)
    else ErrorBox(error.value)
  }

  /** The limit wording is matched without regard to case. */
  lemma UpperCaseLimitIsBanner(pre: string, post: string)
    ensures ErrorViewOf(Some(pre + "LIMIT" + post)).LimitBanner?
  {
    var e := pre + "LIMIT" + post;
    var low := ToLowerAscii(e);
    assert low[|pre|..|pre| + 5] == "limit";
    assert OccursAt(low, "limit", |pre|);
  }

  /** The panel: its draft text and the store it sends through. */
  class Panel {
    var input: string
    const store: ChatStore.Store

    constructor (store: ChatStore.Store)
      ensures this.store == store && input == ""
    {
      this.store := store;
      input := "";
    }

    /** `handleSubmit` (frontend/src/components/chat/ChatInterface.tsx:25-38): the trimmed text is
        sent and the input cleared before the send is awaited. */
    method HandleSubmit(now: int, outcome: Settled<ChatStore.ChatMessage>)
      modifies this, store
      ensures SubmitBlocked(old(input), old(store.isLoading)) ==>
                input == old(input) && store.State() == old(store.State())
      ensures !SubmitBlocked(old(input), old(store.isLoading)) ==>
                && input == ""
                && store.State() == ChatStore.SendMessageStep(old(store.State()), Trim(JsSpace, old(input)), now, outcome)
    {
      if Trim(JsSpace, input) == "" || store.isLoading {
        return;
      }
      var content := Trim(JsSpace, input);
      input := "";
      store.SendMessage(content, now, outcome);
    }

    /** `handleKeyDown` (frontend/src/components/chat/ChatInterface.tsx:40-45). */
    method HandleKeyDown(key: string, shiftKey: bool, now: int, outcome: Settled<ChatStore.ChatMessage>)
      modifies this, store
      ensures !SubmitsOnKey(key, shiftKey) || SubmitBlocked(old(input), old(store.isLoading)) ==>
                input == old(input) && store.State() == old(store.State())
      ensures SubmitsOnKey(key, shiftKey) && !SubmitBlocked(old(input), old(store.isLoading)) ==>
                && input == ""
                && store.State() == ChatStore.SendMessageStep(old(store.State()), Trim(JsSpace, old(input)), now, outcome)
    {
      if key == "Enter" && !shiftKey {
        HandleSubmit(now, outcome);
      }
    }
  }

  /** What one submit does to the draft and the store together, as a value. */
  function SubmitStep(input: string, s: ChatStore.ChatState, now: int, outcome: Settled<ChatStore.ChatMessage>): (r: (string, ChatStore.ChatState))
    ensures SubmitBlocked(input, s.isLoading) ==> r == (input, s)
    ensures !SubmitBlocked(input, s.isLoading) ==> r.0 == ""
  {
    if SubmitBlocked(input, s.isLoading) then (input, s)
    else ("", ChatStore.SendMessageStep(s, Trim(JsSpace, input), now, outcome))
  }

  /** The message the store appends carries the trimmed text, which is never blank. */
  lemma SentContentIsTrimmed(input: string, s: ChatStore.ChatState, now: int, reply: ChatStore.ChatMessage)
    requires !SubmitBlocked(input, s.isLoading) && ChatStore.HasConversation(s.currentConversationId)
    ensures var r := SubmitStep(input, s, now, Fulfilled(reply)).1;
            && r.messages[|s.messages|].content == Trim(JsSpace, input)
            && r.messages[|s.messages|].content != ""
            && !IsSpace(JsSpace, r.messages[|s.messages|].content[0])
  {
  }

  /** A submit with no conversation selected still clears the draft, though the store ignores
      the send. */
  lemma SubmitWithoutConversationLosesDraft(input: string, s: ChatStore.ChatState, now: int, outcome: Settled<ChatStore.ChatMessage>)
    requires !SubmitBlocked(input, s.isLoading) && !ChatStore.HasConversation(s.currentConversationId)
    ensures SubmitStep(input, s, now, outcome) == ("", s)
    ensures input != ""
  {
  }
}
