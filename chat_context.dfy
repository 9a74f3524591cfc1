/**
 * The chat store (src/context/ChatContext.tsx): the reducer over `ChatState`
 * with its nine actions, and the provider operations that dispatch fixed
 * sequences of those actions against the held state.
 */
module ChatContext {
  import opened Wrappers
  import opened Types

  datatype ChatState = ChatState(
    chats: seq<Chat>,
    currentChat: Option<Chat>,
    messages: map<string, seq<Message>>,  // chat id -> messages
    isLoading: bool,
    error: Option<string>)

  datatype ChatAction =
    | LoadChatsStart
    | LoadChatsSuccess(chats: seq<Chat>)
    | LoadChatsError(reason: string)
    | SelectChat(chat: Chat)
    | AddMessage(message: Message)
    | LoadMessagesSuccess(chatId: string, messages: seq<Message>)
    | CreateChatSuccess(chat: Chat)
    | DeleteChat(chatId: string)
    | UpdateChat(chat: Chat)

  /** No chats, no selection, nothing cached, not loading, no error. */
  function InitialState(): (s: ChatState)
    ensures s.chats == [] && s.currentChat == None && !s.isLoading && s.error == None
    ensures forall id :: MessagesOf(s.messages, id) == []
  {
    ChatState([], None, map[], false, None)
  }

  /** The cached messages of a chat, the empty list when none are cached (`messages.get(id) || []`). */
  function MessagesOf(messages: map<string, seq<Message>>, id: string): (r: seq<Message>)
    ensures id !in messages ==> r == []
    ensures id in messages ==> r == messages[id]
  {
    if id in messages then messages[id] else []
  }

  /** Every key other than `key` is bound in `m'` exactly as in `m`. */
  ghost predicate SameEntriesExcept(m: map<string, seq<Message>>, m': map<string, seq<Message>>, key: string) {
    forall k :: k != key ==> (k in m <==> k in m') && (k in m ==> m[k] == m'[k])
  }

  // ---------------------------------------------------------------------------
  // The chat list operations used by DELETE_CHAT and UPDATE_CHAT.

  /** `chats.filter(chat => chat.id !== id)`: a chat stays iff its id differs from `id`. */
  function WithoutId(chats: seq<Chat>, id: string): (r: seq<Chat>)
    ensures |r| <= |chats|
    ensures forall c :: c in r <==> c in chats && c.id != id
  {
    if chats == [] then []
    else if chats[0].id == id then WithoutId(chats[1..], id)
    else [chats[0]] + WithoutId(chats[1..], id)
  }

  /** Filtering distributes over concatenation, so the kept chats stay in their original order. */
  lemma {:induction false} WithoutIdConcat(a: seq<Chat>, b: seq<Chat>, id: string)
    ensures WithoutId(a + b, id) == WithoutId(a, id) + WithoutId(b, id)
  {
    if a == [] {
      assert a + b == b;
    } else {
      assert (a + b)[1..] == a[1..] + b;
      WithoutIdConcat(a[1..], b, id);
    }
  }

  /** When no chat has the id, the filter returns the list unchanged. */
  lemma {:induction false} WithoutIdAbsent(chats: seq<Chat>, id: string)
    requires forall i :: 0 <= i < |chats| ==> chats[i].id != id
    ensures WithoutId(chats, id) == chats
  {
    if chats != [] {
      WithoutIdAbsent(chats[1..], id);
    }
  }

  /** `chats.map(chat => chat.id === c.id ? c : chat)`: same length, each entry replaced iff its id matches. */
  function ReplaceById(chats: seq<Chat>, c: Chat): (r: seq<Chat>)
    ensures |r| == |chats|
    ensures forall i :: 0 <= i < |chats| ==> r[i] == if chats[i].id == c.id then c else chats[i]
  {
    if chats == [] then []
    else [if chats[0].id == c.id then c else chats[0]] + ReplaceById(chats[1..], c)
  }

  // ---------------------------------------------------------------------------
  // One transition per action.

  /** LOAD_CHATS_START: loading on, error cleared, nothing else touched. */
  function LoadChatsStarted(s: ChatState): (r: ChatState)
    ensures r.isLoading && r.error == None
    ensures r.chats == s.chats && r.currentChat == s.currentChat && r.messages == s.messages
  {
    s.(isLoading := true, error := None)
  }

  /** LOAD_CHATS_SUCCESS: the list is replaced wholesale; the error is left as it was. */
  function ChatsLoaded(s: ChatState, chats: seq<Chat>): (r: ChatState)
    ensures r.chats == chats && !r.isLoading
    ensures r.currentChat == s.currentChat && r.messages == s.messages && r.error == s.error
  {
    s.(chats := chats, isLoading := false)
  }

  /** LOAD_CHATS_ERROR: the error is recorded and the previous list survives. */
  function ChatsLoadFailed(s: ChatState, message: string): (r: ChatState)
    ensures !r.isLoading && r.error == Some(message)
    ensures r.chats == s.chats && r.currentChat == s.currentChat && r.messages == s.messages
  {
    s.(isLoading := false, error := Some(message))
  }

  /** SELECT_CHAT: a pure swap of the selection. */
  function ChatSelected(s: ChatState, c: Chat): (r: ChatState)
    ensures r.currentChat == Some(c)
    ensures r.chats == s.chats && r.messages == s.messages && r.isLoading == s.isLoading && r.error == s.error
  {
    s.(currentChat := Some(c))
  }

  /**
   * ADD_MESSAGE: with no current chat the state is returned as is; otherwise the
   * message goes to the end of the CURRENT chat's list (not `message.chatId`'s),
   * an uncached chat counting as an empty list.
   */
  function MessageAdded(s: ChatState, m: Message): (r: ChatState)
    ensures s.currentChat == None ==> r == s
    ensures s.currentChat != None ==>
      var id := s.currentChat.value.id;
      && id in r.messages
      && r.messages[id] == MessagesOf(s.messages, id) + [m]
      && SameEntriesExcept(s.messages, r.messages, id)
    ensures r.chats == s.chats && r.currentChat == s.currentChat
    ensures r.isLoading == s.isLoading && r.error == s.error
  {
    match s.currentChat
    case None => s
    case Some(c) => s.(messages := s.messages[c.id := MessagesOf(s.messages, c.id) + [m]])
  }

  /** LOAD_MESSAGES_SUCCESS: one chat's cached list is replaced by exactly the loaded list. */
  function MessagesLoaded(s: ChatState, chatId: string, messages: seq<Message>): (r: ChatState)
    ensures chatId in r.messages && r.messages[chatId] == messages
    ensures SameEntriesExcept(s.messages, r.messages, chatId)
    ensures r.chats == s.chats && r.currentChat == s.currentChat
    ensures r.isLoading == s.isLoading && r.error == s.error
  {
    s.(messages := s.messages[chatId := messages])
  }

  /** CREATE_CHAT_SUCCESS: the new chat becomes the last entry of the list. */
  function ChatCreated(s: ChatState, c: Chat): (r: ChatState)
    ensures |r.chats| == |s.chats| + 1 && r.chats[|s.chats|] == c && r.chats[..|s.chats|] == s.chats
    ensures r.currentChat == s.currentChat && r.messages == s.messages
    ensures r.isLoading == s.isLoading && r.error == s.error
  {
    s.(chats := s.chats + [c])
  }

  /**
   * DELETE_CHAT: every chat with the id goes, the rest keep their order; the
   * selection is cleared iff it has that id; the message cache is not touched.
   */
  function ChatDeleted(s: ChatState, id: string): (r: ChatState)
    ensures forall c :: c in r.chats <==> c in s.chats && c.id != id
    ensures r.chats == WithoutId(s.chats, id)
    ensures r.currentChat == None <==> (s.currentChat == None || s.currentChat.value.id == id)
    ensures r.currentChat != None ==> r.currentChat == s.currentChat
    ensures r.messages == s.messages && r.isLoading == s.isLoading && r.error == s.error
  {
    s.(chats := WithoutId(s.chats, id),
       currentChat := if s.currentChat.Some? && s.currentChat.value.id == id then None else s.currentChat)
  }

  /** UPDATE_CHAT: entries with the payload's id are replaced in place; the selection is not refreshed. */
  function ChatUpdated(s: ChatState, c: Chat): (r: ChatState)
    ensures |r.chats| == |s.chats|
    ensures forall i :: 0 <= i < |s.chats| ==> r.chats[i] == if s.chats[i].id == c.id then c else s.chats[i]
    ensures r.currentChat == s.currentChat && r.messages == s.messages
    ensures r.isLoading == s.isLoading && r.error == s.error
  {
    s.(chats := ReplaceById(s.chats, c))
  }

  /**
   * `chatReducer`: the closed transition function of the chat store. Only
   * LOAD_CHATS_START turns loading on and only the other two load actions turn
   * it off; only LOAD_CHATS_SUCCESS can grow the list by more than one chat;
   * only SELECT_CHAT can make a selection where there was none.
   */
  function Reduce(s: ChatState, a: ChatAction): (r: ChatState)
    ensures r.isLoading <==> a.LoadChatsStart? || (s.isLoading && !a.LoadChatsSuccess? && !a.LoadChatsError?)
    ensures a.LoadChatsStart? ==> r.error == None
    ensures a.LoadChatsError? ==> r.error == Some(a.reason)
    ensures a.LoadChatsSuccess? || |r.chats| <= |s.chats| + 1
    ensures s.currentChat == None && r.currentChat != None ==> a.SelectChat?
  {
    match a
    case LoadChatsStart => LoadChatsStarted(s)
    case LoadChatsSuccess(chats) => ChatsLoaded(s, chats)
    case LoadChatsError(message) => ChatsLoadFailed(s, message)
    case SelectChat(c) => ChatSelected(s, c)
    case AddMessage(m) => MessageAdded(s, m)
    case LoadMessagesSuccess(chatId, messages) => MessagesLoaded(s, chatId, messages)
    case CreateChatSuccess(c) => ChatCreated(s, c)
    case DeleteChat(id) => ChatDeleted(s, id)
    case UpdateChat(c) => ChatUpdated(s, c)
  }

  /**
   * Applies a sequence of actions in order, as successive dispatches do: the
   * last action acts on the state the earlier ones reached.
   */
  function ReduceAll(s: ChatState, actions: seq<ChatAction>): (r: ChatState)
    ensures actions != [] ==> r == Reduce(ReduceAll(s, actions[..|actions| - 1]), actions[|actions| - 1])
    decreases |actions|
  {
    if actions == [] then s
    else
      var rest := actions[1..];
      assert rest != [] ==> rest[..|rest| - 1] == actions[..|actions| - 1][1..];
      ReduceAll(Reduce(s, actions[0]), rest)
  }

  /**
   * Which action may touch which field: only the two message actions touch the
   * cache, no action drops a cache entry, and only LOAD_MESSAGES_SUCCESS can
   * shorten a cached list.
   */
  lemma ReduceFrame(s: ChatState, a: ChatAction)
    ensures !(a.AddMessage? || a.LoadMessagesSuccess?) ==> Reduce(s, a).messages == s.messages
    ensures s.messages.Keys <= Reduce(s, a).messages.Keys
    ensures !a.LoadMessagesSuccess? ==>
      forall k :: k in s.messages ==> s.messages[k] <= Reduce(s, a).messages[k]
    ensures !(a.SelectChat? || a.DeleteChat?) ==> Reduce(s, a).currentChat == s.currentChat
    ensures a.LoadChatsStart? || a.LoadChatsError? || a.SelectChat? || a.AddMessage? || a.LoadMessagesSuccess?
      ==> Reduce(s, a).chats == s.chats
    ensures !(a.LoadChatsStart? || a.LoadChatsSuccess? || a.LoadChatsError?)
      ==> Reduce(s, a).isLoading == s.isLoading && Reduce(s, a).error == s.error
  {
  }

  /** Over any run without the two message actions, the message cache does not change. */
  lemma {:induction false} ReduceAllKeepsMessages(s: ChatState, actions: seq<ChatAction>)
    requires forall i :: 0 <= i < |actions| ==> !actions[i].AddMessage? && !actions[i].LoadMessagesSuccess?
    ensures ReduceAll(s, actions).messages == s.messages
    decreases |actions|
  {
    if actions != [] {
      ReduceFrame(s, actions[0]);
      ReduceAllKeepsMessages(Reduce(s, actions[0]), actions[1..]);
    }
  }

  /**
   * The conversation walk-through: load two chats, select the first, load its
   * messages, add one; the first chat then holds both messages in arrival
   * order and the second chat has no cache entry.
   */
  lemma ConversationScenario(a: Chat, b: Chat, m1: Message, m2: Message)
    requires a.id != b.id
    ensures var s := ReduceAll(InitialState(),
      [LoadChatsSuccess([a, b]), SelectChat(a), LoadMessagesSuccess(a.id, [m1]), AddMessage(m2)]);
      && s.chats == [a, b]
      && s.currentChat == Some(a)
      && MessagesOf(s.messages, a.id) == [m1, m2]
      && b.id !in s.messages
  {
    var actions := [LoadChatsSuccess([a, b]), SelectChat(a), LoadMessagesSuccess(a.id, [m1]), AddMessage(m2)];
    var s1 := Reduce(InitialState(), actions[0]);
    var s2 := Reduce(s1, actions[1]);
    var s3 := Reduce(s2, actions[2]);
    var s4 := Reduce(s3, actions[3]);
    assert ReduceAll(InitialState(), actions) == ReduceAll(s1, actions[1..]);
    assert ReduceAll(s1, actions[1..]) == ReduceAll(s2, actions[2..]);
    assert ReduceAll(s2, actions[2..]) == ReduceAll(s3, actions[3..]);
    assert ReduceAll(s3, actions[3..]) == ReduceAll(s4, []) == s4;
    assert MessagesOf(s4.messages, a.id) == [m1] + [m2];
  }

  // ---------------------------------------------------------------------------
  // The provider: the held state and the operations that dispatch into it.

  /** The sender fields every locally built message carries. */
  const CurrentUserId := "current-user-id"
  const CurrentUserName := "Current User"

  /** The message `sendMessage` builds; the id and the time stand for `Date.now()` and `new Date()`. */
  function OutgoingMessage(id: string, now: Timestamp, content: string, chatId: string): (m: Message)
    ensures m.content == content && m.chatId == chatId && m.isRead
    ensures m.senderId == CurrentUserId && m.senderName == CurrentUserName
  {
    Message(id, CurrentUserId, CurrentUserName, content, now, chatId, true)
  }

  class ChatProvider {
    var state: ChatState

    constructor ()
      ensures state == InitialState()
    {
      state := InitialState();
    }

    method Dispatch(a: ChatAction)
      modifies this
      ensures state == Reduce(old(state), a)
    {
      state := Reduce(state, a);
    }

    method SelectChat(c: Chat)
      modifies this
      ensures state == ChatSelected(old(state), c)
    {
      Dispatch(ChatAction.SelectChat(c));
    }

    /**
     * Without a current chat nothing is dispatched. Otherwise the built message is
     * appended to the current chat's list. The construction cannot throw, so the
     * `catch` branch is dead.
     */
    method SendMessage(content: string, id: string, now: Timestamp)
      modifies this
      ensures old(state).currentChat == None ==> state == old(state)
      ensures old(state).currentChat != None ==>
        var chatId := old(state).currentChat.value.id;
        && chatId in state.messages
        && state.messages[chatId] == MessagesOf(old(state).messages, chatId) + [OutgoingMessage(id, now, content, chatId)]
        && SameEntriesExcept(old(state).messages, state.messages, chatId)
        && state.chats == old(state).chats && state.currentChat == old(state).currentChat
        && state.isLoading == old(state).isLoading && state.error == old(state).error
    {
      if state.currentChat == None {
        return;
      }
      var m := OutgoingMessage(id, now, content, state.currentChat.value.id);
      Dispatch(AddMessage(m));
    }

    /**
     * START, then SUCCESS with the empty list (the fetch is still a stub, so the
     * ERROR branch is dead): from any state, the list ends empty, loading ends
     * and the error is cleared.
     */
    method LoadChats()
      modifies this
      ensures state == ReduceAll(old(state), [LoadChatsStart, LoadChatsSuccess([])])
      ensures state.chats == [] && !state.isLoading && state.error == None
      ensures state.currentChat == old(state).currentChat && state.messages == old(state).messages
    {
      Dispatch(LoadChatsStart);
      Dispatch(LoadChatsSuccess([]));
      assert ReduceAll(state, []) == state;
    }

    /** Dispatches SUCCESS with the empty list for the chat (the fetch is still a stub). */
    method LoadMessages(chatId: string)
      modifies this
      ensures state == MessagesLoaded(old(state), chatId, [])
      ensures MessagesOf(state.messages, chatId) == []
      ensures SameEntriesExcept(old(state).messages, state.messages, chatId)
    {
      Dispatch(LoadMessagesSuccess(chatId, []));
    }

    /** A stub: its body is commented out, so nothing is dispatched. */
    method CreatePrivateChat(participantId: string)
      ensures state == old(state)
    {
    }

    /** A stub: its body is commented out, so nothing is dispatched. */
    method CreateGroupChat(name: string, memberIds: seq<string>, description: Option<string>)
      ensures state == old(state)
    {
    }

    method DeleteChat(chatId: string)
      modifies this
      ensures state == ChatDeleted(old(state), chatId)
    {
      Dispatch(ChatAction.DeleteChat(chatId));
    }
  }
}
