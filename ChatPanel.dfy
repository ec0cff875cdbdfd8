/** components/ChatPanel.tsx: the chat with the robot. It loads the saved
    history on mount (seeding it with one system message when there is
    none), sends one trimmed instruction at a time to `/api/chat` while
    showing a typing flag, appends the reply or a fixed apology, clears to the
    system message, and saves the list to storage whenever it changes and is
    not empty. */
module ChatPanel {
  import opened Wrappers
  import opened Strings
  import opened Storage
  import ChatApi

  const SystemId: string := "system-1"
  const SystemText: string := "This chat sends instructions to Aura-67. Type natural language like 'go towards the apple'."
  const ErrorReply: string := "Sorry, I encountered an error. Please check the connection and try again."

  /** The system message, stamped `now`. */
  function SystemMessage(now: int): ChatMessage {
    ChatMessage(SystemId, Robot, SystemText, now)
  }

  /** The mount effect's list from what `loadChat` returned: the saved
      history, or the system message alone when it is empty. A `loadChat`
      that throws (None) gives None: nothing in the effect catches the
      error, so the effect ends without setting a list. */
  function Loaded(saved: Option<seq<ChatMessage>>, now: int): Option<seq<ChatMessage>> {
    match saved
    case None => None
    case Some(ms) => Some(if |ms| == 0 then [SystemMessage(now)] else ms)
  }

  /** The guard of `sendMessage`: `text.trim()` is non-empty and no reply is
      pending. */
  predicate SendAccepted(text: string, isTyping: bool) {
    !AllWhitespace(text) && !isTyping
  }

  /** The user message `sendMessage` appends. */
  function UserMessage(text: string, now: int): ChatMessage {
    ChatMessage("user-" + IntToString(now), User, Trim(text), now)
  }

  /** The request body's `messages`: the trimmed text alone. */
  function RequestMessages(text: string): seq<ChatApi.ApiMessage> {
    [ChatApi.ApiMessage(ChatApi.UserRole, Trim(text))]
  }

  /** The robot message appended when the request settles: the reply text,
      or the apology when the request or reading its text rejects. */
  function ReplyMessage(reply: Option<string>, now: int): ChatMessage {
    ChatMessage("robot-" + IntToString(now), Robot, reply.GetOr(ErrorReply), now)
  }

  /** What the save-on-change effect writes for a list. */
  function SavedOnChange(items: map<string, string>, hasWindow: bool, codec: JsonCodec, messages: seq<ChatMessage>): map<string, string> {
    if |messages| > 0 then SavedChat(items, hasWindow, codec, messages) else items
  }

  /** Mounting on an empty store shows exactly the system message; a saved
      history is shown as it is; a history that fails to parse throws out
      of the effect. */
  lemma LoadedCases(saved: Option<seq<ChatMessage>>, now: int)
    ensures saved == Some([]) ==> Loaded(saved, now) == Some([SystemMessage(now)])
    ensures saved.Some? && saved.value != [] ==> Loaded(saved, now) == Some(saved.value)
    ensures saved.None? <==> Loaded(saved, now).None?
  {
  }

  /** A new store (no chat key, or no window) mounts to the system message. */
  lemma MountOnEmptyStore(items: map<string, string>, hasWindow: bool, codec: JsonCodec, now: int)
    requires ChatKey !in items
    ensures Loaded(LoadedChat(items, hasWindow, codec), now) == Some([SystemMessage(now)])
  {
    ChatEmptyWhenAbsent(items, hasWindow, codec);
  }

  /** A sent message carries the instruction trimmed: non-empty, with no
      whitespace at either end, and the request carries the same text. */
  lemma UserMessageIsTrimmed(text: string, isTyping: bool, now: int)
    requires SendAccepted(text, isTyping)
    ensures var m := UserMessage(text, now);
            && m.role == User && m.text != ""
            && !IsWhitespace(m.text[0]) && !IsWhitespace(m.text[|m.text| - 1])
            && RequestMessages(text) == [ChatApi.ApiMessage(ChatApi.UserRole, m.text)]
  {
  }

  /** The reply shown is the response text when there is one and the fixed
      apology otherwise; both are robot messages. */
  lemma ReplyCases(reply: Option<string>, now: int)
    ensures ReplyMessage(reply, now).role == Robot
    ensures reply.Some? ==> ReplyMessage(reply, now).text == reply.value
    ensures reply.None? ==> ReplyMessage(reply, now).text == ErrorReply
  {
  }

  /** Saving on change keeps the store in step with a non-empty list: the next
      `loadChat` gives the list back (when JSON round-trips and there is a
      window). */
  lemma SaveOnChangeSyncs(items: map<string, string>, codec: JsonCodec, messages: seq<ChatMessage>)
    requires RoundTrips(codec) && |messages| > 0
    ensures LoadedChat(SavedOnChange(items, true, codec, messages), true, codec) == Some(messages)
  {
    ChatRoundTrip(items, codec, messages);
  }

  /** The empty list is never saved. */
  lemma EmptyListNotSaved(items: map<string, string>, hasWindow: bool, codec: JsonCodec)
    ensures SavedOnChange(items, hasWindow, codec, []) == items
  {
  }

  /** The component: the message list, the typing flag, and the storage it
      shares. */
  class Panel {
    var messages: seq<ChatMessage>
    var isTyping: bool
    const store: LocalStore

    /** The store holds the current list whenever the list is not empty (for
        a window whose JSON round-trips), as the save-on-change effect
        guarantees. */
    ghost predicate Synced()
      reads this, store
    {
      store.hasWindow && RoundTrips(store.codec) && |messages| > 0 ==>
        LoadedChat(store.items, store.hasWindow, store.codec) == Some(messages)
    }

    constructor (store: LocalStore)
      ensures this.store == store && messages == [] && !isTyping
      ensures Synced()
    {
      this.store := store;
      messages, isTyping := [], false;
    }

    /** The save-on-change effect, run after each change of `messages`. */
    method SaveIfChanged()
      modifies store
      ensures store.items == SavedOnChange(old(store.items), store.hasWindow, store.codec, messages)
      ensures Synced()
    {
      if |messages| > 0 {
        store.SaveChat(messages);
        if store.hasWindow && RoundTrips(store.codec) {
          SaveOnChangeSyncs(old(store.items), store.codec, messages);
        }
      }
    }

    /** The mount effect, then the save-on-change effect; it runs once, on
        the empty initial list. `thrown` reports that `loadChat` threw: the
        error leaves the effect with the list and the store untouched. */
    method Mount(now: int) returns (thrown: bool)
      modifies this, store
      requires messages == []
      ensures isTyping == old(isTyping)
      ensures var loaded := Loaded(LoadedChat(old(store.items), store.hasWindow, store.codec), now);
              && thrown == loaded.None?
              && (thrown ==> messages == [] && store.items == old(store.items))
              && (!thrown ==> messages == loaded.value
                              && store.items == SavedChat(old(store.items), store.hasWindow, store.codec, messages))
      ensures Synced()
    {
      var saved := store.LoadChat();
      if saved.None? {
        return true;
      }
      thrown := false;
      if |saved.value| == 0 {
        var system := SystemMessage(now);
        messages := [system];
        store.SaveChat([system]);
      } else {
        messages := saved.value;
      }
      SaveIfChanged();
    }

    /** `sendMessage` up to its `fetch`: on an accepted text, appends the
        user message, raises the typing flag, saves, and returns the request
        body's messages; otherwise changes nothing and returns None. */
    method SendMessage(text: string, now: int) returns (request: Option<seq<ChatApi.ApiMessage>>)
      requires Synced()
      modifies this, store
      ensures SendAccepted(text, old(isTyping)) ==>
                && messages == old(messages) + [UserMessage(text, now)]
                && isTyping
                && request == Some(RequestMessages(text))
                && store.items == SavedOnChange(old(store.items), store.hasWindow, store.codec, messages)
      ensures !SendAccepted(text, old(isTyping)) ==>
                && messages == old(messages) && isTyping == old(isTyping)
                && request.None? && store.items == old(store.items)
      ensures Synced()
    {
      var blank := IsBlank(text);
      if blank || isTyping {
        return None;
      }
      var trimmed := Trim(text);
      var userMessage := ChatMessage("user-" + IntToString(now), User, trimmed, now);
      messages := messages + [userMessage];
      isTyping := true;
      SaveIfChanged();
      request := Some([ChatApi.ApiMessage(ChatApi.UserRole, trimmed)]);
    }

    /** `sendMessage` after its `fetch` settles: the reply text, or None when
        the request or reading it rejects. The appended message goes after
        whatever the list holds by then. */
    method ReceiveReply(reply: Option<string>, now: int)
      modifies this, store
      ensures messages == old(messages) + [ReplyMessage(reply, now)]
      ensures !isTyping
      ensures store.items == SavedOnChange(old(store.items), store.hasWindow, store.codec, messages)
      ensures Synced()
    {
      var text := if reply.Some? then reply.value else ErrorReply;
      messages := messages + [ChatMessage("robot-" + IntToString(now), Robot, text, now)];
      isTyping := false;
      SaveIfChanged();
    }

    /** `clearChat`: the list becomes the system message alone, and the store
        holds exactly that. */
    method ClearChat(now: int)
      modifies this, store
      ensures isTyping == old(isTyping)
      ensures messages == [SystemMessage(now)]
      ensures store.items == SavedChat(ClearedChat(old(store.items), store.hasWindow), store.hasWindow, store.codec, messages)
      ensures Synced()
    {
      var system := SystemMessage(now);
      messages := [system];
      store.ClearChat();
      store.SaveChat([system]);
      SaveIfChanged();
      assert SavedChat(SavedChat(ClearedChat(old(store.items), store.hasWindow), store.hasWindow, store.codec, messages),
                       store.hasWindow, store.codec, messages)
          == SavedChat(ClearedChat(old(store.items), store.hasWindow), store.hasWindow, store.codec, messages);
    }
  }
}
