/** components/useChatApi.ts: a hook holding a list of chat messages in the
    API's `{role, content}` shape, whose `send` appends the user's text, posts
    it alone to `/api/chat`, and then appends the response text as the
    assistant's reply. Between the two halves the request is in flight. */
module ChatApi {
  import opened Wrappers

  datatype ApiRole = UserRole | Assistant

  /** `{ role, content }`. */
  datatype ApiMessage = ApiMessage(role: ApiRole, content: string)

  /** A `send` whose request is in flight: the list it set (`next`, which the
      completion extends) and the `messages` of the request body. */
  datatype PendingSend = PendingSend(next: seq<ApiMessage>, body: seq<ApiMessage>)

  /** The first half of `send`: the list with the user's text appended, as
      typed (not trimmed), and the request carrying only that message. */
  function Begin(messages: seq<ApiMessage>, userText: string): PendingSend {
    var user := ApiMessage(UserRole, userText);
    PendingSend(messages + [user], [user])
  }

  /** The second half: `[...next, assistant]` once the response text is
      read; None (the request or `res.text()` rejects) sets nothing. */
  function Complete(current: seq<ApiMessage>, p: PendingSend, responseText: Option<string>): seq<ApiMessage> {
    match responseText
    case Some(text) => p.next + [ApiMessage(Assistant, text)]
    case None => current
  }

  /** `send` first shows the untrimmed user text at the end of the list, and
      the request body holds that one message and no history. */
  lemma BeginAppendsUser(messages: seq<ApiMessage>, userText: string)
    ensures var p := Begin(messages, userText);
            && p.next == messages + [ApiMessage(UserRole, userText)]
            && p.body == [ApiMessage(UserRole, userText)]
            && p.next[..|messages|] == messages
  {
  }

  /** A completed `send` leaves the old list followed by the user message and
      then the assistant message, in that order. */
  lemma SendThenComplete(messages: seq<ApiMessage>, userText: string, responseText: string)
    ensures Complete(Begin(messages, userText).next, Begin(messages, userText), Some(responseText))
              == messages + [ApiMessage(UserRole, userText), ApiMessage(Assistant, responseText)]
  {
  }

  /** A rejected request appends no assistant message: the list stays as the
      first half left it. */
  lemma RejectedSendKeepsUser(messages: seq<ApiMessage>, userText: string)
    ensures Complete(Begin(messages, userText).next, Begin(messages, userText), None)
              == messages + [ApiMessage(UserRole, userText)]
  {
  }

  /** The completion writes the list captured when the request began, not the
      current one: whatever was appended meanwhile (say, by a second `send`)
      is dropped. */
  lemma CompletionOverwritesLaterChanges(p: PendingSend, current: seq<ApiMessage>, text: string)
    ensures Complete(current, p, Some(text)) == p.next + [ApiMessage(Assistant, text)]
    ensures |Complete(current, p, Some(text))| == |p.next| + 1
  {
  }

  /** The hook's state. */
  class Hook {
    var messages: seq<ApiMessage>

    constructor ()
      ensures messages == []
    {
      messages := [];
    }

    /** `send` up to its `fetch`; returns the request in flight. */
    method Send(userText: string) returns (p: PendingSend)
      modifies this
      ensures p == Begin(old(messages), userText)
      ensures messages == p.next
    {
      var user := ApiMessage(UserRole, userText);
      var next := messages + [user];
      messages := next;
      p := PendingSend(next, [user]);
    }

    /** `send` after its `fetch`, given the response text or None when the
        request rejects. */
    method Receive(p: PendingSend, responseText: Option<string>)
      modifies this
      ensures messages == Complete(old(messages), p, responseText)
    {
      if responseText.Some? {
        messages := p.next + [ApiMessage(Assistant, responseText.value)];
      }
    }
  }
}
