/** lib/storage.ts: the chat history and the stream URL kept in the
    browser's localStorage, a key→string map, under two fixed keys. Every
    operation is a no-op (or returns its default) when there is no `window`,
    as during server-side rendering. */
module Storage {
  import opened Wrappers

  datatype Role = User | Robot

  /** `ChatMessage`: id, role, text and a millisecond timestamp. */
  datatype ChatMessage = ChatMessage(id: string, role: Role, text: string, timestamp: int)

  const ChatKey: string := "aura-67-chat"
  const UrlKey: string := "aura-67-stream-url"
  /** The default stream, "https://test-streams.mux.dev/x36xhzz/x36xhzz.m3u8",
      as its origin and its path. */
  const DefaultOrigin: string := "https://test-streams.mux.dev"
  const DefaultPath: string := "/x36xhzz/x36xhzz.m3u8"
  const DefaultUrl: string := DefaultOrigin + DefaultPath

  /** The default stream's address contains no digit `1`. */
  lemma DefaultUrlHasNoOne()
    ensures '1' !in DefaultUrl
  {
    DefaultOriginHasNoOne();
    DefaultPathHasNoOne();
  }

  lemma DefaultOriginHasNoOne()
    ensures '1' !in DefaultOrigin
  {
  }

  lemma DefaultPathHasNoOne()
    ensures '1' !in DefaultPath
  {
  }

  /** `JSON.stringify` and `JSON.parse` on chat histories; `parse` yields
      None where `JSON.parse` would throw. */
  datatype JsonCodec = JsonCodec(stringify: seq<ChatMessage> -> string, parse: string -> Option<seq<ChatMessage>>)

  /** What the model assumes of JSON: parsing a stringified history gives
      it back, and a stringified array is never the empty string. */
  ghost predicate RoundTrips(codec: JsonCodec) {
    forall ms :: codec.parse(codec.stringify(ms)) == Some(ms) && codec.stringify(ms) != ""
  }

  /** `saveChat` on the map. */
  function SavedChat(items: map<string, string>, hasWindow: bool, codec: JsonCodec, messages: seq<ChatMessage>): map<string, string> {
    if hasWindow then items[ChatKey := codec.stringify(messages)] else items
  }

  /** `loadChat` on the map: an absent or empty entry gives `[]`; None is a
      thrown parse error. */
  function LoadedChat(items: map<string, string>, hasWindow: bool, codec: JsonCodec): Option<seq<ChatMessage>> {
    if !hasWindow then Some([])
    else if ChatKey !in items || items[ChatKey] == "" then Some([])
    else codec.parse(items[ChatKey])
  }

  /** `saveUrl` on the map. */
  function SavedUrl(items: map<string, string>, hasWindow: bool, url: string): map<string, string> {
    if hasWindow then items[UrlKey := url] else items
  }

  /** `loadUrl` on the map: `getItem(...) || DefaultUrl`. */
  function LoadedUrl(items: map<string, string>, hasWindow: bool): string {
    if hasWindow && UrlKey in items && items[UrlKey] != "" then items[UrlKey] else DefaultUrl
  }

  /** `clearChat` on the map. */
  function ClearedChat(items: map<string, string>, hasWindow: bool): map<string, string> {
    if hasWindow then items - {ChatKey} else items
  }

  /** Saving a non-empty URL and loading it gives it back. */
  lemma UrlRoundTrip(items: map<string, string>, url: string)
    requires url != ""
    ensures LoadedUrl(SavedUrl(items, true, url), true) == url
  {
  }

  /** The default is returned exactly when nothing usable is stored: no
      window, no entry, or the empty string (because of `||`). */
  lemma UrlDefault(items: map<string, string>, hasWindow: bool)
    ensures LoadedUrl(items, hasWindow) == DefaultUrl <==>
              (!hasWindow || UrlKey !in items || items[UrlKey] in {"", DefaultUrl})
  {
  }

  /** Saving the empty URL makes the next load return the default. */
  lemma SavedEmptyUrlLoadsDefault(items: map<string, string>, hasWindow: bool)
    ensures LoadedUrl(SavedUrl(items, hasWindow, ""), hasWindow) == DefaultUrl
  {
  }

  /** Saving a history and loading it gives it back, when JSON round-trips. */
  lemma ChatRoundTrip(items: map<string, string>, codec: JsonCodec, messages: seq<ChatMessage>)
    requires RoundTrips(codec)
    ensures LoadedChat(SavedChat(items, true, codec, messages), true, codec) == Some(messages)
  {
    assert codec.stringify(messages) != "";
  }

  /** With no chat entry, loading gives the empty history. */
  lemma ChatEmptyWhenAbsent(items: map<string, string>, hasWindow: bool, codec: JsonCodec)
    requires ChatKey !in items
    ensures LoadedChat(items, hasWindow, codec) == Some([])
  {
  }

  /** Clearing the chat removes the chat key and nothing else. */
  lemma ClearChatOnlyRemovesChat(items: map<string, string>, codec: JsonCodec)
    ensures ClearedChat(items, true).Keys == items.Keys - {ChatKey}
    ensures forall k :: k in items && k != ChatKey ==> ClearedChat(items, true)[k] == items[k]
    ensures LoadedChat(ClearedChat(items, true), true, codec) == Some([])
    ensures LoadedUrl(ClearedChat(items, true), true) == LoadedUrl(items, true)
  {
    assert UrlKey != ChatKey;
  }

  /** The two keys are independent: saving one never changes what the other
      loads. */
  lemma KeysIndependent(items: map<string, string>, hasWindow: bool, codec: JsonCodec, url: string, messages: seq<ChatMessage>)
    ensures LoadedUrl(SavedChat(items, hasWindow, codec, messages), hasWindow) == LoadedUrl(items, hasWindow)
    ensures LoadedChat(SavedUrl(items, hasWindow, url), hasWindow, codec) == LoadedChat(items, hasWindow, codec)
  {
    assert UrlKey != ChatKey;
  }

  /** Without a window every save leaves the map alone and the loads return
      their defaults. */
  lemma NoWindowDefaults(items: map<string, string>, codec: JsonCodec, url: string, messages: seq<ChatMessage>)
    ensures SavedChat(items, false, codec, messages) == items
    ensures SavedUrl(items, false, url) == items
    ensures ClearedChat(items, false) == items
    ensures LoadedChat(items, false, codec) == Some([])
    ensures LoadedUrl(items, false) == DefaultUrl
  {
  }

  /** The `storage` object over localStorage. Whether a `window` exists and
      how JSON behaves are fixed for its lifetime. */
  class LocalStore {
    var items: map<string, string>
    const hasWindow: bool
    const codec: JsonCodec

    constructor (hasWindow: bool, codec: JsonCodec, items: map<string, string>)
      ensures this.hasWindow == hasWindow && this.codec == codec && this.items == items
    {
      this.hasWindow := hasWindow;
      this.codec := codec;
      this.items := items;
    }

    method SaveChat(messages: seq<ChatMessage>)
      modifies this
      ensures items == SavedChat(old(items), hasWindow, codec, messages)
    {
      if hasWindow {
        items := items[ChatKey := codec.stringify(messages)];
      }
    }

    method LoadChat() returns (r: Option<seq<ChatMessage>>)
      ensures r == LoadedChat(items, hasWindow, codec)
    {
      if hasWindow {
        var saved := if ChatKey in items then items[ChatKey] else "";
        r := if saved != "" then codec.parse(saved) else Some([]);
      } else {
        r := Some([]);
      }
    }

    method SaveUrl(url: string)
      modifies this
      ensures items == SavedUrl(old(items), hasWindow, url)
    {
      if hasWindow {
        items := items[UrlKey := url];
      }
    }

    method LoadUrl() returns (r: string)
      ensures r == LoadedUrl(items, hasWindow)
    {
      if hasWindow {
        var saved := if UrlKey in items then items[UrlKey] else "";
        r := if saved != "" then saved else DefaultUrl;
      } else {
        r := DefaultUrl;
      }
    }

    method ClearChat()
      modifies this
      ensures items == ClearedChat(old(items), hasWindow)
    {
      if hasWindow {
        items := items - {ChatKey};
      }
    }
  }
}
