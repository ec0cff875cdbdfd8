/** components/VideoPanel.tsx: the video connection state machine. The panel
    holds the stream URL, a status (disconnected, connecting, live, error),
    an error message, one slot for the hls.js fallback client (`hlsRef`) and
    the `src` of the `<video>` element. `connect`, `disconnect`, `retry`, the
    mount-time URL load and the media/hls.js event callbacks each run to
    completion as one step.

    Each step is given twice: as a pure function on a `PanelState` value
    (the specification, about which the lemmas below speak), and as a method
    of the class `Panel`, which updates the component's fields one
    assignment at a time as the handler does and is proved to produce that
    function's result. */
module VideoPanel {
  import opened Wrappers
  import opened Strings
  import opened StreamUtils
  import Storage

  datatype VideoStatus = Disconnected | Connecting | Live | Error

  /** The string values of the `VideoStatus` union. */
  function StatusName(s: VideoStatus): string {
    match s
    case Disconnected => "disconnected"
    case Connecting => "connecting"
    case Live => "live"
    case Error => "error"
  }

  const NotFoundText: string := "Video element not found"
  const HlsUnsupportedText: string := "HLS is not supported in this browser"
  const MediaErrorText: string := "Failed to load stream. Please check the URL."
  const HlsErrorPrefix: string := "HLS error: "
  const UnknownErrorText: string := "Unknown error"

  /** An hls.js instance, identified by creation order, with the source it
      was given by `loadSource`. */
  datatype HlsClient = HlsClient(id: nat, source: string)

  /** The panel's state. `metadataListener` and `mediaErrorListener` say
      whether the native path's one-shot `loadedmetadata` and `error`
      handlers are registered on the video element; `nextClientId` counts
      the hls.js instances created so far and `destroyed` lists, in order,
      the ids on which `destroy()` was called. */
  datatype PanelState = PanelState(
    url: string,
    status: VideoStatus,
    errorMessage: string,
    hls: Option<HlsClient>,
    src: string,
    metadataListener: bool,
    mediaErrorListener: bool,
    nextClientId: nat,
    destroyed: seq<nat>)

  const Initial: PanelState := PanelState("", Disconnected, "", None, "", false, false, 0, [])

  /** Every client ever created has been destroyed exactly once, except the
      one in the slot, which has not been destroyed. */
  predicate ClientsAccounted(s: PanelState) {
    ClientLog(s.hls, s.nextClientId, s.destroyed)
  }

  /** `ClientsAccounted` on the three fields it depends on. */
  predicate ClientLog(slot: Option<HlsClient>, created: nat, destroyed: seq<nat>) {
    && (forall k :: 0 <= k < |destroyed| ==> destroyed[k] < created)
    && (forall k, l :: 0 <= k < l < |destroyed| ==> destroyed[k] != destroyed[l])
    && (slot.Some? ==> slot.value.id < created && slot.value.id !in destroyed)
    && (forall id: nat :: id < created ==> id in destroyed || (slot.Some? && slot.value.id == id))
  }

  /** The clients created and not destroyed. */
  function Attached(s: PanelState): set<nat> {
    set id: nat | id < s.nextClientId && id !in s.destroyed
  }

  /** At most one client is ever attached: exactly the one in the slot. */
  lemma AtMostOneAttached(s: PanelState)
    requires ClientsAccounted(s)
    ensures Attached(s) == if s.hls.Some? then {s.hls.value.id} else {}
    ensures |Attached(s)| <= 1
  {
    if s.hls.Some? {
      assert s.hls.value.id in Attached(s);
    }
  }

  /** The initial state accounts for its (no) clients. */
  lemma InitialAccounted()
    ensures ClientsAccounted(Initial) && Attached(Initial) == {}
  {
  }

  /** The text of a fatal hls.js error: `details || "Unknown error"`. */
  function HlsErrorMessage(details: Option<string>): string {
    HlsErrorPrefix + (if details.None? || details.value == "" then UnknownErrorText else details.value)
  }

  /** The mount effect: the stored URL, proxied. */
  function AfterMount(s: PanelState, storedUrl: string): PanelState {
    s.(url := ConvertToProxyUrl(storedUrl))
  }

  /** What the mount effect writes back to storage. */
  function MountWrites(storedUrl: string): Option<string> {
    var proxied := ConvertToProxyUrl(storedUrl);
    if proxied != storedUrl then Some(proxied) else None
  }

  /** The URL input's `onChange`. */
  function AfterEdit(s: PanelState, text: string): PanelState {
    s.(url := text)
  }

  /** `connect`, given whether the video element exists, whether it can play
      HLS natively, and `Hls.isSupported()`. A blank URL (`!url.trim()`,
      which by the contract of `Trim` is an all-whitespace URL) is ignored. */
  function AfterConnect(s: PanelState, hasVideo: bool, nativeHls: bool, hlsSupported: bool): PanelState {
    if AllWhitespace(s.url) then s
    else AfterSetup(Started(s), hasVideo, nativeHls, hlsSupported)
  }

  /** The part of `connect` before its `try`: the URL proxied, the status
      connecting, the message cleared. */
  function Started(s: PanelState): PanelState {
    s.(url := ConvertToProxyUrl(s.url), status := Connecting, errorMessage := "")
  }

  /** The `try` block of `connect` and its `catch`, on the URL already
      proxied. */
  function AfterSetup(s: PanelState, hasVideo: bool, nativeHls: bool, hlsSupported: bool): PanelState {
    if !hasVideo then
      s.(status := Error, errorMessage := NotFoundText)
    else if nativeHls then
      s.(src := s.url, metadataListener := true, mediaErrorListener := true)
    else if hlsSupported then
      s.(hls := Some(HlsClient(s.nextClientId, s.url)),
         nextClientId := s.nextClientId + 1,
         destroyed := if s.hls.Some? then s.destroyed + [s.hls.value.id] else s.destroyed)
    else
      s.(status := Error, errorMessage := HlsUnsupportedText)
  }

  /** What `connect` writes to storage. */
  function ConnectWrites(s: PanelState): Option<string> {
    if AllWhitespace(s.url) then None else MountWrites(s.url)
  }

  /** The native path's `loadedmetadata` handler, which removes itself. */
  function AfterLoadedMetadata(s: PanelState): PanelState {
    if s.metadataListener then s.(status := Live, metadataListener := false) else s
  }

  /** The native path's `error` handler, which removes itself. */
  function AfterMediaError(s: PanelState): PanelState {
    if s.mediaErrorListener then s.(status := Error, errorMessage := MediaErrorText, mediaErrorListener := false) else s
  }

  /** `MANIFEST_PARSED` from the attached client. */
  function AfterManifestParsed(s: PanelState): PanelState {
    if s.hls.Some? then s.(status := Live) else s
  }

  /** `ERROR` from the attached client; non-fatal errors are ignored. */
  function AfterHlsError(s: PanelState, fatal: bool, details: Option<string>): PanelState {
    if s.hls.Some? && fatal then s.(status := Error, errorMessage := HlsErrorMessage(details)) else s
  }

  /** `disconnect`. */
  function AfterDisconnect(s: PanelState, hasVideo: bool): PanelState {
    var released := if s.hls.Some? then s.(destroyed := s.destroyed + [s.hls.value.id], hls := None) else s;
    var cleared := if hasVideo then released.(src := "") else released;
    cleared.(status := Disconnected)
  }

  /** `retry`, up to the `connect` it schedules. */
  function AfterRetry(s: PanelState): PanelState {
    s.(status := Disconnected, errorMessage := "")
  }

  /** `connect` on a blank URL (empty or only whitespace) changes nothing and
      writes nothing. */
  lemma ConnectIgnoresBlankUrl(s: PanelState, hasVideo: bool, nativeHls: bool, hlsSupported: bool)
    requires AllWhitespace(s.url)
    ensures AfterConnect(s, hasVideo, nativeHls, hlsSupported) == s
    ensures ConnectWrites(s) == None
  {
  }

  /** Otherwise `connect` replaces the URL by its proxied form, which is
      never a direct robot URL, and writes to storage exactly when that
      changed it. */
  lemma ConnectProxiesUrl(s: PanelState, hasVideo: bool, nativeHls: bool, hlsSupported: bool)
    requires !AllWhitespace(s.url)
    ensures var r := AfterConnect(s, hasVideo, nativeHls, hlsSupported);
            && r.url == ConvertToProxyUrl(s.url)
            && !IsRobotUrl(r.url)
            && (ConnectWrites(s).Some? <==> r.url != s.url)
            && (ConnectWrites(s).Some? ==> ConnectWrites(s).value == r.url)
  {
    ProxyOutputIsNotRobotUrl(s.url);
  }

  /** The status and message `connect` leaves: connecting with a cleared
      message unless setup fails for want of a video element or of any HLS
      support, each with its own message. */
  lemma ConnectOutcome(s: PanelState, hasVideo: bool, nativeHls: bool, hlsSupported: bool)
    requires !AllWhitespace(s.url)
    ensures var r := AfterConnect(s, hasVideo, nativeHls, hlsSupported);
            && r.status == (if !hasVideo || (!nativeHls && !hlsSupported) then Error else Connecting)
            && r.errorMessage == (if !hasVideo then NotFoundText else if !nativeHls && !hlsSupported then HlsUnsupportedText else "")
  {
  }

  /** The native path hands the proxied URL to the video element, arms both
      one-shot handlers, and leaves the client slot alone. */
  lemma ConnectNativePath(s: PanelState, hlsSupported: bool)
    requires !AllWhitespace(s.url)
    ensures var r := AfterConnect(s, true, true, hlsSupported);
            && r.src == r.url && r.metadataListener && r.mediaErrorListener
            && r.hls == s.hls && r.destroyed == s.destroyed
  {
  }

  /** The fallback path destroys the client in the slot, if any, and then
      stores a new client loading the proxied URL. */
  lemma ConnectFallbackPath(s: PanelState)
    requires !AllWhitespace(s.url)
    ensures var r := AfterConnect(s, true, false, true);
            && r.hls == Some(HlsClient(s.nextClientId, r.url))
            && r.destroyed == s.destroyed + (if s.hls.Some? then [s.hls.value.id] else [])
            && r.src == s.src
  {
  }

  /** The setup step keeps every client accounted for. */
  lemma SetupKeepsClientsAccounted(s: PanelState, hasVideo: bool, nativeHls: bool, hlsSupported: bool)
    requires ClientsAccounted(s)
    ensures ClientsAccounted(AfterSetup(s, hasVideo, nativeHls, hlsSupported))
  {
    var r := AfterSetup(s, hasVideo, nativeHls, hlsSupported);
    if hasVideo && !nativeHls && hlsSupported {
      forall id: nat | id < r.nextClientId
        ensures id in r.destroyed || (r.hls.Some? && r.hls.value.id == id)
      {
        if id < s.nextClientId && id !in s.destroyed {
          assert s.hls.Some? && s.hls.value.id == id;
          assert r.destroyed[|r.destroyed| - 1] == id;
        }
      }
      forall k, l | 0 <= k < l < |r.destroyed| ensures r.destroyed[k] != r.destroyed[l] {
        if s.hls.Some? && l == |s.destroyed| {
          assert r.destroyed[k] == s.destroyed[k];
        }
      }
    }
  }

  /** `connect` keeps every client accounted for. */
  lemma ConnectKeepsClientsAccounted(s: PanelState, hasVideo: bool, nativeHls: bool, hlsSupported: bool)
    requires ClientsAccounted(s)
    ensures ClientsAccounted(AfterConnect(s, hasVideo, nativeHls, hlsSupported))
  {
    SetupKeepsClientsAccounted(Started(s), hasVideo, nativeHls, hlsSupported);
  }

  /** `disconnect` keeps every client accounted for and releases the client
      in the slot exactly once. */
  lemma DisconnectReleasesOnce(s: PanelState, hasVideo: bool)
    requires ClientsAccounted(s)
    ensures var r := AfterDisconnect(s, hasVideo);
            && ClientsAccounted(r)
            && Attached(r) == {}
            && (s.hls.Some? ==> s.hls.value.id !in s.destroyed && r.destroyed == s.destroyed + [s.hls.value.id])
            && (s.hls.None? ==> r.destroyed == s.destroyed)
  {
    var r := AfterDisconnect(s, hasVideo);
    if s.hls.Some? {
      forall k, l | 0 <= k < l < |r.destroyed| ensures r.destroyed[k] != r.destroyed[l] {
        if l == |s.destroyed| {
          assert r.destroyed[k] == s.destroyed[k];
        }
      }
    }
    AtMostOneAttached(r);
  }

  /** Event callbacks, editing, mounting and `retry` never touch the clients. */
  lemma EventsKeepClientsAccounted(s: PanelState, storedUrl: string, text: string, fatal: bool, details: Option<string>)
    requires ClientsAccounted(s)
    ensures ClientsAccounted(AfterLoadedMetadata(s)) && ClientsAccounted(AfterMediaError(s))
    ensures ClientsAccounted(AfterManifestParsed(s)) && ClientsAccounted(AfterHlsError(s, fatal, details))
    ensures ClientsAccounted(AfterMount(s, storedUrl)) && ClientsAccounted(AfterEdit(s, text))
    ensures ClientsAccounted(AfterRetry(s))
  {
  }

  /** `disconnect` from any state: disconnected, empty slot, cleared source
      (when there is a video element); URL and error message are kept. */
  lemma DisconnectFromAnyState(s: PanelState, hasVideo: bool)
    ensures var r := AfterDisconnect(s, hasVideo);
            && r.status == Disconnected && r.hls.None?
            && (hasVideo ==> r.src == "") && (!hasVideo ==> r.src == s.src)
            && r.url == s.url && r.errorMessage == s.errorMessage
  {
  }

  /** Disconnecting twice is disconnecting once. */
  lemma DisconnectIdempotent(s: PanelState, hasVideo: bool)
    ensures AfterDisconnect(AfterDisconnect(s, hasVideo), hasVideo) == AfterDisconnect(s, hasVideo)
  {
  }

  /** On the native path, `loadedmetadata` makes the panel live, once. */
  lemma LoadedMetadataGoesLive(s: PanelState)
    ensures s.metadataListener ==> AfterLoadedMetadata(s) == s.(status := Live, metadataListener := false)
    ensures !s.metadataListener ==> AfterLoadedMetadata(s) == s
  {
  }

  /** On the fallback path, `MANIFEST_PARSED` makes the panel live. */
  lemma ManifestParsedGoesLive(s: PanelState)
    ensures s.hls.Some? ==> AfterManifestParsed(s) == s.(status := Live)
    ensures s.hls.None? ==> AfterManifestParsed(s) == s
  {
  }

  /** A fatal hls.js error fails the connection with a non-empty message
      naming the details; a non-fatal one changes nothing. */
  lemma HlsErrorOutcome(s: PanelState, fatal: bool, details: Option<string>)
    ensures s.hls.Some? && fatal ==> AfterHlsError(s, fatal, details).status == Error
    ensures s.hls.Some? && fatal && details.Some? && details.value != "" ==>
              AfterHlsError(s, fatal, details).errorMessage == HlsErrorPrefix + details.value
    ensures s.hls.Some? && fatal && (details.None? || details.value == "") ==>
              AfterHlsError(s, fatal, details).errorMessage == HlsErrorPrefix + UnknownErrorText
    ensures s.hls.Some? && fatal ==> |AfterHlsError(s, fatal, details).errorMessage| > |HlsErrorPrefix|
    ensures !fatal ==> AfterHlsError(s, fatal, details) == s
  {
  }

  /** A native media error fails the connection with the fixed message. */
  lemma MediaErrorFails(s: PanelState)
    ensures s.mediaErrorListener ==>
              AfterMediaError(s) == s.(status := Error, errorMessage := MediaErrorText, mediaErrorListener := false)
    ensures !s.mediaErrorListener ==> AfterMediaError(s) == s
  {
  }

  /** `retry` resets to disconnected with no message; the `connect` it
      schedules then either starts a new attempt with a cleared message, or,
      on a blank URL, leaves the panel disconnected. */
  lemma RetryThenConnect(s: PanelState, hasVideo: bool, nativeHls: bool, hlsSupported: bool)
    ensures AfterRetry(s) == s.(status := Disconnected, errorMessage := "")
    ensures var r := AfterConnect(AfterRetry(s), hasVideo, nativeHls, hlsSupported);
            && (AllWhitespace(s.url) ==> r.status == Disconnected && r.errorMessage == "")
            && (!AllWhitespace(s.url) && r.status != Error ==> r.status == Connecting && r.errorMessage == "")
  {
  }

  /** On mount the stored URL is proxied, and written back exactly when
      proxying changed it. */
  lemma MountProxiesStoredUrl(s: PanelState, storedUrl: string)
    ensures AfterMount(s, storedUrl).url == ConvertToProxyUrl(storedUrl)
    ensures !IsRobotUrl(AfterMount(s, storedUrl).url)
    ensures MountWrites(storedUrl).Some? <==> ConvertToProxyUrl(storedUrl) != storedUrl
    ensures MountWrites(storedUrl).Some? ==> MountWrites(storedUrl).value == ConvertToProxyUrl(storedUrl)
  {
    ProxyOutputIsNotRobotUrl(storedUrl);
  }

  /** The storage map after an optional URL write. */
  function Written(items: map<string, string>, hasWindow: bool, write: Option<string>): map<string, string> {
    match write
    case Some(u) => Storage.SavedUrl(items, hasWindow, u)
    case None => items
  }

  /** The built-in default stream is not a robot URL, so it is never
      rewritten. */
  lemma DefaultUrlIsNotRobotUrl()
    ensures ConvertToProxyUrl(Storage.DefaultUrl) == Storage.DefaultUrl
  {
    Storage.DefaultUrlHasNoOne();
    WithoutOneNotRobotUrl(Storage.DefaultUrl);
  }

  /** After one mount has written back the proxied URL, the next mount finds
      it in storage and writes nothing. */
  lemma MountIsStable(items: map<string, string>, hasWindow: bool)
    ensures var stored := Storage.LoadedUrl(items, hasWindow);
            var after := Written(items, hasWindow, MountWrites(stored));
            MountWrites(Storage.LoadedUrl(after, hasWindow)) == None
  {
    var stored := Storage.LoadedUrl(items, hasWindow);
    if !hasWindow {
      DefaultUrlIsNotRobotUrl();
    } else if MountWrites(stored).Some? {
      var proxied := ConvertToProxyUrl(stored);
      assert Written(items, hasWindow, MountWrites(stored)) == items[Storage.UrlKey := proxied];
      ReloadAfterWrite(items, stored);
    }
  }

  /** Mounting on what the last mount wrote back writes nothing. */
  lemma ReloadAfterWrite(items: map<string, string>, stored: string)
    requires IsRobotUrl(stored)
    ensures MountWrites(Storage.LoadedUrl(items[Storage.UrlKey := ConvertToProxyUrl(stored)], true)) == None
  {
    var proxied := ConvertToProxyUrl(stored);
    assert proxied != "" by {
      assert proxied == ProxyPrefix + PathAfterMarker(stored);
    }
    Storage.UrlRoundTrip(items, proxied);
    ProxyIdempotent(stored);
  }

  /** The component: its state fields, plus whether the `<video>` element is
      mounted and the storage it uses. */
  class Panel {
    var url: string
    var status: VideoStatus
    var errorMessage: string
    var hls: Option<HlsClient>
    var src: string
    var metadataListener: bool
    var mediaErrorListener: bool
    var nextClientId: nat
    var destroyed: seq<nat>
    const hasVideo: bool
    const store: Storage.LocalStore

    ghost function State(): PanelState
      reads this
    {
      PanelState(url, status, errorMessage, hls, src, metadataListener, mediaErrorListener, nextClientId, destroyed)
    }

    ghost predicate Valid()
      reads this
    {
      ClientsAccounted(State())
    }

    constructor (hasVideo: bool, store: Storage.LocalStore)
      ensures Valid() && State() == Initial
      ensures this.hasVideo == hasVideo && this.store == store
    {
      url, status, errorMessage := "", Disconnected, "";
      hls, src := None, "";
      metadataListener, mediaErrorListener := false, false;
      nextClientId, destroyed := 0, [];
      this.hasVideo, this.store := hasVideo, store;
    }

    /** The mount effect: load, proxy, write back if changed. */
    method Mount()
      requires Valid()
      modifies this, store
      ensures Valid()
      ensures var stored := Storage.LoadedUrl(old(store.items), store.hasWindow);
              && State() == AfterMount(old(State()), stored)
              && store.items == Written(old(store.items), store.hasWindow, MountWrites(stored))
    {
      var savedUrl := store.LoadUrl();
      var proxiedUrl := ConvertToProxyUrl(savedUrl);
      url := proxiedUrl;
      if proxiedUrl != savedUrl {
        store.SaveUrl(proxiedUrl);
      }
    }

    /** The URL input's `onChange`; the input is disabled while connecting. */
    method EditUrl(text: string)
      requires Valid() && status != Connecting
      modifies this
      ensures Valid() && State() == AfterEdit(old(State()), text)
    {
      url := text;
    }

    method Connect(nativeHls: bool, hlsSupported: bool)
      requires Valid()
      modifies this, store
      ensures Valid()
      ensures State() == AfterConnect(old(State()), hasVideo, nativeHls, hlsSupported)
      ensures store.items == Written(old(store.items), store.hasWindow, ConnectWrites(old(State())))
    {
      var blank := IsBlank(url);
      if blank {
        return;
      }
      var finalUrl := ConvertToProxyUrl(url);
      if finalUrl != url {
        url := finalUrl;
        store.SaveUrl(finalUrl);
      }
      status := Connecting;
      errorMessage := "";
      Setup(nativeHls, hlsSupported);
    }

    /** The `try` block of `connect`, on the URL already in `url`. */
    method Setup(nativeHls: bool, hlsSupported: bool)
      requires Valid()
      modifies this
      ensures Valid() && State() == AfterSetup(old(State()), hasVideo, nativeHls, hlsSupported)
    {
      SetupKeepsClientsAccounted(State(), hasVideo, nativeHls, hlsSupported);
      if !hasVideo {
        status := Error;
        errorMessage := NotFoundText;
        return;
      }
      if nativeHls {
        src := url;
        metadataListener := true;
        mediaErrorListener := true;
      } else if hlsSupported {
        if hls.Some? {
          destroyed := destroyed + [hls.value.id];
        }
        var client := HlsClient(nextClientId, url);
        nextClientId := nextClientId + 1;
        hls := Some(client);
      } else {
        status := Error;
        errorMessage := HlsUnsupportedText;
      }
    }

    method OnLoadedMetadata()
      requires Valid()
      modifies this
      ensures Valid() && State() == AfterLoadedMetadata(old(State()))
    {
      if metadataListener {
        status := Live;
        metadataListener := false;
      }
    }

    method OnMediaError()
      requires Valid()
      modifies this
      ensures Valid() && State() == AfterMediaError(old(State()))
    {
      if mediaErrorListener {
        status := Error;
        errorMessage := MediaErrorText;
        mediaErrorListener := false;
      }
    }

    method OnManifestParsed()
      requires Valid()
      modifies this
      ensures Valid() && State() == AfterManifestParsed(old(State()))
    {
      if hls.Some? {
        status := Live;
      }
    }

    method OnHlsError(fatal: bool, details: Option<string>)
      requires Valid()
      modifies this
      ensures Valid() && State() == AfterHlsError(old(State()), fatal, details)
    {
      if hls.Some? && fatal {
        status := Error;
        errorMessage := HlsErrorPrefix + (if details.None? || details.value == "" then UnknownErrorText else details.value);
      }
    }

    method Disconnect()
      requires Valid()
      modifies this
      ensures Valid() && State() == AfterDisconnect(old(State()), hasVideo)
    {
      DisconnectReleasesOnce(State(), hasVideo);
      if hls.Some? {
        destroyed := destroyed + [hls.value.id];
        hls := None;
      }
      if hasVideo {
        src := "";
      }
      status := Disconnected;
    }

    /** Resets the panel; the caller then runs `Connect` (the source does so
        after a 100 ms timer). */
    method Retry()
      requires Valid()
      modifies this
      ensures Valid() && State() == AfterRetry(old(State()))
    {
      status := Disconnected;
      errorMessage := "";
    }
  }
}
