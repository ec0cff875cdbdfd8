# Aura-67 dashboard: a verified model of its core

The Aura-67 dashboard is a browser front end for a small mobile robot. It has
three parts:

- a video panel that plays the robot's HLS camera stream;
- a chat panel for natural-language instructions;
- a drive pad that sends `w/a/s/d` commands.

This project models the dashboard's own logic in Dafny and proves properties
about it. The modelled logic is:

- rewriting direct robot URLs to the same-origin `/api/stream` proxy path,
  and mapping them back;
- the video connection state machine and its use of browser storage;
- the chat history, the message box and the hook around `/api/chat`;
- the manual-drive key tables and the server-side direction check;
- the canned robot replies, the tracking client's filter and reply merge;
- the small status and player tables.

Each source file has one module. Two helper modules sit beside them:

- `Wrappers` holds `Option` and `Result`.
- `Strings` models the JavaScript string built-ins on `seq<char>`:
  - `includes`/`indexOf` (`IndexOf`, `Contains`), `startsWith`, `endsWith`;
  - `replace` with a string pattern, which replaces the first occurrence only;
  - `trim`, with the full ECMAScript whitespace set;
  - ASCII `toLowerCase`/`toUpperCase`;
  - the decimal rendering of integers.

Code that only computes is modelled as functions, with lemmas about them.
Code that changes state is modelled as classes:

- `Storage.LocalStore` holds the localStorage map.
- `VideoPanel.Panel` holds the video component's state.
- `ManualControl.Pad`, `ChatApi.Hook`, `ChatPanel.Panel` and `Composer.Box`
  hold the other components' state.

Their methods update the fields one step at a time, as the handlers do. Each
method is proved to produce the result of a pure step function, or to keep an
invariant:

- `Panel.Valid`: every hls.js client was destroyed exactly once, except the
  one attached.
- `Pad.Valid`: every posted body passes the manual route's validation.
- `ChatPanel.Panel.Synced`: the store holds the current history.

An asynchronous handler becomes two methods, one before its `await` and one
after it. The awaited outcome is a parameter of the second method. Facts
about the platform are parameters:

- whether the `<video>` element exists;
- whether it plays HLS natively;
- `Hls.isSupported()`;
- whether `window` exists;
- how `JSON` behaves.

`Date.now()` becomes a `now` parameter.

The round trip `convertToRobotUrl(convertToProxyUrl(u)) == u` for
`u = "http://100.112.177.9:8000/" + p` holds only when `p` holds no second
`100.112.177.9:8000/`. The code keeps `split(...)[1]`, the text up to the next
marker. `StreamUtils.RoundTrip` proves the conditional form, and
`StreamUtils.RoundTripCutsAtSecondMarker` shows the text that is lost
otherwise.

## Model

| member | source | states |
|---|---|---|
| Strings.IndexOf | lib/streamUtils.ts:12 | `indexOf` finds the first occurrence: the pattern occurs there and at no earlier index, and None means it occurs nowhere |
| Strings.Trim | components/VideoPanel.tsx:80 | `trim()` is the text with a whitespace margin cut off each end; it is empty exactly when the text is all whitespace, and otherwise neither starts nor ends with whitespace |
| Strings.IsBlank | components/Composer.tsx:40 | the `!text.trim()` test is true exactly for all-whitespace text |
| StreamUtils.IsRobotUrlAnywhere | lib/streamUtils.ts:11-13 | a URL is a robot URL iff the marker `100.112.177.9:8000/` occurs at some index, not only as a prefix |
| StreamUtils.IsRobotUrlInfix | lib/streamUtils.ts:11-13 | any text around the marker is a robot URL |
| StreamUtils.ProxyIdentityOnOtherUrls | lib/streamUtils.ts:18-21 | non-robot URLs are returned unchanged |
| StreamUtils.ProxyOfRobotUrl | lib/streamUtils.ts:18-25 | a robot URL becomes `/api/stream/` + the text from the end of the first marker to the next marker or the end; the scheme and everything before the marker are dropped |
| StreamUtils.PathAfterMarkerHasNoMarker | lib/streamUtils.ts:23 | the kept piece `split(marker)[1]` never contains the marker |
| StreamUtils.ProxyOutputIsNotRobotUrl | lib/streamUtils.ts:18-25 | the rewritten form of a robot URL is not a robot URL |
| StreamUtils.ProxyIdempotent | lib/streamUtils.ts:18-25 | rewriting twice equals rewriting once |
| StreamUtils.ProxyOfCanonicalRobotUrl | lib/streamUtils.ts:5-25 | `ROBOT_BASE_URL + "/" + p` becomes `/api/stream/` + `p` when `p` has no marker |
| StreamUtils.RobotOfProxied | lib/streamUtils.ts:30-37 | `/api/stream/` + `p` maps back to `ROBOT_BASE_URL + "/" + p` for every `p` |
| StreamUtils.RoundTrip | lib/streamUtils.ts:5-37 | mapping back the rewritten canonical robot URL restores it when the path has no second marker |
| StreamUtils.RoundTripCutsAtSecondMarker | lib/streamUtils.ts:18-37 | for every path `p + marker + q` whose first part `p` holds no marker, the round trip returns the base plus `p` only, which differs from the original |
| StreamUtils.ProxyCutsAtSecondMarker | lib/streamUtils.ts:18-25 | such a URL is rewritten to `/api/stream/` + `p`: everything from the second marker on is dropped |
| StreamUtils.RobotIdentityOnOtherStrings | lib/streamUtils.ts:30-33 | strings not starting with `/api/stream` are returned unchanged |
| StreamUtils.RobotOfProxyLike | lib/streamUtils.ts:30-37 | otherwise only the first `/api/stream/`, wherever it is, is removed, and the robot base is prefixed; with no such occurrence nothing is removed |
| StreamUtils.RobotOfUnslashedProxyPath | lib/streamUtils.ts:30-37 | `/api/streams` maps to the base plus `//api/streams`: a doubled slash |
| StreamUtils.DisplayOfProxied | lib/streamUtils.ts:65-69 | a proxied path is shown as its robot URL with ` (proxied)` appended |
| StreamUtils.DisplayOfOther | lib/streamUtils.ts:65-69 | other URLs are shown as they are |
| StreamUtils.DisplayIsMappedBack | lib/streamUtils.ts:65-68 | on `/api/stream` strings the display is `convertToRobotUrl(u) + " (proxied)"` |
| StreamUtils.DisplayShowsOriginal | lib/streamUtils.ts:65-69 | the display of a rewritten canonical robot URL is the original URL, tagged |
| Storage.UrlRoundTrip | lib/storage.ts:23-32 | `saveUrl(u)` then `loadUrl()` gives `u` back for every non-empty `u` |
| Storage.UrlDefault | lib/storage.ts:29-34 | `loadUrl` returns the default stream iff there is no window, no entry, or the entry is "" (or is the default itself) |
| Storage.SavedEmptyUrlLoadsDefault | lib/storage.ts:23-31 | saving "" makes the next load return the default, because of `||` |
| Storage.ChatRoundTrip | lib/storage.ts:9-20 | `saveChat(ms)` then `loadChat()` gives `ms`, given that JSON round-trips |
| Storage.ChatEmptyWhenAbsent | lib/storage.ts:15-20 | with no chat key, `loadChat` gives `[]` |
| Storage.ClearChatOnlyRemovesChat | lib/storage.ts:36-40 | `clearChat` removes the chat key only; the other keys and the stream URL are unchanged |
| Storage.KeysIndependent | lib/storage.ts:9-32 | saving the chat never changes the loaded URL, and saving the URL never changes the loaded chat |
| Storage.NoWindowDefaults | lib/storage.ts:9-40 | with no window every save is a no-op, `loadChat` gives `[]` and `loadUrl` the default |
| Storage.LocalStore.SaveChat | lib/storage.ts:9-13 | writes the stringified history under the chat key when there is a window |
| Storage.LocalStore.LoadChat | lib/storage.ts:15-21 | reads the history, `[]` for an absent or empty entry, None where `JSON.parse` throws |
| Storage.LocalStore.SaveUrl | lib/storage.ts:23-27 | writes the URL under the URL key when there is a window |
| Storage.LocalStore.LoadUrl | lib/storage.ts:29-34 | reads the URL or the default |
| Storage.LocalStore.ClearChat | lib/storage.ts:36-40 | removes the chat key when there is a window |
| VideoPanel.AtMostOneAttached | components/VideoPanel.tsx:118-129 | when clients are accounted for, the attached clients are exactly the one in `hlsRef`, so there is at most one |
| VideoPanel.InitialAccounted | components/VideoPanel.tsx:22-31 | the initial state has no attached client |
| VideoPanel.ConnectIgnoresBlankUrl | components/VideoPanel.tsx:79-80 | `connect` on an empty or whitespace-only URL changes nothing and writes nothing |
| VideoPanel.ConnectProxiesUrl | components/VideoPanel.tsx:83-89 | otherwise the URL becomes its proxied form, which is not a robot URL, and storage is written exactly when the URL changed, with the new URL |
| VideoPanel.ConnectOutcome | components/VideoPanel.tsx:91-150 | the final status and message: connecting with "" unless the video element is missing or HLS is unsupported, each with its thrown text |
| VideoPanel.ConnectNativePath | components/VideoPanel.tsx:98-117 | the native path sets `src` to the proxied URL, arms both one-shot listeners and leaves the client slot alone |
| VideoPanel.ConnectFallbackPath | components/VideoPanel.tsx:118-129 | the fallback path destroys the old client, if any, then stores a new client loading the proxied URL |
| VideoPanel.SetupKeepsClientsAccounted | components/VideoPanel.tsx:94-151 | the playback setup keeps every client destroyed once except the attached one |
| VideoPanel.ConnectKeepsClientsAccounted | components/VideoPanel.tsx:79-151 | `connect` as a whole keeps clients accounted for |
| VideoPanel.DisconnectReleasesOnce | components/VideoPanel.tsx:153-162 | `disconnect` destroys the attached client exactly once and leaves none attached |
| VideoPanel.EventsKeepClientsAccounted | components/VideoPanel.tsx:102-142 | the event callbacks, editing, mount and retry never create or destroy clients |
| VideoPanel.DisconnectFromAnyState | components/VideoPanel.tsx:153-162 | from any state: disconnected, empty slot, `src` "" when the element exists; URL and message kept |
| VideoPanel.DisconnectIdempotent | components/VideoPanel.tsx:153-162 | disconnecting twice equals disconnecting once |
| VideoPanel.LoadedMetadataGoesLive | components/VideoPanel.tsx:102-105 | `loadedmetadata` on the native path makes the panel live and removes its own listener |
| VideoPanel.ManifestParsedGoesLive | components/VideoPanel.tsx:133-135 | `MANIFEST_PARSED` from the attached client makes the panel live |
| VideoPanel.HlsErrorOutcome | components/VideoPanel.tsx:137-142 | a fatal error sets error with `"HLS error: " + (details or "Unknown error")`; a non-fatal one changes nothing |
| VideoPanel.MediaErrorFails | components/VideoPanel.tsx:107-111 | a native media error sets error with the fixed "Failed to load stream…" text, once |
| VideoPanel.RetryThenConnect | components/VideoPanel.tsx:205-209 | `retry` resets to disconnected with no message; the `connect` it schedules starts connecting or, on a blank URL, stays disconnected |
| VideoPanel.MountProxiesStoredUrl | components/VideoPanel.tsx:47-57 | on mount the stored URL is proxied and written back exactly when that changed it |
| StreamUtils.WithoutOneNotRobotUrl | lib/streamUtils.ts:11-21 | a URL without the digit 1 is never rewritten |
| Storage.DefaultUrlHasNoOne | lib/storage.ts:31 | the default stream URL contains no `1` |
| VideoPanel.DefaultUrlIsNotRobotUrl | lib/storage.ts:31-33 | the default stream URL is not rewritten |
| VideoPanel.ReloadAfterWrite | components/VideoPanel.tsx:47-57 | mounting again on a written-back URL writes nothing |
| VideoPanel.MountIsStable | components/VideoPanel.tsx:47-57 | after one mount, the next mount writes nothing, with or without a window |
| VideoPanel.Panel.constructor | components/VideoPanel.tsx:22-31 | the initial state: empty URL, disconnected, no client |
| VideoPanel.Panel.Mount | components/VideoPanel.tsx:47-57 | the mount effect produces `AfterMount` and writes back `MountWrites` |
| VideoPanel.Panel.EditUrl | components/VideoPanel.tsx:233-234 | the input's `onChange` replaces the URL (the input is disabled while connecting) |
| VideoPanel.Panel.Connect | components/VideoPanel.tsx:79-92 | `connect` produces `AfterConnect` and writes `ConnectWrites`, keeping clients accounted for |
| VideoPanel.Panel.Setup | components/VideoPanel.tsx:94-151 | the `try`/`catch` of `connect` produces `AfterSetup` |
| VideoPanel.Panel.OnLoadedMetadata | components/VideoPanel.tsx:102-105 | produces `AfterLoadedMetadata` |
| VideoPanel.Panel.OnMediaError | components/VideoPanel.tsx:107-111 | produces `AfterMediaError` |
| VideoPanel.Panel.OnManifestParsed | components/VideoPanel.tsx:133-135 | produces `AfterManifestParsed` |
| VideoPanel.Panel.OnHlsError | components/VideoPanel.tsx:137-142 | produces `AfterHlsError` |
| VideoPanel.Panel.Disconnect | components/VideoPanel.tsx:153-162 | produces `AfterDisconnect`, keeping clients accounted for |
| VideoPanel.Panel.Retry | components/VideoPanel.tsx:205-207 | produces `AfterRetry`; the caller then runs `Connect` |
| ManualRoute.ValidDirectionIff | app/api/manual/route.ts:8 | a direction is accepted iff it is one of the ten non-empty substrings of "wasd", so "wa" and "asd" pass and "" fails |
| ManualRoute.OccurrenceIsSubstring | app/api/manual/route.ts:8 | every non-empty string occurring in "wasd" is one of those ten |
| ManualRoute.SubstringOccurs | app/api/manual/route.ts:8 | each of the ten occurs in "wasd" |
| ManualRoute.PostAcceptedIff | app/api/manual/route.ts:8-26 | a request is accepted iff it parsed and its direction is valid, and iff the status is 200 |
| ManualRoute.PostRejectsInvalid | app/api/manual/route.ts:8-12 | an invalid direction is answered 400, `accepted: false`, "direction must be one of w,a,s,d" |
| ManualRoute.PostAcknowledgesValid | app/api/manual/route.ts:15-26 | a valid one is answered 200, `accepted: true`, "Command received: " + upper-cased direction + " at speed " + (speed ?? 1), and the fixed note; a missing speed reads 1 |
| ManualRoute.PostServerError | app/api/manual/route.ts:27-35 | a body that cannot be read is answered 500 with "Internal server error" |
| ManualControl.ApiDirectionTable | components/ManualControl.tsx:20-34 | forward→w, backward→s, left→a, right→d, and every other direction, the rotations included, maps to nothing |
| ManualControl.PostedCodesAccepted | components/ManualControl.tsx:36-42 | every posted body has a code in {w,a,s,d} and speed 1, and the manual route accepts it with 200 |
| ManualControl.KeyTable | components/ManualControl.tsx:58-87 | each direction is pressed by exactly its keys (Arrow key, lower and upper letter; q/Q and e/E for the rotations) |
| ManualControl.ReleaseKeysAreHandledKeys | components/ManualControl.tsx:90-110 | keyup releases for exactly the keys keydown handles |
| ManualControl.Pad.constructor | components/ManualControl.tsx:13 | nothing pressed, nothing sent |
| ManualControl.Pad.HandleKeyPress | components/ManualControl.tsx:15-47 | sets the pressed direction, reports it to `onCommand`, posts the mapped code when there is one, and keeps every post acceptable |
| ManualControl.Pad.HandleKeyRelease | components/ManualControl.tsx:49-51 | clears the pressed direction |
| ManualControl.Pad.HandleKeyDown | components/ManualControl.tsx:55-88 | auto-repeats and unhandled keys do nothing; handled keys press their direction |
| ManualControl.Pad.HandleKeyUp | components/ManualControl.tsx:90-111 | release keys clear the pressed direction, other keys do nothing |
| ChatApi.BeginAppendsUser | components/useChatApi.ts:9-17 | `send` first appends the untrimmed user text, and the request body holds that one message |
| ChatApi.SendThenComplete | components/useChatApi.ts:9-21 | after the response, the list is old ++ [user, assistant], in that order |
| ChatApi.RejectedSendKeepsUser | components/useChatApi.ts:9-21 | a rejected request appends no assistant message |
| ChatApi.CompletionOverwritesLaterChanges | components/useChatApi.ts:19-20 | the completion writes the list captured at the start plus the reply |
| ChatApi.Hook.constructor | components/useChatApi.ts:7 | the list starts empty |
| ChatApi.Hook.Send | components/useChatApi.ts:9-17 | produces `Begin` and returns the request in flight |
| ChatApi.Hook.Receive | components/useChatApi.ts:19-20 | produces `Complete` |
| ChatPanel.LoadedCases | components/ChatPanel.tsx:19-34 | an empty history mounts to the system message alone, a saved one as it is, and an unparsable one throws out of the effect, setting no list |
| ChatPanel.MountOnEmptyStore | components/ChatPanel.tsx:19-34 | a store with no chat key mounts to `[system-1]` |
| ChatPanel.UserMessageIsTrimmed | components/ChatPanel.tsx:44-62 | an accepted message is a user message holding the trimmed, non-empty text, which is also the request's only message |
| ChatPanel.ReplyCases | components/ChatPanel.tsx:65-81 | the robot reply holds the response text, or the fixed apology on failure |
| ChatPanel.SaveOnChangeSyncs | components/ChatPanel.tsx:37-41 | after the save-on-change effect, loading gives the current non-empty list back |
| ChatPanel.EmptyListNotSaved | components/ChatPanel.tsx:37-41 | an empty list is not saved |
| ChatPanel.Panel.constructor | components/ChatPanel.tsx:14-15 | empty list, not typing |
| ChatPanel.Panel.SaveIfChanged | components/ChatPanel.tsx:37-41 | saves a non-empty list and keeps the store in step |
| ChatPanel.Panel.Mount | components/ChatPanel.tsx:19-34 | reports a throwing `loadChat` and then leaves list and store as they were; otherwise the list becomes `Loaded(loadChat())` and the store holds it |
| ChatPanel.Panel.SendMessage | components/ChatPanel.tsx:43-62 | blank text or a pending reply changes nothing; otherwise appends the trimmed user message at the end, sets typing, saves, and returns the request |
| ChatPanel.Panel.ReceiveReply | components/ChatPanel.tsx:63-85 | appends one robot message, the reply or the apology, clears typing on both outcomes, and saves |
| ChatPanel.Panel.ClearChat | components/ChatPanel.tsx:87-97 | the list becomes `[system-1]` and the store holds exactly that |
| Composer.TextareaHeight | components/Composer.tsx:35 | the height is at most 128 and at most the content height, and equals one of them |
| Composer.HeightClamp | components/Composer.tsx:35 | content that fits keeps its height, taller content gets 128 |
| Composer.EnterRule | components/Composer.tsx:46-51 | Enter without Shift submits, Shift+Enter does not |
| Composer.SubmissionIsAccepted | components/Composer.tsx:40 | the composer's gate, with the chat's typing flag as `disabled`, is exactly the chat's `sendMessage` guard |
| Composer.Box.constructor | components/Composer.tsx:15 | the box starts empty |
| Composer.Box.Edit | components/Composer.tsx:60 | `onChange` sets the text |
| Composer.Box.HandleSubmit | components/Composer.tsx:39-44 | a submit that fires sends the untrimmed text and empties the box; a blocked one changes nothing |
| Composer.Box.HandleKeyDown | components/Composer.tsx:46-51 | Enter without Shift prevents the new line and submits; other keys change nothing |
| MockBot.FirstMatch | lib/mockBot.ts:3-21 | the table's answer is the default or one rule's reply |
| MockBot.ReplyIsFirstMatch | lib/mockBot.ts:1-21 | the chain of `includes` tests equals the first matching row of the keyword table, read on the lower-cased text |
| MockBot.ReplyIsOneOfFive | lib/mockBot.ts:3-21 | the reply is always one of the five fixed texts |
| MockBot.ReplyIgnoresCase | lib/mockBot.ts:2 | the reply depends only on the lower-cased text |
| MockBot.ScanFirstThenApple | lib/mockBot.ts:4-10 | "scan" wins over every other keyword, and "apple" over the rest |
| MockBot.ScanAndAppleScans | lib/mockBot.ts:4-6 | text naming a scan and the apple gets the scanning reply |
| MockBot.NoKeywordDefault | lib/mockBot.ts:4-20 | with none of the six keywords the reply is "Acknowledged. Executing command." |
| Tracking.FilterByLabel | lib/tracking.ts:16 | the filter keeps every detection that passes the label test as many times as it occurs in the input, and no other |
| Tracking.FilterIsSubsequence | lib/tracking.ts:16 | the filtered list is an order-preserving subsequence of the input |
| Tracking.MissingLabelIsEmpty | lib/tracking.ts:16 | a detection without a label is treated as labelled "" |
| Tracking.KeptIgnoresCase | lib/tracking.ts:16 | the label test ignores case on both sides |
| Tracking.GetDetectionsCases | lib/tracking.ts:12-18 | a non-ok status rejects with "detections http " + status; no filter or "" returns the list unchanged; otherwise exactly the matching detections, each as often as in the input, in order |
| Tracking.ReplyFieldsMerge | lib/tracking.ts:26-27 | `{accepted: r.ok, ...body}` has every body field, and `accepted` is the body's own when present, else the status flag |
| Tracking.UnreadableBodyIsEmpty | lib/tracking.ts:26 | an unreadable body counts as `{}` |
| Tracking.RequestDefaults | lib/tracking.ts:20-34 | `choice` defaults to "closest", an undefined `index` is omitted, and `speed` defaults to 1 |
| LiveVideo.SettledView | components/LiveVideo.tsx:9-38 | an empty URL shows the hint; the video element is used iff the URL contains ".m3u8" and does not end in mjp(e)g; otherwise the image |
| LiveVideo.UpperCaseSuffix | components/LiveVideo.tsx:12 | the mjp(e)g suffix test ignores case |
| LiveVideo.EffectIsMonotoneAndStable | components/LiveVideo.tsx:7-13 | `isMJPEG` is only ever set to true, and rerunning the effect changes nothing |
| StatusPill.StatusTable | components/StatusPill.tsx:9-18 | live/connecting/error get green/amber/red with their texts and styles; any other string gets gray "Disconnected" outline |
| StatusPill.FourStatusesDistinct | components/StatusPill.tsx:9-18 | the four statuses get distinct colours, texts and styles |
| Toolbar.LastSegment | components/Toolbar.tsx:31 | `split("/").pop()` is the slash-free suffix that follows the last `/` (or the whole text) |
| Toolbar.ColorsAgreeWithPill | components/Toolbar.tsx:16-27 | the toolbar's colour equals the pill's for every status string, and the default "disconnected" is gray |
| Toolbar.PanelStatusColorsDistinct | components/Toolbar.tsx:16-27 | the panel's four statuses get four different colours |
| Toolbar.BasenameOfPath | components/Toolbar.tsx:29-35 | a pathname `dir/name` shows `name` |
| Toolbar.BasenameFallbacks | components/Toolbar.tsx:29-35 | a trailing slash, an empty path, or a URL that does not parse shows "stream" |
| Toolbar.BasenameIsSegment | components/Toolbar.tsx:29-35 | the name shown is never empty and has no `/` |

## Left out

- `isValidStreamUrl` (lib/streamUtils.ts:42-60) depends on WHATWG URL parsing against `window.location`, so it is not modelled.
- For `getStreamBasename`, `new URL(url)` is not modelled. Its pathname, or None where it throws, is a parameter.
- These other files of the application are not part of this model:
  - the stream proxy route app/api/stream/[...path]/route.ts;
  - app/api/chat/route.ts, a call to a foreign chat service;
  - lib/robotClient.ts and lib/hlsClient.ts, thin fetch and library wrappers;
  - the rendering-only components.
- VideoPanel's fullscreen, snapshot and mute controls are DOM effects and are left out.
- VideoPanel's latency display is a `Math.random` mock on a timer, so it is left out.
- What hls.js does with `loadSource`/`attachMedia` is not modelled. A client is its id and its source.
- Timers and React scheduling are left out. Each handler runs as one step. `retry`'s 100 ms timer is modelled as the caller running `Connect` after `Retry`.
- A failing dynamic import of hls.js, with the "Connection failed" fallback text, is left out. Only the two errors `connect` throws itself are modelled.
- Repeated native-path connects register duplicate one-shot listeners. The model keeps one flag per listener kind. The duplicates would set the same state.
- `Date.now()` is called separately for a message's id and its timestamp. The model uses one `now` per message.
- `useChatApi` reads `messages` from the render that created `send`. The model reads the current list at `Send`.
- `JSON.stringify`/`JSON.parse` of chat histories is an abstract codec. Its round trip is a hypothesis (`Storage.RoundTrips`).
- Tracking's JSON numbers are integers. Non-object reply bodies, whose spread would yield index keys, are not modelled. The order of object keys is not modelled.
- On the manual route, a non-string `direction` (coerced by `includes`) and a fractional `speed` are not modelled.
- ManualRoute.PostAcknowledgesValid: `speed` is an unbounded integer printed in full decimal. JavaScript prints a number of magnitude 10^21 or more in exponent form ("1e+21"), and `JSON.parse` rounds integers beyond 2^53 before they are printed. Modelling IEEE doubles and their shortest decimal form is out of scope.
- `toLowerCase`/`toUpperCase` map ASCII letters only. No other letter changes case in the model.
- `getRandomDelay` in lib/mockBot.ts uses random floats, so it is left out.
- Composer's Ctrl/Cmd+K focus shortcut and Toolbar's theme toggle are UI-only, so they are left out.
- `console.log`/`console.error` output is left out.
- ChatPanel.Panel.Mount: a `loadChat` that throws is reported through `thrown`. What React does with the error that escapes the effect is not modelled; it unmounts the page, since no error boundary catches it. The model does not promise anything about the panel after such a mount.
- LiveVideo reads `NEXT_PUBLIC_VIDEO_URL` from the environment. It is a parameter here. The first render shows the `<video>` path before the effect runs, and `Render` with `isMJPEG = false` covers it.
- StreamUtils.RoundTrip: the round trip is proved only for paths without a second robot marker. `RoundTripCutsAtSecondMarker` shows that the code does not keep it otherwise.
