# Live-stream front-end: a Dafny model

This project models the client-side logic of a small live-streaming web
front-end. The front-end polls an API for the streams currently live, lets the
viewer pick one from a drawer of stream cards, and hands the chosen stream's URL
to a player. It can also forward the stream to a Chromecast. The model covers:

- **`StreamManager`** (`stream_manager.dfy`, src/StreamManager.ts). This class
  holds the stream map, the current selection and the auto-start flag; it polls
  on an interval and notifies two listeners. A request is checked against the
  map (`StreamManager.SelectionFor`). Auto-start selects the first stream. Installing a
  listener replays the current state. The polling handle is a three-state
  `TimerState`.
- **`StreamSelector`** (`stream_selector.dfy`, src/StreamSelector.tsx). This
  covers the request a card or quality button emits, the quality captions
  (`abr` is shown as `auto`), which card and button are highlighted, and the
  three-way choice between the error box, the ended/waiting box and the cards.
- **`App`** (`app.dfy`, src/App.tsx). This covers the protocol-to-player table,
  the source list handed to the player (placeholder video included), the `same`
  check and the rebuild it triggers, when the drawer is forced open, when a
  selected stream counts as ended, the rule for when polling runs, and the
  effective mute state.
- **`Chromecast`** (`chromecast.dfy`, src/Chromecast.tsx). This covers how a
  selection becomes a play request for the receiver: WebRTC is downgraded to
  HLS on receivers without H265/2160/30, and warnings are emitted under fixed
  conditions. It also covers the single tracked warning snackbar, which each new
  warning replaces, the dispatch of receiver replies on their `query`, the
  start-stream guard and the connect toggle.
- **`StreamSelectorJs`** (`stream_selector_js.dfy`, src/StreamSelector.js). This
  is the older class-based selector: the stream/protocol toggle, open and close,
  the `updateScheduled` guard that keeps at most one reschedule timer pending,
  and the rendering of cards and protocol buttons.
- **`BamApi`**, **`Assoc`**, **`OvenPlayerTypes`** and **`Wrappers`** hold the
  shared data types. JavaScript objects that are read with `Object.entries` are
  ordered association lists (`Assoc`), so that "the first stream" and "one card
  per entry, in order" have a meaning. A lookup returns the first entry with the
  key.

The source files come from different revisions of the API types. StreamManager
and the Chromecast code read `stream.streams.main.protocols`. App and the
TypeScript selector read `streams[quality][protocol]`. The model uses one
quality → protocol → URL table for all of them; the older files read only the
`main` quality. Each module has its own protocol enumeration: the Chromecast code
adds `hls`, and the JavaScript selector uses plain strings. StreamManager's
selections carry the quality `main`.

A request for a protocol the stream does not offer falls back to `webrtc-udp`,
and that fallback is not itself checked against the stream. So the chosen
protocol can equal the requested one (`webrtc-udp`) while the stream does not
offer it. `StreamManager.SelectionFor` therefore states the rule as two
implications rather than an equivalence, and
`StreamManager.DefaultKeptWhenNotOffered` shows the case.
`App.FallbackCanLeaveSourceWithoutFile` shows the consequence: the player is
given a source without a file.

## Model

| member | source | states |
|---|---|---|
| Assoc.Lookup | src/StreamManager.ts:92-95 | a key is found exactly when some entry has it, and the value found is stored under that key |
| App.PlayerTypeOf | src/App.tsx:30-34 | the protocol-to-player table never yields `hls`, yields `llhls` exactly for LLHLS and `webrtc` exactly for both WebRTC protocols |
| StreamManager.SelectionFor | src/StreamManager.ts:92-103 | no selection exactly when the key is null or absent; otherwise that key with the map's stream, quality `main`, the requested protocol when the stream offers it and `webrtc-udp` when no protocol is requested or it is not offered |
| StreamManager.Offers | src/StreamManager.ts:97 | a stream offers a protocol when its `main` table has that key (a predicate, its body states the rule) |
| StreamManager.SelectionForIsWellFormed | src/StreamManager.ts:96-102 | every installed selection has quality `main` and a protocol the stream offers, unless it is the default |
| StreamManager.DefaultKeptWhenNotOffered | src/StreamManager.ts:97-101 | requesting `webrtc-udp` of a stream that does not offer it still selects `webrtc-udp` |
| StreamManager.AutoStartSelection | src/StreamManager.ts:51-53 | auto-start picks the first entry's key and stream with the default protocol |
| StreamManager.AutoStartIsFirstStreamRequest | src/StreamManager.ts:49-57 | auto-start selects what a request for the first stream without a protocol would select |
| StreamManager.AfterStart | src/StreamManager.ts:59-64 | after startUpdates a handle is always set: an unset one becomes a running interval, and a handle already set is kept as it was |
| StreamManager.AfterStop | src/StreamManager.ts:66-70 | as written, stopUpdates never leaves an interval running, and leaves no handle exactly when there was none |
| StreamManager.AfterStopAndReset | src/StreamManager.ts:66-70 | corrected: after stopUpdates no handle is set, whatever the state before |
| StreamManager.StopIsPermanent | src/StreamManager.ts:59-70 | as written, after stopUpdates no number `n` of startUpdates calls makes the interval run again: the handle stays cleared |
| StreamManager.StopAndResetThenStartRuns | src/StreamManager.ts:59-70 | with the handle forgotten on stop, the next startUpdates makes the interval run |
| StreamManager.StreamManager.constructor | src/StreamManager.ts:28-38 | empty map, no selection, no-op listeners, the stored auto-start flag, and updates started: interval running and one fetch issued |
| StreamManager.StreamManager.UpdateStreamsOnce | src/StreamManager.ts:40-41 | one fetch is issued and nothing else changes |
| StreamManager.StreamManager.OnStreamsFetched | src/StreamManager.ts:41-46 | the map and timestamp are replaced, the streams listener hears exactly that map and timestamp, then auto-start runs: a notified first-stream selection when it applies, no change otherwise |
| StreamManager.StreamManager.CheckAutoStart | src/StreamManager.ts:49-57 | the selection changes, and the listener hears it once, exactly when auto-start is on, nothing is selected and the map is non-empty; otherwise nothing changes |
| StreamManager.StreamManager.StartUpdates | src/StreamManager.ts:59-64 | an interval is installed and a fetch issued only when no handle is set; otherwise nothing changes (idempotent) |
| StreamManager.StreamManager.StopUpdates | src/StreamManager.ts:66-70 | as written: a set handle becomes cleared but stays set |
| StreamManager.StreamManager.StopUpdatesAndReset | src/StreamManager.ts:66-70 | corrected: the handle is forgotten, nothing else changes |
| StreamManager.StreamManager.OnTimerTick | src/StreamManager.ts:61 | a running interval issues one fetch per firing |
| StreamManager.StreamManager.UpdateNow | src/StreamManager.ts:72-77 | one fetch is issued at once and nothing else changes |
| StreamManager.StreamManager.SetAvailableStreamListener | src/StreamManager.ts:79-82 | the listener is installed and immediately hears the current map and timestamp |
| StreamManager.StreamManager.SetSelectedStreamListener | src/StreamManager.ts:84-87 | the listener is installed and immediately hears the current selection |
| StreamManager.StreamManager.RequestStreamSelection | src/StreamManager.ts:89-106 | the selection becomes `SelectionFor(request, map)` and the selection listener hears it exactly once; the map, the timer and the listeners are unchanged |
| StreamManager.StreamManager.IsStreamAvailable | src/StreamManager.ts:108-110 | true exactly when the key is in the map |
| StreamManager.StreamManager.AutoStart | src/StreamManager.ts:112-114 | returns the auto-start flag |
| StreamManager.StreamManager.SetAutoStart | src/StreamManager.ts:116-119 | sets the flag and changes nothing else |
| StreamSelector.SelectStream | src/StreamSelector.tsx:36-46 | `NO_SELECTION` exactly when the stream is null, or it is the current stream and the quality is null or the current one; otherwise the key, protocol and quality are passed on unchanged |
| StreamSelector.CardClick | src/StreamSelector.tsx:90 | a card click names no protocol or quality, and asks for the card's own key exactly when the card is not selected |
| StreamSelector.CardClickRule | src/StreamSelector.tsx:82-90 | a selected card emits `NO_SELECTION`; an unselected card asks for its key with no protocol or quality |
| StreamSelector.QualityClick | src/StreamSelector.tsx:112 | a button click names no protocol; it asks for nothing exactly when the button is highlighted, and otherwise for its card's key at its quality |
| StreamSelector.QualityClickRule | src/StreamSelector.tsx:107-112 | a button emits `NO_SELECTION` exactly when it is highlighted; otherwise it asks for its key at its quality |
| StreamSelector.QualityLabel | src/StreamSelector.tsx:21-23 | `abr` is shown as `auto`; every other quality is shown as-is |
| StreamSelector.QualityLabelsCollide | src/StreamSelector.tsx:21-23 | two different qualities share a caption only when they are `abr` and `auto` |
| StreamSelector.ButtonsFor | src/StreamSelector.tsx:104-116 | one button per quality, in order, with its caption, highlighted exactly when its card is selected at that quality |
| StreamSelector.CardFor | src/StreamSelector.tsx:82-118 | a card carries the entry's key and name, is selected exactly when its key is the current one, and its buttons are exactly `ButtonsFor` of the entry's qualities, one per quality |
| StreamSelector.Content | src/StreamSelector.tsx:48-121 | exactly one branch holds: an error box for no map, the ended or the waiting box for an empty map (by `streamEnded`), otherwise one card per entry, in order |
| StreamSelector.AtMostOneCardSelected | src/StreamSelector.tsx:82-87 | with distinct keys, no two cards are selected |
| StreamSelector.AtMostOneQualityHighlighted | src/StreamSelector.tsx:107-110 | with distinct qualities, no two buttons of a card are highlighted |
| App.SourceListOf | src/App.tsx:31-42 | no sources exactly when nothing is selected; otherwise one source, of type `webrtc` for both WebRTC protocols and `llhls` for LLHLS, whose file is present exactly when the selected quality offers the protocol and is then the stored URL |
| App.NextSourcesList | src/App.tsx:128-151 | a selection gives its sources and no placeholder; no selection gives a placeholder list, empty exactly when there is no idle URL or placeholders are off, else the idle URL as one `llhls` source |
| App.SameSources | src/App.tsx:156 | holds exactly when the sources agree pairwise in type and file |
| App.Same | src/App.tsx:153-157 | holds exactly when the two lists are equal |
| App.SameIsReflexive | src/App.tsx:153-157 | every list is the same as itself |
| App.UserWantsDrawer | src/App.tsx:200 | the user wants the drawer while the mouse is on it or recently moved over its opener (a predicate, its body states the rule) |
| App.UserNeedsDrawer | src/App.tsx:201 | the user needs the drawer when there is no source, a cast is connected or the player failed (a predicate, its body states the rule) |
| App.DrawerOpenAfterEffect | src/App.tsx:200-205 | the drawer is open exactly when the user wants it or needs it; when it is closed there is a source, no cast and no player error |
| App.DrawerOpenAfterBackdropClick | src/App.tsx:328 | a backdrop click closes the drawer unless the user needs it, and then changes nothing |
| App.NothingToPlayForcesDrawer | src/App.tsx:200-204 | with nothing selected and no idle video to show, the drawer effect opens the drawer |
| App.StreamVanished | src/App.tsx:218 | the selected key is a non-empty string the current map does not own (a predicate, its body states the rule) |
| App.FreshSelectionNotVanished | src/App.tsx:217-222 | a selection just resolved against a map never counts as ended against that map |
| App.PollingWanted | src/App.tsx:227 | polling is wanted while the drawer is open or nothing is selected (a predicate, its body states the rule) |
| App.ForwardedRequest | src/App.tsx:337-340 | the forwarded request keeps key and quality and carries the viewer's protocol |
| App.CardClickTwiceDeselects | src/App.tsx:337-340 | clicking an available stream's card selects that stream, with the viewer's protocol when it is offered, and clicking it again selects nothing |
| App.FallbackCanLeaveSourceWithoutFile | src/App.tsx:37-41 | a stream offering only LLHLS, requested over WebRTC/TCP, is selected with `webrtc-udp` and gives a source without a file |
| App.EffectivelyMuted | src/App.tsx:258 | not muted exactly when the mute flag is off and audio may play |
| App.MuteClickTogglesShownState | src/App.tsx:357-358 | once audio may play, a click on the mute checkbox flips what it shows |
| App.ApplyPollingRule | src/App.tsx:225-232 | with the corrected stop, afterwards the interval runs exactly when the drawer is open or nothing is selected; one fetch starts exactly when polling is wanted and no handle was set; only the timer and the fetch count change |
| App.PlayerView.constructor | src/App.tsx:61-77 | the initial list is empty and not a placeholder, nothing ended, no rebuild, player unused and idle |
| App.PlayerView.SourcesEffect | src/App.tsx:128-165 | the new list is always stored; a selection clears `streamEnded`; a rebuild is asked for exactly when the player was used and the list changed |
| App.PlayerView.StreamEndedEffect | src/App.tsx:217-223 | `NO_SELECTION` is requested and `streamEnded` set exactly when the selected non-empty key is missing from the map |
| App.PlayerView.Render | src/App.tsx:249-256 | a pending rebuild forgets that the player was used and schedules clearing the flag; otherwise a player with a source counts as used |
| App.PlayerView.RebuildEffect | src/App.tsx:243-247 | a rebuild resets the player state to idle |
| App.PlayerView.OnRebuildReset | src/App.tsx:251 | the scheduled timeout clears the rebuild flag |
| App.PlayerView.OnStateChanged | src/App.tsx:272 | the player's new state is stored |
| Chromecast.ContentTypeOf | src/Chromecast.tsx:20-25 | every protocol maps to one of the two content types, `application/webrtc` exactly for the two WebRTC protocols |
| Chromecast.PlayerTypeOf | src/Chromecast.tsx:27-32 | `webrtc` exactly for the two WebRTC protocols, `hls` exactly for HLS and `llhls` exactly for LLHLS |
| Chromecast.TablesAgree | src/Chromecast.tsx:20-32 | the content-type table and the player-type table classify protocols alike; only the two WebRTC protocols share a player type |
| Chromecast.FinalProtocol | src/Chromecast.tsx:125-128 | only WebRTC is rewritten, to HLS, and exactly on receivers without H265/2160/30; a WebRTC result implies that support |
| Chromecast.PlayRequestFor | src/Chromecast.tsx:117-138 | the `play` request has the player type of the final protocol and carries exactly the URL the `main` table stores under that protocol, none when it has none: HLS exactly for HLS or downgraded WebRTC, WebRTC only on capable receivers |
| Chromecast.PlayWarnings | src/Chromecast.tsx:121-136 | the warnings a play request raises: the latency note is the only one of variant info and every other is of variant warning |
| Chromecast.PlayWarningConditions | src/Chromecast.tsx:121-136 | the latency note exactly for HLS; the WebRTC warning exactly when the protocol is rewritten; the LLHLS warning exactly for LLHLS without H264/1080/60; the 1080p60 warning exactly for streams wider than 1280 above 30 fps on such receivers; at most two warnings |
| Chromecast.DowngradeWarnsOnce | src/Chromecast.tsx:121-132 | a downgraded stream gets the WebRTC warning first and neither the latency note nor the LLHLS warning |
| Chromecast.Dispatch | src/Chromecast.tsx:193-202 | `getSupportedFormats` starts the stream, `play` is ignored, every other query is reported |
| Chromecast.OwnQueriesNeverReported | src/Chromecast.tsx:194-202 | a reply echoing any query this component sends is never reported as nonsense |
| Chromecast.ToggleConnect | src/Chromecast.tsx:231-240 | nothing without a context; otherwise end the session exactly when connected and request one exactly when not |
| Chromecast.OpenSnackbarsWereEnqueued | src/Chromecast.tsx:92-102 | every snackbar of this component still on screen is one it enqueued |
| Chromecast.ChromecastSupport.TrackedSnackbarWasEnqueued | src/Chromecast.tsx:88-102 | in a consistent state the tracked snackbar was enqueued by this component and is the only one of its snackbars still open |
| Chromecast.ChromecastSupport.constructor | src/Chromecast.tsx:83-86 | no tracked snackbar, no pending selection, no session, nothing sent |
| Chromecast.ChromecastSupport.EmitWarning | src/Chromecast.tsx:92-102 | the tracked snackbar, if any, is closed; a warning is enqueued and becomes the tracked one, or nothing is tracked; only the tracked snackbar stays open |
| Chromecast.ChromecastSupport.EmitWhen | src/Chromecast.tsx:121-136 | one guarded emission: the warning is emitted exactly when the guard holds |
| Chromecast.ChromecastSupport.CloseWarning | src/Chromecast.tsx:88-90 | the tracked snackbar is closed and nothing stays open; no warning is added |
| Chromecast.ChromecastSupport.StreamSelectionToPlayRequest | src/Chromecast.tsx:113-139 | no request and no change for no selection; otherwise `PlayRequestFor`, after emitting exactly `PlayWarnings` in order, with the last of them the only one on screen |
| Chromecast.ChromecastSupport.OnSendFailed | src/Chromecast.tsx:172-176 | a send failure replaces the tracked warning with an error |
| Chromecast.ChromecastSupport.SendRequest | src/Chromecast.tsx:167-178 | a request is sent exactly when a session is set |
| Chromecast.ChromecastSupport.StartStream | src/Chromecast.tsx:180-188 | nothing without a pending selection; otherwise the pending selection's warnings are emitted and its play request is sent |
| Chromecast.ChromecastSupport.MessageListener | src/Chromecast.tsx:190-203 | a formats reply starts the pending stream with the reply's formats, a play reply changes nothing, anything else adds one error warning echoing the message |
| Chromecast.ChromecastSupport.SessionEffect | src/Chromecast.tsx:205-219 | without a connection or context the warning is closed and the session dropped; otherwise a started or resumed session is kept |
| Chromecast.ChromecastSupport.SelectionChangedEffect | src/Chromecast.tsx:221-223 | a new selection closes the tracked warning |
| Chromecast.ChromecastSupport.QueryEffect | src/Chromecast.tsx:225-229 | with a session, the selection becomes pending and a `getSupportedFormats` query is sent; without one nothing changes |
| StreamSelectorJs.Toggled | src/StreamSelector.js:120-126 | both fields are cleared exactly when the pair already held (or the null pair) is chosen; otherwise the pair is stored as given |
| StreamSelectorJs.SelectTwiceFromUnselected | src/StreamSelector.js:120-126 | choosing the same pair twice from the unselected state leaves nothing selected |
| StreamSelectorJs.SelectTwice | src/StreamSelector.js:120-126 | choosing a pair twice keeps it when it was held before, and otherwise leaves nothing selected |
| StreamSelectorJs.MainProtocolNames | src/StreamSelector.js:88-96 | one button per protocol of `main`, in order |
| StreamSelectorJs.ShownThumbnail | src/StreamSelector.js:60 | a thumbnail is shown exactly when the stream has a non-empty one, and it is that one |
| StreamSelectorJs.StreamSelector.constructor | src/StreamSelector.js:13-23 | closed, no streams, no selection, nothing scheduled; either a deferred `open()` or one plain fetch |
| StreamSelectorJs.StreamSelector.Open | src/StreamSelector.js:25-28 | opens and starts one rescheduling fetch |
| StreamSelectorJs.StreamSelector.OnDeferredOpen | src/StreamSelector.js:18-19 | the deferred `open()` runs |
| StreamSelectorJs.StreamSelector.Close | src/StreamSelector.js:30-32 | only the open flag is cleared |
| StreamSelectorJs.StreamSelector.UpdateStreams | src/StreamSelector.js:34-35 | starts one fetch that may reschedule |
| StreamSelectorJs.StreamSelector.UpdateStreamsOnce | src/StreamSelector.js:48-49 | starts one fetch that never reschedules |
| StreamSelectorJs.StreamSelector.OnFetchCompleted | src/StreamSelector.js:34-53 | the map and refresh key are replaced; a rescheduling fetch that finds the drawer open installs a timer only when none is scheduled, so at most one is ever pending |
| StreamSelectorJs.StreamSelector.OnRescheduleTimer | src/StreamSelector.js:38-41 | the flag is cleared, no timer remains and a new rescheduling fetch starts |
| StreamSelectorJs.StreamSelector.SelectStream | src/StreamSelector.js:120-126 | the selection becomes `Toggled` of the old one; nothing else changes |
| StreamSelectorJs.StreamSelector.Render | src/StreamSelector.js:55-118 | the waiting box exactly for an empty map; otherwise one card per stream in order, with its name and non-empty thumbnail, selected exactly when it is the selected stream, with one button per protocol of `main` |
| StreamSelectorJs.AtMostOneCardSelected | src/StreamSelector.js:71 | with distinct keys, at most one card is shown as selected |

## Left out

- Network I/O: the fetch in `getStreams` and its fallback to an empty map are left out. A fetch is a counter, and its completion is a method that receives the delivered map.
- Timers: `setInterval`, `setTimeout`, `clearInterval`, `setImmediate` and the mouse-hover timeouts are left out. Their handles are flags or counters, and each firing is a method.
- Clock and storage: `Date.now()` is a parameter. The stored `autoStart` flag is a parameter of the StreamManager constructor. The stored `protocol`, `muted` and `placeholderVideo` values read by `App` are plain parameters of `App.ForwardedRequest`, `App.EffectivelyMuted` and `App.NextSourcesList`. The stored volume and every `localStorage` write are not modelled.
- StreamManager.StreamManager.RequestStreamSelection: the source tests the key with the JavaScript `in` operator, which also sees names inherited from `Object.prototype` such as `toString` and `constructor`; for such a key absent from the map the source goes on and throws when it reads the stream's tables, while the model (`StreamManager.SelectionFor`, own keys only) installs no selection.
- StreamManager.StreamManager.IsStreamAvailable: for the same reason the source answers true for inherited names such as `toString`; the model answers true only for keys the map owns. The `hasOwnProperty` test in `App` (`App.StreamVanished`) does look at own keys only.
- React: rendering, JSX markup, CSS classes, hooks and scheduling are left out. Each effect is a method called with the values it depends on, and React's order of effects is not modelled.
- Cast SDK: the SDK itself (context, remote player, sessions, message sending and listener registration) is a session flag plus a log of sent requests. The asynchronous failure of `sendMessage` is the method `OnSendFailed`.
- Reply parsing: `JSON.parse` is not modelled; replies arrive as a query and six format flags, and malformed JSON is not modelled.
- Snackbars: only the keys and warnings of snackbars this component enqueues or closes are modelled. The warning texts are named constants, apart from the parts built from an error or a reply.
- OvenPlayer: only its source, state and type names are modelled. OvenPlayer, the Discord login, the cast button, `FormatUtil` date and bitrate formatting and the fullscreen toggle are not part of this model.
- Audio: the volume slider, `effectiveVolume`, the dummy-audio unblocking probe and the ABR warning for Chrome are left out; only `effectivelyMuted` is modelled.
- StreamManager.StreamManager.OnStreamsFetched: `getStreams` (src/BamApi.tsx:51-57) resolves to the reply's `streams` field, which is `undefined` when the reply has none; the model only delivers a defined map. On an undefined map the source throws in `checkAutoStart` when auto-start is on (`Object.entries`, src/StreamManager.ts:51), in `requestStreamSelection` and `isStreamAvailable` (`in`, :92 and :109), and in App's stream-ended effect whenever a stream is selected (`hasOwnProperty`, src/App.tsx:218). None of these throws is modelled; the undefined map reaches the model only as the `None` argument of `StreamSelector.Content`, whose error box is therefore not reachable from the manager's state.
- StreamSelectorJs.StreamSelector.OnFetchCompleted: `getStreams` (src/BamApi.js:3-10) resolves to the reply's `streams` field, which is `undefined` when the reply has none; the model only delivers a defined map, and does not model that `render` then throws at `Object.entries(this.state.streams)` (src/StreamSelector.js:57). The `.json()` promise at src/BamApi.js:5 is returned without `await`, so its rejection escapes the `try` and the continuation in `updateStreams` (src/StreamSelector.js:36-46) never runs: no timer is scheduled and polling stops until the next `open()`. The model represents that case only as a fetch that never completes (its `OnFetchCompleted` is never called).
- Protocol change: `App` calls `requestProtocolChange` on the manager, which has no such method in this revision of src/StreamManager.ts, so that effect is left out.
- Shared request object: `onStreamRequested` writes the viewer's protocol into the request object it is given, which for a deselect is the shared `NO_SELECTION` object. The model forwards a copy (`App.ForwardedRequest`), so that mutation of `NO_SELECTION` is not modelled.
- Numbers: numbers are `int` or `real`; floating-point rounding of framerates and widths is not modelled.
- App.SourceListOf: a selection whose quality has no protocol table throws in the source. The model yields a source without a file instead.
- StreamManager.SelectionFor: a stream without a `main` table throws in the source. The model treats it as offering no protocol.
- Chromecast.PlayRequestFor: a stream without a `main` table throws in the source. The model gives a request without a URL.
- StreamSelectorJs.MainProtocolNames: a stream without a `main` table throws in the source. The model shows no protocol buttons.
- StreamManager.StreamManager.UpdateNow: does not model restarting the interval's period with `refresh()`, because the timer's period is not modelled. In a browser `setInterval` returns a number, so whenever a handle is set `this.scheduledUpdate.refresh()` (src/StreamManager.ts:74) throws before the fetch at :76; the model issues the fetch in every state. The method has no caller in this source.
- StreamSelectorJs.StreamSelector.Render: the thumbnail's cache-busting `?refreshKey` suffix and the card's date and video text are not modelled; the card carries the thumbnail URL itself.

## Findings

| source | as written | input that shows it | evidently intended | confidence | as-written member | corrected member |
|---|---|---|---|---|---|---|
| src/StreamManager.ts:59-70 | `stopUpdates` clears the interval but leaves `scheduledUpdate` set, and `startUpdates` only installs an interval when `scheduledUpdate` is unset | `startUpdates(); stopUpdates(); startUpdates()`: the drawer closes while a stream plays, then opens again, and the stream list is never polled again | stopping forgets the handle, so that a later `startUpdates` polls again; polling then runs exactly when the drawer is open or nothing is selected | not executed | StreamManager.StopIsPermanent | StreamManager.StopAndResetThenStartRuns |
