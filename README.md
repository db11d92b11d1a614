# Chat widget connection lifecycle, in Dafny

The chat widget in `script.js` keeps one WebSocket connection to an echo
server. It shows the conversation as a message log and can send the user's
position as a `geo:<lat>,<lon>` frame. The only part with real behaviour is
the connection manager, and that is what this project models:

- the **backoff policy**: the wait before reconnect attempt `n` is
  `min(2000 * 2^n, 8000)` ms;
- the **connection state machine**. It is driven by the module-level
  variables `socket`, `reconnectTimeout`, `reconnectAttempts` and
  `manuallyClosed`. The events that change them are `connectSocket`, the
  four socket handlers, `scheduleReconnect` and its timer, and the
  `beforeunload` handler;
- the **geo-reply correlator**: the `geoResponsePending` flag swallows the
  one inbound frame that follows a geo probe;
- **send gating**: `sendMessage` ignores blank input, and it transmits
  only while the socket is OPEN.

Files:

- `backoff.dfy` (module `Backoff`): the delay formula and its properties.
- `jsstring.dfy` (module `JsString`): ECMAScript `String.prototype.trim`,
  which the send path uses.
- `lifecycle.dfy` (module `Lifecycle`): the manager's state as a value.
  Each handler is a function from the old state to the new one. It also
  holds event traces (`Run`), the lifecycle invariant `Inv` and the
  lemmas about traces.
- `session.dfy` (module `ChatSession`): class `Session`. Its fields are
  the script's variables. Each method changes them step by step, as the
  script does. Each method is proved to end in the state that the matching
  `Lifecycle` function computes. The methods the browser calls also keep
  `Valid()`, which is `Inv` of the fields.
- `scenarios.dfy` (module `Scenarios`): fixed runs from page load, such as
  open-then-send, close-then-reconnect and the geo probe with its echo.

How the environment is represented:

- **Sockets.** Every WebSocket ever created is kept, in creation order, in
  `sockets: seq<ReadyState>`. The last one is the one the script's
  `socket` variable points at. An older socket still has its handlers
  registered, so its events are modelled too.
- **Transport guarantees.** The event methods read the browser's
  guarantees as preconditions. `open` arrives only on a CONNECTING socket;
  messages arrive at most while a socket is OPEN or CLOSING (the browser
  delivers them only while OPEN, so this over-approximates); `close` arrives
  at most once. On `open` the handler sees the socket OPEN; on `close` it
  sees it CLOSED.
- **Timer.** The reconnect timer is one `Option<nat>` slot that holds the
  delay while a timer is pending. Because there is only one slot, at most
  one timer can be pending by construction; `CloseFindsNoPendingTimer`
  shows that the slot never discards a live timer.
- **Trace events.** After load, `connectSocket` runs only from the timer,
  so trace events cover everything except a direct `connectSocket` call.

The main results:

- `Lifecycle.ReachableStates`: from page load, whatever events follow, at
  most one socket is live. A reconnect timer is pending exactly when the
  session is not shut down and the current socket is CLOSED, and its delay
  is at most 8000 ms.
- `Lifecycle.ShutdownIsFinal`: after `beforeunload`, no socket is ever
  created and no timer is scheduled again.

The model follows the code where it differs from how the widget's design
is usually described:

- `connectSocket` does not cancel a pending timer.
- The `error` handler does not schedule a reconnect; only `close` does.
- The "reconnecting" status is set when the timer fires, not when it is
  scheduled.
- `beforeunload` closes the socket only if it is OPEN. A CONNECTING socket
  is left running, and it may still open after shutdown, which resets the
  attempt count and shows "online".
- `sendMessage` returns nothing. Input that is blank after trimming is left
  in the input box.

## Model

| member | source | states |
|---|---|---|
| `Backoff.Delay` | script.js:93 | the delay is never below 2000 ms and never above the 8000 ms cap |
| `Backoff.DelayTable` | script.js:93 | attempts 0, 1, 2, 3 wait 2000, 4000, 8000, 8000 ms |
| `Backoff.DelaySaturates` | script.js:93 | from attempt 2 on, the delay is exactly the cap |
| `Backoff.DelayDoubles` | script.js:93 | each attempt waits twice as long as the one before, up to the cap |
| `Backoff.DelayMonotone` | script.js:93 | the delay is non-decreasing in the attempt number |
| `JsString.Trim` | script.js:115 | the trimmed input is a slice of the input with no white space at either end; everything cut off is white space; it is empty exactly when the input is all white space |
| `Lifecycle.GeoFrame` | script.js:157 | the probe frame is `geo:`, the latitude, a comma, then the longitude, in that order |
| `Lifecycle.AddMessage` | script.js:101-112 | the log grows by exactly the new entry at its end, and nothing else changes |
| `Lifecycle.Connect` | script.js:46-57 | a no-op exactly when shut down or when the current socket is OPEN or CONNECTING; otherwise exactly one new CONNECTING socket becomes current, the status becomes "connecting", and nothing else changes |
| `Lifecycle.Load` | script.js:17-21 | after the initial variables and the first `connectSocket`, there is one CONNECTING socket, the status is "connecting", an empty log, nothing sent, no timer, no shutdown, an attempt count of 0, no geo reply expected and an empty input box |
| `Lifecycle.OnOpen` | script.js:59-63 | the attempt count becomes 0 whatever it was; the status becomes online; the socket is OPEN; one "connected" notice is logged; every other socket, the timer, the shutdown flag, the geo flag, the input box and the frames sent are untouched |
| `Lifecycle.OnMessage` | script.js:65-71 | with a geo reply expected, the frame is swallowed, only the flag is cleared and nothing is logged; otherwise the frame is appended as a server message and nothing else changes |
| `Lifecycle.SetInput` | script.js:138 | typing sets the box to the new text and changes nothing else |
| `Lifecycle.OnError` | script.js:73-76 | reports the error and logs one notice; nothing else changes (sockets, timer, attempt count, flags, box, frames sent), so no reconnect is scheduled |
| `Lifecycle.ScheduleReconnect` | script.js:88-99 | a no-op after shutdown; otherwise the timer slot holds the delay for the current attempt and the count goes up by exactly one; nothing else changes |
| `Lifecycle.CloseFindsNoPendingTimer` | script.js:88-92 | under the invariant, a close that leads to `scheduleReconnect` finds no timer pending, so clearing the slot never cancels a live timer |
| `Lifecycle.OnClose` | script.js:78-85 | the socket becomes CLOSED; after shutdown nothing else changes; otherwise the closure is reported and a timer with `Delay(attempts)` is pending, with the count one higher; the shutdown flag, the geo flag, the input box and the frames sent are unchanged |
| `Lifecycle.TimerFires` | script.js:95-98 | no timer is pending afterwards; the log, frames sent, attempt count, flags and box are unchanged; when shut down or with a live socket, no socket is created and the status is "reconnecting"; otherwise one new CONNECTING socket appears and the status is "connecting" |
| `Lifecycle.SendMessage` | script.js:114-127 | blank input changes nothing; otherwise the trimmed text is logged as the user's and the box is cleared; the text is sent exactly once when the socket is OPEN, and otherwise nothing is sent and a "not sent" notice follows |
| `Lifecycle.SendGeo` | script.js:154-160 | the link is logged as the user's; when OPEN the reply flag is set and exactly `geo:<lat>,<lon>` is sent; otherwise nothing is sent, the flag is unchanged and a "not sent" notice follows |
| `Lifecycle.Unload` | script.js:180-186 | shutdown is recorded; no timer remains pending; the current socket becomes CLOSING exactly when it was OPEN; nothing else changes |
| `Lifecycle.LoadEstablishesInv` | script.js:191 | the state after page load satisfies the lifecycle invariant |
| `Lifecycle.OnOpenPreservesInv` | script.js:59-63 | `open` keeps the invariant (the socket that opens is the current one) |
| `Lifecycle.OnClosePreservesInv` | script.js:78-99 | `close` keeps the invariant: a close of the current socket before shutdown leaves exactly one timer pending, with the backoff delay of its attempt |
| `Lifecycle.TimerFiresPreservesInv` | script.js:95-98 | the timer callback keeps the invariant |
| `Lifecycle.SendMessagePreservesInv` | script.js:114-127 | sending text keeps the invariant |
| `Lifecycle.UnloadPreservesInv` | script.js:180-186 | shutdown keeps the invariant |
| `Lifecycle.ApplyPreservesInv` | script.js:46-99 | every event the browser can deliver keeps the invariant |
| `Lifecycle.RunPreservesInv` | script.js:46-99 | every sequence of events keeps the invariant |
| `Lifecycle.ReachableStates` | script.js:88-98 | after load, whatever happens: at most one socket is live; a timer is pending exactly when not shut down and the current socket is CLOSED; its delay is at most 8000 ms |
| `Lifecycle.ApplyAfterShutdown` | script.js:180-186 | after shutdown, no single event creates a socket, schedules a timer, clears the shutdown flag or raises the attempt count |
| `Lifecycle.ShutdownIsFinal` | script.js:180-186 | after shutdown, no sequence of events (closes, errors, stale timers) creates a socket or leaves a timer pending |
| `Lifecycle.NoReconnectAfterUnload` | script.js:180-186 | from any state, after `beforeunload` no later event reconnects |
| `Lifecycle.LogIsAppendOnly` | script.js:101-112 | over any events, the old log is a prefix of the new one, and likewise for the frames sent |
| `Lifecycle.GeoReplySwallowedOnce` | script.js:65-71 | with a reply expected, the next frame is swallowed and clears the flag; the frame after it is logged as a server message |
| `ChatSession.Session.constructor` | script.js:17-21 | the fields start as the script declares them, then `connectSocket` runs; the result is `Load()` and valid |
| `ChatSession.Session.AddMessage` | script.js:101-112 | the fields become `Lifecycle.AddMessage` of the old ones |
| `ChatSession.Session.Connect` | script.js:46-57 | the fields become `Lifecycle.Connect` of the old ones |
| `ChatSession.Session.OnOpen` | script.js:59-63 | keeps `Valid()`; the fields become `Lifecycle.OnOpen` of the old ones |
| `ChatSession.Session.OnMessage` | script.js:65-71 | keeps `Valid()`; the fields become `Lifecycle.OnMessage` of the old ones |
| `ChatSession.Session.OnError` | script.js:73-76 | keeps `Valid()`; the fields become `Lifecycle.OnError` of the old ones |
| `ChatSession.Session.OnClose` | script.js:78-85 | keeps `Valid()`; the fields become `Lifecycle.OnClose` of the old ones |
| `ChatSession.Session.ScheduleReconnect` | script.js:88-99 | clears the slot, then sets it; the fields become `Lifecycle.ScheduleReconnect` of the old ones |
| `ChatSession.Session.TimerFires` | script.js:95-98 | keeps `Valid()`; the fields become `Lifecycle.TimerFires` of the old ones |
| `ChatSession.Session.SendMessage` | script.js:114-127 | keeps `Valid()`; the fields become `Lifecycle.SendMessage` of the old ones |
| `ChatSession.Session.SendGeo` | script.js:154-160 | keeps `Valid()`; the fields become `Lifecycle.SendGeo` of the old ones |
| `ChatSession.Session.SetInput` | script.js:138 | keeps `Valid()`; the fields become `Lifecycle.SetInput` of the old ones (only the box changes) |
| `ChatSession.Session.Unload` | script.js:180-186 | keeps `Valid()`; the fields become `Lifecycle.Unload` of the old ones |
| `Scenarios.SendWhileOpen` | script.js:114-127 | load, open, send: exactly one frame, the trimmed text, goes out, and the log says "connected", then the user's text |
| `Scenarios.SendWhileConnecting` | script.js:120-124 | sending before open transmits nothing and logs the text, then a "not sent" notice |
| `Scenarios.BlankInputIgnored` | script.js:115-118 | blank input sends and logs nothing, even while OPEN, and stays in the box |
| `Scenarios.ReconnectAfterClose` | script.js:78-98 | an unplanned close shows "closed" with a 2000 ms timer; when the timer fires, a second socket is connecting |
| `Scenarios.SecondFailureBacksOff` | script.js:92-94 | the second close in a row schedules 4000 ms |
| `Scenarios.ThirdFailureIsCapped` | script.js:93 | the third close in a row schedules the capped 8000 ms |
| `Scenarios.OpenAfterFailuresResets` | script.js:59-63 | an open after two failures resets the attempt count to 0 |
| `Scenarios.StaleTimerAfterUnload` | script.js:180-186 | a timer firing after unload creates no socket |
| `Scenarios.GeoProbeEchoSwallowed` | script.js:155-157 | a probe at ("10", "20") sends exactly `geo:10,20`; its echo is not logged; the next frame is logged |

## Left out

- Presentation is not modelled: the element lookups, the icon toggle and its SVG strings, the window-size alert, the CSS classes set by `setChatStatus`, `updateSendButtonState`, `updateMessagesEmptyState` and scrolling (script.js:1-44, 168-178). The status line is an enum, and the fixed Russian texts are enum constructors (`Status`, `Notice`).
- The WebSocket itself (script.js:57) is a foreign browser API. It is represented by each socket's readyState and by the list of frames passed to `send`. The URL is not modelled. Whether the server receives frames is not modelled.
- A close handshake started by the server (OPEN to CLOSING before `close`) is not modelled. The `close` event takes a socket straight to CLOSED. The `error` event changes no readyState; the `close` that follows it does.
- Frames that are not text (Blob, ArrayBuffer) are not modelled. `event.data` is a string.
- Real time is not modelled. `setTimeout`/`clearTimeout` are one slot that holds the delay. The timer callback may run at any time, even with no timer pending: that covers a stale callback, and the guard in `connectSocket` still stops it. With one slot, "at most one timer pending" holds by the type; what backs the script's `clearTimeout` is `CloseFindsNoPendingTimer`, which shows the slot is always empty when a reconnect is scheduled.
- Trace events (`Lifecycle.Run`) include no direct `connectSocket` call after load, because the script makes none. `Session.Connect` can still be called any time; it promises only to match `Lifecycle.Connect`, not the invariant.
- The geolocation API (script.js:141-153, 162-164) is not modelled. This includes the "geolocation not supported" and "position unavailable" notices, which touch no connection state. The link's OpenStreetMap URL and its `toFixed(5)` text are not modelled either. Latitude and longitude are opaque strings, and the logged link is `GeoLink(lat, lon)`.
- Integer width is not modelled: the delay uses unbounded integers. In JavaScript, `2 ** n` overflows to `Infinity` for large `n`, and `min` still gives 8000, so the result is the same. `reconnectAttempts` is exact as a JS number up to 2^53.
- UTF-16 is not modelled: trimming works on Unicode scalar values, while JS strings are UTF-16. Every white-space and line-terminator code point lies in the Basic Multilingual Plane, so trimming is the same.
