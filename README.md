# Connection control of the irremote Android remote

This project models the part of the irremote app that manages the WebSocket
connection to the internet radio:

- `WebSocketClient` (websocket/WebSocketClient.kt). It keeps a URL, a
  reconnect flag, a socket handle and a registered listener. It dials,
  reconnects, disconnects and sends three kinds of JSON text. It forwards the
  transport's open, message and close callbacks to its listener. After a close
  or a failure it re-dials while reconnection is enabled.
- The connection logic of `MainActivity` (MainActivity.kt). Its listener turns
  Open and Closed into a two-valued `ConnectionState`. `toggleConnectionState`
  picks `connect` or `disconnect`. The Connect and Disconnect buttons are
  enabled by that state. The Send button hands the typed text on and clears the field.
- The string tables of the enums `AllowedApps` and `ViewModeState`.

The OkHttp transport is not modelled. The client keeps a ghost, ordered log of
effects instead:
- `Dial(url)`: a new socket was requested for `url`.
- `Transmit(text)`: `webSocket.send(text)` was called.
- `Close(code, reason)`: `webSocket.close(code, reason)` was called.
- `Notify(n)`: the listener received the callback `n`.

Transport callbacks are methods that the environment calls, one at a time.
`ClientModel` gives the client's state as a value. `Step` defines one event
and `Run` a sequence of events. Every method of the class
`WebSocket.WebSocketClient` is proved to follow `Step`. The lemmas about
sequences of events are stated on `Run`.

Files: options.dfy (nullable values), apps.dfy, view_modes.dfy, wire.dfy (the
JSON texts), listeners.dfy (listener callbacks and the activity's listener),
client_model.dfy, client_scenarios.dfy, web_socket_client.dfy, main_activity.dfy.

## Behaviour of the code worth knowing

These facts follow from the code as written. Each is proved by the lemma or
contract named beside it:

- `onOpen` only forwards Open to the listener and sends no status request
  (`WebSocket.WebSocketClient.OnOpen`).
- `connect` is not idempotent. It always dials a new socket, so the listener
  can hear Open twice with no Closed in between
  (`ClientScenarios.ConnectTwiceOpensTwice`).
- Sends are guarded by "a socket was ever created", not by "the socket is
  open". A status request after a close is still passed to `webSocket.send`
  (`ClientScenarios.SendAfterCloseStillCallsSend`).
- `disconnect` requests the close, then clears the reconnect flag. The close
  event arrives later, when the flag is already cleared, so no re-dial follows
  (`ClientModel.DisconnectStopsRedial`).
- A close event from an older socket that arrives after a new `connect` still
  re-dials (`ClientScenarios.StaleCloseRedials`).

## Model

| member | source | states |
|---|---|---|
| Apps.Entries | app/src/main/java/de/hgaedke/irremote/AllowedApps.kt:6-11 | There are exactly four variants, all distinct, listed in declaration order: radio1, radio2, music, video. |
| Apps.App | app/src/main/java/de/hgaedke/irremote/AllowedApps.kt:7-10 | The `app` string is empty exactly for music and video. A non-empty `app` string names its variant uniquely. |
| Apps.AppRecoverable | app/src/main/java/de/hgaedke/irremote/AllowedApps.kt:7-10 | A variant can be recovered from its `app` string exactly when it is radio1 or radio2. |
| Apps.AppNotInjective | app/src/main/java/de/hgaedke/irremote/AllowedApps.kt:7-10 | music and video are distinct but share `""`. radio1 and radio2 map to the distinct strings "radio1" and "radio2". |
| ViewModes.Entries | app/src/main/java/de/hgaedke/irremote/ViewModeState.kt:6-9 | There are exactly two variants, distinct and in declaration order: VIEW_MODE_FOLDER, VIEW_MODE_PLAYBACK. |
| ViewModes.State | app/src/main/java/de/hgaedke/irremote/ViewModeState.kt:7-8 | Each variant's `state` string decodes back to that variant. |
| ViewModes.StateInjective | app/src/main/java/de/hgaedke/irremote/ViewModeState.kt:7-8 | `state` is injective. A string decodes to a variant iff it is that variant's `state` string ("VIEW_MODE_FOLDER", "VIEW_MODE_PLAYBACK"). |
| Wire.NotificationMessage | app/src/main/java/de/hgaedke/irremote/websocket/WebSocketClient.kt:62 | The notification text is `{"notification": "` + message + `"}`, with the message inserted verbatim. Stripping the envelope gives the message back for every message. |
| Wire.AppMessage | app/src/main/java/de/hgaedke/irremote/websocket/WebSocketClient.kt:70 | The app-selection text is `{"app": "` + app + `"}`, with the app string inserted verbatim. Stripping the envelope gives it back. |
| Wire.MessagesInjective | app/src/main/java/de/hgaedke/irremote/websocket/WebSocketClient.kt:61-75 | Distinct arguments give distinct notification texts and distinct app-selection texts. |
| Wire.NotificationCanInjectKey | app/src/main/java/de/hgaedke/irremote/websocket/WebSocketClient.kt:62 | Because nothing is escaped, the notification `x", "app": "video` produces the text `{"notification": "x", "app": "video"}`, which also carries an "app" key. |
| Wire.AppTableSelection | app/src/main/java/de/hgaedke/irremote/websocket/WebSocketClient.kt:70 | Selecting an app by its `AllowedApps.app` entry sends `{"app": ""}` for both music and video, and `{"app": "radio1"}` for radio1. |
| Listeners.SocketListener.constructor | app/src/main/java/de/hgaedke/irremote/MainActivity.kt:35 | The observed connection state starts as DISCONNECTED. |
| Listeners.SocketListener.OnOpen | app/src/main/java/de/hgaedke/irremote/MainActivity.kt:38-41 | Open sets the state to CONNECTED. |
| Listeners.SocketListener.OnMessage | app/src/main/java/de/hgaedke/irremote/MainActivity.kt:43-45 | A message leaves the state unchanged: the method has no `modifies` clause, and its ensures only records that this agrees with `Observe`. |
| Listeners.SocketListener.OnClosed | app/src/main/java/de/hgaedke/irremote/MainActivity.kt:47-50 | Closed sets the state to DISCONNECTED. |
| Listeners.ObservedIsLastTransition | app/src/main/java/de/hgaedke/irremote/MainActivity.kt:37-51 | After any sequence of callbacks, the state is the one set by the last Open or Closed. Messages never change it. With no Open or Closed, the initial state remains. |
| WebSocket.WebSocketClient.constructor | app/src/main/java/de/hgaedke/irremote/websocket/WebSocketClient.kt:10-15 | A new client has an empty URL, reconnection enabled, no socket, no listener and an empty log. |
| WebSocket.WebSocketClient.SetListener | app/src/main/java/de/hgaedke/irremote/websocket/WebSocketClient.kt:32-34 | The given listener replaces any earlier one. |
| WebSocket.WebSocketClient.SetSocketUrl | app/src/main/java/de/hgaedke/irremote/websocket/WebSocketClient.kt:36-38 | The URL is replaced and later dials use it. Nothing else changes. |
| WebSocket.WebSocketClient.InitWebSocket | app/src/main/java/de/hgaedke/irremote/websocket/WebSocketClient.kt:40-48 | Exactly one new socket is dialled for the current URL and the handle now exists. The flag and the listener are unchanged. |
| WebSocket.WebSocketClient.Connect | app/src/main/java/de/hgaedke/irremote/websocket/WebSocketClient.kt:50-54 | Sets `enableReconnect` and always dials exactly one new socket with the current URL, even if a socket already exists. |
| WebSocket.WebSocketClient.Reconnect | app/src/main/java/de/hgaedke/irremote/websocket/WebSocketClient.kt:56-59 | Dials exactly one new socket with the current URL and leaves `enableReconnect` unchanged. |
| WebSocket.WebSocketClient.SendNotification | app/src/main/java/de/hgaedke/irremote/websocket/WebSocketClient.kt:61-67 | Appends exactly one transmission of the notification text iff a socket was ever created. Otherwise nothing changes and no error occurs. |
| WebSocket.WebSocketClient.SelectApp | app/src/main/java/de/hgaedke/irremote/websocket/WebSocketClient.kt:69-75 | Appends exactly one transmission of the app-selection text iff a socket was ever created. Otherwise nothing changes. |
| WebSocket.WebSocketClient.Disconnect | app/src/main/java/de/hgaedke/irremote/websocket/WebSocketClient.kt:77-83 | Requests a close with code 1000 and no reason iff a socket was ever created, then clears `enableReconnect`. It never dials. |
| WebSocket.WebSocketClient.RequestStatus | app/src/main/java/de/hgaedke/irremote/websocket/WebSocketClient.kt:85-90 | Appends exactly one transmission of `{"status": "get"}` iff a socket was ever created. |
| WebSocket.WebSocketClient.OnOpen | app/src/main/java/de/hgaedke/irremote/websocket/WebSocketClient.kt:95-98 | Only forwards Open to the listener, if one is set, and so sets its state to CONNECTED. No dial, no transmission, flag unchanged. |
| WebSocket.WebSocketClient.OnMessage | app/src/main/java/de/hgaedke/irremote/websocket/WebSocketClient.kt:101-104 | Only forwards Message(text) to the listener, if one is set. No dial, no transmission, flag unchanged. |
| WebSocket.WebSocketClient.OnClosing | app/src/main/java/de/hgaedke/irremote/websocket/WebSocketClient.kt:106-108 | Changes nothing: the method has no `modifies` clause, and its ensures only records that this agrees with `ClientModel.Step`. |
| WebSocket.WebSocketClient.OnClosed | app/src/main/java/de/hgaedke/irremote/websocket/WebSocketClient.kt:110-117 | The listener, if set, receives exactly one Closed. Then exactly one new socket is dialled iff `enableReconnect` holds. |
| WebSocket.WebSocketClient.OnFailure | app/src/main/java/de/hgaedke/irremote/websocket/WebSocketClient.kt:119-128 | Same effect as a close: one Closed to the listener, if set, then a re-dial iff `enableReconnect` holds. |
| ClientModel.NoRedialWhileDisabled | app/src/main/java/de/hgaedke/irremote/websocket/WebSocketClient.kt:110-128 | While reconnection is disabled, no sequence of events without `connect` or `reconnect` dials, and the flag stays cleared. |
| ClientModel.DisconnectStopsRedial | app/src/main/java/de/hgaedke/irremote/websocket/WebSocketClient.kt:77-83 | `disconnect` logs only the normal-closure request, if any. After it, no close, failure, send or callback dials again until `connect` (or `reconnect`) is called. |
| ClientModel.RetryIsUnbounded | app/src/main/java/de/hgaedke/irremote/websocket/WebSocketClient.kt:110-128 | While reconnection is enabled, n closes or failures in a row give exactly n rounds of "Closed to the listener, then re-dial the same URL". There is no bound and no delay. |
| ClientScenarios.ConnectTwiceOpensTwice | app/src/main/java/de/hgaedke/irremote/websocket/WebSocketClient.kt:50-54 | Connecting twice dials twice, and the listener hears Open twice with no Closed in between. |
| ClientScenarios.SendAfterCloseStillCallsSend | app/src/main/java/de/hgaedke/irremote/websocket/WebSocketClient.kt:85-90 | After connect, disconnect and the close event, the status request is still passed to `webSocket.send`. Whether the transport then puts it on the wire is not modelled. |
| ClientScenarios.StaleCloseRedials | app/src/main/java/de/hgaedke/irremote/websocket/WebSocketClient.kt:110-117 | A close event that arrives after disconnect and a new connect re-dials, giving two new sockets for that connect. |
| Main.ToggleAction | app/src/main/java/de/hgaedke/irremote/MainActivity.kt:92-98 | The toggle calls `connect` iff the observed state is DISCONNECTED and `disconnect` iff it is CONNECTED. It calls nothing when the state is null. |
| Main.ButtonsMatchToggle | app/src/main/java/de/hgaedke/irremote/MainActivity.kt:106-123 | Connect is enabled iff DISCONNECTED and Disconnect iff CONNECTED, so they are never enabled together. Pressing the enabled button calls the client operation that matches its label. |
| Main.EnabledButtonFollowsNotifications | app/src/main/java/de/hgaedke/irremote/MainActivity.kt:35-51 | Starting from DISCONNECTED, the observed state is never null. Disconnect is enabled iff the last Open or Closed callback was Open, and Connect is enabled otherwise. |
| Main.MainActivity.constructor | app/src/main/java/de/hgaedke/irremote/MainActivity.kt:53-60 | The listener is registered and the URL is set before any button can be pressed. The client starts with reconnection enabled, no socket and an empty log. The observed state is DISCONNECTED. |
| Main.MainActivity.ToggleConnectionState | app/src/main/java/de/hgaedke/irremote/MainActivity.kt:92-98 | The client takes exactly one `connect` step, one `disconnect` step or none, as the toggle decides. The registration and the URL are kept. |
| Main.MainActivity.OnValueChange | app/src/main/java/de/hgaedke/irremote/MainActivity.kt:134-137 | Typing replaces the field's text. |
| Main.MainActivity.Send | app/src/main/java/de/hgaedke/irremote/MainActivity.kt:142-145 | The current text is passed to `sendMessage`, then the field is emptied. |

## Left out

- The OkHttp transport is replaced by the effect log: `OkHttpClient`, the request builder, `newWebSocket`, the executor shutdown and the `client` field (WebSocketClient.kt:42-47). They are foreign network I/O.
- The callbacks' arguments (the socket, the response, close code and reason, the throwable) are left out because the code ignores them. The log does not say which socket a close or a callback belongs to, since the code does not tell sockets apart either.
- The `@Synchronized` singleton `getInstance` is left out. Each `MainActivity` builds its own client. In the app, a recreated activity would reuse a client that still holds its earlier state.
- Threading is left out. Callbacks arrive on OkHttp threads and `postValue` defers the state update to the main thread. Each event is modelled as one atomic call.
- The Send button calls `webSocketClient.sendMessage` (MainActivity.kt:74), but `WebSocketClient` defines no such method. `Main.MainActivity.Send` records the calls to the `sendMessage` callback and has no effect on the client.
- The `state` property that MainActivity.kt:104 reads from `ConnectionState` is left out. The file declaring `ConnectionState` is not part of this model.
- The Compose layout, the theme, `DefaultPreview`, recomposition and all `Log` calls are left out as display only. The observed value is read directly from the listener's state.
- The `IRStatus` and `MusicState` records and their JSON decoding are left out. They have no behaviour, the decoding is done by kotlinx.serialization, and `VideoState` is not part of this model.
- WebSocket.WebSocketClient.Connect: the model dials for every URL string. In the app, `Request.Builder().url(socketUrl)` (WebSocketClient.kt:43) throws for a URL OkHttp cannot parse, including the initial `""`. `connect` then fails after setting `enableReconnect`, and no socket handle is created. OkHttp's URL rules are not part of this model.
- WebSocket.WebSocketClient.Reconnect: dials for every URL string, for the same reason as `Connect`. A URL OkHttp rejects would make it throw with no socket created.
- WebSocket.WebSocketClient.InitWebSocket: records a Dial and sets the handle for every URL string. A URL OkHttp rejects would make it throw before either happens.
- The client's listener field has the type of the activity's listener class, not the `SocketListener` interface (SocketListener.kt), because Dafny traits are not used here. The ensures about the listener's connection state therefore hold only for that one implementation, which is the only one the app registers.
