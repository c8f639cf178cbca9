# Marker-gated AR chat: a verified model

This project models the three pieces of sequential logic in a small demo. A stationary
display page shows a chat transcript. A visitor's phone runs a mobile AR page that
talks to "animals" found through camera markers. A FastAPI server relays frames
within a session and answers scripted button taps.

- `wrappers.dfy` has `Option`, `Result` and `Outcome`.
- `wire.dfy` (module `Wire`) has the frame shape. A frame is a JSON object with
  string fields (an absent field is a missing key), plus the `data` array of a
  `history` frame. It also has JavaScript truthiness, template-literal printing
  (`undefined` for an absent field) and the `ws:`/`wss:` scheme choice.
- `mobile.dfy` (module `Mobile`) has the mobile page as a `Controller` class. Its
  fields are the addressed animal, the socket's open flag, the messaging UI's
  visibility and the shown name, the chat log, the frames sent, and reconnect
  bookkeeping. There is one method per event handler: marker detection, marker
  loss, button tap, inbound message, open, close, error, camera denial, and a
  reconnect timer firing. The open flag stands for `readyState === OPEN`, so the
  start of a close handshake, which clears it before `onclose` runs, is an event
  of its own (`OnClosing`). Entry formatting (`Format`), the send gate (`Gate`) and
  page boot (`BootPage`) are pure functions.
- `display.dfy` (module `Display`) has the display page as a `Controller` class
  over its transcript. Rendering (`Render`) is a pure function. So is `Step`, the
  transcript after one frame, which the controller's `OnMessage` is proved to
  implement. Lemmas cover history replacement and append order.
- `server.dfy` (module `Server`) has `ConnectionManager` as a class over
  `map<SessionId, seq<ConnId>>`. `Broadcast` returns the sequence of deliveries.
  There is the reply table `AnimalResponses` and the pure `Reply` rule, and the
  receive loop of `websocket_endpoint`: one iteration as `HandleFrame`, the loop as
  `Receive`, and registration around it as `Endpoint`. They are proved against the
  specification function `Serve`. `Reply`, `Serve` and the loop's methods take the
  reply table as a parameter `t`. The server's own table is `AnimalResponses()`,
  and the results about the loop hold for any table.
- `interplay.dfy` (module `Interplay`) has lemmas across components. They say what
  the server makes of the mobile page's taps and which socket paths the server
  routes. It also has client methods whose verification checks event sequences
  against the controllers' contracts.

Each scheduled `setTimeout(connectWebSocket, 3000)` is a counter of pending
reconnects. Firing one is an explicit event. Each controller's `Valid()` keeps
`|attempts| + pendingReconnects == 1 + closes`, and every attempt opens the same
URL.

What the code does on the points where a reader might expect otherwise:
- A `history` frame on the display puts a "Chat history loaded." notice before the
  history items.
- The display labels bubbles by `username` or `Unknown`. It never uses the animal
  name.
- Malformed input throws where the code throws. An `animal_response` without
  `animal` throws on the mobile page, so nothing is appended. A `history` frame
  without `data` throws after the log has been cleared and the notice appended. A
  frame without `type` makes the server raise after its echo. The raise is not a
  `WebSocketDisconnect`, so the socket is never unregistered.
- The server never originates a `history` or `new_message` frame: it only echoes
  what it receives and sends `animal_response` frames (`Server.ServeOutput`). So
  when no client sends a `history` frame, the display's transcript is never
  replaced (`Interplay.ServerSendsNoHistory`).

Three places where the code disagrees with itself, and what each side does:
- The display connects to `/ws` (`static/js/display.js:17`), while the server
  routes only `/ws/{session_id}` (`main.py:59`). `Interplay.DisplaySocketUnrouted`
  states that the server routes no session for that path.
- The QR code on the display encodes `<protocol>//<host>/mobile` with no query
  string (`static/js/display.js:52`), while the mobile page requires a
  `session_id` parameter (`static/js/mobile.js:16-23`). A phone that follows the
  link always shows the no-session error. `Interplay.MobileLinkOpensNoSession`
  states the two halves: the link has no query string, and a page without a
  `session_id` shows that error. The model has no function from a page URL to
  its `session_id` value, so the step between them is not stated.
- The mobile page puts the raw session id into the socket URL
  (`static/js/mobile.js:30`), which the browser parses before the request. A `?`
  ends the path. A `#` makes `new WebSocket` throw. A `%` escape is decoded by the
  server. A `\` separates segments. An id `.` or `..` is resolved away. Tab, LF
  and CR are deleted, and trailing spaces are stripped. Such ids do not reach the
  server as themselves, so `Interplay.MobileSocketRouted` is stated only for ids
  made of letters, digits and `-._~` that are not `.` or `..`.

## Model

| member | source | states |
|---|---|---|
| Wire.WsScheme | static/js/mobile.js:29 | the socket scheme is `wss:` exactly when the page protocol is `https:`, else `ws:` |
| Mobile.Capitalise | static/js/mobile.js:176 | same length; first character upper-cased, the rest unchanged |
| Mobile.BootPage | static/js/mobile.js:15-31 | an absent or empty `session_id` shows the no-session error and connects nowhere; otherwise the URL is `<scheme>//<host>/ws/<sessionId>` |
| Mobile.Format | static/js/mobile.js:168-182 | `user_message` is labelled "You"; `animal_response` is labelled with the capitalised animal, or throws when `animal` is absent; anything else is a notice; the text is always the printed `content` and the class the printed `type` |
| Mobile.Gate | static/js/mobile.js:142-151 | a tap is sent iff an animal is set and the socket is open; no animal is reported first, the closed socket only when an animal is set |
| Mobile.Controller.constructor | static/js/mobile.js:12-31 | no subject, socket not open, empty log, nothing sent, one connection attempt to the session URL |
| Mobile.Controller.AppendMessage | static/js/mobile.js:168-185 | one formatted entry at the tail, nothing else changed (nothing when formatting throws) |
| Mobile.Controller.HandleMarkerDetection | static/js/mobile.js:126-137 | detecting a different animal sets it directly, shows the UI under its capitalised name and leaves the log as exactly the one announcement; re-detecting the current animal or a non-detection event changes nothing |
| Mobile.Controller.LostMarker | static/js/mobile.js:96-103 | only a loss of the set animal's marker id clears the subject and hides the UI; any other loss changes nothing |
| Mobile.Controller.Click | static/js/mobile.js:140-166 | result is the gate's; each rejection appends its own notice and sends nothing; a pass sends exactly one `user_message` with the animal, button text and key, and appends it as "You" |
| Mobile.Controller.OnMessage | static/js/mobile.js:38-45 | only `animal_response` frames reach the log; any other type leaves it unchanged |
| Mobile.Controller.OnOpen | static/js/mobile.js:33-36 | socket open; the connected notice appended |
| Mobile.Controller.OnClose | static/js/mobile.js:47-51 | socket not open; the disconnect notice appended; exactly one more reconnect scheduled |
| Mobile.Controller.OnClosing | static/js/mobile.js:147 | the socket leaves OPEN before `onclose`; only the open flag changes, so later taps get the connection notice |
| Mobile.Controller.OnError | static/js/mobile.js:53-56 | the error notice appended, nothing else changed |
| Mobile.Controller.OnCameraDenied | static/js/mobile.js:120-123 | the camera notice appended, nothing else changed |
| Mobile.Controller.ReconnectTimerFires | static/js/mobile.js:50 | one pending reconnect consumed; a fresh, not-yet-open socket to the same session URL |
| Display.Render | static/js/display.js:69-93 | `system` renders as a notice of its content; any other message as a bubble labelled `username` if truthy else `Unknown` (never empty), with text `message`, else `content`, else empty, and the bird class exactly when the label is the bird's name |
| Display.RenderAll | static/js/display.js:34 | one entry per item |
| Display.RenderAllAt | static/js/display.js:34 | the i-th entry is the i-th item rendered |
| Display.RenderAllCons | static/js/display.js:34 | rendering a run that starts with an item starts with that item rendered, followed by the rest rendered |
| Display.MobileLink | static/js/display.js:52 | the companion link carries no query string, so no `session_id` |
| Display.RenderAllAppend | static/js/display.js:34 | rendering two runs of items is rendering the first, then the second |
| Display.HistoryReplaces | static/js/display.js:31-34 | after a `history` frame the log is the loaded notice then the items in order, whatever the log was before |
| Display.StepNewMessage | static/js/display.js:35-36 | a `new_message` frame appends exactly its own rendering |
| Display.NoHistoryExtends | static/js/display.js:35-37 | frames other than `history` keep every earlier entry as a prefix |
| Display.NewMessagesInOrder | static/js/display.js:35-36 | a run of `new_message` frames appends their renderings in arrival order |
| Display.HistoryThenMessages | static/js/display.js:31-37 | a history frame then new messages gives the notice, the history, then the messages |
| Display.Controller.constructor | static/js/display.js:15-19 | empty log, one connection attempt to `<scheme>//<host>/ws` |
| Display.Controller.AppendMessage | static/js/display.js:94-96 | exactly one rendered entry at the tail, earlier entries untouched |
| Display.Controller.OnMessage | static/js/display.js:27-38 | the new log is `Step` of the old log and the frame |
| Display.Controller.OnOpen | static/js/display.js:21-24 | the listening notice appended |
| Display.Controller.OnClose | static/js/display.js:40-44 | the closed notice appended; exactly one more reconnect scheduled |
| Display.Controller.OnError | static/js/display.js:46-49 | the error notice appended |
| Display.Controller.ReconnectTimerFires | static/js/display.js:43 | one pending reconnect consumed; one more attempt to the same URL |
| Server.ResponseTableKeys | main.py:36-47 | the table has exactly the animals elephant and lizard, each with exactly the keys hello, food, fun_fact |
| Server.Reply | main.py:70-82 | a frame without `type` raises; a reply exists iff the frame is a `user_message` whose `animal` is in the table and whose `content_key` is under it, and it is the `animal_response` with that table text |
| Server.Route | main.py:59 | a path routes iff it is `/ws/` followed by a non-empty segment without `/`, which is the session id |
| Server.Fanout | main.py:28-31 | one delivery per connection |
| Server.FanoutAt | main.py:29-31 | the i-th delivery goes to the i-th connection |
| Server.RemoveFirst | main.py:26 | exactly one element fewer |
| Server.RemoveFirstSplits | main.py:26 | removal of the first occurrence keeps what lies before and after it, in order |
| Server.RemoveFirstMultiset | main.py:26 | exactly one occurrence of the socket goes and every other stays |
| Server.ConnectThenDisconnect | main.py:18-26 | appending a new socket and then removing it restores the list |
| Server.EchoThenReply | main.py:64-82 | a frame's deliveries are its echo to the session first, then the reply broadcast when it is answerable, otherwise nothing more |
| Server.FrameDeliveriesShape | main.py:64-82 | every delivery a frame causes goes to a session member and is the frame itself or an animal response |
| Server.ServeCrashesIff | main.py:62-85 | the receive loop raises iff some received frame lacks `type` |
| Server.ServeOutput | main.py:62-85 | everything the loop sends goes to the session's connections and is an echo of a received frame or an animal response |
| Server.ServeAdvance | main.py:63-82 | once the deliveries so far are sent, a frame without `type` ends the loop after its own echo; any other frame adds its deliveries and leaves the remaining frames to complete the loop |
| Server.ConnectionManager.constructor | main.py:15-16 | no sessions |
| Server.ConnectionManager.Connect | main.py:18-22 | the socket is appended to its session's list, created empty if new; other sessions unchanged |
| Server.ConnectionManager.Disconnect | main.py:24-26 | a known session loses the first occurrence of the socket and keeps its key; an unknown session is unchanged; a socket not in the list raises and changes nothing |
| Server.ConnectionManager.Broadcast | main.py:28-31 | one delivery to each connection of the session in list order, none for an unknown session |
| Server.HandleFrame | main.py:63-82 | the deliveries of one frame (echo, then the reply if any) and a raise iff `type` is absent |
| Server.Receive | main.py:62-82 | the deliveries and the raise are those of `Serve` over the session's connections and the received frames |
| Server.Endpoint | main.py:59-85 | the deliveries are `Serve` over the session after registering; a raise leaves the socket registered; a client disconnect removes its first occurrence |
| Interplay.ButtonTapIsAnswered | main.py:71-82 | a keyed tap for a known animal gets exactly the table reply, shown on the phone under the capitalised animal, and the tap's own echo does not pass the phone's filter |
| Interplay.KeylessTapIsNotAnswered | main.py:72-74 | a tap from a button without `data-key` is echoed and not answered |
| Interplay.SentFramesNeverCrash | main.py:71 | every frame the phone's gate sends carries `type`, so it never makes the loop raise |
| Interplay.MobileSocketRouted | main.py:59 | the phone's socket path routes to its own session when the id is non-empty, not `.` or `..`, and made only of letters, digits and `-._~` |
| Interplay.MobileLinkOpensNoSession | static/js/display.js:52 | the QR link has no query string, and a page without `session_id` shows the no-session error and opens no socket |
| Interplay.DisplaySocketUnrouted | static/js/display.js:17 | the display's `/ws` path is routed to no session |
| Interplay.ServerSendsNoHistory | main.py:64-82 | if no client sends a `history` frame, the server sends none, so a display fed by it only ever extends its log |

## Left out

- DOM mechanics are not modelled: `innerHTML`, `classList`, scrolling and element creation. Entries are abstract records, and HTML injection through message text is outside the model. The `classList.add` exception for a `type` that is empty or contains whitespace is not modelled either. Only fixed types and `animal_response` ever reach it.
- The initial markup is not part of this model. The messaging UI is assumed hidden at load, and both chat logs are assumed empty.
- The ARToolKit setup, camera parameter loading, `getUserMedia` and the 25 ms processing loop are foreign library and camera I/O. Only the tracking, loss and camera-denied events enter the model.
- The QR code and the bird image animation are UI. `Display.MobileLink` models only the link text.
- Real WebSocket transport, `JSON.parse`/`json.loads`/`json.dumps` and `setTimeout` timing are not modelled. The model has events, an echo of the parsed frame itself, and a count of pending reconnects. A frame that fails to parse is not modelled.
- JSON values other than strings are not modelled. A JSON `null` is treated as an absent field. A button without `data-key` therefore sends no `content_key` instead of `"content_key": null`, and the server's `.get` sees `None` either way. A non-object frame, an unhashable `animal` and a non-object history item are not modelled.
- Server.Reply: a frame whose `type` is JSON `null` is treated as one without `type`, so the model raises `MissingType`. In the code `message["type"]` is `None`, no `KeyError` is raised, and the loop goes on without a reply.
- Server.ServeCrashesIff: for the same reason, the loop is stated to raise on a frame whose `type` is `null`, where the code goes on. `Server.Endpoint` then leaves the socket registered where the code would not.
- Wire.Text: a `null` field prints as `undefined`, where the template literals in `static/js/mobile.js:174-178` and `static/js/display.js:74` print `null`.
- Mobile.Capitalise: `toUpperCase` is modelled for the ASCII letters only. Other characters are left unchanged.
- Mobile.BootPage: percent-decoding of the query string and escaping of the session id in the socket URL are not modelled.
- The `asyncio.sleep(1)` pause, interleaving between concurrent endpoint coroutines and failures of `send_text` to a closed peer are not modelled. `Server.Endpoint` models one endpoint alone against the registry.
- The FastAPI HTML routes (`main.py:49-57`), the static file mount and all logging (`console.*`, `print`) are not modelled.
- `database.py` and `ai.py` are not part of this model. They are database and remote-API I/O, and `main.py` never calls them.
