/**
 * The mobile AR page: the marker gate over the addressed animal, the button send
 * gate, the inbound filter, the connection lifecycle notices and the chat log.
 *
 * The page-global state (`currentAnimal`, the socket, the chat log element) is the
 * state of one `Controller`; each event handler of the page is one method.
 */
module Mobile {
  import opened Wrappers
  import opened Wire

  /** How an entry reads: a bold label followed by text, or an italic notice. */
  datatype Body = Labelled(sender: string, text: string) | Notice(text: string)

  /** One element of the mobile chat log: its CSS class (the message's type) and its body. */
  datatype Entry = Entry(cls: string, body: Body)

  /** Outcome of a tap on a message button. */
  datatype ClickResult = Sent | NoAnimalRejected | NotOpenRejected

  /** What the page shows when it loads: an inline error, or the socket it opens. */
  datatype Boot = NoSession(shown: string) | Connect(url: string)

  const NoSessionError := "Error: No session ID found. Please scan the QR code again."
  const ConnectedNotice := "Connected! Point your camera at an animal."
  const DisconnectedNotice := "Disconnected from server. Attempting to reconnect..."
  const ErrorNotice := "A connection error occurred."
  const CameraNotice := "Error accessing camera. Please allow camera access."
  const NoAnimalNotice := "Please point your camera at an animal first."
  const NotOpenNotice := "Connection lost. Please wait..."

  /** The announcement made when a new animal becomes the subject. */
  function TalkingTo(animal: string): string
  {
    "You are now talking to the " + animal + "!"
  }

  /** `String.prototype.toUpperCase` on one character, for the ASCII letters. */
  function UpperChar(c: char): char
  {
    if 'a' <= c <= 'z' then (c as int - 32) as char else c
  }

  /** `s.charAt(0).toUpperCase() + s.slice(1)`. */
  function Capitalise(s: string): (r: string)
    ensures |r| == |s|
    ensures s != "" ==> r[0] == UpperChar(s[0]) && r[1..] == s[1..]
    ensures s != "" && 'a' <= s[0] <= 'z' ==> 'A' <= r[0] <= 'Z'
  {
    if s == "" then "" else [UpperChar(s[0])] + s[1..]
  }

  /** The socket path of a session. */
  function SocketPath(sessionId: string): string
  {
    "/ws/" + sessionId
  }

  /**
   * Page load: the value of the `session_id` query parameter decides whether the
   * page shows an error (absent or empty, both falsy) or connects.
   */
  function BootPage(sessionParam: Option<string>, protocol: string, host: string): (b: Boot)
    ensures b.NoSession? <==> sessionParam == None || sessionParam == Some("")
    ensures b.NoSession? ==> b.shown == NoSessionError
    ensures b.Connect? ==> b.url == WsUrl(protocol, host, "/ws/" + sessionParam.value)
  {
    if sessionParam == None || sessionParam == Some("") then NoSession(NoSessionError)
    else Connect(WsUrl(protocol, host, SocketPath(sessionParam.value)))
  }

  /** A locally synthesised notice. */
  function Notification(content: string): Record
  {
    map["type" := "system_notification", "content" := content]
  }

  /**
   * The message a button tap sends; `content_key` is the button's `data-key`
   * attribute, left out of the object when the button has none.
   */
  function UserMessage(animal: string, text: string, key: Option<string>): Record
  {
    var m := map["type" := "user_message", "animal" := animal, "content" := text];
    if key.Some? then m["content_key" := key.value] else m
  }

  /**
   * The entry `appendMessage` builds for a message, or `None` when building it
   * throws: an `animal_response` without `animal` fails on `message.animal.charAt`.
   */
  function Format(msg: Record): (e: Option<Entry>)
    ensures e.None? <==> HasType(msg, "animal_response") && "animal" !in msg
    ensures e.Some? ==> e.value.cls == Text(msg, "type") && e.value.body.text == Text(msg, "content")
    ensures e.Some? ==> (e.value.body.Labelled? <==> HasType(msg, "user_message") || HasType(msg, "animal_response"))
    ensures HasType(msg, "user_message") ==> e.value.body.sender == "You"
    ensures HasType(msg, "animal_response") && "animal" in msg ==> e.value.body.sender == Capitalise(msg["animal"])
  {
    if HasType(msg, "user_message") then
      Some(Entry("user_message", Labelled("You", Text(msg, "content"))))
    else if HasType(msg, "animal_response") then
      if "animal" in msg then Some(Entry("animal_response", Labelled(Capitalise(msg["animal"]), Text(msg, "content"))))
      else None
    else
      Some(Entry(Text(msg, "type"), Notice(Text(msg, "content"))))
  }

  /** The log after `appendMessage(msg)`: one entry at the tail unless building it throws. */
  function Appended(log: seq<Entry>, msg: Record): seq<Entry>
  {
    match Format(msg)
    case Some(e) => log + [e]
    case None => log
  }

  /** The notice entry for a locally synthesised notification. */
  function NoticeEntry(content: string): Entry
  {
    Entry("system_notification", Notice(content))
  }

  /** `currentAnimal` as the page tests it: truthy means set and not empty. */
  predicate Addressing(current: Option<string>)
  {
    current.Some? && current.value != ""
  }

  /**
   * The send gate of a button tap: the first failing check decides, the subject
   * before the socket.
   */
  function Gate(current: Option<string>, socketOpen: bool): (r: ClickResult)
    ensures r == Sent <==> Addressing(current) && socketOpen
    ensures r == NoAnimalRejected <==> !Addressing(current)
    ensures r == NotOpenRejected <==> Addressing(current) && !socketOpen
  {
    if !Addressing(current) then NoAnimalRejected
    else if !socketOpen then NotOpenRejected
    else Sent
  }

  /** A `lostMarker` event for marker `markerId` concerns the addressed animal. */
  predicate LosesSubject(current: Option<string>, markerId: int, markerNameToId: map<string, int>)
  {
    Addressing(current) && current.value in markerNameToId && markerNameToId[current.value] == markerId
  }

  /** A frame the page has sent: a `user_message` to a set subject. */
  predicate GatedMessage(f: Frame)
  {
    HasType(f.fields, "user_message") && Truthy(f.fields, "animal") && f.data == None
  }

  /** The controller of one mobile page that found a session id. */
  class Controller {
    const sessionId: string
    const url: string
    var currentAnimal: Option<string>
    /** `socket.readyState === WebSocket.OPEN` for the current socket. */
    var socketOpen: bool
    var messagingVisible: bool
    var shownName: string
    var log: seq<Entry>
    var sent: seq<Frame>
    var closes: nat
    var pendingReconnects: nat
    var attempts: seq<string>

    /**
     * The messaging UI shows exactly while an animal is set, under its
     * capitalised name; every connection attempt (the first and one per fired
     * reconnect) opens the session's URL, and every close scheduled one reconnect;
     * every sent frame passed the gate.
     */
    ghost predicate Valid()
      reads this
    {
      && (messagingVisible <==> currentAnimal.Some?)
      && (currentAnimal.Some? ==> shownName == Capitalise(currentAnimal.value))
      && |attempts| + pendingReconnects == 1 + closes
      && (forall i :: 0 <= i < |attempts| ==> attempts[i] == url)
      && (forall i :: 0 <= i < |sent| ==> GatedMessage(sent[i]))
    }

    /** Page load with a session id: the first connection attempt is made. */
    constructor (protocol: string, host: string, sid: string)
      requires BootPage(Some(sid), protocol, host).Connect?
      ensures Valid()
      ensures sessionId == sid && url == BootPage(Some(sid), protocol, host).url
      ensures currentAnimal == None && !socketOpen && !messagingVisible
      ensures log == [] && sent == [] && closes == 0 && pendingReconnects == 0 && attempts == [url]
    {
      sessionId := sid;
      url := WsUrl(protocol, host, SocketPath(sid));
      currentAnimal := None;
      socketOpen := false;
      messagingVisible := false;
      shownName := "";
      log := [];
      sent := [];
      closes := 0;
      pendingReconnects := 0;
      attempts := [WsUrl(protocol, host, SocketPath(sid))];
    }

    /** `appendMessage`. */
    method AppendMessage(msg: Record)
      requires Valid()
      modifies this`log
      ensures Valid()
      ensures log == Appended(old(log), msg)
    {
      var e := Format(msg);
      if e.Some? {
        log := log + [e.value];
      }
    }

    /** `handleMarkerDetection`: a tracking event for one of the loaded markers. */
    method HandleMarkerDetection(isDetection: bool, animalType: string)
      requires Valid()
      modifies this`currentAnimal, this`shownName, this`messagingVisible, this`log
      ensures Valid()
      ensures isDetection && old(currentAnimal) != Some(animalType) ==>
        && currentAnimal == Some(animalType)
        && shownName == Capitalise(animalType)
        && messagingVisible
        && log == [NoticeEntry(TalkingTo(animalType))]
      ensures !isDetection || old(currentAnimal) == Some(animalType) ==>
        && currentAnimal == old(currentAnimal)
        && shownName == old(shownName)
        && messagingVisible == old(messagingVisible)
        && log == old(log)
    {
      if isDetection && currentAnimal != Some(animalType) {
        currentAnimal := Some(animalType);
        shownName := Capitalise(animalType);
        messagingVisible := true;
        log := [];
        AppendMessage(Notification(TalkingTo(animalType)));
      }
    }

    /** The `lostMarker` handler. */
    method LostMarker(markerId: int, markerNameToId: map<string, int>)
      requires Valid()
      modifies this`currentAnimal, this`messagingVisible
      ensures Valid()
      ensures LosesSubject(old(currentAnimal), markerId, markerNameToId) ==>
        currentAnimal == None && !messagingVisible
      ensures !LosesSubject(old(currentAnimal), markerId, markerNameToId) ==>
        currentAnimal == old(currentAnimal) && messagingVisible == old(messagingVisible)
    {
      if LosesSubject(currentAnimal, markerId, markerNameToId) {
        messagingVisible := false;
        currentAnimal := None;
      }
    }

    /** A tap on a message button with attribute `data-key` = `key` and label `text`. */
    method Click(key: Option<string>, text: string) returns (r: ClickResult)
      requires Valid()
      modifies this`log, this`sent
      ensures Valid()
      ensures r == Gate(currentAnimal, socketOpen)
      ensures r == NoAnimalRejected ==> sent == old(sent) && log == old(log) + [NoticeEntry(NoAnimalNotice)]
      ensures r == NotOpenRejected ==> sent == old(sent) && log == old(log) + [NoticeEntry(NotOpenNotice)]
      ensures r == Sent ==>
        && sent == old(sent) + [Frame(UserMessage(currentAnimal.value, text, key), None)]
        && log == old(log) + [Entry("user_message", Labelled("You", text))]
    {
      if !Addressing(currentAnimal) {
        AppendMessage(Notification(NoAnimalNotice));
        return NoAnimalRejected;
      }
      if !socketOpen {
        AppendMessage(Notification(NotOpenNotice));
        return NotOpenRejected;
      }
      var message := UserMessage(currentAnimal.value, text, key);
      sent := sent + [Frame(message, None)];
      AppendMessage(message);
      r := Sent;
    }

    /** `socket.onmessage`: only animal responses reach the log. */
    method OnMessage(f: Frame)
      requires Valid()
      modifies this`log
      ensures Valid()
      ensures HasType(f.fields, "animal_response") ==> log == Appended(old(log), f.fields)
      ensures !HasType(f.fields, "animal_response") ==> log == old(log)
    {
      if HasType(f.fields, "animal_response") {
        AppendMessage(f.fields);
      }
    }

    /** `socket.onopen`. */
    method OnOpen()
      requires Valid()
      modifies this`socketOpen, this`log
      ensures Valid()
      ensures socketOpen && log == old(log) + [NoticeEntry(ConnectedNotice)]
    {
      socketOpen := true;
      AppendMessage(Notification(ConnectedNotice));
    }

    /**
     * The socket starts its close handshake (a Close frame from the server, or a
     * transport failure): `readyState` leaves OPEN at once, while `onclose` runs
     * only later. No handler runs, so nothing but the open flag changes, and the
     * send gate already rejects taps in between.
     */
    method OnClosing()
      requires Valid()
      modifies this`socketOpen
      ensures Valid()
      ensures !socketOpen
    {
      socketOpen := false;
    }

    /** `socket.onclose`: a notice, and one reconnect scheduled after 3000 ms. */
    method OnClose()
      requires Valid()
      modifies this`socketOpen, this`log, this`closes, this`pendingReconnects
      ensures Valid()
      ensures !socketOpen && log == old(log) + [NoticeEntry(DisconnectedNotice)]
      ensures closes == old(closes) + 1 && pendingReconnects == old(pendingReconnects) + 1
    {
      socketOpen := false;
      AppendMessage(Notification(DisconnectedNotice));
      closes := closes + 1;
      pendingReconnects := pendingReconnects + 1;
    }

    /** `socket.onerror`. */
    method OnError()
      requires Valid()
      modifies this`log
      ensures Valid()
      ensures log == old(log) + [NoticeEntry(ErrorNotice)]
    {
      AppendMessage(Notification(ErrorNotice));
    }

    /** The camera permission promise rejects. */
    method OnCameraDenied()
      requires Valid()
      modifies this`log
      ensures Valid()
      ensures log == old(log) + [NoticeEntry(CameraNotice)]
    {
      AppendMessage(Notification(CameraNotice));
    }

    /** A scheduled reconnect fires: `connectWebSocket` opens a fresh socket to the same URL. */
    method ReconnectTimerFires()
      requires Valid() && pendingReconnects > 0
      modifies this`socketOpen, this`pendingReconnects, this`attempts
      ensures Valid()
      ensures !socketOpen && pendingReconnects == old(pendingReconnects) - 1
      ensures attempts == old(attempts) + [url]
    {
      socketOpen := false;
      pendingReconnects := pendingReconnects - 1;
      attempts := attempts + [url];
    }
  }
}
