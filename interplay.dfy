/**
 * How the three components fit together: what the server makes of the messages
 * the mobile page sends, which socket paths the server routes, and client methods
 * whose verification checks event sequences against the controllers' contracts.
 */
module Interplay {
  import opened Wrappers
  import opened Wire
  import Mobile
  import Display
  import Server

  /** The frame the server sends back for a tap on a button keyed `k` while addressing `a`. */
  function ResponseFrame(a: string, k: string): Frame
    requires a in Server.AnimalResponses() && k in Server.AnimalResponses()[a]
  {
    Frame(map["type" := "animal_response", "animal" := a, "content" := Server.AnimalResponses()[a][k]], None)
  }

  /**
   * A tap on a keyed button for a known animal gets exactly one reply, which the
   * mobile page shows under the animal's capitalised name; the echo of the tap
   * itself does not pass the page's inbound filter, so the tap shows once.
   */
  lemma ButtonTapIsAnswered(a: string, k: string, text: string)
    requires a in Server.AnimalResponses() && k in Server.AnimalResponses()[a]
    ensures Server.Reply(Server.AnimalResponses(), Frame(Mobile.UserMessage(a, text, Some(k)), None)) == Success(Some(ResponseFrame(a, k)))
    ensures Mobile.Format(ResponseFrame(a, k).fields) ==
      Some(Mobile.Entry("animal_response", Mobile.Labelled(Mobile.Capitalise(a), Server.AnimalResponses()[a][k])))
    ensures HasType(ResponseFrame(a, k).fields, "animal_response")
    ensures !HasType(Mobile.UserMessage(a, text, Some(k)), "animal_response")
  {
    var m := Mobile.UserMessage(a, text, Some(k));
    assert m["animal"] == a && m["content_key"] == k;
    assert Server.Answerable(Server.AnimalResponses(), m);
  }

  /** A button without `data-key` sends no `content_key`: the server echoes it and does not answer. */
  lemma KeylessTapIsNotAnswered(t: Server.Table, a: string, text: string)
    ensures Server.Reply(t, Frame(Mobile.UserMessage(a, text, None), None)) == Success(None)
  {
  }

  /** Every frame the gate lets through carries `type`, so it never stops the server's receive loop. */
  lemma SentFramesNeverCrash(t: Server.Table, f: Frame)
    requires Mobile.GatedMessage(f)
    ensures Server.Reply(t, f).Success?
  {
  }

  /** A character the URL syntax leaves alone in a path: a letter, a digit, or one of `-._~`. */
  predicate Unreserved(c: char)
  {
    'a' <= c <= 'z' || 'A' <= c <= 'Z' || '0' <= c <= '9' || c == '-' || c == '.' || c == '_' || c == '~'
  }

  /**
   * The mobile page's socket path routes to its own session when the id is made of
   * unreserved characters and is not a dot segment. The page puts the raw id into
   * the URL, which the browser then parses: a `?` starts a query and so ends the
   * path, a `#` makes the socket constructor throw, a `%` escape is decoded by the
   * server before routing, a `\` separates path segments, `.` and `..` are
   * resolved away, tab, LF and CR are deleted, and trailing spaces and control
   * characters are stripped.
   */
  lemma MobileSocketRouted(sid: string)
    requires sid != "" && sid != "." && sid != ".."
    requires forall i :: 0 <= i < |sid| ==> Unreserved(sid[i])
    ensures Server.Route(Mobile.SocketPath(sid)) == Some(sid)
  {
    var p := Mobile.SocketPath(sid);
    assert p[..4] == "/ws/" && p[4..] == sid;
  }

  /**
   * The companion link the display's QR code encodes has no query string, so the
   * mobile page it opens finds no `session_id` and takes the no-session branch:
   * it shows the error and opens no socket.
   */
  lemma MobileLinkOpensNoSession(protocol: string, host: string)
    requires '?' !in protocol && '?' !in host
    ensures '?' !in Display.MobileLink(protocol, host)
    ensures Mobile.BootPage(None, protocol, host) == Mobile.NoSession(Mobile.NoSessionError)
  {
  }

  /** The display page's socket path `/ws` is not one the server routes. */
  lemma DisplaySocketUnrouted()
    ensures Server.Route("/ws") == None
  {
  }

  /**
   * Given inbound frames no client tagged `history`, nothing the server sends is a
   * `history` frame, so a display fed by it never has its transcript replaced.
   */
  lemma ServerSendsNoHistory(t: Server.Table, conns: seq<Server.ConnId>, frames: seq<Frame>, d: Server.Delivery, log: seq<Display.Entry>)
    requires forall i :: 0 <= i < |frames| ==> !HasType(frames[i].fields, "history")
    requires d in Server.Serve(t, conns, frames).deliveries
    ensures !HasType(d.frame.fields, "history")
    ensures log <= Display.Step(log, d.frame)
  {
    Server.ServeOutput(t, conns, frames, d);
  }

  /** A mobile page meets an elephant reply after connecting. */
  method ElephantGreeting()
  {
    var c := new Mobile.Controller("https:", "zoo", "s1");
    c.OnOpen();
    var greeted := c.log;
    assert greeted == [Mobile.NoticeEntry(Mobile.ConnectedNotice)];
    var echo := Frame(map["type" := "user_message", "animal" := "elephant", "content" := "Hi"], None);
    assert !HasType(echo.fields, "animal_response");
    c.OnMessage(echo);
    assert c.log == greeted;
    var reply := map["type" := "animal_response", "animal" := "elephant", "content" := "Hello"];
    assert Mobile.Capitalise("elephant") == "Elephant";
    assert Mobile.Format(reply) == Some(Mobile.Entry("animal_response", Mobile.Labelled("Elephant", "Hello")));
    c.OnMessage(Frame(reply, None));
    assert c.log == greeted + [Mobile.Entry("animal_response", Mobile.Labelled("Elephant", "Hello"))];
  }

  /** Switching subjects goes straight from one animal to the next; a stale loss is ignored. */
  method SubjectSwitch(ids: map<string, int>)
    requires "elephant" in ids && "lizard" in ids && ids["elephant"] != ids["lizard"]
  {
    var c := new Mobile.Controller("http:", "zoo", "s1");
    c.HandleMarkerDetection(true, "elephant");
    assert c.currentAnimal == Some("elephant");
    c.HandleMarkerDetection(true, "lizard");
    assert c.currentAnimal == Some("lizard") && c.log == [Mobile.NoticeEntry(Mobile.TalkingTo("lizard"))];
    c.HandleMarkerDetection(true, "lizard");
    assert !Mobile.LosesSubject(c.currentAnimal, ids["elephant"], ids);
    c.LostMarker(ids["elephant"], ids);
    assert c.currentAnimal == Some("lizard") && c.messagingVisible;
    assert Mobile.LosesSubject(c.currentAnimal, ids["lizard"], ids);
    c.LostMarker(ids["lizard"], ids);
    assert c.currentAnimal == None && !c.messagingVisible;
    assert Mobile.Gate(c.currentAnimal, c.socketOpen) == Mobile.NoAnimalRejected;
    var r := c.Click(Some("hello"), "Hello!");
    assert r == Mobile.NoAnimalRejected && c.sent == [];
  }

  /** A tap after the server's Close frame, but before `onclose` runs, is rejected and sends nothing. */
  method TapWhileClosing()
  {
    var c := new Mobile.Controller("https:", "zoo", "s1");
    c.OnOpen();
    c.HandleMarkerDetection(true, "elephant");
    c.OnClosing();
    var r := c.Click(Some("hello"), "Hello!");
    assert r == Mobile.NotOpenRejected && c.sent == [];
    assert c.log == [Mobile.NoticeEntry(Mobile.TalkingTo("elephant")), Mobile.NoticeEntry(Mobile.NotOpenNotice)];
    c.OnClose();
    assert c.pendingReconnects == 1;
  }

  /** Each socket's close schedules one reconnect, and each reconnect reopens the session's URL. */
  method ReconnectTwice()
  {
    var c := new Mobile.Controller("http:", "zoo", "s1");
    c.OnClose();
    assert c.pendingReconnects == 1;
    c.ReconnectTimerFires();
    c.OnClose();
    c.ReconnectTimerFires();
    assert c.attempts == [c.url, c.url, c.url] && c.pendingReconnects == 0 && c.closes == 2;
  }

  /** A history of one message followed by a new message. */
  method DisplayHistoryThenMessage()
  {
    var d := new Display.Controller("http:", "zoo");
    d.OnMessage(Frame(map["type" := "history"], Some([map["username" := "A", "message" := "hi"]])));
    d.OnMessage(Frame(map["type" := "new_message", "username" := "B", "message" := "yo"], None));
    assert d.log == [Display.Notice(Display.HistoryNotice),
                     Display.Bubble("user-message", "A", "hi"),
                     Display.Bubble("user-message", "B", "yo")];
  }
}
