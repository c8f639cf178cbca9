/**
 * The display page: the chat transcript fed by its socket, the rendering of each
 * message as a notice or a speech bubble, and the connection lifecycle notices.
 */
module Display {
  import opened Wrappers
  import opened Wire

  /** The username whose bubbles get the bird style. */
  const BirdName := "藍鵲"

  const ListeningNotice := "Listening for messages..."
  const HistoryNotice := "Chat history loaded."
  const ClosedNotice := "Connection closed. Reconnecting in 3s..."
  const ErrorNotice := "An error occurred with the connection."

  /**
   * One element of the transcript: an italic system notice, or a bubble with its
   * style class (`bird-message` or `user-message`), username and text.
   */
  datatype Entry = Notice(text: string) | Bubble(cls: string, username: string, content: string)

  /** A locally synthesised notice. */
  function SystemMessage(content: string): Record
  {
    map["type" := "system", "content" := content]
  }

  /** `appendMessage(msg)`'s choice of what to show. */
  function Render(msg: Record): (e: Entry)
    ensures e.Notice? <==> HasType(msg, "system")
    ensures e.Notice? ==> e.text == Text(msg, "content")
    ensures e.Bubble? ==> e.username != ""
    ensures e.Bubble? && Truthy(msg, "username") ==> e.username == msg["username"]
    ensures e.Bubble? && !Truthy(msg, "username") ==> e.username == "Unknown"
    ensures e.Bubble? ==> (e.cls == "bird-message" <==> e.username == BirdName)
    ensures e.Bubble? ==> (e.cls == "user-message" <==> e.username != BirdName)
    ensures e.Bubble? && Truthy(msg, "message") ==> e.content == msg["message"]
    ensures e.Bubble? && !Truthy(msg, "message") && Truthy(msg, "content") ==> e.content == msg["content"]
    ensures e.Bubble? ==> (e.content == "" <==> !Truthy(msg, "message") && !Truthy(msg, "content"))
  {
    if HasType(msg, "system") then
      Notice(Text(msg, "content"))
    else
      var username := if Truthy(msg, "username") then msg["username"] else "Unknown";
      var content := if Truthy(msg, "message") then msg["message"]
                     else if Truthy(msg, "content") then msg["content"]
                     else "";
      Bubble(if username == BirdName then "bird-message" else "user-message", username, content)
  }

  /** The entries of `items`, rendered one by one in order. */
  function RenderAll(items: seq<Record>): (r: seq<Entry>)
    ensures |r| == |items|
  {
    if items == [] then [] else [Render(items[0])] + RenderAll(items[1..])
  }

  /** The i-th rendered entry is the i-th item rendered. */
  lemma {:induction false} RenderAllAt(items: seq<Record>, i: nat)
    requires i < |items|
    ensures RenderAll(items)[i] == Render(items[i])
  {
    if i > 0 {
      RenderAllAt(items[1..], i - 1);
    }
  }

  /** The array a `history` frame carries, or none when `data` is missing. */
  function HistoryItems(f: Frame): seq<Record>
  {
    if f.data.Some? then f.data.value else []
  }

  /**
   * The transcript after one inbound frame. A `history` frame replaces the log by
   * the loaded notice and its items (when `data` is missing, `forEach` throws after
   * the notice); `new_message` appends itself; any other frame leaves the log alone.
   */
  function Step(log: seq<Entry>, f: Frame): seq<Entry>
  {
    if HasType(f.fields, "history") then
      [Render(SystemMessage(HistoryNotice))] + RenderAll(HistoryItems(f))
    else if HasType(f.fields, "new_message") then
      log + [Render(f.fields)]
    else
      log
  }

  /** The transcript after a sequence of inbound frames, in order. */
  function Run(log: seq<Entry>, frames: seq<Frame>): seq<Entry>
    decreases |frames|
  {
    if frames == [] then log else Run(Step(log, frames[0]), frames[1..])
  }

  /** The scalar fields of each frame. */
  function FieldsOf(frames: seq<Frame>): seq<Record>
  {
    if frames == [] then [] else [frames[0].fields] + FieldsOf(frames[1..])
  }

  /** `${protocol}//${host}/mobile`, the companion link the QR code encodes. */
  function MobileLink(protocol: string, host: string): (r: string)
    ensures '?' !in protocol && '?' !in host ==> '?' !in r
  {
    protocol + "//" + host + "/mobile"
  }

  /** Rendering a run that starts with `x` starts with `x` rendered. */
  lemma RenderAllCons(x: Record, xs: seq<Record>)
    ensures RenderAll([x] + xs) == [Render(x)] + RenderAll(xs)
  {
    assert ([x] + xs)[1..] == xs;
  }

  /** Rendering distributes over concatenation. */
  lemma {:induction false} RenderAllAppend(a: seq<Record>, b: seq<Record>)
    ensures RenderAll(a + b) == RenderAll(a) + RenderAll(b)
  {
    if a == [] {
      assert a + b == b;
    } else {
      assert (a + b)[0] == a[0];
      assert (a + b)[1..] == a[1..] + b;
      RenderAllAppend(a[1..], b);
      calc {
        RenderAll(a + b);
        [Render(a[0])] + RenderAll(a[1..] + b);
        [Render(a[0])] + (RenderAll(a[1..]) + RenderAll(b));
        ([Render(a[0])] + RenderAll(a[1..])) + RenderAll(b);
      }
    }
  }

  /** After a `history` frame no earlier entry survives: the result does not depend on the old log. */
  lemma HistoryReplaces(log1: seq<Entry>, log2: seq<Entry>, f: Frame)
    requires HasType(f.fields, "history")
    ensures Step(log1, f) == Step(log2, f)
    ensures Step(log1, f) == [Notice(HistoryNotice)] + RenderAll(HistoryItems(f))
  {
  }

  /** Frames other than `history` only ever extend the log: earlier entries stay in place. */
  lemma {:induction false} NoHistoryExtends(log: seq<Entry>, frames: seq<Frame>)
    requires forall i :: 0 <= i < |frames| ==> !HasType(frames[i].fields, "history")
    ensures log <= Run(log, frames)
    decreases |frames|
  {
    if frames != [] {
      NoHistoryExtends(Step(log, frames[0]), frames[1..]);
    }
  }

  /** A `new_message` frame appends its own rendering. */
  lemma StepNewMessage(log: seq<Entry>, f: Frame)
    requires HasType(f.fields, "new_message")
    ensures Step(log, f) == log + [Render(f.fields)]
  {
  }

  /** A run of `new_message` frames appends their renderings in arrival order. */
  lemma {:induction false} NewMessagesInOrder(log: seq<Entry>, frames: seq<Frame>)
    requires forall i :: 0 <= i < |frames| ==> HasType(frames[i].fields, "new_message")
    ensures Run(log, frames) == log + RenderAll(FieldsOf(frames))
    decreases |frames|
  {
    if frames != [] {
      var f, rest := frames[0], frames[1..];
      var e := Render(f.fields);
      assert Run(log, frames) == Run(Step(log, f), rest);
      StepNewMessage(log, f);
      forall i | 0 <= i < |rest|
        ensures HasType(rest[i].fields, "new_message")
      {
        assert rest[i] == frames[i + 1];
      }
      NewMessagesInOrder(log + [e], rest);
      var tail := RenderAll(FieldsOf(rest));
      assert FieldsOf(frames) == [f.fields] + FieldsOf(rest);
      RenderAllCons(f.fields, FieldsOf(rest));
      assert (log + [e]) + tail == log + ([e] + tail);
    }
  }

  /** A history frame followed by new messages: the loaded notice, the history, then the messages. */
  lemma HistoryThenMessages(log: seq<Entry>, h: Frame, news: seq<Frame>)
    requires HasType(h.fields, "history")
    requires forall i :: 0 <= i < |news| ==> HasType(news[i].fields, "new_message")
    ensures Run(log, [h] + news) == [Notice(HistoryNotice)] + RenderAll(HistoryItems(h)) + RenderAll(FieldsOf(news))
  {
    assert ([h] + news)[1..] == news;
    NewMessagesInOrder(Step(log, h), news);
  }

  /** The controller of one display page. */
  class Controller {
    const url: string
    var log: seq<Entry>
    var closes: nat
    var pendingReconnects: nat
    var attempts: seq<string>

    /** Every connection attempt opens the same URL; every close scheduled one reconnect. */
    ghost predicate Valid()
      reads this
    {
      && |attempts| + pendingReconnects == 1 + closes
      && (forall i :: 0 <= i < |attempts| ==> attempts[i] == url)
    }

    /** Page load: the first connection attempt, to the room endpoint `/ws`. */
    constructor (protocol: string, host: string)
      ensures Valid()
      ensures url == WsUrl(protocol, host, "/ws")
      ensures log == [] && closes == 0 && pendingReconnects == 0 && attempts == [url]
    {
      url := WsUrl(protocol, host, "/ws");
      log := [];
      closes := 0;
      pendingReconnects := 0;
      attempts := [WsUrl(protocol, host, "/ws")];
    }

    /** `appendMessage`: exactly one entry at the tail, earlier entries untouched. */
    method AppendMessage(msg: Record)
      requires Valid()
      modifies this`log
      ensures Valid()
      ensures log == old(log) + [Render(msg)]
    {
      log := log + [Render(msg)];
    }

    /** `socket.onmessage`. */
    method OnMessage(f: Frame)
      requires Valid()
      modifies this`log
      ensures Valid()
      ensures log == Step(old(log), f)
    {
      if HasType(f.fields, "history") {
        log := [];
        AppendMessage(SystemMessage(HistoryNotice));
        if f.data.Some? {
          var items := f.data.value;
          var i := 0;
          while i < |items|
            invariant 0 <= i <= |items|
            invariant Valid()
            invariant log == [Render(SystemMessage(HistoryNotice))] + RenderAll(items[..i])
          {
            AppendMessage(items[i]);
            RenderAllAppend(items[..i], [items[i]]);
            assert items[..i + 1] == items[..i] + [items[i]];
            i := i + 1;
          }
          assert items[..i] == items;
        }
      } else if HasType(f.fields, "new_message") {
        AppendMessage(f.fields);
      }
    }

    /** `socket.onopen`. */
    method OnOpen()
      requires Valid()
      modifies this`log
      ensures Valid()
      ensures log == old(log) + [Notice(ListeningNotice)]
    {
      AppendMessage(SystemMessage(ListeningNotice));
    }

    /** `socket.onclose`: a notice, and one reconnect scheduled after 3000 ms. */
    method OnClose()
      requires Valid()
      modifies this`log, this`closes, this`pendingReconnects
      ensures Valid()
      ensures log == old(log) + [Notice(ClosedNotice)]
      ensures closes == old(closes) + 1 && pendingReconnects == old(pendingReconnects) + 1
    {
      AppendMessage(SystemMessage(ClosedNotice));
      closes := closes + 1;
      pendingReconnects := pendingReconnects + 1;
    }

    /** `socket.onerror`. */
    method OnError()
      requires Valid()
      modifies this`log
      ensures Valid()
      ensures log == old(log) + [Notice(ErrorNotice)]
    {
      AppendMessage(SystemMessage(ErrorNotice));
    }

    /** A scheduled reconnect fires: `connectWebSocket` opens a fresh socket to the same URL. */
    method ReconnectTimerFires()
      requires Valid() && pendingReconnects > 0
      modifies this`pendingReconnects, this`attempts
      ensures Valid()
      ensures pendingReconnects == old(pendingReconnects) - 1 && attempts == old(attempts) + [url]
    {
      pendingReconnects := pendingReconnects - 1;
      attempts := attempts + [url];
    }
  }
}
