/**
 * The server: the registry of connections per session, the broadcast fan-out, the
 * scripted animal replies and the per-connection receive loop.
 */
module Server {
  import opened Wrappers
  import opened Wire

  type SessionId = string

  /** Identity of one accepted WebSocket. */
  type ConnId = nat

  /** One `send_text` to one connection. */
  datatype Delivery = Delivery(to: ConnId, frame: Frame)

  /** What the server raises. */
  datatype Error =
    | MissingType   // `KeyError: 'type'` from `message["type"]`
    | NotConnected  // `ValueError` from `list.remove` of a socket not in the list

  const ElephantHello := "The elephant raises its trunk and lets out a friendly trumpet!"
  const ElephantFood := "The elephant enjoys munching on leaves and branches."
  const ElephantFact := "Elephants can communicate over long distances using low-frequency sounds!"
  const LizardHello := "The lizard flicks its tongue and curiously tilts its head."
  const LizardFood := "This lizard loves to eat insects and small bugs."
  const LizardFact := "Some lizards can detach their tails to escape from predators!"

  /** Reply texts by animal and by content key. */
  type Table = map<string, map<string, string>>

  /** The pre-defined animal replies, by animal and by content key. */
  function AnimalResponses(): Table
  {
    map[
      "elephant" := map["hello" := ElephantHello, "food" := ElephantFood, "fun_fact" := ElephantFact],
      "lizard" := map["hello" := LizardHello, "food" := LizardFood, "fun_fact" := LizardFact]]
  }

  /** The table covers exactly elephant and lizard, each with exactly the keys hello, food and fun_fact. */
  lemma ResponseTableKeys()
    ensures AnimalResponses().Keys == {"elephant", "lizard"}
    ensures AnimalResponses()["elephant"].Keys == {"hello", "food", "fun_fact"}
    ensures AnimalResponses()["lizard"].Keys == {"hello", "food", "fun_fact"}
  {
  }

  /** A `user_message` naming an animal of the table and one of its content keys. */
  predicate Answerable(t: Table, m: Record)
  {
    && HasType(m, "user_message")
    && "animal" in m && m["animal"] in t
    && "content_key" in m && m["content_key"] in t[m["animal"]]
  }

  /**
   * The reply the endpoint owes an inbound message, if any, under the reply table
   * `t` (the endpoint uses `AnimalResponses()`); a message without `type` raises.
   */
  function Reply(t: Table, msg: Frame): (r: Result<Option<Frame>, Error>)
    ensures r.Failure? <==> "type" !in msg.fields
    ensures r.Failure? ==> r.error == MissingType
    ensures r.Success? && r.value.Some? <==> Answerable(t, msg.fields)
    ensures r.Success? && r.value.Some? ==>
      var a, k := msg.fields["animal"], msg.fields["content_key"];
      r.value.value == Frame(map["type" := "animal_response", "animal" := a, "content" := t[a][k]], None)
  {
    if "type" !in msg.fields then Failure(MissingType)
    else if Answerable(t, msg.fields) then
      var a, k := msg.fields["animal"], msg.fields["content_key"];
      Success(Some(Frame(map["type" := "animal_response", "animal" := a, "content" := t[a][k]], None)))
    else Success(None)
  }

  /** The session a socket path `/ws/{session_id}` routes to; a path segment matches `[^/]+`. */
  function Route(path: string): (r: Option<SessionId>)
    ensures r.Some? <==> |path| > 4 && path[..4] == "/ws/" && '/' !in path[4..]
    ensures r.Some? ==> path == "/ws/" + r.value && r.value != ""
  {
    if |path| > 4 && path[..4] == "/ws/" && '/' !in path[4..] then Some(path[4..]) else None
  }

  /** One delivery of `f` to each connection of `conns`, in list order. */
  function Fanout(conns: seq<ConnId>, f: Frame): (ds: seq<Delivery>)
    ensures |ds| == |conns|
  {
    if conns == [] then [] else [Delivery(conns[0], f)] + Fanout(conns[1..], f)
  }

  /** The i-th delivery of a fan-out goes to the i-th connection. */
  lemma {:induction false} FanoutAt(conns: seq<ConnId>, f: Frame, i: nat)
    requires i < |conns|
    ensures Fanout(conns, f)[i] == Delivery(conns[i], f)
  {
    if i > 0 {
      FanoutAt(conns[1..], f, i - 1);
    }
  }

  /** The connections of a session; an unknown session has none. */
  function Members(active: map<SessionId, seq<ConnId>>, sid: SessionId): seq<ConnId>
  {
    if sid in active then active[sid] else []
  }

  /** `list.remove(x)`: drop the first occurrence of `x`. */
  function RemoveFirst(s: seq<ConnId>, x: ConnId): (r: seq<ConnId>)
    requires x in s
    ensures |r| == |s| - 1
  {
    if s[0] == x then s[1..] else [s[0]] + RemoveFirst(s[1..], x)
  }

  /** When the first occurrence of `x` is at `i`, removing it keeps what lies before and after, in order. */
  lemma {:induction false} RemoveFirstSplits(s: seq<ConnId>, x: ConnId, i: nat)
    requires i < |s| && s[i] == x
    requires forall k :: 0 <= k < i ==> s[k] != x
    ensures RemoveFirst(s, x) == s[..i] + s[i + 1..]
  {
    if i == 0 {
      assert s[..0] + s[1..] == s[1..];
    } else {
      var t := s[1..];
      assert t[i - 1] == x;
      RemoveFirstSplits(t, x, i - 1);
      calc {
        RemoveFirst(s, x);
        [s[0]] + RemoveFirst(t, x);
        [s[0]] + (t[..i - 1] + t[i..]);
        { assert s[..i] == [s[0]] + t[..i - 1]; assert s[i + 1..] == t[i..]; }
        s[..i] + s[i + 1..];
      }
    }
  }

  /** Exactly one occurrence of `x` goes; every other connection stays. */
  lemma RemoveFirstMultiset(s: seq<ConnId>, x: ConnId, i: nat)
    requires i < |s| && s[i] == x
    requires forall k :: 0 <= k < i ==> s[k] != x
    ensures multiset(RemoveFirst(s, x)) == multiset(s) - multiset{x}
  {
    var before, after := s[..i], s[i + 1..];
    RemoveFirstSplits(s, x, i);
    assert s == before + [x] + after;
    assert multiset(s) == multiset(before) + multiset{x} + multiset(after);
    assert multiset(RemoveFirst(s, x)) == multiset(before) + multiset(after);
  }

  /** Disconnecting a socket that connected last and only once restores the list. */
  lemma {:induction false} ConnectThenDisconnect(s: seq<ConnId>, x: ConnId)
    requires x !in s
    ensures RemoveFirst(s + [x], x) == s
  {
    if s != [] {
      assert (s + [x])[1..] == s[1..] + [x];
      ConnectThenDisconnect(s[1..], x);
    }
  }

  /** The deliveries caused by one received frame: its echo, then the reply if there is one. */
  function FrameDeliveries(t: Table, conns: seq<ConnId>, f: Frame): seq<Delivery>
  {
    Fanout(conns, f) + match Reply(t, f) {
      case Success(Some(resp)) => Fanout(conns, resp)
      case _ => []
    }
  }

  /** The echo comes first, then at most one reply broadcast, and nothing else. */
  lemma EchoThenReply(t: Table, conns: seq<ConnId>, f: Frame)
    ensures FrameDeliveries(t, conns, f)[..|conns|] == Fanout(conns, f)
    ensures Answerable(t, f.fields) ==>
      FrameDeliveries(t, conns, f)[|conns|..] == Fanout(conns, Reply(t, f).value.value)
    ensures !Answerable(t, f.fields) ==> FrameDeliveries(t, conns, f) == Fanout(conns, f)
  {
  }

  /** Everything one frame causes goes to the session's connections and is its echo or an animal response. */
  lemma FrameDeliveriesShape(t: Table, conns: seq<ConnId>, f: Frame, d: Delivery)
    requires d in FrameDeliveries(t, conns, f)
    ensures d.to in conns
    ensures d.frame == f || HasType(d.frame.fields, "animal_response")
  {
    var echo := Fanout(conns, f);
    if d in echo {
      var i :| 0 <= i < |echo| && echo[i] == d;
      FanoutAt(conns, f, i);
    } else {
      var resp := Reply(t, f).value.value;
      var replies := Fanout(conns, resp);
      assert d in replies;
      var i :| 0 <= i < |replies| && replies[i] == d;
      FanoutAt(conns, resp, i);
    }
  }

  /** The deliveries of a receive loop over `frames` until it raises, and whether it raised. */
  datatype Served = Served(deliveries: seq<Delivery>, crashed: bool)

  /** One endpoint's receive loop over the frames its client sends before disconnecting. */
  function Serve(t: Table, conns: seq<ConnId>, frames: seq<Frame>): Served
    decreases |frames|
  {
    if frames == [] then Served([], false)
    else
      var here := FrameDeliveries(t, conns, frames[0]);
      if "type" !in frames[0].fields then Served(here, true)
      else
        var rest := Serve(t, conns, frames[1..]);
        Served(here + rest.deliveries, rest.crashed)
  }

  /** Having sent `ds` so far, serving the remaining frames `rest` completes `whole`. */
  ghost predicate Pending(t: Table, conns: seq<ConnId>, whole: Served, rest: seq<Frame>, ds: seq<Delivery>)
  {
    && whole.deliveries == ds + Serve(t, conns, rest).deliveries
    && whole.crashed == Serve(t, conns, rest).crashed
  }

  /** One more frame of the receive loop: a frame without `type` ends it, any other leaves the rest pending. */
  lemma ServeAdvance(t: Table, conns: seq<ConnId>, whole: Served, rest: seq<Frame>, ds: seq<Delivery>)
    requires rest != [] && Pending(t, conns, whole, rest, ds)
    ensures "type" !in rest[0].fields ==> whole == Served(ds + FrameDeliveries(t, conns, rest[0]), true)
    ensures "type" in rest[0].fields ==>
      Pending(t, conns, whole, rest[1..], ds + FrameDeliveries(t, conns, rest[0]))
  {
    if "type" in rest[0].fields {
      var here, later := FrameDeliveries(t, conns, rest[0]), Serve(t, conns, rest[1..]);
      assert Serve(t, conns, rest).deliveries == here + later.deliveries;
      assert ds + (here + later.deliveries) == (ds + here) + later.deliveries;
    }
  }

  /** The loop raises exactly when some frame lacks `type`. */
  lemma {:induction false} ServeCrashesIff(t: Table, conns: seq<ConnId>, frames: seq<Frame>)
    ensures Serve(t, conns, frames).crashed <==> exists i :: 0 <= i < |frames| && "type" !in frames[i].fields
    decreases |frames|
  {
    if frames != [] {
      ServeCrashesIff(t, conns, frames[1..]);
      if "type" in frames[0].fields {
        assert forall i :: 1 <= i < |frames| ==> frames[i] == frames[1..][i - 1];
      }
    }
  }

  /**
   * The server only ever echoes what it received or sends an animal response, and
   * only to the session's own connections: it never originates a `history` or
   * `new_message` frame.
   */
  lemma {:induction false} ServeOutput(t: Table, conns: seq<ConnId>, frames: seq<Frame>, d: Delivery)
    requires d in Serve(t, conns, frames).deliveries
    ensures d.to in conns
    ensures d.frame in frames || HasType(d.frame.fields, "animal_response")
    decreases |frames|
  {
    var here := FrameDeliveries(t, conns, frames[0]);
    if d in here {
      FrameDeliveriesShape(t, conns, frames[0], d);
    } else {
      ServeOutput(t, conns, frames[1..], d);
    }
  }

  /** `ConnectionManager`: the active connections of every session, in connection order. */
  class ConnectionManager {
    var active: map<SessionId, seq<ConnId>>

    constructor ()
      ensures active == map[]
    {
      active := map[];
    }

    /** `connect`: append the socket to its session's list, creating the list if needed. */
    method Connect(ws: ConnId, sid: SessionId)
      modifies this
      ensures active == old(active)[sid := Members(old(active), sid) + [ws]]
    {
      if sid !in active {
        active := active[sid := []];
      }
      active := active[sid := active[sid] + [ws]];
    }

    /**
     * `disconnect`: drop the first occurrence of the socket from a known session,
     * whose key stays even when its list empties; an unknown session is left alone;
     * a socket not in the list raises.
     */
    method Disconnect(ws: ConnId, sid: SessionId) returns (r: Outcome<Error>)
      modifies this
      ensures sid !in old(active) ==> r == Pass && active == old(active)
      ensures sid in old(active) && ws !in old(active)[sid] ==> r == Fail(NotConnected) && active == old(active)
      ensures sid in old(active) && ws in old(active)[sid] ==>
        r == Pass && active == old(active)[sid := RemoveFirst(old(active)[sid], ws)]
    {
      r := Pass;
      if sid in active {
        if ws !in active[sid] {
          return Fail(NotConnected);
        }
        active := active[sid := RemoveFirst(active[sid], ws)];
      }
    }

    /** `broadcast`: one delivery to each connection of the session, in list order. */
    method Broadcast(f: Frame, sid: SessionId) returns (ds: seq<Delivery>)
      ensures sid !in active ==> ds == []
      ensures sid in active ==> |ds| == |active[sid]|
      ensures sid in active ==> forall i :: 0 <= i < |ds| ==> ds[i] == Delivery(active[sid][i], f)
      ensures ds == Fanout(Members(active, sid), f)
    {
      ds := [];
      if sid in active {
        var conns := active[sid];
        var i := 0;
        while i < |conns|
          invariant 0 <= i <= |conns| && |ds| == i
          invariant forall k :: 0 <= k < i ==> ds[k] == Delivery(conns[k], f)
        {
          ds := ds + [Delivery(conns[i], f)];
          i := i + 1;
        }
        forall k | 0 <= k < |conns|
          ensures ds[k] == Fanout(conns, f)[k]
        {
          FanoutAt(conns, f, k);
        }
      }
    }
  }

  /**
   * One iteration of the receive loop under the reply table `t` (the server's is
   * `AnimalResponses()`): echo the frame, then broadcast the reply if any.
   */
  method HandleFrame(t: Table, m: ConnectionManager, sid: SessionId, f: Frame) returns (ds: seq<Delivery>, r: Outcome<Error>)
    ensures ds == FrameDeliveries(t, Members(m.active, sid), f)
    ensures r.Fail? <==> "type" !in f.fields
  {
    ds := m.Broadcast(f, sid);
    var reply := Reply(t, f);
    if reply.Failure? {
      return ds, Fail(reply.error);
    }
    if reply.value.Some? {
      var resp := m.Broadcast(reply.value.value, sid);
      ds := ds + resp;
    }
    r := Pass;
  }

  /**
   * The receive loop of `websocket_endpoint` over the frames the client sends,
   * handling each in turn until one raises.
   */
  method Receive(t: Table, m: ConnectionManager, sid: SessionId, frames: seq<Frame>)
    returns (ds: seq<Delivery>, crashed: bool)
    ensures Served(ds, crashed) == Serve(t, Members(m.active, sid), frames)
  {
    var conns := Members(m.active, sid);
    ds, crashed := [], false;
    ghost var whole := Serve(t, conns, frames);
    var rest := frames;
    while rest != [] && !crashed
      invariant !crashed ==> Pending(t, conns, whole, rest, ds)
      invariant crashed ==> whole == Served(ds, true)
      decreases |rest|
    {
      ServeAdvance(t, conns, whole, rest, ds);
      var d, r := HandleFrame(t, m, sid, rest[0]);
      ds := ds + d;
      crashed := r.Fail?;
      rest := rest[1..];
    }
  }

  /**
   * `websocket_endpoint` under the reply table `t`: register the socket, serve the
   * frames its client sends, and unregister it when the client disconnects. A frame
   * without `type` ends the loop with an error other than `WebSocketDisconnect`, so
   * the socket stays registered.
   */
  method Endpoint(t: Table, m: ConnectionManager, ws: ConnId, sid: SessionId, frames: seq<Frame>)
    returns (ds: seq<Delivery>, crashed: bool)
    modifies m
    ensures Served(ds, crashed) == Serve(t, Members(old(m.active), sid) + [ws], frames)
    ensures crashed ==> m.active == old(m.active)[sid := Members(old(m.active), sid) + [ws]]
    ensures !crashed ==>
      m.active == old(m.active)[sid := RemoveFirst(Members(old(m.active), sid) + [ws], ws)]
  {
    m.Connect(ws, sid);
    ds, crashed := Receive(t, m, sid, frames);
    if !crashed {
      var r := m.Disconnect(ws, sid);
    }
  }
}
