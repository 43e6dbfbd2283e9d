/**
 * The session cache and message relay: one process-wide map from session id
 * to that session's history and bound websocket, updated by the session
 * bootstrap route, by the websocket handler's events and by the backend's
 * callback route. Network sends are appended to two logs: `framesSent` (frames
 * pushed to clients) and `forwarded` (envelopes posted to the backend).
 */
module Server {
  import opened Wrappers
  import opened History
  import opened Messages

  /** One cache entry: the session's history and the socket last bound to it, if any. */
  datatype Session = Session(history: seq<Entry>, socket: Option<Socket>)

  /** The cookies a request carries. */
  datatype Cookies = Cookies(session: Option<string>, name: Option<string>)

  /**
   * The locals of one websocket handler between two events: its own socket,
   * its request's cookies, the session it serves (None while unbound) and the
   * sender name it forwards.
   */
  datatype Handler = Handler(ws: Socket, cookies: Cookies, session: Option<SessionId>, name: Option<string>)

  /**
   * Errors the source raises: a lookup of an id missing from the cache, a
   * message event on a handler with no session, a push to a session with no
   * bound socket.
   */
  datatype Fault = UnknownSession | NoSession | NoActiveChannel

  /** The bootstrap route's reply; the session cookie it sets equals `session`. */
  datatype SessionReply = SessionReply(status: int, session: SessionId)

  /** The callback route's reply; `timestamp` is an opaque monotonic clock reading. */
  datatype Ack = Ack(status: int, timestamp: real)

  /** Python truthiness of an optional string: present and non-empty. */
  predicate Truthy(s: Option<string>)
  {
    s.Some? && s.value != ""
  }

  ghost function MaxLen(keys: set<string>): (m: nat)
    ensures forall k | k in keys :: |k| <= m
    decreases keys
  {
    if keys == {} then 0
    else
      var k :| k in keys;
      var rest := MaxLen(keys - {k});
      if |k| > rest then |k| else rest
  }

  /** However many sessions exist, a non-empty id that names none of them is available. */
  lemma FreshIdExists(keys: set<string>)
    ensures exists id: string :: id !in keys && id != ""
  {
    var id := seq(MaxLen(keys) + 1, _ => 'x');
    assert id !in keys;
  }

  class Relay {
    var cache: map<SessionId, Session>
    var framesSent: seq<Frame>
    var forwarded: seq<Envelope>
    /** The instance identity obtained at startup registration; None when registration failed. */
    const instanceToken: Option<string>
    const instanceName: Option<string>

    /** Every history is within capacity; ids are never empty. */
    ghost predicate Valid()
      reads this
    {
      && "" !in cache
      && forall id | id in cache :: |cache[id].history| <= MAXSIZE
    }

    /** The handler's session, if it has one, is in the cache (entries are never removed). */
    ghost predicate Serves(h: Handler)
      reads this
    {
      h.session.Some? ==> h.session.value in cache
    }

    constructor (token: Option<string>, name: Option<string>)
      ensures Valid()
      ensures cache == map[] && framesSent == [] && forwarded == []
      ensures instanceToken == token && instanceName == name
    {
      cache, framesSent, forwarded := map[], [], [];
      instanceToken, instanceName := token, name;
    }

    /**
     * Session bootstrap: reuse the cookie's session if the cache knows it
     * (204, nothing changes), otherwise create a fresh id with an empty
     * history and no socket (201).
     */
    method ServeSession(cookie: Option<string>) returns (reply: SessionReply)
      requires Valid()
      modifies this
      ensures Valid()
      ensures framesSent == old(framesSent) && forwarded == old(forwarded)
      ensures cookie.None? || cookie.value !in old(cache) ==>
        && reply.status == 201
        && reply.session !in old(cache) && reply.session != ""
        && cache == old(cache)[reply.session := Session([], None)]
      ensures cookie.Some? && cookie.value in old(cache) ==>
        reply == SessionReply(204, cookie.value) && cache == old(cache)
    {
      if cookie.None? || cookie.value !in cache {
        FreshIdExists(cache.Keys);
        var id :| id !in cache && id != "";
        cache := cache[id := Session([], None)];
        reply := SessionReply(201, id);
      } else {
        reply := SessionReply(204, cookie.value);
      }
    }

    /** Bind `ws` to session `id`, replacing any earlier socket; fails when `id` is unknown. */
    method BindSocket(id: SessionId, ws: Socket) returns (ok: bool)
      requires Valid()
      modifies this
      ensures Valid()
      ensures framesSent == old(framesSent) && forwarded == old(forwarded)
      ensures ok == (id in old(cache))
      ensures ok ==> cache == old(cache)[id := old(cache)[id].(socket := Some(ws))]
      ensures !ok ==> cache == old(cache)
    {
      ok := id in cache;
      if ok {
        cache := cache[id := cache[id].(socket := Some(ws))];
      }
    }

    /**
     * A websocket connects: with a session cookie, bind the socket to that
     * session and take the sender name from the name cookie; without one,
     * start unbound.
     */
    method Connect(ws: Socket, cookies: Cookies) returns (r: Result<Handler, Fault>)
      requires Valid()
      modifies this
      ensures Valid()
      ensures framesSent == old(framesSent) && forwarded == old(forwarded)
      ensures !Truthy(cookies.session) ==>
        r == Ok(Handler(ws, cookies, None, None)) && cache == old(cache)
      ensures Truthy(cookies.session) && cookies.session.value !in old(cache) ==>
        r == Err(UnknownSession) && cache == old(cache)
      ensures Truthy(cookies.session) && cookies.session.value in old(cache) ==>
        && r == Ok(Handler(ws, cookies, cookies.session, cookies.name))
        && cache == old(cache)[cookies.session.value :=
                                 old(cache)[cookies.session.value].(socket := Some(ws))]
      ensures r.Ok? ==> Serves(r.value)
    {
      if Truthy(cookies.session) {
        var ok := BindSocket(cookies.session.value, ws);
        if !ok {
          return Err(UnknownSession);
        }
        r := Ok(Handler(ws, cookies, cookies.session, cookies.name));
      } else {
        r := Ok(Handler(ws, cookies, None, None));
      }
    }

    /** Append `e` to session `id`'s history, then drop the oldest entry if it is over capacity. */
    method AppendToHistory(id: SessionId, e: Entry)
      requires Valid() && id in cache
      modifies this
      ensures Valid()
      ensures framesSent == old(framesSent) && forwarded == old(forwarded)
      ensures cache == old(cache)[id := old(cache)[id].(history := Push(old(cache)[id].history, e))]
    {
      var q := cache[id].history + [e];
      if |q| > MAXSIZE {
        q := q[1..];
      }
      cache := cache[id := cache[id].(history := q)];
    }

    /**
     * A `new_message` event: record the user's text as a local echo from
     * "You", then forward it to the backend on behalf of the session.
     */
    method OnNewMessage(h: Handler, text: string) returns (r: Result<Handler, Fault>)
      requires Valid() && Serves(h)
      modifies this
      ensures Valid()
      ensures framesSent == old(framesSent)
      ensures h.session.None? ==>
        r == Err(NoSession) && cache == old(cache) && forwarded == old(forwarded)
      ensures h.session.Some? ==>
        var id := h.session.value;
        && r == Ok(h)
        && cache == old(cache)[id := old(cache)[id].(history := Push(old(cache)[id].history, LocalEcho(text)))]
        && forwarded == old(forwarded) + [Forward(h.name, id, instanceToken, instanceName, text)]
    {
      if h.session.None? {
        return Err(NoSession);
      }
      var id := h.session.value;
      AppendToHistory(id, LocalEcho(text));
      forwarded := forwarded + [Forward(h.name, id, instanceToken, instanceName, text)];
      r := Ok(h);
    }

    /**
     * Replay session `id`'s history over `ws`, oldest first: each stored entry
     * is tagged NEW_MESSAGE and, unless it is the newest, has its buttons
     * cleared, in place, and is then sent.
     */
    method Replay(ws: Socket, id: SessionId)
      requires Valid() && id in cache
      modifies this
      ensures Valid()
      ensures forwarded == old(forwarded)
      ensures cache == old(cache)[id := old(cache)[id].(history := Replayed(old(cache)[id].history))]
      ensures framesSent == old(framesSent) + FramesTo(ws, Replayed(old(cache)[id].history))
    {
      ghost var c0 := cache;
      ghost var q0 := cache[id].history;
      ghost var r0 := Replayed(q0);
      var n := |cache[id].history|;
      assert r0[..0] + q0[0..] == q0;
      assert c0 == c0[id := c0[id].(history := q0)];
      for index := 0 to n
        invariant Valid()
        invariant cache == c0[id := c0[id].(history := r0[..index] + q0[index..])]
        invariant framesSent == old(framesSent) + FramesTo(ws, r0[..index])
        invariant forwarded == old(forwarded)
      {
        assert cache[id].history == r0[..index] + q0[index..];
        var e := cache[id].history[index];
        assert e == q0[index];
        if index < n - 1 {
          e := e.(buttons := None);
        }
        e := e.(event := Some(NEW_MESSAGE));
        ReplayedAt(q0, index);
        assert e == r0[index];
        ReplayPrefixStep(q0, index);
        cache := cache[id := cache[id].(history := cache[id].history[index := e])];
        FramesToSnoc(ws, r0[..index], e);
        assert r0[..index] + [e] == r0[..index + 1];
        framesSent := framesSent + [Frame(ws, EntryFrame(e))];
      }
      assert r0[..n] + q0[n..] == r0;
    }

    /**
     * A `start` event: an unbound handler first binds to the session named in
     * the event. Then an empty history forwards one "/start" envelope, and a
     * non-empty one is replayed over the handler's socket.
     */
    method OnStart(h: Handler, inline: Option<string>) returns (r: Result<Handler, Fault>)
      requires Valid() && Serves(h)
      modifies this
      ensures Valid()
      ensures h.session.None? && (inline.None? || inline.value !in old(cache)) ==>
        && r == Err(UnknownSession)
        && cache == old(cache) && framesSent == old(framesSent) && forwarded == old(forwarded)
      ensures h.session.Some? ==> r == Ok(h)
      ensures h.session.None? && inline.Some? && inline.value in old(cache) ==>
        r == Ok(h.(session := inline, name := h.cookies.name))
      ensures r.Ok? ==>
        var id := r.value.session.value;
        var bound := if h.session.Some? then old(cache)
                     else old(cache)[id := old(cache)[id].(socket := Some(h.ws))];
        var q := old(cache)[id].history;
        && Serves(r.value)
        && (q == [] ==>
              && cache == bound
              && framesSent == old(framesSent)
              && forwarded == old(forwarded) +
                   [Forward(r.value.name, id, instanceToken, instanceName, START_COMMAND)])
        && (q != [] ==>
              && cache == bound[id := bound[id].(history := Replayed(q))]
              && framesSent == old(framesSent) + FramesTo(h.ws, Replayed(q))
              && forwarded == old(forwarded))
    {
      var h' := h;
      if h.session.None? {
        if inline.None? {
          return Err(UnknownSession);
        }
        var ok := BindSocket(inline.value, h.ws);
        if !ok {
          return Err(UnknownSession);
        }
        h' := h.(session := inline, name := h.cookies.name);
      }
      var id := h'.session.value;
      if cache[id].history == [] {
        forwarded := forwarded + [Forward(h'.name, id, instanceToken, instanceName, START_COMMAND)];
      } else {
        Replay(h.ws, id);
      }
      r := Ok(h');
    }

    /**
     * A backend callback: record the message in the addressed session's
     * history under its resolved name, then push the callback body, tagged
     * NEW_MESSAGE, to the session's bound socket and acknowledge with 200.
     * The history append happens even when no socket is bound.
     */
    method WebhookFromServer(data: Callback, now: real) returns (r: Result<Ack, Fault>)
      requires Valid()
      modifies this
      ensures Valid()
      ensures forwarded == old(forwarded)
      ensures data.chatId !in old(cache) ==>
        r == Err(UnknownSession) && cache == old(cache) && framesSent == old(framesSent)
      ensures data.chatId in old(cache) ==>
        var s := old(cache)[data.chatId];
        && cache == old(cache)[data.chatId := s.(history := Push(s.history, RenderCallback(data)))]
        && (s.socket.None? ==> r == Err(NoActiveChannel) && framesSent == old(framesSent))
        && (s.socket.Some? ==>
              && r == Ok(Ack(200, now))
              && framesSent == old(framesSent) +
                   [Frame(s.socket.value, CallbackFrame(Resolved(data), NEW_MESSAGE))])
    {
      var id := data.chatId;
      if id !in cache {
        return Err(UnknownSession);
      }
      AppendToHistory(id, RenderCallback(data));
      var sock := cache[id].socket;
      if sock.None? {
        return Err(NoActiveChannel);
      }
      framesSent := framesSent + [Frame(sock.value, CallbackFrame(Resolved(data), NEW_MESSAGE))];
      r := Ok(Ack(200, now));
    }
  }

  /**
   * Bootstrap is idempotent: presenting the id the first call returned is
   * answered with 204 and that same id, and at most one session is created.
   */
  method BootstrapTwice(relay: Relay, cookie: Option<string>) returns (first: SessionReply, second: SessionReply)
    requires relay.Valid()
    modifies relay
    ensures relay.Valid()
    ensures second == SessionReply(204, first.session)
    ensures first.status == 201 ==>
      first.session !in old(relay.cache) &&
      relay.cache == old(relay.cache)[first.session := Session([], None)]
    ensures first.status != 201 ==> first.session in old(relay.cache) && relay.cache == old(relay.cache)
  {
    first := relay.ServeSession(cookie);
    second := relay.ServeSession(Some(first.session));
  }

  /** The frames a replay sends for the three local echoes "a", "b" and "c". */
  lemma EchoesReplayed(ws: Socket)
    ensures var fs := FramesTo(ws, Replayed([LocalEcho("a"), LocalEcho("b"), LocalEcho("c")]));
      && |fs| == 3
      && (forall i | 0 <= i < 3 :: fs[i].to == ws && fs[i].body.EntryFrame?)
      && fs[0].body.entry.text == "a" && fs[1].body.entry.text == "b" && fs[2].body.entry.text == "c"
      && (forall i | 0 <= i < 3 :: fs[i].body.entry.firstName == LOCAL_ECHO_NAME)
      && (forall i | 0 <= i < 3 :: fs[i].body.entry.event == Some(NEW_MESSAGE))
      && fs[0].body.entry.buttons == None && fs[1].body.entry.buttons == None
  {
    var q := [LocalEcho("a"), LocalEcho("b"), LocalEcho("c")];
    ReplayStripsButtons(q);
  }

  /**
   * A fresh session receives "a", "b" and "c" from its client; a reconnecting
   * client's `start` then gets them back, oldest first, as local echoes with
   * the buttons of all but the newest cleared.
   */
  method EchoThenReplay(ws: Socket) returns (replayed: seq<Frame>)
    ensures |replayed| == 3
    ensures forall i | 0 <= i < 3 :: replayed[i].to == ws && replayed[i].body.EntryFrame?
    ensures replayed[0].body.entry.text == "a" && replayed[1].body.entry.text == "b"
    ensures replayed[2].body.entry.text == "c"
    ensures forall i | 0 <= i < 3 :: replayed[i].body.entry.firstName == LOCAL_ECHO_NAME
    ensures forall i | 0 <= i < 3 :: replayed[i].body.entry.event == Some(NEW_MESSAGE)
    ensures replayed[0].body.entry.buttons == None && replayed[1].body.entry.buttons == None
  {
    var relay := new Relay(None, None);
    var reply := relay.ServeSession(None);
    var id := reply.session;
    var conn := relay.Connect(ws, Cookies(Some(id), Some("Ann")));
    var h := conn.value;
    var _ := relay.OnNewMessage(h, "a");
    assert relay.cache[id].history == [LocalEcho("a")];
    var _ := relay.OnNewMessage(h, "b");
    assert relay.cache[id].history == [LocalEcho("a"), LocalEcho("b")];
    var _ := relay.OnNewMessage(h, "c");
    var q := [LocalEcho("a"), LocalEcho("b"), LocalEcho("c")];
    assert relay.cache[id].history == q;
    var framesBefore := relay.framesSent;
    var _ := relay.OnStart(h, None);
    assert relay.framesSent == framesBefore + FramesTo(ws, Replayed(q));
    replayed := relay.framesSent[|framesBefore|..];
    assert replayed == FramesTo(ws, Replayed(q));
    EchoesReplayed(ws);
  }
}
