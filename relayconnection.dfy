/**
 * A connection to a WebSocket MSRP relay (src/RelayConnection.js): the
 * sessions it carries, keyed by session id, and the queue of chunk senders
 * it serves with at most `maxOutstandingSends` SEND requests awaiting a
 * response.
 *
 * The WebSocket wrapper is not modelled: `ws` says whether the connection
 * holds one, `closing` whether `ws.disconnect()` has been called, and
 * `wire` lists, in order, every message handed to `ws.send`. New
 * transaction ids come from the injected supply `ids`.
 */
module Relay {
  import opened Wrappers
  import opened Message
  import JsString
  import Status
  import Notify
  import Replies
  import Uris
  import Sessions
  import SQ = SendQueue
  import Cfg = ConnectionConfigs
  import CS = ChunkSending

  // ---------------------------------------------------------------------
  // routing of incoming requests

  /** What the connection does with an incoming request: answer it itself, or hand it to a session. */
  datatype Routing = Answer(status: int) | Deliver(id: string)

  /**
   * Lines 171-206: a To-Path of other than one URI, or one naming no
   * session of the connection (by its session id and `equals`), is
   * answered 481; SEND and REPORT go to the session, and any other method
   * is answered 501 (RFC 4975 section 12). `new Uri` throws on a URI it
   * cannot parse, so the `!toUri` test of line 182 never holds and the
   * exception escapes instead.
   */
  function Routed(req: Msg, local: map<string, Uris.UriFields>): (r: Outcome<Routing>)
    requires req.kind.Request?
    ensures r.Returned? && r.value.Deliver? ==> r.value.id in local
  {
    if |req.toPath| != 1 then Returned(Answer(Status.SESSION_DOES_NOT_EXIST))
    else
      match Uris.New(req.toPath[0])
      case Threw(e) => Threw(e)
      case Returned(u) =>
        if u.sessionId !in local || !Uris.Equals(local[u.sessionId], u) then Returned(Answer(Status.SESSION_DOES_NOT_EXIST))
        else if req.kind.verb == "SEND" || req.kind.verb == "REPORT" then Returned(Deliver(u.sessionId))
        else Returned(Answer(Status.NOT_IMPLEMENTED))
  }

  /** The URI a response of the connection comes from: the first of the To-Path, or none. */
  function FirstHop(req: Msg): string
  {
    if |req.toPath| > 0 then req.toPath[0] else ""
  }

  /**
   * A request reaches a session exactly when its To-Path is a single URI
   * that parses, names a session and equals that session's local URI, and
   * its method is SEND or REPORT; 501 goes only to requests that pass the
   * same address check with any other method.
   */
  lemma RoutedDelivers(req: Msg, local: map<string, Uris.UriFields>)
    requires req.kind.Request?
    ensures (exists id :: Routed(req, local) == Returned(Deliver(id))) <==>
      && |req.toPath| == 1 && Uris.New(req.toPath[0]).Returned?
      && var u := Uris.New(req.toPath[0]).value;
         u.sessionId in local && Uris.Equals(local[u.sessionId], u)
         && (req.kind.verb == "SEND" || req.kind.verb == "REPORT")
    ensures Routed(req, local) == Returned(Answer(Status.NOT_IMPLEMENTED)) <==>
      && |req.toPath| == 1 && Uris.New(req.toPath[0]).Returned?
      && var u := Uris.New(req.toPath[0]).value;
         u.sessionId in local && Uris.Equals(local[u.sessionId], u)
         && req.kind.verb != "SEND" && req.kind.verb != "REPORT"
  {
    if |req.toPath| == 1 && Uris.New(req.toPath[0]).Returned? {
      var u := Uris.New(req.toPath[0]).value;
      if u.sessionId in local && Uris.Equals(local[u.sessionId], u) && (req.kind.verb == "SEND" || req.kind.verb == "REPORT") {
        assert Routed(req, local) == Returned(Deliver(u.sessionId));
      }
    }
  }

  /** Routing reads only the To-Path and the method: the From-Path and every header are ignored. */
  lemma RoutedIgnoresSender(req: Msg, other: Msg, local: map<string, Uris.UriFields>)
    requires req.kind.Request? && other.kind == req.kind && other.toPath == req.toPath
    ensures Routed(other, local) == Routed(req, local)
  {
  }

  /**
   * A SEND or REPORT addressed to exactly the text of a session's local
   * URI, as `toString` writes it, reaches that session, provided the URI's
   * fields read back (`Uris.Plain`) and its port is a number.
   */
  lemma AddressedToSession(req: Msg, local: map<string, Uris.UriFields>, id: string)
    requires req.kind == Request("SEND") || req.kind == Request("REPORT")
    requires id in local && local[id].sessionId == id && Uris.Plain(local[id])
    requires Uris.PortValue(local[id].port).Some?
    requires req.toPath == [Uris.Format(local[id])]
    ensures Routed(req, local) == Returned(Deliver(id))
  {
    var f := local[id];
    Uris.ParseFormat(f);
    assert Uris.New(req.toPath[0]) == Returned(f);
    Uris.EqualsSymmetric(f, f);
    RoutedTo(req, local, f);
  }

  /** A request whose lone To-Path URI parses to `u`, which matches the session `u` names, reaches that session. */
  lemma RoutedTo(req: Msg, local: map<string, Uris.UriFields>, u: Uris.UriFields)
    requires req.kind == Request("SEND") || req.kind == Request("REPORT")
    requires |req.toPath| == 1 && Uris.New(req.toPath[0]) == Returned(u)
    requires u.sessionId in local && Uris.Equals(local[u.sessionId], u)
    ensures Routed(req, local) == Returned(Deliver(u.sessionId))
  {
  }

  // ---------------------------------------------------------------------
  // connection calls a session hands back

  /** The messages of `ws.send` calls among `fx`, in order. */
  function Carried(fx: seq<Sessions.ConEffect>): (ms: seq<Msg>)
    ensures |ms| <= |fx|
  {
    if fx == [] then []
    else
      var e := fx[|fx| - 1];
      Carried(fx[..|fx| - 1]) + (if e.WsSend? then [e.m] else [])
  }

  /** The sessions `removeSession` calls among `fx` name. */
  function Dismissed(fx: seq<Sessions.ConEffect>): (ids: set<string>)
    ensures ids == set i | 0 <= i < |fx| && fx[i].RemoveSession? :: fx[i].id
  {
    set i | 0 <= i < |fx| && fx[i].RemoveSession? :: fx[i].id
  }

  /** No call among `fx` adds a sender. */
  predicate Plain(fx: seq<Sessions.ConEffect>)
  {
    forall i :: 0 <= i < |fx| ==> !fx[i].AddSender?
  }

  lemma Minus(m: map<string, Sessions.Session>, d: set<string>, id: string)
    ensures m - d - {id} == m - (d + {id})
  {
  }

  /**
   * What the parser guarantees of every request it passes on: a byte range,
   * and the wanted responses of a SEND or REPORT.
   */
  predicate Incoming(req: Msg)
  {
    req.kind.Request? && req.byteRange.Some?
    && (req.kind.verb == "SEND" || req.kind.verb == "REPORT" ==> req.responseOn.Some?)
  }

  lemma PlainJoin(a: seq<Sessions.ConEffect>, b: seq<Sessions.ConEffect>)
    ensures Plain(a + b) <==> Plain(a) && Plain(b)
  {
    if Plain(a) && Plain(b) {
      forall i | 0 <= i < |a + b|
        ensures !(a + b)[i].AddSender?
      {
        if i >= |a| {
          assert (a + b)[i] == b[i - |a|];
        }
      }
    }
    if Plain(a + b) {
      forall i | 0 <= i < |a|
        ensures !a[i].AddSender?
      {
        assert (a + b)[i] == a[i];
      }
      forall i | 0 <= i < |b|
        ensures !b[i].AddSender?
      {
        assert (a + b)[|a| + i] == b[i];
      }
    }
  }

  /** Calls that only hand messages to the WebSocket add no sender. */
  lemma SentPlain(fx: seq<Sessions.ConEffect>)
    requires forall i :: 0 <= i < |fx| ==> fx[i].WsSend?
    ensures Plain(fx)
  {
  }

  /** Entering a state only ever removes the session. */
  lemma EnteringPlain(x: Sessions.Authing, st: Sessions.State, now: int, env: Sessions.Env)
    requires Plain(x.fx)
    ensures Plain(Sessions.Entering(x, st, now, env).fx)
  {
    PlainJoin(x.fx, Sessions.EnteredEffects(st, env.sessionId));
  }

  /** `sendAuth` calls only `ws.send` and `removeSession`. */
  lemma SentPlainAuth(x: Sessions.Authing, resp: Option<Msg>, digest: Sessions.Digest, now: int, env: Sessions.Env)
    requires Plain(x.fx)
    ensures Plain(Sessions.AuthSent(x, resp, digest, now, env).fx)
  {
    var (st, a) := Sessions.AuthStep(resp, digest);
    var y := Sessions.Entering(x.(used := x.used + 1), st, now, env);
    EnteringPlain(x.(used := x.used + 1), st, now, env);
    PlainJoin(y.fx, [Sessions.WsSend(Sessions.AuthRequest(env.relayMsrpUri, env.localUri, env.ids(x.used), a, x.expires))]);
  }

  /** The response to an AUTH request adds no sender. */
  lemma AnsweredPlain(x: Sessions.Authing, resp: Msg, digest: Sessions.Digest, now: int, env: Sessions.Env)
    requires x.fx == []
    ensures Plain(Sessions.AuthAnswered(x, resp, digest, now, env).fx)
  {
    EnteringPlain(x, Sessions.AuthFailed, now, env);
    SentPlainAuth(x, Some(resp), digest, now, env);
    SentPlainAuth(x.(expires := resp.expires), None, digest, now, env);
    EnteringPlain(x, Sessions.Error, now, env);
    var z := x.(auth := x.auth.(relayPath := resp.usePath.GetOr([]), authTimer := true));
    EnteringPlain(z, Sessions.AwaitSdp, now, env);
  }

  /** A session after `onWsError()`: back in AWAIT_CONNECT, everything else as it was. */
  function Waiting(s: Sessions.Snapshot, now: int): Sessions.Snapshot
  {
    s.(auth := Sessions.Entered(s.auth, Sessions.AwaitConnect, now))
  }

  /** Telling a waiting session of the error again changes nothing. */
  lemma WaitingTwice(s: Sessions.Snapshot, now: int)
    ensures Waiting(Waiting(s, now), now) == Waiting(s, now)
  {
  }

  /**
   * The local URI of the session `sid` (lines 76-81): secure when the
   * relay's WebSocket URI starts with "wss", the configured authority,
   * port 2855 and the WebSocket transport.
   */
  function LocalUri(config: Cfg.ConnectionConfig, sid: string): Uris.UriFields
  {
    Uris.UriFields(JsString.Substr(config.relayWsUri, 0, 3) == "wss", None, config.authority, Some("2855"), sid, "ws")
  }

  lemma CarriedOne(m: Msg)
    ensures Carried([Sessions.WsSend(m)]) == [m] && Dismissed([Sessions.WsSend(m)]) == {} && Plain([Sessions.WsSend(m)])
  {
    CarriedSnoc([], Sessions.WsSend(m));
  }

  /** `ws.send` calls only carry every message, in order. */
  lemma {:induction false} CarriedSent(ms: seq<Msg>)
    ensures Carried(Sessions.Sent(ms)) == ms
    decreases |ms|
  {
    if ms != [] {
      var fx := Sessions.Sent(ms);
      assert fx[..|fx| - 1] == Sessions.Sent(ms[..|ms| - 1]) by {
        SentPrefix(ms);
      }
      CarriedSent(ms[..|ms| - 1]);
      assert ms == ms[..|ms| - 1] + [ms[|ms| - 1]];
    }
  }

  lemma SentPrefix(ms: seq<Msg>)
    requires ms != []
    ensures Sessions.Sent(ms)[..|ms| - 1] == Sessions.Sent(ms[..|ms| - 1])
  {
  }

  /** Carrying one more call. */
  lemma CarriedSnoc(fx: seq<Sessions.ConEffect>, e: Sessions.ConEffect)
    ensures Carried(fx + [e]) == Carried(fx) + (if e.WsSend? then [e.m] else [])
    ensures Dismissed(fx + [e]) == Dismissed(fx) + (if e.RemoveSession? then {e.id} else {})
  {
    assert (fx + [e])[..|fx|] == fx;
    var d := Dismissed(fx + [e]);
    forall x
      ensures x in d <==> x in Dismissed(fx) + (if e.RemoveSession? then {e.id} else {})
    {
      if x in d {
        var i :| 0 <= i < |fx + [e]| && (fx + [e])[i].RemoveSession? && (fx + [e])[i].id == x;
        if i < |fx| {
          assert fx[i] == (fx + [e])[i];
        }
      }
      if x in Dismissed(fx) {
        var i :| 0 <= i < |fx| && fx[i].RemoveSession? && fx[i].id == x;
        assert (fx + [e])[i] == fx[i];
      }
      if e.RemoveSession? && x == e.id {
        assert (fx + [e])[|fx|] == e;
      }
    }
  }

  // ---------------------------------------------------------------------
  // the sender queue, seen as a scheduler queue

  /** A queued sender's lane: its fields, its session's To-Path and local URI, and its chunk size. */
  function LaneOf(s: CS.ChunkSender): SQ.Lane
    reads s, s.session
  {
    SQ.Lane(s.State(), s.session.toPath, s.session.localUri, s.chunkSize)
  }

  function Members(order: seq<CS.ChunkSender>): set<CS.ChunkSender>
  {
    set k | k in order
  }

  function Endpoints(k0: set<CS.ChunkSender>): set<CS.Endpoint>
  {
    set k | k in k0 :: k.session
  }

  /** The lanes of the senders `k0`. */
  function Lanes(k0: set<CS.ChunkSender>): (m: map<CS.ChunkSender, SQ.Lane>)
    reads k0, Endpoints(k0)
    ensures m.Keys == k0
  {
    map k | k in k0 :: LaneOf(k)
  }

  /** The queue `order`, with the lanes of its senders, as the scheduler sees it before a pass. */
  function QueueOf(order: seq<CS.ChunkSender>, outstanding: int, used: nat): (q: SQ.Queue<CS.ChunkSender>)
    reads Members(order), Endpoints(Members(order))
    ensures SQ.Covered(q) && q.order == order && q.sent == []
  {
    SQ.Queue(order, Lanes(Members(order)), outstanding, [], used)
  }

  /** Every field of a connection but the constants, as a value. */
  datatype Snapshot = Snapshot(
    used: nat,
    ws: bool,
    closing: bool,
    reconnectTimer: bool,
    sessions: map<string, Sessions.Session>,
    activeSenders: seq<CS.ChunkSender>,
    outstandingSends: int,
    wire: seq<Msg>)

  class RelayConnection {
    const config: Cfg.ConnectionConfig
    const ids: nat -> string
    var used: nat
    /** `this.ws` is set. */
    var ws: bool
    /** `ws.disconnect()` has been called. */
    var closing: bool
    /** A reconnection is scheduled. */
    var reconnectTimer: bool
    var sessions: map<string, Sessions.Session>
    var activeSenders: seq<CS.ChunkSender>
    var outstandingSends: int
    /** Every message handed to `ws.send`, in order. */
    var wire: seq<Msg>

    function Snap(): Snapshot
      reads this
    {
      Snapshot(used, ws, closing, reconnectTimer, sessions, activeSenders, outstandingSends, wire)
    }

    /** The local URI of every session, by session id. */
    function LocalUris(): map<string, Uris.UriFields>
      reads this
    {
      map k | k in sessions :: sessions[k].localUri
    }

    /** The scheduler's view of the queue now. */
    function Queued(): SQ.Queue<CS.ChunkSender>
      reads this, Members(activeSenders), Endpoints(Members(activeSenders))
    {
      QueueOf(activeSenders, outstandingSends, used)
    }

    /** `new RelayConnection(relayWsUri, relayMsrpUri, config)`: no socket, no sessions, an empty queue. */
    constructor (config: Cfg.ConnectionConfig, ids: nat -> string)
      ensures this.config == config && this.ids == ids
      ensures Snap() == Snapshot(0, false, false, false, map[], [], 0, [])
    {
      this.config := config;
      this.ids := ids;
      used := 0;
      ws := false;
      closing := false;
      reconnectTimer := false;
      sessions := map[];
      activeSenders := [];
      outstandingSends := 0;
      wire := [];
    }

    /** `connect()` (lines 52-56): a new socket, unless the connection has one. */
    method Connect()
      modifies this
      ensures Snap() == if old(ws) then old(Snap()) else old(Snap()).(ws := true, closing := false)
    {
      if !ws {
        ws := true;
        closing := false;
      }
    }

    /**
     * `createSession(eventObj)` (lines 69-92). `sid` is the session id the
     * `newSID` loop settles on, one no session of the connection has; the
     * new session draws its own ids from `sids`; `connected` says whether
     * the socket is open. Without a socket one is opened; on an open socket
     * the session authenticates at once, sending a bare AUTH to the relay
     * and awaiting the challenge.
     */
    method CreateSession(sid: string, sids: nat -> string, connected: bool, digest: Sessions.Digest, now: int)
      returns (session: Sessions.Session)
      requires sid !in sessions
      modifies this
      ensures fresh(session) && session.sessionId == sid && session.localUri == LocalUri(config, sid)
      ensures session.config == config && session.ids == sids && session.endpoint.toPath == []
      ensures !old(ws) ==>
        && Snap() == old(Snap()).(ws := true, closing := false, sessions := old(sessions)[sid := session])
        && session.Snap() == Sessions.Snapshot(0, None, Sessions.Auth(Sessions.AwaitConnect, false, [], [], false, session.sdpSessId),
                                               [], [], map[], map[], false, [])
      ensures old(ws) && !connected ==> Snap() == old(Snap()).(sessions := old(sessions)[sid := session])
      ensures old(ws) && connected ==>
        && Snap() == old(Snap()).(sessions := old(sessions)[sid := session],
             wire := old(wire) + [Sessions.AuthRequest(config.relayMsrpUri, Uris.Format(LocalUri(config, sid)), sids(0), None, config.authExpires)])
        && session.Snap() == Sessions.Snapshot(1, None, Sessions.Auth(Sessions.AwaitChallenge, false, [], [], false, session.sdpSessId),
                                               [], [], map[], map[], false, [])
    {
      session := new Sessions.Session(sid, LocalUri(config, sid), config, sids, now);
      sessions := sessions[sid := session];
      if !ws {
        Connect();
      } else if connected {
        // Immediately start the authentication process
        ghost var x := session.AuthView([]);
        var fx := session.OnWsConnect(digest, now);
        Sessions.FirstAuth(x, digest, now, session.Context());
        assert fx == [Sessions.WsSend(Sessions.AuthRequest(config.relayMsrpUri, session.endpoint.localUri, sids(0), None, config.authExpires))];
        CarriedOne(Sessions.AuthRequest(config.relayMsrpUri, session.endpoint.localUri, sids(0), None, config.authExpires));
        Carry(fx);
      }
    }

    /**
     * Lines 135-152: the socket failed. A reconnection is scheduled when
     * the connection had a socket and sessions; the socket and the count of
     * outstanding SENDs are dropped, and every session returns to
     * AWAIT_CONNECT.
     */
    method OnWsError(now: int)
      modifies this, sessions.Values
      ensures Snap() == old(Snap()).(ws := false, outstandingSends := 0,
                                     reconnectTimer := old(reconnectTimer) || (old(ws) && old(sessions) != map[]))
      ensures forall k :: k in sessions ==> sessions[k].Snap() == Waiting(old(sessions[k].Snap()), now)
    {
      if ws && sessions != map[] {
        // If there are sessions present, start a timer to reconnect
        reconnectTimer := true;
      }
      ws := false;
      outstandingSends := 0;
      WaitAll(sessions, now);
    }

    /** Lines 154-159: the socket closed on request; it and the count of outstanding SENDs are dropped. */
    method OnWsDisconnect()
      modifies this
      ensures Snap() == old(Snap()).(ws := false, outstandingSends := 0)
    {
      ws := false;
      outstandingSends := 0;
    }

    /** Lines 161-169: the session is forgotten; the last one to go disconnects the socket. */
    method RemoveSession(id: string)
      modifies this
      ensures Snap() == old(Snap()).(sessions := old(sessions) - {id},
                                     closing := old(closing) || (ws && old(sessions) - {id} == map[]))
    {
      sessions := sessions - {id};
      if sessions == map[] {
        // No more sessions; close the connection
        if ws {
          closing := true;
        }
      }
    }

    /**
     * `sendResponse(req, con, uri, status)` (lines 225-237): the response
     * goes on the wire only when the request wants it; a request without
     * `responseOn` makes it throw.
     */
    method SendResponse(req: Msg, uri: string, status: int) returns (r: Outcome<()>)
      requires req.kind.Request?
      modifies this
      ensures var rep := Replies.Reply(req, uri, status);
        && (rep.Threw? ==> r == Threw(rep.reason) && Snap() == old(Snap()))
        && (rep.Returned? ==>
              r == Returned(())
              && Snap() == old(Snap()).(wire := old(wire) + if rep.value.Some? then [rep.value.value] else []))
    {
      var rep := Replies.Reply(req, uri, status);
      if rep.Threw? {
        return Threw(rep.reason);
      }
      if rep.value.Some? {
        wire := wire + [rep.value.value];
      }
      return Returned(());
    }

    /**
     * The connection calls `fx` of a session, none of which adds a sender,
     * carried out in order: messages go on the wire and removed sessions
     * are forgotten.
     */
    method Carry(fx: seq<Sessions.ConEffect>)
      requires Plain(fx)
      modifies this
      ensures Carrying(old(Snap()), fx)
    {
      ghost var s0 := Snap();
      var i := 0;
      while i < |fx|
        invariant 0 <= i <= |fx|
        invariant Carrying(s0, fx[..i])
      {
        CarryOne(s0, fx[..i], fx[i]);
        assert fx[..i + 1] == fx[..i] + [fx[i]];
        i := i + 1;
      }
      assert fx[..|fx|] == fx;
    }

    /**
     * From the state `s0`, the calls `fx` have been carried out: messages
     * went on the wire, removed sessions are forgotten, and the socket is
     * being closed if a removal left no session.
     */
    ghost predicate Carrying(s0: Snapshot, fx: seq<Sessions.ConEffect>)
      reads this
    {
      Snap() == s0.(sessions := s0.sessions - Dismissed(fx), wire := s0.wire + Carried(fx),
                    closing := s0.closing || (s0.ws && Dismissed(fx) != {} && s0.sessions - Dismissed(fx) == map[]))
    }

    /** One more call carried out. */
    method CarryOne(ghost s0: Snapshot, ghost done: seq<Sessions.ConEffect>, e: Sessions.ConEffect)
      requires !e.AddSender? && Carrying(s0, done)
      modifies this
      ensures Carrying(s0, done + [e])
    {
      CarriedSnoc(done, e);
      if e.WsSend? {
        wire := wire + [e.m];
      } else {
        RemoveSession(e.id);
        Minus(s0.sessions, Dismissed(done), e.id);
      }
    }

    /** What a request routed to a session may change: the session, and the receiver or sender it names. */
    function Affected(req: Msg): set<object>
      requires req.kind.Request?
      reads this, sessions.Values
    {
      match Routed(req, LocalUris())
      case Returned(Deliver(id)) => {sessions[id]} + sessions[id].Touched(req) + sessions[id].Reporting(req)
      case _ => {}
    }

    /**
     * `onMsrpRequest(req)` (lines 171-206), with the application's verdicts
     * `app` at the clock reading `now`. The request is routed as `Routed`
     * says: an exception from `new Uri` escapes; a request the connection
     * answers gets its response through `sendResponse`, from the first URI
     * of its To-Path; a SEND is handed to its session, whose calls `fx` the
     * connection carries out, and a REPORT to its session; nothing else
     * changes.
     */
    method OnMsrpRequest(req: Msg, app: Notify.Event -> Notify.Verdict, now: int) returns (r: Outcome<()>, fx: seq<Sessions.ConEffect>)
      requires Incoming(req)
      modifies this, Affected(req)
      ensures var route := old(Routed(req, LocalUris()));
        && (route.Threw? ==> r == Threw(route.reason) && Snap() == old(Snap()))
        && (route.Returned? && route.value.Answer? ==>
              var rep := Replies.Reply(req, FirstHop(req), route.value.status);
              && r == (if rep.Threw? then Threw(rep.reason) else Returned(()))
              && Snap() == old(Snap()).(wire := old(wire) + if rep.Returned? && rep.value.Some? then [rep.value.value] else []))
        && (route.Returned? && route.value.Deliver? ==> r == Returned(()))
        && (route.Returned? && route.value.Deliver? && req.kind.verb == "REPORT" ==> Snap() == old(Snap()))
        && (route.Returned? && route.value.Deliver? && req.kind.verb == "SEND" ==> Plain(fx) && Carrying(old(Snap()), fx))
    {
      fx := [];
      var route := Routed(req, LocalUris());
      match route
      case Threw(e) =>
        r := Threw(e);
      case Returned(Answer(status)) =>
        r := SendResponse(req, FirstHop(req), status);
      case Returned(Deliver(id)) =>
        fx := Dispatch(req, sessions[id], app, now);
        r := Returned(());
    }

    /** Lines 194-200: a SEND or REPORT goes to its session; the calls a SEND makes are carried out. */
    method Dispatch(req: Msg, session: Sessions.Session, app: Notify.Event -> Notify.Verdict, now: int)
      returns (fx: seq<Sessions.ConEffect>)
      requires Incoming(req) && (req.kind.verb == "SEND" || req.kind.verb == "REPORT")
      modifies this, session, session.Touched(req), session.Reporting(req)
      ensures req.kind.verb == "REPORT" ==> fx == [] && Snap() == old(Snap())
      ensures req.kind.verb == "SEND" ==> Plain(fx) && Carrying(old(Snap()), fx)
    {
      fx := [];
      if req.kind.verb == "SEND" {
        fx := SendTo(req, session, app, now);
      } else {
        session.OnIncomingReport(req);
      }
    }

    /** Line 196: the session handles the SEND; the connection carries out its calls. */
    method SendTo(req: Msg, session: Sessions.Session, app: Notify.Event -> Notify.Verdict, now: int)
      returns (fx: seq<Sessions.ConEffect>)
      requires req.kind == Request("SEND") && req.responseOn.Some?
      modifies this, session, session.Touched(req)
      ensures Plain(fx) && Carrying(old(Snap()), fx)
    {
      fx := session.OnIncomingSend(req, app, now);
      SentPlain(fx);
      Carry(fx);
    }

    /**
     * `onMsrpResponse(res)` (lines 213-223) for a response to `request`,
     * sent by the session `owner`; `sender` is the chunk sender a SEND was
     * cut by. A response to a SEND, and only to a SEND, frees a place:
     * `outstandingSends` drops by one. The session then handles the
     * response, the connection carries out the calls `fx` it makes, and a
     * scheduling pass runs on the queue `q` the session left.
     */
    method OnMsrpResponse(res: Msg, request: Msg, owner: Sessions.Session, sender: Option<CS.ChunkSender>,
                          digest: Sessions.Digest, now: int)
      returns (fx: seq<Sessions.ConEffect>, ghost q: SQ.Queue<CS.ChunkSender>)
      requires request.kind == Request("AUTH") || sender.Some?
      modifies this, owner, owner.config, (if sender.Some? then {sender.value} else {}), Members(activeSenders)
      ensures q.order == old(activeSenders) && q.used == old(used) && q.sent == [] && SQ.Covered(q)
      ensures q.outstanding == old(outstandingSends) - if request.kind == Request("SEND") then 1 else 0
      ensures forall k :: k in q.order && sender != Some(k) ==> q.lanes[k] == old(LaneOf(k))
      ensures request.kind != Request("AUTH") ==> fx == []
      ensures request.kind == Request("AUTH") ==>
                owner.AuthView(fx) == Sessions.AuthAnswered(old(owner.AuthView([])), res, digest, now, owner.Context())
      ensures var r := SQ.SendPass(q, config.maxOutstandingSends, ids);
        && Plain(fx)
        && Snap() == old(Snap()).(used := r.used, activeSenders := r.order, outstandingSends := r.outstanding,
             sessions := old(sessions) - Dismissed(fx), wire := old(wire) + Carried(fx) + SQ.Wire(r.sent),
             closing := old(closing) || (ws && Dismissed(fx) != {} && old(sessions) - Dismissed(fx) == map[]))
    {
      fx := Handled(res, request, owner, sender, digest, now);
      q := Queued();
      forall k | k in q.order && sender != Some(k)
        ensures q.lanes[k] == old(LaneOf(k))
      {
        assert k in Members(activeSenders);
      }
      // Then send out any pending requests
      SendRequests();
    }

    /** Lines 214-219: the count of outstanding SENDs, then the session's handling of the response. */
    method Handled(res: Msg, request: Msg, owner: Sessions.Session, sender: Option<CS.ChunkSender>,
                   digest: Sessions.Digest, now: int) returns (fx: seq<Sessions.ConEffect>)
      requires request.kind == Request("AUTH") || sender.Some?
      modifies this, owner, owner.config, if sender.Some? then {sender.value} else {}
      ensures request.kind != Request("AUTH") ==> fx == []
      ensures request.kind == Request("AUTH") ==>
                owner.AuthView(fx) == Sessions.AuthAnswered(old(owner.AuthView([])), res, digest, now, owner.Context())
      ensures Plain(fx)
      ensures forall k :: k in old(activeSenders) && sender != Some(k) ==> LaneOf(k) == old(LaneOf(k))
      ensures Carrying(old(Snap()).(outstandingSends := old(outstandingSends) - if request.kind == Request("SEND") then 1 else 0), fx)
    {
      if request.kind == Request("SEND") {
        outstandingSends := outstandingSends - 1;
      }
      // Let the sending session handle the response
      ghost var x := owner.AuthView([]);
      fx := owner.OnIncomingResponse(res, request, sender, digest, now);
      if request.kind == Request("AUTH") {
        AnsweredPlain(x, res, digest, now, owner.Context());
      }
      Carry(fx);
    }

    /**
     * `addSender(sender)` (lines 208-211): the sender joins the tail of the
     * queue and a scheduling pass runs.
     */
    method AddSender(sender: CS.ChunkSender)
      modifies this, Members(activeSenders) + {sender}
      ensures var r := SQ.SendPass(old(QueueOf(activeSenders + [sender], outstandingSends, used)), config.maxOutstandingSends, ids);
        && Snap() == old(Snap()).(used := r.used, activeSenders := r.order, outstandingSends := r.outstanding,
             wire := old(wire) + SQ.Wire(r.sent))
        && forall k :: k in old(activeSenders) + [sender] ==> LaneOf(k) == r.lanes[k]
    {
      ghost var q := QueueOf(activeSenders + [sender], outstandingSends, used);
      activeSenders := activeSenders + [sender];
      assert Members(activeSenders) == old(Members(activeSenders)) + {sender};
      assert Queued() == q;
      SendRequests();
    }

    // -------------------------------------------------------------------
    // sendRequests

    /** The scheduler's queue made of the fields, the lanes `lanes` and the chunks `cuts` cut so far. */
    function Current(lanes: map<CS.ChunkSender, SQ.Lane>, cuts: seq<SQ.Cut>): SQ.Queue<CS.ChunkSender>
      reads this
    {
      SQ.Queue(activeSenders, lanes, outstandingSends, cuts, used)
    }

    /**
     * The loop of `sendRequests` has `budget` turns left: the queue holds
     * senders of `k0` only, whose lanes are `lanes`; finishing the pass from
     * here ends in `goal`; the wire holds what it held before the pass
     * (`s0`) and the chunks cut, and no other field has changed.
     */
    ghost predicate Scheduling(k0: set<CS.ChunkSender>, lanes: map<CS.ChunkSender, SQ.Lane>, cuts: seq<SQ.Cut>,
                               goal: SQ.Queue<CS.ChunkSender>, budget: nat, s0: Snapshot)
      reads this, k0, Endpoints(k0)
    {
      && Members(activeSenders) <= k0 && lanes.Keys == k0 && Lanes(k0) == lanes
      && SQ.Covered(Current(lanes, cuts))
      && SQ.Pass(Current(lanes, cuts), config.maxOutstandingSends, ids, budget) == goal
      && Snap() == s0.(used := used, activeSenders := activeSenders, outstandingSends := outstandingSends,
                       wire := s0.wire + SQ.Wire(cuts))
    }

    /**
     * `sendRequests(con)` (lines 239-267): one pass of the scheduler. The
     * queue, the outstanding count, the transaction ids and the wire end as
     * `SendQueue.SendPass` says, and every sender queued before the pass
     * ends in the state its lane says.
     */
    method SendRequests()
      modifies this, Members(activeSenders)
      ensures var r := SQ.SendPass(old(Queued()), config.maxOutstandingSends, ids);
        && Snap() == old(Snap()).(used := r.used, activeSenders := r.order, outstandingSends := r.outstanding,
             wire := old(wire) + SQ.Wire(r.sent))
        && forall k :: k in old(activeSenders) ==> LaneOf(k) == r.lanes[k]
    {
      ghost var k0 := Members(activeSenders);
      ghost var lanes := Lanes(k0);
      ghost var cuts: seq<SQ.Cut> := [];
      ghost var goal := SQ.SendPass(Current(lanes, cuts), config.maxOutstandingSends, ids);
      ghost var s0 := Snap();
      var sent := 0;
      ghost var left: nat := 2;
      while activeSenders != [] && outstandingSends < config.maxOutstandingSends && sent < 2
        invariant sent + left == 2
        invariant Scheduling(k0, lanes, cuts, goal, left, s0)
        decreases left
      {
        lanes, cuts := Turn(k0, lanes, cuts, goal, left, s0);
        sent := sent + 1;
        left := left - 1;
      }
    }

    /** One turn of the loop, seen through `Scheduling`: a pass that had `budget` turns left has one fewer. */
    method Turn(ghost k0: set<CS.ChunkSender>, ghost lanes: map<CS.ChunkSender, SQ.Lane>, ghost cuts: seq<SQ.Cut>,
                ghost goal: SQ.Queue<CS.ChunkSender>, ghost budget: nat, ghost s0: Snapshot)
      returns (ghost lanes': map<CS.ChunkSender, SQ.Lane>, ghost next: seq<SQ.Cut>)
      requires activeSenders != [] && outstandingSends < config.maxOutstandingSends && budget > 0
      requires Scheduling(k0, lanes, cuts, goal, budget, s0)
      modifies this, activeSenders[0]
      ensures Scheduling(k0, lanes', next, goal, budget - 1, s0)
    {
      ghost var q := Current(lanes, cuts);
      ghost var r := SQ.Step(q, ids);
      ghost var c := SQ.Cut(q.lanes[q.order[0]], ids(q.used));
      SQ.StepShape(q, ids);
      Serve(k0, q);
      lanes', next := r.lanes, r.sent;
      assert activeSenders == r.order && outstandingSends == r.outstanding && used == r.used;
      assert r == Current(lanes', next);
      Turned(q, r, goal, budget, config.maxOutstandingSends, ids);
      SQ.WireGrown(s0.wire, cuts, c, wire);
    }

    /**
     * One turn of the loop (lines 248-266) on the queue `q` the fields
     * make: the head cuts a chunk, which goes on the wire, and the queue,
     * the count, the transaction ids and the lanes become the scheduler's
     * step.
     */
    method Serve(ghost k0: set<CS.ChunkSender>, ghost q: SQ.Queue<CS.ChunkSender>)
      requires activeSenders != [] && Members(activeSenders) <= k0 && Lanes(k0) == q.lanes
      requires q.order == activeSenders && q.outstanding == outstandingSends && q.used == used
      modifies this, activeSenders[0]
      ensures activeSenders == SQ.Step(q, ids).order && Members(activeSenders) <= k0
      ensures outstandingSends == old(outstandingSends) + 1 && used == old(used) + 1
      ensures wire == old(wire) + [SQ.HeadChunk(q.lanes[q.order[0]], ids(q.used))]
      ensures ws == old(ws) && closing == old(closing) && reconnectTimer == old(reconnectTimer)
      ensures sessions == old(sessions)
      ensures Lanes(k0) == SQ.Step(q, ids).lanes
    {
      var sender := activeSenders[0];
      ghost var l := q.lanes[sender];
      var tid := ids(used);
      var dropped := sender.aborted && sender.remoteAbort;
      assert dropped == (l.sender.aborted && l.sender.remoteAbort) by {
        assert sender in k0 && LaneOf(sender) == l;
      }
      // Don't send any more chunks of a sender the far end aborted; remove it from the list
      ShiftIf(dropped, k0);
      var msg, complete;
      ghost var t;
      msg, complete, t := Cut(sender, tid, k0, q.lanes);
      Sent(msg, k0);
      Settle(complete, k0);
      StepIs(q, ids, sender, l, t, dropped, complete);
    }

    /** `con.activeSenders.shift()` when `dropped`, which leaves an empty queue empty. */
    method ShiftIf(dropped: bool, ghost k0: set<CS.ChunkSender>)
      modifies this
      ensures Lanes(k0) == old(Lanes(k0))
      ensures Snap() == old(Snap()).(activeSenders := SQ.Unqueued(old(activeSenders), dropped))
    {
      if dropped && activeSenders != [] {
        activeSenders := activeSenders[1..];
      }
    }

    /**
     * Lines 260-266: a send-complete head is shifted off the queue; an
     * unfinished one moves to the end of the queue when others wait, for
     * fairness.
     */
    method Settle(complete: bool, ghost k0: set<CS.ChunkSender>)
      modifies this
      ensures Lanes(k0) == old(Lanes(k0))
      ensures Snap() == old(Snap()).(activeSenders := SQ.Requeued(old(activeSenders), complete))
    {
      if complete {
        if activeSenders != [] {
          activeSenders := activeSenders[1..];
        }
      } else if |activeSenders| > 1 {
        activeSenders := activeSenders[1..] + [activeSenders[0]];
      }
    }

    /** `con.ws.send(msg)`, `con.outstandingSends++`, and a transaction id used. */
    method Sent(msg: Msg, ghost k0: set<CS.ChunkSender>)
      modifies this
      ensures Lanes(k0) == old(Lanes(k0))
      ensures Snap() == old(Snap()).(used := old(used) + 1, outstandingSends := old(outstandingSends) + 1,
                                     wire := old(wire) + [msg])
    {
      wire := wire + [msg];
      outstandingSends := outstandingSends + 1;
      used := used + 1;
    }

    /** The queue a turn leaves, field by field, is the scheduler's step. */
    static lemma StepIs(q: SQ.Queue<CS.ChunkSender>, ids: nat -> string, h: CS.ChunkSender, l: SQ.Lane, t: CS.Sender,
                        dropped: bool, complete: bool)
      requires q.order != [] && SQ.Covered(q) && q.order[0] == h && q.lanes[h] == l
      requires t == CS.Advanced(l.sender, l.chunkSize) && complete == CS.SendComplete(t)
      requires dropped == (l.sender.aborted && l.sender.remoteAbort)
      ensures var r := SQ.Step(q, ids);
        && r.order == SQ.Requeued(SQ.Unqueued(q.order, dropped), complete)
        && r.lanes == q.lanes[h := l.(sender := t)]
        && r.outstanding == q.outstanding + 1 && r.used == q.used + 1
    {
    }

    /** The same turn on the scheduler's queue: a pass that had `budget` turns left now has one fewer. */
    static lemma Turned(q: SQ.Queue<CS.ChunkSender>, r: SQ.Queue<CS.ChunkSender>, goal: SQ.Queue<CS.ChunkSender>,
                        budget: nat, max: int, ids: nat -> string)
      requires q.order != [] && q.outstanding < max && budget > 0 && SQ.Covered(q)
      requires SQ.Pass(q, max, ids, budget) == goal
      requires r == SQ.Step(q, ids)
      ensures SQ.Covered(r) && SQ.Pass(r, max, ids, budget - 1) == goal
    {
    }
  }

  /** Lines 149-151: every session of `m` is told of the error, in any order. */
  method WaitAll(m: map<string, Sessions.Session>, now: int)
    modifies m.Values
    ensures forall k :: k in m ==> m[k].Snap() == Waiting(old(m[k].Snap()), now)
  {
    ghost var s0 := map k | k in m :: m[k].Snap();
    var keys := m.Keys;
    ghost var done: set<string> := {};
    while keys != {}
      invariant keys + done == m.Keys && keys !! done
      invariant Told(m, s0, done, now)
      decreases |keys|
    {
      var k :| k in keys;
      Tell(m, s0, done, k, now);
      Moved(keys, done, k);
      keys := keys - {k};
      done := done + {k};
    }
  }

  /**
   * Every session of `m` is as it was (`s0`) or waiting, and those filed
   * under `done` have been told of the error.
   */
  ghost predicate Told(m: map<string, Sessions.Session>, s0: map<string, Sessions.Snapshot>, done: set<string>, now: int)
    reads m.Values
  {
    && m.Keys == s0.Keys && done <= m.Keys
    && (forall k :: k in m ==> m[k].Snap() == s0[k] || m[k].Snap() == Waiting(s0[k], now))
    && (forall k :: k in done ==> m[k].Snap() == Waiting(s0[k], now))
  }

  /** The session filed under `k` is told of the error; a session filed twice is told twice, to no further effect. */
  method Tell(m: map<string, Sessions.Session>, ghost s0: map<string, Sessions.Snapshot>, ghost done: set<string>,
              k: string, now: int)
    requires k in m && Told(m, s0, done, now)
    modifies m[k]
    ensures Told(m, s0, done + {k}, now)
  {
    var session := m[k];
    var _ := session.OnWsError(now);
    forall j | j in m && m[j] == session
      ensures m[j].Snap() == Waiting(s0[j], now)
    {
      WaitingTwice(s0[j], now);
    }
  }

  /** A key moves from those left to those done. */
  lemma Moved(keys: set<string>, done: set<string>, k: string)
    requires k in keys && keys !! done
    ensures (keys - {k}) + (done + {k}) == keys + done && (keys - {k}) !! (done + {k})
    ensures |keys - {k}| < |keys|
  {
  }

  /**
   * `sender.getNextChunk()` with the transaction id `tid`, then
   * `sender.isSendComplete()`, for a sender of `k0` whose lanes are
   * `lanes`: the chunk of its lane, and its lane moves on to `t` while
   * every other stays.
   */
  method Cut(sender: CS.ChunkSender, tid: string, ghost k0: set<CS.ChunkSender>, ghost lanes: map<CS.ChunkSender, SQ.Lane>)
    returns (msg: Msg, complete: bool, ghost t: CS.Sender)
    requires sender in k0 && Lanes(k0) == lanes
    modifies sender
    ensures msg == SQ.HeadChunk(lanes[sender], tid)
    ensures t == CS.Advanced(lanes[sender].sender, lanes[sender].chunkSize) && complete == CS.SendComplete(t)
    ensures Lanes(k0) == lanes[sender := lanes[sender].(sender := t)]
  {
    msg := sender.GetNextChunk(tid);
    complete := sender.IsSendComplete();
    t := sender.State();
    LanesMoved(k0, sender, lanes);
  }

  /** After one sender's turn, the lanes differ from `before` in that sender's only. */
  lemma LanesMoved(k0: set<CS.ChunkSender>, h: CS.ChunkSender, before: map<CS.ChunkSender, SQ.Lane>)
    requires before.Keys == k0 && h in k0
    requires forall k :: k in k0 && k != h ==> LaneOf(k) == before[k]
    ensures Lanes(k0) == before[h := LaneOf(h)]
  {
  }
}
