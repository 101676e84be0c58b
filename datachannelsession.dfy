/**
 * An MSRP session over a WebRTC data channel (src/DataChannelSession.js):
 * the session's own state machine (INIT, AWAIT_SDP, AWAIT_OPEN,
 * AWAIT_MSG, ESTABLISHED, CLOSED), driven by the far end's SDP, the
 * channel opening and closing, and the first message; its round-robin
 * send queue; and its handling of incoming requests and responses.
 *
 * The messages handed to the data channel are logged in `wire`, the
 * `removeSession` calls on the owning connection in `removals`.
 *
 * `CrocMSRP.util.fireEvent`, which every application notification here
 * goes through, is not defined in src/util.js: each such call throws a
 * TypeError before any callback runs. The model keeps that behaviour:
 * inside `handleSend` the exception is caught and answered 500, elsewhere
 * it propagates to the caller as `Threw`.
 */
module Channels {
  import opened Wrappers
  import opened Message
  import JsString
  import Status
  import Notify
  import Replies
  import Delivery
  import Uris
  import Relay
  import Sessions
  import SQ = SendQueue
  import Cfg = ConnectionConfigs
  import CS = ChunkSending
  import CR = ChunkReceiving

  /** Lines 12-19: the states of a data channel session. */
  datatype State = Init | AwaitSdp | AwaitOpen | AwaitMsg | Established | Closed

  /** The exception every call of the undefined `CrocMSRP.util.fireEvent` throws. */
  const NoFireEvent: string := "TypeError: CrocMSRP.util.fireEvent is not a function"

  /** Reading `request.byteRange.end` on a request without a Byte-Range. */
  const Unranged: string := "TypeError: request.byteRange is undefined"

  /**
   * How a notification fares: the call throws, and not UnsupportedMedia,
   * whatever the event.
   */
  function Missing(e: Notify.Event): Notify.Verdict
  {
    Notify.Fail
  }

  // ---------------------------------------------------------------------
  // the state machine, on values

  /**
   * What the state machine depends on: the state, whether a To-Path is
   * known (the far end's SDP was taken), and whether this is the active
   * endpoint, which sends the first message.
   */
  datatype Phase = Phase(state: State, described: bool, active: bool)

  /** The events that move the state machine; `FirstMessage` is a SEND handled with a 200. */
  datatype Input = Described(kind: string, attributes: map<string, seq<string>>) | ChannelOpen | ChannelClose | FirstMessage

  /** Line 289: the SDP attributes a session cannot do without. */
  predicate Complete(attributes: map<string, seq<string>>)
  {
    "path" in attributes && "accept-types" in attributes
  }

  /** Every attribute listed has a value, as a parsed SDP attribute has. */
  predicate Valued(attributes: map<string, seq<string>>)
  {
    forall a :: a in attributes ==> attributes[a] != []
  }

  /**
   * Lines 306-314: the session becomes the active endpoint when the SDP
   * has no `setup` attribute and is an answer, or when its setup is
   * 'passive'; once active it stays active.
   */
  function Activated(active: bool, kind: string, attributes: map<string, seq<string>>): bool
    requires Valued(attributes)
  {
    if "setup" !in attributes then active || kind == "answer"
    else active || attributes["setup"][0] == "passive"
  }

  /** Lines 316-329: the state the SDP leads to, from AWAIT_SDP or from INIT. */
  function SdpTarget(st: State, active: bool): State
  {
    if st == AwaitSdp then (if active then Established else AwaitMsg) else AwaitOpen
  }

  /** Lines 395-409: the state an opening channel leads to. */
  function OpenTarget(described: bool, active: bool): State
  {
    if !described then AwaitSdp else if active then Established else AwaitMsg
  }

  /** `sdpUpdate(type, attributes)` (lines 288-331) on the state machine. */
  function OnSdp(p: Phase, kind: string, attributes: map<string, seq<string>>): Phase
    requires Valued(attributes)
  {
    if !Complete(attributes) then p.(state := Closed)
    else if p.state != Init && p.state != AwaitSdp then p
    else
      var a := Activated(p.active, kind, attributes);
      Phase(SdpTarget(p.state, a), true, a)
  }

  /** `onDcOpen()` (lines 395-409) on the state machine; it looks at no state. */
  function OnOpen(p: Phase): Phase
  {
    p.(state := OpenTarget(p.described, p.active))
  }

  /** `onDcClose()` (lines 411-416) on the state machine. */
  function OnClose(p: Phase): Phase
  {
    p.(state := Closed)
  }

  /** Lines 536-538: a SEND handled with a 200 while awaiting the first message establishes the session. */
  function OnMessage(p: Phase): Phase
  {
    if p.state == AwaitMsg then p.(state := Established) else p
  }

  function Apply(p: Phase, x: Input): Phase
  {
    match x
    case Described(kind, attributes) => if Valued(attributes) then OnSdp(p, kind, attributes) else p
    case ChannelOpen => OnOpen(p)
    case ChannelClose => OnClose(p)
    case FirstMessage => OnMessage(p)
  }

  /** The phase after the events `xs`, in order, starting from `p`. */
  function Run(p: Phase, xs: seq<Input>): Phase
  {
    if xs == [] then p else Apply(Run(p, xs[..|xs| - 1]), xs[|xs| - 1])
  }

  /** A new session: INIT, no To-Path, passive. */
  const Start := Phase(Init, false, false)

  /** The far end's SDP was taken somewhere in `xs`. */
  predicate SdpTaken(xs: seq<Input>)
  {
    exists i :: 0 <= i < |xs| && xs[i].Described? && Valued(xs[i].attributes) && Complete(xs[i].attributes)
  }

  /** The channel opened somewhere in `xs`. */
  predicate Opened(xs: seq<Input>)
  {
    exists i :: 0 <= i < |xs| && xs[i] == ChannelOpen
  }

  /**
   * Whatever the order of events, a session is established (or awaits its
   * first message) only once both the SDP exchange and the channel are
   * done: ESTABLISHED and AWAIT_MSG need a To-Path, which only the far
   * end's SDP gives, and an open channel.
   */
  lemma {:induction false} EstablishedNeedsBoth(xs: seq<Input>)
    ensures var p := Run(Start, xs);
      p.state == Established || p.state == AwaitMsg ==> SdpTaken(xs) && Opened(xs)
  {
    Reached(xs);
  }

  /** The invariant behind `EstablishedNeedsBoth`, by induction on the events. */
  lemma {:induction false} Reached(xs: seq<Input>)
    ensures var p := Run(Start, xs);
      && (p.described ==> SdpTaken(xs))
      && (p.state in {AwaitSdp, AwaitMsg, Established} ==> Opened(xs))
      && (p.state in {AwaitMsg, Established} ==> p.described)
  {
    if xs != [] {
      var ys := xs[..|xs| - 1];
      var x := xs[|xs| - 1];
      Reached(ys);
      assert forall i :: 0 <= i < |ys| ==> xs[i] == ys[i];
      var p := Run(Start, ys);
      if p.described {
        var i :| 0 <= i < |ys| && ys[i].Described? && Valued(ys[i].attributes) && Complete(ys[i].attributes);
        assert xs[i] == ys[i];
      }
      if p.state in {AwaitSdp, AwaitMsg, Established} {
        var i :| 0 <= i < |ys| && ys[i] == ChannelOpen;
        assert xs[i] == ys[i];
      }
      match x
      case Described(kind, attributes) =>
        assert xs[|xs| - 1] == x;
      case ChannelOpen =>
        assert xs[|xs| - 1] == x;
      case ChannelClose =>
      case FirstMessage =>
    }
  }

  /**
   * The SDP makes the session active exactly as lines 306-314 say,
   * starting from a passive session: without a `setup` attribute when it
   * is an answer, and otherwise when its setup is 'passive'.
   */
  lemma ActiveWhen(kind: string, attributes: map<string, seq<string>>)
    requires Valued(attributes)
    ensures Activated(false, kind, attributes) <==>
      ("setup" !in attributes && kind == "answer") || ("setup" in attributes && attributes["setup"][0] == "passive")
    ensures Activated(true, kind, attributes)
  {
  }

  /**
   * The SDP is taken once: outside INIT and AWAIT_SDP a complete SDP
   * changes nothing, and an incomplete one closes the session whatever
   * its state.
   */
  lemma SdpOnce(p: Phase, kind: string, attributes: map<string, seq<string>>)
    requires Valued(attributes)
    ensures !Complete(attributes) ==> OnSdp(p, kind, attributes) == p.(state := Closed)
    ensures Complete(attributes) && p.state != Init && p.state != AwaitSdp ==> OnSdp(p, kind, attributes) == p
    ensures Complete(attributes) && (p.state == Init || p.state == AwaitSdp) ==>
      var q := OnSdp(p, kind, attributes);
      q.described && (q.state == Established <==> p.state == AwaitSdp && q.active)
      && (q.state == AwaitOpen <==> p.state == Init)
  {
  }

  // ---------------------------------------------------------------------
  // sending

  /**
   * Lines 101-111: the content type `send` gives the sender: none for a
   * false body (none at all, or the empty string), otherwise the one given
   * or a default by the body's kind.
   */
  function ChannelType(body: CS.Content, contentType: Option<string>): (t: Option<string>)
  {
    match body
    case NoContent => None
    case StringContent(t) => if t == "" then None else Some(CS.Or(contentType, "text/plain"))
    case BlobContent(_, b) => Some(CS.Or(contentType, CS.Or(Some(b), "application/octet-stream")))
    case FileContent(_, b, _) => Some(CS.Or(contentType, CS.Or(Some(b), "application/octet-stream")))
    case BufferContent(_) => Some(CS.Or(contentType, "application/octet-stream"))
  }

  /**
   * A body that is not false always has a type, the given one when truthy.
   * Both kinds of session type a body alike, with two exceptions: the empty
   * string, which the data channel leaves untyped and the relay session
   * types 'text/plain' (or the type given), and an ArrayBuffer, which the
   * data channel types 'application/octet-stream' and the relay session
   * leaves untyped.
   */
  lemma ChannelTyped(body: CS.Content, contentType: Option<string>)
    ensures ChannelType(body, contentType).None? <==> body.NoContent? || body == CS.StringContent("")
    ensures !body.NoContent? && body != CS.StringContent("") && CS.Truthy(contentType) ==>
      ChannelType(body, contentType) == contentType
    ensures !body.BufferContent? && body != CS.StringContent("") ==>
      ChannelType(body, contentType) == Sessions.SendType(body, contentType)
    ensures body == CS.StringContent("") ==>
      ChannelType(body, contentType).None? && Sessions.SendType(body, contentType) == Some(CS.Or(contentType, "text/plain"))
    ensures body.BufferContent? ==>
      Sessions.SendType(body, contentType).None? && ChannelType(body, contentType) == Some(CS.Or(contentType, "application/octet-stream"))
  {
  }

  /** A pass that ended in the scheduler's queue `r`: the queue, the count, the ids used and the wire. */
  function Passed(s: Snapshot, r: SQ.Queue<CS.ChunkSender>): Snapshot
  {
    s.(used := r.used, activeSenders := r.order, outstandingSends := r.outstanding, wire := s.wire + SQ.Wire(r.sent))
  }

  /**
   * Lines 640-676: the fields after `changeState(session, st)` sets the
   * state; entering CLOSED asks the connection to remove the session and
   * lets go of the channel.
   */
  function Entered(s: Snapshot, st: State, streamId: int): Snapshot
  {
    if st == Closed then s.(state := st, removals := s.removals + [streamId], channel := false)
    else s.(state := st)
  }

  /** Lines 115-119: the sender `sender` is filed under `mid`, an id is used, and the queue is `order`. */
  function Filed(s: Snapshot, mid: string, sender: CS.ChunkSender, order: seq<CS.ChunkSender>): Snapshot
  {
    s.(used := s.used + 1, senders := s.senders[mid := sender], activeSenders := order)
  }

  /** Senders whose lanes are as in `before` have the lanes `before`. */
  lemma LanesStill(k0: set<CS.ChunkSender>, before: map<CS.ChunkSender, SQ.Lane>)
    requires before.Keys == k0 && forall k :: k in k0 ==> Relay.LaneOf(k) == before[k]
    ensures Relay.Lanes(k0) == before
  {
  }

  /** The senders `ks` are in the lanes `lanes`. */
  ghost predicate Kept(ks: seq<CS.ChunkSender>, lanes: map<CS.ChunkSender, SQ.Lane>)
    reads Relay.Members(ks), Relay.Endpoints(Relay.Members(ks))
  {
    forall k :: k in ks ==> k in lanes && Relay.LaneOf(k) == lanes[k]
  }

  /** Every field of a data channel session but the constants, as a value; `toPath` is its endpoint's. */
  datatype Snapshot = Snapshot(
    used: nat,
    channel: bool,
    active: bool,
    toPath: seq<string>,
    acceptTypes: seq<string>,
    acceptWrappedTypes: seq<string>,
    receivers: map<string, CR.ChunkReceiver>,
    receiverCheck: bool,
    senders: map<string, CS.ChunkSender>,
    activeSenders: seq<CS.ChunkSender>,
    outstandingSends: int,
    state: State,
    wire: seq<Msg>,
    removals: seq<int>)

  /** The fields of a data channel session a pass of the send queue does not touch. */
  datatype Stilled = Stilled(
    channel: bool,
    active: bool,
    toPath: seq<string>,
    acceptTypes: seq<string>,
    acceptWrappedTypes: seq<string>,
    receivers: map<string, CR.ChunkReceiver>,
    receiverCheck: bool,
    senders: map<string, CS.ChunkSender>,
    state: State,
    removals: seq<int>)

  /** The state machine's view of a session. */
  function PhaseOf(s: Snapshot): Phase
  {
    Phase(s.state, s.toPath != [], s.active)
  }

  /** Lines 28-43: the local URI, `msrps://` the configured authority, port 2855, the session id and the 'dc' transport. */
  function LocalUri(config: Cfg.ConnectionConfig, sid: string): string
  {
    Uris.Format(Uris.UriFields(true, None, config.authority, Some("2855"), sid, "dc"))
  }

  // ---------------------------------------------------------------------
  // incoming requests, on values

  /** Where `handleRequest` sends a request: a response with `status` from `uri`, or `handleSend` or `handleReport`. */
  datatype Route = Refuse(uri: string, status: int) | Sending | Reporting

  /**
   * `handleRequest(req)` (lines 333-358) for a session whose local URI is
   * `localUri`: the To-Path must be that one URI, else 481 from its first
   * hop; SEND and REPORT are handled; any other method gets 501 (section
   * 12 of RFC 4975).
   */
  function RouteOf(req: Msg, localUri: string): Route
    requires req.kind.Request?
  {
    if |req.toPath| != 1 || req.toPath[0] != localUri then Refuse(Relay.FirstHop(req), Status.SESSION_DOES_NOT_EXIST)
    else if req.kind.verb == "SEND" then Sending
    else if req.kind.verb == "REPORT" then Reporting
    else Refuse(localUri, Status.NOT_IMPLEMENTED)
  }

  /**
   * A request is handled exactly when it is addressed to the session alone
   * and is a SEND or a REPORT; 501 goes exactly to the other methods
   * addressed to it, and everything else gets 481.
   */
  lemma RouteAccepts(req: Msg, localUri: string)
    requires req.kind.Request?
    ensures RouteOf(req, localUri) == Sending <==> req.toPath == [localUri] && req.kind.verb == "SEND"
    ensures RouteOf(req, localUri) == Reporting <==> req.toPath == [localUri] && req.kind.verb == "REPORT"
    ensures RouteOf(req, localUri).Refuse? && RouteOf(req, localUri).status == Status.NOT_IMPLEMENTED <==>
      req.toPath == [localUri] && req.kind.verb != "SEND" && req.kind.verb != "REPORT"
    ensures RouteOf(req, localUri).Refuse? ==> RouteOf(req, localUri).uri == Relay.FirstHop(req)
  {
    if req.toPath == [localUri] {
      assert |req.toPath| == 1 && req.toPath[0] == localUri;
    }
  }

  /**
   * Since every notification throws, a data channel session answers a
   * SEND with a lone 200 exactly when it is an empty message in one chunk
   * (a ping); every other SEND gets only error statuses, a message with a
   * body in one chunk gets 500, no receiver is ever filed, and the sweep
   * never starts.
   */
  lemma OnlyPingsSucceed(req: Msg, filed: Option<CR.Receiver>, now: int, recvBuffer: int, newId: string)
    ensures var h := Delivery.Handle(Delivery.Channel, req, filed, Missing, now, recvBuffer, newId);
      && (Delivery.Succeeded(h) <==> Delivery.ArrivalOf(req) == Delivery.Whole && !Delivery.HasBody(req))
      && (!Delivery.Succeeded(h) ==> h.answers != [] && Status.OK !in h.answers)
      && (Delivery.ArrivalOf(req) == Delivery.Whole && Delivery.HasBody(req) ==> h.answers == [Status.INTERNAL_SERVER_ERROR])
      && !h.sweep && !h.filing.Filed?
  {
    var h := Delivery.Handle(Delivery.Channel, req, filed, Missing, now, recvBuffer, newId);
    match Delivery.ArrivalOf(req)
    case Unranged =>
    case Whole =>
      if Delivery.HasBody(req) {
        var mid := if Delivery.HasId(req) then req.messageId.value else newId;
        var evs := Delivery.WholeEvents(Delivery.Channel, req, mid, recvBuffer, now);
        assert Missing(evs[0]) != Notify.Accept;
        assert Delivery.Attempt(evs, Missing).1 == Notify.Fail;
      }
    case Opening =>
    case Later =>
      if Delivery.HasId(req) && filed.Some? {
        var step := CR.Process(filed.value, req, now);
        assert Missing(Notify.MessageReceiveAborted(req.messageId.value, step.0.blob)) == Notify.Fail;
      }
  }

  /**
   * Lines 735-737: the `for-in` loop of `checkReceivers` over the receivers'
   * fields `states`, visiting them in the order `visited` until the first
   * one idle for longer than `timeout` at the clock reading `now`.
   */
  method FirstIdle(states: map<string, CR.Receiver>, now: int, timeout: int)
    returns (gone: Option<string>, ghost visited: seq<string>)
    ensures Sessions.Distinct(visited) && forall i :: 0 <= i < |visited| ==> visited[i] in states
    ensures gone.None? ==> forall k :: k in states ==> k in visited
    ensures gone.Some? ==> |visited| > 0 && visited[|visited| - 1] == gone.value
    ensures forall i :: 0 <= i < |visited| && (gone.None? || i < |visited| - 1) ==>
      !Delivery.Idle(states[visited[i]], now, timeout)
    ensures gone.None? <==> Sessions.Expired(states, now, timeout) == {}
    ensures gone.Some? ==> gone.value in Sessions.Expired(states, now, timeout)
  {
    var keys := states.Keys;
    visited := [];
    while keys != {}
      invariant keys <= states.Keys
      invariant Sessions.Distinct(visited)
      invariant forall i :: 0 <= i < |visited| ==> visited[i] in states && visited[i] !in keys
      invariant forall k :: k in states ==> k in keys || k in visited
      invariant forall i :: 0 <= i < |visited| ==> !Delivery.Idle(states[visited[i]], now, timeout)
      decreases |keys|
    {
      var k :| k in keys;
      Sessions.DistinctSnoc(visited, k);
      visited := visited + [k];
      if Delivery.Idle(states[k], now, timeout) {
        assert k in Sessions.Expired(states, now, timeout);
        return Some(k), visited;
      }
      keys := keys - {k};
    }
    assert Sessions.Expired(states, now, timeout) == {} by {
      forall k | k in states ensures !Delivery.Idle(states[k], now, timeout) {
        var i :| 0 <= i < |visited| && visited[i] == k;
      }
    }
    return None, visited;
  }

  class DataChannelSession {
    const sessionId: string
    /** The channel's stream id, by which the connection knows the session. */
    const streamId: int
    /** What the senders read: the To-Path, set from the SDP, and the local URI. */
    const endpoint: CS.Endpoint
    const config: Cfg.ConnectionConfig
    const ids: nat -> string
    var used: nat
    /** `this.dataChannel` is set. */
    var channel: bool
    var active: bool
    var acceptTypes: seq<string>
    var acceptWrappedTypes: seq<string>
    var chunkReceivers: map<string, CR.ChunkReceiver>
    /** The receiver sweep is scheduled. */
    var receiverCheck: bool
    var chunkSenders: map<string, CS.ChunkSender>
    var activeSenders: seq<CS.ChunkSender>
    var outstandingSends: int
    var state: State
    /** Every message handed to the data channel, in order. */
    var wire: seq<Msg>
    /** The stream ids passed to the connection's `removeSession`, in order. */
    var removals: seq<int>

    function Snap(): Snapshot
      reads this, endpoint
    {
      Snapshot(used, channel, active, endpoint.toPath, acceptTypes, acceptWrappedTypes, chunkReceivers, receiverCheck,
        chunkSenders, activeSenders, outstandingSends, state, wire, removals)
    }

    /** The scheduler's view of the queue now. */
    function Queued(): (q: SQ.Queue<CS.ChunkSender>)
      reads this, Relay.Members(activeSenders), Relay.Endpoints(Relay.Members(activeSenders))
      ensures SQ.Covered(q) && q.order == activeSenders && q.sent == []
    {
      Relay.QueueOf(activeSenders, outstandingSends, used)
    }

    /**
     * `new DataChannelSession(con, dataChannel)` (lines 26-87) for the
     * session id `sid` and a channel with stream id `streamId`: INIT,
     * passive, nothing negotiated, no receivers or senders.
     */
    constructor (config: Cfg.ConnectionConfig, sid: string, streamId: int, ids: nat -> string)
      ensures this.config == config && this.ids == ids && this.sessionId == sid && this.streamId == streamId
      ensures fresh(endpoint) && endpoint.localUri == LocalUri(config, sid)
      ensures Snap() == Snapshot(0, true, false, [], [], [], map[], false, map[], [], 0, Init, [], [])
    {
      this.config := config;
      this.ids := ids;
      sessionId := sid;
      this.streamId := streamId;
      endpoint := new CS.Endpoint(LocalUri(config, sid));
      used := 0;
      channel := true;
      active := false;
      acceptTypes := [];
      acceptWrappedTypes := [];
      chunkReceivers := map[];
      receiverCheck := false;
      chunkSenders := map[];
      activeSenders := [];
      outstandingSends := 0;
      state := Init;
      wire := [];
      removals := [];
    }

    // -------------------------------------------------------------------
    // the queue after a state change

    /** The fields after a pass on `q`, which runs only in ESTABLISHED. */
    function After(s: Snapshot, q: SQ.Queue<CS.ChunkSender>): Snapshot
      requires SQ.Covered(q)
    {
      if s.state == Established then Passed(s, SQ.SendPass(q, config.maxOutstandingSends, ids)) else s
    }

    /** The scheduler's queue after a pass on `q`, which runs only in ESTABLISHED. */
    function Final(s: Snapshot, q: SQ.Queue<CS.ChunkSender>): SQ.Queue<CS.ChunkSender>
      requires SQ.Covered(q)
    {
      if s.state == Established then SQ.SendPass(q, config.maxOutstandingSends, ids) else q
    }

    /**
     * `processSendQueue()` ran on the fields `s` and the queue `q`: the
     * session is as `After` says, and every sender queued is in the state
     * its lane ended in.
     */
    ghost predicate Pumped(s: Snapshot, q: SQ.Queue<CS.ChunkSender>)
      reads this, endpoint, Relay.Members(q.order), Relay.Endpoints(Relay.Members(q.order))
    {
      SQ.Covered(q) && Snap() == After(s, q) && Kept(q.order, Final(s, q).lanes)
    }

    /** The queue `q0` with the new sender `sender`, in state `t` and addressed to `toPath`, at its tail. */
    function Enqueued(q0: SQ.Queue<CS.ChunkSender>, sender: CS.ChunkSender, t: CS.Sender, toPath: seq<string>): SQ.Queue<CS.ChunkSender>
    {
      SQ.Queue(q0.order + [sender], q0.lanes[sender := SQ.Lane(t, toPath, endpoint.localUri, config.chunkSize)],
        q0.outstanding, [], q0.used + 1)
    }

    /**
     * Lines 655-660: entering ESTABLISHED as the active endpoint with no
     * sender sends an empty SEND (section 5.4 of RFC 4975).
     */
    predicate Pinging(s0: Snapshot, st: State)
    {
      st == Established && s0.active && s0.senders == map[]
    }

    /**
     * The queue `q` a state change to `st` passes on, from the fields `s0`
     * and the queue `q0`: with the empty SEND's sender `ping` at its tail,
     * or `q0` itself.
     */
    predicate Queues(s0: Snapshot, q0: SQ.Queue<CS.ChunkSender>, st: State, ping: Option<CS.ChunkSender>, q: SQ.Queue<CS.ChunkSender>)
    {
      if Pinging(s0, st) then
        && ping.Some? && ping.value.messageId == ids(s0.used)
        && ping.value.session == endpoint && ping.value.chunkSize == config.chunkSize
        && q == Enqueued(q0, ping.value, CS.Fresh(ids(s0.used), CS.NoContent, None, None, None).(handler := true), s0.toPath)
      else ping.None? && q == q0
    }

    /** The fields once the state is `st` and the empty SEND, if any, is queued. */
    function Entering(s0: Snapshot, st: State, ping: Option<CS.ChunkSender>, q: SQ.Queue<CS.ChunkSender>): Snapshot
    {
      var s1 := Entered(s0, st, streamId);
      if ping.Some? then Filed(s1, ids(s0.used), ping.value, q.order) else s1
    }

    /**
     * `changeState(session, st)` (lines 640-676) ran on the fields `s0`
     * and the queue `q0`: the state is `st`, the empty SEND `ping` is
     * queued when due, and in ESTABLISHED a pass runs on the queue `q`.
     */
    ghost predicate Changed(s0: Snapshot, q0: SQ.Queue<CS.ChunkSender>, st: State, ping: Option<CS.ChunkSender>,
                            q: SQ.Queue<CS.ChunkSender>)
      reads this, endpoint, Relay.Members(q.order), Relay.Endpoints(Relay.Members(q.order))
    {
      Queues(s0, q0, st, ping, q) && Pumped(Entering(s0, st, ping, q), q)
    }

    /**
     * `changeState(session, st)` (lines 640-676): the state is set; in
     * ESTABLISHED the active endpoint with no sender sends an empty SEND,
     * and otherwise the queue is served; CLOSED asks the connection to
     * remove the session and closes the channel.
     */
    method ChangeState(st: State) returns (ghost ping: Option<CS.ChunkSender>, ghost q: SQ.Queue<CS.ChunkSender>)
      modifies this, Relay.Members(activeSenders)
      ensures ping.Some? ==> fresh(ping.value)
      ensures Changed(old(Snap()), old(Queued()), st, ping, q)
      ensures PhaseOf(Snap()) == PhaseOf(old(Snap())).(state := st)
      ensures st == Closed ==> Snap() == Entered(old(Snap()), Closed, streamId)
      ensures st != Established ==> unchanged(Relay.Members(old(activeSenders)))
    {
      ghost var s0 := Snap();
      SetState(st);
      if st == Established && active && chunkSenders == map[] {
        // Empty SEND (section 5.4 of RFC 4975)
        var mid, sender, q' := Send(CS.NoContent, None);
        ping, q := Some(sender), q';
        assert Entering(s0, st, ping, q) == Filed(Entered(s0, st, streamId), mid, sender, q.order);
      } else if st == Established {
        ping, q := None, Queued();
        ProcessSendQueue();
      } else {
        ping, q := None, Queued();
        Unmoved(q);
        if st == Closed {
          Shut();
        }
      }
    }

    /** `session.state = st`, which leaves the queue as it is. */
    method SetState(st: State)
      modifies this
      ensures Snap() == old(Snap()).(state := st) && Queued() == old(Queued())
    {
      state := st;
      QueueFramed();
    }

    /** With the queue and its senders as they were, the scheduler's queue differs in the count and the ids at most. */
    twostate lemma QueueFramed()
      requires activeSenders == old(activeSenders)
      requires unchanged(Relay.Members(activeSenders)) && unchanged(Relay.Endpoints(Relay.Members(activeSenders)))
      ensures Queued() == old(Queued()).(outstanding := outstandingSends, used := used)
    {
      ghost var k0 := Relay.Members(activeSenders);
      forall k | k in k0
        ensures Relay.LaneOf(k) == old(Relay.Lanes(k0))[k]
      {
      }
      LanesStill(k0, old(Relay.Lanes(k0)));
    }

    /** Lines 665-669: the connection is asked to remove the session and the channel is let go. */
    method Shut()
      modifies this
      ensures Snap() == old(Snap()).(removals := old(removals) + [streamId], channel := false)
    {
      removals := removals + [streamId];
      if channel {
        channel := false;
      }
    }

    /** Nothing changed the senders: they are in the lanes of the queue `q`. */
    lemma Unmoved(q: SQ.Queue<CS.ChunkSender>)
      requires q == Queued()
      ensures Kept(q.order, q.lanes)
    {
    }

    /**
     * `send(body, contentType)` (lines 100-125): a new sender, with the
     * content type `ChannelType` picks and the next Message-ID, is filed
     * and queued at the tail, and the queue is served. There is no check of
     * the state: a message sent early waits for ESTABLISHED.
     */
    method Send(body: CS.Content, contentType: Option<string>)
      returns (mid: string, ghost sender: CS.ChunkSender, ghost q: SQ.Queue<CS.ChunkSender>)
      modifies this, Relay.Members(activeSenders)
      ensures mid == ids(old(used)) && fresh(sender)
      ensures sender.messageId == mid && sender.session == endpoint && sender.chunkSize == config.chunkSize
      ensures q == Enqueued(old(Queued()), sender, CS.Fresh(mid, body, ChannelType(body, contentType), None, None).(handler := true),
                            old(endpoint.toPath))
      ensures Pumped(Filed(old(Snap()), mid, sender, q.order), q)
      ensures state == old(state) && active == old(active) && endpoint.toPath == old(endpoint.toPath)
    {
      ghost var q0 := Queued();
      var s := Create(body, ChannelType(body, contentType));
      sender := s;
      mid := s.messageId;
      q := Enqueued(q0, s, s.State(), endpoint.toPath);
      Push(s, q0, q);
      ProcessSendQueue();
    }

    /**
     * Lines 115-119: a new sender for `body` with the next Message-ID,
     * which reports its timeout to the session, filed under its
     * Message-ID and not yet queued.
     */
    method Create(body: CS.Content, contentType: Option<string>) returns (s: CS.ChunkSender)
      modifies this
      ensures fresh(s) && s.messageId == ids(old(used)) && s.session == endpoint && s.chunkSize == config.chunkSize
      ensures s.State() == CS.Fresh(s.messageId, body, contentType, None, None).(handler := true)
      ensures Snap() == old(Snap()).(used := old(used) + 1, senders := old(chunkSenders)[s.messageId := s])
      ensures Relay.Lanes(Relay.Members(activeSenders)) == old(Relay.Lanes(Relay.Members(activeSenders)))
    {
      ghost var k0 := Relay.Members(activeSenders);
      ghost var lanes := Relay.Lanes(k0);
      s := new CS.ChunkSender(endpoint, ids(used), body, contentType, None, None, config.chunkSize);
      s.SetReportHandler(true);
      used := used + 1;
      chunkSenders := chunkSenders[s.messageId := s];
      forall k | k in k0
        ensures Relay.LaneOf(k) == lanes[k]
      {
      }
      LanesStill(k0, lanes);
    }

    /** `this.activeSenders.push(sender)` for a sender not queued before: the queue is now `q`. */
    method Push(sender: CS.ChunkSender, ghost q0: SQ.Queue<CS.ChunkSender>, ghost q: SQ.Queue<CS.ChunkSender>)
      requires sender !in activeSenders && q0.order == activeSenders && q0.lanes == Relay.Lanes(Relay.Members(activeSenders))
      requires q0.outstanding == outstandingSends && q0.used + 1 == used
      requires sender.session == endpoint && sender.chunkSize == config.chunkSize
      requires q == Enqueued(q0, sender, sender.State(), endpoint.toPath)
      modifies this
      ensures Queued() == q
      ensures Snap() == old(Snap()).(activeSenders := old(activeSenders) + [sender])
    {
      ghost var k0 := Relay.Members(activeSenders);
      activeSenders := activeSenders + [sender];
      assert Relay.Members(activeSenders) == k0 + {sender};
      forall k | k in k0
        ensures Relay.LaneOf(k) == q0.lanes[k]
      {
      }
      LanesStill(k0 + {sender}, q.lanes);
    }

    /**
     * `processSendQueue()` (lines 360-393): outside ESTABLISHED nothing
     * happens; otherwise one pass of the scheduler runs, as
     * `SendQueue.SendPass` says, with the double shift of a sender the far
     * end aborted.
     */
    method ProcessSendQueue()
      modifies this, Relay.Members(activeSenders)
      ensures Pumped(old(Snap()), old(Queued()))
      ensures Still() == old(Still())
    {
      if state != Established {
        Unmoved(Queued());
        return;
      }
      ghost var k0 := Relay.Members(activeSenders);
      ghost var lanes := Relay.Lanes(k0);
      ghost var goal := SQ.SendPass(Current(lanes, []), config.maxOutstandingSends, ids);
      ghost var s0, f0 := Snap(), Still();
      ghost var lanes', cuts, wired := Pass(k0, lanes, goal, s0.wire, f0);
      Stopped(s0, goal, s0.wire, wired, f0, old(activeSenders), k0);
    }

    // -------------------------------------------------------------------
    // the pass

    /** The scheduler's queue made of the fields, the lanes `lanes` and the chunks `cuts` cut so far. */
    function Current(lanes: map<CS.ChunkSender, SQ.Lane>, cuts: seq<SQ.Cut>): SQ.Queue<CS.ChunkSender>
      reads this
    {
      SQ.Queue(activeSenders, lanes, outstandingSends, cuts, used)
    }

    /** The fields a pass leaves alone, as a value. */
    function Still(): Stilled
      reads this, endpoint
    {
      Stilled(channel, active, endpoint.toPath, acceptTypes, acceptWrappedTypes, chunkReceivers, receiverCheck,
        chunkSenders, state, removals)
    }

    /**
     * The loop of `processSendQueue` has `budget` turns left: the queue
     * holds senders of `k0` only, whose lanes are `lanes`; finishing the
     * pass from here ends in `goal`; the wire holds what it held before the
     * pass (`w0`) and then `wired`, the chunks cut, and the fields `Still`
     * names are `f0`.
     */
    ghost predicate Scheduling(k0: set<CS.ChunkSender>, lanes: map<CS.ChunkSender, SQ.Lane>, cuts: seq<SQ.Cut>,
                               wired: seq<Msg>, goal: SQ.Queue<CS.ChunkSender>, budget: nat, w0: seq<Msg>, f0: Stilled)
      reads this, endpoint, k0, Relay.Endpoints(k0)
    {
      && Relay.Members(activeSenders) <= k0 && lanes.Keys == k0 && Relay.Lanes(k0) == lanes
      && SQ.Covered(Current(lanes, cuts))
      && SQ.Pass(Current(lanes, cuts), config.maxOutstandingSends, ids, budget) == goal
      && wire == w0 + wired && SQ.Carries(cuts, wired) && Still() == f0
    }

    /**
     * Lines 370-392: the loop of the pass, from the queue whose lanes are
     * `lanes`, toward the pass's end `goal`: it ends with the queue, the
     * count and the ids used as in `goal`, the lanes `lanes'`, the wire
     * grown by the chunks `cuts`, and nothing else changed.
     */
    method Pass(ghost k0: set<CS.ChunkSender>, ghost lanes: map<CS.ChunkSender, SQ.Lane>, ghost goal: SQ.Queue<CS.ChunkSender>,
                ghost w0: seq<Msg>, ghost f0: Stilled)
      returns (ghost lanes': map<CS.ChunkSender, SQ.Lane>, ghost cuts: seq<SQ.Cut>, ghost wired: seq<Msg>)
      requires Scheduling(k0, lanes, [], [], goal, 2, w0, f0)
      modifies this, k0
      ensures goal == Current(lanes', cuts) && wire == w0 + wired && SQ.Carries(cuts, wired) && Still() == f0
      ensures Relay.Lanes(k0) == lanes'
    {
      lanes', cuts, wired := lanes, [], [];
      var sent := 0;
      while activeSenders != [] && outstandingSends < config.maxOutstandingSends && sent < 2
        invariant 0 <= sent <= 2
        invariant Scheduling(k0, lanes', cuts, wired, goal, 2 - sent, w0, f0)
        decreases 2 - sent
      {
        lanes', cuts, wired := Turn(k0, lanes', cuts, wired, goal, 2 - sent, w0, f0);
        sent := sent + 1;
      }
      Halted(k0, lanes', cuts, wired, goal, 2 - sent, w0, f0);
    }

    /** A pass that may not go on has reached its end. */
    lemma Halted(k0: set<CS.ChunkSender>, lanes: map<CS.ChunkSender, SQ.Lane>, cuts: seq<SQ.Cut>, wired: seq<Msg>,
                 goal: SQ.Queue<CS.ChunkSender>, budget: nat, w0: seq<Msg>, f0: Stilled)
      requires Scheduling(k0, lanes, cuts, wired, goal, budget, w0, f0)
      requires activeSenders == [] || outstandingSends >= config.maxOutstandingSends || budget == 0
      ensures goal == Current(lanes, cuts)
    {
    }

    /**
     * A pass that ended in `r` with the wire grown from `w0` and the other
     * fields `f0`: the fields are `Passed(s0, r)`, and the senders `ks`
     * queued before are in their lanes.
     */
    lemma Stopped(s0: Snapshot, r: SQ.Queue<CS.ChunkSender>, w0: seq<Msg>, wired: seq<Msg>, f0: Stilled,
                  ks: seq<CS.ChunkSender>, k0: set<CS.ChunkSender>)
      requires w0 == s0.wire && f0 == Stilled(s0.channel, s0.active, s0.toPath, s0.acceptTypes, s0.acceptWrappedTypes,
        s0.receivers, s0.receiverCheck, s0.senders, s0.state, s0.removals)
      requires Still() == f0 && wire == w0 + wired && SQ.Carries(r.sent, wired)
      requires activeSenders == r.order && outstandingSends == r.outstanding && used == r.used
      requires Relay.Members(ks) == k0 && Relay.Lanes(k0) == r.lanes
      ensures Snap() == Passed(s0, r) && Kept(ks, r.lanes)
    {
      SQ.CarriesWire(r.sent, wired);
    }

    /** One turn of the loop, seen through `Scheduling`: a pass that had `budget` turns left has one fewer. */
    method Turn(ghost k0: set<CS.ChunkSender>, ghost lanes: map<CS.ChunkSender, SQ.Lane>, ghost cuts: seq<SQ.Cut>,
                ghost wired: seq<Msg>, ghost goal: SQ.Queue<CS.ChunkSender>, ghost budget: nat, ghost w0: seq<Msg>,
                ghost f0: Stilled)
      returns (ghost lanes': map<CS.ChunkSender, SQ.Lane>, ghost next: seq<SQ.Cut>, ghost wired': seq<Msg>)
      requires activeSenders != [] && outstandingSends < config.maxOutstandingSends && budget > 0
      requires Scheduling(k0, lanes, cuts, wired, goal, budget, w0, f0)
      modifies this, activeSenders[0]
      ensures Scheduling(k0, lanes', next, wired', goal, budget - 1, w0, f0)
    {
      ghost var q := Current(lanes, cuts);
      ghost var r := SQ.Step(q, ids);
      ghost var c := SQ.Cut(q.lanes[q.order[0]], ids(q.used));
      SQ.StepShape(q, ids);
      Serve(k0, q);
      lanes', next := r.lanes, r.sent;
      assert activeSenders == r.order && outstandingSends == r.outstanding && used == r.used;
      assert r == Current(lanes', next);
      Relay.RelayConnection.Turned(q, r, goal, budget, config.maxOutstandingSends, ids);
      wired' := wired + [SQ.HeadChunk(c.lane, c.tid)];
      SQ.CarriesMore(cuts, wired, c);
      assert wire == w0 + wired';
    }

    /**
     * One turn of the loop (lines 376-391) on the queue `q` the fields
     * make: the head cuts a chunk, which goes on the data channel, and the
     * queue, the count, the transaction ids and the lanes become the
     * scheduler's step.
     */
    method Serve(ghost k0: set<CS.ChunkSender>, ghost q: SQ.Queue<CS.ChunkSender>)
      requires activeSenders != [] && Relay.Members(activeSenders) <= k0 && Relay.Lanes(k0) == q.lanes
      requires q.order == activeSenders && q.outstanding == outstandingSends && q.used == used
      modifies this, activeSenders[0]
      ensures activeSenders == SQ.Step(q, ids).order && Relay.Members(activeSenders) <= k0
      ensures outstandingSends == old(outstandingSends) + 1 && used == old(used) + 1
      ensures wire == old(wire) + [SQ.HeadChunk(q.lanes[q.order[0]], ids(q.used))]
      ensures Still() == old(Still())
      ensures Relay.Lanes(k0) == SQ.Step(q, ids).lanes
    {
      var sender := activeSenders[0];
      ghost var l := q.lanes[sender];
      var tid := ids(used);
      var dropped := sender.aborted && sender.remoteAbort;
      assert dropped == (l.sender.aborted && l.sender.remoteAbort) by {
        assert sender in k0 && Relay.LaneOf(sender) == l;
      }
      // Don't send any more chunks of a sender the far end aborted; remove it from the list
      ShiftIf(dropped, k0);
      var msg, complete;
      ghost var t;
      msg, complete, t := Relay.Cut(sender, tid, k0, q.lanes);
      Sent(msg, k0);
      Settle(complete, k0);
      Relay.RelayConnection.StepIs(q, ids, sender, l, t, dropped, complete);
    }

    /** `this.activeSenders.shift()` when `dropped`, which leaves an empty queue empty. */
    method ShiftIf(dropped: bool, ghost k0: set<CS.ChunkSender>)
      modifies this
      ensures Relay.Lanes(k0) == old(Relay.Lanes(k0))
      ensures activeSenders == SQ.Unqueued(old(activeSenders), dropped)
      ensures used == old(used) && outstandingSends == old(outstandingSends) && wire == old(wire) && Still() == old(Still())
    {
      if dropped && activeSenders != [] {
        activeSenders := activeSenders[1..];
      }
    }

    /**
     * Lines 384-391: a send-complete head is shifted off the queue; an
     * unfinished one moves to the end of the queue when others wait, for
     * fairness.
     */
    method Settle(complete: bool, ghost k0: set<CS.ChunkSender>)
      modifies this
      ensures Relay.Lanes(k0) == old(Relay.Lanes(k0))
      ensures activeSenders == SQ.Requeued(old(activeSenders), complete)
      ensures used == old(used) && outstandingSends == old(outstandingSends) && wire == old(wire) && Still() == old(Still())
    {
      if complete {
        if activeSenders != [] {
          activeSenders := activeSenders[1..];
        }
      } else if |activeSenders| > 1 {
        activeSenders := activeSenders[1..] + [activeSenders[0]];
      }
    }

    /** `this.dataChannel.send(msg)`, `this.outstandingSends++`, and a transaction id used. */
    method Sent(msg: Msg, ghost k0: set<CS.ChunkSender>)
      modifies this
      ensures Relay.Lanes(k0) == old(Relay.Lanes(k0))
      ensures used == old(used) + 1 && outstandingSends == old(outstandingSends) + 1 && wire == old(wire) + [msg]
      ensures activeSenders == old(activeSenders) && Still() == old(Still())
    {
      wire := wire + [msg];
      outstandingSends := outstandingSends + 1;
      used := used + 1;
    }

    // -------------------------------------------------------------------
    // the far end's SDP and the channel

    /** The lanes `lanes` once the senders of this session are addressed to `toPath`. */
    function Readdressed(lanes: map<CS.ChunkSender, SQ.Lane>, toPath: seq<string>): map<CS.ChunkSender, SQ.Lane>
    {
      map k | k in lanes :: if k.session == endpoint then lanes[k].(toPath := toPath) else lanes[k]
    }

    /** Lines 300-314: the fields the far end's SDP sets, on the fields `s`. */
    function Described(s: Snapshot, kind: string, attributes: map<string, seq<string>>): Snapshot
      requires Valued(attributes) && Complete(attributes)
    {
      s.(toPath := JsString.Split(attributes["path"][0], " "),
         acceptTypes := JsString.Split(attributes["accept-types"][0], " "),
         acceptWrappedTypes := if "accept-wrapped-types" in attributes then JsString.Split(attributes["accept-wrapped-types"][0], " ") else [],
         active := Activated(s.active, kind, attributes))
    }

    /**
     * `sdpUpdate(type, attributes)` (lines 288-331): an SDP without a path
     * or accept-types closes the session; outside INIT and AWAIT_SDP it is
     * ignored; otherwise it gives the To-Path, which the queued senders
     * read, and the accepted types, may make this the active endpoint, and
     * moves the state on as `SdpTarget` says, the queue then being `q0`.
     * The state machine moves as `OnSdp` says.
     */
    method SdpUpdate(kind: string, attributes: map<string, seq<string>>)
      returns (ghost ping: Option<CS.ChunkSender>, ghost q0: SQ.Queue<CS.ChunkSender>, ghost q: SQ.Queue<CS.ChunkSender>)
      requires Valued(attributes)
      modifies this, endpoint, chunkReceivers.Values, chunkSenders.Values, Relay.Members(activeSenders)
      ensures PhaseOf(Snap()) == OnSdp(PhaseOf(old(Snap())), kind, attributes)
      ensures !Complete(attributes) ==> ping.None? && ClosedDown(old(Snap()), old(chunkReceivers), old(chunkSenders))
      ensures Complete(attributes) && old(state) != Init && old(state) != AwaitSdp ==> ping.None? && Snap() == old(Snap())
      ensures Complete(attributes) && (old(state) == Init || old(state) == AwaitSdp) ==>
        var s1 := Described(old(Snap()), kind, attributes);
        && q0 == old(Queued()).(lanes := Readdressed(old(Queued()).lanes, s1.toPath))
        && (ping.Some? ==> fresh(ping.value))
        && Changed(s1, q0, SdpTarget(old(state), s1.active), ping, q)
    {
      if !("path" in attributes && "accept-types" in attributes) {
        // Required SDP attributes missing
        ping, q0, q := None, Queued(), Queued();
        Close();
        return;
      }
      if state != Init && state != AwaitSdp {
        ping, q0, q := None, Queued(), Queued();
        return;
      }
      q0 := Describe(kind, attributes);
      if state == AwaitSdp {
        // the channel is already open, and now the SDP is here
        if active {
          ping, q := ChangeState(Established);
        } else {
          ping, q := ChangeState(AwaitMsg);
        }
      } else {
        // the SDP came first: wait for the channel to open
        ping, q := ChangeState(AwaitOpen);
      }
    }

    /** Lines 300-314: the To-Path, the accepted types and the endpoint role are set from the SDP. */
    method Describe(kind: string, attributes: map<string, seq<string>>) returns (ghost q0: SQ.Queue<CS.ChunkSender>)
      requires Valued(attributes) && Complete(attributes)
      modifies this, endpoint
      ensures Snap() == Described(old(Snap()), kind, attributes)
      ensures q0 == Queued() && q0 == old(Queued()).(lanes := Readdressed(old(Queued()).lanes, endpoint.toPath))
    {
      ghost var k0 := Relay.Members(activeSenders);
      ghost var lanes := Relay.Lanes(k0);
      endpoint.toPath := JsString.Split(attributes["path"][0], " ");
      acceptTypes := JsString.Split(attributes["accept-types"][0], " ");
      if "accept-wrapped-types" in attributes {
        acceptWrappedTypes := JsString.Split(attributes["accept-wrapped-types"][0], " ");
      } else {
        acceptWrappedTypes := [];
      }
      active := Activated(active, kind, attributes);
      forall k | k in k0
        ensures Relay.LaneOf(k) == Readdressed(lanes, endpoint.toPath)[k]
      {
      }
      LanesStill(k0, Readdressed(lanes, endpoint.toPath));
      q0 := Queued();
    }

    /**
     * `onDcOpen()` (lines 395-409): the state moves on as `OpenTarget`
     * says, by whether the SDP was taken and whether this is the active
     * endpoint; the state machine moves as `OnOpen` says.
     */
    method OnDcOpen() returns (ghost ping: Option<CS.ChunkSender>, ghost q: SQ.Queue<CS.ChunkSender>)
      modifies this, Relay.Members(activeSenders)
      ensures ping.Some? ==> fresh(ping.value)
      ensures Changed(old(Snap()), old(Queued()), OpenTarget(old(endpoint.toPath) != [], old(active)), ping, q)
      ensures PhaseOf(Snap()) == OnOpen(PhaseOf(old(Snap())))
    {
      if endpoint.toPath == [] {
        // still waiting for the SDP
        ping, q := ChangeState(AwaitSdp);
      } else if active {
        ping, q := ChangeState(Established);
      } else {
        ping, q := ChangeState(AwaitMsg);
      }
    }

    /**
     * `onDcClose()` (lines 411-416): unless already CLOSED, the channel is
     * let go and the session enters CLOSED, which asks the connection to
     * remove it; the senders are left as they are.
     */
    method OnDcClose()
      modifies this, Relay.Members(activeSenders)
      ensures old(state) == Closed ==> Snap() == old(Snap())
      ensures old(state) != Closed ==> Snap() == Entered(old(Snap()), Closed, streamId)
      ensures PhaseOf(Snap()) == OnClose(PhaseOf(old(Snap())))
      ensures Kept(old(activeSenders), old(Queued()).lanes)
    {
      if state != Closed {
        channel := false;
        QueueFramed();
        ghost var ping, q := ChangeState(Closed);
      }
    }

    /**
     * `close()` (lines 205-209) ran from the fields `s0`, the receivers
     * `receivers` and the senders `senders`: each of them is aborted and
     * the session is in CLOSED, removed from its connection.
     */
    twostate predicate ClosedDown(s0: Snapshot, receivers: map<string, CR.ChunkReceiver>, senders: map<string, CS.ChunkSender>)
      reads this, endpoint, receivers.Values, senders.Values
    {
      && (forall k :: k in receivers ==> receivers[k].State() == old(receivers[k].State()).(aborted := true))
      && (forall k :: k in senders ==> senders[k].State() == old(senders[k].State()).(aborted := true))
      && Snap() == Entered(s0, Closed, streamId)
    }

    /** `close()` (lines 205-209): every receiver and sender is aborted and the session enters CLOSED. */
    method Close()
      modifies this, chunkReceivers.Values, chunkSenders.Values, Relay.Members(activeSenders)
      ensures ClosedDown(old(Snap()), old(chunkReceivers), old(chunkSenders))
    {
      Abandon();
      label abandoned:
      ghost var ping, q := ChangeState(Closed);
      assert forall k :: k in chunkSenders ==> unchanged@abandoned(chunkSenders[k]);
      assert forall k :: k in chunkReceivers ==> unchanged@abandoned(chunkReceivers[k]);
    }

    /** Lines 206-207: every receiver and sender is aborted; the session's own fields stay. */
    method Abandon()
      modifies chunkReceivers.Values, chunkSenders.Values
      ensures forall k :: k in chunkReceivers ==> chunkReceivers[k].State() == old(chunkReceivers[k].State()).(aborted := true)
      ensures forall k :: k in chunkSenders ==> chunkSenders[k].State() == old(chunkSenders[k].State()).(aborted := true)
      ensures Snap() == old(Snap())
    {
      Sessions.AbortReceivers(chunkReceivers);
      Sessions.AbortSenders(chunkSenders);
    }

    /**
     * `abortReceive(id)` (lines 164-178): a named id that has no receiver
     * throws a RangeError; a named id aborts its receiver; no id aborts
     * them all. Receivers are removed when their next chunk arrives.
     */
    method AbortReceive(id: Option<string>) returns (r: Outcome<()>)
      modifies chunkReceivers.Values
      ensures Sessions.Named(id) && id.value !in chunkReceivers ==>
        r == Threw("RangeError: Invalid message id")
        && forall k :: k in chunkReceivers ==> chunkReceivers[k].State() == old(chunkReceivers[k].State())
      ensures Sessions.Named(id) && id.value in chunkReceivers ==>
        && r == Returned(())
        && chunkReceivers[id.value].State() == old(chunkReceivers[id.value].State()).(aborted := true)
        && forall k :: k in chunkReceivers && chunkReceivers[k] != chunkReceivers[id.value] ==>
             chunkReceivers[k].State() == old(chunkReceivers[k].State())
      ensures !Sessions.Named(id) ==>
        r == Returned(()) && forall k :: k in chunkReceivers ==> chunkReceivers[k].State() == old(chunkReceivers[k].State()).(aborted := true)
    {
      if Sessions.Named(id) {
        if id.value !in chunkReceivers {
          return Threw("RangeError: Invalid message id");
        }
        chunkReceivers[id.value].Abort();
      } else {
        Sessions.AbortReceivers(chunkReceivers);
      }
      return Returned(());
    }

    /**
     * `abortSend(id)` (lines 185-199): a named id that has no sender throws
     * a RangeError; a named id aborts its sender; no id aborts them all.
     * Senders are removed once their abort chunk has gone out.
     */
    method AbortSend(id: Option<string>) returns (r: Outcome<()>)
      modifies chunkSenders.Values
      ensures Sessions.Named(id) && id.value !in chunkSenders ==>
        r == Threw("RangeError: Invalid message id")
        && forall k :: k in chunkSenders ==> chunkSenders[k].State() == old(chunkSenders[k].State())
      ensures Sessions.Named(id) && id.value in chunkSenders ==>
        && r == Returned(())
        && chunkSenders[id.value].State() == old(chunkSenders[id.value].State()).(aborted := true)
        && forall k :: k in chunkSenders && chunkSenders[k] != chunkSenders[id.value] ==>
             chunkSenders[k].State() == old(chunkSenders[k].State())
      ensures !Sessions.Named(id) ==>
        r == Returned(()) && forall k :: k in chunkSenders ==> chunkSenders[k].State() == old(chunkSenders[k].State()).(aborted := true)
    {
      if Sessions.Named(id) {
        if id.value !in chunkSenders {
          return Threw("RangeError: Invalid message id");
        }
        chunkSenders[id.value].Abort();
      } else {
        Sessions.AbortSenders(chunkSenders);
      }
      return Returned(());
    }

    // -------------------------------------------------------------------
    // incoming requests

    /**
     * `sendResponse(req, dc, uri, status)` (lines 678-690): the response is
     * put on the channel when the request asks for one with this status; a
     * request without `responseOn` throws a TypeError.
     */
    twostate predicate Replied(req: Msg, uri: string, status: int, new r: Outcome<()>)
      requires req.kind.Request?
      reads this, endpoint
    {
      var rep := Replies.Reply(req, uri, status);
      && (rep.Threw? ==> r == Threw(rep.reason) && Snap() == old(Snap()))
      && (rep.Returned? ==>
            r == Returned(()) && Snap() == old(Snap()).(wire := old(wire) + if rep.value.Some? then [rep.value.value] else []))
    }

    /** `sendResponse(req, dc, uri, status)` (lines 678-690). */
    method SendResponse(req: Msg, uri: string, status: int) returns (r: Outcome<()>)
      requires req.kind.Request?
      modifies this
      ensures Replied(req, uri, status, r)
    {
      var rep := Replies.Reply(req, uri, status);
      if rep.Threw? {
        return Threw(rep.reason);
      }
      if rep.value.Some? {
        wire := wire + [rep.value.value];
      }
      return Returned(());
    }

    /**
     * `handleRequest(req)` (lines 333-358) at the clock reading `now`: a
     * request not addressed to this session alone gets 481, one with a
     * method other than SEND or REPORT gets 501, and the others are handled
     * as `HandleSend` and `HandleReport` say.
     */
    method HandleRequest(req: Msg, now: int)
      returns (r: Outcome<()>, ghost ping: Option<CS.ChunkSender>, ghost q: SQ.Queue<CS.ChunkSender>)
      requires Relay.Incoming(req)
      modifies this, Touched(req), Reporting(req), Relay.Members(activeSenders)
      ensures ping.Some? ==> fresh(ping.value)
      ensures match RouteOf(req, endpoint.localUri)
        case Refuse(uri, status) => ping.None? && Replied(req, uri, status, r)
        case Sending => r == Returned(()) && SendHandled(req, now, old(chunkReceivers), ping, q)
        case Reporting => ping.None? && ReportHandled(req, old(chunkSenders), r)
    {
      ping, q := None, Queued();
      match RouteOf(req, endpoint.localUri)
      case Refuse(uri, status) =>
        r := SendResponse(req, uri, status);
      case Sending =>
        ping, q := HandleSend(req, now);
        r := Returned(());
      case Reporting =>
        r := HandleReport(req);
    }

    // -------------------------------------------------------------------
    // incoming SEND requests

    /** The receiver filed under the request's Message-ID, the one object a SEND may change. */
    function Touched(req: Msg): set<object>
      reads this
    {
      if req.messageId.Some? && req.messageId.value in chunkReceivers then {chunkReceivers[req.messageId.value]} else {}
    }

    /** The state of the receiver filed under the request's Message-ID, when it has one. */
    function FiledUnder(req: Msg): Option<CR.Receiver>
      reads this, Touched(req)
    {
      if Delivery.HasId(req) && req.messageId.value in chunkReceivers
      then Some(chunkReceivers[req.messageId.value].State())
      else None
    }

    /** The decision on the SEND `req` at `now`, made on the session as it was. */
    function Decided(req: Msg, now: int): Delivery.Handling
      reads this, Touched(req)
    {
      Delivery.Handle(Delivery.Channel, req, FiledUnder(req), Missing, now, config.recvBuffer, ids(used))
    }

    /**
     * The fields `s` after the 200 for `req` and, when the request asks for
     * one, the success REPORT, sent to the session's To-Path with the next
     * transaction id (lines 536-546).
     */
    function Answered(s: Snapshot, req: Msg): Snapshot
      requires req.kind.Request? && req.responseOn.Some? && req.byteRange.Some?
    {
      var report := Delivery.WantsReport(req);
      s.(used := s.used + (if report then 1 else 0),
         wire := s.wire + Replies.Responses(req, endpoint.localUri, [Status.OK])
                 + (if report then [Replies.ReportFor(req, s.toPath, endpoint.localUri, ids(s.used)).value] else []))
    }

    /**
     * A SEND that went through, from the fields `s0` and the queue `q0`: in
     * AWAIT_MSG the session enters ESTABLISHED as `ChangeState` does, and
     * the answer follows.
     */
    twostate predicate Welcomed(s0: Snapshot, q0: SQ.Queue<CS.ChunkSender>, req: Msg, new ping: Option<CS.ChunkSender>,
                                new q: SQ.Queue<CS.ChunkSender>)
      requires req.kind.Request? && req.responseOn.Some? && req.byteRange.Some?
      reads this, endpoint, Relay.Members(q.order), Relay.Endpoints(Relay.Members(q.order))
    {
      if s0.state == AwaitMsg then
        var s1 := Entering(s0, Established, ping, q);
        && Queues(s0, q0, Established, ping, q) && SQ.Covered(q)
        && Snap() == Answered(After(s1, q), req) && Kept(q.order, Final(s1, q).lanes)
      else
        ping.None? && q == q0 && Snap() == Answered(s0, req) && Kept(q0.order, q0.lanes)
    }

    /**
     * What `handleSend(req)` leaves, as `Delivery.Handle` decides for a
     * data channel whose callbacks all throw: only an empty SEND goes
     * through; any other answer goes out in place of the 200, with the
     * receiver filed under the id updated or dropped as decided.
     */
    twostate predicate SendHandled(req: Msg, now: int, receivers: map<string, CR.ChunkReceiver>,
                                   new ping: Option<CS.ChunkSender>, new q: SQ.Queue<CS.ChunkSender>)
      requires req.kind == Request("SEND") && req.responseOn.Some? && req.byteRange.Some?
      reads this, endpoint, receivers.Values, Relay.Members(q.order), Relay.Endpoints(Relay.Members(q.order))
    {
      var h := old(Decided(req, now));
      var mid := req.messageId.GetOr("");
      old(chunkReceivers) == receivers &&
      if Delivery.Succeeded(h) then Welcomed(old(Snap()), old(Queued()), req, ping, q)
      else
        && ping.None?
        && Sessions.Refiled(old(chunkReceivers), chunkReceivers, h.filing, mid)
        && (h.filing.Updated? ==> chunkReceivers[mid].State() == h.filing.r)
        && (h.filing.Dropped? && h.filing.last.Some? ==> receivers[mid].State() == h.filing.last.value)
        && Snap() == old(Snap()).(used := old(used) + (if h.drawn then 1 else 0), receivers := chunkReceivers,
             wire := old(wire) + Replies.Responses(req, endpoint.localUri, h.answers))
    }

    /**
     * `handleSend(req)` (lines 418-547) at the clock reading `now`. The
     * callbacks go through `CrocMSRP.util.fireEvent`, which the utility
     * module does not define, so each call throws a TypeError that the
     * handler catches and answers 500: every SEND but an empty one fails.
     */
    method HandleSend(req: Msg, now: int) returns (ghost ping: Option<CS.ChunkSender>, ghost q: SQ.Queue<CS.ChunkSender>)
      requires req.kind == Request("SEND") && req.responseOn.Some? && req.byteRange.Some?
      modifies this, Touched(req), Relay.Members(activeSenders)
      ensures ping.Some? ==> fresh(ping.value)
      ensures SendHandled(req, now, old(chunkReceivers), ping, q)
    {
      ghost var s0, q0 := Snap(), Queued();
      var answers := Receive(req, now);
      if answers == [Status.OK] {
        QueueFramed();
        assert Queued() == q0;
        ping, q := Welcome(req);
      } else {
        ping, q := None, Queued();
        Respond(req, answers);
      }
    }

    /** Lines 524-534: the answers go out in place of the 200. */
    method Respond(req: Msg, answers: seq<int>)
      requires req.kind.Request? && req.responseOn.Some?
      modifies this
      ensures Snap() == old(Snap()).(wire := old(wire) + Replies.Responses(req, endpoint.localUri, answers))
    {
      wire := wire + Replies.Responses(req, endpoint.localUri, answers);
    }

    /** Lines 536-546: a SEND that went through; AWAIT_MSG becomes ESTABLISHED, then the 200 and the REPORT asked for. */
    method Welcome(req: Msg) returns (ghost ping: Option<CS.ChunkSender>, ghost q: SQ.Queue<CS.ChunkSender>)
      requires req.kind.Request? && req.responseOn.Some? && req.byteRange.Some?
      modifies this, Relay.Members(activeSenders)
      ensures ping.Some? ==> fresh(ping.value)
      ensures Welcomed(old(Snap()), old(Queued()), req, ping, q)
    {
      if state == AwaitMsg {
        ghost var s0 := Snap();
        ping, q := ChangeState(Established);
        ghost var s1 := Entering(s0, Established, ping, q);
        assert Snap() == After(s1, q) && Kept(q.order, Final(s1, q).lanes);
        Acknowledge(req);
      } else {
        ping, q := None, Queued();
        Unmoved(q);
        Acknowledge(req);
      }
    }

    /** Lines 540-546: the 200 and, when asked for, the success REPORT. */
    method Acknowledge(req: Msg)
      requires req.kind.Request? && req.responseOn.Some? && req.byteRange.Some?
      modifies this
      ensures Snap() == Answered(old(Snap()), req)
    {
      wire := wire + Replies.Responses(req, endpoint.localUri, [Status.OK]);
      if Delivery.WantsReport(req) {
        var tid := ids(used);
        used := used + 1;
        wire := wire + [Replies.ReportFor(req, endpoint.toPath, endpoint.localUri, tid).value];
      }
    }

    /** The handling of a SEND up to its answers, as `Delivery.Handle` decides. */
    method Receive(req: Msg, now: int) returns (answers: seq<int>)
      modifies this, Touched(req)
      ensures var h := old(Decided(req, now));
        var mid := req.messageId.GetOr("");
        && answers == h.answers
        && Sessions.Refiled(old(chunkReceivers), chunkReceivers, h.filing, mid)
        && (h.filing.Updated? ==> chunkReceivers[mid].State() == h.filing.r)
        && (h.filing.Dropped? && h.filing.last.Some? ==> old(chunkReceivers)[mid].State() == h.filing.last.value)
        && Snap() == old(Snap()).(used := old(used) + (if h.drawn then 1 else 0), receivers := chunkReceivers)
      ensures answers == [Status.OK] ==> Snap() == old(Snap())
    {
      match Delivery.ArrivalOf(req) {
        case Unranged =>
          // reading `req.byteRange.start` throws a TypeError
          answers := [Status.INTERNAL_SERVER_ERROR];
        case Whole =>
          answers := ReceiveWhole(req, now);
        case Opening =>
          answers := ReceiveOpening(req, now);
        case Later =>
          answers := ReceiveLater(req, now);
      }
    }

    /** Lines 422-449: a message in one chunk; an empty one is a ping. */
    method ReceiveWhole(req: Msg, now: int) returns (answers: seq<int>)
      requires Delivery.ArrivalOf(req) == Delivery.Whole
      modifies this
      ensures var h := old(Decided(req, now));
        answers == h.answers && Snap() == old(Snap()).(used := old(used) + (if h.drawn then 1 else 0))
      ensures answers == [Status.OK] ==> Snap() == old(Snap())
    {
      OnlyPingsSucceed(req, FiledUnder(req), now, config.recvBuffer, ids(used));
      if !Delivery.HasBody(req) {
        answers := [Status.OK];
        return;
      }
      if !Delivery.HasId(req) {
        // CrocMSRP.util.newMID()
        used := used + 1;
      }
      // the `onFirstChunkReceived` callback throws
      answers := [Status.INTERNAL_SERVER_ERROR];
    }

    /**
     * Lines 457-482: the first chunk of several needs a Message-ID; its
     * receiver is built, and then reading the absent Content-Disposition
     * or the `onFirstChunkReceived` callback throws, so it is never filed.
     */
    method ReceiveOpening(req: Msg, now: int) returns (answers: seq<int>)
      requires Delivery.ArrivalOf(req) == Delivery.Opening
      modifies this
      ensures answers == old(Decided(req, now)).answers && Snap() == old(Snap())
      ensures answers != [Status.OK]
    {
      if !Delivery.HasId(req) {
        answers := [Status.BAD_REQUEST];
        return;
      }
      var receiver := new CR.ChunkReceiver(req, config.recvBuffer, now);
      answers := [Status.INTERNAL_SERVER_ERROR];
    }

    /**
     * Lines 483-523: a later chunk, for the receiver filed under its
     * Message-ID: none gets 413; one that refuses the chunk is dropped and
     * gets 413, and then the 500 for the callback that throws; otherwise
     * the receiver takes it and is dropped once complete, and the callback
     * throws.
     */
    method ReceiveLater(req: Msg, now: int) returns (answers: seq<int>)
      requires Delivery.ArrivalOf(req) == Delivery.Later
      modifies this, Touched(req)
      ensures var h := old(Decided(req, now));
        var mid := req.messageId.GetOr("");
        && answers == h.answers
        && Sessions.Refiled(old(chunkReceivers), chunkReceivers, h.filing, mid)
        && (h.filing.Updated? ==> chunkReceivers[mid].State() == h.filing.r)
        && (h.filing.Dropped? && h.filing.last.Some? ==> old(chunkReceivers)[mid].State() == h.filing.last.value)
        && Snap() == old(Snap()).(receivers := chunkReceivers)
      ensures answers != [Status.OK]
    {
      if !Delivery.HasId(req) {
        answers := [Status.BAD_REQUEST];
        return;
      }
      var mid := req.messageId.value;
      if mid !in chunkReceivers {
        answers := [Status.STOP_SENDING];
        return;
      }
      var receiver := chunkReceivers[mid];
      var ok := receiver.ProcessChunk(req, now);
      if !ok {
        chunkReceivers := chunkReceivers - {mid};
        // 413, then the `onMessageReceiveAborted` callback throws
        answers := [Status.STOP_SENDING, Status.INTERNAL_SERVER_ERROR];
        return;
      }
      var done := receiver.IsComplete();
      if done {
        chunkReceivers := chunkReceivers - {mid};
      }
      // the `onMessageReceived` or `onChunkReceived` callback throws
      answers := [Status.INTERNAL_SERVER_ERROR];
    }

    // -------------------------------------------------------------------
    // incoming REPORT requests

    /** The sender filed under the report's Message-ID, the one object a REPORT may change. */
    function Reporting(report: Msg): set<object>
      reads this
    {
      if report.messageId.Some? && report.messageId.value in chunkSenders then {chunkSenders[report.messageId.value]} else {}
    }

    /**
     * What `handleReport(report)` leaves: a report for a message the
     * session is not sending is ignored; otherwise the sender takes it and,
     * once complete, is forgotten, and the callback that would tell the
     * application throws.
     */
    twostate predicate ReportHandled(report: Msg, senders: map<string, CS.ChunkSender>, new r: Outcome<()>)
      requires report.byteRange.Some?
      reads this, endpoint, senders.Values
    {
      var mid := report.messageId.GetOr("");
      old(chunkSenders) == senders &&
      if mid == "" || mid !in senders then r == Returned(()) && Snap() == old(Snap())
      else
        var t := CS.Report(old(senders[mid].State()), report);
        && senders[mid].State() == t
        && Snap() == old(Snap()).(senders := if CS.Complete(t) then old(chunkSenders) - {mid} else old(chunkSenders))
        && (r.Threw? <==> Sessions.ReportEvents(mid, t, report) != [])
        && (r.Threw? ==> r == Threw(NoFireEvent))
    }

    /**
     * `handleReport(report)` (lines 549-588): the application would hear
     * of a message once, at its last report, unless it aborted the message
     * itself; that callback throws.
     */
    method HandleReport(report: Msg) returns (r: Outcome<()>)
      requires report.byteRange.Some?
      modifies this, Reporting(report)
      ensures ReportHandled(report, old(chunkSenders), r)
    {
      r := Returned(());
      if report.messageId.None? || report.messageId.value == "" {
        return;
      }
      var mid := report.messageId.value;
      if mid !in chunkSenders {
        return;
      }
      var sender := chunkSenders[mid];
      sender.ProcessReport(report);
      var done := sender.IsComplete();
      if !done {
        return;
      }
      chunkSenders := chunkSenders - {mid};
      if sender.aborted && !sender.remoteAbort {
        return;
      }
      // `onMessageDelivered` or `onMessageSendFailed`
      r := Threw(NoFireEvent);
    }

    // -------------------------------------------------------------------
    // responses and timeouts

    /**
     * `handleResponse(resp)` (lines 590-630) for a response to `request`,
     * cut by `sender`: a place is freed in every case. Without a
     * Message-ID nothing else happens. A 200 for a sender that is not
     * aborted, or for the last chunk, reaches a callback, which throws; a
     * 200 for another chunk of an aborted sender lets the queue be served.
     * Any other status aborts the sender for the far end, forgets it, and
     * reaches a callback, which throws.
     */
    method HandleResponse(resp: Msg, request: Msg, sender: CS.ChunkSender)
      returns (r: Outcome<()>, ghost q: SQ.Queue<CS.ChunkSender>)
      modifies this, sender, Relay.Members(activeSenders)
      ensures var s1 := old(Snap()).(outstandingSends := old(outstandingSends) - 1);
        match Delivery.SentId(request)
        case None => r == Returned(()) && Snap() == s1
        case Some(mid) =>
          if resp.status == Some(Status.OK) then
            if !old(sender.aborted) then
              r == Threw(if request.byteRange.None? then Unranged else NoFireEvent) && Snap() == s1
            else if request.flag == End then r == Threw(NoFireEvent) && Snap() == s1
            else
              && r == Returned(())
              && q == old(Queued()).(outstanding := old(outstandingSends) - 1)
              && Pumped(s1, q)
          else
            && r == Threw(NoFireEvent)
            && sender.State() == old(sender.State()).(aborted := true, remoteAbort := true)
            && Snap() == s1.(senders := old(chunkSenders) - {mid})
    {
      q := Queued();
      outstandingSends := outstandingSends - 1;
      var mid := Delivery.SentId(request);
      if mid.None? {
        r := Returned(());
        return;
      }
      if resp.status == Some(Status.OK) {
        if !sender.aborted {
          if request.byteRange.None? {
            r := Threw(Unranged);
        return;
          }
          // `onChunkSent`
          r := Threw(NoFireEvent);
        return;
        }
        if request.flag == End {
          // `onMessageSent`
          r := Threw(NoFireEvent);
        return;
        }
        QueueFramed();
        q := Queued();
        ProcessSendQueue();
        r := Returned(());
        return;
      }
      sender.Abort();
      sender.MarkRemoteAbort();
      chunkSenders := chunkSenders - {mid.value};
      // `onMessageSendFailed`
      r := Threw(NoFireEvent);
        return;
    }

    /**
     * `handleSenderTimeout(msgId)` (lines 632-637): the sender is
     * forgotten, and the callback telling the application throws.
     */
    method SenderTimeout(mid: string) returns (r: Outcome<()>)
      modifies this
      ensures r == Threw(NoFireEvent) && Snap() == old(Snap()).(senders := old(chunkSenders) - {mid})
    {
      chunkSenders := chunkSenders - {mid};
      return Threw(NoFireEvent);
    }

    /** Every filed receiver's fields, by Message-ID. */
    function States(): map<string, CR.Receiver>
      reads this, chunkReceivers.Values
    {
      map k | k in chunkReceivers :: chunkReceivers[k].State()
    }

    /**
     * `checkReceivers(session)` (lines 731-750) at the clock reading `now`:
     * the `for-in` loop visits the receivers in the order `visited`; the
     * first one idle for longer than the chunk timeout is aborted and
     * forgotten, and the callback telling the application throws, which
     * ends the sweep. When none is idle, every receiver was visited and the
     * sweep is stopped once no receiver is left.
     */
    method CheckReceivers(now: int) returns (r: Outcome<()>, ghost gone: Option<string>, ghost visited: seq<string>)
      modifies this, chunkReceivers.Values
      ensures Sessions.Distinct(visited) && forall i :: 0 <= i < |visited| ==> visited[i] in old(chunkReceivers)
      ensures gone.None? ==> forall k :: k in old(chunkReceivers) ==> k in visited
      ensures gone.Some? ==> |visited| > 0 && visited[|visited| - 1] == gone.value
      ensures forall i :: 0 <= i < |visited| && (gone.None? || i < |visited| - 1) ==>
        !Delivery.Idle(old(States())[visited[i]], now, config.chunkTimeout)
      ensures var idle := Sessions.Expired(old(States()), now, config.chunkTimeout);
        && (gone.None? <==> idle == {})
        && (gone.None? ==>
              && r == Returned(()) && States() == old(States())
              && Snap() == old(Snap()).(receiverCheck := old(receiverCheck) && old(chunkReceivers) != map[]))
        && (gone.Some? ==>
              && gone.value in idle && r == Threw(NoFireEvent)
              && old(chunkReceivers)[gone.value].State() == old(States())[gone.value].(aborted := true)
              && Snap() == old(Snap()).(receivers := old(chunkReceivers) - {gone.value})
              && forall k :: k in old(chunkReceivers) && old(chunkReceivers)[k] != old(chunkReceivers)[gone.value] ==>
                   old(chunkReceivers)[k].State() == old(States())[k])
    {
      var found;
      found, visited := FirstIdle(States(), now, config.chunkTimeout);
      gone := found;
      if found.Some? {
        Expire(found.value);
        // `onMessageReceiveTimeout`
        return Threw(NoFireEvent), gone, visited;
      }
      if chunkReceivers == map[] {
        receiverCheck := false;
      }
      return Returned(()), None, visited;
    }

    /** Lines 739-742: the receiver filed under `mid` is aborted and forgotten. */
    method Expire(mid: string)
      requires mid in chunkReceivers
      modifies this, chunkReceivers[mid]
      ensures old(chunkReceivers)[mid].State() == old(chunkReceivers[mid].State()).(aborted := true)
      ensures Snap() == old(Snap()).(receivers := old(chunkReceivers) - {mid})
      ensures forall k :: k in old(chunkReceivers) && old(chunkReceivers)[k] != old(chunkReceivers)[mid] ==>
                old(chunkReceivers)[k].State() == old(chunkReceivers[k].State())
    {
      var receiver := chunkReceivers[mid];
      receiver.Abort();
      chunkReceivers := chunkReceivers - {mid};
    }
  }
}
