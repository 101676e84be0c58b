/**
 * An MSRP session through a WebSocket relay (src/Session.js): the relay
 * authentication machine (AUTH, challenge, Use-Path), establishment from an
 * SDP answer, and the handling of incoming SEND and REPORT requests and of
 * responses to the requests the session sent.
 *
 * What the source asks of its connection (`con.ws.send`, `con.addSender`,
 * `con.removeSession`) is returned as a list of `ConEffect`s, in call
 * order, which the connection carries out (module Relay). No session code
 * reads what those calls change, so carrying them out on return is the
 * same as carrying them out at the call. Application callbacks are logged
 * in `events`; new Message-IDs and transaction ids come from the injected
 * supply `ids`, the clock from the `now` arguments, and the opaque digest
 * computation (src/digestAuthentication.js) is the function `digest`.
 */
module Sessions {
  import opened Wrappers
  import opened Message
  import JsString
  import Assoc
  import Status
  import Util
  import HeaderNames
  import Notify
  import Replies
  import Delivery
  import Sdp
  import Uris
  import Cfg = ConnectionConfigs
  import CS = ChunkSending
  import CR = ChunkReceiving

  /**
   * The session states (lines 12-20). AUTH_FAILED is not in the source's
   * table, so `states.AUTH_FAILED` is undefined; `changeState` still
   * reaches its case because the state it is given and the case label are
   * both undefined. It is modelled as the state `AuthFailed`.
   */
  datatype State = AwaitConnect | AwaitChallenge | AwaitAuthRes | AwaitSdp | Established | Error | Closed | AuthFailed

  /** A call on the connection: `con.ws.send(m)`, `con.addSender(s)` or `con.removeSession(id)`. */
  datatype ConEffect = WsSend(m: Msg) | AddSender(sender: CS.ChunkSender) | RemoveSession(id: string)

  /** The file of a file-transfer session: its body and the selector type, disposition and description of its parameters. */
  datatype FileSend = FileSend(body: CS.Content, contentType: Option<string>, disposition: Option<string>, description: Option<string>)

  /** A digest computation for one challenge: the Authorization value, or `None` for null. */
  type Digest = Assoc.Assoc<string, string> -> Option<string>

  // ---------------------------------------------------------------------
  // changeState and initAuth

  /** The fields `changeState` and `initAuth` write. */
  datatype Auth = Auth(state: State, established: bool, relayPath: seq<string>, farEndPath: seq<string>,
                       authTimer: bool, sdpSessVer: int)

  /**
   * `changeState(session, st)` at the clock reading `now`. Entering
   * AWAIT_CONNECT, AUTH_FAILED, ERROR or CLOSED clears `established` and
   * runs `initAuth`, which stops the auth timer and empties both halves of
   * the To-Path; entering ESTABLISHED sets `established`; AWAIT_SDP takes a
   * new SDP version from the clock; the authentication states leave the
   * rest alone, so a session may stay established while it
   * re-authenticates.
   */
  function Entered(a: Auth, st: State, now: int): (r: Auth)
    ensures r.state == st
    ensures st in {AwaitConnect, AuthFailed, Error, Closed} ==>
              !r.established && r.relayPath == [] && r.farEndPath == [] && !r.authTimer
    ensures st == Established ==> r.established
    ensures st in {AwaitChallenge, AwaitAuthRes, AwaitSdp, Established} ==>
              r.relayPath == a.relayPath && r.farEndPath == a.farEndPath && r.authTimer == a.authTimer
    ensures st in {AwaitChallenge, AwaitAuthRes, AwaitSdp} ==> r.established == a.established
    ensures r.sdpSessVer == if st == AwaitSdp then Util.DateToNtpTime(now) else a.sdpSessVer
  {
    var b := a.(state := st);
    match st
    case AwaitConnect => b.(established := false, authTimer := false, relayPath := [], farEndPath := [])
    case AuthFailed => b.(established := false, authTimer := false, relayPath := [], farEndPath := [])
    case Error => b.(established := false, authTimer := false, relayPath := [], farEndPath := [])
    case Closed => b.(established := false, authTimer := false, relayPath := [], farEndPath := [])
    case AwaitSdp => b.(sdpSessVer := Util.DateToNtpTime(now))
    case Established => b.(established := true)
    case _ => b
  }

  /** The callbacks `changeState` makes: `onAuthenticated`, `onAuthFailed` and `onError`. */
  function EnteredEvents(st: State): seq<Notify.Event>
  {
    match st
    case AwaitSdp => [Notify.Authenticated]
    case AuthFailed => [Notify.AuthFailed]
    case Error => [Notify.Error]
    case _ => []
  }

  /** AUTH_FAILED, ERROR and CLOSED remove the session from its connection; no other state does. */
  function EnteredEffects(st: State, sessionId: string): (fx: seq<ConEffect>)
    ensures fx != [] <==> st in {AuthFailed, Error, Closed}
    ensures fx != [] ==> fx == [RemoveSession(sessionId)]
  {
    if st in {AuthFailed, Error, Closed} then [RemoveSession(sessionId)] else []
  }

  // ---------------------------------------------------------------------
  // sendAuth, processAuthRes and the AUTH responses

  /** A truthy authorisation: present and not empty. */
  predicate Usable(a: Option<string>)
  {
    a.Some? && a.value != ""
  }

  /**
   * Lines 808-814: the challenges are tried in order until a digest is
   * truthy; the result is the last digest computed, `last` when there are
   * none left.
   */
  function Tried(cs: seq<Assoc.Assoc<string, string>>, digest: Digest, last: Option<string>): Option<string>
  {
    if cs == [] then last
    else if Usable(digest(cs[0])) then digest(cs[0])
    else Tried(cs[1..], digest, digest(cs[0]))
  }

  /**
   * Trying the challenges gives a usable authorisation exactly when one of
   * them has a usable digest, and it is then the digest of the first such
   * challenge.
   */
  lemma {:induction false} TriedFirst(cs: seq<Assoc.Assoc<string, string>>, digest: Digest, last: Option<string>)
    requires !Usable(last)
    ensures Usable(Tried(cs, digest, last)) <==> exists i :: 0 <= i < |cs| && Usable(digest(cs[i]))
    ensures forall j :: 0 <= j < |cs| && Usable(digest(cs[j])) && (forall i :: 0 <= i < j ==> !Usable(digest(cs[i])))
              ==> Tried(cs, digest, last) == digest(cs[j])
  {
    if cs != [] && !Usable(digest(cs[0])) {
      var rest := cs[1..];
      TriedFirst(rest, digest, digest(cs[0]));
      if exists i :: 0 <= i < |cs| && Usable(digest(cs[i])) {
        var i :| 0 <= i < |cs| && Usable(digest(cs[i]));
        assert i > 0 && rest[i - 1] == cs[i];
      }
      forall j | 0 <= j < |cs| && Usable(digest(cs[j])) && (forall i :: 0 <= i < j ==> !Usable(digest(cs[i])))
        ensures Tried(cs, digest, last) == digest(cs[j])
      {
        assert j > 0 && rest[j - 1] == cs[j];
        forall i | 0 <= i < j - 1
          ensures !Usable(digest(rest[i]))
        {
          assert rest[i] == cs[i + 1];
        }
      }
    }
  }

  /** How `sendAuth(session, resp)` ends: the state it enters and the Authorization value it adds. */
  function AuthStep(resp: Option<Msg>, digest: Digest): (State, Option<string>)
  {
    if resp.None? then (AwaitChallenge, None)
    else if resp.value.authenticate.None? then (Error, None)
    else
      var a := Tried(resp.value.authenticate.value, digest, None);
      if Usable(a) then (AwaitAuthRes, a) else (Error, None)
  }

  /** `session.config.authExpires` is truthy. */
  predicate Expiring(expires: Option<int>)
  {
    expires.Some? && expires.value != 0
  }

  /** The headers an AUTH request carries: Authorization and then Expires, each when it is given. */
  function AuthHeaders(authorisation: Option<string>, expires: Option<int>): seq<(string, seq<string>)>
  {
    (if authorisation.Some? then [("Authorization", [authorisation.value])] else [])
    + (if Expiring(expires) then [("Expires", [JsString.IntToString(expires.value)])] else [])
  }

  /**
   * Lines 794-830: the AUTH request, sent to the relay's MSRP URI alone,
   * with the Authorization header when there is one and the Expires header
   * when an interval is configured (`Session.SendAuth` builds it with
   * `addHeader` and proves it equal to this value).
   */
  function AuthRequest(relayMsrpUri: string, localUri: string, tid: string, authorisation: Option<string>,
                       expires: Option<int>): (r: Msg)
    ensures r.kind == Request("AUTH") && r.tid == tid && r.toPath == [relayMsrpUri] && r.fromPath == [localUri]
  {
    OutgoingRequest([relayMsrpUri], localUri, "AUTH", tid).(headers := AuthHeaders(authorisation, expires))
  }

  /** `addHeader('authorization', value)` on a request without that header. */
  method AddAuthorisation(m: Msg, value: string) returns (r: Msg)
    requires Assoc.Get(m.headers, "Authorization").None?
    ensures r == m.(headers := m.headers + [("Authorization", [value])])
  {
    HeaderNames.Authorization();
    AddHeaderNew(m, "authorization", value);
    r := AddHeader(m, "authorization", value);
  }

  /** `addHeader('expires', value)` on a request without that header. */
  method AddExpires(m: Msg, value: string) returns (r: Msg)
    requires Assoc.Get(m.headers, "Expires").None?
    ensures r == m.(headers := m.headers + [("Expires", [value])])
  {
    HeaderNames.Expires();
    AddHeaderNew(m, "expires", value);
    r := AddHeader(m, "expires", value);
  }

  /** What the authentication exchange reads and writes of a session, at the value level. */
  datatype Authing = Authing(auth: Auth, used: nat, events: seq<Notify.Event>, expires: Option<int>, fx: seq<ConEffect>)

  /** What a session's authentication needs and never changes: its id, URIs and id supply. */
  datatype Env = Env(sessionId: string, localUri: string, relayMsrpUri: string, ids: nat -> string)

  /** `changeState` on the value level: the fields, the callbacks and the connection calls. */
  function Entering(x: Authing, st: State, now: int, env: Env): Authing
  {
    x.(auth := Entered(x.auth, st, now), events := x.events + EnteredEvents(st),
       fx := x.fx + EnteredEffects(st, env.sessionId))
  }

  /**
   * `sendAuth(session, resp)`. The request is built first, so a
   * transaction id is used even when no request is sent; with a
   * challenge response, a missing WWW-Authenticate or no usable digest ends
   * in ERROR and nothing is sent.
   */
  function AuthSent(x: Authing, resp: Option<Msg>, digest: Digest, now: int, env: Env): Authing
  {
    var (st, a) := AuthStep(resp, digest);
    var y := Entering(x.(used := x.used + 1), st, now, env);
    if st == Error then y
    else y.(fx := y.fx + [WsSend(AuthRequest(env.relayMsrpUri, env.localUri, env.ids(x.used), a, x.expires))])
  }

  /**
   * `processAuthRes(session, resp)`: without a Use-Path the session fails;
   * otherwise the relay path is taken from it, the re-authentication timer
   * starts and the session awaits the SDP exchange.
   */
  function AuthResProcessed(x: Authing, resp: Msg, now: int, env: Env): Authing
  {
    if resp.usePath.None? then Entering(x, Error, now, env)
    else Entering(x.(auth := x.auth.(relayPath := resp.usePath.value, authTimer := true)), AwaitSdp, now, env)
  }

  /** Lines 633-656: the response to an AUTH request. */
  function AuthAnswered(x: Authing, resp: Msg, digest: Digest, now: int, env: Env): Authing
  {
    if resp.status == Some(Status.UNAUTHORIZED) then
      if x.auth.state == AwaitAuthRes then Entering(x, AuthFailed, now, env)
      else AuthSent(x, Some(resp), digest, now, env)
    else if resp.status == Some(Status.OK) then AuthResProcessed(x, resp, now, env)
    else if resp.status == Some(Status.INTERVAL_OUT_OF_BOUNDS) then AuthSent(x.(expires := resp.expires), None, digest, now, env)
    else Entering(x, AuthFailed, now, env)
  }

  /** Without a challenge, the session sends a bare AUTH and awaits the challenge. */
  lemma FirstAuth(x: Authing, digest: Digest, now: int, env: Env)
    ensures var y := AuthSent(x, None, digest, now, env);
      && y.auth == x.auth.(state := AwaitChallenge) && y.used == x.used + 1 && y.events == x.events
      && y.fx == x.fx + [WsSend(AuthRequest(env.relayMsrpUri, env.localUri, env.ids(x.used), None, x.expires))]
  {
  }

  /**
   * A challenge answered with a usable digest sends the AUTH request with
   * that Authorization and awaits the result; a challenge that yields none
   * ends the session in ERROR.
   */
  lemma ChallengeAnswered(x: Authing, resp: Msg, digest: Digest, now: int, env: Env)
    requires resp.status == Some(Status.UNAUTHORIZED) && x.auth.state != AwaitAuthRes
    ensures var y := AuthAnswered(x, resp, digest, now, env);
      var (st, a) := AuthStep(Some(resp), digest);
      && y.used == x.used + 1
      && (st == AwaitAuthRes ==>
            Usable(a) && y.auth == x.auth.(state := AwaitAuthRes) && y.events == x.events
            && y.fx == x.fx + [WsSend(AuthRequest(env.relayMsrpUri, env.localUri, env.ids(x.used), a, x.expires))])
      && (st != AwaitAuthRes ==>
            y.auth.state == Error && y.events == x.events + [Notify.Error]
            && y.fx == x.fx + [RemoveSession(env.sessionId)])
  {
    var (st, a) := AuthStep(Some(resp), digest);
    var y := Entering(x.(used := x.used + 1), st, now, env);
    assert AuthAnswered(x, resp, digest, now, env)
        == if st == Error then y
           else y.(fx := y.fx + [WsSend(AuthRequest(env.relayMsrpUri, env.localUri, env.ids(x.used), a, x.expires))]);
  }

  /** A second challenge while the answer to the first is awaited fails the session. */
  lemma ChallengeTwiceFails(x: Authing, resp: Msg, digest: Digest, now: int, env: Env)
    requires resp.status == Some(Status.UNAUTHORIZED) && x.auth.state == AwaitAuthRes
    ensures var y := AuthAnswered(x, resp, digest, now, env);
      && y.auth.state == AuthFailed && !y.auth.established && y.auth.relayPath == []
      && y.events == x.events + [Notify.AuthFailed] && y.fx == x.fx + [RemoveSession(env.sessionId)]
      && y.used == x.used
  {
  }

  /**
   * A 200 with a Use-Path authenticates the session: the relay path is the
   * Use-Path, the timer runs and the application hears `onAuthenticated`;
   * without a Use-Path the session ends in ERROR.
   */
  lemma AuthAccepted(x: Authing, resp: Msg, digest: Digest, now: int, env: Env)
    requires resp.status == Some(Status.OK)
    ensures var y := AuthAnswered(x, resp, digest, now, env);
      && (resp.usePath.Some? ==>
            y.auth.state == AwaitSdp && y.auth.relayPath == resp.usePath.value
            && y.auth.authTimer && y.auth.established == x.auth.established
            && y.events == x.events + [Notify.Authenticated] && y.fx == x.fx)
      && (resp.usePath.None? ==> y.auth.state == Error && y.fx == x.fx + [RemoveSession(env.sessionId)])
  {
  }

  /** A 423 stores the relay's interval and starts again with a bare AUTH carrying it. */
  lemma IntervalRetried(x: Authing, resp: Msg, digest: Digest, now: int, env: Env)
    requires resp.status == Some(Status.INTERVAL_OUT_OF_BOUNDS)
    ensures var y := AuthAnswered(x, resp, digest, now, env);
      && y.expires == resp.expires && y.auth.state == AwaitChallenge
      && y.fx == x.fx + [WsSend(AuthRequest(env.relayMsrpUri, env.localUri, env.ids(x.used), None, resp.expires))]
  {
  }

  /** Any other status fails the authentication. */
  lemma AuthRefused(x: Authing, resp: Msg, digest: Digest, now: int, env: Env)
    requires resp.status !in {Some(Status.UNAUTHORIZED), Some(Status.OK), Some(Status.INTERVAL_OUT_OF_BOUNDS)}
    ensures AuthAnswered(x, resp, digest, now, env) == Entering(x, AuthFailed, now, env)
  {
  }

  // ---------------------------------------------------------------------
  // responses to SEND requests, REPORTs, SDP

  /**
   * Lines 667-680: the callbacks for a 200 to a SEND. When the sender is
   * not aborted, reading the End of a request without a Byte-Range throws
   * a TypeError that the surrounding `try` swallows with the rest.
   */
  function SentEvents(mid: string, aborted: bool, request: Msg): seq<Notify.Event>
  {
    if !aborted && request.byteRange.None? then []
    else
      var progress := if aborted then [] else [Notify.ChunkSent(mid, request.byteRange.value.end)];
      progress + (if request.flag == End then [Notify.MessageSent(mid)] else [])
  }

  /**
   * Lines 608-627: the callback once a REPORT completes a sender `t`
   * (already updated by the report): none while reports are awaited or
   * after a local abort, otherwise delivered on 200 and failed on any other
   * status.
   */
  function ReportEvents(mid: string, t: CS.Sender, report: Msg): (evs: seq<Notify.Event>)
  {
    if !CS.Complete(t) || (t.aborted && !t.remoteAbort) then []
    else if report.status == Some(Status.OK) then [Notify.MessageDelivered(mid)]
    else [Notify.MessageSendFailed(mid, report.status, report.comment)]
  }

  /**
   * The application hears about a message once, when its last report
   * arrives, and never about a message it aborted itself; a 200 report
   * delivers it and any other fails it with that status and comment.
   */
  lemma ReportNotifies(mid: string, t: CS.Sender, report: Msg)
    ensures |ReportEvents(mid, t, report)| <= 1
    ensures ReportEvents(mid, t, report) != [] <==> CS.Complete(t) && !(t.aborted && !t.remoteAbort)
    ensures t.aborted && !t.remoteAbort ==> ReportEvents(mid, t, report) == []
    ensures CS.Complete(t) && !t.aborted && report.status == Some(Status.OK) ==>
              ReportEvents(mid, t, report) == [Notify.MessageDelivered(mid)]
    ensures CS.Complete(t) && t.remoteAbort && report.status != Some(Status.OK) ==>
              ReportEvents(mid, t, report) == [Notify.MessageSendFailed(mid, report.status, report.comment)]
  {
  }

  /** `media.attributes[name]` is truthy. */
  predicate Stated(m: Sdp.Media, name: string)
  {
    var v := Assoc.Get(m.attributes, name);
    v.Some? && v.value.Some? && v.value.value != ""
  }

  /**
   * Lines 223-224: a media line the session can use. A parsed port is
   * text, so `media.port !== 0` holds for every parsed line and is not a
   * condition here.
   */
  predicate Offered(m: Sdp.Media)
  {
    m.media == "message" && Stated(m, "path") && Stated(m, "accept-types")
  }

  /** The index of the first usable media line. */
  function FirstUsable(ms: seq<Sdp.Media>): (r: Option<nat>)
    ensures r.Some? ==> r.value < |ms| && Offered(ms[r.value]) && forall i :: 0 <= i < r.value ==> !Offered(ms[i])
    ensures r.None? <==> forall i :: 0 <= i < |ms| ==> !Offered(ms[i])
  {
    if ms == [] then None
    else if Offered(ms[0]) then Some(0)
    else match FirstUsable(ms[1..])
      case None => None
      case Some(k) => Some(k + 1)
  }

  /** The value of a stated attribute, split at spaces. */
  function Listed(m: Sdp.Media, name: string): seq<string>
    requires Stated(m, name)
  {
    JsString.Split(Assoc.Get(m.attributes, name).value.value, " ")
  }

  /** Lines 368-372: the content type `send` passes on: the given one or a default by the body's kind. */
  function SendType(body: CS.Content, contentType: Option<string>): Option<string>
  {
    match body
    case StringContent(_) => Some(CS.Or(contentType, "text/plain"))
    case BlobContent(_, t) => Some(CS.Or(contentType, CS.Or(Some(t), "application/octet-stream")))
    case FileContent(_, t, _) => Some(CS.Or(contentType, CS.Or(Some(t), "application/octet-stream")))
    case _ => None
  }

  /**
   * What handling a SEND did to the session's receivers, the one it dealt
   * with being filed under `mid`.
   */
  predicate Refiled(before: map<string, CR.ChunkReceiver>, after: map<string, CR.ChunkReceiver>, f: Delivery.Filing, mid: string)
  {
    match f
    case Untouched => after == before
    case Filed(_) => mid in after && after == before[mid := after[mid]]
    case Updated(_) => mid in after && after == before
    case Dropped(last) => (last.Some? ==> mid in before) && after == before - {mid}
  }

  /** The messages handed to the WebSocket, in order. */
  function Sent(ms: seq<Msg>): (fx: seq<ConEffect>)
    ensures |fx| == |ms| && forall i :: 0 <= i < |ms| ==> fx[i] == WsSend(ms[i])
  {
    if ms == [] then [] else [WsSend(ms[0])] + Sent(ms[1..])
  }

  /** A handled SEND is followed by a success REPORT: it went through and asked for one. */
  predicate Reported(req: Msg, h: Delivery.Handling)
  {
    Delivery.Succeeded(h) && Delivery.WantsReport(req)
  }

  /** Lines 911-913: the receivers a sweep at `now` finds idle for longer than `timeout`. */
  function Expired(states: map<string, CR.Receiver>, now: int, timeout: int): set<string>
  {
    set k | k in states && Delivery.Idle(states[k], now, timeout)
  }

  /** The `onMessageReceiveTimeout` callbacks for the receivers `order`, in that order. */
  function Timeouts(order: seq<string>, states: map<string, CR.Receiver>): (evs: seq<Notify.Event>)
    requires forall k :: k in order ==> k in states
    ensures |evs| == |order|
    decreases |order|
  {
    if order == [] then []
    else
      var n := |order| - 1;
      Timeouts(order[..n], states) + [Notify.MessageReceiveTimeout(order[n], states[order[n]].blob)]
  }

  /** The `i`th callback is the timeout of the `i`th receiver, with the bytes it had stored. */
  lemma {:induction false} TimeoutsAt(order: seq<string>, states: map<string, CR.Receiver>, i: int)
    requires forall k :: k in order ==> k in states
    requires 0 <= i < |order|
    ensures Timeouts(order, states)[i] == Notify.MessageReceiveTimeout(order[i], states[order[i]].blob)
    decreases |order|
  {
    var n := |order| - 1;
    if i < n {
      TimeoutsAt(order[..n], states, i);
    }
  }

  /** One more expired receiver adds its callback at the end. */
  lemma TimeoutsSnoc(order: seq<string>, states: map<string, CR.Receiver>, k: string)
    requires forall j :: j in order ==> j in states
    requires k in states
    ensures Timeouts(order + [k], states) == Timeouts(order, states) + [Notify.MessageReceiveTimeout(k, states[k].blob)]
  {
    assert (order + [k])[..|order|] == order;
  }

  /**
   * Where a receiver sweep stands once it has expired the ids `done`, `m0`
   * and `s0` being the receivers and their states when it began: `cur`,
   * the receivers now filed, has lost exactly those ids, and `order` lists
   * them once each.
   */
  ghost predicate Forgot(m0: map<string, CR.ChunkReceiver>, cur: map<string, CR.ChunkReceiver>, s0: map<string, CR.Receiver>,
                         done: set<string>, order: seq<string>)
  {
    && m0.Keys == s0.Keys && done <= m0.Keys
    && cur == m0 - done
    && (forall k :: k in order <==> k in done)
    && Distinct(order)
  }

  /** The receivers filed under the ids `done` are aborted; no receiver has changed otherwise. */
  ghost predicate Aborts(m0: map<string, CR.ChunkReceiver>, s0: map<string, CR.Receiver>, done: set<string>)
    reads m0.Values
  {
    forall k :: k in m0 && k in s0 ==> m0[k].State() == s0[k].(aborted := s0[k].aborted || m0[k] in Hit(m0, done))
  }

  /** Visiting the id `k` moves it out of the ids left and, when it expires, into those expired. */
  lemma Visited(gone: set<string>, keys: set<string>, done: set<string>, k: string)
    requires done == gone - keys && k in keys
    ensures (if k in gone then done + {k} else done) == gone - (keys - {k})
  {
  }

  lemma Emptied(gone: set<string>, keys: set<string>, done: set<string>)
    requires keys == {} && done == gone - keys
    ensures done == gone
  {
  }

  lemma Shrinks(keys: set<string>, k: string)
    requires k in keys
    ensures |keys - {k}| < |keys|
  {
  }

  /**
   * A receiver sweep that has the ids `keys` left to visit, of those
   * filed when it began (`m0`, in the states `s0`), has forgotten and
   * aborted the expired ids `done` it visited, listed them in `order` and
   * told the application of each after the callbacks `e0`.
   */
  ghost predicate Sweeping(m0: map<string, CR.ChunkReceiver>, cur: map<string, CR.ChunkReceiver>, s0: map<string, CR.Receiver>,
                           gone: set<string>, keys: set<string>, done: set<string>, order: seq<string>,
                           e0: seq<Notify.Event>, evs: seq<Notify.Event>)
    reads m0.Values
  {
    && keys <= m0.Keys && done == gone - keys
    && Forgot(m0, cur, s0, done, order) && Aborts(m0, s0, done)
    && evs == e0 + Timeouts(order, s0)
  }

  lemma Appended<T>(a: seq<T>, b: seq<T>, x: T)
    ensures (a + b) + [x] == a + (b + [x])
  {
  }

  lemma Removed(m: map<string, CR.ChunkReceiver>, done: set<string>, k: string)
    ensures (m - done) - {k} == m - (done + {k})
  {
  }

  /** No id occurs twice. */
  predicate Distinct(order: seq<string>)
  {
    forall i, j :: 0 <= i < j < |order| ==> order[i] != order[j]
  }

  lemma DistinctSnoc(order: seq<string>, k: string)
    requires Distinct(order) && k !in order
    ensures Distinct(order + [k])
  {
  }

  /** The receiver objects filed under the ids `ks`. */
  function Hit(m: map<string, CR.ChunkReceiver>, ks: set<string>): set<CR.ChunkReceiver>
  {
    set j | j in ks && j in m :: m[j]
  }

  /** Expiring one more id adds its receiver to those hit. */
  lemma HitGrows(m: map<string, CR.ChunkReceiver>, ks: set<string>, k: string)
    requires k in m
    ensures Hit(m, ks + {k}) == Hit(m, ks) + {m[k]}
  {
  }

  /**
   * Lines 238-247: what the first sender of a session carries once the far
   * end is known: the session's file, or nothing at all (an empty SEND).
   */
  function FirstSend(file: Option<FileSend>): FileSend
  {
    file.GetOr(FileSend(CS.NoContent, None, None, None))
  }

  /** The accept-wrapped-types a usable media line states, or none. */
  function WrappedTypes(m: Sdp.Media): seq<string>
  {
    if Stated(m, "accept-wrapped-types") then Listed(m, "accept-wrapped-types") else []
  }

  /** Lines 219-225: the `for-in` over the answer's media lines, stopping at the first usable one. */
  method Search(ms: seq<Sdp.Media>) returns (r: Option<nat>)
    ensures r == FirstUsable(ms)
  {
    var i := 0;
    while i < |ms| && !Offered(ms[i])
      invariant 0 <= i <= |ms|
      invariant forall j :: 0 <= j < i ==> !Offered(ms[j])
    {
      i := i + 1;
    }
    if i == |ms| {
      return None;
    }
    return Some(i);
  }

  /** A truthy message id: given and not empty. */
  predicate Named(id: Option<string>)
  {
    id.Some? && id.value != ""
  }

  /** Lines 417-419: `abort()` on every sender of `m`, in the order the `for-in` visits them. */
  method AbortSenders(m: map<string, CS.ChunkSender>)
    modifies m.Values
    ensures forall k :: k in m ==> m[k].State() == old(m[k].State()).(aborted := true)
  {
    ghost var s0 := map k | k in m :: m[k].State();
    var keys := m.Keys;
    while keys != {}
      invariant keys <= m.Keys
      invariant SendersFlagged(m, s0)
      invariant forall k :: k in m && k !in keys ==> m[k].aborted
      decreases |keys|
    {
      var k :| k in keys;
      Shrinks(keys, k);
      AbortSender(m, k, s0);
      keys := keys - {k};
    }
  }

  /** The senders of `m` have changed from the states `s0` in their `aborted` flags at most. */
  ghost predicate SendersFlagged(m: map<string, CS.ChunkSender>, s0: map<string, CS.Sender>)
    reads m.Values
  {
    forall k :: k in m ==> k in s0 && m[k].State() == s0[k].(aborted := m[k].aborted)
  }

  /** One turn of the loop: the one under `k` is aborted. */
  method AbortSender(m: map<string, CS.ChunkSender>, k: string, ghost s0: map<string, CS.Sender>)
    requires k in m && SendersFlagged(m, s0)
    modifies m[k]
    ensures SendersFlagged(m, s0) && m[k].aborted
    ensures forall j :: j in m && old(m[j].aborted) ==> m[j].aborted
  {
    m[k].Abort();
  }

  /** Lines 396-398: `abort()` on every receiver of `m`, in the order the `for-in` visits them. */
  method AbortReceivers(m: map<string, CR.ChunkReceiver>)
    modifies m.Values
    ensures forall k :: k in m ==> m[k].State() == old(m[k].State()).(aborted := true)
  {
    ghost var s0 := map k | k in m :: m[k].State();
    var keys := m.Keys;
    while keys != {}
      invariant keys <= m.Keys
      invariant ReceiversFlagged(m, s0)
      invariant forall k :: k in m && k !in keys ==> m[k].aborted
      decreases |keys|
    {
      var k :| k in keys;
      Shrinks(keys, k);
      AbortReceiver(m, k, s0);
      keys := keys - {k};
    }
  }

  /** The receivers of `m` have changed from the states `s0` in their `aborted` flags at most. */
  ghost predicate ReceiversFlagged(m: map<string, CR.ChunkReceiver>, s0: map<string, CR.Receiver>)
    reads m.Values
  {
    forall k :: k in m ==> k in s0 && m[k].State() == s0[k].(aborted := m[k].aborted)
  }

  /** One turn of the loop: the one under `k` is aborted. */
  method AbortReceiver(m: map<string, CR.ChunkReceiver>, k: string, ghost s0: map<string, CR.Receiver>)
    requires k in m && ReceiversFlagged(m, s0)
    modifies m[k]
    ensures ReceiversFlagged(m, s0) && m[k].aborted
    ensures forall j :: j in m && old(m[j].aborted) ==> m[j].aborted
  {
    m[k].Abort();
  }

  // ---------------------------------------------------------------------
  // the session

  /** Every field but the constants, as a value. */
  datatype Snapshot = Snapshot(
    used: nat,
    file: Option<FileSend>,
    auth: Auth,
    acceptTypes: seq<string>,
    acceptWrappedTypes: seq<string>,
    receivers: map<string, CR.ChunkReceiver>,
    senders: map<string, CS.ChunkSender>,
    receiverCheck: bool,
    events: seq<Notify.Event>)

  class Session {
    const sessionId: string
    const localUri: Uris.UriFields
    /** The To-Path and the local URI's text, which the session's senders read. */
    const endpoint: CS.Endpoint
    const config: Cfg.ConnectionConfig
    const ids: nat -> string
    const sdpSessId: int
    var used: nat
    var file: Option<FileSend>
    var state: State
    var established: bool
    var relayPath: seq<string>
    var farEndPath: seq<string>
    /** A re-authentication timer is running. */
    var authTimer: bool
    var sdpSessVer: int
    var acceptTypes: seq<string>
    var acceptWrappedTypes: seq<string>
    var chunkReceivers: map<string, CR.ChunkReceiver>
    var chunkSenders: map<string, CS.ChunkSender>
    /** The receiver sweep (`receiverCheckInterval`) is running. */
    var receiverCheck: bool
    var events: seq<Notify.Event>

    function AuthPart(): Auth
      reads this
    {
      Auth(state, established, relayPath, farEndPath, authTimer, sdpSessVer)
    }

    function Snap(): Snapshot
      reads this
    {
      Snapshot(used, file, AuthPart(), acceptTypes, acceptWrappedTypes, chunkReceivers, chunkSenders, receiverCheck, events)
    }

    function Context(): Env
    {
      Env(sessionId, endpoint.localUri, config.relayMsrpUri, ids)
    }

    function AuthView(fx: seq<ConEffect>): Authing
      reads this, config
    {
      Authing(AuthPart(), used, events, config.authExpires, fx)
    }

    /** The SDP calls (`getSdpOffer`, `getSdpAnswer`, `processSdpAnswer`) return null outside these states. */
    predicate SdpReady()
      reads this
    {
      state == AwaitSdp || state == Established
    }

    /** `new Session(con, sessionId, localUri, eventObj)` at the clock reading `now`. */
    constructor (sessionId: string, localUri: Uris.UriFields, config: Cfg.ConnectionConfig, ids: nat -> string, now: int)
      ensures this.sessionId == sessionId && this.localUri == localUri && this.config == config && this.ids == ids
      ensures fresh(endpoint) && endpoint.toPath == [] && endpoint.localUri == Uris.Format(localUri)
      ensures sdpSessId == Util.DateToNtpTime(now)
      ensures Snap() == Snapshot(0, None, Auth(AwaitConnect, false, [], [], false, sdpSessId), [], [], map[], map[], false, [])
    {
      this.sessionId := sessionId;
      this.localUri := localUri;
      this.config := config;
      this.ids := ids;
      endpoint := new CS.Endpoint(Uris.Format(localUri));
      sdpSessId := Util.DateToNtpTime(now);
      sdpSessVer := Util.DateToNtpTime(now);
      used := 0;
      file := None;
      state := AwaitConnect;
      established := false;
      relayPath := [];
      farEndPath := [];
      authTimer := false;
      acceptTypes := [];
      acceptWrappedTypes := [];
      chunkReceivers := map[];
      chunkSenders := map[];
      receiverCheck := false;
      events := [];
    }

    /** `createFileTransferSession` sets the file and its parameters. */
    method SetFile(f: FileSend)
      modifies this
      ensures Snap() == old(Snap()).(file := Some(f))
    {
      file := Some(f);
    }

    /** `initAuth(session)` */
    method InitAuth()
      modifies this
      ensures AuthPart() == old(AuthPart()).(authTimer := false, relayPath := [], farEndPath := [])
      ensures Snap() == old(Snap()).(auth := AuthPart())
    {
      authTimer := false;
      relayPath := [];
      farEndPath := [];
    }

    /**
     * `changeState(session, st)`. Entering ESTABLISHED is meant to resume
     * the session's senders after a reconnection, but the resume loop reads
     * `this.chunkSenders` inside a plain function, where `this` is not the
     * session, and never runs: the senders are left as they are, which the
     * frame of this method states.
     */
    method ChangeState(st: State, now: int) returns (fx: seq<ConEffect>)
      modifies this
      ensures Snap() == old(Snap()).(auth := Entered(old(AuthPart()), st, now), events := old(events) + EnteredEvents(st))
      ensures fx == EnteredEffects(st, sessionId)
    {
      state := st;
      fx := [];
      match st {
        case AwaitSdp =>
          sdpSessVer := Util.DateToNtpTime(now);
          events := events + [Notify.Authenticated];
        case Established =>
          established := true;
        case AwaitChallenge =>
        case AwaitAuthRes =>
        case AwaitConnect =>
          Reset();
        case AuthFailed =>
          Reset();
          events := events + [Notify.AuthFailed];
          fx := [RemoveSession(sessionId)];
        case Error =>
          Reset();
          events := events + [Notify.Error];
          fx := [RemoveSession(sessionId)];
        case Closed =>
          Reset();
          fx := [RemoveSession(sessionId)];
      }
    }

    /** What AWAIT_CONNECT, AUTH_FAILED, ERROR and CLOSED have in common: not established, `initAuth`. */
    method Reset()
      modifies this
      ensures Snap() == old(Snap()).(auth := old(AuthPart()).(established := false, authTimer := false, relayPath := [], farEndPath := []))
      ensures state == old(state)
    {
      established := false;
      InitAuth();
    }

    /** Lines 808-814: tries the challenges in order until one yields a truthy authorisation. */
    method Authorise(cs: seq<Assoc.Assoc<string, string>>, digest: Digest) returns (a: Option<string>)
      ensures a == Tried(cs, digest, None)
    {
      a := None;
      var i := 0;
      while i < |cs|
        invariant 0 <= i <= |cs|
        invariant Tried(cs[i..], digest, a) == Tried(cs, digest, None)
      {
        assert cs[i..][1..] == cs[i + 1..];
        a := digest(cs[i]);
        if Usable(a) {
          return;
        }
        i := i + 1;
      }
    }

    /** `sendAuth(session, resp)` */
    method SendAuth(resp: Option<Msg>, digest: Digest, now: int) returns (fx: seq<ConEffect>)
      modifies this
      ensures AuthView(fx) == AuthSent(old(AuthView([])), resp, digest, now, Context())
      ensures Snap() == old(Snap()).(used := used, auth := AuthPart(), events := events)
    {
      // the request, and with it its transaction id, is made before anything is decided
      var tid := ids(used);
      used := used + 1;
      var st, a := Decide(resp, digest);
      fx := ChangeState(st, now);
      if st != Error {
        var authReq := MakeAuthRequest(tid, a);
        fx := fx + [WsSend(authReq)];
      }
    }

    /**
     * Lines 797-830: the AUTH request, made as an `OutgoingRequest` whose
     * To-Path is then replaced by the relay's URI, with the Authorization
     * and Expires headers added through `addHeader`.
     */
    method MakeAuthRequest(tid: string, a: Option<string>) returns (authReq: Msg)
      ensures authReq == AuthRequest(config.relayMsrpUri, endpoint.localUri, tid, a, config.authExpires)
      ensures authReq.headers == AuthHeaders(a, config.authExpires)
    {
      authReq := OutgoingRequest(endpoint.toPath, endpoint.localUri, "AUTH", tid);
      authReq := authReq.(toPath := [config.relayMsrpUri]);
      if a.Some? {
        authReq := AddAuthorisation(authReq, a.value);
      }
      if Expiring(config.authExpires) {
        var v := JsString.IntToString(config.authExpires.value);
        assert Assoc.Get(authReq.headers, "Expires").None?;
        authReq := AddExpires(authReq, v);
      }
    }

    /** Lines 797-815: how the challenge, if any, is answered. */
    method Decide(resp: Option<Msg>, digest: Digest) returns (st: State, a: Option<string>)
      ensures (st, a) == AuthStep(resp, digest)
    {
      if resp.None? {
        return AwaitChallenge, None;
      }
      if resp.value.authenticate.None? {
        return Error, None;
      }
      a := Authorise(resp.value.authenticate.value, digest);
      if Usable(a) {
        st := AwaitAuthRes;
      } else {
        st, a := Error, None;
      }
    }

    /** `processAuthRes(session, resp)` */
    method ProcessAuthRes(resp: Msg, now: int) returns (fx: seq<ConEffect>)
      modifies this
      ensures AuthView(fx) == AuthResProcessed(old(AuthView([])), resp, now, Context())
      ensures Snap() == old(Snap()).(auth := AuthPart(), events := events)
    {
      if resp.usePath.None? {
        fx := ChangeState(Error, now);
        return;
      }
      relayPath := resp.usePath.value;
      authTimer := true;
      fx := ChangeState(AwaitSdp, now);
    }

    /** The re-authentication timer fires: the auth state is reset and a bare AUTH is sent. */
    method AuthTimerFired(digest: Digest, now: int) returns (fx: seq<ConEffect>)
      modifies this
      ensures AuthView(fx) == AuthSent(old(AuthView([])).(auth := old(AuthPart()).(authTimer := false, relayPath := [], farEndPath := [])),
                                      None, digest, now, Context())
      ensures Snap() == old(Snap()).(used := used, auth := AuthPart(), events := events)
    {
      InitAuth();
      fx := SendAuth(None, digest, now);
    }

    /** `onWsConnect()`: authentication starts with a bare AUTH. */
    method OnWsConnect(digest: Digest, now: int) returns (fx: seq<ConEffect>)
      modifies this
      ensures AuthView(fx) == AuthSent(old(AuthView([])), None, digest, now, Context())
      ensures Snap() == old(Snap()).(used := used, auth := AuthPart(), events := events)
    {
      fx := SendAuth(None, digest, now);
    }

    /** `onWsError()`: the session waits for a new connection. */
    method OnWsError(now: int) returns (fx: seq<ConEffect>)
      modifies this
      ensures Snap() == old(Snap()).(auth := Entered(old(AuthPart()), AwaitConnect, now))
      ensures fx == []
    {
      fx := ChangeState(AwaitConnect, now);
    }

    /** Lines 633-656: the response to the session's AUTH request. */
    method OnAuthResponse(resp: Msg, digest: Digest, now: int) returns (fx: seq<ConEffect>)
      modifies this, config
      ensures AuthView(fx) == AuthAnswered(old(AuthView([])), resp, digest, now, Context())
      ensures Snap() == old(Snap()).(used := used, auth := AuthPart(), events := events)
    {
      if resp.status == Some(Status.UNAUTHORIZED) {
        if state == AwaitAuthRes {
          fx := ChangeState(AuthFailed, now);
        } else {
          fx := SendAuth(Some(resp), digest, now);
        }
      } else if resp.status == Some(Status.OK) {
        fx := ProcessAuthRes(resp, now);
      } else if resp.status == Some(Status.INTERVAL_OUT_OF_BOUNDS) {
        config.SetAuthExpires(resp.expires);
        fx := SendAuth(None, digest, now);
      } else {
        fx := ChangeState(AuthFailed, now);
      }
    }

    /**
     * Lines 659-695: the response to a SEND the session sent, cut by
     * `sender`. Without a Message-ID nothing happens. A 200 notifies the
     * application; any other status aborts the sender as aborted by the far
     * end, forgets it and reports the failure. The sender stays in the
     * connection's queue, which sends its abort chunk.
     */
    method OnSendResponse(resp: Msg, request: Msg, sender: CS.ChunkSender)
      modifies this, sender
      ensures var key := Delivery.SentId(request);
        && (key.None? || resp.status == Some(Status.OK) ==> sender.State() == old(sender.State()))
        && (key.None? ==> Snap() == old(Snap()))
        && (key.Some? && resp.status == Some(Status.OK) ==>
              Snap() == old(Snap()).(events := old(events) + SentEvents(key.value, old(sender.aborted), request)))
        && (key.Some? && resp.status != Some(Status.OK) ==>
              && sender.State() == old(sender.State()).(aborted := true, remoteAbort := true)
              && Snap() == old(Snap()).(senders := old(chunkSenders) - {key.value},
                   events := old(events) + [Notify.MessageSendFailed(key.value, resp.status, resp.comment)]))
    {
      var key := Delivery.SentId(request);
      if key.None? {
        return;
      }
      var mid := key.value;
      if resp.status == Some(Status.OK) {
        events := events + SentEvents(mid, sender.aborted, request);
      } else {
        SendFailed(mid, resp, sender);
      }
    }

    /** Lines 684-694: a SEND refused by the far end. */
    method SendFailed(mid: string, resp: Msg, sender: CS.ChunkSender)
      modifies this, sender
      ensures sender.State() == old(sender.State()).(aborted := true, remoteAbort := true)
      ensures Snap() == old(Snap()).(senders := old(chunkSenders) - {mid},
                events := old(events) + [Notify.MessageSendFailed(mid, resp.status, resp.comment)])
    {
      sender.Abort();
      sender.MarkRemoteAbort();
      chunkSenders := chunkSenders - {mid};
      events := events + [Notify.MessageSendFailed(mid, resp.status, resp.comment)];
    }

    /**
     * `onIncomingResponse(resp)` for a response to `request`; `sender` is
     * the chunk sender a SEND request carries. The connection only tracks
     * the AUTH and SEND requests a session sends (REPORTs get no
     * response), and every SEND is cut by a sender.
     */
    method OnIncomingResponse(resp: Msg, request: Msg, sender: Option<CS.ChunkSender>, digest: Digest, now: int)
      returns (fx: seq<ConEffect>)
      requires request.kind == Request("AUTH") || sender.Some?
      modifies this, config, if sender.Some? then {sender.value} else {}
      ensures request.kind == Request("AUTH") ==>
                AuthView(fx) == AuthAnswered(old(AuthView([])), resp, digest, now, Context())
                && Snap() == old(Snap()).(used := used, auth := AuthPart(), events := events)
      ensures request.kind != Request("AUTH") ==> fx == [] && config.authExpires == old(config.authExpires)
    {
      fx := [];
      if request.kind == Request("AUTH") {
        fx := OnAuthResponse(resp, digest, now);
        return;
      }
      OnSendResponse(resp, request, sender.value);
    }

    /**
     * `makeTimeoutHandler(session, mid)`: a sender's report timer expired;
     * the sender is forgotten and the application told of a 408.
     */
    method ReportTimeout(mid: string)
      modifies this
      ensures Snap() == old(Snap()).(senders := old(chunkSenders) - {mid},
        events := old(events) + [Notify.MessageSendFailed(mid, Some(Status.REQUEST_TIMEOUT), Some("Report Timeout"))])
    {
      chunkSenders := chunkSenders - {mid};
      events := events + [Notify.MessageSendFailed(mid, Some(Status.REQUEST_TIMEOUT), Some("Report Timeout"))];
    }
  
    // -------------------------------------------------------------------
    // incoming SEND requests

    /** The receiver filed under the request's Message-ID, the one object a SEND may change. */
    function Touched(req: Msg): set<object>
      reads this
    {
      if req.messageId.Some? && req.messageId.value in chunkReceivers then {chunkReceivers[req.messageId.value]} else {}
    }

    /** The state of the receiver filed under the request's Message-ID, when it has one. */
    function FiledUnder(req: Msg): Option<CR.Receiver>
      reads this, Touched(req)
    {
      if Delivery.HasId(req) && req.messageId.value in chunkReceivers
      then Some(chunkReceivers[req.messageId.value].State())
      else None
    }

    /**
     * `onIncomingSend(req)` (lines 444-582) with the application's verdicts
     * `app` at the clock reading `now`: the request is handled as
     * `Delivery.Handle` decides for a session through the relay, `ids(used)`
     * being the Message-ID drawn for a message in one chunk without one;
     * the wanted response goes out and, after a 200, the success REPORT
     * asked for, with the next transaction id.
     */
    method OnIncomingSend(req: Msg, app: Notify.Event -> Notify.Verdict, now: int) returns (fx: seq<ConEffect>)
      requires req.kind == Request("SEND") && req.responseOn.Some?
      modifies this, Touched(req)
      ensures var h := Delivery.Handle(Delivery.Relayed, req, old(FiledUnder(req)), app, now, config.recvBuffer, ids(old(used)));
        var mid := req.messageId.GetOr("");
        var tid := old(used) + if h.drawn then 1 else 0;
        && Refiled(old(chunkReceivers), chunkReceivers, h.filing, mid)
        && (h.filing.Filed? ==> fresh(chunkReceivers[mid]) && chunkReceivers[mid].State() == h.filing.r)
        && (h.filing.Updated? ==> chunkReceivers[mid].State() == h.filing.r)
        && (h.filing.Dropped? && h.filing.last.Some? ==> old(chunkReceivers)[mid].State() == h.filing.last.value)
        && Snap() == old(Snap()).(used := tid + (if Reported(req, h) then 1 else 0), receivers := chunkReceivers,
             receiverCheck := old(receiverCheck) || h.sweep, events := old(events) + h.events)
        && fx == Sent(Replies.Responses(req, endpoint.localUri, h.answers))
             + (if Reported(req, h) then [WsSend(Replies.ReportFor(req, endpoint.toPath, endpoint.localUri, ids(tid)).value)] else [])
    {
      ghost var h := Delivery.Handle(Delivery.Relayed, req, FiledUnder(req), app, now, config.recvBuffer, ids(used));
      var answers := Receive(req, app, now);
      assert answers == h.answers && (Reported(req, h) <==> answers == [Status.OK] && Delivery.WantsReport(req));
      ghost var tid := used;
      fx := Respond(req, answers);
      assert fx == Sent(Replies.Responses(req, endpoint.localUri, h.answers))
        + (if Reported(req, h) then [WsSend(Replies.ReportFor(req, endpoint.toPath, endpoint.localUri, ids(tid)).value)] else []);
    }

    /**
     * Lines 576-581: the responses for the statuses answered and, after a
     * lone 200, the success REPORT when the request asks for one.
     */
    method Respond(req: Msg, answers: seq<int>) returns (fx: seq<ConEffect>)
      requires req.kind.Request? && req.responseOn.Some?
      requires answers == [Status.OK] ==> req.byteRange.Some?
      modifies this
      ensures var report := answers == [Status.OK] && Delivery.WantsReport(req);
        && fx == Sent(Replies.Responses(req, endpoint.localUri, answers))
             + (if report then [WsSend(Replies.ReportFor(req, endpoint.toPath, endpoint.localUri, ids(old(used))).value)] else [])
        && Snap() == old(Snap()).(used := old(used) + if report then 1 else 0)
    {
      fx := Sent(Replies.Responses(req, endpoint.localUri, answers));
      if answers == [Status.OK] && Delivery.WantsReport(req) {
        var tid := ids(used);
        used := used + 1;
        fx := fx + [WsSend(Replies.ReportFor(req, endpoint.toPath, endpoint.localUri, tid).value)];
      }
    }

    /** The handling of a SEND up to its answers, as `Delivery.Handle` decides. */
    method Receive(req: Msg, app: Notify.Event -> Notify.Verdict, now: int) returns (answers: seq<int>)
      modifies this, Touched(req)
      ensures var h := Delivery.Handle(Delivery.Relayed, req, old(FiledUnder(req)), app, now, config.recvBuffer, ids(old(used)));
        var mid := req.messageId.GetOr("");
        && answers == h.answers
        && Refiled(old(chunkReceivers), chunkReceivers, h.filing, mid)
        && (h.filing.Filed? ==> fresh(chunkReceivers[mid]) && chunkReceivers[mid].State() == h.filing.r)
        && (h.filing.Updated? ==> chunkReceivers[mid].State() == h.filing.r)
        && (h.filing.Dropped? && h.filing.last.Some? ==> old(chunkReceivers)[mid].State() == h.filing.last.value)
        && Snap() == old(Snap()).(used := old(used) + (if h.drawn then 1 else 0), receivers := chunkReceivers,
             receiverCheck := old(receiverCheck) || h.sweep, events := old(events) + h.events)
    {
      match Delivery.ArrivalOf(req) {
        case Unranged =>
          // reading `req.byteRange.start` throws a TypeError
          answers := [Status.INTERNAL_SERVER_ERROR];
        case Whole =>
          answers := ReceiveWhole(req, app, now);
        case Opening =>
          answers := ReceiveOpening(req, app, now);
        case Later =>
          answers := ReceiveLater(req, app, now);
      }
    }

    /** Lines 449-485: a message in one chunk. */
    method ReceiveWhole(req: Msg, app: Notify.Event -> Notify.Verdict, now: int) returns (answers: seq<int>)
      requires Delivery.ArrivalOf(req) == Delivery.Whole
      modifies this
      ensures var h := Delivery.Handle(Delivery.Relayed, req, old(FiledUnder(req)), app, now, config.recvBuffer, ids(old(used)));
        && answers == h.answers
        && Snap() == old(Snap()).(used := old(used) + (if h.drawn then 1 else 0), events := old(events) + h.events)
    {
      if !Delivery.HasBody(req) {
        answers := [Status.OK];
        return;
      }
      var mid: string;
      if Delivery.HasId(req) {
        mid := req.messageId.value;
      } else {
        mid := ids(used);
        used := used + 1;
      }
      var size := req.byteRange.value.total;
      var evs: seq<Notify.Event>;
      if CR.IsFile(req.disposition) {
        // a file is always delivered as a blob
        var receiver := new CR.ChunkReceiver(req, config.recvBuffer, now);
        var description := Delivery.Description(req);
        var filename := Assoc.Get(req.disposition.value.params, "filename");
        evs := [Notify.FirstChunkReceived(mid, req.contentType, filename, size, description),
                Notify.ChunkReceived(mid, receiver.receivedBytes),
                Notify.BlobReceived(mid, receiver.blob)];
      } else {
        evs := [Notify.FirstChunkReceived(mid, req.contentType, None, size, NoHeader),
                Notify.ChunkReceived(mid, size),
                Notify.MessageReceived(mid, req.contentType, req.body)];
      }
      var v;
      events, v := Delivery.Call(events, evs, app);
      answers := [Delivery.Settled(v)];
    }

    /** Lines 494-521: the first chunk of several. */
    method ReceiveOpening(req: Msg, app: Notify.Event -> Notify.Verdict, now: int) returns (answers: seq<int>)
      requires Delivery.ArrivalOf(req) == Delivery.Opening
      modifies this
      ensures var h := Delivery.Handle(Delivery.Relayed, req, old(FiledUnder(req)), app, now, config.recvBuffer, ids(old(used)));
        var mid := req.messageId.GetOr("");
        && answers == h.answers
        && Refiled(old(chunkReceivers), chunkReceivers, h.filing, mid)
        && (h.filing.Filed? ==> fresh(chunkReceivers[mid]) && chunkReceivers[mid].State() == h.filing.r)
        && Snap() == old(Snap()).(receivers := chunkReceivers, receiverCheck := old(receiverCheck) || h.sweep,
             events := old(events) + h.events)
    {
      if !Delivery.HasId(req) {
        answers := [Status.BAD_REQUEST];
        return;
      }
      var mid := req.messageId.value;
      var receiver := new CR.ChunkReceiver(req, config.recvBuffer, now);
      if req.disposition.None? {
        // reading `req.contentDisposition.param` throws a TypeError
        answers := [Status.INTERNAL_SERVER_ERROR];
        return;
      }
      answers := Open(mid, receiver, Delivery.OpeningEvent(req, mid), app);
    }

    /**
     * Lines 504-521: the first callback `e` for a first chunk whose new
     * receiver is `receiver`; the receiver is filed, and the sweep started,
     * only once the application accepts it.
     */
    method Open(mid: string, receiver: CR.ChunkReceiver, e: Notify.Event, app: Notify.Event -> Notify.Verdict)
      returns (answers: seq<int>)
      modifies this
      ensures var h := Delivery.Opened(e, app, mid, receiver.State());
        && answers == h.answers
        && Refiled(old(chunkReceivers), chunkReceivers, h.filing, mid)
        && (h.filing.Filed? ==> chunkReceivers[mid] == receiver)
        && Snap() == old(Snap()).(receivers := chunkReceivers, receiverCheck := old(receiverCheck) || h.sweep,
             events := old(events) + h.events)
    {
      events := events + [e];
      if app(e) != Notify.Accept {
        answers := [Delivery.Caught(app(e))];
        return;
      }
      chunkReceivers := chunkReceivers[mid := receiver];
      receiverCheck := true;
      answers := Finish(mid, receiver, app);
    }

    /** Lines 522-563: a later chunk, for the receiver filed under its Message-ID. */
    method ReceiveLater(req: Msg, app: Notify.Event -> Notify.Verdict, now: int) returns (answers: seq<int>)
      requires Delivery.ArrivalOf(req) == Delivery.Later
      modifies this, Touched(req)
      ensures var h := Delivery.Handle(Delivery.Relayed, req, old(FiledUnder(req)), app, now, config.recvBuffer, ids(old(used)));
        var mid := req.messageId.GetOr("");
        && answers == h.answers
        && Refiled(old(chunkReceivers), chunkReceivers, h.filing, mid)
        && (h.filing.Updated? ==> chunkReceivers[mid].State() == h.filing.r)
        && (h.filing.Dropped? && h.filing.last.Some? ==> old(chunkReceivers)[mid].State() == h.filing.last.value)
        && Snap() == old(Snap()).(receivers := chunkReceivers, events := old(events) + h.events)
    {
      if !Delivery.HasId(req) {
        answers := [Status.BAD_REQUEST];
        return;
      }
      var mid := req.messageId.value;
      if mid !in chunkReceivers {
        answers := [Status.STOP_SENDING];
        return;
      }
      var receiver := chunkReceivers[mid];
      var ok := receiver.ProcessChunk(req, now);
      if !ok {
        chunkReceivers := chunkReceivers - {mid};
        answers := [Status.STOP_SENDING];
        // an exception from this callback is swallowed
        events := events + [Notify.MessageReceiveAborted(mid, receiver.blob)];
        return;
      }
      answers := Finish(mid, receiver, app);
    }

    /**
     * Lines 566-569: the receiver filed under `mid` took its chunk; once
     * complete it is removed and the message delivered, otherwise the
     * progress is reported.
     */
    method Finish(mid: string, receiver: CR.ChunkReceiver, app: Notify.Event -> Notify.Verdict) returns (answers: seq<int>)
      requires mid in chunkReceivers && chunkReceivers[mid] == receiver
      modifies this
      ensures var e := Delivery.LaterEvent(mid, receiver.State());
        && answers == [Delivery.Settled(app(e))]
        && Snap() == old(Snap()).(receivers := if CR.Complete(receiver.State()) then old(chunkReceivers) - {mid} else old(chunkReceivers),
             events := old(events) + [e])
    {
      var done := receiver.IsComplete();
      var e;
      if done {
        chunkReceivers := chunkReceivers - {mid};
        e := Notify.BlobReceived(mid, receiver.blob);
      } else {
        e := Notify.ChunkReceived(mid, receiver.receivedBytes);
      }
      events := events + [e];
      answers := [Delivery.Settled(app(e))];
    }

    // -------------------------------------------------------------------
    // incoming REPORT requests

    /** The sender filed under the report's Message-ID, the one object a REPORT may change. */
    function Reporting(report: Msg): set<object>
      reads this
    {
      if report.messageId.Some? && report.messageId.value in chunkSenders then {chunkSenders[report.messageId.value]} else {}
    }

    /**
     * `onIncomingReport(report)` (lines 584-627): a report for a message
     * the session is not sending is ignored. Otherwise the sender takes it
     * and, once complete, is forgotten and the application is told as
     * `ReportEvents` says.
     */
    method OnIncomingReport(report: Msg)
      requires report.byteRange.Some?
      modifies this, Reporting(report)
      ensures var mid := report.messageId.GetOr("");
        mid == "" || mid !in old(chunkSenders) ==> Snap() == old(Snap())
      ensures var mid := report.messageId.GetOr("");
        mid != "" && mid in old(chunkSenders) ==>
          var t := CS.Report(old(chunkSenders[mid].State()), report);
          && old(chunkSenders)[mid].State() == t
          && Snap() == old(Snap()).(senders := if CS.Complete(t) then old(chunkSenders) - {mid} else old(chunkSenders),
               events := old(events) + ReportEvents(mid, t, report))
    {
      if report.messageId.None? || report.messageId.value == "" {
        return;
      }
      var mid := report.messageId.value;
      if mid !in chunkSenders {
        return;
      }
      var sender := chunkSenders[mid];
      sender.ProcessReport(report);
      var done := sender.IsComplete();
      if !done {
        return;
      }
      chunkSenders := chunkSenders - {mid};
      if sender.aborted && !sender.remoteAbort {
        return;
      }
      if report.status == Some(Status.OK) {
        events := events + [Notify.MessageDelivered(mid)];
      } else {
        events := events + [Notify.MessageSendFailed(mid, report.status, report.comment)];
      }
    }

    // -------------------------------------------------------------------
    // the receiver sweep

    /** Every filed receiver's fields, by Message-ID. */
    function States(): map<string, CR.Receiver>
      reads this, chunkReceivers.Values
    {
      map k | k in chunkReceivers :: chunkReceivers[k].State()
    }

    /**
     * `checkReceivers(session)` (lines 907-929) at the clock reading `now`:
     * every receiver idle for longer than the chunk timeout is aborted and
     * forgotten and the application told, in the order `order` the `for-in`
     * visits them; the sweep stops once no receiver is left. A receiver
     * filed under two ids is aborted once either expires.
     */
    method CheckReceivers(now: int) returns (ghost order: seq<string>)
      modifies this, chunkReceivers.Values
      ensures var gone := Expired(old(States()), now, config.chunkTimeout);
        && (forall k :: k in order <==> k in gone)
        && Distinct(order)
        && chunkReceivers == old(chunkReceivers) - gone
        && Snap() == old(Snap()).(receivers := chunkReceivers, receiverCheck := old(receiverCheck) && chunkReceivers != map[],
             events := old(events) + Timeouts(order, old(States())))
      ensures var gone := Expired(old(States()), now, config.chunkTimeout);
        forall k :: k in old(chunkReceivers) ==>
          old(chunkReceivers)[k].State() == old(States())[k].(aborted := old(States())[k].aborted || old(chunkReceivers)[k] in Hit(old(chunkReceivers), gone))
    {
      ghost var s0 := States();
      ghost var m0 := chunkReceivers;
      ghost var gone := Expired(s0, now, config.chunkTimeout);
      assert Hit(m0, {}) == {};
      order := Sweep(now, m0, s0, gone);
      if chunkReceivers == map[] {
        receiverCheck := false;
      }
    }

    /** Lines 910-921: the `for-in` loop of the sweep, which expires the receivers `gone`. */
    method Sweep(now: int, ghost m0: map<string, CR.ChunkReceiver>, ghost s0: map<string, CR.Receiver>, ghost gone: set<string>)
      returns (ghost order: seq<string>)
      requires m0 == chunkReceivers && m0.Keys == s0.Keys && Aborts(m0, s0, {}) && gone == Expired(s0, now, config.chunkTimeout)
      requires gone <= m0.Keys
      modifies this, m0.Values
      ensures Sweeping(m0, chunkReceivers, s0, gone, {}, gone, order, old(events), events)
      ensures Snap() == old(Snap()).(receivers := chunkReceivers, events := events)
    {
      ghost var done: set<string> := {};
      var keys := chunkReceivers.Keys;
      order := [];
      while keys != {}
        invariant Sweeping(m0, chunkReceivers, s0, gone, keys, done, order, old(events), events)
        invariant Snap() == old(Snap()).(receivers := chunkReceivers, events := events)
        decreases |keys|
      {
        var k :| k in keys;
        Shrinks(keys, k);
        done, order := SweepStep(k, now, m0, s0, gone, keys, done, order, old(events));
        keys := keys - {k};
      }
      Emptied(gone, keys, done);
    }

    /** One turn of the sweep: the receiver under `k` is visited and, when idle too long, expired. */
    method SweepStep(k: string, now: int, ghost m0: map<string, CR.ChunkReceiver>, ghost s0: map<string, CR.Receiver>,
                     ghost gone: set<string>, ghost keys: set<string>, ghost done: set<string>, ghost order: seq<string>,
                     ghost e0: seq<Notify.Event>)
      returns (ghost done': set<string>, ghost order': seq<string>)
      requires k in keys && gone == Expired(s0, now, config.chunkTimeout)
      requires Sweeping(m0, chunkReceivers, s0, gone, keys, done, order, e0, events)
      modifies this, m0.Values
      ensures Sweeping(m0, chunkReceivers, s0, gone, keys - {k}, done', order', e0, events)
      ensures Snap() == old(Snap()).(receivers := chunkReceivers, events := events)
    {
      Visited(gone, keys, done, k);
      var receiver := chunkReceivers[k];
      assert receiver.State() == s0[k].(aborted := receiver.aborted);
      assert receiver.lastReceive == s0[k].lastReceive;
      if receiver.lastReceive.Some? && now - receiver.lastReceive.value > config.chunkTimeout {
        assert k in gone;
        order' := ExpireStep(k, m0, s0, done, order, e0);
        done' := done + {k};
      } else {
        assert k !in gone;
        order' := order;
        done' := done;
      }
    }

    /** The expiring turn of the sweep, for the receiver under `k`. */
    method ExpireStep(k: string, ghost m0: map<string, CR.ChunkReceiver>, ghost s0: map<string, CR.Receiver>,
                      ghost done: set<string>, ghost order: seq<string>, ghost e0: seq<Notify.Event>)
      returns (ghost order': seq<string>)
      requires k in m0 && k !in done
      requires Forgot(m0, chunkReceivers, s0, done, order) && Aborts(m0, s0, done) && events == e0 + Timeouts(order, s0)
      modifies this, m0[k]
      ensures Forgot(m0, chunkReceivers, s0, done + {k}, order')
      ensures Aborts(m0, s0, done + {k})
      ensures events == e0 + Timeouts(order', s0)
      ensures Snap() == old(Snap()).(receivers := chunkReceivers, events := events)
    {
      var receiver := chunkReceivers[k];
      assert receiver.State() == s0[k].(aborted := receiver.aborted);
      assert receiver.blob == s0[k].blob;
      HitGrows(m0, done, k);
      ghost var ev := Notify.MessageReceiveTimeout(k, s0[k].blob);
      TimeoutsSnoc(order, s0, k);
      DistinctSnoc(order, k);
      Appended(e0, Timeouts(order, s0), ev);
      Removed(m0, done, k);
      Expire(k);
      order' := order + [k];
      forall j | j in m0 && j in s0
        ensures m0[j].State() == s0[j].(aborted := s0[j].aborted || m0[j] in Hit(m0, done + {k}))
      {
        assert old(m0[j].State()) == s0[j].(aborted := s0[j].aborted || m0[j] in Hit(m0, done));
      }
    }

    /** Lines 913-920: one idle receiver is aborted and forgotten, and the application told. */
    method Expire(k: string)
      requires k in chunkReceivers
      modifies this, chunkReceivers[k]
      ensures old(chunkReceivers[k]).State() == old(chunkReceivers[k].State()).(aborted := true)
      ensures Snap() == old(Snap()).(receivers := old(chunkReceivers) - {k},
        events := old(events) + [Notify.MessageReceiveTimeout(k, old(chunkReceivers[k].blob))])
    {
      var receiver := chunkReceivers[k];
      receiver.Abort();
      chunkReceivers := chunkReceivers - {k};
      // an exception from this callback is swallowed
      events := events + [Notify.MessageReceiveTimeout(k, receiver.blob)];
    }

    // -------------------------------------------------------------------
    // the application's calls

    /**
     * `processSdpAnswer(answer)` (lines 204-266) at the clock reading
     * `now`: outside AWAIT_SDP and ESTABLISHED, or when no media line of
     * the parsed answer is usable, nothing happens and there is no
     * Message-ID. The first usable line gives the far end's path, appended
     * to the relay path as the To-Path, and its accepted types, and the
     * session is established. A session with no sender yet starts one for
     * its file, or an empty SEND, and returns its id; otherwise the id of
     * one of its senders is returned.
     */
    method ProcessSdpAnswer(answer: string, now: int) returns (mid: Option<string>, fx: seq<ConEffect>)
      modifies this, endpoint
      ensures var u := FirstUsable(Sdp.ParseSession(answer, now).1.media);
        !old(SdpReady()) || u.None? ==>
          mid.None? && fx == [] && Snap() == old(Snap()) && endpoint.toPath == old(endpoint.toPath)
      ensures var ms := Sdp.ParseSession(answer, now).1.media;
        var u := FirstUsable(ms);
        old(SdpReady()) && u.Some? ==>
          var m := ms[u.value];
          && endpoint.toPath == old(relayPath) + Listed(m, "path")
          && AuthPart() == Entered(old(AuthPart()).(farEndPath := Listed(m, "path")), Established, now)
          && acceptTypes == Listed(m, "accept-types") && acceptWrappedTypes == WrappedTypes(m)
          && (old(chunkSenders) != map[] ==>
                && mid.Some? && mid.value in old(chunkSenders) && fx == []
                && Snap() == old(Snap()).(auth := AuthPart(), acceptTypes := acceptTypes, acceptWrappedTypes := acceptWrappedTypes))
          && (old(chunkSenders) == map[] ==>
                var f := FirstSend(old(file));
                && mid == Some(ids(old(used))) && |fx| == 1 && fx[0].AddSender? && fresh(fx[0].sender)
                && fx[0].sender.State() == CS.Fresh(mid.value, f.body, f.contentType, f.disposition, f.description).(handler := true)
                && fx[0].sender.session == endpoint && fx[0].sender.chunkSize == config.chunkSize
                && Snap() == old(Snap()).(used := old(used) + 1, auth := AuthPart(), acceptTypes := acceptTypes,
                     acceptWrappedTypes := acceptWrappedTypes, senders := map[mid.value := fx[0].sender]))
    {
      mid, fx := None, [];
      if !SdpReady() {
        return;
      }
      var ms := Sdp.ParseSession(answer, now).1.media;
      var u := Search(ms);
      if u.None? {
        return;
      }
      Adopt(ms[u.value], now);
      if chunkSenders == map[] {
        var f := FirstSend(file);
        var sender := StartSender(f.body, f.contentType, f.disposition, f.description);
        mid, fx := Some(sender.messageId), [AddSender(sender)];
        return;
      }
      // the first key the `for-in` visits
      var k :| k in chunkSenders;
      mid := Some(k);
    }

    /** Lines 226-235: the far end's usable media line `m` is adopted and the session established. */
    method Adopt(m: Sdp.Media, now: int)
      requires Offered(m)
      modifies this, endpoint
      ensures endpoint.toPath == old(relayPath) + Listed(m, "path")
      ensures AuthPart() == Entered(old(AuthPart()).(farEndPath := Listed(m, "path")), Established, now)
      ensures Snap() == old(Snap()).(auth := AuthPart(), acceptTypes := Listed(m, "accept-types"), acceptWrappedTypes := WrappedTypes(m))
    {
      farEndPath := Listed(m, "path");
      endpoint.toPath := relayPath + farEndPath;
      acceptTypes := Listed(m, "accept-types");
      acceptWrappedTypes := WrappedTypes(m);
      var _ := ChangeState(Established, now);
    }

    /**
     * A new sender for the body, with the next Message-ID: its report
     * timeout handler is set, the connection is to queue it and the session
     * files it under its id.
     */
    method StartSender(body: CS.Content, contentType: Option<string>, disposition: Option<string>, description: Option<string>)
      returns (sender: CS.ChunkSender)
      modifies this
      ensures fresh(sender) && sender.messageId == ids(old(used))
      ensures sender.State() == CS.Fresh(ids(old(used)), body, contentType, disposition, description).(handler := true)
      ensures sender.session == endpoint && sender.chunkSize == config.chunkSize
      ensures Snap() == old(Snap()).(used := old(used) + 1, senders := old(chunkSenders)[sender.messageId := sender])
    {
      sender := new CS.ChunkSender(endpoint, ids(used), body, contentType, disposition, description, config.chunkSize);
      used := used + 1;
      sender.SetReportHandler(true);
      chunkSenders := chunkSenders[sender.messageId := sender];
    }

    /**
     * `send(body, contentType)` (lines 361-379): a session not yet
     * established throws; otherwise a new sender for the body, with the
     * content type `SendType` picks, is queued and its Message-ID returned.
     */
    method Send(body: CS.Content, contentType: Option<string>) returns (r: Outcome<string>, fx: seq<ConEffect>)
      modifies this
      ensures !old(established) ==>
        r == Threw("Unable to send, session not yet established") && fx == [] && Snap() == old(Snap())
      ensures old(established) ==>
        var mid := ids(old(used));
        && r == Returned(mid) && |fx| == 1 && fx[0].AddSender? && fresh(fx[0].sender)
        && fx[0].sender.State() == CS.Fresh(mid, body, SendType(body, contentType), None, None).(handler := true)
        && fx[0].sender.session == endpoint && fx[0].sender.chunkSize == config.chunkSize
        && Snap() == old(Snap()).(used := old(used) + 1, senders := old(chunkSenders)[mid := fx[0].sender])
    {
      if !established {
        return Threw("Unable to send, session not yet established"), [];
      }
      var sender := StartSender(body, SendType(body, contentType), None, None);
      return Returned(sender.messageId), [AddSender(sender)];
    }

    /**
     * `abortReceive(id)` (lines 386-402): a named id that has no receiver
     * throws a RangeError; a named id aborts its receiver; no id aborts
     * them all. Receivers are removed when their next chunk arrives.
     */
    method AbortReceive(id: Option<string>) returns (r: Outcome<()>)
      modifies chunkReceivers.Values
      ensures Named(id) && id.value !in chunkReceivers ==>
        r == Threw("RangeError: Invalid message id")
        && forall k :: k in chunkReceivers ==> chunkReceivers[k].State() == old(chunkReceivers[k].State())
      ensures Named(id) && id.value in chunkReceivers ==>
        && r == Returned(())
        && chunkReceivers[id.value].State() == old(chunkReceivers[id.value].State()).(aborted := true)
        && forall k :: k in chunkReceivers && chunkReceivers[k] != chunkReceivers[id.value] ==>
             chunkReceivers[k].State() == old(chunkReceivers[k].State())
      ensures !Named(id) ==>
        r == Returned(()) && forall k :: k in chunkReceivers ==> chunkReceivers[k].State() == old(chunkReceivers[k].State()).(aborted := true)
    {
      if Named(id) {
        if id.value !in chunkReceivers {
          return Threw("RangeError: Invalid message id");
        }
        chunkReceivers[id.value].Abort();
      } else {
        AbortReceivers(chunkReceivers);
      }
      return Returned(());
    }

    /**
     * `abortSend(id)` (lines 409-423): a named id that has no sender throws
     * a RangeError; a named id aborts its sender; no id aborts them all.
     * Senders are removed once their abort chunk has gone out.
     */
    method AbortSend(id: Option<string>) returns (r: Outcome<()>)
      modifies chunkSenders.Values
      ensures Named(id) && id.value !in chunkSenders ==>
        r == Threw("RangeError: Invalid message id")
        && forall k :: k in chunkSenders ==> chunkSenders[k].State() == old(chunkSenders[k].State())
      ensures Named(id) && id.value in chunkSenders ==>
        && r == Returned(())
        && chunkSenders[id.value].State() == old(chunkSenders[id.value].State()).(aborted := true)
        && forall k :: k in chunkSenders && chunkSenders[k] != chunkSenders[id.value] ==>
             chunkSenders[k].State() == old(chunkSenders[k].State())
      ensures !Named(id) ==>
        r == Returned(()) && forall k :: k in chunkSenders ==> chunkSenders[k].State() == old(chunkSenders[k].State()).(aborted := true)
    {
      if Named(id) {
        if id.value !in chunkSenders {
          return Threw("RangeError: Invalid message id");
        }
        chunkSenders[id.value].Abort();
      } else {
        AbortSenders(chunkSenders);
      }
      return Returned(());
    }

    /**
     * `close()` as written (lines 428-433): its first statement calls
     * `this.abortFileReceive()`, which sessions do not define, so the call
     * throws a TypeError before anything is aborted; the session keeps its
     * state and every receiver and sender is left as it was.
     */
    method CloseAsWritten() returns (r: Outcome<()>, fx: seq<ConEffect>)
      ensures r == Threw("TypeError: this.abortFileReceive is not a function") && fx == []
      ensures Snap() == old(Snap()) && state == old(state) && established == old(established)
      ensures forall k :: k in chunkReceivers ==> chunkReceivers[k].State() == old(chunkReceivers[k].State())
      ensures forall k :: k in chunkSenders ==> chunkSenders[k].State() == old(chunkSenders[k].State())
    {
      r, fx := Threw("TypeError: this.abortFileReceive is not a function"), [];
    }

    /**
     * What `close()` evidently means, with the `abortReceive()` and
     * `abortSend()` calls the data channel session's `close()` makes in
     * place of the two undefined ones: every receiver and sender is aborted
     * and the session enters CLOSED, which removes it from its connection.
     * (The clock is read only on entering AWAIT_SDP, so CLOSED is entered
     * at reading 0.)
     */
    method Close() returns (fx: seq<ConEffect>)
      modifies this, chunkReceivers.Values, chunkSenders.Values
      ensures forall k :: k in old(chunkReceivers) ==>
        old(chunkReceivers)[k].State() == old(chunkReceivers[k].State()).(aborted := true)
      ensures forall k :: k in old(chunkSenders) ==>
        old(chunkSenders)[k].State() == old(chunkSenders[k].State()).(aborted := true)
      ensures Snap() == old(Snap()).(auth := Entered(old(AuthPart()), Closed, 0))
      ensures fx == [RemoveSession(sessionId)]
    {
      AbortReceivers(chunkReceivers);
      AbortSenders(chunkSenders);
      fx := ChangeState(Closed, 0);
    }
  }
}
